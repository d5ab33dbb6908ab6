/** The dashboard's figures: recent deals, total pipeline value,
    conversion rate, hot contacts, and each stage's deal count and value.
    The stage list is a parameter. */
module Dashboard {
  import opened Types
  import Seqs
  import DealsList

  /** How many deals the "recent deals" panel shows. */
  const RecentCount := 5

  /** The stage name that counts a deal as won; stages are matched by name
      here, not by id. */
  const WonStageName := "Closed Won"

  /** `deals.slice(0, 5)`: the first five deals in store order, or all of
      them when there are fewer. */
  function RecentDeals(deals: seq<Deal>): (r: seq<Deal>)
    ensures |r| == if |deals| < RecentCount then |deals| else RecentCount
    ensures forall i :: 0 <= i < |r| ==> r[i] == deals[i]
  {
    if |deals| < RecentCount then deals else deals[..RecentCount]
  }

  predicate IsWon(d: Deal) {
    d.stage.name == WonStageName
  }

  /** The number of won deals: the positions whose deal's stage is named
      "Closed Won". */
  function WonDeals(deals: seq<Deal>): (r: nat)
    ensures r <= |deals|
    ensures r == |set i | 0 <= i < |deals| && deals[i].stage.name == WonStageName|
  {
    Seqs.FilterCount(deals, IsWon);
    assert Seqs.IndexSet(deals, IsWon) == set i | 0 <= i < |deals| && deals[i].stage.name == WonStageName;
    |Seqs.Filter(deals, IsWon)|
  }

  /** The won deals as a percentage of all deals; 0 when there are none. */
  function ConversionRate(deals: seq<Deal>): (r: real)
    ensures 0.0 <= r <= 100.0
    ensures deals == [] ==> r == 0.0
    ensures deals != [] ==> r * |deals| as real == WonDeals(deals) as real * 100.0
    ensures deals != [] && WonDeals(deals) == |deals| ==> r == 100.0
  {
    if |deals| > 0 then Percent(WonDeals(deals) as real, |deals| as real) else 0.0
  }

  /** `part / whole * 100` for `0 <= part <= whole`: it lies in `[0, 100]`,
      scales back to `part` and is 100 exactly when the part is the whole. */
  function Percent(part: real, whole: real): (r: real)
    requires 0.0 <= part <= whole && whole > 0.0
    ensures 0.0 <= r <= 100.0
    ensures r * whole == part * 100.0
    ensures part == whole ==> r == 100.0
  {
    var q := part / whole;
    assert q * whole == part;
    assert 0.0 <= q <= 1.0;
    assert part == whole ==> (q - 1.0) * whole == 0.0;
    q * 100.0
  }

  /** The number of contacts whose status is hot: the positions holding a
      hot contact. */
  function HotContacts(contacts: seq<Contact>): (r: nat)
    ensures r <= |contacts|
    ensures r == |set i | 0 <= i < |contacts| && contacts[i].status == Hot|
  {
    var hot := (c: Contact) => c.status == Hot;
    Seqs.FilterCount(contacts, hot);
    assert Seqs.IndexSet(contacts, hot) == set i | 0 <= i < |contacts| && contacts[i].status == Hot;
    |Seqs.Filter(contacts, hot)|
  }

  /** The deals in a stage, by the stage's id, in store order. */
  function StageDeals(deals: seq<Deal>, stageId: string): (r: seq<Deal>)
    ensures forall d :: d in r <==> d in deals && d.stage.id == stageId
  {
    var inStage := (d: Deal) => d.stage.id == stageId;
    Seqs.FilterMembers(deals, inStage);
    Seqs.Filter(deals, inStage)
  }

  /** The summed value of a stage's deals. */
  function StageValue(deals: seq<Deal>, stageId: string): real {
    DealsList.TotalValue(StageDeals(deals, stageId))
  }

  // ---------------------------------------------------------------------
  // the pipeline overview adds up

  function StageIds(stages: seq<PipelineStage>): set<string> {
    set i | 0 <= i < |stages| :: stages[i].id
  }

  /** The deal counts of the listed stages, added up. */
  function StagesCount(stages: seq<PipelineStage>, deals: seq<Deal>): nat {
    if stages == [] then 0 else |StageDeals(deals, stages[0].id)| + StagesCount(stages[1..], deals)
  }

  /** The stage values of the listed stages, added up. */
  function StagesValue(stages: seq<PipelineStage>, deals: seq<Deal>): real {
    if stages == [] then 0.0 else StageValue(deals, stages[0].id) + StagesValue(stages[1..], deals)
  }

  /** Every deal sits in one of the stages. */
  predicate Covered(stages: seq<PipelineStage>, deals: seq<Deal>) {
    forall i :: 0 <= i < |deals| ==> deals[i].stage.id in StageIds(stages)
  }

  /** Removing the deals of a stage that is not listed changes no listed
      stage's count or value. */
  lemma {:induction false} StagesIgnoreOther(stages: seq<PipelineStage>, deals: seq<Deal>, other: string)
    requires other !in StageIds(stages)
    ensures StagesCount(stages, deals) == StagesCount(stages, Seqs.Filter(deals, (d: Deal) => d.stage.id != other))
    ensures StagesValue(stages, deals) == StagesValue(stages, Seqs.Filter(deals, (d: Deal) => d.stage.id != other))
  {
    if stages != [] {
      var id := stages[0].id;
      assert id in StageIds(stages);
      assert StageIds(stages[1..]) <= StageIds(stages) by {
        forall x | x in StageIds(stages[1..]) ensures x in StageIds(stages) {
          var i :| 0 <= i < |stages[1..]| && stages[1..][i].id == x;
          assert stages[i + 1].id == x;
        }
      }
      StagesIgnoreOther(stages[1..], deals, other);
      var notOther := (d: Deal) => d.stage.id != other;
      var inStage := (d: Deal) => d.stage.id == id;
      var both := (d: Deal) => d.stage.id != other && d.stage.id == id;
      Seqs.FilterFilter(deals, notOther, inStage, both);
      Seqs.FilterExt(deals, both, inStage);
    }
  }

  /** With distinct stage ids and every deal in one of the stages, the
      overview's counts add up to the number of deals and its values to the
      total pipeline value. */
  lemma {:induction false} StagesAddUp(stages: seq<PipelineStage>, deals: seq<Deal>)
    requires DistinctStageIds(stages)
    requires Covered(stages, deals)
    ensures StagesCount(stages, deals) == |deals|
    ensures StagesValue(stages, deals) == DealsList.TotalValue(deals)
  {
    if stages != [] {
      var id := stages[0].id;
      var inStage := (d: Deal) => d.stage.id == id;
      var notInStage := (d: Deal) => d.stage.id != id;
      var rest := Seqs.Filter(deals, notInStage);
      Seqs.FilterMembers(deals, notInStage);
      assert id !in StageIds(stages[1..]) by {
        forall i | 0 <= i < |stages[1..]| ensures stages[1..][i].id != id {
          assert stages[1..][i] == stages[i + 1];
        }
      }
      StagesIgnoreOther(stages[1..], deals, id);
      assert Covered(stages[1..], rest) by {
        forall i | 0 <= i < |rest| ensures rest[i].stage.id in StageIds(stages[1..]) {
          var j :| 0 <= j < |deals| && deals[j] == rest[i];
          var x := rest[i].stage.id;
          assert x in StageIds(stages);
          var k :| 0 <= k < |stages| && stages[k].id == x;
          assert k != 0;
          assert stages[1..][k - 1].id == x;
        }
      }
      StagesAddUp(stages[1..], rest);
      Seqs.FilterComplement(deals, inStage, notInStage);
      Seqs.SumSplit(deals, (d: Deal) => d.value, inStage, notInStage);
    }
  }

  /** A list with no won deal converts at 0 percent. */
  lemma ConversionRateNoneWon(deals: seq<Deal>)
    requires forall i :: 0 <= i < |deals| ==> !IsWon(deals[i])
    ensures ConversionRate(deals) == 0.0
  {
    Seqs.FilterKeepsNone(deals, IsWon);
  }

  /** A non-empty list of won deals converts at 100 percent. */
  lemma ConversionRateAllWon(deals: seq<Deal>)
    requires deals != []
    requires forall i :: 0 <= i < |deals| ==> IsWon(deals[i])
    ensures ConversionRate(deals) == 100.0
  {
    Seqs.FilterKeepsAll(deals, IsWon);
  }
}
