/** The deals store: the list of deals with add, update and delete.
    New deals go to the front; every update stamps `updatedAt`. The clock
    (`Date.now()` for the id, `new Date().toISOString()` for timestamps) is
    passed in as `id` and `now`. */
module DealsStore {
  import opened Wrappers
  import opened Types
  import Seqs

  /** The form's deal: a deal without id, timestamps and activities. */
  datatype NewDeal = NewDeal(
    title: string,
    value: real,
    stage: PipelineStage,
    contactId: string,
    contact: Contact,
    probability: int,
    closeDate: string,
    description: string)

  /** `Partial<Deal>`: the properties an update names; `None` leaves the
      property as it was. */
  datatype DealPatch = DealPatch(
    id: Option<string>,
    title: Option<string>,
    value: Option<real>,
    stage: Option<PipelineStage>,
    contactId: Option<string>,
    contact: Option<Contact>,
    probability: Option<int>,
    closeDate: Option<string>,
    description: Option<string>,
    activities: Option<seq<Activity>>,
    createdAt: Option<string>,
    updatedAt: Option<string>)

  const EmptyPatch := DealPatch(None, None, None, None, None, None, None, None, None, None, None, None)

  /** The patch `{ stage }` that a drag on the board sends. */
  function StagePatch(stage: PipelineStage): DealPatch {
    EmptyPatch.(stage := Some(stage))
  }

  /** The deal `addDeal` builds: the form's fields, the new id, no
      activities, and both timestamps set to now. */
  function CreateDeal(data: NewDeal, id: string, now: string): Deal {
    Deal(id, data.title, data.value, data.stage, data.contactId, data.contact,
         data.probability, data.closeDate, data.description, [], now, now)
  }

  /** The form data a deal was built from. */
  function FormPart(d: Deal): NewDeal {
    NewDeal(d.title, d.value, d.stage, d.contactId, d.contact, d.probability,
            d.closeDate, d.description)
  }

  /** `{ ...deal, ...updates }`: each property the patch names is replaced,
      every other one is kept. */
  function Merge(d: Deal, p: DealPatch): Deal {
    Deal(p.id.GetOr(d.id), p.title.GetOr(d.title), p.value.GetOr(d.value),
         p.stage.GetOr(d.stage), p.contactId.GetOr(d.contactId),
         p.contact.GetOr(d.contact), p.probability.GetOr(d.probability),
         p.closeDate.GetOr(d.closeDate), p.description.GetOr(d.description),
         p.activities.GetOr(d.activities), p.createdAt.GetOr(d.createdAt),
         p.updatedAt.GetOr(d.updatedAt))
  }

  /** `{ ...deal, ...updates, updatedAt: now }`: the merge, with `updatedAt`
      written last, so it is now whatever the patch says. */
  function Touch(d: Deal, p: DealPatch, now: string): Deal {
    Merge(d, p).(updatedAt := now)
  }

  /** The list `updateDeal` leaves: every deal with id `dealId` merged with
      the patch and stamped, every other deal as it was. */
  function UpdateDeals(deals: seq<Deal>, dealId: string, p: DealPatch, now: string): (r: seq<Deal>)
    ensures |r| == |deals|
  {
    seq(|deals|, i requires 0 <= i < |deals| =>
      if deals[i].id == dealId then Touch(deals[i], p, now) else deals[i])
  }

  /** The list `deleteDeal` leaves: the deals whose id differs, in order. */
  function DeleteDeals(deals: seq<Deal>, dealId: string): seq<Deal> {
    Seqs.Filter(deals, (d: Deal) => d.id != dealId)
  }

  /** The ids of the deals, without repeats. */
  function Ids(deals: seq<Deal>): set<string> {
    set i | 0 <= i < |deals| :: deals[i].id
  }

  /** No two deals share an id. */
  predicate UniqueIds(deals: seq<Deal>) {
    forall i, j :: 0 <= i < j < |deals| ==> deals[i].id != deals[j].id
  }

  // ---------------------------------------------------------------------
  // the store

  class DealStore {
    var deals: seq<Deal>

    constructor (initial: seq<Deal>)
      ensures deals == initial
    {
      deals := initial;
    }

    /** `addDeal`: builds the deal and puts it in front of the list. */
    method AddDeal(data: NewDeal, id: string, now: string) returns (d: Deal)
      modifies this
      ensures d == CreateDeal(data, id, now)
      ensures deals == [d] + old(deals)
    {
      d := CreateDeal(data, id, now);
      deals := [d] + deals;
    }

    /** `updateDeal`: merges the patch into the deals with that id. */
    method UpdateDeal(dealId: string, updates: DealPatch, now: string)
      modifies this
      ensures deals == UpdateDeals(old(deals), dealId, updates, now)
    {
      deals := UpdateDeals(deals, dealId, updates, now);
    }

    /** `deleteDeal`: drops the deals with that id. */
    method DeleteDeal(dealId: string)
      modifies this
      ensures deals == DeleteDeals(old(deals), dealId)
    {
      deals := DeleteDeals(deals, dealId);
    }
  }

  // ---------------------------------------------------------------------
  // what the operations promise

  /** A new deal carries every field of the form, no activities, the given
      id, and now as both timestamps; no other deal's id is reused when the
      id is fresh. */
  lemma CreateDealFields(data: NewDeal, id: string, now: string, deals: seq<Deal>)
    requires UniqueIds(deals) && id !in Ids(deals)
    ensures FormPart(CreateDeal(data, id, now)) == data
    ensures CreateDeal(data, id, now).activities == []
    ensures CreateDeal(data, id, now).id == id
    ensures CreateDeal(data, id, now).createdAt == now == CreateDeal(data, id, now).updatedAt
    ensures UniqueIds([CreateDeal(data, id, now)] + deals)
  {
    var r := [CreateDeal(data, id, now)] + deals;
    forall i, j | 0 <= i < j < |r| ensures r[i].id != r[j].id {
      if i == 0 {
        assert r[j] == deals[j - 1];
        assert deals[j - 1].id in Ids(deals);
      } else {
        assert r[i] == deals[i - 1] && r[j] == deals[j - 1];
      }
    }
  }

  /** The updated deal: what the patch names is replaced, the rest is kept,
      and `updatedAt` is now even when the patch carries its own. */
  lemma TouchFields(d: Deal, p: DealPatch, now: string)
    ensures Touch(d, p, now).updatedAt == now
    ensures p.title.None? ==> Touch(d, p, now).title == d.title
    ensures p.title.Some? ==> Touch(d, p, now).title == p.title.value
    ensures p.stage.None? ==> Touch(d, p, now).stage == d.stage
    ensures p.stage.Some? ==> Touch(d, p, now).stage == p.stage.value
    ensures Touch(d, p, now).(updatedAt := d.updatedAt) == Merge(d, p).(updatedAt := d.updatedAt)
    ensures Touch(d, EmptyPatch, now) == d.(updatedAt := now)
  {
  }

  /** Updating with the same patch twice (at the same time) is updating once. */
  lemma TouchIdempotent(d: Deal, p: DealPatch, now: string)
    ensures Touch(Touch(d, p, now), p, now) == Touch(d, p, now)
  {
  }

  /** `updateDeal` keeps length and order; deals with another id are
      untouched; the matching deals are merged and stamped. */
  lemma UpdateDealsSpec(deals: seq<Deal>, dealId: string, p: DealPatch, now: string)
    ensures |UpdateDeals(deals, dealId, p, now)| == |deals|
    ensures forall i :: 0 <= i < |deals| && deals[i].id != dealId ==>
              UpdateDeals(deals, dealId, p, now)[i] == deals[i]
    ensures forall i :: 0 <= i < |deals| && deals[i].id == dealId ==>
              UpdateDeals(deals, dealId, p, now)[i] == Touch(deals[i], p, now)
  {
  }

  /** Updating an id that is not in the list changes nothing. */
  lemma UpdateDealsAbsent(deals: seq<Deal>, dealId: string, p: DealPatch, now: string)
    requires dealId !in Ids(deals)
    ensures UpdateDeals(deals, dealId, p, now) == deals
  {
    forall i | 0 <= i < |deals| ensures UpdateDeals(deals, dealId, p, now)[i] == deals[i] {
      assert deals[i].id in Ids(deals);
    }
  }

  /** A patch that leaves the id alone keeps the ids unique. */
  lemma UpdateDealsKeepsUniqueIds(deals: seq<Deal>, dealId: string, p: DealPatch, now: string)
    requires UniqueIds(deals) && p.id.None?
    ensures UniqueIds(UpdateDeals(deals, dealId, p, now))
    ensures Ids(UpdateDeals(deals, dealId, p, now)) == Ids(deals)
  {
    var r := UpdateDeals(deals, dealId, p, now);
    assert forall i :: 0 <= i < |deals| ==> r[i].id == deals[i].id;
    forall x | x in Ids(r) ensures x in Ids(deals) {
      var i :| 0 <= i < |r| && r[i].id == x;
    }
    forall x | x in Ids(deals) ensures x in Ids(r) {
      var i :| 0 <= i < |deals| && deals[i].id == x;
    }
  }

  /** `deleteDeal` keeps exactly the deals with another id, every copy of
      them, in order, and the id is gone afterwards. */
  lemma DeleteDealsSpec(deals: seq<Deal>, dealId: string)
    ensures Seqs.IsSubseq(DeleteDeals(deals, dealId), deals)
    ensures forall i :: 0 <= i < |deals| && deals[i].id != dealId ==> deals[i] in DeleteDeals(deals, dealId)
    ensures dealId !in Ids(DeleteDeals(deals, dealId))
    ensures forall d :: d in multiset(deals) ==>
              multiset(DeleteDeals(deals, dealId))[d] == if d.id != dealId then multiset(deals)[d] else 0
    ensures multiset(DeleteDeals(deals, dealId)) <= multiset(deals)
  {
    Seqs.FilterIsSubseq(deals, (d: Deal) => d.id != dealId);
    Seqs.FilterMultiset(deals, (d: Deal) => d.id != dealId);
    Seqs.FilterMembers(deals, (d: Deal) => d.id != dealId);
    var r := DeleteDeals(deals, dealId);
    forall x | x in Ids(r) ensures x != dealId {
      var i :| 0 <= i < |r| && r[i].id == x;
    }
  }

  /** Deleting an id that is not in the list changes nothing. */
  lemma DeleteDealsAbsent(deals: seq<Deal>, dealId: string)
    requires dealId !in Ids(deals)
    ensures DeleteDeals(deals, dealId) == deals
  {
    forall i | 0 <= i < |deals| ensures deals[i].id != dealId {
      assert deals[i].id in Ids(deals);
    }
    Seqs.FilterKeepsAll(deals, (d: Deal) => d.id != dealId);
  }

  /** Deleting the same id twice is deleting it once. */
  lemma DeleteDealsIdempotent(deals: seq<Deal>, dealId: string)
    ensures DeleteDeals(DeleteDeals(deals, dealId), dealId) == DeleteDeals(deals, dealId)
  {
    Seqs.FilterIdempotent(deals, (d: Deal) => d.id != dealId);
  }

  /** Deleting a deal just added with a fresh id gives the old list back. */
  lemma DeleteUndoesAdd(deals: seq<Deal>, data: NewDeal, id: string, now: string)
    requires id !in Ids(deals)
    ensures DeleteDeals([CreateDeal(data, id, now)] + deals, id) == deals
  {
    Seqs.FilterAppend([CreateDeal(data, id, now)], deals, (d: Deal) => d.id != id);
    DeleteDealsAbsent(deals, id);
  }
}
