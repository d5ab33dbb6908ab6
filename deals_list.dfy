/** The deals list: search and stage filter, the sort chosen in the
    "sort by" menu, and the totals shown above the list. Dates are compared
    by their time stamps, which `time` gives (`new Date(s).getTime()`). */
module DealsList {
  import opened Types
  import opened Text
  import Seqs

  /** The stage filter's value that lets every deal through. */
  const All := "all"

  /** The search term occurs, ignoring case, in the title or in the name or
      company of the deal's contact. */
  predicate MatchesSearch(d: Deal, term: string) {
    MatchesTerm(d.title, term) || MatchesTerm(d.contact.name, term) || MatchesTerm(d.contact.company, term)
  }

  predicate MatchesStage(d: Deal, filter: string) {
    filter == All || d.stage.id == filter
  }

  predicate Shown(d: Deal, term: string, filter: string) {
    MatchesSearch(d, term) && MatchesStage(d, filter)
  }

  /** The filter step: the deals shown, in store order. */
  function FilterDeals(deals: seq<Deal>, term: string, filter: string): (r: seq<Deal>)
    ensures forall d :: d in r <==> d in deals && Shown(d, term, filter)
  {
    var keep := (d: Deal) => Shown(d, term, filter);
    Seqs.FilterMembers(deals, keep);
    Seqs.Filter(deals, keep)
  }

  /** The comparator as one number per deal: `sort` with it orders deals
      by ascending key. Descending orders negate; an unknown choice gives
      every deal the same key, as the comparator's `return 0` does. */
  function DealKey(sortBy: string, time: string -> int, d: Deal): real {
    if sortBy == "value" then -d.value
    else if sortBy == "probability" then -(d.probability as real)
    else if sortBy == "closeDate" then time(d.closeDate) as real
    else if sortBy == "updated" then -(time(d.updatedAt) as real)
    else 0.0
  }

  /** The sort step. */
  function SortDeals(deals: seq<Deal>, sortBy: string, time: string -> int): seq<Deal> {
    Seqs.SortBy(deals, (d: Deal) => DealKey(sortBy, time, d))
  }

  /** `filteredAndSortedDeals`. */
  function DealsView(deals: seq<Deal>, term: string, filter: string, sortBy: string,
                     time: string -> int): seq<Deal>
  {
    SortDeals(FilterDeals(deals, term, filter), sortBy, time)
  }

  /** The sum of the deals' values. */
  function TotalValue(deals: seq<Deal>): real {
    Seqs.Sum(deals, (d: Deal) => d.value)
  }

  function ProbabilitySum(deals: seq<Deal>): real {
    Seqs.Sum(deals, (d: Deal) => d.probability as real)
  }

  /** The mean probability; an empty list divides 0 by 0, which the
      `|| 0` turns into 0. */
  function AverageProbability(deals: seq<Deal>): (r: real)
    ensures deals == [] ==> r == 0.0
    ensures deals != [] ==> r * |deals| as real == ProbabilitySum(deals)
  {
    if |deals| == 0 then 0.0 else ProbabilitySum(deals) / |deals| as real
  }

  // ---------------------------------------------------------------------
  // what the view promises

  /** The view holds exactly the shown deals, each as often as in the store. */
  lemma DealsViewPermutation(deals: seq<Deal>, term: string, filter: string, sortBy: string,
                             time: string -> int)
    ensures multiset(DealsView(deals, term, filter, sortBy, time)) == multiset(FilterDeals(deals, term, filter))
  {
    Seqs.SortByPermutation(FilterDeals(deals, term, filter), (d: Deal) => DealKey(sortBy, time, d));
  }

  /** Each menu choice orders the view as its label says. */
  lemma SortDealsOrder(deals: seq<Deal>, sortBy: string, time: string -> int)
    ensures sortBy == "value" ==> forall i, j :: 0 <= i < j < |SortDeals(deals, sortBy, time)| ==>
              SortDeals(deals, sortBy, time)[i].value >= SortDeals(deals, sortBy, time)[j].value
    ensures sortBy == "probability" ==> forall i, j :: 0 <= i < j < |SortDeals(deals, sortBy, time)| ==>
              SortDeals(deals, sortBy, time)[i].probability >= SortDeals(deals, sortBy, time)[j].probability
    ensures sortBy == "closeDate" ==> forall i, j :: 0 <= i < j < |SortDeals(deals, sortBy, time)| ==>
              time(SortDeals(deals, sortBy, time)[i].closeDate) <= time(SortDeals(deals, sortBy, time)[j].closeDate)
    ensures sortBy == "updated" ==> forall i, j :: 0 <= i < j < |SortDeals(deals, sortBy, time)| ==>
              time(SortDeals(deals, sortBy, time)[i].updatedAt) >= time(SortDeals(deals, sortBy, time)[j].updatedAt)
  {
    var key := (d: Deal) => DealKey(sortBy, time, d);
    Seqs.SortBySorted(deals, key);
    var r := SortDeals(deals, sortBy, time);
    assert forall i, j :: 0 <= i < j < |r| ==> key(r[i]) <= key(r[j]);
  }

  /** Deals the chosen order cannot tell apart keep their store order. */
  lemma SortDealsStable(deals: seq<Deal>, sortBy: string, time: string -> int, k: real)
    ensures Seqs.KeyClass(SortDeals(deals, sortBy, time), (d: Deal) => DealKey(sortBy, time, d), k)
         == Seqs.KeyClass(deals, (d: Deal) => DealKey(sortBy, time, d), k)
  {
    Seqs.SortByStable(deals, (d: Deal) => DealKey(sortBy, time, d), k);
  }

  /** A sort choice the comparator does not know keeps the filtered order. */
  lemma SortDealsUnknownKeepsOrder(deals: seq<Deal>, sortBy: string, time: string -> int)
    requires sortBy != "value" && sortBy != "probability" && sortBy != "closeDate" && sortBy != "updated"
    ensures SortDeals(deals, sortBy, time) == deals
  {
    Seqs.SortByConstantKey(deals, (d: Deal) => DealKey(sortBy, time, d), 0.0);
  }

  /** The totals do not depend on the order: summing the sorted view is
      summing the filtered deals. */
  lemma DealsViewTotals(deals: seq<Deal>, term: string, filter: string, sortBy: string,
                        time: string -> int)
    ensures TotalValue(DealsView(deals, term, filter, sortBy, time)) == TotalValue(FilterDeals(deals, term, filter))
    ensures AverageProbability(DealsView(deals, term, filter, sortBy, time))
         == AverageProbability(FilterDeals(deals, term, filter))
  {
    var key := (d: Deal) => DealKey(sortBy, time, d);
    var shown := FilterDeals(deals, term, filter);
    Seqs.SumSortBy(shown, key, (d: Deal) => d.value);
    Seqs.SumSortBy(shown, key, (d: Deal) => d.probability as real);
  }

  /** When every probability lies in `[lo, hi]`, so does the average of a
      non-empty list. */
  lemma AverageProbabilityBounds(deals: seq<Deal>, lo: int, hi: int)
    requires deals != []
    requires forall i :: 0 <= i < |deals| ==> lo <= deals[i].probability <= hi
    ensures lo as real <= AverageProbability(deals) <= hi as real
  {
    var f := (d: Deal) => d.probability as real;
    Seqs.SumBounds(deals, f, lo as real, hi as real);
    ScaledBounds(AverageProbability(deals), |deals| as real, ProbabilitySum(deals), lo as real, hi as real);
  }

  /** Dividing bounds by a positive count: a total between `n * lo` and
      `n * hi` puts `total / n` between `lo` and `hi`. */
  lemma ScaledBounds(x: real, n: real, total: real, lo: real, hi: real)
    requires n > 0.0 && x * n == total && n * lo <= total <= n * hi
    ensures lo <= x <= hi
  {
  }

  /** The values of the shown deals and of the hidden ones add up to the
      value of the whole store. */
  lemma TotalValueSplits(deals: seq<Deal>, term: string, filter: string)
    ensures TotalValue(deals)
         == TotalValue(FilterDeals(deals, term, filter))
          + TotalValue(Seqs.Filter(deals, (d: Deal) => !Shown(d, term, filter)))
  {
    Seqs.SumSplit(deals, (d: Deal) => d.value, (d: Deal) => Shown(d, term, filter),
                  (d: Deal) => !Shown(d, term, filter));
  }
}
