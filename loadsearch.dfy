/**
 * The load search service: the loads whose equipment matches the request
 * (ignoring case), whose origin contains the requested origin text (ignoring
 * case) and whose pickup is not before the requested time, best rate first,
 * at most five of them.
 *
 * A listing is one record of the load list. A missing text field reads as
 * "", a rate is None when the key is missing (and then sorts as 0), and
 * the pickup is kept as the raw JSON value,
 * since only a string pickup can be parsed. ISO-8601 parsing is not part of
 * this model: `parseIso` stands for `datetime.fromisoformat`, giving a point
 * in time (as an integer count) or None where it raises.
 */
module LoadSearch {
  import opened Wrappers
  import opened Json
  import opened Text
  import opened Ranking

  datatype Listing = Listing(
    loadId: string,
    equipmentType: string,
    origin: string,
    pickupDatetime: Value,
    loadboardRate: Option<real>)

  datatype SearchQuery = SearchQuery(
    equipmentType: string,
    origin: Option<string>,
    pickupAfter: Option<int>)

  const MaxResults := 5

  /** The sort key: `item.get("loadboard_rate", 0)`. */
  function Rate(load: Listing): real {
    load.loadboardRate.GetOr(0.0)
  }

  /** The pickup moment of a listing, when its pickup is a string that parses. */
  function PickupTime(load: Listing, parseIso: string -> Option<int>): Option<int> {
    if load.pickupDatetime.Str? then parseIso(load.pickupDatetime.s) else None
  }

  /** `matches`: equipment, origin and pickup tests, each able to reject the load. */
  predicate Matches(load: Listing, query: SearchQuery, parseIso: string -> Option<int>) {
    && Lower(load.equipmentType) == Lower(query.equipmentType)
    && (query.origin.None? || query.origin.value == [] || Contains(Lower(load.origin), Lower(query.origin.value)))
    && (query.pickupAfter.None? ||
        (PickupTime(load, parseIso).Some? && PickupTime(load, parseIso).value >= query.pickupAfter.value))
  }

  /** The matching loads in list order. */
  function Matching(loads: seq<Listing>, query: SearchQuery, parseIso: string -> Option<int>): (r: seq<Listing>)
    ensures forall i :: 0 <= i < |r| ==> r[i] in loads && Matches(r[i], query, parseIso)
    ensures forall i :: 0 <= i < |loads| && Matches(loads[i], query, parseIso) ==> loads[i] in r
  {
    Filter(loads, (load: Listing) => Matches(load, query, parseIso))
  }

  /** Matching keeps list order and multiplicity: it distributes over concatenation. */
  lemma MatchingAppend(a: seq<Listing>, b: seq<Listing>, query: SearchQuery, parseIso: string -> Option<int>)
    ensures Matching(a + b, query, parseIso) == Matching(a, query, parseIso) + Matching(b, query, parseIso)
  {
    FilterAppend(a, b, (load: Listing) => Matches(load, query, parseIso));
  }

  /** A single load is kept, once, exactly when it matches. */
  lemma MatchingOne(load: Listing, query: SearchQuery, parseIso: string -> Option<int>)
    ensures Matching([load], query, parseIso) == if Matches(load, query, parseIso) then [load] else []
  {
    assert [load][..0] == [];
  }

  /** The matching loads best rate first; equal rates keep list order. */
  function Ranked(loads: seq<Listing>, query: SearchQuery, parseIso: string -> Option<int>): (r: seq<Listing>)
    ensures multiset(r) == multiset(Matching(loads, query, parseIso))
  {
    SortDesc(Matching(loads, query, parseIso), Rate)
  }

  /** search_loads: the first five of the ranked matches. */
  function SearchLoads(loads: seq<Listing>, query: SearchQuery, parseIso: string -> Option<int>): (r: seq<Listing>)
    ensures |r| <= MaxResults
  {
    Take(Ranked(loads, query, parseIso), MaxResults)
  }

  /** Every returned load is one of the loads and passes every test. */
  lemma SearchLoadsSound(loads: seq<Listing>, query: SearchQuery, parseIso: string -> Option<int>)
    ensures forall i :: 0 <= i < |SearchLoads(loads, query, parseIso)| ==>
      SearchLoads(loads, query, parseIso)[i] in loads && Matches(SearchLoads(loads, query, parseIso)[i], query, parseIso)
  {
    var matching := Matching(loads, query, parseIso);
    var ranked := Ranked(loads, query, parseIso);
    var r := SearchLoads(loads, query, parseIso);
    forall i | 0 <= i < |r|
      ensures r[i] in loads && Matches(r[i], query, parseIso)
    {
      assert r[i] == ranked[i];
      assert r[i] in multiset(ranked);
      assert r[i] in multiset(matching);
      var k :| 0 <= k < |matching| && matching[k] == r[i];
    }
  }

  /** Each test, spelled out for a returned load. */
  lemma SearchLoadsFilters(loads: seq<Listing>, query: SearchQuery, parseIso: string -> Option<int>, i: nat)
    requires i < |SearchLoads(loads, query, parseIso)|
    ensures var load := SearchLoads(loads, query, parseIso)[i];
      && Lower(load.equipmentType) == Lower(query.equipmentType)
      && (query.origin.Some? && query.origin.value != [] ==> Contains(Lower(load.origin), Lower(query.origin.value)))
      && (query.pickupAfter.Some? ==>
            load.pickupDatetime.Str? && parseIso(load.pickupDatetime.s).Some? &&
            parseIso(load.pickupDatetime.s).value >= query.pickupAfter.value)
  {
    SearchLoadsSound(loads, query, parseIso);
  }

  /** An absent origin and an empty one both leave the origin unrestricted. */
  lemma EmptyOriginUnrestricted(load: Listing, query: SearchQuery, parseIso: string -> Option<int>)
    requires query.origin == Some("")
    ensures Matches(load, query, parseIso) == Matches(load, query.(origin := None), parseIso)
  {
  }

  /** The results come best rate first. */
  lemma SearchLoadsSorted(loads: seq<Listing>, query: SearchQuery, parseIso: string -> Option<int>)
    ensures SortedDesc(SearchLoads(loads, query, parseIso), Rate)
  {
    SortDescSorted(Matching(loads, query, parseIso), Rate);
  }

  /** Matches of equal rate are ranked in list order (the sort is stable). */
  lemma RankedStable(loads: seq<Listing>, query: SearchQuery, parseIso: string -> Option<int>, rate: real)
    ensures WithKey(Ranked(loads, query, parseIso), Rate, rate) == WithKey(Matching(loads, query, parseIso), Rate, rate)
  {
    SortDescStable(Matching(loads, query, parseIso), Rate, rate);
  }

  /** No match left out has a better rate than a returned one. */
  lemma SearchLoadsTopRated(loads: seq<Listing>, query: SearchQuery, parseIso: string -> Option<int>)
    ensures forall i, j :: 0 <= i < |SearchLoads(loads, query, parseIso)| <= j < |Ranked(loads, query, parseIso)| ==>
      Rate(SearchLoads(loads, query, parseIso)[i]) >= Rate(Ranked(loads, query, parseIso)[j])
  {
    SortDescSorted(Matching(loads, query, parseIso), Rate);
    TakeOutranksRest(Ranked(loads, query, parseIso), Rate, MaxResults);
  }

  /** With at most five matches, every match is returned. */
  lemma FewMatchesAllReturned(loads: seq<Listing>, query: SearchQuery, parseIso: string -> Option<int>)
    requires |Matching(loads, query, parseIso)| <= MaxResults
    ensures multiset(SearchLoads(loads, query, parseIso)) == multiset(Matching(loads, query, parseIso))
  {
  }
}
