/** The destination catalogue of the mock service layer: read-only queries
    (lookup, free-text search, region, most popular) over a constant list. */
module Destinations {
  import opened Common

  /** A sailing destination and the number of boats offered there. */
  datatype Destination = Destination(
    id: int,
    name: string,
    country: string,
    description: string,
    boats: int)

  const DefaultPopularLimit: int := 4

  /** getAllDestinations: a copy of the catalogue. */
  function GetAllDestinations(destinations: seq<Destination>): (r: seq<Destination>)
    ensures |r| == |destinations| && forall i :: 0 <= i < |r| ==> r[i] == destinations[i]
  {
    destinations
  }

  /** getDestinationById: the first destination with that id, or null. */
  function GetDestinationById(destinations: seq<Destination>, id: int): (r: Option<Destination>)
    ensures r.None? <==> forall d :: d in destinations ==> d.id != id
    ensures r.Some? ==> r.value.id == id &&
                        exists i :: FirstMatch(destinations, (d: Destination) => d.id == id, i) && destinations[i] == r.value
  {
    Find(destinations, (d: Destination) => d.id == id)
  }

  /** The search criterion for an already lower-cased query: it occurs in
      the lower-cased name, country or description. */
  predicate MatchesQuery(d: Destination, lowerQuery: string)
  {
    Contains(Lower(d.name), lowerQuery) ||
    Contains(Lower(d.country), lowerQuery) ||
    Contains(Lower(d.description), lowerQuery)
  }

  /** searchDestinations: everything for an empty query, otherwise the
      destinations whose name, country or description holds the query,
      ignoring case, in catalogue order. */
  function SearchDestinations(destinations: seq<Destination>, query: string): (r: seq<Destination>)
    ensures query == "" ==> r == destinations
    ensures query != "" ==>
              forall d :: d in r <==> (d in destinations &&
                (ContainsIgnoringCase(d.name, query) || ContainsIgnoringCase(d.country, query) ||
                 ContainsIgnoringCase(d.description, query)))
    ensures query != "" ==>
              forall d :: multiset(r)[d] ==
                (if ContainsIgnoringCase(d.name, query) || ContainsIgnoringCase(d.country, query) ||
                    ContainsIgnoringCase(d.description, query)
                 then multiset(destinations)[d] else 0)
  {
    if query == "" then destinations
    else
      var lowerQuery := Lower(query);
      FilterCount(destinations, d => MatchesQuery(d, lowerQuery));
      FilterMembers(destinations, d => MatchesQuery(d, lowerQuery));
      Filter(destinations, d => MatchesQuery(d, lowerQuery))
  }

  /** A search returns destinations in catalogue order. */
  lemma SearchKeepsOrder(destinations: seq<Destination>, query: string)
    ensures IsSubsequence(SearchDestinations(destinations, query), destinations)
  {
    if query != "" {
      FilterSubsequence(destinations, d => MatchesQuery(d, Lower(query)));
    } else {
      FilterKeepsAll(destinations, (d: Destination) => true);
      FilterSubsequence(destinations, (d: Destination) => true);
    }
  }

  /** Searching for a destination's own name finds it. */
  lemma SearchFindsByName(destinations: seq<Destination>, d: Destination)
    requires d in destinations
    ensures d in SearchDestinations(destinations, d.name)
  {
    ContainsTrivial(Lower(d.name));
  }

  /** The search does not depend on the case of the query. */
  lemma SearchIgnoresCase(destinations: seq<Destination>, query: string)
    ensures SearchDestinations(destinations, Lower(query)) == SearchDestinations(destinations, query)
  {
    LowerIdempotent(query);
    if query != "" {
      assert Lower(query) != "";
      FilterExt(destinations, d => MatchesQuery(d, Lower(Lower(query))), d => MatchesQuery(d, Lower(query)));
    }
  }

  /** The region criterion: the country equals the region or the name holds
      it, both ignoring case. */
  predicate InRegion(d: Destination, region: string)
  {
    Lower(d.country) == Lower(region) || Contains(Lower(d.name), Lower(region))
  }

  /** getDestinationsByRegion: the destinations in the region, in order. */
  function GetDestinationsByRegion(destinations: seq<Destination>, region: string): (r: seq<Destination>)
    ensures forall d :: d in r <==> d in destinations && InRegion(d, region)
    ensures forall d :: multiset(r)[d] == if InRegion(d, region) then multiset(destinations)[d] else 0
    ensures IsSubsequence(r, destinations)
  {
    FilterCount(destinations, d => InRegion(d, region));
    FilterSubsequence(destinations, d => InRegion(d, region));
    FilterMembers(destinations, d => InRegion(d, region));
    Filter(destinations, d => InRegion(d, region))
  }

  /** The empty region is held by every name, so it selects everything. */
  lemma EmptyRegionSelectsAll(destinations: seq<Destination>)
    ensures GetDestinationsByRegion(destinations, "") == destinations
  {
    forall i | 0 <= i < |destinations|
      ensures InRegion(destinations[i], "")
    {
      ContainsTrivial(Lower(destinations[i].name));
    }
    FilterKeepsAll(destinations, d => InRegion(d, ""));
  }

  /** The sort key that puts the most boats first. */
  function MostBoatsFirst(d: Destination): int
  {
    -d.boats
  }

  /** A prefix of a list sorted by most boats is sorted that way and takes
      nothing the list does not hold. */
  lemma PopularPrefix(sorted: seq<Destination>, n: nat)
    requires SortedBy(sorted, MostBoatsFirst)
    requires n <= |sorted|
    ensures forall i, j :: 0 <= i < j < n ==> sorted[i].boats >= sorted[j].boats
    ensures multiset(sorted[..n]) <= multiset(sorted)
  {
    forall i, j | 0 <= i < j < n
      ensures sorted[i].boats >= sorted[j].boats
    {
      assert MostBoatsFirst(sorted[i]) <= MostBoatsFirst(sorted[j]);
    }
    assert sorted == sorted[..n] + sorted[n..];
    assert multiset(sorted) == multiset(sorted[..n]) + multiset(sorted[n..]);
  }

  /** getPopularDestinations: the first `limit` (default 4) destinations of
      the catalogue sorted by boat count, most first. */
  function GetPopularDestinations(destinations: seq<Destination>, limit: Option<int>): (r: seq<Destination>)
    ensures var n := limit.GetOr(DefaultPopularLimit);
            n >= 0 ==> |r| == if n < |destinations| then n else |destinations|
    ensures var n := limit.GetOr(DefaultPopularLimit);
            n < 0 ==> |r| == if |destinations| + n > 0 then |destinations| + n else 0
    ensures forall i, j :: 0 <= i < j < |r| ==> r[i].boats >= r[j].boats
    ensures multiset(r) <= multiset(destinations)
    ensures |r| <= |destinations| && r == SortBy(destinations, MostBoatsFirst)[..|r|]
  {
    var sorted := SortBy(destinations, MostBoatsFirst);
    var r := JsTake(sorted, limit.GetOr(DefaultPopularLimit));
    PopularPrefix(sorted, |r|);
    r
  }

  /** Every destination left out of the popular ones has no more boats than
      any destination returned. */
  lemma PopularAreTheMostBooked(destinations: seq<Destination>, limit: Option<int>, i: int, j: int)
    requires 0 <= i < |GetPopularDestinations(destinations, limit)| <= j < |destinations|
    ensures GetPopularDestinations(destinations, limit)[i].boats >= SortBy(destinations, MostBoatsFirst)[j].boats
  {
    var sorted := SortBy(destinations, MostBoatsFirst);
    assert MostBoatsFirst(sorted[i]) <= MostBoatsFirst(sorted[j]);
  }
}
