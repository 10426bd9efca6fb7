/** The boat catalogue of the mock service layer: an in-memory list of boats
    that is searched through a chain of optional filters and updated by
    create (next id after the largest), merge-update and delete. */
module Boats {
  import opened Common

  /** A rentable boat. Prices, sizes and ratings are whole numbers here. */
  datatype Boat = Boat(
    id: int,
    name: string,
    boatType: string,
    location: string,
    city: string,
    destination: Option<string>,
    country: string,
    price: int,
    capacity: int,
    cabins: int,
    length: int,
    year: int,
    image: string,
    rating: int,
    reviews: int,
    equipment: seq<string>,
    description: string,
    ownerId: int,
    ownerName: string,
    ownerAvatar: string)

  /** The optional search criteria of a catalogue query. */
  datatype BoatFilters = BoatFilters(
    location: Option<string>,
    destination: Option<string>,
    boatType: Option<string>,
    priceMin: Option<int>,
    priceMax: Option<int>,
    capacityMin: Option<int>)

  /** What an owner supplies to list a new boat. */
  datatype NewBoat = NewBoat(
    name: string,
    boatType: string,
    location: string,
    city: string,
    destination: Option<string>,
    country: string,
    price: int,
    capacity: int,
    cabins: int,
    length: int,
    year: int,
    image: string,
    equipment: seq<string>,
    description: string,
    ownerId: int)

  /** An update: the id of the boat and any subset of the listing fields. */
  datatype BoatPatch = BoatPatch(
    id: int,
    name: Option<string>,
    boatType: Option<string>,
    location: Option<string>,
    city: Option<string>,
    destination: Option<string>,
    country: Option<string>,
    price: Option<int>,
    capacity: Option<int>,
    cabins: Option<int>,
    length: Option<int>,
    year: Option<int>,
    image: Option<string>,
    equipment: Option<seq<string>>,
    description: Option<string>,
    ownerId: Option<int>)

  // ---------------------------------------------------------------------
  // The filter chain of getBoats, one stage per criterion
  // ---------------------------------------------------------------------

  /** Location: a case-insensitive substring match, when a location is given. */
  predicate LocationStage(b: Boat, f: BoatFilters)
  {
    !Given(f.location) || ContainsIgnoringCase(b.location, f.location.value)
  }

  /** Destination: the boat must have a destination that contains the query. */
  predicate DestinationStage(b: Boat, f: BoatFilters)
  {
    !Given(f.destination) ||
    (Given(b.destination) && ContainsIgnoringCase(b.destination.value, f.destination.value))
  }

  /** Type: exact match, skipped when the type is absent or "all". */
  predicate TypeStage(b: Boat, f: BoatFilters)
  {
    !(Given(f.boatType) && f.boatType.value != "all") || b.boatType == f.boatType.value
  }

  predicate PriceMinStage(b: Boat, f: BoatFilters)
  {
    f.priceMin.None? || b.price >= f.priceMin.value
  }

  predicate PriceMaxStage(b: Boat, f: BoatFilters)
  {
    f.priceMax.None? || b.price <= f.priceMax.value
  }

  predicate CapacityStage(b: Boat, f: BoatFilters)
  {
    f.capacityMin.None? || b.capacity >= f.capacityMin.value
  }

  /** A boat passes a query when there are no filters or it passes every
      criterion at once. */
  predicate Matches(b: Boat, filters: Option<BoatFilters>)
  {
    filters.None? ||
    var f := filters.value;
    LocationStage(b, f) && DestinationStage(b, f) && TypeStage(b, f) &&
    PriceMinStage(b, f) && PriceMaxStage(b, f) && CapacityStage(b, f)
  }

  /** The key boats are looked up by. */
  function BoatId(b: Boat): int
  {
    b.id
  }

  /** No two boats share an id. */
  predicate DistinctIds(bs: seq<Boat>)
  {
    forall i, j :: 0 <= i < j < |bs| ==> bs[i].id != bs[j].id
  }

  /** `{...b, ...p}`: every field the patch carries overrides the boat's. */
  function Merge(b: Boat, p: BoatPatch): (r: Boat)
    ensures r.id == p.id
    ensures r.rating == b.rating && r.reviews == b.reviews
    ensures r.ownerName == b.ownerName && r.ownerAvatar == b.ownerAvatar
  {
    Boat(
      p.id,
      p.name.GetOr(b.name),
      p.boatType.GetOr(b.boatType),
      p.location.GetOr(b.location),
      p.city.GetOr(b.city),
      if p.destination.Some? then p.destination else b.destination,
      p.country.GetOr(b.country),
      p.price.GetOr(b.price),
      p.capacity.GetOr(b.capacity),
      p.cabins.GetOr(b.cabins),
      p.length.GetOr(b.length),
      p.year.GetOr(b.year),
      p.image.GetOr(b.image),
      b.rating,
      b.reviews,
      p.equipment.GetOr(b.equipment),
      p.description.GetOr(b.description),
      p.ownerId.GetOr(b.ownerId),
      b.ownerName,
      b.ownerAvatar)
  }

  /** Applying the same update twice is applying it once. */
  lemma MergeIdempotent(b: Boat, p: BoatPatch)
    ensures Merge(Merge(b, p), p) == Merge(b, p)
  {
  }

  /** The avatar of a new boat's owner: the first two characters of the
      owner id written in decimal, upper-cased. */
  function OwnerAvatar(ownerId: int): (r: string)
    ensures r == JsTake(IntString(ownerId), 2)
    ensures 1 <= |r| <= 2
  {
    var digits := JsTake(IntString(ownerId), 2);
    UpperNoLetters(digits);
    Upper(digits)
  }

  class BoatService {
    var boats: seq<Boat>

    constructor(initial: seq<Boat>)
      ensures boats == initial
    {
      boats := initial;
    }

    /** getBoats: the chain of filters over a copy of the catalogue. */
    function GetBoats(filters: Option<BoatFilters>): (r: seq<Boat>)
      reads this
      ensures r == Filter(boats, b => Matches(b, filters))
      ensures forall b :: b in r <==> b in boats && Matches(b, filters)
      ensures filters.None? ==> r == boats
    {
      FilterMembers(boats, b => Matches(b, filters));
      if filters.None? then
        FilterKeepsAll(boats, b => Matches(b, filters));
        boats
      else
        var f := filters.value;
        var byLocation := FilterWhen(boats, Given(f.location), b => LocationStage(b, f));
        var byDestination := FilterWhen(byLocation, Given(f.destination), b => DestinationStage(b, f));
        var byType := FilterWhen(byDestination, Given(f.boatType) && f.boatType.value != "all", b => TypeStage(b, f));
        var byPriceMin := FilterWhen(byType, f.priceMin.Some?, b => PriceMinStage(b, f));
        var byPriceMax := FilterWhen(byPriceMin, f.priceMax.Some?, b => PriceMaxStage(b, f));
        var byCapacity := FilterWhen(byPriceMax, f.capacityMin.Some?, b => CapacityStage(b, f));
        FilterChain6(boats, b => LocationStage(b, f), b => DestinationStage(b, f), b => TypeStage(b, f),
          b => PriceMinStage(b, f), b => PriceMaxStage(b, f), b => CapacityStage(b, f),
          b => Matches(b, filters));
        byCapacity
    }

    /** getBoatById: the first boat with that id, or null. */
    function GetBoatById(id: int): (r: Option<Boat>)
      reads this
      ensures r.None? <==> forall b :: b in boats ==> b.id != id
      ensures r.Some? ==> r.value.id == id && exists i :: FirstMatch(boats, (b: Boat) => b.id == id, i) && boats[i] == r.value
    {
      Find(boats, (b: Boat) => b.id == id)
    }

    /** getBoatsByOwner: exactly the owner's boats, in catalogue order. */
    function GetBoatsByOwner(ownerId: int): (r: seq<Boat>)
      reads this
      ensures forall b :: b in r <==> b in boats && b.ownerId == ownerId
      ensures forall b :: multiset(r)[b] == if b.ownerId == ownerId then multiset(boats)[b] else 0
      ensures IsSubsequence(r, boats)
    {
      FilterCount(boats, (b: Boat) => b.ownerId == ownerId);
      FilterMembers(boats, (b: Boat) => b.ownerId == ownerId);
      FilterSubsequence(boats, (b: Boat) => b.ownerId == ownerId);
      Filter(boats, (b: Boat) => b.ownerId == ownerId)
    }

    /** createBoat: appends the listing under the next id after the largest. */
    method CreateBoat(dto: NewBoat) returns (b: Boat)
      requires |boats| > 0
      modifies this
      ensures boats == old(boats) + [b]
      ensures b.id == MaxOf(Keys(old(boats), BoatId)) + 1
      ensures forall x :: x in old(boats) ==> x.id < b.id
      ensures b.rating == 0 && b.reviews == 0
      ensures b.ownerAvatar == JsTake(IntString(dto.ownerId), 2)
      ensures b.ownerName == "Nouveau Propriétaire"
      ensures b.name == dto.name && b.boatType == dto.boatType && b.location == dto.location
      ensures b.city == dto.city && b.destination == dto.destination && b.country == dto.country
      ensures b.price == dto.price && b.capacity == dto.capacity && b.cabins == dto.cabins
      ensures b.length == dto.length && b.year == dto.year && b.image == dto.image
      ensures b.equipment == dto.equipment && b.description == dto.description
      ensures b.ownerId == dto.ownerId
      ensures DistinctIds(old(boats)) ==> DistinctIds(boats)
    {
      var ids := Keys(boats, BoatId);
      var newId := MaxOf(ids) + 1;
      forall x | x in boats
        ensures x.id < newId
      {
        var i :| 0 <= i < |boats| && boats[i] == x;
        assert ids[i] == x.id && ids[i] in ids;
      }
      b := Boat(newId, dto.name, dto.boatType, dto.location, dto.city, dto.destination,
        dto.country, dto.price, dto.capacity, dto.cabins, dto.length, dto.year, dto.image,
        0, 0, dto.equipment, dto.description, dto.ownerId,
        "Nouveau Propriétaire", OwnerAvatar(dto.ownerId));
      boats := boats + [b];
    }

    /** updateBoat: merges the patch into the boat with that id. */
    method UpdateBoat(dto: BoatPatch) returns (r: Result<Boat>)
      modifies this
      ensures var i := IndexOf(old(boats), BoatId, dto.id);
        && (i == -1 ==> r == Err("Boat not found") && boats == old(boats))
        && (i >= 0 ==> r == Ok(Merge(old(boats)[i], dto)) && boats == old(boats)[i := r.value])
      ensures |boats| == |old(boats)|
      ensures DistinctIds(old(boats)) ==> DistinctIds(boats)
    {
      var index := IndexOf(boats, BoatId, dto.id);
      if index == -1 {
        r := Err("Boat not found");
        return;
      }
      var updated := Merge(boats[index], dto);
      boats := boats[index := updated];
      r := Ok(updated);
    }

    /** deleteBoat: removes the first boat with that id; false if none. */
    method DeleteBoat(id: int) returns (ok: bool)
      modifies this
      ensures ok <==> exists b :: b in old(boats) && b.id == id
      ensures var i := IndexOf(old(boats), BoatId, id);
        && (i == -1 ==> boats == old(boats))
        && (i >= 0 ==> boats == RemoveAt(old(boats), i))
      ensures ok ==> |boats| == |old(boats)| - 1
    {
      var index := IndexOf(boats, BoatId, id);
      if index == -1 {
        return false;
      }
      boats := RemoveAt(boats, index);
      return true;
    }
  }

  /** A catalogue query returns boats in catalogue order. */
  lemma GetBoatsKeepsOrder(s: BoatService, filters: Option<BoatFilters>)
    ensures IsSubsequence(s.GetBoats(filters), s.boats)
  {
    FilterSubsequence(s.boats, b => Matches(b, filters));
  }

  /** Giving a location in upper or lower case selects the same boats. */
  lemma LocationIgnoresCase(s: BoatService, f: BoatFilters, l: string)
    ensures s.GetBoats(Some(f.(location := Some(Lower(l))))) == s.GetBoats(Some(f.(location := Some(l))))
  {
    var fa, fb := f.(location := Some(Lower(l))), f.(location := Some(l));
    forall i | 0 <= i < |s.boats|
      ensures Matches(s.boats[i], Some(fa)) == Matches(s.boats[i], Some(fb))
    {
      MatchesIgnoresLocationCase(s.boats[i], f, l);
    }
    FilterExt(s.boats, b => Matches(b, Some(fa)), b => Matches(b, Some(fb)));
    assert s.GetBoats(Some(fa)) == Filter(s.boats, b => Matches(b, Some(fa)));
  }

  /** One boat passes a query with a location in any case alike. */
  lemma MatchesIgnoresLocationCase(b: Boat, f: BoatFilters, l: string)
    ensures Matches(b, Some(f.(location := Some(Lower(l))))) == Matches(b, Some(f.(location := Some(l))))
  {
    LowerIdempotent(l);
    var fa, fb := f.(location := Some(Lower(l))), f.(location := Some(l));
    assert |Lower(l)| == |l|;
    assert LocationStage(b, fa) == LocationStage(b, fb);
    assert DestinationStage(b, fa) == DestinationStage(b, fb);
    assert TypeStage(b, fa) == TypeStage(b, fb);
  }

  /** The type criterion "all" selects the same boats as no type at all. */
  lemma TypeAllIsNoFilter(s: BoatService, f: BoatFilters)
    ensures s.GetBoats(Some(f.(boatType := Some("all")))) == s.GetBoats(Some(f.(boatType := None)))
  {
    var fa, fb := f.(boatType := Some("all")), f.(boatType := None);
    FilterExt(s.boats, b => Matches(b, Some(fa)), b => Matches(b, Some(fb)));
  }

  /** A destination query never returns a boat without a destination. */
  lemma DestinationNeedsDestination(s: BoatService, f: BoatFilters, b: Boat)
    requires Given(f.destination)
    requires b in s.GetBoats(Some(f))
    ensures Given(b.destination)
  {
  }

  /** The numeric criteria are inclusive bounds. */
  lemma NumericBoundsInclusive(s: BoatService, f: BoatFilters, b: Boat)
    requires b in s.GetBoats(Some(f))
    ensures (f.priceMin.Some? ==> f.priceMin.value <= b.price) &&
            (f.priceMax.Some? ==> b.price <= f.priceMax.value) &&
            (f.capacityMin.Some? ==> f.capacityMin.value <= b.capacity)
  {
    assert PriceMinStage(b, f) && PriceMaxStage(b, f) && CapacityStage(b, f);
  }
}
