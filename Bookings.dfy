/** The booking ledger of the mock service layer: an in-memory list of
    bookings, queried through optional conjunctive filters and changed by
    create (no availability re-check), merge-update and cancel. */
module Bookings {
  import opened Common
  import Boats

  /** A reservation of a boat by a renter for a range of days. */
  datatype Booking = Booking(
    id: string,
    boatId: int,
    boatName: string,
    boatImage: string,
    startDate: Day,
    endDate: Day,
    totalPrice: int,
    serviceFee: int,
    status: string,
    ownerId: int,
    ownerName: string,
    renterId: int,
    renterName: string,
    createdAt: string)

  const Confirmed: string := "confirmed"
  const Cancelled: string := "cancelled"

  /** The optional criteria of a ledger query. */
  datatype BookingFilters = BookingFilters(
    renterId: Option<int>,
    ownerId: Option<int>,
    status: Option<string>,
    startDate: Option<Day>,
    endDate: Option<Day>)

  /** What the booking flow supplies to reserve a boat. */
  datatype NewBooking = NewBooking(
    boatId: int,
    startDate: Day,
    endDate: Day,
    totalPrice: int,
    serviceFee: int,
    renterId: int,
    renterName: string)

  /** An update: the id of the booking and any subset of its other fields. */
  datatype BookingPatch = BookingPatch(
    id: string,
    boatId: Option<int>,
    boatName: Option<string>,
    boatImage: Option<string>,
    startDate: Option<Day>,
    endDate: Option<Day>,
    totalPrice: Option<int>,
    serviceFee: Option<int>,
    status: Option<string>,
    ownerId: Option<int>,
    ownerName: Option<string>,
    renterId: Option<int>,
    renterName: Option<string>,
    createdAt: Option<string>)

  // ---------------------------------------------------------------------
  // The filter chain of getBookings, one stage per criterion
  // ---------------------------------------------------------------------

  predicate RenterStage(b: Booking, f: BookingFilters)
  {
    f.renterId.None? || b.renterId == f.renterId.value
  }

  predicate OwnerStage(b: Booking, f: BookingFilters)
  {
    f.ownerId.None? || b.ownerId == f.ownerId.value
  }

  /** Status: exact match, skipped when the status is absent or empty. */
  predicate StatusStage(b: Booking, f: BookingFilters)
  {
    !Given(f.status) || b.status == f.status.value
  }

  /** Start date: the booking starts on or after the given day. */
  predicate StartStage(b: Booking, f: BookingFilters)
  {
    f.startDate.None? || b.startDate >= f.startDate.value
  }

  /** End date: the booking ends on or before the given day. */
  predicate EndStage(b: Booking, f: BookingFilters)
  {
    f.endDate.None? || b.endDate <= f.endDate.value
  }

  /** A booking passes a query when there are no filters or it passes every
      criterion at once. */
  predicate Matches(b: Booking, filters: Option<BookingFilters>)
  {
    filters.None? ||
    var f := filters.value;
    RenterStage(b, f) && OwnerStage(b, f) && StatusStage(b, f) && StartStage(b, f) && EndStage(b, f)
  }

  /** The key bookings are looked up by. */
  function BookingId(b: Booking): string
  {
    b.id
  }

  /** The ledger after the booking at `i` is marked cancelled. */
  function CancelAt(bs: seq<Booking>, i: nat): (r: seq<Booking>)
    requires i < |bs|
    ensures |r| == |bs|
    ensures r[i].status == Cancelled
    ensures r[i] == bs[i].(status := Cancelled)
    ensures forall j :: 0 <= j < |bs| ==> r[j].id == bs[j].id
    ensures forall j :: 0 <= j < |bs| && j != i ==> r[j] == bs[j]
  {
    bs[i := bs[i].(status := Cancelled)]
  }

  /** Cancelling a booking a second time finds the same booking and leaves
      the ledger as the first cancellation left it. */
  lemma CancelIsIdempotent(bs: seq<Booking>, id: string)
    requires IndexOf(bs, BookingId, id) >= 0
    ensures var i := IndexOf(bs, BookingId, id);
            IndexOf(CancelAt(bs, i), BookingId, id) == i && CancelAt(CancelAt(bs, i), i) == CancelAt(bs, i)
  {
    var i := IndexOf(bs, BookingId, id);
    var once := CancelAt(bs, i);
    assert once[i].id == id;
    assert forall j :: 0 <= j < i ==> once[j].id != id;
  }

  /** `{...b, ...p}`: every field the patch carries overrides the booking's. */
  function Merge(b: Booking, p: BookingPatch): (r: Booking)
    ensures r.id == p.id
  {
    Booking(
      p.id,
      p.boatId.GetOr(b.boatId),
      p.boatName.GetOr(b.boatName),
      p.boatImage.GetOr(b.boatImage),
      p.startDate.GetOr(b.startDate),
      p.endDate.GetOr(b.endDate),
      p.totalPrice.GetOr(b.totalPrice),
      p.serviceFee.GetOr(b.serviceFee),
      p.status.GetOr(b.status),
      p.ownerId.GetOr(b.ownerId),
      p.ownerName.GetOr(b.ownerName),
      p.renterId.GetOr(b.renterId),
      p.renterName.GetOr(b.renterName),
      p.createdAt.GetOr(b.createdAt))
  }

  class BookingService {
    var bookings: seq<Booking>

    constructor(initial: seq<Booking>)
      ensures bookings == initial
    {
      bookings := initial;
    }

    /** getBookings: the chain of filters over a copy of the ledger. */
    function GetBookings(filters: Option<BookingFilters>): (r: seq<Booking>)
      reads this
      ensures r == Filter(bookings, b => Matches(b, filters))
      ensures forall b :: b in r <==> b in bookings && Matches(b, filters)
      ensures filters.None? ==> r == bookings
    {
      FilterMembers(bookings, b => Matches(b, filters));
      if filters.None? then
        FilterKeepsAll(bookings, b => Matches(b, filters));
        bookings
      else
        var f := filters.value;
        var byRenter := FilterWhen(bookings, f.renterId.Some?, b => RenterStage(b, f));
        var byOwner := FilterWhen(byRenter, f.ownerId.Some?, b => OwnerStage(b, f));
        var byStatus := FilterWhen(byOwner, Given(f.status), b => StatusStage(b, f));
        var byStart := FilterWhen(byStatus, f.startDate.Some?, b => StartStage(b, f));
        var byEnd := FilterWhen(byStart, f.endDate.Some?, b => EndStage(b, f));
        FilterChain5(bookings, b => RenterStage(b, f), b => OwnerStage(b, f), b => StatusStage(b, f),
          b => StartStage(b, f), b => EndStage(b, f), b => Matches(b, filters));
        byEnd
    }

    /** getBookingById: the first booking with that id, or null. */
    function GetBookingById(id: string): (r: Option<Booking>)
      reads this
      ensures r.None? <==> forall b :: b in bookings ==> b.id != id
      ensures r.Some? ==> r.value == bookings[IndexOf(bookings, BookingId, id)]
    {
      Find(bookings, (b: Booking) => b.id == id)
    }

    /** getBookingsByRenter: exactly the renter's bookings, in ledger order. */
    function GetBookingsByRenter(renterId: int): (r: seq<Booking>)
      reads this
      ensures forall b :: b in r <==> b in bookings && b.renterId == renterId
      ensures forall b :: multiset(r)[b] == if b.renterId == renterId then multiset(bookings)[b] else 0
      ensures IsSubsequence(r, bookings)
    {
      FilterCount(bookings, (b: Booking) => b.renterId == renterId);
      FilterMembers(bookings, (b: Booking) => b.renterId == renterId);
      FilterSubsequence(bookings, (b: Booking) => b.renterId == renterId);
      Filter(bookings, (b: Booking) => b.renterId == renterId)
    }

    /** getBookingsByOwner: exactly the owner's bookings, in ledger order. */
    function GetBookingsByOwner(ownerId: int): (r: seq<Booking>)
      reads this
      ensures forall b :: b in r <==> b in bookings && b.ownerId == ownerId
      ensures forall b :: multiset(r)[b] == if b.ownerId == ownerId then multiset(bookings)[b] else 0
      ensures IsSubsequence(r, bookings)
    {
      FilterCount(bookings, (b: Booking) => b.ownerId == ownerId);
      FilterMembers(bookings, (b: Booking) => b.ownerId == ownerId);
      FilterSubsequence(bookings, (b: Booking) => b.ownerId == ownerId);
      Filter(bookings, (b: Booking) => b.ownerId == ownerId)
    }

    /** createBooking: appends a confirmed booking for a boat of the
        catalogue, copying the boat's name, image and owner. The requested
        dates are not checked against other bookings. */
    method CreateBooking(dto: NewBooking, boats: seq<Boats.Boat>, id: string, createdAt: string)
      returns (r: Result<Booking>)
      modifies this
      ensures r.Err? <==> forall b :: b in boats ==> b.id != dto.boatId
      ensures r.Err? ==> r.message == "Boat not found" && bookings == old(bookings)
      ensures r.Ok? ==> bookings == old(bookings) + [r.value]
      ensures r.Ok? ==>
        var boat := boats[FindIndex(boats, (b: Boats.Boat) => b.id == dto.boatId)];
        && r.value.status == Confirmed
        && r.value.id == id && r.value.createdAt == createdAt
        && r.value.boatId == dto.boatId
        && r.value.boatName == boat.name && r.value.boatImage == boat.image
        && r.value.ownerId == boat.ownerId && r.value.ownerName == boat.ownerName
        && r.value.startDate == dto.startDate && r.value.endDate == dto.endDate
        && r.value.totalPrice == dto.totalPrice && r.value.serviceFee == dto.serviceFee
        && r.value.renterId == dto.renterId && r.value.renterName == dto.renterName
    {
      var found := Find(boats, (b: Boats.Boat) => b.id == dto.boatId);
      if found.None? {
        r := Err("Boat not found");
        return;
      }
      var boat := found.value;
      var booking := Booking(id, dto.boatId, boat.name, boat.image, dto.startDate, dto.endDate,
        dto.totalPrice, dto.serviceFee, Confirmed, boat.ownerId, boat.ownerName,
        dto.renterId, dto.renterName, createdAt);
      bookings := bookings + [booking];
      r := Ok(booking);
    }

    /** updateBooking: merges the patch into the booking with that id. */
    method UpdateBooking(dto: BookingPatch) returns (r: Result<Booking>)
      modifies this
      ensures var i := IndexOf(old(bookings), BookingId, dto.id);
        && (i == -1 ==> r == Err("Booking not found") && bookings == old(bookings))
        && (i >= 0 ==> r == Ok(Merge(old(bookings)[i], dto)) && bookings == old(bookings)[i := r.value])
      ensures |bookings| == |old(bookings)|
    {
      var index := IndexOf(bookings, BookingId, dto.id);
      if index == -1 {
        r := Err("Booking not found");
        return;
      }
      var updated := Merge(bookings[index], dto);
      bookings := bookings[index := updated];
      r := Ok(updated);
    }

    /** cancelBooking: marks the booking with that id cancelled. */
    method CancelBooking(id: string) returns (r: Result<Booking>)
      modifies this
      ensures var i := IndexOf(old(bookings), BookingId, id);
        && (i == -1 ==> r == Err("Booking not found") && bookings == old(bookings))
        && (i >= 0 ==> bookings == CancelAt(old(bookings), i) && r == Ok(bookings[i]))
    {
      var index := IndexOf(bookings, BookingId, id);
      if index == -1 {
        r := Err("Booking not found");
        return;
      }
      bookings := CancelAt(bookings, index);
      r := Ok(bookings[index]);
    }
  }

  /** A ledger query returns bookings in ledger order. */
  lemma GetBookingsKeepsOrder(s: BookingService, filters: Option<BookingFilters>)
    ensures IsSubsequence(s.GetBookings(filters), s.bookings)
  {
    FilterSubsequence(s.bookings, b => Matches(b, filters));
  }

  /** The date criteria keep bookings that start on or after the given start
      and end on or before the given end. */
  lemma DateFiltersBound(s: BookingService, f: BookingFilters, b: Booking)
    requires b in s.GetBookings(Some(f))
    ensures (f.startDate.Some? ==> b.startDate >= f.startDate.value) &&
            (f.endDate.Some? ==> b.endDate <= f.endDate.value)
  {
    assert StartStage(b, f) && EndStage(b, f);
  }
}
