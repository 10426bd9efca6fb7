/** The availability engine of the mock service layer. For one boat it
    aggregates the bookings that still occupy it and the periods its owner
    blocked by hand into one list ordered by start day, optionally restricted
    to a window of days; it decides whether a requested range is free,
    optionally ignoring one booking; and it keeps, per boat, the list of
    blocked periods that owners add and remove.

    The date helpers the engine calls (`validateBookingDates`,
    `checkDateRangeOverlap`) are not part of this model: they are passed in
    as functions, and their boundaries are left open. */
module Availability {
  import opened Common
  import opened Bookings

  /** Where an unavailable period comes from. */
  datatype PeriodKind = BookingPeriod | BlockedPeriod

  /** A range of days during which a boat cannot be booked. For a booking,
      `referenceId` is the booking id, `reason` its status and `details` the
      renter's name; for a blocked period they are a generated id, the
      owner's reason and nothing. */
  datatype Period = Period(
    kind: PeriodKind,
    referenceId: string,
    startDate: Day,
    endDate: Day,
    reason: string,
    details: Option<string>)

  /** The verdict of the date validator on a requested range. */
  datatype Validation = Valid | Invalid(error: Option<string>)

  /** The answer to an availability query. */
  datatype AvailabilityCheck = AvailabilityCheck(isAvailable: bool, message: string)

  /** A period to block for a boat named separately. */
  datatype BlockRequest = BlockRequest(startDate: Day, endDate: Day, reason: Option<string>)

  /** A period to block, naming its boat. */
  datatype BoatBlockRequest = BoatBlockRequest(boatId: int, startDate: Day, endDate: Day, reason: Option<string>)

  /** The date validator (a function of the two requested days). */
  type Validator = (Day, Day) -> Validation

  /** The overlap test of a requested range (first two days) against one
      period (last two days). */
  type OverlapTest = (Day, Day, Day, Day) -> bool

  const InvalidDates: string := "Dates invalides"
  const ConflictMessage: string := "Ce bateau est déjà réservé ou indisponible sur cette période"
  const AvailableMessage: string := "Le bateau est disponible sur cette période"
  const DefaultBlockReason: string := "Bloqué"
  const PeriodNotFound: string := "Période non trouvée"

  /** `validation.error || 'Dates invalides'`. */
  function InvalidMessage(v: Validation): (m: string)
    requires v.Invalid?
    ensures Given(v.error) ==> m == v.error.value
    ensures !Given(v.error) ==> m == InvalidDates
  {
    OrDefault(v.error, InvalidDates)
  }

  // ---------------------------------------------------------------------
  // Aggregation: bookings and blocked periods of one boat
  // ---------------------------------------------------------------------

  /** A booking occupies its boat unless it was cancelled. */
  predicate Occupies(b: Booking, boatId: int)
  {
    b.boatId == boatId && b.status != Cancelled
  }

  /** The bookings of the boat that are not cancelled, in ledger order. */
  function ActiveBookings(bookings: seq<Booking>, boatId: int): seq<Booking>
  {
    Filter(bookings, b => Occupies(b, boatId))
  }

  /** The active bookings are exactly the boat's bookings not cancelled. */
  lemma ActiveBookingsMembers(bookings: seq<Booking>, boatId: int)
    ensures forall b :: b in ActiveBookings(bookings, boatId) <==> b in bookings && Occupies(b, boatId)
  {
    FilterMembers(bookings, b => Occupies(b, boatId));
  }

  /** The window filter: it applies only when both bounds are given, and then
      drops exactly the ranges that end before the window starts or start
      after it ends, so a range touching a bound is kept. */
  predicate InWindow(start: Day, end: Day, windowStart: Option<Day>, windowEnd: Option<Day>)
  {
    !(windowStart.Some? && windowEnd.Some?) || !(end < windowStart.value || start > windowEnd.value)
  }

  /** The unavailable period a booking stands for. */
  function BookingEntry(b: Booking): (p: Period)
    ensures p.kind == BookingPeriod && p.referenceId == b.id && p.reason == b.status
    ensures p.startDate == b.startDate && p.endDate == b.endDate
  {
    Period(BookingPeriod, b.id, b.startDate, b.endDate, b.status, Some(b.renterName))
  }

  /** The entries of the bookings that lie in the window, in order. */
  function BookingEntries(bs: seq<Booking>, windowStart: Option<Day>, windowEnd: Option<Day>): (r: seq<Period>)
    ensures |r| <= |bs|
  {
    if bs == [] then []
    else
      var last := bs[|bs| - 1];
      var init := BookingEntries(bs[..|bs| - 1], windowStart, windowEnd);
      if InWindow(last.startDate, last.endDate, windowStart, windowEnd) then init + [BookingEntry(last)] else init
  }

  /** The entries are exactly those of the bookings that lie in the window. */
  lemma {:induction false} BookingEntriesMembers(bs: seq<Booking>, windowStart: Option<Day>, windowEnd: Option<Day>)
    ensures forall b :: b in bs && InWindow(b.startDate, b.endDate, windowStart, windowEnd) ==>
              BookingEntry(b) in BookingEntries(bs, windowStart, windowEnd)
    ensures forall p :: p in BookingEntries(bs, windowStart, windowEnd) ==>
              exists b :: b in bs && InWindow(b.startDate, b.endDate, windowStart, windowEnd) && p == BookingEntry(b)
  {
    if bs != [] {
      var init := bs[..|bs| - 1];
      BookingEntriesMembers(init, windowStart, windowEnd);
      assert bs == init + [bs[|bs| - 1]];
    }
  }

  /** The blocked periods that lie in the window, in order. */
  function BlockedEntries(ps: seq<Period>, windowStart: Option<Day>, windowEnd: Option<Day>): seq<Period>
  {
    Filter(ps, (p: Period) => InWindow(p.startDate, p.endDate, windowStart, windowEnd))
  }

  /** The kept blocked periods are exactly those that lie in the window. */
  lemma BlockedEntriesMembers(ps: seq<Period>, windowStart: Option<Day>, windowEnd: Option<Day>)
    ensures forall p :: p in BlockedEntries(ps, windowStart, windowEnd) <==>
              p in ps && InWindow(p.startDate, p.endDate, windowStart, windowEnd)
  {
    FilterMembers(ps, (p: Period) => InWindow(p.startDate, p.endDate, windowStart, windowEnd));
  }

  /** One more booking extends the entries by its own entry when it lies in
      the window. */
  lemma BookingEntriesStep(bs: seq<Booking>, i: int, windowStart: Option<Day>, windowEnd: Option<Day>)
    requires 0 <= i < |bs|
    ensures BookingEntries(bs[..i + 1], windowStart, windowEnd) ==
            BookingEntries(bs[..i], windowStart, windowEnd) +
            (if InWindow(bs[i].startDate, bs[i].endDate, windowStart, windowEnd) then [BookingEntry(bs[i])] else [])
  {
    assert bs[..i + 1][..i] == bs[..i];
  }

  /** One more blocked period extends the kept ones by itself when it lies in
      the window. */
  lemma BlockedEntriesStep(ps: seq<Period>, j: int, windowStart: Option<Day>, windowEnd: Option<Day>)
    requires 0 <= j < |ps|
    ensures BlockedEntries(ps[..j + 1], windowStart, windowEnd) ==
            BlockedEntries(ps[..j], windowStart, windowEnd) +
            (if InWindow(ps[j].startDate, ps[j].endDate, windowStart, windowEnd) then [ps[j]] else [])
  {
    assert ps[..j + 1][..j] == ps[..j];
  }

  /** The periods gathered before sorting: booking entries, then blocked ones. */
  function Collected(bookings: seq<Booking>, blocked: seq<Period>, boatId: int,
                     windowStart: Option<Day>, windowEnd: Option<Day>): seq<Period>
  {
    BookingEntries(ActiveBookings(bookings, boatId), windowStart, windowEnd) +
    BlockedEntries(blocked, windowStart, windowEnd)
  }

  /** The sort key of the aggregated list. */
  function StartOf(p: Period): int
  {
    p.startDate
  }

  /** The aggregated list: the collected periods ordered by start day. */
  function Aggregate(bookings: seq<Booking>, blocked: seq<Period>, boatId: int,
                     windowStart: Option<Day>, windowEnd: Option<Day>): (r: seq<Period>)
    ensures SortedBy(r, StartOf)
    ensures multiset(r) == multiset(Collected(bookings, blocked, boatId, windowStart, windowEnd))
  {
    SortBy(Collected(bookings, blocked, boatId, windowStart, windowEnd), StartOf)
  }

  /** Everything in the aggregated list is either the entry of a booking of
      that boat that is not cancelled and lies in the window, or one of the
      boat's blocked periods that lies in the window. */
  lemma AggregateSound(bookings: seq<Booking>, blocked: seq<Period>, boatId: int,
                       windowStart: Option<Day>, windowEnd: Option<Day>, p: Period)
    requires p in Aggregate(bookings, blocked, boatId, windowStart, windowEnd)
    ensures || (exists b :: b in bookings && Occupies(b, boatId) &&
                            InWindow(b.startDate, b.endDate, windowStart, windowEnd) && p == BookingEntry(b))
            || (p in blocked && InWindow(p.startDate, p.endDate, windowStart, windowEnd))
  {
    var active := ActiveBookings(bookings, boatId);
    assert p in multiset(Collected(bookings, blocked, boatId, windowStart, windowEnd));
    ActiveBookingsMembers(bookings, boatId);
    BookingEntriesMembers(active, windowStart, windowEnd);
    BlockedEntriesMembers(blocked, windowStart, windowEnd);
    if p in BookingEntries(active, windowStart, windowEnd) {
      var b :| b in active && InWindow(b.startDate, b.endDate, windowStart, windowEnd) && p == BookingEntry(b);
      assert b in bookings && Occupies(b, boatId);
    }
  }

  /** Every booking of that boat that is not cancelled and lies in the window
      has its entry in the aggregated list, and so has every blocked period
      of the boat that lies in the window. */
  lemma AggregateComplete(bookings: seq<Booking>, blocked: seq<Period>, boatId: int,
                          windowStart: Option<Day>, windowEnd: Option<Day>)
    ensures forall b :: b in bookings && Occupies(b, boatId) && InWindow(b.startDate, b.endDate, windowStart, windowEnd)
              ==> BookingEntry(b) in Aggregate(bookings, blocked, boatId, windowStart, windowEnd)
    ensures forall q :: q in blocked && InWindow(q.startDate, q.endDate, windowStart, windowEnd)
              ==> q in Aggregate(bookings, blocked, boatId, windowStart, windowEnd)
  {
    var all := Aggregate(bookings, blocked, boatId, windowStart, windowEnd);
    var collected := Collected(bookings, blocked, boatId, windowStart, windowEnd);
    var active := ActiveBookings(bookings, boatId);
    ActiveBookingsMembers(bookings, boatId);
    BookingEntriesMembers(active, windowStart, windowEnd);
    BlockedEntriesMembers(blocked, windowStart, windowEnd);
    forall b | b in bookings && Occupies(b, boatId) && InWindow(b.startDate, b.endDate, windowStart, windowEnd)
      ensures BookingEntry(b) in all
    {
      assert b in active;
      assert BookingEntry(b) in collected;
      assert BookingEntry(b) in multiset(all);
    }
    forall q | q in blocked && InWindow(q.startDate, q.endDate, windowStart, windowEnd)
      ensures q in all
    {
      assert q in collected;
      assert q in multiset(all);
    }
  }

  // ---------------------------------------------------------------------
  // The availability decision
  // ---------------------------------------------------------------------

  /** A period is set aside by the exclusion when an id to exclude is given
      and the period's reference is that id. */
  predicate Excluded(p: Period, excludeBookingId: Option<string>)
  {
    Given(excludeBookingId) && p.referenceId == excludeBookingId.value
  }

  /** The periods still checked once the exclusion is applied. */
  function Remaining(ps: seq<Period>, excludeBookingId: Option<string>): (r: seq<Period>)
    ensures forall p :: p in r <==> p in ps && !Excluded(p, excludeBookingId)
  {
    if Given(excludeBookingId) then
      FilterMembers(ps, (p: Period) => p.referenceId != excludeBookingId.value);
      Filter(ps, (p: Period) => p.referenceId != excludeBookingId.value)
    else
      ps
  }

  /** Some period overlaps the requested range, by the overlap test. */
  predicate HasOverlap(startDate: Day, endDate: Day, ps: seq<Period>, overlaps: OverlapTest)
  {
    exists i | 0 <= i < |ps| :: overlaps(startDate, endDate, ps[i].startDate, ps[i].endDate)
  }

  /** The conflict condition stated on the engine's inputs: some booking of
      the boat that is not cancelled, or some blocked period of the boat,
      lies in the requested range's window, is not excluded and overlaps. */
  predicate Conflicts(bookings: seq<Booking>, blocked: seq<Period>, boatId: int,
                      startDate: Day, endDate: Day, excludeBookingId: Option<string>, overlaps: OverlapTest)
  {
    || (exists b :: b in bookings && Occupies(b, boatId) &&
                   InWindow(b.startDate, b.endDate, Some(startDate), Some(endDate)) &&
                   !Excluded(BookingEntry(b), excludeBookingId) &&
                   overlaps(startDate, endDate, b.startDate, b.endDate))
    || (exists q :: q in blocked &&
                   InWindow(q.startDate, q.endDate, Some(startDate), Some(endDate)) &&
                   !Excluded(q, excludeBookingId) &&
                   overlaps(startDate, endDate, q.startDate, q.endDate))
  }

  /** The overlap found in the aggregated list after exclusion is exactly a
      conflict with one of the engine's inputs: the exclusion drops only
      periods whose reference is the excluded id, and every other booking and
      blocked period of the boat in the window is still checked. */
  lemma OverlapIffConflict(bookings: seq<Booking>, blocked: seq<Period>, boatId: int,
                           startDate: Day, endDate: Day, excludeBookingId: Option<string>, overlaps: OverlapTest)
    ensures HasOverlap(startDate, endDate,
              Remaining(Aggregate(bookings, blocked, boatId, Some(startDate), Some(endDate)), excludeBookingId), overlaps)
            <==> Conflicts(bookings, blocked, boatId, startDate, endDate, excludeBookingId, overlaps)
  {
    if HasOverlap(startDate, endDate,
         Remaining(Aggregate(bookings, blocked, boatId, Some(startDate), Some(endDate)), excludeBookingId), overlaps) {
      OverlapIsConflict(bookings, blocked, boatId, startDate, endDate, excludeBookingId, overlaps);
    }
    if Conflicts(bookings, blocked, boatId, startDate, endDate, excludeBookingId, overlaps) {
      ConflictIsOverlap(bookings, blocked, boatId, startDate, endDate, excludeBookingId, overlaps);
    }
  }

  /** An overlapping period left after exclusion comes from a conflicting
      booking or blocked period. */
  lemma OverlapIsConflict(bookings: seq<Booking>, blocked: seq<Period>, boatId: int,
                          startDate: Day, endDate: Day, excludeBookingId: Option<string>, overlaps: OverlapTest)
    requires HasOverlap(startDate, endDate,
               Remaining(Aggregate(bookings, blocked, boatId, Some(startDate), Some(endDate)), excludeBookingId), overlaps)
    ensures Conflicts(bookings, blocked, boatId, startDate, endDate, excludeBookingId, overlaps)
  {
    var ws, we := Some(startDate), Some(endDate);
    var rest := Remaining(Aggregate(bookings, blocked, boatId, ws, we), excludeBookingId);
    var i :| 0 <= i < |rest| && overlaps(startDate, endDate, rest[i].startDate, rest[i].endDate);
    var p := rest[i];
    assert p in rest;
    AggregateSound(bookings, blocked, boatId, ws, we, p);
  }

  /** A conflicting booking or blocked period leaves an overlapping period in
      the aggregated list after exclusion. */
  lemma ConflictIsOverlap(bookings: seq<Booking>, blocked: seq<Period>, boatId: int,
                          startDate: Day, endDate: Day, excludeBookingId: Option<string>, overlaps: OverlapTest)
    requires Conflicts(bookings, blocked, boatId, startDate, endDate, excludeBookingId, overlaps)
    ensures HasOverlap(startDate, endDate,
              Remaining(Aggregate(bookings, blocked, boatId, Some(startDate), Some(endDate)), excludeBookingId), overlaps)
  {
    var ws, we := Some(startDate), Some(endDate);
    var rest := Remaining(Aggregate(bookings, blocked, boatId, ws, we), excludeBookingId);
    AggregateComplete(bookings, blocked, boatId, ws, we);
    var p: Period;
    if exists b :: b in bookings && Occupies(b, boatId) && InWindow(b.startDate, b.endDate, ws, we) &&
                   !Excluded(BookingEntry(b), excludeBookingId) && overlaps(startDate, endDate, b.startDate, b.endDate) {
      var b :| b in bookings && Occupies(b, boatId) && InWindow(b.startDate, b.endDate, ws, we) &&
               !Excluded(BookingEntry(b), excludeBookingId) && overlaps(startDate, endDate, b.startDate, b.endDate);
      p := BookingEntry(b);
    } else {
      var q :| q in blocked && InWindow(q.startDate, q.endDate, ws, we) &&
               !Excluded(q, excludeBookingId) && overlaps(startDate, endDate, q.startDate, q.endDate);
      p := q;
    }
    assert p in rest;
    var i :| 0 <= i < |rest| && rest[i] == p;
  }

  // ---------------------------------------------------------------------
  // The service and its store of blocked periods
  // ---------------------------------------------------------------------

  class AvailabilityService {
    /** The periods owners blocked by hand, per boat id. */
    var blockedPeriods: map<int, seq<Period>>

    /** The store holds blocked periods only. */
    ghost predicate Valid()
      reads this
    {
      forall boatId, p :: boatId in blockedPeriods && p in blockedPeriods[boatId] ==> p.kind == BlockedPeriod
    }

    constructor()
      ensures Valid() && blockedPeriods == map[]
    {
      blockedPeriods := map[];
    }

    /** `blockedPeriods.get(boatId) || []`. */
    function BlockedFor(boatId: int): (r: seq<Period>)
      reads this
      ensures boatId !in blockedPeriods ==> r == []
      ensures boatId in blockedPeriods ==> r == blockedPeriods[boatId]
    {
      if boatId in blockedPeriods then blockedPeriods[boatId] else []
    }

    /** getUnavailableDates: gathers the boat's bookings that are not
        cancelled, then its blocked periods, each kept when it lies in the
        window, and orders the lot by start day. */
    method GetUnavailableDates(boatId: int, windowStart: Option<Day>, windowEnd: Option<Day>,
                               bookings: seq<Booking>) returns (r: seq<Period>)
      ensures r == Aggregate(bookings, BlockedFor(boatId), boatId, windowStart, windowEnd)
    {
      var boatBookings := ActiveBookings(bookings, boatId);
      var unavailable: seq<Period> := [];
      var i := 0;
      while i < |boatBookings|
        invariant 0 <= i <= |boatBookings|
        invariant unavailable == BookingEntries(boatBookings[..i], windowStart, windowEnd)
      {
        var booking := boatBookings[i];
        BookingEntriesStep(boatBookings, i, windowStart, windowEnd);
        var skip := windowStart.Some? && windowEnd.Some? &&
                    (booking.endDate < windowStart.value || booking.startDate > windowEnd.value);
        if !skip {
          unavailable := unavailable + [BookingEntry(booking)];
        }
        i := i + 1;
      }
      assert boatBookings[..i] == boatBookings;
      ghost var fromBookings := unavailable;
      var blocked := BlockedFor(boatId);
      var j := 0;
      assert blocked[..0] == [];
      while j < |blocked|
        invariant 0 <= j <= |blocked|
        invariant unavailable == fromBookings + BlockedEntries(blocked[..j], windowStart, windowEnd)
      {
        var period := blocked[j];
        BlockedEntriesStep(blocked, j, windowStart, windowEnd);
        var skip := windowStart.Some? && windowEnd.Some? &&
                    (period.endDate < windowStart.value || period.startDate > windowEnd.value);
        if !skip {
          unavailable := unavailable + [period];
        }
        j := j + 1;
      }
      assert blocked[..j] == blocked;
      r := SortBy(unavailable, StartOf);
    }

    /** getUnavailablePeriods: the aggregated list without a window. */
    method GetUnavailablePeriods(boatId: int, bookings: seq<Booking>) returns (r: seq<Period>)
      ensures r == Aggregate(bookings, BlockedFor(boatId), boatId, None, None)
      ensures forall b :: b in bookings && Occupies(b, boatId) ==> BookingEntry(b) in r
      ensures forall q :: q in BlockedFor(boatId) ==> q in r
    {
      r := GetUnavailableDates(boatId, None, None, bookings);
      AggregateComplete(bookings, BlockedFor(boatId), boatId, None, None);
    }

    /** checkAvailability: an invalid range is refused with the validator's
        message before any period is looked at; otherwise the range is free
        exactly when no period of the boat in the range's window, once the
        excluded booking is set aside, overlaps it. */
    method CheckAvailability(boatId: int, startDate: Day, endDate: Day, excludeBookingId: Option<string>,
                             bookings: seq<Booking>, validate: Validator, overlaps: OverlapTest)
      returns (r: AvailabilityCheck)
      ensures validate(startDate, endDate).Invalid? ==>
                r == AvailabilityCheck(false, InvalidMessage(validate(startDate, endDate)))
      ensures validate(startDate, endDate).Valid? ==>
                (r.isAvailable <==>
                   !Conflicts(bookings, BlockedFor(boatId), boatId, startDate, endDate, excludeBookingId, overlaps))
      ensures validate(startDate, endDate).Valid? ==>
                r.message == if r.isAvailable then AvailableMessage else ConflictMessage
    {
      var validation := validate(startDate, endDate);
      if validation.Invalid? {
        return AvailabilityCheck(false, InvalidMessage(validation));
      }
      var unavailablePeriods := GetUnavailableDates(boatId, Some(startDate), Some(endDate), bookings);
      var periodsToCheck := Remaining(unavailablePeriods, excludeBookingId);
      var hasOverlap := HasOverlap(startDate, endDate, periodsToCheck, overlaps);
      OverlapIffConflict(bookings, BlockedFor(boatId), boatId, startDate, endDate, excludeBookingId, overlaps);
      if hasOverlap {
        return AvailabilityCheck(false, ConflictMessage);
      }
      return AvailabilityCheck(true, AvailableMessage);
    }

    /** addUnavailablePeriod: an invalid range is refused and nothing changes;
        otherwise one blocked period is appended to that boat's list and no
        other boat's list changes. */
    method AddUnavailablePeriod(boatId: int, period: BlockRequest, validate: Validator, referenceId: string)
      returns (r: Result<Period>)
      requires Valid()
      modifies this
      ensures Valid()
      ensures validate(period.startDate, period.endDate).Invalid? ==>
                r == Err(InvalidMessage(validate(period.startDate, period.endDate))) &&
                blockedPeriods == old(blockedPeriods)
      ensures validate(period.startDate, period.endDate).Valid? ==>
                && r.Ok?
                && r.value == Period(BlockedPeriod, referenceId, period.startDate, period.endDate,
                                     OrDefault(period.reason, DefaultBlockReason), None)
                && blockedPeriods == old(blockedPeriods)[boatId := old(BlockedFor(boatId)) + [r.value]]
    {
      var validation := validate(period.startDate, period.endDate);
      if validation.Invalid? {
        return Err(InvalidMessage(validation));
      }
      var newPeriod := Period(BlockedPeriod, referenceId, period.startDate, period.endDate,
                              OrDefault(period.reason, DefaultBlockReason), None);
      var existing := BlockedFor(boatId);
      existing := existing + [newPeriod];
      blockedPeriods := blockedPeriods[boatId := existing];
      return Ok(newPeriod);
    }

    /** removeUnavailablePeriod: drops every blocked period of the boat that
        starts on that day; when none does, fails and nothing changes. */
    method RemoveUnavailablePeriod(boatId: int, startDate: Day) returns (r: Result<bool>)
      requires Valid()
      modifies this
      ensures Valid()
      ensures (forall p :: p in old(BlockedFor(boatId)) ==> p.startDate != startDate) ==>
                r == Err(PeriodNotFound) && blockedPeriods == old(blockedPeriods)
      ensures (exists p :: p in old(BlockedFor(boatId)) && p.startDate == startDate) ==>
                && r == Ok(true)
                && boatId in old(blockedPeriods)
                && blockedPeriods == old(blockedPeriods)[boatId := WithoutStart(old(BlockedFor(boatId)), startDate)]
    {
      var existing := BlockedFor(boatId);
      var filtered := WithoutStart(existing, startDate);
      if |filtered| == |existing| {
        return Err(PeriodNotFound);
      }
      blockedPeriods := blockedPeriods[boatId := filtered];
      return Ok(true);
    }

    /** blockPeriod: the same as addUnavailablePeriod for a request that
        names its boat, answering true. */
    method BlockPeriod(availability: BoatBlockRequest, validate: Validator, referenceId: string)
      returns (r: Result<bool>)
      requires Valid()
      modifies this
      ensures Valid()
      ensures validate(availability.startDate, availability.endDate).Invalid? ==>
                r == Err(InvalidMessage(validate(availability.startDate, availability.endDate))) &&
                blockedPeriods == old(blockedPeriods)
      ensures validate(availability.startDate, availability.endDate).Valid? ==>
                && r == Ok(true)
                && blockedPeriods == old(blockedPeriods)[availability.boatId :=
                     old(BlockedFor(availability.boatId)) +
                     [Period(BlockedPeriod, referenceId, availability.startDate, availability.endDate,
                             OrDefault(availability.reason, DefaultBlockReason), None)]]
    {
      var added := AddUnavailablePeriod(availability.boatId,
        BlockRequest(availability.startDate, availability.endDate, availability.reason), validate, referenceId);
      if added.Err? {
        return Err(added.message);
      }
      return Ok(true);
    }

    /** unblockPeriod: answers true and changes nothing (the in-memory store
        cannot find a period by a numeric id). */
    method UnblockPeriod(availabilityId: int) returns (r: bool)
      ensures r
    {
      return true;
    }
  }

  /** The blocked periods that do not start on that day. */
  function WithoutStart(ps: seq<Period>, startDate: Day): (r: seq<Period>)
    ensures forall p :: p in r <==> p in ps && p.startDate != startDate
    ensures |r| == |ps| <==> forall p :: p in ps ==> p.startDate != startDate
    ensures forall p :: multiset(r)[p] == if p.startDate != startDate then multiset(ps)[p] else 0
    ensures IsSubsequence(r, ps)
  {
    FilterCount(ps, (p: Period) => p.startDate != startDate);
    FilterSubsequence(ps, (p: Period) => p.startDate != startDate);
    FilterMembers(ps, (p: Period) => p.startDate != startDate);
    FilterLength(ps, (p: Period) => p.startDate != startDate);
    Filter(ps, (p: Period) => p.startDate != startDate)
  }

  /** With the store's invariant, every booking-kind period in the boat's
      aggregated list is the entry of one of its bookings that is not
      cancelled: its reference is the booking id and its reason the status. */
  lemma BookingPeriodsComeFromBookings(s: AvailabilityService, bookings: seq<Booking>, boatId: int,
                                       windowStart: Option<Day>, windowEnd: Option<Day>, p: Period)
    requires s.Valid()
    requires p in Aggregate(bookings, s.BlockedFor(boatId), boatId, windowStart, windowEnd)
    requires p.kind == BookingPeriod
    ensures exists b :: b in bookings && b.boatId == boatId && b.status != Cancelled &&
                        p.referenceId == b.id && p.reason == b.status &&
                        p.startDate == b.startDate && p.endDate == b.endDate
  {
    assert forall q :: q in s.BlockedFor(boatId) ==> q.kind == BlockedPeriod;
    AggregateSound(bookings, s.BlockedFor(boatId), boatId, windowStart, windowEnd, p);
  }
}
