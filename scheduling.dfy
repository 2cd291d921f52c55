/**
 * The availability engine of `scheduling/scheduling.py`: a point-in-booking test, the
 * windowed slot scan and the daily admission check. The bookings map that the module
 * reads is passed in as `agentCalendars`, and "today" is passed in as a day number.
 */
module Scheduling {
  import opened Models
  import opened Seqs
  import opened SlotScan

  /** A booking `(start, end)`: closed at its start, open at its end. */
  type Booking = (Time, Time)

  /** Bookings per user or agent identifier. */
  type AgentCalendars = map<int, seq<Booking>>

  const MinutesPerDay: int := 1440

  /** An agent with this many bookings today accepts no more work. */
  const MaxDailyBookings: int := 3

  /** `agent_calendars.get(user_id, [])`. */
  function BookingsOf(agentCalendars: AgentCalendars, userId: int): seq<Booking>
  {
    if userId in agentCalendars then agentCalendars[userId] else []
  }

  /** No booking covers the instant `time`. */
  predicate FreeAt(bookings: seq<Booking>, time: Time)
  {
    forall i :: 0 <= i < |bookings| ==> !(bookings[i].0 <= time < bookings[i].1)
  }

  /** The availability test the scan applies to each cursor instant. */
  function PointCheck(bookings: seq<Booking>): Time -> bool
  {
    t => FreeAt(bookings, t)
  }

  /** The calendar day of an instant: `datetime.date()`. */
  function Date(t: Time): int
  {
    t / MinutesPerDay
  }

  /** Whether a booking starts on day `today`. */
  function StartsOn(today: int): Booking -> bool
  {
    (b: Booking) => Date(b.0) == today
  }

  /**
   * `is_time_available`: the user is unavailable at `time` exactly when one of their
   * bookings `(start, end)` has `start <= time < end`; a user without bookings is always available.
   */
  method IsTimeAvailable(agentCalendars: AgentCalendars, userId: int, time: Time) returns (available: bool)
    ensures available <==> FreeAt(BookingsOf(agentCalendars, userId), time)
    ensures userId !in agentCalendars ==> available
  {
    var bookings := BookingsOf(agentCalendars, userId);
    for i := 0 to |bookings|
      invariant FreeAt(bookings[..i], time)
    {
      var (start, end) := bookings[i];
      if start <= time < end {
        return false;
      }
    }
    assert bookings[..|bookings|] == bookings;
    return true;
  }

  /**
   * `find_available_slots`: the first `count` cursor instants at which the user is
   * available, scanning the ranges in order in 15-minute steps.
   */
  method FindAvailableSlots(agentCalendars: AgentCalendars, userId: int, timeRanges: seq<TimeRange>, duration: int, count: int)
    returns (available: seq<Time>)
    ensures available == FirstSlots(timeRanges, duration, count, PointCheck(BookingsOf(agentCalendars, userId)))
  {
    ghost var free := PointCheck(BookingsOf(agentCalendars, userId));
    available := [];
    var i := 0;
    while i < |timeRanges|
      invariant 0 <= i <= |timeRanges|
      invariant available == Take(Keep(free, Candidates(timeRanges[..i], duration)), count)
      invariant i > 0 ==> |available| < count
    {
      var found := ScanInterval(agentCalendars, userId, timeRanges[i], duration, count, available);
      if |available| < count {
        RangeScanAppend(timeRanges, i, duration, count, free, available);
      }
      available := found;
      if |available| >= count {
        ScanFull(timeRanges, i + 1, duration, count, free, available);
        break;
      }
      i := i + 1;
    }
    if i == |timeRanges| {
      assert timeRanges[..i] == timeRanges;
    }
  }

  /** The inner `while` of `find_available_slots`: scanning one interval after `found` was collected. */
  method ScanInterval(agentCalendars: AgentCalendars, userId: int, interval: TimeRange, duration: int, count: int, found: seq<Time>)
    returns (available: seq<Time>)
    ensures available == found + Take(Keep(PointCheck(BookingsOf(agentCalendars, userId)), RangeCandidates(interval.start, interval.end, duration)), count - |found|)
  {
    ghost var free := PointCheck(BookingsOf(agentCalendars, userId));
    ghost var all := RangeCandidates(interval.start, interval.end, duration);
    ghost var seen: seq<Time> := [];
    available := found;
    var currentStart := interval.start;
    while currentStart + duration <= interval.end && |available| < count
      invariant available == found + Keep(free, seen)
      invariant |available| <= count || seen == []
      invariant seen + RangeCandidates(currentStart, interval.end, duration) == all
      decreases interval.end - duration - currentStart
    {
      VisitStep(free, seen, currentStart, interval.end, duration, all);
      var isFree := IsTimeAvailable(agentCalendars, userId, currentStart);
      assert isFree == free(currentStart);
      ghost var kept := Keep(free, seen);
      if isFree {
        available := available + [currentStart];
        assert available == found + (kept + [currentStart]);
      } else {
        assert available == found + (kept + []);
      }
      seen := seen + [currentStart];
      currentStart := currentStart + Step;
    }
    RangeScanDone(free, seen, currentStart, interval.end, duration, all, count - |found|);
  }

  /**
   * `agent_can_accept_more_work`: true exactly when fewer than three of the agent's
   * bookings start on day `today`.
   */
  function AgentCanAcceptMoreWork(agentCalendars: AgentCalendars, agentId: int, today: int): (r: bool)
    ensures r <==> |Positions(StartsOn(today), BookingsOf(agentCalendars, agentId))| < MaxDailyBookings
    ensures agentId !in agentCalendars ==> r
  {
    var bookings := BookingsOf(agentCalendars, agentId);
    KeepCount(StartsOn(today), bookings);
    |Keep(StartsOn(today), bookings)| < MaxDailyBookings
  }

  /**
   * A new booking that starts on another day leaves the admission decision unchanged;
   * one that starts today raises today's count by one.
   */
  lemma NewBookingEffect(agentCalendars: AgentCalendars, agentId: int, today: int, booking: Booking)
    ensures var before := BookingsOf(agentCalendars, agentId);
      var after := agentCalendars[agentId := before + [booking]];
      |Keep(StartsOn(today), BookingsOf(after, agentId))|
        == |Keep(StartsOn(today), before)| + (if Date(booking.0) == today then 1 else 0)
    ensures Date(booking.0) != today ==>
      AgentCanAcceptMoreWork(agentCalendars[agentId := BookingsOf(agentCalendars, agentId) + [booking]], agentId, today)
        == AgentCanAcceptMoreWork(agentCalendars, agentId, today)
  {
    var before := BookingsOf(agentCalendars, agentId);
    KeepAppend(StartsOn(today), before, [booking]);
    KeepCons(StartsOn(today), booking, []);
  }

  /**
   * Only the start instant of a slot is checked: with one booking 10..20 and a range
   * 0..60, a 30-minute slot at 0 is returned although it overlaps the booking.
   */
  lemma OnlyStartInstantChecked()
    ensures var calendars: AgentCalendars := map[7 := [(10, 20)]];
      var slots := FirstSlots([TimeRange(0, 60)], 30, 1, PointCheck(BookingsOf(calendars, 7)));
      slots == [0] && 0 < 20 && 0 + 30 > 10
  {
  }

  /**
   * For a request that passed validation, at most `count` slots come back, and each one
   * is a non-empty window `[t, t + duration)` inside one of the requested ranges.
   */
  lemma ValidatedRequestSlots(agentCalendars: AgentCalendars, userId: int, timeRanges: seq<TimeRange>, durationMinutes: int, count: int, t: Time)
    requires NewFindAvailableTimesRequest(userId, timeRanges, durationMinutes, count).Success?
    ensures |FirstSlots(timeRanges, durationMinutes, count, PointCheck(BookingsOf(agentCalendars, userId)))| <= count
    ensures t in FirstSlots(timeRanges, durationMinutes, count, PointCheck(BookingsOf(agentCalendars, userId))) ==>
      FreeAt(BookingsOf(agentCalendars, userId), t) &&
      exists i :: 0 <= i < |timeRanges| && timeRanges[i].start <= t < t + durationMinutes <= timeRanges[i].end
  {
    var free := PointCheck(BookingsOf(agentCalendars, userId));
    SlotCountBounded(timeRanges, durationMinutes, count, free);
    if t in FirstSlots(timeRanges, durationMinutes, count, free) {
      SlotsAreFreeGridPoints(timeRanges, durationMinutes, count, free, t);
      var i :| 0 <= i < |timeRanges| && OnGrid(timeRanges[i], durationMinutes, t);
      assert timeRanges[i].start <= t < t + durationMinutes <= timeRanges[i].end;
    }
  }
}
