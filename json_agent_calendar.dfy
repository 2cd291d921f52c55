/**
 * `JSONAgentCalendar` of `agent_calendar/json_agent_calendar.py`: an agent's event list,
 * loaded from a store of per-(client, agent) records, checked for overlaps, scanned for
 * free slots and edited by appending and removing events. The records arrive already
 * parsed; `None` stands for any failure while reading or parsing them.
 */
module JsonCalendar {
  import opened Wrappers
  import opened Models
  import opened Seqs
  import opened SlotScan

  /**
   * One calendar event as the JSON calendar holds it. The loader casts each event to
   * `AgentCalendarEvent`, which `models` does not define, so `Models.ICSEvent` is not reused:
   * this record has the fields the calendar reads, plus the optional `id` that
   * `remove_event` matches on.
   */
  datatype CalendarEvent = CalendarEvent(
    id: Option<string>,
    uid: string,
    dtstamp: Time,
    dtstart: Time,
    dtend: Time,
    summary: string)

  /** One record of the store: whose calendar it is, and its (possibly absent) `calendar_events`. */
  datatype CalendarRecord = CalendarRecord(clientId: int, agentId: int, calendarEvents: Option<seq<CalendarEvent>>)

  // ---------------------------------------------------------------------------
  // Loading

  /** The record belongs to this client's agent. */
  function OwnedBy(clientId: int, agentId: int): CalendarRecord -> bool
  {
    (r: CalendarRecord) => r.clientId == clientId && r.agentId == agentId
  }

  /** `record.get("calendar_events", [])`. */
  function EventsOf(r: CalendarRecord): seq<CalendarEvent>
  {
    match r.calendarEvents
    case Some(events) => events
    case None => []
  }

  /** The events of every record, record after record. */
  function Flatten(records: seq<CalendarRecord>): seq<CalendarEvent>
  {
    if records == [] then [] else EventsOf(records[0]) + Flatten(records[1..])
  }

  predicate SortedByStart(events: seq<CalendarEvent>)
  {
    forall i, j :: 0 <= i < j < |events| ==> events[i].dtstart <= events[j].dtstart
  }

  /** The event starts at `k`. */
  function StartsAt(k: Time): CalendarEvent -> bool
  {
    (e: CalendarEvent) => e.dtstart == k
  }

  /** Places `e` into the sorted `events` ahead of every event that does not start before it. */
  function InsertByStart(e: CalendarEvent, events: seq<CalendarEvent>): seq<CalendarEvent>
  {
    if events == [] || e.dtstart <= events[0].dtstart then [e] + events
    else [events[0]] + InsertByStart(e, events[1..])
  }

  /** `events.sort(key=lambda x: x['dtstart'])`: a stable sort by start. */
  function SortByStart(events: seq<CalendarEvent>): seq<CalendarEvent>
  {
    if events == [] then [] else InsertByStart(events[0], SortByStart(events[1..]))
  }

  /**
   * `_load_calendar_events`: the events of the records owned by `(clientId, agentId)`,
   * concatenated in record order and sorted by start; nothing at all when loading failed.
   */
  function LoadCalendarEvents(source: Option<seq<CalendarRecord>>, clientId: int, agentId: int): (r: seq<CalendarEvent>)
    ensures SortedByStart(r)
    ensures source.None? ==> r == []
    ensures source.Some? ==> multiset(r) == multiset(Flatten(Keep(OwnedBy(clientId, agentId), source.value)))
  {
    match source
    case None => []
    case Some(records) =>
      var flat := Flatten(Keep(OwnedBy(clientId, agentId), records));
      SortByStartSortsAndPermutes(flat);
      SortByStart(flat)
  }

  /** Inserting adds exactly the new event. */
  lemma {:induction false} InsertByStartPermutes(e: CalendarEvent, events: seq<CalendarEvent>)
    ensures multiset(InsertByStart(e, events)) == multiset(events) + multiset{e}
    decreases |events|
  {
    if events != [] && e.dtstart > events[0].dtstart {
      InsertByStartPermutes(e, events[1..]);
      assert events == [events[0]] + events[1..];
    }
  }

  /** Inserting into a sorted list keeps it sorted. */
  lemma {:induction false} InsertByStartSorted(e: CalendarEvent, events: seq<CalendarEvent>)
    requires SortedByStart(events)
    ensures SortedByStart(InsertByStart(e, events))
    decreases |events|
  {
    if events != [] && e.dtstart > events[0].dtstart {
      var rest := InsertByStart(e, events[1..]);
      InsertByStartSorted(e, events[1..]);
      InsertByStartPermutes(e, events[1..]);
      forall j | 0 <= j < |rest| ensures events[0].dtstart <= rest[j].dtstart {
        assert rest[j] in multiset(events[1..]) + multiset{e};
        if rest[j] != e {
          var k :| 0 <= k < |events[1..]| && events[1..][k] == rest[j];
          assert events[k + 1] == rest[j];
        }
      }
      SortedCons(events[0], rest);
    }
  }

  lemma SortedCons(head: CalendarEvent, rest: seq<CalendarEvent>)
    requires SortedByStart(rest)
    requires forall j :: 0 <= j < |rest| ==> head.dtstart <= rest[j].dtstart
    ensures SortedByStart([head] + rest)
  {
    var s := [head] + rest;
    forall i, j | 0 <= i < j < |s| ensures s[i].dtstart <= s[j].dtstart {
      assert s[j] == rest[j - 1];
      if i > 0 {
        assert s[i] == rest[i - 1];
      }
    }
  }

  /** Inserting only ever passes events that start strictly earlier, so events of one start keep their order. */
  lemma {:induction false} InsertByStartStable(e: CalendarEvent, events: seq<CalendarEvent>, k: Time)
    ensures Keep(StartsAt(k), InsertByStart(e, events)) == Keep(StartsAt(k), [e] + events)
    decreases |events|
  {
    if events != [] && e.dtstart > events[0].dtstart {
      var head := events[0];
      var rest := events[1..];
      InsertByStartStable(e, rest, k);
      KeepCons(StartsAt(k), head, InsertByStart(e, rest));
      KeepCons(StartsAt(k), e, rest);
      KeepCons(StartsAt(k), e, events);
      assert events == [head] + rest;
      KeepCons(StartsAt(k), head, rest);
    }
  }

  /** The sort puts events in ascending order of start and neither adds nor drops any. */
  lemma SortByStartSortsAndPermutes(events: seq<CalendarEvent>)
    ensures SortedByStart(SortByStart(events))
    ensures multiset(SortByStart(events)) == multiset(events)
  {
    SortByStartSorts(events);
    SortByStartPermutes(events);
  }

  lemma {:induction false} SortByStartSorts(events: seq<CalendarEvent>)
    ensures SortedByStart(SortByStart(events))
    decreases |events|
  {
    if events != [] {
      SortByStartSorts(events[1..]);
      InsertByStartSorted(events[0], SortByStart(events[1..]));
    }
  }

  lemma {:induction false} SortByStartPermutes(events: seq<CalendarEvent>)
    ensures multiset(SortByStart(events)) == multiset(events)
    decreases |events|
  {
    if events != [] {
      SortByStartPermutes(events[1..]);
      InsertByStartPermutes(events[0], SortByStart(events[1..]));
      assert events == [events[0]] + events[1..];
    }
  }

  /** The sort is stable: the events with any one start come out in their input order. */
  lemma {:induction false} SortByStartStable(events: seq<CalendarEvent>, k: Time)
    ensures Keep(StartsAt(k), SortByStart(events)) == Keep(StartsAt(k), events)
    decreases |events|
  {
    if events != [] {
      var rest := SortByStart(events[1..]);
      SortByStartStable(events[1..], k);
      InsertByStartStable(events[0], rest, k);
      KeepCons(StartsAt(k), events[0], rest);
      assert events == [events[0]] + events[1..];
      KeepCons(StartsAt(k), events[0], events[1..]);
    }
  }

  /** The loaded list is sorted by start, and events with equal starts keep their concatenation order. */
  lemma LoadedEventsSortedStably(records: seq<CalendarRecord>, clientId: int, agentId: int, k: Time)
    ensures SortedByStart(LoadCalendarEvents(Some(records), clientId, agentId))
    ensures Keep(StartsAt(k), LoadCalendarEvents(Some(records), clientId, agentId))
         == Keep(StartsAt(k), Flatten(Keep(OwnedBy(clientId, agentId), records)))
  {
    var flat := Flatten(Keep(OwnedBy(clientId, agentId), records));
    SortByStartSortsAndPermutes(flat);
    SortByStartStable(flat, k);
  }

  /** An event is loaded exactly when a record of `(clientId, agentId)` holds it. */
  lemma LoadedEventsMembers(records: seq<CalendarRecord>, clientId: int, agentId: int, e: CalendarEvent)
    ensures e in LoadCalendarEvents(Some(records), clientId, agentId) <==>
      exists i :: 0 <= i < |records| && OwnedBy(clientId, agentId)(records[i]) && e in EventsOf(records[i])
  {
    var flat := Flatten(Keep(OwnedBy(clientId, agentId), records));
    SortByStartSortsAndPermutes(flat);
    assert e in SortByStart(flat) <==> e in multiset(flat);
    OwnedEventsMembers(records, clientId, agentId, e);
  }

  /** The flattened events of the matching records are the events that some matching record holds. */
  lemma {:induction false} OwnedEventsMembers(records: seq<CalendarRecord>, clientId: int, agentId: int, e: CalendarEvent)
    ensures e in Flatten(Keep(OwnedBy(clientId, agentId), records)) <==>
      exists i :: 0 <= i < |records| && OwnedBy(clientId, agentId)(records[i]) && e in EventsOf(records[i])
    decreases |records|
  {
    var p := OwnedBy(clientId, agentId);
    if records != [] {
      var r := records[0];
      var rest := records[1..];
      OwnedEventsMembers(rest, clientId, agentId, e);
      assert records == [r] + rest;
      KeepCons(p, r, rest);
      var kept := Keep(p, rest);
      if p(r) {
        assert ([r] + kept)[1..] == kept;
        assert Flatten(Keep(p, records)) == EventsOf(r) + Flatten(kept);
      } else {
        assert Keep(p, records) == kept;
      }
      if i :| 0 <= i < |rest| && p(rest[i]) && e in EventsOf(rest[i]) {
        assert records[i + 1] == rest[i];
      }
      if i :| 0 <= i < |records| && p(records[i]) && e in EventsOf(records[i]) {
        if i > 0 {
          assert rest[i - 1] == records[i];
        }
      }
    }
  }

  /** Loading that failed leaves the calendar empty rather than reporting an error. */
  lemma FailedLoadIsEmpty(clientId: int, agentId: int)
    ensures LoadCalendarEvents(None, clientId, agentId) == []
  {
  }

  // ---------------------------------------------------------------------------
  // Availability

  /** No event overlaps `[start, end)`: none has `start < dtend` and `end > dtstart`. */
  predicate NoOverlap(events: seq<CalendarEvent>, start: Time, end: Time)
  {
    forall i :: 0 <= i < |events| ==> !(start < events[i].dtend && end > events[i].dtstart)
  }

  /**
   * The test that `find_available_slots` applies to the cursor instant `t`: it calls
   * `is_time_available(user_id, current_start)`, so the user id arrives as the window's
   * start and the cursor instant as its end.
   */
  function ArgumentsAsPassed(events: seq<CalendarEvent>, userId: int): Time -> bool
  {
    t => NoOverlap(events, userId, t)
  }

  /** The evidently intended test: the whole slot `[t, t + duration)` is clear of every event. */
  function WholeSlotCheck(events: seq<CalendarEvent>, duration: int): Time -> bool
  {
    t => NoOverlap(events, t, t + duration)
  }

  /** The ids that `remove_event(id)` keeps: those whose `get('id')` differs from `id`. */
  function IdIsNot(id: string): CalendarEvent -> bool
  {
    (e: CalendarEvent) => e.id != Some(id)
  }

  /** The event list after `remove_event(id)`. */
  function WithoutId(events: seq<CalendarEvent>, id: string): seq<CalendarEvent>
  {
    Keep(IdIsNot(id), events)
  }

  /** An agent's calendar held in memory. */
  class JSONAgentCalendar {
    const clientId: int
    const agentId: int
    var events: seq<CalendarEvent>

    /** Loads the events of `(clientId, agentId)` from `source`. */
    constructor (source: Option<seq<CalendarRecord>>, clientId: int, agentId: int)
      ensures this.clientId == clientId && this.agentId == agentId
      ensures events == LoadCalendarEvents(source, clientId, agentId)
    {
      this.clientId := clientId;
      this.agentId := agentId;
      events := LoadCalendarEvents(source, clientId, agentId);
    }

    /**
     * `is_time_available`: false exactly when some event overlaps `[startTime, endTime)`;
     * with no events it is always true, and nothing else (working hours) is consulted.
     */
    method IsTimeAvailable(startTime: Time, endTime: Time) returns (available: bool)
      ensures available <==> NoOverlap(events, startTime, endTime)
      ensures events == [] ==> available
    {
      for i := 0 to |events|
        invariant NoOverlap(events[..i], startTime, endTime)
      {
        if startTime < events[i].dtend && endTime > events[i].dtstart {
          return false;
        }
      }
      assert events[..|events|] == events;
      return true;
    }

    /**
     * `find_available_slots`, with `is_time_available(user_id, current_start)` called as
     * written: the first `count` cursor instants that the mixed-up test accepts.
     */
    method FindAvailableSlots(userId: int, timeRanges: seq<TimeRange>, duration: int, count: int)
      returns (available: seq<Time>)
      ensures available == FirstSlots(timeRanges, duration, count, ArgumentsAsPassed(events, userId))
    {
      ghost var free := ArgumentsAsPassed(events, userId);
      available := [];
      var i := 0;
      while i < |timeRanges|
        invariant 0 <= i <= |timeRanges|
        invariant available == Take(Keep(free, Candidates(timeRanges[..i], duration)), count)
        invariant i > 0 ==> |available| < count
      {
        var found := ScanInterval(userId, timeRanges[i], duration, count, available);
        if |available| < count {
          RangeScanAppend(timeRanges, i, duration, count, free, available);
        }
        available := found;
        if |available| >= count {
          ScanFull(timeRanges, i + 1, duration, count, free, available);
          break;
        }
        i := i + 1;
      }
      if i == |timeRanges| {
        assert timeRanges[..i] == timeRanges;
      }
    }

    /** The inner `while` of `find_available_slots`: scanning one interval after `found` was collected. */
    method ScanInterval(userId: int, interval: TimeRange, duration: int, count: int, found: seq<Time>)
      returns (available: seq<Time>)
      ensures available == found + Take(Keep(ArgumentsAsPassed(events, userId), RangeCandidates(interval.start, interval.end, duration)), count - |found|)
    {
      ghost var free := ArgumentsAsPassed(events, userId);
      ghost var all := RangeCandidates(interval.start, interval.end, duration);
      ghost var seen: seq<Time> := [];
      available := found;
      var currentStart := interval.start;
      while currentStart + duration <= interval.end && |available| < count
        invariant available == found + Keep(free, seen)
        invariant |available| <= count || seen == []
        invariant seen + RangeCandidates(currentStart, interval.end, duration) == all
        decreases interval.end - duration - currentStart
      {
        VisitStep(free, seen, currentStart, interval.end, duration, all);
        // The user id is passed where the window's start belongs.
        var isFree := IsTimeAvailable(userId, currentStart);
        assert isFree == free(currentStart);
        ghost var kept := Keep(free, seen);
        if isFree {
          available := available + [currentStart];
          assert available == found + (kept + [currentStart]);
        } else {
          assert available == found + (kept + []);
        }
        seen := seen + [currentStart];
        currentStart := currentStart + Step;
      }
      RangeScanDone(free, seen, currentStart, interval.end, duration, all, count - |found|);
    }

    /** `add_event`: the new event goes at the end; the earlier events are unchanged. */
    method AddEvent(e: CalendarEvent)
      modifies this
      ensures events == old(events) + [e]
    {
      events := events + [e];
    }

    /** `remove_event`: exactly the events whose id differs from `id` stay, in their order. */
    method RemoveEvent(id: string)
      modifies this
      ensures events == WithoutId(old(events), id)
    {
      events := WithoutId(events, id);
    }

    /** `get_events`: the current list. */
    method GetEvents() returns (r: seq<CalendarEvent>)
      ensures r == events
    {
      r := events;
    }
  }

  // ---------------------------------------------------------------------------
  // Properties of the edits

  /** After `remove_event(id)` no event carries `id`, and every other event is still there. */
  lemma RemovedExactly(events: seq<CalendarEvent>, id: string)
    ensures forall i :: 0 <= i < |WithoutId(events, id)| ==> WithoutId(events, id)[i].id != Some(id)
    ensures forall i :: 0 <= i < |events| && events[i].id != Some(id) ==> events[i] in WithoutId(events, id)
  {
    KeepMembers(IdIsNot(id), events);
  }

  /** Removing the same id twice is removing it once. */
  lemma RemoveTwiceIsOnce(events: seq<CalendarEvent>, id: string)
    ensures WithoutId(WithoutId(events, id), id) == WithoutId(events, id)
  {
    KeepIdempotent(IdIsNot(id), events);
  }

  /** Removing an id that no event carries changes nothing. */
  lemma RemoveAbsentId(events: seq<CalendarEvent>, id: string)
    requires forall i :: 0 <= i < |events| ==> events[i].id != Some(id)
    ensures WithoutId(events, id) == events
  {
    KeepEverything(IdIsNot(id), events);
  }

  /** Adding an event with id `id` and then removing `id` is removing `id` alone. */
  lemma RemoveUndoesAdd(events: seq<CalendarEvent>, e: CalendarEvent, id: string)
    requires e.id == Some(id)
    ensures WithoutId(events + [e], id) == WithoutId(events, id)
  {
    KeepAppend(IdIsNot(id), events, [e]);
    KeepCons(IdIsNot(id), e, []);
  }

  // ---------------------------------------------------------------------------
  // The argument mix-up of `find_available_slots`

  /**
   * With no events loaded the mixed-up test never runs its comparison, so every cursor
   * position is returned, up to `count`. Under Python's types the call as written also
   * returns without error here.
   */
  lemma NoEventsEveryPosition(userId: int, ranges: seq<TimeRange>, duration: int, count: int)
    ensures FirstSlots(ranges, duration, count, ArgumentsAsPassed([], userId)) == Take(Candidates(ranges, duration), count)
  {
    KeepEverything(ArgumentsAsPassed([], userId), Candidates(ranges, duration));
  }

  /**
   * When no cursor position is visited (`count <= 0`, or no range with room for one
   * slot) the mixed-up test never runs either, and the call returns no slot, whatever
   * the events. Under Python's types the call as written also returns without error here.
   */
  lemma NoPositionVisitedNoSlots(events: seq<CalendarEvent>, userId: int, ranges: seq<TimeRange>, duration: int, count: int)
    requires count <= 0 || forall i :: 0 <= i < |ranges| ==> ranges[i].start + duration > ranges[i].end
    ensures FirstSlots(ranges, duration, count, ArgumentsAsPassed(events, userId)) == []
  {
    if count > 0 {
      NoRoomNoCandidates(ranges, duration);
    }
  }

  /**
   * On the integer timeline, where the user id is read as an instant, a slot returned as
   * written can overlap an event: with one event at 600..660 and user id 1, the 30-minute
   * slot at 585 is returned although it runs into the event. (Under Python's types the
   * same call compares an `int` with a `datetime` and raises `TypeError`.)
   */
  lemma MixedUpArgumentsAdmitOverlap()
    ensures var events := [CalendarEvent(None, "u", 0, 600, 660, "busy")];
      var slots := FirstSlots([TimeRange(585, 615)], 30, 1, ArgumentsAsPassed(events, 1));
      slots == [585] && 585 < events[0].dtend && 585 + 30 > events[0].dtstart
  {
  }

  /** With the intended arguments the same request yields no slot. */
  lemma WholeSlotCheckRejectsOverlap()
    ensures var events := [CalendarEvent(None, "u", 0, 600, 660, "busy")];
      FirstSlots([TimeRange(585, 615)], 30, 1, WholeSlotCheck(events, 30)) == []
  {
    var events := [CalendarEvent(None, "u", 0, 600, 660, "busy")];
    var free := WholeSlotCheck(events, 30);
    assert RangeCandidates(600, 615, 30) == [];
    assert RangeCandidates(585, 615, 30) == [585];
    assert Candidates([TimeRange(585, 615)], 30) == [585] + Candidates([], 30);
    assert 585 < events[0].dtend && 585 + 30 > events[0].dtstart;
    assert !free(585);
    KeepCons(free, 585, []);
  }

  /** With the intended arguments, no returned slot `[t, t + duration)` overlaps any event. */
  lemma WholeSlotSlotsAvoidEvents(events: seq<CalendarEvent>, ranges: seq<TimeRange>, duration: int, count: int, t: Time)
    requires t in FirstSlots(ranges, duration, count, WholeSlotCheck(events, duration))
    ensures forall i :: 0 <= i < |events| ==> t + duration <= events[i].dtstart || events[i].dtend <= t
    ensures exists i :: 0 <= i < |ranges| && OnGrid(ranges[i], duration, t)
  {
    SlotsAreFreeGridPoints(ranges, duration, count, WholeSlotCheck(events, duration), t);
    assert NoOverlap(events, t, t + duration);
  }
}
