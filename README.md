# hw-scheduling availability engine in Dafny

This is a model of the scheduling core of `hw-scheduling`. The core is a small service that answers three questions about agents' calendars:

- whether a user is free at an instant;
- which slots of a given length are free within a list of time windows;
- whether an agent has room for more work today.

Around this engine sit a few bookkeeping pieces, which are modelled too:

- a JSON-backed agent calendar (`JSONAgentCalendar`);
- an in-memory store of iCalendar text per agent (`MockCalendarStore`);
- the lookup of an agent's calendar settings;
- the request and event records.

Instants are whole minutes on one integer timeline, and `timedelta(minutes=15)` is the integer 15. A datetime's `.date()` is the day number `t / 1440`. The clock reading `datetime.now().date()` is passed in as `today`. The bookings map `agent_calendars` is a parameter of type `map<int, seq<(Time, Time)>>`. The JSON calendar's records and the settings list arrive already parsed.

The scan that both `find_available_slots` implementations perform is specified once, in `SlotScan.FirstSlots`. The specification takes the availability test as a parameter `free`: of the cursor positions of all ranges in scan order, it keeps those that `free` accepts and cuts after `count` of them. Each imperative loop is proved to return exactly `FirstSlots` with its own test, and the properties of the scan are proved about `FirstSlots`.

Files:
- `wrappers.dfy`: `Option`, `Result` and `Outcome`.
- `seqs.dfy`: `Keep`, the order-preserving filter that models every list comprehension of the source, with its lemmas.
- `models.dfy`: `models/__init__.py`.
- `slot_scan.dfy`: the scan specification and its properties.
- `scheduling.dfy`: `scheduling/scheduling.py`.
- `json_agent_calendar.dfy`: `agent_calendar/json_agent_calendar.py`.
- `agent_calendars.dfy`: `scheduling/agent_calendars.py`.
- `agent_calendar_settings.dfy`: `agent_calendar/agent_calendar_settings.py`.

Three behaviours one might expect of this service are absent from the code, so the model has none of them. Working hours are only a TODO in `is_time_available` (agent_calendar/json_agent_calendar.py:51). A work recommender, `recommend_work_from_todo`, is called only by a test (tests/test_agent_json_calendar.py:100-116) and defined nowhere in this revision of the repository. Rolling a search over to the next day appears nowhere in this revision's code.

## Model

| member | source | states |
|---|---|---|
| Models.NewFindAvailableTimesRequest | models/__init__.py:20-24 | A request is accepted exactly when `duration_minutes > 0` and `count > 0`. An accepted request carries the given fields unchanged. A rejected one reports each failing field. |
| Models.ICSEventHasNoOrderCheck | models/__init__.py:40-47 | An event needs only `uid`, `dtstamp`, `dtstart`, `dtend` and `summary`. `description` and `location` default to None. An event may end before it starts. |
| Scheduling.IsTimeAvailable | scheduling/scheduling.py:8-14 | The result is false exactly when some booking `(start, end)` of the user has `start <= time < end`, so bookings are closed at the start and open at the end. A user with no entry in the map is available at every instant. |
| Scheduling.FindAvailableSlots | scheduling/scheduling.py:17-27 | The nested loop with its `break` returns exactly `FirstSlots` with the point test at each cursor instant. |
| Scheduling.ScanInterval | scheduling/scheduling.py:20-24 | The inner `while`, started after `found` was collected, appends the first `count - \|found\|` free cursor positions of the interval. It terminates because the cursor advances by the positive step 15. |
| Scheduling.AgentCanAcceptMoreWork | scheduling/scheduling.py:30-35 | True exactly when fewer than 3 of the agent's bookings start on day `today`. An agent with no entry can accept work. |
| Scheduling.NewBookingEffect | scheduling/scheduling.py:34-35 | Adding a booking that starts today raises today's count by one. A booking on another day leaves the decision unchanged. |
| Scheduling.OnlyStartInstantChecked | scheduling/scheduling.py:22 | Only the start instant of a slot is checked. With a booking at 10..20, the 30-minute slot at 0 is still returned. |
| Scheduling.ValidatedRequestSlots | scheduling/scheduling.py:17-27 | For a validated request, at most `count` slots come back. Each slot is an instant at which the user is free, and the window `[t, t + duration)` lies inside one requested range. |
| SlotScan.SlotCountBounded | scheduling/scheduling.py:21 | At most `count` slots come back, and none when `count <= 0`. |
| SlotScan.SlotsAreFreeGridPoints | scheduling/scheduling.py:20-24 | Every slot passes the availability test. It lies a whole number of 15-minute steps after the start of some range, and its duration ends by that range's end. |
| SlotScan.RangeCandidatesAreGridPoints | scheduling/scheduling.py:20-24 | The cursor visits exactly the instants `start + 15k` (with `k >= 0`) at which a slot still fits in the range. |
| SlotScan.CandidatesAreGridPoints | scheduling/scheduling.py:19-24 | The positions of the whole scan are exactly the grid points of the input ranges. |
| SlotScan.SlotsArePrefixOfFreePositions | scheduling/scheduling.py:19-27 | The slots are the free positions in scan order, cut after `count`. When fewer than `count` come back, every free position did, so none is skipped. |
| SlotScan.LaterRangesIgnoredOnceFull | scheduling/scheduling.py:21-26 | Once earlier ranges have supplied `count` slots, the later ranges do not affect the result. |
| SlotScan.ShortRangeContributesNothing | scheduling/scheduling.py:21 | A range with `start + duration > end` can be removed without changing the result. |
| SlotScan.NoRoomNoCandidates | scheduling/scheduling.py:17-19 | When no range has `start + duration <= end`, the scan visits no cursor position at all. |
| SlotScan.InvertedRangeYieldsNothing | models/__init__.py:15-17 | `TimeRange` does not check `start < end`, and for a positive duration an inverted or empty range yields no slot. |
| SlotScan.SingleRangeSlotsIncrease | scheduling/scheduling.py:20-24 | The slots of one range come back in strictly increasing order. |
| SlotScan.RangeCandidatesIncrease | scheduling/scheduling.py:24 | The cursor positions of a range strictly increase. |
| SlotScan.KeepIncreasing | scheduling/scheduling.py:22-23 | Keeping only the free positions preserves strict increase. |
| SlotScan.CandidatesAppend | scheduling/scheduling.py:19 | Ranges are scanned in input order: the positions of `a + b` are those of `a` followed by those of `b`. |
| SlotScan.RangeScanAppend | scheduling/scheduling.py:19-24 | Scanning range `i` after ranges `..i` extends the collected slots by that range's first free positions, up to `count`. |
| SlotScan.ScanFull | scheduling/scheduling.py:25-26 | Breaking out once `count` slots are collected returns the specified result. |
| Seqs.KeepMembers | scheduling/scheduling.py:34 | The filter keeps exactly the elements that pass the test. |
| Seqs.KeepAppend | agent_calendar/json_agent_calendar.py:84 | The filter distributes over concatenation. |
| Seqs.KeepCount | scheduling/scheduling.py:34-35 | The length of the filtered list is the number of positions whose element passes the test. |
| Seqs.KeepIdempotent | agent_calendar/json_agent_calendar.py:84 | Filtering twice by the same test is filtering once. |
| Seqs.KeepEverything | agent_calendar/json_agent_calendar.py:84 | When every element passes, the filter returns the list unchanged. |
| JsonCalendar.LoadCalendarEvents | agent_calendar/json_agent_calendar.py:16-43 | The loaded list is sorted by `dtstart` and holds exactly the events of the records matching both ids, each as often as they occur there; a failed load gives the empty list. Membership, stability and the failure case are also stated by `LoadedEventsMembers`, `LoadedEventsSortedStably` and `FailedLoadIsEmpty`. |
| JsonCalendar.SortByStartSortsAndPermutes | agent_calendar/json_agent_calendar.py:35 | The sort orders events by ascending `dtstart` and neither adds nor drops any. |
| JsonCalendar.SortByStartStable | agent_calendar/json_agent_calendar.py:35 | The sort is stable: the events with any one start keep their input order. |
| JsonCalendar.SortByStartSorts | agent_calendar/json_agent_calendar.py:35 | The sorted list is in ascending order of `dtstart`. |
| JsonCalendar.SortByStartPermutes | agent_calendar/json_agent_calendar.py:35 | The sorted list holds the same events, each as often, as its input. |
| JsonCalendar.InsertByStartSorted | agent_calendar/json_agent_calendar.py:35 | Inserting into a sorted list keeps it sorted. |
| JsonCalendar.InsertByStartPermutes | agent_calendar/json_agent_calendar.py:35 | Inserting adds exactly the new event. |
| JsonCalendar.InsertByStartStable | agent_calendar/json_agent_calendar.py:35 | Insertion passes only events that start strictly earlier. |
| JsonCalendar.LoadedEventsSortedStably | agent_calendar/json_agent_calendar.py:22-35 | The loaded list is sorted by start. For every start time, its events appear in the order of concatenating the matching records' `calendar_events`. |
| JsonCalendar.LoadedEventsMembers | agent_calendar/json_agent_calendar.py:22-26 | An event is loaded exactly when a record whose `client_id` and `agent_id` both match holds it. |
| JsonCalendar.OwnedEventsMembers | agent_calendar/json_agent_calendar.py:22-26 | Filtering the records and then flattening them yields exactly the events that some matching record holds. |
| JsonCalendar.FailedLoadIsEmpty | agent_calendar/json_agent_calendar.py:41-43 | Any failure while loading yields an empty event list, not an error. |
| JsonCalendar.JSONAgentCalendar.constructor | agent_calendar/json_agent_calendar.py:10-14 | The calendar keeps its client and agent ids and holds the events loaded for them. |
| JsonCalendar.JSONAgentCalendar.IsTimeAvailable | agent_calendar/json_agent_calendar.py:45-52 | The result is false exactly when some event has `start < dtend` and `end > dtstart`. With no events it is always true, and nothing else is consulted. |
| JsonCalendar.JSONAgentCalendar.FindAvailableSlots | agent_calendar/json_agent_calendar.py:54-64 | The loop returns exactly `FirstSlots` with the test as called on line 59, `(user_id, current_start)`. |
| JsonCalendar.JSONAgentCalendar.ScanInterval | agent_calendar/json_agent_calendar.py:57-61 | The inner `while` appends the first `count - \|found\|` accepted cursor positions of the interval. |
| JsonCalendar.JSONAgentCalendar.AddEvent | agent_calendar/json_agent_calendar.py:77-80 | The new list is the old list followed by the new event. |
| JsonCalendar.JSONAgentCalendar.RemoveEvent | agent_calendar/json_agent_calendar.py:82-85 | The new list keeps exactly the events whose id differs from `event_id`, in their original order. |
| JsonCalendar.JSONAgentCalendar.GetEvents | agent_calendar/json_agent_calendar.py:87-89 | Returns the current list. |
| JsonCalendar.RemovedExactly | agent_calendar/json_agent_calendar.py:84 | After removal no event carries the id, and every event with another id (or none) remains. |
| JsonCalendar.RemoveTwiceIsOnce | agent_calendar/json_agent_calendar.py:84 | Removing the same id twice is removing it once. |
| JsonCalendar.RemoveAbsentId | agent_calendar/json_agent_calendar.py:84 | Removing an id that no event carries changes nothing. |
| JsonCalendar.RemoveUndoesAdd | agent_calendar/json_agent_calendar.py:79-84 | Adding an event with some id and then removing that id is the same as removing the id alone. |
| JsonCalendar.NoEventsEveryPosition | agent_calendar/json_agent_calendar.py:47-59 | With no events loaded, every cursor position is returned, up to `count`. Under Python's types the call as written also returns without error in this case. |
| JsonCalendar.NoPositionVisitedNoSlots | agent_calendar/json_agent_calendar.py:54-64 | When `count <= 0` or no range has room for one slot, no cursor position is visited and no slot is returned, whatever the events. Under Python's types the call as written also returns without error in this case. |
| JsonCalendar.MixedUpArgumentsAdmitOverlap | agent_calendar/json_agent_calendar.py:59 | On the integer timeline, where the user id is read as an instant, a slot returned as written can overlap an event. |
| JsonCalendar.WholeSlotCheckRejectsOverlap | agent_calendar/json_agent_calendar.py:59 | With the intended arguments, the same request returns no slot. |
| JsonCalendar.WholeSlotSlotsAvoidEvents | agent_calendar/json_agent_calendar.py:54-64 | With the intended arguments, no returned slot `[t, t + duration)` overlaps any event, and each lies on the grid of a requested range. |
| CalendarStore.MockCalendarStore.constructor | scheduling/agent_calendars.py:2-5 | A new store holds no calendar, so every lookup gives None. |
| CalendarStore.MockCalendarStore.GetCalendar | scheduling/agent_calendars.py:7-14 | Returns the agent's calendar, or None when there is none, and does not change the store. |
| CalendarStore.MockCalendarStore.SetCalendar | scheduling/agent_calendars.py:16-28 | Accepts exactly the data that starts with `BEGIN:VCALENDAR` and contains `END:VCALENDAR`. Accepted data becomes the agent's calendar, so the last write wins and every other agent's entry is left unchanged. Other data is refused with the format error, and the store is unchanged. |
| CalendarStore.FramedTextAccepted | scheduling/agent_calendars.py:25 | Text framed by the begin and end markers passes the format check. |
| CalendarStore.EndMarkerMayOccurAnywhere | scheduling/agent_calendars.py:25 | The end marker may be followed by anything: it need only occur somewhere. |
| CalendarStore.LeadingSpaceRefused | scheduling/agent_calendars.py:25-26 | Data with anything before the begin marker is refused. |
| CalendarStore.BeginMarkerAloneRefused | scheduling/agent_calendars.py:25-26 | Data without the end marker is refused. |
| CalendarStore.ExampleUsage | scheduling/agent_calendars.py:31-57 | The sample calendar stored for "agent_001" is read back unchanged. |
| CalendarSettings.GetAgentCalendarSettings | agent_calendar/agent_calendar_settings.py:17-27 | The lookup succeeds exactly when one record matches both `client_id` and `agent_id`, and then returns that record. No match gives the "no settings" error. Two or more matches give the "multiple settings" error, so the first match is never silently chosen. |
| CalendarSettings.SingleMatch | agent_calendar/agent_calendar_settings.py:20-26 | The filter keeps one record per matching position. When there is exactly one, it is the record at that position. |
| CalendarSettings.ExampleLookup | tests/test_agent_calendar_settings.py:9-15 | The record of client 1's agent 1 carries those ids and calendar type "json". |

## Left out

- The HTTP layer (`routers/`, `main.py`, `app.py`) is not part of this model.
- The following are replaced by parameters:
  - file reading and JSON parsing;
  - `datetime.fromisoformat`.
- Loading takes records that are already parsed. Every exception the loader would catch is the single value `None`.
- `datetime.now()` is the parameter `today`.
- Time zones are not modelled: all instants lie on one timeline.
- `JSONAgentCalendar.agent_can_accept_more_work` is not modelled. It calls `.get` on the event list, which is a list and has no such method. The `scheduling/scheduling.py` version is modelled instead.
- `agent_calendar/agent_calendar_factory.py` is not part of this model: it only dispatches on a string tag. Neither is the abstract interface `agent_calendar/agent_calendar.py`, which has no behaviour.
- Three imported names are not defined by the modules they are imported from: `agent_calendars` (imported by `scheduling/scheduling.py`), `AgentCalendarEvent` (imported by `agent_calendar/json_agent_calendar.py`) and `AgentCalendarSettings` (imported by `agent_calendar/agent_calendar_settings.py`). The model treats them as defined. `agent_calendars` is a map parameter. `AgentCalendarEvent` is the record `CalendarEvent`. `AgentCalendarSettings` is a record whose fields (`client_id`, `agent_id`, `calendar_type`) are taken from the settings test.
- JsonCalendar.JSONAgentCalendar.AddEvent: the call to `_save_events` that follows the list change is not modelled, because file output is not part of this model. In the source that write can raise after the list has already changed (for instance, `json.dump` cannot serialize the loaded datetimes). The model promises only the new list.
- JsonCalendar.JSONAgentCalendar.RemoveEvent: the call to `_save_events` after the list is reassigned is not modelled, for the same reason and with the same consequence.
- JsonCalendar.JSONAgentCalendar.GetEvents: returns the list as a value. In the source it returns the live list object, so a caller's later changes to that list reach the calendar. The model does not capture that aliasing.
- JsonCalendar.MixedUpArgumentsAdmitOverlap: the overlapping slot it exhibits exists only on the integer timeline. Under Python's types, the same input raises `TypeError` at the first comparison on line 49, which that model does not capture.
- Scheduling.FindAvailableSlots: the inner `while` is a separate method, `ScanInterval`, called once per range. The statements are unchanged.
- JsonCalendar.JSONAgentCalendar.FindAvailableSlots: the inner `while` is a separate method, `ScanInterval`, in the same way.
- JsonCalendar.JSONAgentCalendar.FindAvailableSlots: the `TypeError` is not modelled. Line 59 passes the user id as the window's start. Under Python's types, line 49 then compares an `int` with a `datetime` and raises `TypeError` once an event is loaded and one cursor position is visited. With no events, or with no position visited, the call returns without error. On the integer timeline the user id is read as an instant instead.
- JsonCalendar.JSONAgentCalendar.ScanInterval: the same `TypeError` is not modelled. This method makes the line-59 call, so under Python's types it raises at line 49 on its first visited position once an event is loaded. The model reads the user id as an instant instead.
- JsonCalendar.JSONAgentCalendar.AddEvent: `add_event` appends the `dict` it receives (agent_calendar/json_agent_calendar.py:77-79), while loading produces `AgentCalendarEvent` objects (line 38). The model uses one record type, `CalendarEvent`, for both. It does not model the `AttributeError` that `event.dtend` on line 49 raises for an added `dict`.
- JsonCalendar.JSONAgentCalendar.RemoveEvent: `event.get('id')` (line 84) is read as the optional `id` field of `CalendarEvent`, absent giving `None`. It does not model the `AttributeError` that `.get` raises on a loaded `AgentCalendarEvent` object, which is not a `dict`.
- JsonCalendar.LoadCalendarEvents: the in-place conversion of the event dicts and the in-place sort are modelled as a pure pipeline: filter, flatten, then a stable insertion sort.
- SlotScan.SingleRangeSlotsIncrease: ordering is stated for the slots of a single range. Across ranges, the order is the input order of the ranges (see `CandidatesAppend`).
- `get_agent_calendar_settings` takes the settings list as a parameter. Being a function, it gives the same result for the same arguments and does not modify the list.

## Findings

| source | as written | input that shows it | evidently intended | confidence | as-written member | corrected member |
|---|---|---|---|---|---|---|
| agent_calendar/json_agent_calendar.py:59 | `is_time_available(user_id, current_start)` passes the user id as the window's start and the cursor instant as its end. Under Python's types, line 49 then compares an `int` with a `datetime`, which raises `TypeError` on the first visited cursor position once any event is loaded. With no events, every cursor position is returned. When no position is visited, nothing is returned and nothing is raised. On the integer timeline, where the id is read as an instant, an event counts as busy only when it ends after the user id and starts before the cursor instant | In Python: any loaded event, `count > 0` and a range with room for one slot give `TypeError`. On the integer timeline: one event 600..660, user id 1, range 585..615, duration 30, count 1 returns the slot 585, although 585..615 overlaps the event | `is_time_available(current_start, current_start + duration)`, so that no returned slot overlaps an event | not executed | JsonCalendar.MixedUpArgumentsAdmitOverlap | JsonCalendar.WholeSlotSlotsAvoidEvents |
