/**
 * The request and record types of the scheduling service. Instants are whole
 * minutes on one timeline (time zones are not modelled), so `timedelta(minutes=m)`
 * is the integer `m`.
 */
module Models {
  import opened Wrappers

  /** An instant, in minutes on a single timeline. */
  type Time = int

  /** A window in which slots are looked for. Nothing demands `start < end`. */
  datatype TimeRange = TimeRange(start: Time, end: Time)

  /**
   * A calendar entry in iCalendar terms. `description` and `location` are optional
   * and default to `None`; nothing demands `dtstart < dtend`.
   */
  datatype ICSEvent = ICSEvent(
    uid: string,
    dtstamp: Time,
    dtstart: Time,
    dtend: Time,
    summary: string,
    description: Option<string> := None,
    location: Option<string> := None)

  /** The body of a "find available times" request, once validated. */
  datatype FindAvailableTimesRequest = FindAvailableTimesRequest(
    userId: int,
    timeRanges: seq<TimeRange>,
    durationMinutes: int,
    count: int)

  /** The field constraints a request failed; the validator reports every failing field. */
  datatype ValidationError = ValidationError(durationNotPositive: bool, countNotPositive: bool)

  /**
   * Building a request validates it: `duration_minutes` and `count` must both be
   * greater than zero, and nothing else is checked.
   */
  function NewFindAvailableTimesRequest(userId: int, timeRanges: seq<TimeRange>, durationMinutes: int, count: int)
    : (r: Result<FindAvailableTimesRequest, ValidationError>)
    ensures r.Success? <==> durationMinutes > 0 && count > 0
    ensures r.Success? ==> r.value == FindAvailableTimesRequest(userId, timeRanges, durationMinutes, count)
    ensures r.Failure? ==> r.error.durationNotPositive == (durationMinutes <= 0)
    ensures r.Failure? ==> r.error.countNotPositive == (count <= 0)
  {
    if durationMinutes > 0 && count > 0 then
      Success(FindAvailableTimesRequest(userId, timeRanges, durationMinutes, count))
    else
      Failure(ValidationError(durationMinutes <= 0, count <= 0))
  }

  /** An event may end before it starts, and an event built from the required fields alone has no description or location. */
  lemma ICSEventHasNoOrderCheck(uid: string, dtstamp: Time, summary: string)
    ensures var e := ICSEvent(uid, dtstamp, 60, 0, summary);
      e.dtend < e.dtstart && e.description == None && e.location == None
  {
  }
}
