/**
 * `MockCalendarStore` of `scheduling/agent_calendars.py`: an in-memory map from agent
 * identifiers to iCalendar text, whose setter refuses text that does not look like
 * an iCalendar object.
 */
module CalendarStore {
  import opened Wrappers

  const BeginMarker: string := "BEGIN:VCALENDAR"
  const EndMarker: string := "END:VCALENDAR"

  /** `s.startswith(prefix)`. */
  predicate StartsWith(s: string, prefix: string)
  {
    |prefix| <= |s| && s[..|prefix|] == prefix
  }

  /** `part` occurs in `s` at position `i`. */
  predicate OccursAt(s: string, part: string, i: int)
  {
    0 <= i && i + |part| <= |s| && s[i..i + |part|] == part
  }

  /** `part in s`. */
  predicate Contains(s: string, part: string)
  {
    exists i :: 0 <= i <= |s| - |part| && OccursAt(s, part, i)
  }

  /** The setter's format check: the data starts with the begin marker and holds the end marker somewhere. */
  predicate LooksLikeIcs(data: string)
  {
    StartsWith(data, BeginMarker) && Contains(data, EndMarker)
  }

  /** The `ValueError` raised for data that is not in iCalendar format. */
  datatype StoreError = InvalidIcsFormat

  /** Calendars keyed by agent identifier. */
  class MockCalendarStore<K(==)> {
    var calendars: map<K, string>

    /** A new store holds no calendar. */
    constructor ()
      ensures calendars == map[]
    {
      calendars := map[];
    }

    /** `get_calendar`: the agent's calendar, or `None` when there is none; the store is not changed. */
    method GetCalendar(agentId: K) returns (r: Option<string>)
      ensures agentId in calendars ==> r == Some(calendars[agentId])
      ensures agentId !in calendars ==> r == None
    {
      if agentId in calendars {
        r := Some(calendars[agentId]);
      } else {
        r := None;
      }
    }

    /**
     * `set_calendar`: data that passes the format check becomes the agent's calendar,
     * replacing any earlier one and leaving every other agent's alone; other data is
     * refused and the store is unchanged.
     */
    method SetCalendar(agentId: K, icsData: string) returns (outcome: Outcome<StoreError>)
      modifies this
      ensures outcome.Pass? <==> LooksLikeIcs(icsData)
      ensures outcome.Pass? ==> calendars == old(calendars)[agentId := icsData]
      ensures outcome.Fail? ==> outcome.error == InvalidIcsFormat && calendars == old(calendars)
    {
      if !StartsWith(icsData, BeginMarker) || !Contains(icsData, EndMarker) {
        return Fail(InvalidIcsFormat);
      }
      calendars := calendars[agentId := icsData];
      return Pass;
    }
  }

  /** Text made of the begin marker, any body and the end marker passes the format check. */
  lemma FramedTextAccepted(body: string)
    ensures LooksLikeIcs(BeginMarker + body + EndMarker)
  {
    var s := BeginMarker + body + EndMarker;
    assert s[..|BeginMarker|] == BeginMarker;
    assert OccursAt(s, EndMarker, |BeginMarker| + |body|);
  }

  /** The end marker need not come last: anything may follow it. */
  lemma EndMarkerMayOccurAnywhere(body: string, trailer: string)
    ensures LooksLikeIcs(BeginMarker + body + EndMarker + trailer)
  {
    var s := BeginMarker + body + EndMarker + trailer;
    assert s[..|BeginMarker|] == BeginMarker;
    assert s[|BeginMarker| + |body|..|BeginMarker| + |body| + |EndMarker|] == EndMarker;
    assert OccursAt(s, EndMarker, |BeginMarker| + |body|);
  }

  /** The begin marker must come first: a leading space is enough to be refused. */
  lemma LeadingSpaceRefused(rest: string)
    ensures !LooksLikeIcs(" " + BeginMarker + rest)
  {
    var s := " " + BeginMarker + rest;
    assert s[0] == ' ';
  }

  /** The begin marker alone is refused: it does not hold the end marker. */
  lemma BeginMarkerAloneRefused()
    ensures !LooksLikeIcs(BeginMarker)
  {
    forall i | 0 <= i <= |BeginMarker| - |EndMarker|
      ensures !OccursAt(BeginMarker, EndMarker, i)
    {
      assert BeginMarker[i..i + |EndMarker|][0] == BeginMarker[i];
      assert BeginMarker[i..i + |EndMarker|][1] == BeginMarker[i + 1];
    }
  }

  /**
   * The example at the end of `scheduling/agent_calendars.py`: a sample calendar is
   * stored for agent "agent_001" and read back unchanged.
   */
  method ExampleUsage() returns (retrieved: Option<string>)
    ensures retrieved == Some(SampleIcs())
  {
    var store := new MockCalendarStore<string>();
    var sample := SampleIcs();
    FramedTextAccepted(SampleBody());
    var outcome := store.SetCalendar("agent_001", sample);
    retrieved := store.GetCalendar("agent_001");
  }

  /** The sample's lines between the begin and end markers. */
  function SampleBody(): string
  {
    "\nVERSION:2.0\nPRODID:-//Mock Calendar//EN\nBEGIN:VEVENT\nUID:unique-event-id@example.com\n"
    + "DTSTAMP:20231010T080000Z\nDTSTART:20231010T090000Z\nDTEND:20231010T100000Z\n"
    + "SUMMARY:Mock Event\nEND:VEVENT\n"
  }

  /** The sample calendar of the example. */
  function SampleIcs(): string
  {
    BeginMarker + SampleBody() + EndMarker
  }
}
