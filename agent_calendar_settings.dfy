/**
 * `get_agent_calendar_settings` of `agent_calendar/agent_calendar_settings.py`: picking
 * the one settings record of a client's agent out of the loaded settings list, which is
 * passed in rather than read from a file.
 */
module CalendarSettings {
  import opened Wrappers
  import opened Seqs

  /** Which calendar back end an agent of a client uses. */
  datatype AgentCalendarSettings = AgentCalendarSettings(clientId: int, agentId: int, calendarType: string)

  /** The two `ValueError`s of the lookup. */
  datatype SettingsError =
    | NoSettingsFound(clientId: int, agentId: int)
    | MultipleSettingsFound(clientId: int, agentId: int)

  /** The record is the one of this client's agent. */
  function Matches(clientId: int, agentId: int): AgentCalendarSettings -> bool
  {
    (s: AgentCalendarSettings) => s.clientId == clientId && s.agentId == agentId
  }

  /**
   * The record of `(clientId, agentId)` when exactly one record matches; an error
   * naming the pair when none or several match (the first match is never chosen).
   */
  function GetAgentCalendarSettings(all: seq<AgentCalendarSettings>, clientId: int, agentId: int)
    : (r: Result<AgentCalendarSettings, SettingsError>)
    ensures r.Success? <==> |Positions(Matches(clientId, agentId), all)| == 1
    ensures r.Success? ==> exists i :: Positions(Matches(clientId, agentId), all) == {i} && r.value == all[i]
    ensures r.Success? ==> r.value.clientId == clientId && r.value.agentId == agentId
    ensures r == Failure(NoSettingsFound(clientId, agentId)) <==> Positions(Matches(clientId, agentId), all) == {}
    ensures r == Failure(MultipleSettingsFound(clientId, agentId)) <==> |Positions(Matches(clientId, agentId), all)| > 1
  {
    var settings := Keep(Matches(clientId, agentId), all);
    SingleMatch(all, clientId, agentId);
    if |settings| == 0 then Failure(NoSettingsFound(clientId, agentId))
    else if |settings| > 1 then Failure(MultipleSettingsFound(clientId, agentId))
    else Success(settings[0])
  }

  /** What the filter keeps is exactly the matching positions; when there is one, it is that record. */
  lemma SingleMatch(all: seq<AgentCalendarSettings>, clientId: int, agentId: int)
    ensures |Keep(Matches(clientId, agentId), all)| == |Positions(Matches(clientId, agentId), all)|
    ensures |Keep(Matches(clientId, agentId), all)| == 1 ==>
      exists i :: Positions(Matches(clientId, agentId), all) == {i} && Keep(Matches(clientId, agentId), all)[0] == all[i]
  {
    var p := Matches(clientId, agentId);
    KeepCount(p, all);
    if |Keep(p, all)| == 1 {
      KeepMembers(p, all);
      var x := Keep(p, all)[0];
      var i :| 0 <= i < |all| && all[i] == x;
      assert i in Positions(p, all);
      forall j | j in Positions(p, all) ensures j == i {
        if j != i {
          assert {i, j} <= Positions(p, all);
          assert |{i, j}| == 2;
          SubsetCardinality({i, j}, Positions(p, all));
        }
      }
      assert Positions(p, all) == {i};
    }
  }

  lemma SubsetCardinality(a: set<int>, b: set<int>)
    requires a <= b
    ensures |a| <= |b|
  {
    assert b == a + (b - a);
  }

  /** The settings of the example data: client 1's agent 1 uses the JSON calendar. */
  lemma ExampleLookup(others: seq<AgentCalendarSettings>)
    requires forall i :: 0 <= i < |others| ==> !(others[i].clientId == 1 && others[i].agentId == 1)
    ensures GetAgentCalendarSettings([AgentCalendarSettings(1, 1, "json")] + others, 1, 1)
         == Success(AgentCalendarSettings(1, 1, "json"))
  {
    var p := Matches(1, 1);
    KeepCons(p, AgentCalendarSettings(1, 1, "json"), others);
    KeepCount(p, others);
    assert Positions(p, others) == {};
  }
}
