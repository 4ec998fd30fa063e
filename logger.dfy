/** The structured logger of utils/logger.py: an append-only list of entries
    and a step counter that only `log_event` advances. */
module Logging {
  import opened Common

  /** The JSON-like values entries hold. */
  datatype Json =
    | JNull
    | JBool(b: bool)
    | JInt(i: int)
    | JStr(s: string)
    | JList(items: seq<Json>)
    | JObject(fields: map<string, Json>)

  type Entry = map<string, Json>

  /** The logger's state: its entries and its step counter. */
  datatype LogState = LogState(entries: seq<Entry>, stepCounter: int)

  /** `log_event`: stamp with the incremented counter, then spread the event,
      so a "step" key of the event overrides the stamp. */
  function AfterLogEvent(st: LogState, enabled: bool, event: Entry): (r: LogState)
    ensures !enabled ==> r == st
    ensures enabled ==> r.stepCounter == st.stepCounter + 1 && |r.entries| == |st.entries| + 1
    ensures enabled ==> r.entries[..|st.entries|] == st.entries
    ensures enabled ==> forall k :: k in event ==> k in r.entries[|st.entries|] && r.entries[|st.entries|][k] == event[k]
    ensures enabled ==> ("step" in r.entries[|st.entries|] &&
      ("step" !in event ==> r.entries[|st.entries|]["step"] == JInt(r.stepCounter)))
    ensures enabled ==> r.entries[|st.entries|].Keys == event.Keys + {"step"}
  {
    if enabled then
      var counter := st.stepCounter + 1;
      LogState(st.entries + [map["step" := JInt(counter)] + event], counter)
    else st
  }

  /** `snapshot`: a "snapshot" entry stamped with the current counter. */
  function AfterSnapshot(st: LogState, enabled: bool, configSnapshot: map<string, Json>): (r: LogState)
    ensures r.stepCounter == st.stepCounter
    ensures !enabled ==> r == st
    ensures enabled ==> r.entries == st.entries + [map["step" := JInt(st.stepCounter), "type" := JStr("snapshot"), "state" := JObject(configSnapshot)]]
  {
    if enabled then
      LogState(st.entries + [map["step" := JInt(st.stepCounter), "type" := JStr("snapshot"), "state" := JObject(configSnapshot)]], st.stepCounter)
    else st
  }

  /** `message or "Simulation finished"`: None and "" are both falsy. */
  function FinalText(message: Option<string>): (t: string)
    ensures t != ""
    ensures message.Some? && message.value != "" ==> t == message.value
  {
    if message.Some? && message.value != "" then message.value else "Simulation finished"
  }

  /** `final`: a "final" entry stamped one past the counter, which stays. */
  function AfterFinal(st: LogState, enabled: bool, message: Option<string>): (r: LogState)
    ensures r.stepCounter == st.stepCounter
    ensures !enabled ==> r == st
    ensures enabled ==> r.entries == st.entries + [map["step" := JInt(st.stepCounter + 1), "type" := JStr("final"), "message" := JStr(FinalText(message))]]
  {
    if enabled then
      LogState(st.entries + [map["step" := JInt(st.stepCounter + 1), "type" := JStr("final"), "message" := JStr(FinalText(message))]], st.stepCounter)
    else st
  }

  /** A sequence of calls on one logger. */
  datatype Call = LogEventCall(event: Entry) | SnapshotCall(state: map<string, Json>) | FinalCall(message: Option<string>)

  function Perform(st: LogState, enabled: bool, call: Call): LogState {
    match call
    case LogEventCall(e) => AfterLogEvent(st, enabled, e)
    case SnapshotCall(s) => AfterSnapshot(st, enabled, s)
    case FinalCall(m) => AfterFinal(st, enabled, m)
  }

  function Run(st: LogState, enabled: bool, calls: seq<Call>): LogState
    decreases |calls|
  {
    if calls == [] then st else Run(Perform(st, enabled, calls[0]), enabled, calls[1..])
  }

  function EventCalls(calls: seq<Call>): nat
    decreases |calls|
  {
    if calls == [] then 0 else (if calls[0].LogEventCall? then 1 else 0) + EventCalls(calls[1..])
  }

  /** Every call appends at most one entry and never removes or reorders the
      earlier ones; only `log_event` moves the counter, by one each; a
      disabled logger stays as it was. */
  lemma {:induction false} AppendOnly(st: LogState, enabled: bool, calls: seq<Call>)
    ensures var r := Run(st, enabled, calls);
      |st.entries| <= |r.entries| <= |st.entries| + |calls| &&
      r.entries[..|st.entries|] == st.entries &&
      r.stepCounter == st.stepCounter + (if enabled then EventCalls(calls) else 0) &&
      (!enabled ==> r == st)
    decreases |calls|
  {
    if calls != [] {
      var next := Perform(st, enabled, calls[0]);
      AppendOnly(next, enabled, calls[1..]);
      var r := Run(next, enabled, calls[1..]);
      assert r.entries[..|next.entries|] == next.entries;
      assert next.entries[..|st.entries|] == st.entries;
      assert r.entries[..|st.entries|] == r.entries[..|next.entries|][..|st.entries|];
    }
  }

  /** Events without their own "step" key, logged from a fresh logger, are
      stamped 1, 2, 3, ... in order. */
  lemma {:induction false} StepsCountUp(k: nat, events: seq<Entry>)
    requires forall i :: 0 <= i < |events| ==> "step" !in events[i]
    ensures var r := Run(LogState([], k), true, LogEvents(events));
      |r.entries| == |events| && r.stepCounter == k + |events| &&
      forall i :: 0 <= i < |events| ==> "step" in r.entries[i] && r.entries[i]["step"] == JInt(k + i + 1)
    decreases |events|
  {
    if events != [] {
      var n := |events| - 1;
      StepsCountUp(k, events[..n]);
      RunSplit(LogState([], k), true, LogEvents(events[..n]), [LogEventCall(events[n])]);
      assert LogEvents(events) == LogEvents(events[..n]) + [LogEventCall(events[n])];
    }
  }

  function LogEvents(events: seq<Entry>): (calls: seq<Call>)
    ensures |calls| == |events|
    ensures forall i :: 0 <= i < |events| ==> calls[i] == LogEventCall(events[i])
  {
    seq(|events|, i requires 0 <= i < |events| => LogEventCall(events[i]))
  }

  /** Running two call sequences one after the other. */
  lemma {:induction false} RunSplit(st: LogState, enabled: bool, a: seq<Call>, b: seq<Call>)
    ensures Run(st, enabled, a + b) == Run(Run(st, enabled, a), enabled, b)
    decreases |a|
  {
    if a != [] {
      assert (a + b)[1..] == a[1..] + b;
      RunSplit(Perform(st, enabled, a[0]), enabled, a[1..], b);
    } else {
      assert a + b == b;
    }
  }

  class SimulationLogger {
    const enabled: bool
    var entries: seq<Entry>
    var stepCounter: int

    function State(): LogState
      reads this
    {
      LogState(entries, stepCounter)
    }

    constructor (enabled: bool := true)
      ensures this.enabled == enabled && entries == [] && stepCounter == 0
    {
      this.enabled := enabled;
      entries := [];
      stepCounter := 0;
    }

    method LogEvent(event: Entry)
      modifies this
      ensures State() == AfterLogEvent(old(State()), enabled, event)
    {
      if enabled {
        stepCounter := stepCounter + 1;
        entries := entries + [map["step" := JInt(stepCounter)] + event];
      }
    }

    method Snapshot(configSnapshot: map<string, Json>)
      modifies this
      ensures State() == AfterSnapshot(old(State()), enabled, configSnapshot)
    {
      if enabled {
        entries := entries + [map["step" := JInt(stepCounter), "type" := JStr("snapshot"), "state" := JObject(configSnapshot)]];
      }
    }

    method Final(message: Option<string> := None)
      modifies this
      ensures State() == AfterFinal(old(State()), enabled, message)
    {
      if enabled {
        var text := if message.Some? && message.value != "" then message.value else "Simulation finished";
        entries := entries + [map["step" := JInt(stepCounter + 1), "type" := JStr("final"), "message" := JStr(text)]];
      }
    }

    /** `export_as_dict` hands out the entry list itself. */
    function ExportAsDict(): (r: seq<Entry>)
      reads this
      ensures r == State().entries
    {
      entries
    }
  }
}
