/** The echo protocol of input_based/uncorrect_consensus_protocol.py. Every
    delivered text overwrites y ('0' if it contains a "0", else '1' if it
    contains a "1") and is answered by an "echo: val=<y>" to every other
    process, so decisions are never final. The schedule first performs one
    receive per pid of the given order, then applies the resulting events. */
module Uncorrect {
  import opened Common
  import opened Channel
  import opened Configurations
  import opened ToyBase

  /** What `receive` hands back: the text of the popped pair, None, or the
      AttributeError of `self.pid` once a pair with a None text is popped. */
  datatype TextReceived = Text(t: string) | NoText | NoPayloadRaised

  /** `receive(receiver, log)` with the delivery coin as `deliver`. */
  function ReceiveText(c: Chan<Packet>, r: Pid, deliver: bool): (res: (TextReceived, Chan<Packet>))
    ensures res.1 == ReceiveFrom(c, r, deliver).1
    ensures res.0.Text? <==> deliver && Queue(c, r) != [] && Queue(c, r)[0].1.Some?
    ensures res.0.Text? ==> Queue(c, r)[0].1 == Some(res.0.t)
    ensures res.0.NoPayloadRaised? <==> deliver && Queue(c, r) != [] && Queue(c, r)[0].1.None?
    ensures res.0.NoText? ==> res.1 == c
  {
    var (m, d) := ReceiveFrom(c, r, deliver);
    if m.None? then (NoText, d)
    else if m.value.1.Some? then (Text(m.value.1.value), d)
    else (NoPayloadRaised, d)
  }

  method ReceiveTextFrom(ms: MessageSystem<Packet>, r: Pid, deliver: bool) returns (res: TextReceived)
    requires ms.Valid()
    modifies ms
    ensures ms.Valid() && (res, ms.State()) == ReceiveText(old(ms.State()), r, deliver)
  {
    var m := ms.Receive(r, deliver);
    if m.None? {
      res := NoText;
    } else if m.value.1.Some? {
      res := Text(m.value.1.value);
    } else {
      res := NoPayloadRaised;
    }
  }

  /** `f"{process.y}"`: 'b', or the digit. */
  function YText(y: YValue): (s: string)
    ensures y == Blank <==> s == "b"
    ensures y.TextBit? ==> s == [Digit(y.t)]
  {
    match y
    case Blank => "b"
    case TextBit(b) => [Digit(b)]
    case IntBit(b) => [Digit(b)]
  }

  datatype EventOutcome = UnknownPid | Skipped | Reacted

  /** `EventInputBased.apply(config, log)`: the step counter moves first,
      even before the lookup that raises KeyError for an unknown pid; a
      crashed process or a missing message changes nothing else. */
  method ApplyEvent(event: EchoEvent, config: EchoConfig) returns (outcome: EventOutcome)
    requires config.Valid() && config.messageSystem.Valid()
    modifies config, config.messageSystem
    modifies if event.pid in config.processes then {config.processes[event.pid]} else {}
    ensures config.Valid() && config.messageSystem.Valid()
    ensures config.stepCounter == old(config.stepCounter) + 1
    ensures outcome == UnknownPid <==> event.pid !in config.processes
    ensures outcome == Skipped <==> event.pid in config.processes && !config.processes[event.pid].alive
    ensures (outcome != Reacted || event.message.None? ==>
      unchanged(config.messageSystem) && unchanged(config.processes.Values))
    ensures (outcome == Reacted && event.message.Some? ==>
      var p := config.processes[event.pid];
      p.lastMsg == event.message && p.y == EchoDecision(old(p.y), event.message.value) &&
      p.alive && p.pc == old(p.pc) &&
      config.messageSystem.State() ==
        Broadcast(old(config.messageSystem.State()), config.order, event.pid,
                  (event.pid, Some("echo: val=" + YText(p.y)))))
    // every process, the stepping one included, seen from outside
    ensures forall k :: (k in config.processes ==>
      config.processes[k].alive == old(config.processes[k].alive) &&
      config.processes[k].y ==
        if k == event.pid && outcome == Reacted && event.message.Some?
        then EchoDecision(old(config.processes[k].y), event.message.value)
        else old(config.processes[k].y))
  {
    config.StepApplied();
    if event.pid !in config.processes {
      return UnknownPid;
    }
    var process := config.processes[event.pid];
    if !process.alive {
      return Skipped;
    }
    outcome := Reacted;
    if event.message.None? {
      return;
    }
    process.lastMsg := event.message;
    if Contains(event.message.value, '0') {
      process.y := TextBit(0);
    } else if Contains(event.message.value, '1') {
      process.y := TextBit(1);
    }
    config.messageSystem.SendToOthers(config.order, event.pid, (event.pid, Some("echo: val=" + YText(process.y))));
  }

  /** The receive at r popped a pair with a None text, leaving d. */
  predicate RaisedAt(c: Chan<Packet>, r: Pid, deliver: bool, d: Chan<Packet>) {
    var step := ReceiveFrom(c, r, deliver);
    step.0.Some? && step.0.value.1.None? && d == step.1
  }

  /** The i-th receive of the schedule, taken from the buffer the first i
      receives left. */
  method ReceiveNext(ms: MessageSystem<Packet>, order: seq<Pid>, delivers: seq<bool>, i: nat, ghost before: Chan<Packet>)
    returns (got: TextReceived)
    requires ms.Valid() && |order| == |delivers| && i < |order|
    requires ms.State() == ReceiveAll(before, order[..i], delivers[..i]).1
    modifies ms
    ensures ms.Valid()
    ensures got.NoPayloadRaised? ==>
      RaisedAt(ReceiveAll(before, order[..i], delivers[..i]).1, order[i], delivers[i], ms.State())
    ensures !got.NoPayloadRaised? ==>
      ms.State() == ReceiveAll(before, order[..i + 1], delivers[..i + 1]).1 &&
      (if got.Text? then Some(got.t) else None) ==
        TextOf(ReceiveFrom(ReceiveAll(before, order[..i], delivers[..i]).1, order[i], delivers[i]).0)
  {
    ReceiveAllStep(before, order, delivers, i);
    got := ReceiveTextFrom(ms, order[i], delivers[i]);
  }

  /** One event of a schedule run, tracked against the y values the run
      started from: each live process's y is the rule applied to every text
      it has been handed so far. */
  method TrackedApply(event: EchoEvent, config: EchoConfig, ghost events: seq<EchoEvent>, ghost i: nat,
                      ghost y0: map<Pid, YValue>, ghost a0: map<Pid, bool>, ghost c0: nat)
    returns (outcome: EventOutcome)
    requires i < |events| && events[i] == event && Ran(config, y0, a0, c0, events, i)
    modifies config, config.messageSystem, config.processes.Values
    ensures Ran(config, y0, a0, c0, events, i + 1)
    ensures outcome == UnknownPid <==> event.pid !in config.processes
  {
    ghost var ys := Ys(config);
    outcome := ApplyEvent(event, config);
    forall k | k in config.processes
      ensures config.processes[k].y == if a0[k] then EchoAll(y0[k], TextsFor(events[..i + 1], k)) else y0[k]
    {
      TrackStep(y0[k], ys[k], config.processes[k].y, a0[k], outcome == Reacted, events, i, k);
    }
  }

  class UncorrectSchedule {
    var events: seq<EchoEvent>

    constructor ()
      ensures events == []
    {
      events := [];
    }

    /** `generate_from_config`: the old events are dropped and one receive
        per pid of the order, with one coin each, makes the new ones, all
        before any is applied. A popped None text raises midway. */
    method GenerateFromConfig(config: EchoConfig, processOrder: seq<Pid>, delivers: seq<bool>) returns (outcome: RunOutcome)
      requires config.messageSystem.Valid() && |delivers| == |processOrder|
      modifies this, config.messageSystem
      ensures config.messageSystem.Valid()
      ensures |events| <= |processOrder|
      ensures Generated(events, processOrder, delivers, old(config.messageSystem.State()))
      ensures outcome == Finished ==> (|events| == |processOrder| &&
        config.messageSystem.State() == ReceiveAll(old(config.messageSystem.State()), processOrder, delivers).1)
      ensures outcome == Raised ==> (|events| < |processOrder| &&
        RaisedAt(ReceiveAll(old(config.messageSystem.State()), processOrder[..|events|], delivers[..|events|]).1,
                 processOrder[|events|], delivers[|events|], config.messageSystem.State()))
    {
      ghost var before := config.messageSystem.State();
      var evs: seq<EchoEvent> := [];
      var i := 0;
      while i < |processOrder|
        invariant 0 <= i <= |processOrder| && |evs| == i
        invariant config.messageSystem.Valid()
        invariant Generated(evs, processOrder, delivers, before)
        invariant config.messageSystem.State() == ReceiveAll(before, processOrder[..i], delivers[..i]).1
      {
        var got := ReceiveNext(config.messageSystem, processOrder, delivers, i, before);
        if got.NoPayloadRaised? {
          events := evs;
          return Raised;
        }
        var event := EchoEvent(processOrder[i], if got.Text? then Some(got.t) else None);
        GeneratedStep(evs, processOrder, delivers, before, event);
        evs := evs + [event];
        i := i + 1;
      }
      assert processOrder[..i] == processOrder && delivers[..i] == delivers;
      events := evs;
      outcome := Finished;
    }

    /** `run(config, log)`: the events in order. Each live process ends with
        the rule applied to the texts it was handed, in order; an unknown pid
        raises KeyError after the counter has moved. */
    method Run(config: EchoConfig) returns (applied: nat, outcome: RunOutcome)
      requires config.Valid() && config.messageSystem.Valid()
      modifies config, config.messageSystem, config.processes.Values
      ensures outcome == Finished ==> applied == |old(events)|
      ensures Ran(config, old(Ys(config)), old(Alives(config)), old(config.stepCounter), old(events), applied)
      ensures outcome == Raised ==> 0 < applied && old(events)[applied - 1].pid !in config.processes
    {
      var evs := events;
      ghost var y0, a0, c0 := Ys(config), Alives(config), config.stepCounter;
      RanStart(config, evs);
      var i := 0;
      while i < |evs|
        invariant Ran(config, y0, a0, c0, evs, i)
      {
        var result := TrackedApply(evs[i], config, evs, i, y0, a0, c0);
        if result == UnknownPid {
          return i + 1, Raised;
        }
        i := i + 1;
      }
      applied, outcome := i, Finished;
    }
  }

  /** The initial messages: every process, in key order, sends "val=x". */
  function Seeds(order: seq<Pid>, processes: map<Pid, EchoProcess>): (ms: seq<Packet>)
    requires forall k :: k in order ==> k in processes
    ensures |ms| == |order|
    ensures forall i :: 0 <= i < |order| ==> ms[i] == (order[i], Some("val=" + IntToString(processes[order[i]].x)))
  {
    seq(|order|, i requires 0 <= i < |order| => (order[i], Some("val=" + IntToString(processes[order[i]].x))))
  }

  /** Lines 151-154: from an empty buffer, every process sends "val=x" to
      every other one, one message per ordered pair of distinct pids. */
  method SeedInputs(config: EchoConfig)
    requires config.Valid() && config.messageSystem.Valid()
    modifies config.messageSystem
    ensures config.messageSystem.Valid()
    ensures config.messageSystem.State() ==
      BroadcastAll(old(config.messageSystem.State()), config.order, config.order, Seeds(config.order, config.processes))
  {
    config.messageSystem.SendAllToOthers(config.order, config.order, Seeds(config.order, config.processes));
  }

  /** Line 145: one process per (pid, x) pair. */
  method MakeProcesses(inputValues: seq<(Pid, int)>) returns (ps: seq<EchoProcess>)
    ensures |ps| == |inputValues|
    ensures forall i :: 0 <= i < |ps| ==>
      fresh(ps[i]) && ps[i].pid == inputValues[i].0 && ps[i].x == inputValues[i].1 &&
      ps[i].y == Blank && ps[i].lastMsg == None && ps[i].alive
  {
    ps := [];
    var i := 0;
    while i < |inputValues|
      invariant 0 <= i <= |inputValues| && |ps| == i
      invariant forall j :: 0 <= j < i ==>
        fresh(ps[j]) && ps[j].pid == inputValues[j].0 && ps[j].x == inputValues[j].1 &&
        ps[j].y == Blank && ps[j].lastMsg == None && ps[j].alive
    {
      var p := new EchoProcess(inputValues[i].0, inputValues[i].1);
      ps := ps + [p];
      i := i + 1;
    }
  }

  /** `simulate_input_based_run(process_order, input_values)`, with one
      delivery coin per scheduled pid; the log it returns is not modelled,
      so the final configuration is returned instead. */
  method SimulateInputBasedRun(processOrder: seq<Pid>, inputValues: seq<(Pid, int)>, delivers: seq<bool>)
    returns (config: EchoConfig, outcome: RunOutcome)
    requires |delivers| == |processOrder|
    ensures config.Valid()
    ensures outcome == Finished ==> config.stepCounter == |processOrder|
  {
    var schedule := new UncorrectSchedule();
    config := Build(inputValues);
    outcome := schedule.GenerateFromConfig(config, processOrder, delivers);
    if outcome == Raised {
      return;
    }
    var applied;
    applied, outcome := schedule.Run(config);
  }

  /** Lines 145-154: the processes, the configuration and the seeding. */
  method Build(inputValues: seq<(Pid, int)>) returns (config: EchoConfig)
    ensures fresh(config) && fresh(config.messageSystem) && forall p :: p in config.processes.Values ==> fresh(p)
    ensures config.Valid() && config.messageSystem.Valid() && config.stepCounter == 0
    ensures config.messageSystem.State() ==
      BroadcastAll(Chan(map[], []), config.order, config.order, Seeds(config.order, config.processes))
  {
    var ps := MakeProcesses(inputValues);
    var ms := new MessageSystem<Packet>();
    config := new EchoConfig(ps, ms);
    assert forall p :: p in config.processes.Values ==> fresh(p);
    SeedInputs(config);
  }
}
