/** The echo protocol of message_based/consensus_protocol.py. A delivered
    text is echoed as "echo:" + text to every other process and then
    overwrites y ('0' if it contains a "0", else '1' if it contains a "1").
    The schedule performs one receive per pid of the given order before any
    event is applied; a run starts from P1 (x = 0), P2 and P3 (x = 1) and a
    list of initial sends, and reports the text decisions at the end. */
module MessageBased {
  import opened Common
  import opened Channel
  import opened Configurations
  import opened ToyBase

  /** `receive(receiver, log)` with the delivery coin as `deliver`: the
      popped pair's text, without its sender. A popped pair whose text is
      None still leaves the queue; the sender is dropped either way. */
  function ReceivePayload(c: Chan<Packet>, r: Pid, deliver: bool): (res: (Option<string>, Chan<Packet>))
    ensures res.1 == ReceiveFrom(c, r, deliver).1
    ensures res.0.Some? <==> deliver && Queue(c, r) != [] && Queue(c, r)[0].1.Some?
    ensures res.0.Some? ==> Queue(c, r)[0].1 == res.0
    ensures deliver && Queue(c, r) != [] ==> Queue(res.1, r) == Queue(c, r)[1..]
    ensures !deliver || Queue(c, r) == [] ==> res.1 == c
  {
    var (m, d) := ReceiveFrom(c, r, deliver);
    (TextOf(m), d)
  }

  method ReceivePayloadFrom(ms: MessageSystem<Packet>, r: Pid, deliver: bool) returns (payload: Option<string>)
    requires ms.Valid()
    modifies ms
    ensures ms.Valid() && (payload, ms.State()) == ReceivePayload(old(ms.State()), r, deliver)
  {
    var m := ms.Receive(r, deliver);
    payload := TextOf(m);
  }

  /** `f"{message}"`: the text, or "None". */
  function Shown(message: Option<string>): string {
    if message.Some? then message.value else "None"
  }

  /** The string `send` returns: "sender → receiver: message [sent]". */
  function Receipt(sender: Pid, receiver: Pid, message: Option<string>): string {
    sender + " → " + receiver + ": " + Shown(message) + " [sent]"
  }

  /** The receipt names both ends and the text; it cannot tell a missing
      text from the text "None". */
  lemma ReceiptParts(sender: Pid, receiver: Pid, message: Option<string>)
    ensures var s := Receipt(sender, receiver, message);
      s[..|sender|] == sender && s[|s| - 7..] == " [sent]" &&
      (message.Some? ==> s[|sender| + |receiver| + 5..|s| - 7] == message.value)
    ensures Receipt(sender, receiver, None) == Receipt(sender, receiver, Some("None"))
  {
    var s := Receipt(sender, receiver, message);
    var head := sender + " → " + receiver + ": ";
    assert |head| == |sender| + |receiver| + 5;
    assert s == head + Shown(message) + " [sent]";
    assert s[..|sender|] == sender by {
      assert s == sender + (" → " + receiver + ": " + Shown(message) + " [sent]");
    }
    assert s[|s| - 7..] == " [sent]" by {
      assert s == (head + Shown(message)) + " [sent]";
    }
  }

  /** `send(sender, receiver, message, log)`: the pair joins the receiver's
      queue (created on first use) and the receipt is returned. */
  method SendWithReceipt(ms: MessageSystem<Packet>, sender: Pid, receiver: Pid, message: Option<string>)
    returns (receipt: string)
    requires ms.Valid()
    modifies ms
    ensures ms.Valid() && ms.State() == SendTo(old(ms.State()), receiver, (sender, message))
    ensures receipt == Receipt(sender, receiver, message)
  {
    SendPacket(ms, sender, receiver, message);
    receipt := Receipt(sender, receiver, message);
  }

  datatype EventOutcome = UnknownPid | Skipped | Reacted

  /** `Event.apply(config, log)`: the step counter moves first, even before
      the lookup that raises KeyError for an unknown pid; a crashed process
      or a missing message changes nothing else. A text is echoed before y
      is updated, so the echo carries the text and not the decision. */
  method ApplyEvent(event: EchoEvent, config: EchoConfig) returns (outcome: EventOutcome)
    requires config.Valid() && config.messageSystem.Valid()
    modifies config, config.messageSystem
    modifies if event.pid in config.processes then {config.processes[event.pid]} else {}
    ensures config.Valid() && config.messageSystem.Valid()
    ensures config.stepCounter == old(config.stepCounter) + 1
    ensures outcome == UnknownPid <==> event.pid !in config.processes
    ensures outcome == Skipped <==> event.pid in config.processes && !config.processes[event.pid].alive
    ensures (outcome != Reacted || event.message.None? ==>
      unchanged(config.messageSystem) && unchanged(config.processes.Values))
    ensures (outcome == Reacted && event.message.Some? ==>
      var p := config.processes[event.pid];
      p.lastMsg == event.message && p.y == EchoDecision(old(p.y), event.message.value) &&
      p.alive && p.pc == old(p.pc) &&
      config.messageSystem.State() ==
        Broadcast(old(config.messageSystem.State()), config.order, event.pid,
                  (event.pid, Some("echo:" + event.message.value))))
    // every process, the stepping one included, seen from outside
    ensures forall k :: (k in config.processes ==>
      config.processes[k].alive == old(config.processes[k].alive) &&
      config.processes[k].y ==
        if k == event.pid && outcome == Reacted && event.message.Some?
        then EchoDecision(old(config.processes[k].y), event.message.value)
        else old(config.processes[k].y))
  {
    config.StepApplied();
    if event.pid !in config.processes {
      return UnknownPid;
    }
    var process := config.processes[event.pid];
    if !process.alive {
      return Skipped;
    }
    outcome := Reacted;
    if event.message.None? {
      return;
    }
    process.lastMsg := event.message;
    config.messageSystem.SendToOthers(config.order, event.pid, (event.pid, Some("echo:" + event.message.value)));
    if Contains(event.message.value, '0') {
      process.y := TextBit(0);
    } else if Contains(event.message.value, '1') {
      process.y := TextBit(1);
    }
  }

  /** The receive of pid number |evs| of the order, as the next generated
      event. */
  method NextEvent(ms: MessageSystem<Packet>, order: seq<Pid>, delivers: seq<bool>, ghost before: Chan<Packet>,
                   evs: seq<EchoEvent>) returns (event: EchoEvent)
    requires ms.Valid() && |order| == |delivers| && |evs| < |order| && Generated(evs, order, delivers, before)
    requires ms.State() == ReceiveAll(before, order[..|evs|], delivers[..|evs|]).1
    modifies ms
    ensures ms.Valid() && event.pid == order[|evs|] && Generated(evs + [event], order, delivers, before)
    ensures ms.State() == ReceiveAll(before, order[..|evs| + 1], delivers[..|evs| + 1]).1
  {
    ReceiveAllStep(before, order, delivers, |evs|);
    var msg := ReceivePayloadFrom(ms, order[|evs|], delivers[|evs|]);
    event := EchoEvent(order[|evs|], msg);
    GeneratedStep(evs, order, delivers, before, event);
  }

  /** The first `n` events of a schedule name pids among `keys`. */
  predicate Known(events: seq<EchoEvent>, keys: set<Pid>, n: int)
  {
    forall j :: 0 <= j < n && j < |events| ==> events[j].pid in keys
  }

  /** One event of a schedule run, tracked against the y values the run
      started from: each live process's y is the rule applied to every text
      it has been handed so far. */
  method TrackedApply(event: EchoEvent, config: EchoConfig, ghost events: seq<EchoEvent>, ghost i: nat,
                      ghost y0: map<Pid, YValue>, ghost a0: map<Pid, bool>, ghost c0: nat)
    returns (outcome: EventOutcome)
    requires i < |events| && events[i] == event && Ran(config, y0, a0, c0, events, i)
    requires Known(events, config.processes.Keys, i)
    modifies config, config.messageSystem, config.processes.Values
    ensures Ran(config, y0, a0, c0, events, i + 1)
    ensures outcome == UnknownPid <==> event.pid !in config.processes
    ensures outcome != UnknownPid ==> Known(events, config.processes.Keys, i + 1)
  {
    ghost var ys := Ys(config);
    outcome := ApplyEvent(event, config);
    forall k | k in config.processes
      ensures config.processes[k].y == if a0[k] then EchoAll(y0[k], TextsFor(events[..i + 1], k)) else y0[k]
    {
      TrackStep(y0[k], ys[k], config.processes[k].y, a0[k], outcome == Reacted, events, i, k);
    }
  }

  class MessageSchedule {
    var events: seq<EchoEvent>

    constructor ()
      ensures events == []
    {
      events := [];
    }

    /** `generate_from_config`: the old events are dropped and one receive
        per pid of the order, with one coin each, makes the new ones, all
        before any is applied. */
    method GenerateFromConfig(config: EchoConfig, processOrder: seq<Pid>, delivers: seq<bool>)
      requires config.messageSystem.Valid() && |delivers| == |processOrder|
      modifies this, config.messageSystem
      ensures config.messageSystem.Valid()
      ensures |events| == |processOrder|
      ensures Generated(events, processOrder, delivers, old(config.messageSystem.State()))
      ensures config.messageSystem.State() == ReceiveAll(old(config.messageSystem.State()), processOrder, delivers).1
    {
      var ms := config.messageSystem;
      ghost var before := ms.State();
      var evs: seq<EchoEvent> := [];
      var i := 0;
      while i < |processOrder|
        invariant 0 <= i <= |processOrder| && |evs| == i
        invariant ms.Valid() && Generated(evs, processOrder, delivers, before)
        invariant ms.State() == ReceiveAll(before, processOrder[..i], delivers[..i]).1
      {
        var event := NextEvent(ms, processOrder, delivers, before, evs);
        evs := evs + [event];
        i := i + 1;
      }
      assert processOrder[..i] == processOrder && delivers[..i] == delivers;
      events := evs;
    }

    /** `run(config, log)`: the events in order. Each live process ends with
        the rule applied to the texts it was handed, in order; an unknown pid
        raises KeyError after the counter has moved, at its first event. */
    method Run(config: EchoConfig) returns (applied: nat, outcome: RunOutcome)
      requires config.Valid() && config.messageSystem.Valid()
      modifies config, config.messageSystem, config.processes.Values
      ensures outcome == Finished ==> applied == |old(events)|
      ensures Ran(config, old(Ys(config)), old(Alives(config)), old(config.stepCounter), old(events), applied)
      ensures outcome == Raised ==> 0 < applied && old(events)[applied - 1].pid !in config.processes
      ensures Known(old(events), config.processes.Keys, if outcome == Finished then applied else applied - 1)
    {
      var evs := events;
      ghost var y0, a0, c0 := Ys(config), Alives(config), config.stepCounter;
      RanStart(config, evs);
      var i := 0;
      while i < |evs|
        invariant Ran(config, y0, a0, c0, evs, i)
        invariant Known(evs, config.processes.Keys, i)
      {
        var result := TrackedApply(evs[i], config, evs, i, y0, a0, c0);
        if result == UnknownPid {
          return i + 1, Raised;
        }
        i := i + 1;
      }
      applied, outcome := i, Finished;
    }
  }

  /** The three processes of every run: P1 with x = 0, P2 and P3 with x = 1. */
  function Pids(): seq<Pid> {
    ["P1", "P2", "P3"]
  }

  /** The buffer after the initial sends, in list order, from empty. */
  function Seeded(initial: seq<(Pid, Pid, Option<string>)>): Chan<Packet>
    decreases |initial|
  {
    if initial == [] then Chan(map[], [])
    else
      var n := |initial| - 1;
      SendTo(Seeded(initial[..n]), initial[n].1, (initial[n].0, initial[n].2))
  }

  /** The events the schedule makes: one per pid of the order, holding the
      text its receive gave. */
  function Schedule(order: seq<Pid>, initial: seq<(Pid, Pid, Option<string>)>, delivers: seq<bool>): (es: seq<EchoEvent>)
    requires |order| == |delivers|
    ensures |es| == |order| && forall i :: 0 <= i < |order| ==> es[i].pid == order[i]
  {
    var got := ReceiveAll(Seeded(initial), order, delivers).0;
    seq(|order|, i requires 0 <= i < |order| => EchoEvent(order[i], TextOf(got[i])))
  }

  /** The text decisions of a run, or None when a scheduled pid is not one
      of the three (the KeyError of `apply`). Every process starts at 'b'
      and takes the texts handed to it, in order. */
  function RunDecisions(order: seq<Pid>, initial: seq<(Pid, Pid, Option<string>)>, delivers: seq<bool>): (r: Option<set<YValue>>)
    requires |order| == |delivers|
    ensures r.None? <==> exists i :: 0 <= i < |order| && order[i] !in Pids()
    ensures r.Some? ==> r.value <= {TextBit(0), TextBit(1)}
  {
    if exists i :: 0 <= i < |order| && order[i] !in Pids() then None
    else Some(Decisions(Schedule(order, initial, delivers)))
  }

  /** The text decisions of P1, P2 and P3 after the events, each from 'b'. */
  function Decisions(es: seq<EchoEvent>): set<YValue> {
    set k | k in Pids() && EchoAll(Blank, TextsFor(es, k)).TextBit? :: EchoAll(Blank, TextsFor(es, k))
  }

  /** The initial sends of a run, in list order. */
  method SendInitial(ms: MessageSystem<Packet>, initial: seq<(Pid, Pid, Option<string>)>)
    requires ms.Valid() && ms.State() == Chan(map[], [])
    modifies ms
    ensures ms.Valid() && ms.State() == Seeded(initial)
  {
    var i := 0;
    while i < |initial|
      invariant 0 <= i <= |initial|
      invariant ms.Valid() && ms.State() == Seeded(initial[..i])
    {
      assert initial[..i + 1][..i] == initial[..i];
      var _ := SendWithReceipt(ms, initial[i].0, initial[i].1, initial[i].2);
      i := i + 1;
    }
    assert initial[..i] == initial;
  }

  /** The configuration a run starts from: P1, P2, P3 in that key order and
      the buffer holding the initial sends. */
  method InitialConfiguration(initial: seq<(Pid, Pid, Option<string>)>) returns (config: EchoConfig)
    ensures config.Valid() && config.messageSystem.Valid() && config.stepCounter == 0
    ensures fresh(config) && fresh(config.messageSystem)
    ensures config.processes.Keys == {"P1", "P2", "P3"}
    ensures forall k :: k in config.processes ==>
      fresh(config.processes[k]) && config.processes[k].y == Blank && config.processes[k].alive
    ensures config.messageSystem.State() == Seeded(initial)
  {
    var p1 := new EchoProcess("P1", 0);
    var p2 := new EchoProcess("P2", 1);
    var p3 := new EchoProcess("P3", 1);
    var ms := new MessageSystem<Packet>();
    config := new EchoConfig([p1, p2, p3], ms);
    Triple(p1, p2, p3, config);
    SendInitial(ms, initial);
  }

  /** A scheduled pid outside the three makes the run raise. */
  lemma UnknownPidRaises(order: seq<Pid>, initial: seq<(Pid, Pid, Option<string>)>, delivers: seq<bool>, i: nat)
    requires |order| == |delivers| && i < |order| && order[i] !in {"P1", "P2", "P3"}
    ensures RunDecisions(order, initial, delivers) == None
  {
    assert order[i] !in Pids();
  }

  /** The fresh configuration seeded with `initial`, and the schedule
      generated from it. */
  method Prepare(processOrder: seq<Pid>, initial: seq<(Pid, Pid, Option<string>)>, delivers: seq<bool>)
    returns (config: EchoConfig, schedule: MessageSchedule)
    requires |delivers| == |processOrder|
    ensures fresh(config) && fresh(config.messageSystem)
    ensures forall k :: k in config.processes ==> fresh(config.processes[k])
    ensures config.Valid() && config.messageSystem.Valid() && config.stepCounter == 0
    ensures config.processes.Keys == {"P1", "P2", "P3"}
    ensures schedule.events == Schedule(processOrder, initial, delivers)
    ensures forall k :: k in Ys(config) ==> Ys(config)[k] == Blank
    ensures forall k :: k in Alives(config) ==> Alives(config)[k]
  {
    schedule := new MessageSchedule();
    config := InitialConfiguration(initial);
    schedule.GenerateFromConfig(config, processOrder, delivers);
    ScheduleIs(schedule.events, processOrder, initial, delivers);
    StartBlank(config);
  }

  /** `simulate_message_based_run(process_order, initial_message)`, with one
      delivery coin per scheduled pid: the decision values at the end, or
      None when `run` raises. */
  method SimulateMessageBasedRun(processOrder: seq<Pid>, initial: seq<(Pid, Pid, Option<string>)>, delivers: seq<bool>)
    returns (result: Option<set<YValue>>)
    requires |delivers| == |processOrder|
    ensures result == RunDecisions(processOrder, initial, delivers)
  {
    var config, schedule := Prepare(processOrder, initial, delivers);
    ghost var es := schedule.events;
    ghost var y0, a0 := Ys(config), Alives(config);
    var applied, outcome := schedule.Run(config);
    if outcome == Raised {
      UnknownPidRaises(processOrder, initial, delivers, applied - 1);
      return None;
    }
    var values := ReadDecisions(config, processOrder, initial, delivers, es, y0, a0);
    result := Some(values);
  }

  /** Start values of a run in which every process is alive at `Blank`. */
  lemma StartBlank(config: EchoConfig)
    requires forall k :: k in config.processes ==> config.processes[k].y == Blank && config.processes[k].alive
    ensures forall k :: k in Ys(config) ==> Ys(config)[k] == Blank
    ensures forall k :: k in Alives(config) ==> Alives(config)[k]
  {
  }

  /** A run that took every event from all-alive `Blank` processes leaves
      each process at the echo of the texts the schedule delivered to it. */
  lemma FinishedRun(config: EchoConfig, y0: map<Pid, YValue>, a0: map<Pid, bool>, c0: nat, es: seq<EchoEvent>)
    requires Ran(config, y0, a0, c0, es, |es|)
    requires forall k :: k in y0 ==> y0[k] == Blank
    requires forall k :: k in a0 ==> a0[k]
    ensures forall k :: k in Ys(config) ==> Ys(config)[k] == EchoAll(Blank, TextsFor(es, k))
  {
    assert es[..|es|] == es;
  }

  /** The decision values of a finished run, collected from the final
      configuration (message_based/consensus_protocol.py:185-187). */
  method ReadDecisions(config: EchoConfig, processOrder: seq<Pid>, initial: seq<(Pid, Pid, Option<string>)>,
                       delivers: seq<bool>, ghost es: seq<EchoEvent>, ghost y0: map<Pid, YValue>, ghost a0: map<Pid, bool>)
    returns (values: set<YValue>)
    requires |processOrder| == |delivers| && es == Schedule(processOrder, initial, delivers)
    requires config.processes.Keys == {"P1", "P2", "P3"}
    requires forall i :: 0 <= i < |es| ==> es[i].pid in config.processes
    requires Ran(config, y0, a0, 0, es, |es|)
    requires forall k :: k in y0 ==> y0[k] == Blank
    requires forall k :: k in a0 ==> a0[k]
    ensures RunDecisions(processOrder, initial, delivers) == Some(values)
  {
    values := config.CollectDecisionValues();
    ghost var ys := Ys(config);
    FinishedRun(config, y0, a0, 0, es);
    config.DecisionValuesOf(ys);
    FinalDecisions(processOrder, initial, delivers, es, ys);
  }

  /** What the configuration over the three fresh processes looks like. */
  lemma Triple(p1: EchoProcess, p2: EchoProcess, p3: EchoProcess, config: EchoConfig)
    requires p1.pid == "P1" && p2.pid == "P2" && p3.pid == "P3"
    requires config.processes == ZipByKey(EchoPids([p1, p2, p3]), [p1, p2, p3])
    ensures config.processes == map["P1" := p1, "P2" := p2, "P3" := p3]
  {
    assert EchoPids([p1, p2, p3]) == ["P1", "P2", "P3"];
    assert ZipByKey(["P1"], [p1]) == map["P1" := p1] by {
      assert ["P1"][..0] == [] && [p1][..0] == [];
    }
    assert ZipByKey(["P1", "P2"], [p1, p2]) == map["P1" := p1, "P2" := p2] by {
      assert ["P1", "P2"][..1] == ["P1"] && [p1, p2][..1] == [p1];
    }
    assert ["P1", "P2", "P3"][..2] == ["P1", "P2"] && [p1, p2, p3][..2] == [p1, p2];
  }

  /** The decisions of a finished run, read off the final y of each of the
      three processes. */
  lemma FinalDecisions(order: seq<Pid>, initial: seq<(Pid, Pid, Option<string>)>, delivers: seq<bool>,
                       es: seq<EchoEvent>, ys: map<Pid, YValue>)
    requires |order| == |delivers| && es == Schedule(order, initial, delivers)
    requires ys.Keys == {"P1", "P2", "P3"}
    requires forall i :: 0 <= i < |es| ==> es[i].pid in ys
    requires forall k :: k in ys ==> ys[k] == EchoAll(Blank, TextsFor(es, k))
    ensures RunDecisions(order, initial, delivers) == Some(set k | k in ys && ys[k].TextBit? :: ys[k])
  {
    assert forall k :: k in ys <==> k in Pids();
    assert !exists i :: 0 <= i < |order| && order[i] !in Pids();
    var mine := set k | k in ys && ys[k].TextBit? :: ys[k];
    var theirs := Decisions(es);
    assert mine == theirs by {
      forall v | v in mine ensures v in theirs {
        var k :| k in ys && ys[k].TextBit? && ys[k] == v;
        assert k in Pids();
      }
      forall v | v in theirs ensures v in mine {
        var k :| k in Pids() && EchoAll(Blank, TextsFor(es, k)).TextBit? && EchoAll(Blank, TextsFor(es, k)) == v;
        assert k in ys;
      }
    }
  }

  /** The generated events are the pure schedule. */
  lemma ScheduleIs(es: seq<EchoEvent>, order: seq<Pid>, initial: seq<(Pid, Pid, Option<string>)>, delivers: seq<bool>)
    requires |order| == |delivers| && |es| == |order| && Generated(es, order, delivers, Seeded(initial))
    ensures es == Schedule(order, initial, delivers)
  {
    GeneratedEvents(es, order, delivers, Seeded(initial));
    assert order[..|es|] == order && delivers[..|es|] == delivers;
  }

  /** A single initial send, from the empty buffer. */
  lemma SeededOne(s: Pid, r: Pid, m: Option<string>)
    ensures Queue(Seeded([(s, r, m)]), r) == [(s, m)]
    ensures forall q :: q != r ==> Queue(Seeded([(s, r, m)]), q) == []
  {
    assert [(s, r, m)][..0] == [];
  }

  /** The first receive of an order, written out. */
  lemma ReceiveOne(c: Chan<Packet>, order: seq<Pid>, delivers: seq<bool>)
    requires 1 <= |order| == |delivers|
    ensures var s0 := ReceiveFrom(c, order[0], delivers[0]);
      ReceiveAll(c, order[..1], delivers[..1]) == ([s0.0], s0.1)
  {
    var s0 := ReceiveFrom(c, order[0], delivers[0]);
    assert order[..0] == [] && delivers[..0] == [];
    ReceiveAllStep(c, order, delivers, 0);
    assert [] + [s0.0] == [s0.0];
  }

  /** Two receives, written out one by one. */
  lemma ReceiveTwo(c: Chan<Packet>, order: seq<Pid>, delivers: seq<bool>)
    requires |order| == 2 && |delivers| == 2
    ensures var s0 := ReceiveFrom(c, order[0], delivers[0]);
      var s1 := ReceiveFrom(s0.1, order[1], delivers[1]);
      ReceiveAll(c, order, delivers) == ([s0.0, s1.0], s1.1)
  {
    var s0 := ReceiveFrom(c, order[0], delivers[0]);
    var s1 := ReceiveFrom(s0.1, order[1], delivers[1]);
    ReceiveOne(c, order, delivers);
    ReceiveAllStep(c, order, delivers, 1);
    assert order[..2] == order && delivers[..2] == delivers;
    assert [s0.0] + [s1.0] == [s0.0, s1.0];
  }

  /** Three receives, written out one by one. */
  lemma ReceiveThree(c: Chan<Packet>, order: seq<Pid>, delivers: seq<bool>)
    requires |order| == 3 && |delivers| == 3
    ensures var s0 := ReceiveFrom(c, order[0], delivers[0]);
      var s1 := ReceiveFrom(s0.1, order[1], delivers[1]);
      var s2 := ReceiveFrom(s1.1, order[2], delivers[2]);
      ReceiveAll(c, order, delivers).0 == [s0.0, s1.0, s2.0]
  {
    ReceiveTwo(c, order[..2], delivers[..2]);
  }

  /** P1 sends one text to a, and the order a, b, b is fully delivered:
      a gets the text, b's two receives find nothing. */
  lemma OneDeliveredSchedule(a: Pid, b: Pid, t: string)
    requires a != b
    ensures Schedule([a, b, b], [("P1", a, Some(t))], [true, true, true]) ==
      [EchoEvent(a, Some(t)), EchoEvent(b, None), EchoEvent(b, None)]
  {
    var c := Seeded([("P1", a, Some(t))]);
    SeededOne("P1", a, Some(t));
    ReceiveThree(c, [a, b, b], [true, true, true]);
  }

  /** Only a was handed a text. */
  lemma OneDeliveredTexts(a: Pid, b: Pid, t: string, k: Pid)
    requires a != b
    ensures TextsFor([EchoEvent(a, Some(t)), EchoEvent(b, None), EchoEvent(b, None)], k) == if k == a then [t] else []
  {
    var es := [EchoEvent(a, Some(t)), EchoEvent(b, None), EchoEvent(b, None)];
    assert es[..2] == [EchoEvent(a, Some(t)), EchoEvent(b, None)];
    assert es[..2][..1] == [EchoEvent(a, Some(t))];
    assert es[..2][..1][..0] == [];
    assert TextsFor(es[..2][..1], k) == if k == a then [t] else [];
    assert TextsFor(es[..2], k) == TextsFor(es[..2][..1], k);
    assert TextsFor(es, k) == TextsFor(es[..2], k);
  }

  /** The decision set of a run, process by process. */
  lemma DecisionsOfThree(es: seq<EchoEvent>)
    ensures Decisions(es) ==
      Decided(EchoAll(Blank, TextsFor(es, "P1"))) + Decided(EchoAll(Blank, TextsFor(es, "P2"))) +
      Decided(EchoAll(Blank, TextsFor(es, "P3")))
  {
    var f := k => EchoAll(Blank, TextsFor(es, k));
    DecidedOfThree(f);
    assert Decisions(es) == set k | k in Pids() && f(k).TextBit? :: f(k);
  }

  /** A decision set over P1, P2 and P3 is the union of their decisions. */
  lemma DecidedOfThree(f: Pid -> YValue)
    ensures (set k | k in Pids() && f(k).TextBit? :: f(k)) == Decided(f("P1")) + Decided(f("P2")) + Decided(f("P3"))
  {
    var those := Decided(f("P1")) + Decided(f("P2")) + Decided(f("P3"));
    forall v | v in (set k | k in Pids() && f(k).TextBit? :: f(k)) ensures v in those {
      var k :| k in Pids() && f(k).TextBit? && f(k) == v;
      assert k == "P1" || k == "P2" || k == "P3";
    }
    forall v | v in those ensures v in (set k | k in Pids() && f(k).TextBit? :: f(k)) {
      assert "P1" in Pids() && "P2" in Pids() && "P3" in Pids();
    }
  }

  function Decided(y: YValue): set<YValue> {
    if y.TextBit? then {y} else {}
  }

  /** P1's one text to a, fully delivered over the order a, b, b, leaves
      a alone decided, on that text. */
  lemma OneDeliveredDecides(a: Pid, b: Pid, t: string)
    requires a != b && a in Pids() && b in Pids() && a != "P1" && b != "P1"
    ensures RunDecisions([a, b, b], [("P1", a, Some(t))], [true, true, true]) ==
      Some(Decided(EchoAll(Blank, [t])))
  {
    assert forall i :: 0 <= i < 3 ==> [a, b, b][i] in Pids();
    OneDeliveredSchedule(a, b, t);
    OneDeliveredDecisions(a, b, t);
  }

  /** What process k decides after those three events. */
  lemma OneDeliveredDecided(a: Pid, b: Pid, t: string, k: Pid)
    requires a != b
    ensures Decided(EchoAll(Blank, TextsFor([EchoEvent(a, Some(t)), EchoEvent(b, None), EchoEvent(b, None)], k))) ==
      if k == a then Decided(EchoAll(Blank, [t])) else {}
  {
    OneDeliveredTexts(a, b, t, k);
  }

  lemma OneDeliveredDecisions(a: Pid, b: Pid, t: string)
    requires a != b && a in Pids() && b in Pids() && a != "P1" && b != "P1"
    ensures Decisions([EchoEvent(a, Some(t)), EchoEvent(b, None), EchoEvent(b, None)]) == Decided(EchoAll(Blank, [t]))
  {
    var es := [EchoEvent(a, Some(t)), EchoEvent(b, None), EchoEvent(b, None)];
    DecisionsOfThree(es);
    OneDeliveredDecided(a, b, t, "P1");
    OneDeliveredDecided(a, b, t, "P2");
    OneDeliveredDecided(a, b, t, "P3");
  }

  /** Lines 190-196 compare two runs; when every receive is delivered they
      end with different decisions ({'0'} against {'1'}), which the test
      reports as a bivalent configuration. */
  lemma BivalentWhenDelivered()
    ensures RunDecisions(["P2", "P3", "P3"], [("P1", "P2", Some("val=0"))], [true, true, true]) == Some({TextBit(0)})
    ensures RunDecisions(["P3", "P2", "P2"], [("P1", "P3", Some("val=1"))], [true, true, true]) == Some({TextBit(1)})
  {
    assert EchoAll(Blank, ["val=0"]) == TextBit(0) && EchoAll(Blank, ["val=1"]) == TextBit(1) by {
      assert ["val=0"][..0] == [] && ["val=1"][..0] == [];
      assert Contains("val=0", '0') && !Contains("val=1", '0') && Contains("val=1", '1');
    }
    OneDeliveredDecides("P2", "P3", "val=0");
    OneDeliveredDecides("P3", "P2", "val=1");
  }

  /** A receive whose coin fails hands out nothing, whatever is queued. */
  lemma {:induction false} NothingDelivered(c: Chan<Packet>, order: seq<Pid>, delivers: seq<bool>)
    requires |order| == |delivers| && forall i :: 0 <= i < |delivers| ==> !delivers[i]
    ensures forall i :: 0 <= i < |order| ==> ReceiveAll(c, order, delivers).0[i] == None
    ensures ReceiveAll(c, order, delivers).1 == c
    decreases |order|
  {
    if order != [] {
      var n := |order| - 1;
      NothingDelivered(c, order[..n], delivers[..n]);
    }
  }

  /** Events without a text hand nobody anything. */
  lemma {:induction false} NoTexts(es: seq<EchoEvent>, k: Pid)
    requires forall i :: 0 <= i < |es| ==> es[i].message.None?
    ensures TextsFor(es, k) == []
    decreases |es|
  {
    if es != [] {
      NoTexts(es[..|es| - 1], k);
    }
  }

  /** Without deliveries no process decides, so the two runs of lines
      190-196 agree (both end with no decision). */
  lemma UndecidedWhenNothingDelivered(order: seq<Pid>, initial: seq<(Pid, Pid, Option<string>)>, delivers: seq<bool>)
    requires |order| == |delivers| && forall i :: 0 <= i < |delivers| ==> !delivers[i]
    ensures RunDecisions(order, initial, delivers) in {None, Some({})}
  {
    var es := Schedule(order, initial, delivers);
    NothingDelivered(Seeded(initial), order, delivers);
    forall k | k in Pids() ensures EchoAll(Blank, TextsFor(es, k)) == Blank {
      NoTexts(es, k);
    }
    assert Decisions(es) == {};
  }
}
