/** The "partial correct" protocol of input_based/partial_correct_protocol.py.
    A process counts the distinct senders it has heard from and how many of
    their messages contain a "1"; each new sender is echoed to everybody
    else, and once n-1 senders are counted the process decides '1' iff that
    count plus its own input exceeds n//2, '0' otherwise. A schedule feeds
    the processes one receive each, in a given pid order, until `done`
    (the number of deciding steps) reaches the number of processes.

    The file's own message buffer behaves as the base one on (sender, text)
    pairs, so `Channel.MessageSystem` is reused with that message type and
    `ToyBase.SendPacket` is its `send`. */
module PartialCorrect {
  import opened Common
  import opened Channel
  import opened Configurations
  import opened ToyBase

  class InputProcess {
    const pid: Pid
    const x: int
    var y: YValue
    var pc: int
    /** `state['sender']`, the senders heard from, in arrival order. */
    var senders: seq<Pid>
    /** `state['sum']`, how many of their messages contained a "1". */
    var sum: int
    var alive: bool

    constructor (pid: Pid, inputValue: int, live: bool := true)
      ensures this.pid == pid && x == inputValue && y == Blank && pc == 0
      ensures senders == [] && sum == 0 && alive == live
    {
      this.pid := pid;
      x := inputValue;
      y := Blank;
      pc := 0;
      senders := [];
      sum := 0;
      alive := live;
    }

    function Current(): Tally
      reads this
    {
      Tally(senders, sum, y)
    }

    /** The part of `apply` (lines 96-109) that changes this process among
        n: a new sender is counted, and at n-1 senders y is decided. */
    method Absorb(n: int, msg: Option<(Pid, string)>) returns (decided: bool, echo: bool)
      modifies this
      ensures Reaction(Current(), decided, echo) == React(n, x, old(Current()), msg)
      ensures alive == old(alive) && pc == old(pc)
    {
      if msg.None? || msg.value.0 in senders {
        return false, false;
      }
      senders := senders + [msg.value.0];
      if Contains(msg.value.1, '1') {
        sum := sum + 1;
      }
      decided, echo := false, true;
      if |senders| >= n - 1 {
        decided := true;
        var decidingValue := sum + x;
        if decidingValue > n / 2 {
          y := TextBit(1);
        } else {
          y := TextBit(0);
        }
      }
    }
  }

  /** What `receive` hands back: the (sender, text) pair, None, or the
      AttributeError raised by `self.pid` once a pair with a None text has
      been popped. */
  datatype Received = Delivered(sender: Pid, text: string) | Nothing | NoPayloadRaised

  /** `receive(receiver, log)` with the delivery coin as `deliver`. */
  function ReceivePacket(c: Chan<Packet>, r: Pid, deliver: bool): (res: (Received, Chan<Packet>))
    ensures res.1 == ReceiveFrom(c, r, deliver).1
    ensures res.0.Delivered? <==> deliver && Queue(c, r) != [] && Queue(c, r)[0].1.Some?
    ensures res.0.Delivered? ==> Queue(c, r)[0] == (res.0.sender, Some(res.0.text))
    ensures res.0.NoPayloadRaised? <==> deliver && Queue(c, r) != [] && Queue(c, r)[0].1.None?
    ensures res.0.Nothing? ==> res.1 == c
  {
    var (m, d) := ReceiveFrom(c, r, deliver);
    if m.None? then (Nothing, d)
    else if m.value.1.Some? then (Delivered(m.value.0, m.value.1.value), d)
    else (NoPayloadRaised, d)
  }

  method ReceivePacketFrom(ms: MessageSystem<Packet>, r: Pid, deliver: bool) returns (res: Received)
    requires ms.Valid()
    modifies ms
    ensures ms.Valid() && (res, ms.State()) == ReceivePacket(old(ms.State()), r, deliver)
  {
    var m := ms.Receive(r, deliver);
    if m.None? {
      res := Nothing;
    } else if m.value.1.Some? {
      res := Delivered(m.value.0, m.value.1.value);
    } else {
      res := NoPayloadRaised;
    }
  }

  function InputPids(ps: seq<InputProcess>): (ks: seq<Pid>)
    ensures |ks| == |ps| && forall i :: 0 <= i < |ps| ==> ks[i] == ps[i].pid
  {
    seq(|ps|, i requires 0 <= i < |ps| => ps[i].pid)
  }

  /** `ConfigInput`: processes keyed by pid, `process_num` the length of the
      input list (duplicates included), the step counter and its id, and
      `done`. */
  class InputConfig {
    var stepCounter: nat
    var id: string
    const processes: map<Pid, InputProcess>
    const order: seq<Pid>
    const processNum: nat
    const messageSystem: MessageSystem<Packet>
    var done: int

    /** The id always names the step counter. */
    predicate Valid()
      reads this
    {
      Distinct(order) && processes.Keys == (set k | k in order) &&
      (forall k :: k in processes ==> processes[k].pid == k) &&
      id == ConfigId(stepCounter)
    }

    constructor (ps: seq<InputProcess>, ms: MessageSystem<Packet>)
      ensures Valid() && stepCounter == 0 && id == "C0" && done == 0
      ensures processes == ZipByKey(InputPids(ps), ps) && order == FirstOccurrences(InputPids(ps))
      ensures processNum == |ps| && messageSystem == ms
      ensures forall p :: p in processes.Values ==> p in ps
    {
      stepCounter := 0;
      id := "C0";
      var m, o := KeyBy(InputPids(ps), ps);
      processes, order := m, o;
      processNum := |ps|;
      messageSystem := ms;
      done := 0;
    }

    /** `decision_values`: the text decisions '0'/'1' held by some process. */
    function DecisionValues(): (r: set<YValue>)
      reads processes.Values
      ensures r <= {TextBit(0), TextBit(1)}
      ensures forall k :: k in processes && processes[k].y.TextBit? ==> processes[k].y in r
      ensures forall v :: v in r ==> exists k :: k in processes && processes[k].y == v
    {
      set k | k in processes && processes[k].y.TextBit? :: processes[k].y
    }

    /** The processes as values. */
    function Locals(): map<Pid, Local>
      reads processes.Values
    {
      map k | k in processes :: Local(processes[k].x, processes[k].alive, processes[k].Current())
    }

    /** The configuration as a value. */
    function Now(): World
      reads this, processes.Values, messageSystem
    {
      World(messageSystem.State(), Locals(), done, stepCounter)
    }

    /** `step_applied`: the counter moves by one and the id follows it. */
    method StepApplied()
      requires Valid()
      modifies this
      ensures Valid() && stepCounter == old(stepCounter) + 1 && done == old(done)
    {
      stepCounter := stepCounter + 1;
      id := ConfigId(stepCounter);
    }
  }

  /** A process's protocol state: the senders, the sum and y. */
  datatype Tally = Tally(senders: seq<Pid>, sum: int, y: YValue)

  /** What one event does to a live process: its new tally, whether the n-1
      check fired (and `done` is bumped), and whether the echo is sent. */
  datatype Reaction = Reaction(tally: Tally, decided: bool, echo: bool)

  /** Lines 93-116 on a live process with input x among n. */
  function React(n: int, x: int, t: Tally, msg: Option<(Pid, string)>): (r: Reaction)
    // no message, or a sender already counted: nothing at all happens
    ensures msg.None? || msg.value.0 in t.senders ==> r == Reaction(t, false, false)
    // a new sender is counted once, its "1" added to the sum, and echoed
    ensures msg.Some? && msg.value.0 !in t.senders ==>
      r.echo && r.tally.senders == t.senders + [msg.value.0] &&
      r.tally.sum == t.sum + (if Contains(msg.value.1, '1') then 1 else 0)
    // the decision fires at n-1 counted senders, on the threshold n//2
    ensures r.decided <==> r.echo && |r.tally.senders| >= n - 1
    ensures r.decided ==> r.tally.y.TextBit? && (r.tally.y == TextBit(1) <==> r.tally.sum + x > n / 2)
    ensures !r.decided ==> r.tally.y == t.y
  {
    if msg.None? || msg.value.0 in t.senders then Reaction(t, false, false)
    else
      var senders := t.senders + [msg.value.0];
      var sum := if Contains(msg.value.1, '1') then t.sum + 1 else t.sum;
      if |senders| >= n - 1 then
        Reaction(Tally(senders, sum, if sum + x > n / 2 then TextBit(1) else TextBit(0)), true, true)
      else Reaction(Tally(senders, sum, t.y), false, true)
  }

  /** The shape of a tally between events: distinct senders, a sum no larger
      than their number, and a text decision exactly when at least one and at
      least n-1 senders are counted. */
  predicate Consistent(n: int, t: Tally) {
    Distinct(t.senders) && 0 <= t.sum <= |t.senders| &&
    (t.y.TextBit? <==> |t.senders| > 0 && |t.senders| >= n - 1) && !t.y.IntBit?
  }

  /** A new process starts consistent, and every event keeps it so. */
  lemma ReactKeepsConsistent(n: int, x: int, t: Tally, msg: Option<(Pid, string)>)
    requires Consistent(n, t)
    ensures Consistent(n, React(n, x, t, msg).tally)
    ensures Consistent(n, Tally([], 0, Blank))
  {
    var r := React(n, x, t, msg);
    if r.echo {
      var s := msg.value.0;
      assert r.tally.senders == t.senders + [s] && s !in t.senders;
      forall i, j | 0 <= i < j < |r.tally.senders|
        ensures r.tally.senders[i] != r.tally.senders[j]
      {
        if j == |t.senders| {
          assert r.tally.senders[i] == t.senders[i];
        }
      }
    }
  }

  /** A sequence of events at one live process. */
  function ReactAll(n: int, x: int, t: Tally, msgs: seq<Option<(Pid, string)>>): Tally
    decreases |msgs|
  {
    if msgs == [] then t
    else
      var k := |msgs| - 1;
      React(n, x, ReactAll(n, x, t, msgs[..k]), msgs[k]).tally
  }

  /** The senders ever delivered in a list of events. */
  function SendersIn(msgs: seq<Option<(Pid, string)>>): set<Pid> {
    set i | 0 <= i < |msgs| && msgs[i].Some? :: msgs[i].value.0
  }

  /** The senders of a list of events are those of all but the last,
      plus the last one's. */
  lemma SendersInSnoc(msgs: seq<Option<(Pid, string)>>)
    requires msgs != []
    ensures var k := |msgs| - 1;
      SendersIn(msgs) == SendersIn(msgs[..k]) + (if msgs[k].Some? then {msgs[k].value.0} else {})
  {
    var k := |msgs| - 1;
    forall s | s in SendersIn(msgs)
      ensures s in SendersIn(msgs[..k]) + (if msgs[k].Some? then {msgs[k].value.0} else {})
    {
      var i :| 0 <= i < |msgs| && msgs[i].Some? && msgs[i].value.0 == s;
      if i < k {
        assert msgs[..k][i] == msgs[i];
      }
    }
    forall s | s in SendersIn(msgs[..k])
      ensures s in SendersIn(msgs)
    {
      var i :| 0 <= i < k && msgs[..k][i].Some? && msgs[..k][i].value.0 == s;
      assert msgs[i] == msgs[..k][i];
    }
  }

  /** One event adds its sender, if any, to the set of counted senders. */
  lemma ReactSenders(n: int, x: int, t: Tally, msg: Option<(Pid, string)>)
    ensures var r := React(n, x, t, msg).tally;
      (set s | s in r.senders) == (set s | s in t.senders) + (if msg.Some? then {msg.value.0} else {}) &&
      |r.senders| <= |t.senders| + 1
  {
    var r := React(n, x, t, msg);
    if r.echo {
      assert (set s | s in r.tally.senders) == (set s | s in t.senders) + {msg.value.0};
    }
  }

  /** Over any sequence of events the sender list holds each delivered
      sender once: exactly the old senders plus the new ones, never more than
      the events delivered; and the tally stays consistent. */
  lemma {:induction false} ReactAllCountsSenders(n: int, x: int, t: Tally, msgs: seq<Option<(Pid, string)>>)
    requires Consistent(n, t)
    ensures var r := ReactAll(n, x, t, msgs);
      Consistent(n, r) &&
      (set s | s in r.senders) == (set s | s in t.senders) + SendersIn(msgs) &&
      |r.senders| <= |t.senders| + |msgs|
    decreases |msgs|
  {
    if msgs != [] {
      var k := |msgs| - 1;
      var prev := ReactAll(n, x, t, msgs[..k]);
      ReactAllCountsSenders(n, x, t, msgs[..k]);
      ReactKeepsConsistent(n, x, prev, msgs[k]);
      ReactSenders(n, x, prev, msgs[k]);
      SendersInSnoc(msgs);
    }
  }

  /** A process as a run sees it: its input, whether it is alive, its tally. */
  datatype Local = Local(x: int, alive: bool, tally: Tally)

  /** Everything a run changes: the buffer, the processes, `done` and the
      step counter. */
  datatype World = World(chan: Chan<Packet>, locals: map<Pid, Local>, done: int, steps: nat)

  /** Where a schedule run stops, and how. */
  datatype Halt = Halt(world: World, outcome: RunOutcome)

  /** What a live process's event does to the configuration as a value,
      among n processes that broadcast in key order `order` (lines 93-114). */
  function Absorbed(n: int, order: seq<Pid>, w: World, pid: Pid, msg: Option<(Pid, string)>): (r: World)
    requires pid in w.locals
    ensures r.steps == w.steps && r.locals.Keys == w.locals.Keys
    ensures forall k :: k in w.locals && k != pid ==> r.locals[k] == w.locals[k]
    ensures r.locals[pid].x == w.locals[pid].x && r.locals[pid].alive == w.locals[pid].alive
    ensures r.locals[pid].tally == React(n, w.locals[pid].x, w.locals[pid].tally, msg).tally
    ensures w.done <= r.done <= w.done + 1
  {
    var l := w.locals[pid];
    var re := React(n, l.x, l.tally, msg);
    World(if re.echo then Broadcast(w.chan, order, pid, (pid, Some("echo: " + msg.value.1))) else w.chan,
          w.locals[pid := l.(tally := re.tally)], w.done + (if re.decided then 1 else 0), w.steps)
  }

  /** `apply` on the configuration as a value (lines 83-118): the step is
      counted first, then a live process reacts. */
  function EventStep(n: int, order: seq<Pid>, w: World, pid: Pid, msg: Option<(Pid, string)>): (r: World)
    ensures r.steps == w.steps + 1 && r.locals.Keys == w.locals.Keys
    // nobody but the stepping process changes, and nobody dies or revives
    ensures forall k :: k in w.locals && k != pid ==> r.locals[k] == w.locals[k]
    ensures forall k :: k in w.locals ==> r.locals[k].x == w.locals[k].x && r.locals[k].alive == w.locals[k].alive
    // an unknown or crashed process, or no message, only counts the step
    ensures pid !in w.locals || !w.locals[pid].alive || msg.None? ==> r == w.(steps := w.steps + 1)
    ensures w.done <= r.done <= w.done + 1
  {
    var w1 := w.(steps := w.steps + 1);
    if pid !in w.locals || !w.locals[pid].alive then w1
    else
      assert msg.None? ==> w1.locals[pid := w1.locals[pid]] == w1.locals;
      Absorbed(n, order, w1, pid, msg)
  }

  /** One turn of the loop at lines 134-140 once `done` is below n: the
      receive for `pid`, then its event. The flag says whether it raised. */
  function Turn(n: int, order: seq<Pid>, w: World, pid: Pid, deliver: bool): (World, bool) {
    var (got, c) := ReceivePacket(w.chan, pid, deliver);
    if got.NoPayloadRaised? then (w.(chan := c), true)
    else (EventStep(n, order, w.(chan := c), pid, if got.Delivered? then Some((got.sender, got.text)) else None),
          pid !in w.locals)
  }

  /** `run` over the remaining pids, with one delivery coin each. */
  function RunFrom(n: int, order: seq<Pid>, w: World, pids: seq<Pid>, delivers: seq<bool>): Halt
    requires |pids| == |delivers|
    decreases |pids|
  {
    if pids == [] || w.done >= n then Halt(w, Finished)
    else
      var (w', raised) := Turn(n, order, w, pids[0], delivers[0]);
      if raised then Halt(w', Raised) else RunFrom(n, order, w', pids[1..], delivers[1..])
  }

  /** Unfolding one turn of a run from position i of the schedule. */
  lemma RunFromTurn(n: int, order: seq<Pid>, w: World, w': World, raised: bool, pids: seq<Pid>, delivers: seq<bool>, i: nat)
    requires |pids| == |delivers| && i < |pids| && w.done < n
    requires Turn(n, order, w, pids[i], delivers[i]) == (w', raised)
    ensures RunFrom(n, order, w, pids[i..], delivers[i..]) ==
      if raised then Halt(w', Raised) else RunFrom(n, order, w', pids[i + 1..], delivers[i + 1..])
  {
    assert pids[i..][1..] == pids[i + 1..] && delivers[i..][1..] == delivers[i + 1..];
  }

  /** A run with no pid left, or with `done` at n, stops where it is. */
  lemma RunFromStops(n: int, order: seq<Pid>, w: World, pids: seq<Pid>, delivers: seq<bool>, i: nat)
    requires |pids| == |delivers| && i <= |pids| && (i == |pids| || w.done >= n)
    ensures RunFrom(n, order, w, pids[i..], delivers[i..]) == Halt(w, Finished)
  {
  }

  /** A run never adds or removes a process, never changes an input, and
      never kills or revives anybody; a crashed process keeps its tally. */
  lemma {:induction false} RunFromFrame(n: int, order: seq<Pid>, w: World, pids: seq<Pid>, delivers: seq<bool>)
    requires |pids| == |delivers|
    ensures var r := RunFrom(n, order, w, pids, delivers).world;
      r.locals.Keys == w.locals.Keys &&
      (forall k :: k in w.locals ==> r.locals[k].x == w.locals[k].x && r.locals[k].alive == w.locals[k].alive) &&
      (forall k :: k in w.locals && !w.locals[k].alive ==> r.locals[k] == w.locals[k])
    decreases |pids|
  {
    if pids != [] && w.done < n {
      var (w', raised) := Turn(n, order, w, pids[0], delivers[0]);
      if !raised {
        RunFromFrame(n, order, w', pids[1..], delivers[1..]);
      }
    }
  }

  /** `done` never decreases and grows by at most one per turn; every turn
      but a raising receive counts one step; and a run that finishes with
      fewer steps than scheduled pids stopped because `done` reached n. */
  lemma {:induction false} RunFromCounters(n: int, order: seq<Pid>, w: World, pids: seq<Pid>, delivers: seq<bool>)
    requires |pids| == |delivers|
    ensures var h := RunFrom(n, order, w, pids, delivers);
      w.done <= h.world.done <= w.done + |pids| &&
      w.steps <= h.world.steps <= w.steps + |pids| &&
      (h.outcome == Finished && h.world.steps < w.steps + |pids| ==> h.world.done >= n)
    decreases |pids|
  {
    if pids != [] && w.done < n {
      var (w', raised) := Turn(n, order, w, pids[0], delivers[0]);
      if !raised {
        RunFromCounters(n, order, w', pids[1..], delivers[1..]);
      }
    }
  }

  /** Every process whose tally is consistent stays consistent for a run. */
  lemma {:induction false} RunFromConsistent(n: int, order: seq<Pid>, w: World, pids: seq<Pid>, delivers: seq<bool>)
    requires |pids| == |delivers|
    requires forall k :: k in w.locals ==> Consistent(n, w.locals[k].tally)
    ensures var r := RunFrom(n, order, w, pids, delivers).world;
      forall k :: k in r.locals ==> Consistent(n, r.locals[k].tally)
    decreases |pids|
  {
    if pids != [] && w.done < n {
      var pid := pids[0];
      var (w', raised) := Turn(n, order, w, pid, delivers[0]);
      assert RunFrom(n, order, w, pids, delivers) ==
        if raised then Halt(w', Raised) else RunFrom(n, order, w', pids[1..], delivers[1..]);
      if pid in w.locals && w.locals[pid].alive {
        var (got, c) := ReceivePacket(w.chan, pid, delivers[0]);
        var msg := if got.Delivered? then Some((got.sender, got.text)) else None;
        ReactKeepsConsistent(n, w.locals[pid].x, w.locals[pid].tally, msg);
      }
      assert forall k :: k in w'.locals ==> Consistent(n, w'.locals[k].tally);
      if !raised {
        RunFromConsistent(n, order, w', pids[1..], delivers[1..]);
      }
    }
  }

  /** The event `(pid, msg)` of `EventInputBased`. */
  datatype EventOutcome = UnknownPid | Skipped | Reacted

  class InputEvent {
    const pid: Pid
    const msg: Option<(Pid, string)>

    constructor (pid: Pid, msg: Option<(Pid, string)>)
      ensures this.pid == pid && this.msg == msg
    {
      this.pid := pid;
      this.msg := msg;
    }

    /** `apply(config, log)`: the step counter moves first, even before the
        lookup that raises KeyError for an unknown pid; a crashed process
        changes nothing else. */
    method Apply(config: InputConfig) returns (outcome: EventOutcome)
      requires config.Valid() && config.messageSystem.Valid()
      modifies config, config.messageSystem
      modifies if pid in config.processes then {config.processes[pid]} else {}
      ensures config.Valid() && config.messageSystem.Valid()
      ensures config.stepCounter == old(config.stepCounter) + 1
      ensures outcome == UnknownPid <==> pid !in config.processes
      ensures outcome == Skipped <==> pid in config.processes && !config.processes[pid].alive
      ensures config.Now() == EventStep(config.processNum, config.order, old(config.Now()), pid, msg)
    {
      ghost var w0 := config.Now();
      config.StepApplied();
      if pid !in config.processes {
        assert config.Locals() == w0.locals;
        return UnknownPid;
      }
      var process := config.processes[pid];
      if !process.alive {
        assert config.Locals() == w0.locals;
        return Skipped;
      }
      // the "already decided" check at lines 90-91 only logs
      outcome := Reacted;
      assert config.Locals() == w0.locals;
      Deliver(config, process);
    }

    /** The process's own part of the reaction: only its entry of the
        configuration changes. */
    method Touch(config: InputConfig, process: InputProcess) returns (decided: bool, echo: bool)
      requires config.Valid() && pid in config.processes && config.processes[pid] == process
      modifies process
      ensures Reaction(process.Current(), decided, echo) == React(config.processNum, process.x, old(process.Current()), msg)
      ensures config.Locals() == old(config.Locals())[pid := Local(process.x, process.alive, process.Current())]
      ensures process.alive == old(process.alive)
    {
      label L:
      decided, echo := process.Absorb(config.processNum, msg);
      forall k | k in config.processes
        ensures config.Locals()[k] == old@L(config.Locals())[pid := Local(process.x, process.alive, process.Current())][k]
      {
        if k != pid {
          assert config.processes[k].pid != process.pid;
          assert config.processes[k].Current() == old@L(config.processes[k].Current());
        }
      }
    }

    /** What the configuration sees of the reaction: `done` is bumped on a
        decision, and the echo goes to every other process (lines 101-114). */
    method Announce(config: InputConfig, decided: bool, echo: bool)
      requires config.Valid() && config.messageSystem.Valid()
      requires echo ==> msg.Some?
      modifies config, config.messageSystem
      ensures config.Valid() && config.messageSystem.Valid() && config.stepCounter == old(config.stepCounter)
      ensures config.done == old(config.done) + (if decided then 1 else 0)
      ensures config.messageSystem.State() ==
        if echo then Broadcast(old(config.messageSystem.State()), config.order, pid, (pid, Some("echo: " + msg.value.1)))
        else old(config.messageSystem.State())
      ensures config.Locals() == old(config.Locals())
    {
      if decided {
        config.done := config.done + 1;
      }
      if echo {
        config.messageSystem.SendToOthers(config.order, pid, (pid, Some("echo: " + msg.value.1)));
      }
    }

    /** Lines 93-114 at the live process `process` of this event. */
    method Deliver(config: InputConfig, process: InputProcess)
      requires config.Valid() && config.messageSystem.Valid()
      requires pid in config.processes && config.processes[pid] == process
      modifies config, config.messageSystem, process
      ensures config.Valid() && config.messageSystem.Valid() && config.stepCounter == old(config.stepCounter)
      ensures config.Now() == Absorbed(config.processNum, config.order, old(config.Now()), pid, msg)
    {
      ghost var w0 := config.Now();
      ghost var l := w0.locals[pid];
      ghost var re := React(config.processNum, l.x, l.tally, msg);
      ghost var expected := World(if re.echo then Broadcast(w0.chan, config.order, pid, (pid, Some("echo: " + msg.value.1))) else w0.chan,
                                  w0.locals[pid := l.(tally := re.tally)], w0.done + (if re.decided then 1 else 0), w0.steps);
      assert l.tally == process.Current() && l.x == process.x && l.alive == process.alive;
      var decided, echo := Touch(config, process);
      assert re == Reaction(process.Current(), decided, echo);
      assert config.Locals() == expected.locals;
      Announce(config, decided, echo);
      assert config.Now() == expected;
    }
  }

  /** One pass of the loop body at lines 135-140: receive for `pid`, then
      build and apply its event. `stepped` says whether the event was applied. */
  method TakeTurn(config: InputConfig, pid: Pid, deliver: bool) returns (stepped: bool, raised: bool)
    requires config.Valid() && config.messageSystem.Valid()
    modifies config, config.messageSystem, config.processes.Values
    ensures config.Valid() && config.messageSystem.Valid()
    ensures (config.Now(), raised) == Turn(config.processNum, config.order, old(config.Now()), pid, deliver)
    ensures config.stepCounter == old(config.stepCounter) + (if stepped then 1 else 0)
    ensures !stepped ==> raised
  {
    ghost var w := config.Now();
    var got := ReceivePacketFrom(config.messageSystem, pid, deliver);
    assert config.Locals() == w.locals;
    if got.NoPayloadRaised? {
      return false, true;
    }
    var event := new InputEvent(pid, if got.Delivered? then Some((got.sender, got.text)) else None);
    var result := event.Apply(config);
    return true, result == UnknownPid;
  }

  /** The turn of pid number i of a schedule, as a step of `RunFrom`. */
  method Advance(config: InputConfig, pids: seq<Pid>, delivers: seq<bool>, i: nat) returns (stepped: bool, raised: bool)
    requires config.Valid() && config.messageSystem.Valid()
    requires |pids| == |delivers| && i < |pids| && config.done < config.processNum
    modifies config, config.messageSystem, config.processes.Values
    ensures config.Valid() && config.messageSystem.Valid()
    ensures RunFrom(config.processNum, config.order, old(config.Now()), pids[i..], delivers[i..]) ==
      if raised then Halt(config.Now(), Raised)
      else RunFrom(config.processNum, config.order, config.Now(), pids[i + 1..], delivers[i + 1..])
    ensures config.stepCounter == old(config.stepCounter) + (if stepped then 1 else 0)
    ensures !stepped ==> raised
  {
    ghost var w := config.Now();
    stepped, raised := TakeTurn(config, pids[i], delivers[i]);
    RunFromTurn(config.processNum, config.order, w, config.Now(), raised, pids, delivers, i);
  }

  class InputSchedule {
    var processOrder: seq<Pid>

    constructor ()
      ensures processOrder == []
    {
      processOrder := [];
    }

    method GenerateProcessOrder(processSequence: seq<Pid>)
      modifies this
      ensures processOrder == processSequence
    {
      processOrder := processSequence;
    }

    /** `run(config, log)`: for each pid in order, stop once `done` has
        reached `process_num`, otherwise receive (with the next coin) and
        apply. The steps taken are the `steps` of the final world. */
    method Run(config: InputConfig, delivers: seq<bool>) returns (outcome: RunOutcome)
      requires config.Valid() && config.messageSystem.Valid() && |delivers| == |processOrder|
      modifies config, config.messageSystem, config.processes.Values
      ensures config.Valid() && config.messageSystem.Valid()
      ensures Halt(config.Now(), outcome) ==
        RunFrom(config.processNum, config.order, old(config.Now()), processOrder, delivers)
    {
      var pids := processOrder;
      ghost var h := RunFrom(config.processNum, config.order, config.Now(), pids, delivers);
      var i := 0;
      while i < |pids|
        invariant 0 <= i <= |pids|
        invariant config.Valid() && config.messageSystem.Valid()
        invariant RunFrom(config.processNum, config.order, config.Now(), pids[i..], delivers[i..]) == h
      {
        if config.done >= config.processNum {
          RunFromStops(config.processNum, config.order, config.Now(), pids, delivers, i);
          return Finished;
        }
        var stepped, raised := Advance(config, pids, delivers, i);
        if raised {
          return Raised;
        }
        i := i + 1;
      }
      RunFromStops(config.processNum, config.order, config.Now(), pids, delivers, i);
      outcome := Finished;
    }
  }

  /** An entry of `input_values`: a (pid, x) pair, or a (pid, x, live) triple. */
  datatype InputValue = Pair(pid: Pid, x: int) | Triple(pid: Pid, x: int, live: bool)

  /** Lines 151-156: one process per entry, alive unless a triple says not. */
  method MakeProcesses(inputValues: seq<InputValue>) returns (ps: seq<InputProcess>)
    ensures |ps| == |inputValues|
    ensures forall i :: 0 <= i < |ps| ==>
      fresh(ps[i]) && ps[i].pid == inputValues[i].pid && ps[i].x == inputValues[i].x &&
      ps[i].y == Blank && ps[i].senders == [] && ps[i].sum == 0 &&
      ps[i].alive == (if inputValues[i].Triple? then inputValues[i].live else true)
  {
    ps := [];
    var i := 0;
    while i < |inputValues|
      invariant 0 <= i <= |inputValues| && |ps| == i
      invariant forall j :: 0 <= j < i ==>
        fresh(ps[j]) && ps[j].pid == inputValues[j].pid && ps[j].x == inputValues[j].x &&
        ps[j].y == Blank && ps[j].senders == [] && ps[j].sum == 0 &&
        ps[j].alive == (if inputValues[j].Triple? then inputValues[j].live else true)
    {
      var v := inputValues[i];
      var p;
      if v.Triple? {
        p := new InputProcess(v.pid, v.x, v.live);
      } else {
        p := new InputProcess(v.pid, v.x);
      }
      ps := ps + [p];
      i := i + 1;
    }
  }

  /** The initial messages: every process, in key order, sends "val=x". */
  function Seeds(order: seq<Pid>, locals: map<Pid, Local>): (ms: seq<Packet>)
    requires forall k :: k in order ==> k in locals
    ensures |ms| == |order|
    ensures forall i :: 0 <= i < |order| ==> ms[i] == (order[i], Some("val=" + IntToString(locals[order[i]].x)))
  {
    seq(|order|, i requires 0 <= i < |order| => (order[i], Some("val=" + IntToString(locals[order[i]].x))))
  }

  /** Lines 163-166: the initial broadcast of every input, each process in
      key order sending "val=x" to every other one. */
  method SeedInputs(config: InputConfig)
    requires config.Valid() && config.messageSystem.Valid()
    modifies config.messageSystem
    ensures config.messageSystem.Valid()
    ensures config.messageSystem.State() ==
      BroadcastAll(old(config.messageSystem.State()), config.order, config.order, Seeds(config.order, config.Locals()))
  {
    config.messageSystem.SendAllToOthers(config.order, config.order, Seeds(config.order, config.Locals()));
  }

  function ValuePids(inputValues: seq<InputValue>): (ks: seq<Pid>)
    ensures |ks| == |inputValues| && forall i :: 0 <= i < |ks| ==> ks[i] == inputValues[i].pid
  {
    seq(|inputValues|, i requires 0 <= i < |inputValues| => inputValues[i].pid)
  }

  /** The process an entry of `input_values` creates (lines 151-156). */
  function Fresh(v: InputValue): Local {
    Local(v.x, if v.Triple? then v.live else true, Tally([], 0, Blank))
  }

  function FreshAll(inputValues: seq<InputValue>): (ls: seq<Local>)
    ensures |ls| == |inputValues| && forall i :: 0 <= i < |ls| ==> ls[i] == Fresh(inputValues[i])
  {
    seq(|inputValues|, i requires 0 <= i < |inputValues| => Fresh(inputValues[i]))
  }

  /** The configuration `simulate_run` hands to the schedule: processes
      keyed by pid (a later duplicate wins), an empty buffer seeded with
      every input, and both counters at zero. */
  function Start(inputValues: seq<InputValue>): World {
    var ks := ValuePids(inputValues);
    var locals := ZipByKey(ks, FreshAll(inputValues));
    var order := FirstOccurrences(ks);
    FirstOccurrencesKeys(ks);
    ZipByKeyLast(ks, FreshAll(inputValues));
    World(BroadcastAll(Chan(map[], []), order, order, Seeds(order, locals)), locals, 0, 0)
  }

  /** The start has one process per distinct input pid, each with an empty
      tally, and nothing is counted yet. */
  lemma StartShape(inputValues: seq<InputValue>)
    ensures var w := Start(inputValues);
      w.locals.Keys == (set v | v in inputValues :: v.pid) && w.done == 0 && w.steps == 0 &&
      forall k :: k in w.locals ==> w.locals[k].tally == Tally([], 0, Blank)
  {
    var ks := ValuePids(inputValues);
    var w := Start(inputValues);
    ZipByKeyLast(ks, FreshAll(inputValues));
    ZipByKeyFrom(ks, FreshAll(inputValues));
    forall k | k in w.locals ensures k in set v | v in inputValues :: v.pid {
      var j :| 0 <= j < |ks| && ks[j] == k;
      assert inputValues[j] in inputValues;
    }
    forall v | v in inputValues ensures v.pid in w.locals {
      var j :| 0 <= j < |inputValues| && inputValues[j] == v;
      assert ks[j] == v.pid;
    }
  }

  /** Whatever the schedule and the coins, a simulated run ends with one
      process per input pid, every tally consistent, and every process
      created crashed still holding no senders and no decision. */
  lemma StartRunInvariants(inputValues: seq<InputValue>, pids: seq<Pid>, delivers: seq<bool>)
    requires |pids| == |delivers|
    ensures var r := RunFrom(|inputValues|, FirstOccurrences(ValuePids(inputValues)), Start(inputValues), pids, delivers).world;
      r.locals.Keys == (set v | v in inputValues :: v.pid) &&
      (forall k :: k in r.locals ==> Consistent(|inputValues|, r.locals[k].tally)) &&
      (forall k :: k in r.locals && !r.locals[k].alive ==> r.locals[k].tally == Tally([], 0, Blank))
  {
    var n, order := |inputValues|, FirstOccurrences(ValuePids(inputValues));
    StartShape(inputValues);
    ReactKeepsConsistent(n, 0, Tally([], 0, Blank), None);
    RunFromFrame(n, order, Start(inputValues), pids, delivers);
    RunFromConsistent(n, order, Start(inputValues), pids, delivers);
  }

  /** `simulate_run(input_values, process_sequence)`, with one delivery coin
      per scheduled pid: the run from `Start`. The log it returns is not
      modelled, so the final configuration is returned instead. */
  method SimulateRun(inputValues: seq<InputValue>, processSequence: seq<Pid>, delivers: seq<bool>)
    returns (config: InputConfig, outcome: RunOutcome)
    requires |delivers| == |processSequence|
    ensures config.Valid() && config.processNum == |inputValues|
    ensures config.order == FirstOccurrences(ValuePids(inputValues))
    ensures Halt(config.Now(), outcome) == RunFrom(|inputValues|, config.order, Start(inputValues), processSequence, delivers)
  {
    var schedule := new InputSchedule();
    schedule.GenerateProcessOrder(processSequence);
    config := Build(inputValues);
    outcome := schedule.Run(config, delivers);
  }

  /** Lines 151-166: the processes, the configuration and the seeding. */
  method Build(inputValues: seq<InputValue>) returns (config: InputConfig)
    ensures fresh(config) && fresh(config.messageSystem) && forall p :: p in config.processes.Values ==> fresh(p)
    ensures config.Valid() && config.messageSystem.Valid() && config.processNum == |inputValues|
    ensures config.order == FirstOccurrences(ValuePids(inputValues)) && config.stepCounter == 0
    ensures config.Now() == Start(inputValues)
  {
    var ps := MakeProcesses(inputValues);
    var ms := new MessageSystem<Packet>();
    config := new InputConfig(ps, ms);
    assert InputPids(ps) == ValuePids(inputValues);
    StartLocals(config, inputValues, ps);
    SeedInputs(config);
  }

  /** The freshly built configuration holds `Start`'s processes. */
  lemma StartLocals(config: InputConfig, inputValues: seq<InputValue>, ps: seq<InputProcess>)
    requires |ps| == |inputValues| && config.processes == ZipByKey(ValuePids(inputValues), ps)
    requires forall i :: 0 <= i < |ps| ==>
      ps[i].x == inputValues[i].x && ps[i].y == Blank && ps[i].senders == [] && ps[i].sum == 0 &&
      ps[i].alive == (if inputValues[i].Triple? then inputValues[i].live else true)
    ensures config.Locals() == ZipByKey(ValuePids(inputValues), FreshAll(inputValues))
  {
    var ks := ValuePids(inputValues);
    ZipByKeySameIndex(ks, ps, FreshAll(inputValues));
    forall k | k in config.processes
      ensures config.Locals()[k] == ZipByKey(ks, FreshAll(inputValues))[k]
    {
      var j :| 0 <= j < |ks| && config.processes[k] == ps[j] && ZipByKey(ks, FreshAll(inputValues))[k] == FreshAll(inputValues)[j];
    }
  }
}
