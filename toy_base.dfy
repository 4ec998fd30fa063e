/** What the three stand-alone toy protocol files have in common: their
    message buffers queue (sender, text) pairs and their `send` is the same
    append; input_based/uncorrect_consensus_protocol.py and
    message_based/consensus_protocol.py also share the same process record
    and the same configuration (a step counter, its id and the processes). */
module ToyBase {
  import opened Common
  import opened Channel
  import opened Configurations

  /** A queued (sender, text) pair; the text may be None. */
  type Packet = (Pid, Option<string>)

  /** `send(sender, receiver, message, log)`: the pair is appended to the
      receiver's queue, whose key is created on first use. */
  method SendPacket(ms: MessageSystem<Packet>, sender: Pid, receiver: Pid, message: Option<string>)
    requires ms.Valid()
    modifies ms
    ensures ms.Valid() && ms.State() == SendTo(old(ms.State()), receiver, (sender, message))
  {
    ms.Send(receiver, (sender, message));
  }

  /** The process of the two echo protocols; `state` only ever holds
      'last_msg', so it is a field that is None while the key is absent. */
  class EchoProcess {
    const pid: Pid
    const x: int
    var y: YValue
    var pc: int
    var lastMsg: Option<string>
    var alive: bool

    constructor (pid: Pid, inputValue: int)
      ensures this.pid == pid && x == inputValue && y == Blank && pc == 0
      ensures lastMsg == None && alive
    {
      this.pid := pid;
      x := inputValue;
      y := Blank;
      pc := 0;
      lastMsg := None;
      alive := true;
    }
  }

  function EchoPids(ps: seq<EchoProcess>): (ks: seq<Pid>)
    ensures |ks| == |ps| && forall i :: 0 <= i < |ps| ==> ks[i] == ps[i].pid
  {
    seq(|ps|, i requires 0 <= i < |ps| => ps[i].pid)
  }

  /** The configuration of the two echo protocols. */
  class EchoConfig {
    var stepCounter: nat
    var id: string
    const processes: map<Pid, EchoProcess>
    const order: seq<Pid>
    const messageSystem: MessageSystem<Packet>

    /** The id always names the step counter. */
    predicate Valid()
      reads this
    {
      Distinct(order) && processes.Keys == (set k | k in order) &&
      (forall k :: k in processes ==> processes[k].pid == k) &&
      id == ConfigId(stepCounter)
    }

    constructor (ps: seq<EchoProcess>, ms: MessageSystem<Packet>)
      ensures Valid() && stepCounter == 0 && id == "C0"
      ensures processes == ZipByKey(EchoPids(ps), ps) && order == FirstOccurrences(EchoPids(ps))
      ensures messageSystem == ms
      ensures forall p :: p in processes.Values ==> p in ps
    {
      stepCounter := 0;
      id := "C0";
      var m, o := KeyBy(EchoPids(ps), ps);
      processes, order := m, o;
      messageSystem := ms;
    }

    /** `decision_values`: the text decisions '0'/'1' held by some process. */
    function DecisionValues(): (r: set<YValue>)
      reads processes.Values
      ensures r <= {TextBit(0), TextBit(1)}
      ensures forall k :: k in processes && processes[k].y.TextBit? ==> processes[k].y in r
      ensures forall v :: v in r ==> exists k :: k in processes && processes[k].y == v
    {
      set k | k in processes && processes[k].y.TextBit? :: processes[k].y
    }

    /** The loop form of `decision_values` in message_based/consensus_protocol.py. */
    method CollectDecisionValues() returns (values: set<YValue>)
      requires Valid()
      ensures values == DecisionValues()
    {
      values := {};
      var i := 0;
      while i < |order|
        invariant 0 <= i <= |order|
        invariant values == set k | k in order[..i] && processes[k].y.TextBit? :: processes[k].y
      {
        assert order[..i + 1] == order[..i] + [order[i]];
        var p := processes[order[i]];
        if p.y.TextBit? {
          values := values + {p.y};
        }
        i := i + 1;
      }
      assert order[..i] == order;
    }

    /** The decision values, read off a snapshot of the y fields. */
    lemma DecisionValuesOf(ys: map<Pid, YValue>)
      requires ys == map k | k in processes :: processes[k].y
      ensures DecisionValues() == set k | k in ys && ys[k].TextBit? :: ys[k]
    {
      var mine := set k | k in ys && ys[k].TextBit? :: ys[k];
      forall v | v in DecisionValues() ensures v in mine {
        var k :| k in processes && processes[k].y == v;
        assert k in ys && ys[k] == v;
      }
      forall v | v in mine ensures v in DecisionValues() {
        var k :| k in ys && ys[k].TextBit? && ys[k] == v;
        assert processes[k].y == v;
      }
    }

    /** `step_applied`: the counter moves by one and the id follows it. */
    method StepApplied()
      requires Valid()
      modifies this
      ensures Valid() && stepCounter == old(stepCounter) + 1
    {
      stepCounter := stepCounter + 1;
      id := ConfigId(stepCounter);
    }
  }

  /** The rule both echo protocols apply to y: a text containing "0" sets
      '0', otherwise one containing "1" sets '1', otherwise y stays. */
  function EchoDecision(y: YValue, text: string): (r: YValue)
    ensures Contains(text, '0') ==> r == TextBit(0)
    ensures !Contains(text, '0') && Contains(text, '1') ==> r == TextBit(1)
    ensures !Contains(text, '0') && !Contains(text, '1') ==> r == y
  {
    if Contains(text, '0') then TextBit(0)
    else if Contains(text, '1') then TextBit(1)
    else y
  }

  /** The rule applied to a sequence of texts, in order. */
  function EchoAll(y: YValue, texts: seq<string>): YValue
    decreases |texts|
  {
    if texts == [] then y else EchoDecision(EchoAll(y, texts[..|texts| - 1]), texts[|texts| - 1])
  }

  predicate HasDigit(text: string) {
    Contains(text, '0') || Contains(text, '1')
  }

  /** texts[j] is the last text with a "0" or a "1". */
  predicate LastWithDigit(texts: seq<string>, j: int) {
    0 <= j < |texts| && HasDigit(texts[j]) && forall i :: j < i < |texts| ==> !HasDigit(texts[i])
  }

  /** y is not write-once: only the last text with a "0" or a "1" matters,
      whatever y was before and whatever came earlier; without such a text
      y is what it was. */
  lemma {:induction false} LastDigitDecides(y: YValue, texts: seq<string>)
    ensures (forall i :: 0 <= i < |texts| ==> !HasDigit(texts[i])) ==> EchoAll(y, texts) == y
    ensures forall j :: LastWithDigit(texts, j) ==> EchoAll(y, texts) == EchoDecision(Blank, texts[j])
    decreases |texts|
  {
    if texts != [] {
      var n := |texts| - 1;
      LastDigitDecides(y, texts[..n]);
      forall j | LastWithDigit(texts, j)
        ensures EchoAll(y, texts) == EchoDecision(Blank, texts[j])
      {
        if j < n {
          assert texts[..n][j] == texts[j];
          assert forall i :: j < i < n ==> texts[..n][i] == texts[i];
        }
      }
      if forall i :: 0 <= i < |texts| ==> !HasDigit(texts[i]) {
        assert forall i :: 0 <= i < n ==> texts[..n][i] == texts[i];
      }
    }
  }

  /** A decided process can be turned: '0' then a text with only a "1". */
  lemma DecisionsAreOverwritten()
    ensures EchoAll(Blank, ["val=0", "val=1"]) == TextBit(1)
    ensures EchoDecision(TextBit(1), "val=0") == TextBit(0)
  {
    assert Contains("val=0", '0') && !Contains("val=1", '0') && Contains("val=1", '1');
    assert ["val=0", "val=1"][..1] == ["val=0"];
  }

  /** `Event(pid, msg)`: the process to step and what its receive gave;
      neither field changes after construction. */
  datatype EchoEvent = EchoEvent(pid: Pid, message: Option<string>)

  /** How a schedule's phase ends: normally, or with an exception. */
  datatype RunOutcome = Finished | Raised

  /** The text of a popped pair, or None when the receive popped nothing. */
  function TextOf(m: Option<Packet>): Option<string> {
    if m.Some? then m.value.1 else None
  }

  /** The delivered texts of the events addressed to k, in schedule order. */
  function TextsFor(events: seq<EchoEvent>, k: Pid): seq<string>
    decreases |events|
  {
    if events == [] then []
    else
      var n := |events| - 1;
      TextsFor(events[..n], k) + (if events[n].pid == k && events[n].message.Some? then [events[n].message.value] else [])
  }

  lemma TextsForStep(events: seq<EchoEvent>, i: nat, k: Pid)
    requires i < |events|
    ensures TextsFor(events[..i + 1], k) ==
      TextsFor(events[..i], k) + (if events[i].pid == k && events[i].message.Some? then [events[i].message.value] else [])
  {
    assert events[..i + 1][..i] == events[..i];
  }

  lemma EchoAllStep(y: YValue, texts: seq<string>, t: string)
    ensures EchoAll(y, texts + [t]) == EchoDecision(EchoAll(y, texts), t)
  {
    assert (texts + [t])[..|texts|] == texts;
  }

  /** The events are the receives of the order's first |events| pids, in
      order: each addressed to its pid and carrying what the receive gave. */
  predicate Generated(events: seq<EchoEvent>, order: seq<Pid>, delivers: seq<bool>, c: Chan<Packet>)
    requires |order| == |delivers|
    decreases |events|
  {
    |events| <= |order| &&
    (events == [] ||
     var n := |events| - 1;
     var prev := ReceiveAll(c, order[..n], delivers[..n]).1;
     Generated(events[..n], order, delivers, c) &&
     events[n].pid == order[n] && events[n].message == TextOf(ReceiveFrom(prev, order[n], delivers[n]).0))
  }

  /** Generated, read off event by event. */
  lemma {:induction false} GeneratedEvents(events: seq<EchoEvent>, order: seq<Pid>, delivers: seq<bool>, c: Chan<Packet>)
    requires |order| == |delivers| && Generated(events, order, delivers, c)
    ensures var got := ReceiveAll(c, order[..|events|], delivers[..|events|]).0;
      forall i :: 0 <= i < |events| ==> events[i].pid == order[i] && events[i].message == TextOf(got[i])
    decreases |events|
  {
    if events != [] {
      var n := |events| - 1;
      GeneratedEvents(events[..n], order, delivers, c);
      ReceiveAllStep(c, order, delivers, n);
      var prev := ReceiveAll(c, order[..n], delivers[..n]);
      var got := ReceiveAll(c, order[..n + 1], delivers[..n + 1]).0;
      assert got == prev.0 + [ReceiveFrom(prev.1, order[n], delivers[n]).0];
      forall i | 0 <= i < |events|
        ensures events[i].pid == order[i] && events[i].message == TextOf(got[i])
      {
        if i < n {
          assert events[..n][i] == events[i] && got[i] == prev.0[i];
        }
      }
    }
  }

  /** The next receive extends the events by one. */
  lemma GeneratedStep(events: seq<EchoEvent>, order: seq<Pid>, delivers: seq<bool>, c: Chan<Packet>, e: EchoEvent)
    requires |order| == |delivers| && Generated(events, order, delivers, c) && |events| < |order|
    requires var k := |events|;
      e.pid == order[k] &&
      e.message == TextOf(ReceiveFrom(ReceiveAll(c, order[..k], delivers[..k]).1, order[k], delivers[k]).0)
    ensures Generated(events + [e], order, delivers, c)
  {
    assert (events + [e])[..|events|] == events;
  }

  /** The y of every process, by pid. */
  function Ys(config: EchoConfig): (ys: map<Pid, YValue>)
    reads config.processes.Values
    ensures ys.Keys == config.processes.Keys
  {
    map k | k in config.processes :: config.processes[k].y
  }

  /** Whether each process is alive, by pid. */
  function Alives(config: EchoConfig): (live: map<Pid, bool>)
    reads config.processes.Values
    ensures live.Keys == config.processes.Keys
  {
    map k | k in config.processes :: config.processes[k].alive
  }

  /** A run after its first i events, from start values y0, liveness a0 and
      step counter c0: the configuration is well formed, one step has been
      counted per event, every process is as alive as at the start, a live
      one's y is the rule applied to the texts it was handed, in order, and
      a dead one still holds its start value. */
  ghost predicate Ran(config: EchoConfig, y0: map<Pid, YValue>, a0: map<Pid, bool>, c0: nat,
                      events: seq<EchoEvent>, i: nat)
    reads config, config.messageSystem, config.processes.Values
  {
    i <= |events| && config.Valid() && config.messageSystem.Valid() && config.stepCounter == c0 + i &&
    forall k :: k in config.processes ==>
      k in y0 && k in a0 && config.processes[k].alive == a0[k] &&
      config.processes[k].y == if a0[k] then EchoAll(y0[k], TextsFor(events[..i], k)) else y0[k]
  }

  /** Before any event, a run holds its start values. */
  lemma RanStart(config: EchoConfig, events: seq<EchoEvent>)
    requires config.Valid() && config.messageSystem.Valid()
    ensures Ran(config, Ys(config), Alives(config), config.stepCounter, events, 0)
  {
    assert events[..0] == [];
  }

  /** One applied event keeps a process's y at the rule applied to the texts
      it has been handed so far (or at its start value while it is dead). */
  lemma TrackStep(y0: YValue, before: YValue, after: YValue, alive: bool, reacted: bool,
                  events: seq<EchoEvent>, i: nat, k: Pid)
    requires i < |events|
    requires before == if alive then EchoAll(y0, TextsFor(events[..i], k)) else y0
    requires k == events[i].pid && alive ==> reacted
    requires after ==
      if k == events[i].pid && reacted && events[i].message.Some? then EchoDecision(before, events[i].message.value)
      else before
    requires reacted && k == events[i].pid ==> alive
    ensures after == if alive then EchoAll(y0, TextsFor(events[..i + 1], k)) else y0
  {
    var texts := TextsFor(events[..i], k);
    TextsForStep(events, i, k);
    if k == events[i].pid && alive && events[i].message.Some? {
      var t := events[i].message.value;
      assert TextsFor(events[..i + 1], k) == texts + [t];
      EchoAllStep(y0, texts, t);
      assert after == EchoDecision(EchoAll(y0, texts), t);
    } else if alive {
      assert TextsFor(events[..i + 1], k) == texts;
      assert after == before;
    } else {
      assert after == before;
    }
  }
}
