/** The message substrate of base/message_system.py: a dict from receiver to a
    FIFO list. `send` appends, `receive` pops the head only when the delivery
    coin succeeds, so the channel itself never drops a message.

    The pure part (`Chan`, `SendTo`, `ReceiveFrom`, ...) is the specification;
    class `MessageSystem` is the mutable object, whose methods are proved
    against it. The three toy protocol files carry near-identical copies of
    the same buffer; they reuse this class with (sender, text) pairs as
    messages. */
module Channel {
  import opened Common

  /** The buffer and its key order (Python dicts iterate in insertion order). */
  datatype Chan<M> = Chan(buffer: map<Pid, seq<M>>, keys: seq<Pid>)

  predicate WellFormed<M>(c: Chan<M>) {
    Distinct(c.keys) && c.buffer.Keys == set r | r in c.keys
  }

  /** `buffer[r]` when present, `[]` otherwise (without creating the key). */
  function Queue<M>(c: Chan<M>, r: Pid): seq<M> {
    if r in c.buffer then c.buffer[r] else []
  }

  /** `send(r, m)`: append m to r's queue; no other queue changes. */
  function SendTo<M>(c: Chan<M>, r: Pid, m: M): (d: Chan<M>)
    ensures WellFormed(c) ==> WellFormed(d)
    ensures Queue(d, r) == Queue(c, r) + [m]
    ensures forall q :: q != r ==> Queue(d, q) == Queue(c, q)
    ensures d.buffer.Keys == c.buffer.Keys + {r}
  {
    Chan(c.buffer[r := Queue(c, r) + [m]], if r in c.buffer then c.keys else c.keys + [r])
  }

  /** `receive(r)` with the delivery coin given as `deliver`. */
  function ReceiveFrom<M>(c: Chan<M>, r: Pid, deliver: bool): (res: (Option<M>, Chan<M>))
    ensures WellFormed(c) ==> WellFormed(res.1)
    // nothing is lost: what comes out, followed by what stays, is the old queue
    ensures Queue(c, r) == (if res.0.Some? then [res.0.value] else []) + Queue(res.1, r)
    ensures res.0.Some? <==> deliver && Queue(c, r) != []
    ensures res.0.None? ==> res.1 == c
    ensures forall q :: q != r ==> Queue(res.1, q) == Queue(c, q)
    ensures res.1.buffer.Keys == c.buffer.Keys && res.1.keys == c.keys
  {
    if r !in c.buffer || c.buffer[r] == [] then (None, c)
    else if deliver then (Some(c.buffer[r][0]), Chan(c.buffer[r := c.buffer[r][1..]], c.keys))
    else (None, c)
  }

  /** What `peek_buffer` returns: one receiver's list, or the whole dict. */
  datatype Peek<M> = OneQueue(queue: seq<M>) | WholeBuffer(all: map<Pid, seq<M>>)

  /** `peek_buffer(receiver)`: `if receiver:` is false for None and for the
      empty string, in which case the whole buffer is returned. */
  function PeekAt<M>(c: Chan<M>, receiver: Option<Pid>): Peek<M> {
    if receiver.Some? && receiver.value != "" then OneQueue(Queue(c, receiver.value))
    else WholeBuffer(c.buffer)
  }

  /** One line of `snapshot`: a queued message and its receiver, or the
      "[Empty buffer]" marker. The text formatting is not modelled. */
  datatype BufferLine<M> = Line(receiver: Pid, message: M) | EmptyBuffer

  function QueueLines<M>(r: Pid, q: seq<M>): seq<BufferLine<M>>
    decreases |q|
  {
    if q == [] then [] else QueueLines(r, q[..|q| - 1]) + [Line(r, q[|q| - 1])]
  }

  function AllLines<M>(ks: seq<Pid>, b: map<Pid, seq<M>>): seq<BufferLine<M>>
    decreases |ks|
  {
    if ks == [] then []
    else AllLines(ks[..|ks| - 1], b) + QueueLines(ks[|ks| - 1], Queue(Chan(b, ks), ks[|ks| - 1]))
  }

  function SnapshotOf<M>(c: Chan<M>): seq<BufferLine<M>> {
    var lines := AllLines(c.keys, c.buffer);
    if lines == [] then [EmptyBuffer] else lines
  }

  /** Number of queued messages over the given receivers. */
  function Total<M>(ks: seq<Pid>, b: map<Pid, seq<M>>): nat
    decreases |ks|
  {
    if ks == [] then 0 else Total(ks[..|ks| - 1], b) + |Queue(Chan(b, ks), ks[|ks| - 1])|
  }

  lemma {:induction false} QueueLinesAre<M>(r: Pid, q: seq<M>)
    ensures |QueueLines(r, q)| == |q|
    ensures forall i :: 0 <= i < |q| ==> QueueLines(r, q)[i] == Line(r, q[i])
  {
    if q != [] {
      QueueLinesAre(r, q[..|q| - 1]);
    }
  }

  lemma {:induction false} AllLinesCount<M>(ks: seq<Pid>, b: map<Pid, seq<M>>)
    ensures |AllLines(ks, b)| == Total(ks, b)
    ensures forall i :: 0 <= i < |AllLines(ks, b)| ==> AllLines(ks, b)[i].Line?
  {
    if ks != [] {
      var r := ks[|ks| - 1];
      AllLinesCount(ks[..|ks| - 1], b);
      QueueLinesAre(r, Queue(Chan(b, ks), r));
    }
  }

  /** `snapshot` yields exactly one line per queued message, or the single
      "[Empty buffer]" line when nothing is queued. */
  lemma SnapshotLineCount<M>(c: Chan<M>)
    ensures Total(c.keys, c.buffer) == 0 ==> SnapshotOf(c) == [EmptyBuffer]
    ensures Total(c.keys, c.buffer) > 0 ==>
      |SnapshotOf(c)| == Total(c.keys, c.buffer) &&
      forall i :: 0 <= i < |SnapshotOf(c)| ==> SnapshotOf(c)[i].Line?
  {
    AllLinesCount(c.keys, c.buffer);
  }

  /** `for target in order: if target != self: send(target, m)`. */
  function Broadcast<M>(c: Chan<M>, targets: seq<Pid>, self: Pid, m: M): Chan<M>
    decreases |targets|
  {
    if targets == [] then c
    else
      var d := Broadcast(c, targets[..|targets| - 1], self, m);
      var t := targets[|targets| - 1];
      if t != self then SendTo(d, t, m) else d
  }

  /** One queue after a broadcast: m is appended exactly once when q is
      another listed pid, and the queue is untouched otherwise. */
  lemma {:induction false} BroadcastQueue<M>(c: Chan<M>, targets: seq<Pid>, self: Pid, m: M, q: Pid)
    requires Distinct(targets)
    ensures Queue(Broadcast(c, targets, self, m), q) ==
      Queue(c, q) + (if q in targets && q != self then [m] else [])
    decreases |targets|
  {
    if targets != [] {
      var n := |targets| - 1;
      var init := targets[..n];
      var t := targets[n];
      DistinctSplit(targets, q);
      BroadcastQueue(c, init, self, m, q);
      BroadcastLast(c, targets, self, m, q);
      if q == t && q != self {
        assert Queue(c, q) + [] == Queue(c, q);
      } else {
        assert Queue(Broadcast(c, init, self, m), q) + [] == Queue(Broadcast(c, init, self, m), q);
      }
    }
  }

  /** The last target of a broadcast touches its own queue only. */
  lemma BroadcastLast<M>(c: Chan<M>, targets: seq<Pid>, self: Pid, m: M, q: Pid)
    requires targets != []
    ensures var n := |targets| - 1;
      Queue(Broadcast(c, targets, self, m), q) ==
      Queue(Broadcast(c, targets[..n], self, m), q) + (if q == targets[n] && q != self then [m] else [])
  {
  }

  /** A broadcast creates the keys of the other listed pids and keeps the
      channel well formed. */
  lemma {:induction false} BroadcastKeys<M>(c: Chan<M>, targets: seq<Pid>, self: Pid, m: M)
    ensures WellFormed(c) ==> WellFormed(Broadcast(c, targets, self, m))
    ensures Broadcast(c, targets, self, m).buffer.Keys ==
      c.buffer.Keys + ((set t | t in targets) - {self})
    decreases |targets|
  {
    if targets != [] {
      var n := |targets| - 1;
      var init := targets[..n];
      BroadcastKeys(c, init, self, m);
      assert targets == init + [targets[n]];
      assert (set u | u in targets) == (set u | u in init) + {targets[n]};
    }
  }

  /** A broadcast appends m exactly once to the queue of every other listed
      pid and leaves every other queue, including the sender's own, alone. */
  lemma BroadcastQueues<M>(c: Chan<M>, targets: seq<Pid>, self: Pid, m: M)
    requires Distinct(targets)
    ensures WellFormed(c) ==> WellFormed(Broadcast(c, targets, self, m))
    ensures forall q :: (Queue(Broadcast(c, targets, self, m), q) ==
      Queue(c, q) + (if q in targets && q != self then [m] else []))
    ensures Broadcast(c, targets, self, m).buffer.Keys ==
      c.buffer.Keys + ((set t | t in targets) - {self})
  {
    BroadcastKeys(c, targets, self, m);
    forall q
      ensures Queue(Broadcast(c, targets, self, m), q) ==
        Queue(c, q) + (if q in targets && q != self then [m] else [])
    {
      BroadcastQueue(c, targets, self, m, q);
    }
  }

  /** A run of the channel, with the coins as data. */
  datatype Op<M> = SendOp(to: Pid, msg: M) | ReceiveOp(from: Pid, deliver: bool)

  function Apply<M>(c: Chan<M>, op: Op<M>): (Option<M>, Chan<M>) {
    match op
    case SendOp(r, m) => (None, SendTo(c, r, m))
    case ReceiveOp(r, d) => ReceiveFrom(c, r, d)
  }

  function RunOps<M>(c: Chan<M>, ops: seq<Op<M>>): Chan<M>
    decreases |ops|
  {
    if ops == [] then c else RunOps(Apply(c, ops[0]).1, ops[1..])
  }

  /** The messages that successful receives for r return, in order. */
  function DeliveredTo<M>(c: Chan<M>, ops: seq<Op<M>>, r: Pid): seq<M>
    decreases |ops|
  {
    if ops == [] then []
    else
      var (out, d) := Apply(c, ops[0]);
      (if ops[0].ReceiveOp? && ops[0].from == r && out.Some? then [out.value] else [])
      + DeliveredTo(d, ops[1..], r)
  }

  /** The messages sent to r, in send order. */
  function SentTo<M>(ops: seq<Op<M>>, r: Pid): seq<M>
    decreases |ops|
  {
    if ops == [] then []
    else (if ops[0].SendOp? && ops[0].to == r then [ops[0].msg] else []) + SentTo(ops[1..], r)
  }

  function Targets<M>(ops: seq<Op<M>>): set<Pid>
    decreases |ops|
  {
    if ops == [] then {} else (if ops[0].SendOp? then {ops[0].to} else {}) + Targets(ops[1..])
  }

  /** One operation, seen from r's queue. */
  lemma ApplyQueue<M>(c: Chan<M>, op: Op<M>, r: Pid)
    ensures var (out, d) := Apply(c, op);
      (if op.ReceiveOp? && op.from == r && out.Some? then [out.value] else []) + Queue(d, r) ==
      Queue(c, r) + (if op.SendOp? && op.to == r then [op.msg] else [])
  {
    match op
    case SendOp(q, m) =>
      if q != r {
        assert Queue(Apply(c, op).1, r) == Queue(c, r);
      }
    case ReceiveOp(q, del) =>
  }

  lemma Regroup<M>(got: seq<M>, rest: seq<M>, fin: seq<M>, mid: seq<M>, q: seq<M>, put: seq<M>, sent: seq<M>)
    requires rest + fin == mid + sent && got + mid == q + put
    ensures got + rest + fin == q + (put + sent)
  {
    calc {
      got + rest + fin;
      got + (rest + fin);
      got + (mid + sent);
      (got + mid) + sent;
      (q + put) + sent;
      q + (put + sent);
    }
  }

  /** Per-receiver FIFO and no loss: the messages delivered to r followed by
      those still queued are exactly the old queue followed by the messages
      sent to r, in send order. */
  lemma {:induction false} FifoNoLoss<M>(c: Chan<M>, ops: seq<Op<M>>, r: Pid)
    ensures DeliveredTo(c, ops, r) + Queue(RunOps(c, ops), r) == Queue(c, r) + SentTo(ops, r)
    decreases |ops|
  {
    if ops != [] {
      var step := Apply(c, ops[0]);
      var out, d := step.0, step.1;
      FifoNoLoss(d, ops[1..], r);
      var rest := DeliveredTo(d, ops[1..], r);
      var fin := Queue(RunOps(d, ops[1..]), r);
      var sent := SentTo(ops[1..], r);
      var got := if ops[0].ReceiveOp? && ops[0].from == r && out.Some? then [out.value] else [];
      var put := if ops[0].SendOp? && ops[0].to == r then [ops[0].msg] else [];
      assert DeliveredTo(c, ops, r) == got + rest;
      assert RunOps(c, ops) == RunOps(d, ops[1..]);
      assert SentTo(ops, r) == put + sent;
      ApplyQueue(c, ops[0], r);
      Regroup(got, rest, fin, Queue(d, r), Queue(c, r), put, sent);
    }
  }

  /** Successful receives for r hand out a prefix of what was sent to r,
      in send order, when the run starts from an empty buffer. */
  lemma DeliveredInSendOrder<M>(ops: seq<Op<M>>, r: Pid)
    ensures var got := DeliveredTo(Chan(map[], []), ops, r);
      got <= SentTo(ops, r)
  {
    var got := DeliveredTo(Chan(map[], []), ops, r);
    FifoNoLoss(Chan(map[], []), ops, r);
    assert Queue<M>(Chan(map[], []), r) == [];
    var rest := Queue(RunOps(Chan(map[], []), ops), r);
    assert got + rest == SentTo(ops, r);
    assert SentTo(ops, r)[..|got|] == (got + rest)[..|got|] == got;
  }

  /** Only `send` creates keys, so the receivers are exactly the targets of
      some send. */
  lemma {:induction false} ReceiversAreTargets<M>(c: Chan<M>, ops: seq<Op<M>>)
    ensures RunOps(c, ops).buffer.Keys == c.buffer.Keys + Targets(ops)
    decreases |ops|
  {
    if ops != [] {
      ReceiversAreTargets(Apply(c, ops[0]).1, ops[1..]);
    }
  }

  /** One receive per listed receiver, in list order, with one coin each:
      what each returned and the channel afterwards. */
  function ReceiveAll<M>(c: Chan<M>, rs: seq<Pid>, delivers: seq<bool>): (res: (seq<Option<M>>, Chan<M>))
    requires |rs| == |delivers|
    ensures |res.0| == |rs|
    decreases |rs|
  {
    if rs == [] then ([], c)
    else
      var n := |rs| - 1;
      var prev := ReceiveAll(c, rs[..n], delivers[..n]);
      var step := ReceiveFrom(prev.1, rs[n], delivers[n]);
      (prev.0 + [step.0], step.1)
  }

  /** One more receive, as a loop over the receivers takes it. */
  lemma ReceiveAllStep<M>(c: Chan<M>, rs: seq<Pid>, delivers: seq<bool>, i: nat)
    requires |rs| == |delivers| && i < |rs|
    ensures var prev := ReceiveAll(c, rs[..i], delivers[..i]);
      var step := ReceiveFrom(prev.1, rs[i], delivers[i]);
      ReceiveAll(c, rs[..i + 1], delivers[..i + 1]) == (prev.0 + [step.0], step.1)
  {
    assert rs[..i + 1][..i] == rs[..i] && delivers[..i + 1][..i] == delivers[..i];
  }

  /** The messages among `got` that were returned to receiver q, in order. */
  function Gathered<M>(got: seq<Option<M>>, rs: seq<Pid>, q: Pid): seq<M>
    requires |got| == |rs|
    decreases |rs|
  {
    if rs == [] then []
    else
      var n := |rs| - 1;
      Gathered(got[..n], rs[..n], q) + (if rs[n] == q && got[n].Some? then [got[n].value] else [])
  }

  /** Receives alone never lose, reorder or invent a message: for every
      receiver, what was handed out followed by what is left is the old
      queue; and they create no key. */
  lemma {:induction false} ReceiveAllNoLoss<M>(c: Chan<M>, rs: seq<Pid>, delivers: seq<bool>, q: Pid)
    requires |rs| == |delivers|
    ensures var res := ReceiveAll(c, rs, delivers);
      Gathered(res.0, rs, q) + Queue(res.1, q) == Queue(c, q) &&
      res.1.keys == c.keys && res.1.buffer.Keys == c.buffer.Keys
    decreases |rs|
  {
    if rs != [] {
      var n := |rs| - 1;
      var prev := ReceiveAll(c, rs[..n], delivers[..n]);
      ReceiveAllNoLoss(c, rs[..n], delivers[..n], q);
      var step := ReceiveFrom(prev.1, rs[n], delivers[n]);
      var res := ReceiveAll(c, rs, delivers);
      assert res.0[..n] == prev.0 && res.0[n] == step.0;
      var mine := if rs[n] == q && step.0.Some? then [step.0.value] else [];
      assert Gathered(res.0, rs, q) == Gathered(prev.0, rs[..n], q) + mine;
      assert mine + Queue(step.1, q) == Queue(prev.1, q);
      assert Gathered(res.0, rs, q) + Queue(res.1, q) == Gathered(prev.0, rs[..n], q) + (mine + Queue(step.1, q));
    }
  }

  /** Each listed sender broadcasts its own message, in list order. */
  function BroadcastAll<M>(c: Chan<M>, targets: seq<Pid>, froms: seq<Pid>, msgs: seq<M>): Chan<M>
    requires |froms| == |msgs|
    decreases |froms|
  {
    if froms == [] then c
    else
      var n := |froms| - 1;
      Broadcast(BroadcastAll(c, targets, froms[..n], msgs[..n]), targets, froms[n], msgs[n])
  }

  /** One more sender, as a loop over the senders takes it. */
  lemma BroadcastAllStep<M>(c: Chan<M>, targets: seq<Pid>, froms: seq<Pid>, msgs: seq<M>, i: nat)
    requires |froms| == |msgs| && i < |froms|
    ensures BroadcastAll(c, targets, froms[..i + 1], msgs[..i + 1]) ==
      Broadcast(BroadcastAll(c, targets, froms[..i], msgs[..i]), targets, froms[i], msgs[i])
  {
    assert froms[..i + 1][..i] == froms[..i] && msgs[..i + 1][..i] == msgs[..i];
  }

  /** The messages of the senders other than q, in sender order. */
  function FromOthers<M>(froms: seq<Pid>, msgs: seq<M>, q: Pid): seq<M>
    requires |froms| == |msgs|
    decreases |froms|
  {
    if froms == [] then []
    else
      var n := |froms| - 1;
      FromOthers(froms[..n], msgs[..n], q) + (if froms[n] != q then [msgs[n]] else [])
  }

  /** After every sender has broadcast, a listed receiver's queue has gained
      the other senders' messages in sender order; an unlisted one is
      untouched. */
  lemma {:induction false} BroadcastAllQueue<M>(c: Chan<M>, targets: seq<Pid>, froms: seq<Pid>, msgs: seq<M>, q: Pid)
    requires Distinct(targets) && |froms| == |msgs|
    ensures Queue(BroadcastAll(c, targets, froms, msgs), q) ==
      Queue(c, q) + (if q in targets then FromOthers(froms, msgs, q) else [])
    decreases |froms|
  {
    if froms != [] {
      var n := |froms| - 1;
      BroadcastAllQueue(c, targets, froms[..n], msgs[..n], q);
      BroadcastQueue(BroadcastAll(c, targets, froms[..n], msgs[..n]), targets, froms[n], msgs[n], q);
    }
  }

  /** With distinct senders, a sender q receives one message from each of
      the others: |froms| - 1 of them, and every other sender's is there. */
  lemma {:induction false} FromOthersCount<M>(froms: seq<Pid>, msgs: seq<M>, q: Pid)
    requires Distinct(froms) && |froms| == |msgs|
    ensures |FromOthers(froms, msgs, q)| == |froms| - (if q in froms then 1 else 0)
    ensures forall i :: 0 <= i < |froms| && froms[i] != q ==> msgs[i] in FromOthers(froms, msgs, q)
    decreases |froms|
  {
    if froms != [] {
      var n := |froms| - 1;
      FromOthersCount(froms[..n], msgs[..n], q);
      assert froms == froms[..n] + [froms[n]];
      assert q in froms <==> q in froms[..n] || q == froms[n];
      assert froms[n] !in froms[..n];
      forall i | 0 <= i < |froms| && froms[i] != q
        ensures msgs[i] in FromOthers(froms, msgs, q)
      {
        if i < n {
          assert froms[..n][i] == froms[i] && msgs[..n][i] == msgs[i];
        }
      }
    }
  }

  /** Every pid of a distinct list broadcasting its own message from an empty
      buffer leaves each pid with exactly one message from every other pid,
      n(n-1) messages in all. */
  lemma SeededCounts<M>(targets: seq<Pid>, msgs: seq<M>)
    requires Distinct(targets) && |targets| == |msgs|
    ensures var c := BroadcastAll(Chan(map[], []), targets, targets, msgs);
      (forall q :: q in targets ==> Queue(c, q) == FromOthers(targets, msgs, q) && |Queue(c, q)| == |targets| - 1) &&
      (forall i, j :: 0 <= i < |targets| && 0 <= j < |targets| && i != j ==> msgs[i] in Queue(c, targets[j])) &&
      Total(targets, c.buffer) == |targets| * (|targets| - 1)
  {
    var c := BroadcastAll(Chan(map[], []), targets, targets, msgs);
    forall q | q in targets
      ensures Queue(c, q) == FromOthers(targets, msgs, q) && |Queue(c, q)| == |targets| - 1
    {
      BroadcastAllQueue(Chan(map[], []), targets, targets, msgs, q);
      FromOthersCount(targets, msgs, q);
    }
    forall i, j | 0 <= i < |targets| && 0 <= j < |targets| && i != j
      ensures msgs[i] in Queue(c, targets[j])
    {
      FromOthersCount(targets, msgs, targets[j]);
    }
    if targets != [] {
      TotalUniform(targets, c.buffer, |targets| - 1);
    }
  }

  /** Receivers that all hold k messages hold k per receiver in total. */
  lemma {:induction false} TotalUniform<M>(ks: seq<Pid>, b: map<Pid, seq<M>>, k: nat)
    requires forall q :: q in ks ==> |Queue(Chan(b, ks), q)| == k
    ensures Total(ks, b) == |ks| * k
    decreases |ks|
  {
    if ks != [] {
      var n := |ks| - 1;
      forall q | q in ks[..n]
        ensures |Queue(Chan(b, ks[..n]), q)| == k
      {
        assert q in ks;
      }
      TotalUniform(ks[..n], b, k);
      assert |Queue(Chan(b, ks), ks[n])| == k;
      assert Total(ks, b) == n * k + k;
      assert (n + 1) * k == n * k + k;
    }
  }

  /** The mutable channel object of base/message_system.py. */
  class MessageSystem<M> {
    var buffer: map<Pid, seq<M>>
    var keys: seq<Pid>

    function State(): Chan<M>
      reads this
    {
      Chan(buffer, keys)
    }

    predicate Valid()
      reads this
    {
      WellFormed(State())
    }

    constructor ()
      ensures Valid() && State() == Chan(map[], [])
    {
      buffer, keys := map[], [];
    }

    method Send(receiver: Pid, message: M)
      requires Valid()
      modifies this
      ensures Valid() && State() == SendTo(old(State()), receiver, message)
    {
      if receiver !in buffer {
        keys := keys + [receiver];
        buffer := buffer[receiver := []];
      }
      buffer := buffer[receiver := buffer[receiver] + [message]];
    }

    method Receive(receiver: Pid, deliver: bool) returns (m: Option<M>)
      requires Valid()
      modifies this
      ensures Valid() && (m, State()) == ReceiveFrom(old(State()), receiver, deliver)
    {
      if receiver !in buffer || buffer[receiver] == [] {
        return None;
      }
      if deliver {
        m := Some(buffer[receiver][0]);
        buffer := buffer[receiver := buffer[receiver][1..]];
      } else {
        m := None;
      }
    }

    /** `for t in targets: if t != self: send(t, m)`, the broadcast loop the
        handlers run over the pids of their configuration. */
    method SendToOthers(targets: seq<Pid>, self: Pid, m: M)
      requires Valid()
      modifies this
      ensures Valid() && State() == Broadcast(old(State()), targets, self, m)
    {
      ghost var before := State();
      var i := 0;
      while i < |targets|
        invariant 0 <= i <= |targets|
        invariant Valid() && State() == Broadcast(before, targets[..i], self, m)
      {
        assert targets[..i + 1][..i] == targets[..i];
        if targets[i] != self {
          Send(targets[i], m);
        }
        i := i + 1;
      }
      assert targets[..i] == targets;
    }

    /** Every listed sender in turn sends its own message to all the other
        targets: the initial broadcast of the toy protocols. */
    method SendAllToOthers(targets: seq<Pid>, froms: seq<Pid>, msgs: seq<M>)
      requires Valid() && |froms| == |msgs|
      modifies this
      ensures Valid() && State() == BroadcastAll(old(State()), targets, froms, msgs)
    {
      ghost var before := State();
      var i := 0;
      while i < |froms|
        invariant 0 <= i <= |froms|
        invariant Valid() && State() == BroadcastAll(before, targets, froms[..i], msgs[..i])
      {
        BroadcastAllStep(before, targets, froms, msgs, i);
        SendToOthers(targets, froms[i], msgs[i]);
        i := i + 1;
      }
      assert froms[..i] == froms && msgs[..i] == msgs;
    }

    /** `peek_buffer` changes nothing; a peeked non-empty queue shows the
        message the next successful receive returns. */
    method PeekBuffer(receiver: Option<Pid>) returns (p: Peek<M>)
      requires Valid()
      ensures p == PeekAt(State(), receiver)
      ensures p.OneQueue? && p.queue != [] ==>
        ReceiveFrom(State(), receiver.value, true).0 == Some(p.queue[0])
      ensures p.WholeBuffer? ==> receiver.None? || receiver.value == ""
    {
      if receiver.Some? && receiver.value != "" {
        p := OneQueue(if receiver.value in buffer then buffer[receiver.value] else []);
      } else {
        p := WholeBuffer(buffer);
      }
    }

    /** `all_receivers`: every key once, in insertion order. */
    method AllReceivers() returns (rs: seq<Pid>)
      requires Valid()
      ensures Distinct(rs) && forall r :: r in rs <==> r in buffer
      ensures rs == State().keys
    {
      rs := keys;
    }

    method Snapshot() returns (lines: seq<BufferLine<M>>)
      requires Valid()
      ensures lines == SnapshotOf(State())
    {
      var summary: seq<BufferLine<M>> := [];
      var i := 0;
      while i < |keys|
        invariant 0 <= i <= |keys|
        invariant summary == AllLines(keys[..i], buffer)
      {
        var r := keys[i];
        var messages := buffer[r];
        var j := 0;
        while j < |messages|
          invariant 0 <= j <= |messages|
          invariant summary == AllLines(keys[..i], buffer) + QueueLines(r, messages[..j])
        {
          assert messages[..j + 1][..j] == messages[..j];
          summary := summary + [Line(r, messages[j])];
          j := j + 1;
        }
        assert messages[..j] == messages;
        assert keys[..i + 1][..i] == keys[..i];
        i := i + 1;
      }
      assert keys[..i] == keys;
      lines := if summary == [] then [EmptyBuffer] else summary;
    }
  }
}
