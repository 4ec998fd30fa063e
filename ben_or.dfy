/** The handler of protocols/ben_or.py, as the code is written (one vote
    phase per round, not the two-phase protocol of the paper its comment
    cites). Each call collects a (sender, value) pair into `seen`; once
    `seen` holds n-1 pairs the process decides on a strict majority or
    re-votes by coin, advances its round and empties `seen`; every call that
    does not return early broadcasts the current vote.

    `Step` is the specification of one call on values; `Handle` is the
    in-place handler proved against it. */
module BenOr {
  import opened Common
  import opened Channel
  import opened Processes
  import opened Configurations

  /** A vote message, the (sender, value) pair line 21 unpacks. */
  type VoteMsg = (Pid, int)

  /** The state map holds only what this handler writes into it. */
  predicate StateWellTyped(state: map<string, StateValue>) {
    ("vote" in state ==> state["vote"].IntValue?) && ("seen" in state ==> state["seen"].PairSet?)
  }

  /** `state['vote']` after the first-use initialisation (lines 9-10). */
  function InitialVote(state: map<string, StateValue>, x: int): int
    requires StateWellTyped(state)
  {
    if "vote" in state then state["vote"].i else x
  }

  /** `state['seen']` after the first-use initialisation (lines 12-13). */
  function InitialSeen(state: map<string, StateValue>): set<VoteMsg>
    requires StateWellTyped(state)
  {
    if "seen" in state then state["seen"].pairs else {}
  }

  /** `seen` after the delivered pair, if any, is added. */
  function Collect(seen: set<VoteMsg>, message: Option<VoteMsg>): set<VoteMsg> {
    if message.Some? then seen + {message.value} else seen
  }

  /** `votes.count(v)` where `votes = [v for (_, v) in seen]`. */
  function Count(seen: set<VoteMsg>, v: int): nat {
    |set p | p in seen && p.1 == v|
  }

  datatype Verdict = Decided(b: Bit) | NoMajority

  /** Strictly more than n//2 votes, 0 checked first. */
  function Majority(seen: set<VoteMsg>, n: nat): Verdict {
    if Count(seen, 0) > n / 2 then Decided(0)
    else if Count(seen, 1) > n / 2 then Decided(1)
    else NoMajority
  }

  /** How a call ends: it returns None, or the AttributeError of line 50
      escapes because the process has no `round` attribute. */
  datatype Outcome = ReturnedNone | RoundAttributeMissing

  /** What one call leaves behind: the new y, vote, seen and round, whether
      the broadcast loop ran, and how the call ended. */
  datatype Effect = Effect(y: YValue, vote: int, seen: set<VoteMsg>, round: Option<int>,
                           broadcast: bool, outcome: Outcome)

  /** One call of `ben_or_handler` on a process with input x among n processes. */
  function Step(n: nat, x: int, y: YValue, state: map<string, StateValue>, round: Option<int>,
                message: Option<VoteMsg>, coin: Bit): (e: Effect)
    requires StateWellTyped(state)
    // a process holding a text decision only gets its vote/seen initialised
    ensures y.TextBit? ==> e == Effect(y, InitialVote(state, x), InitialSeen(state), round, false, ReturnedNone)
    // y changes only from undecided to a text decision, at the n-1 check
    ensures e.y != y ==> !y.TextBit? && e.y.TextBit? && |Collect(InitialSeen(state), message)| >= n - 1
    ensures !y.TextBit? && e.y == TextBit(0) ==> Count(Collect(InitialSeen(state), message), 0) > n / 2
    ensures !y.TextBit? && e.y == TextBit(1) ==>
      Count(Collect(InitialSeen(state), message), 0) <= n / 2 && Count(Collect(InitialSeen(state), message), 1) > n / 2
    // after a decision the vote is the decided value
    ensures e.y != y ==> e.vote == e.y.t
    // a strict majority at the threshold decides that bit and votes for it
    ensures (!y.TextBit? && |Collect(InitialSeen(state), message)| >= n - 1 &&
             Majority(Collect(InitialSeen(state), message), n).Decided?) ==>
      e.y == TextBit(Majority(Collect(InitialSeen(state), message), n).b) &&
      e.vote == Majority(Collect(InitialSeen(state), message), n).b
    // without a majority the vote is the coin and y stays
    ensures (!y.TextBit? && |Collect(InitialSeen(state), message)| >= n - 1 &&
             Majority(Collect(InitialSeen(state), message), n) == NoMajority) ==> e.y == y && e.vote == coin
    // below the threshold only the pair is collected
    ensures !y.TextBit? && |Collect(InitialSeen(state), message)| < n - 1 ==>
      e == Effect(y, InitialVote(state, x), Collect(InitialSeen(state), message), round, true, ReturnedNone)
    // the round moves by exactly one, and seen is emptied, iff the threshold is met
    ensures !y.TextBit? && e.outcome == ReturnedNone ==>
      (e.round != round <==> |Collect(InitialSeen(state), message)| >= n - 1)
    ensures e.round != round ==> round.Some? && e.round == Some(round.value + 1) && e.seen == {}
    ensures e.outcome == RoundAttributeMissing <==>
      !y.TextBit? && |Collect(InitialSeen(state), message)| >= n - 1 && round.None?
    // the escaping call leaves the collected pairs and no round, and sends nothing
    ensures e.outcome == RoundAttributeMissing ==>
      e.round == None && e.seen == Collect(InitialSeen(state), message) && !e.broadcast
    // every call that gets past the early return and the increment broadcasts
    ensures e.broadcast <==> !y.TextBit? && e.outcome == ReturnedNone
  {
    var vote := InitialVote(state, x);
    var seen0 := InitialSeen(state);
    if y.TextBit? then Effect(y, vote, seen0, round, false, ReturnedNone)
    else
      var seen := Collect(seen0, message);
      if |seen| >= n - 1 then
        var verdict := Majority(seen, n);
        var y' := if verdict.Decided? then TextBit(verdict.b) else y;
        var vote' := if verdict.Decided? then verdict.b else coin;
        if round.None? then Effect(y', vote', seen, None, false, RoundAttributeMissing)
        else Effect(y', vote', {}, Some(round.value + 1), true, ReturnedNone)
      else Effect(y, vote, seen, round, true, ReturnedNone)
  }

  /** The 0 and 1 votes in a set of pairs never outnumber the pairs. */
  lemma CountsWithinSeen(seen: set<VoteMsg>)
    ensures Count(seen, 0) + Count(seen, 1) <= |seen|
  {
    var zeros := set p | p in seen && p.1 == 0;
    var ones := set p | p in seen && p.1 == 1;
    assert zeros * ones == {};
    var rest := seen - (zeros + ones);
    assert seen == (zeros + ones) + rest;
    assert (zeros + ones) * rest == {};
    assert |seen| == |zeros + ones| + |rest|;
    assert |zeros + ones| == |zeros| + |ones|;
  }

  /** `seen` between calls: below the threshold, or empty. */
  predicate SeenBelowThreshold(n: nat, seen: set<VoteMsg>) {
    |seen| < n - 1 || seen == {}
  }

  /** A call that returns keeps `seen` below the threshold, and the set the
      majority check looks at never holds more than max(n-1, 1) pairs, so
      0 and 1 cannot both have a strict majority: checking 0 first never
      changes the outcome. */
  lemma MajorityUnambiguous(n: nat, x: int, y: YValue, state: map<string, StateValue>, round: Option<int>,
                            message: Option<VoteMsg>, coin: Bit)
    requires StateWellTyped(state) && SeenBelowThreshold(n, InitialSeen(state))
    ensures var seen := Collect(InitialSeen(state), message);
      !(Count(seen, 0) > n / 2 && Count(seen, 1) > n / 2)
    ensures var e := Step(n, x, y, state, round, message, coin);
      e.outcome == ReturnedNone ==> SeenBelowThreshold(n, e.seen)
  {
    var seen := Collect(InitialSeen(state), message);
    CountsWithinSeen(seen);
    assert |seen| <= |InitialSeen(state)| + 1;
  }

  /** The state map after a call: vote and seen are (re)written, nothing else. */
  function NextState(state: map<string, StateValue>, e: Effect): map<string, StateValue> {
    WithVoteSeen(state, e.vote, e.seen)
  }

  function WithVoteSeen(state: map<string, StateValue>, vote: int, seen: set<VoteMsg>): map<string, StateValue> {
    state["vote" := IntValue(vote)]["seen" := PairSet(seen)]
  }

  /** Several calls on the same process, with one message and one coin each. */
  function Calls(n: nat, x: int, y: YValue, state: map<string, StateValue>, round: Option<int>,
                 messages: seq<Option<VoteMsg>>, coins: seq<Bit>): (YValue, Option<int>)
    requires StateWellTyped(state) && |messages| == |coins|
    decreases |messages|
  {
    if messages == [] then (y, round)
    else
      var e := Step(n, x, y, state, round, messages[0], coins[0]);
      Calls(n, x, e.y, NextState(state, e), e.round, messages[1..], coins[1..])
  }

  /** Write-once decisions and monotone rounds over any sequence of calls. */
  lemma {:induction false} DecisionWriteOnce(n: nat, x: int, y: YValue, state: map<string, StateValue>, round: Option<int>,
                                             messages: seq<Option<VoteMsg>>, coins: seq<Bit>)
    requires StateWellTyped(state) && |messages| == |coins|
    ensures var (y', round') := Calls(n, x, y, state, round, messages, coins);
      (y.TextBit? ==> y' == y) &&
      (round.Some? ==> round'.Some? && round'.value >= round.value) &&
      (round.None? ==> round' == None)
    decreases |messages|
  {
    if messages != [] {
      var e := Step(n, x, y, state, round, messages[0], coins[0]);
      DecisionWriteOnce(n, x, e.y, NextState(state, e), e.round, messages[1..], coins[1..]);
    }
  }

  /** What one call did to the process and to the message system. */
  twostate predicate Handled(config: Configuration<VoteMsg>, process: Process, message: Option<VoteMsg>,
                             coin: Bit, outcome: Outcome)
    requires old(StateWellTyped(process.state))
    reads process, config.messageSystem
  {
    var e := Step(|config.processes|, process.x, old(process.y), old(process.state), old(process.round), message, coin);
    outcome == e.outcome &&
    process.y == e.y && process.round == e.round && process.state == NextState(old(process.state), e) &&
    process.alive == old(process.alive) && process.pc == old(process.pc) &&
    config.messageSystem.Valid() &&
    config.messageSystem.State() ==
      if e.broadcast then Broadcast(old(config.messageSystem.State()), config.order, process.pid, (process.pid, e.vote))
      else old(config.messageSystem.State())
  }

  /** Lines 9-13: the first-use initialisation of vote and seen. */
  method InitState(process: Process)
    requires StateWellTyped(process.state)
    modifies process
    ensures process.state == WithVoteSeen(old(process.state), InitialVote(old(process.state), process.x), InitialSeen(old(process.state)))
    ensures process.y == old(process.y) && process.round == old(process.round)
    ensures process.alive == old(process.alive) && process.pc == old(process.pc)
  {
    if "vote" !in process.state {
      process.state := process.state["vote" := IntValue(process.x)];
    }
    if "seen" !in process.state {
      process.state := process.state["seen" := PairSet({})];
    }
  }

  /** Initialising an initialised map changes nothing, so a call sees the
      same vote and seen either way. */
  lemma StepAfterInit(n: nat, x: int, y: YValue, state: map<string, StateValue>, round: Option<int>,
                      message: Option<VoteMsg>, coin: Bit)
    requires StateWellTyped(state)
    ensures var s := WithVoteSeen(state, InitialVote(state, x), InitialSeen(state));
      StateWellTyped(s) &&
      Step(n, x, y, s, round, message, coin) == Step(n, x, y, state, round, message, coin) &&
      forall e :: NextState(s, e) == NextState(state, e)
  {
  }

  /** The writes of lines 20-51, in the order the handler makes them,
      leave the map `NextState` describes. */
  lemma StateWrites(state: map<string, StateValue>, seen: set<VoteMsg>, vote: int, seen': set<VoteMsg>)
    requires StateWellTyped(state) && "vote" in state
    ensures state["seen" := PairSet(seen)] == WithVoteSeen(state, state["vote"].i, seen)
    ensures state["seen" := PairSet(seen)]["vote" := IntValue(vote)] == WithVoteSeen(state, vote, seen)
    ensures state["seen" := PairSet(seen)]["vote" := IntValue(vote)]["seen" := PairSet(seen')] ==
      WithVoteSeen(state, vote, seen')
  {
    assert state["vote" := IntValue(state["vote"].i)] == state;
  }

  /** Lines 20-51 on an initialised, undecided process. */
  method CollectAndDecide(process: Process, n: nat, message: Option<VoteMsg>, coin: Bit) returns (e: Effect)
    requires StateWellTyped(process.state) && "vote" in process.state && "seen" in process.state
    requires !process.y.TextBit?
    modifies process
    ensures e == Step(n, process.x, old(process.y), old(process.state), old(process.round), message, coin)
    ensures process.y == e.y && process.round == e.round && process.state == NextState(old(process.state), e)
    ensures process.alive == old(process.alive) && process.pc == old(process.pc)
  {
    ghost var s0 := process.state;
    var state, y := process.state, process.y;
    if message.Some? {
      state := state["seen" := PairSet(state["seen"].pairs + {message.value})];
    }
    var seen := state["seen"].pairs;
    assert state == s0["seen" := PairSet(seen)];
    if |seen| >= n - 1 {
      var vote: int;
      if Count(seen, 0) > n / 2 {
        y, vote := TextBit(0), 0;
      } else if Count(seen, 1) > n / 2 {
        y, vote := TextBit(1), 1;
      } else {
        vote := coin;
      }
      state := state["vote" := IntValue(vote)];
      StateWrites(s0, seen, vote, {});
      if process.round.None? {
        // `round + 1` on a process without a round raises after the writes
        process.y, process.state := y, state;
        return Effect(y, vote, seen, None, false, RoundAttributeMissing);
      }
      process.round := Some(process.round.value + 1);
      state := state["seen" := PairSet({})];
    } else {
      StateWrites(s0, seen, 0, {});
    }
    process.y, process.state := y, state;
    e := Effect(y, state["vote"].i, state["seen"].pairs, process.round, true, ReturnedNone);
  }

  /** Lines 7-51: the updates of the process record up to the broadcast. */
  method UpdateProcess(process: Process, n: nat, message: Option<VoteMsg>, coin: Bit) returns (e: Effect)
    requires StateWellTyped(process.state)
    modifies process
    ensures e == Step(n, process.x, old(process.y), old(process.state), old(process.round), message, coin)
    ensures process.y == e.y && process.round == e.round && process.state == NextState(old(process.state), e)
    ensures process.alive == old(process.alive) && process.pc == old(process.pc)
  {
    StepAfterInit(n, process.x, process.y, process.state, process.round, message, coin);
    InitState(process);
    if process.y.TextBit? {
      return Effect(process.y, process.state["vote"].i, process.state["seen"].pairs, process.round, false, ReturnedNone);
    }
    e := CollectAndDecide(process, n, message, coin);
  }

  /** `ben_or_handler(config, process, message)`, with its two random draws
      replaced by `coin` (the draw stored at line 46). */
  method Handle(config: Configuration<VoteMsg>, process: Process, message: Option<VoteMsg>, coin: Bit)
    returns (outcome: Outcome)
    requires config.Valid() && config.messageSystem.Valid() && StateWellTyped(process.state)
    modifies process, config.messageSystem
    ensures Handled(config, process, message, coin, outcome)
  {
    var e := UpdateProcess(process, |config.processes|, message, coin);
    outcome := e.outcome;
    if e.broadcast {
      // lines 53-57: the vote goes to every other pid, in the key order
      config.messageSystem.SendToOthers(config.order, process.pid, (process.pid, process.state["vote"].i));
    }
  }
}
