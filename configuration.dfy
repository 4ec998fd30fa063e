/** The global configuration of base/configuration.py: the processes keyed by
    pid, the message system, a round counter and the decision queries. */
module Configurations {
  import opened Common
  import opened Channel
  import opened Processes

  /** `Configuration._config_counter`, the class-wide counter, as an object
      that is passed to every construction. */
  class ConfigCounter {
    var value: nat

    constructor ()
      ensures value == 0
    {
      value := 0;
    }
  }

  /** The id string `f"C{n}"`. */
  function ConfigId(n: nat): string {
    "C" + NatToString(n)
  }

  /** Distinct counter values give distinct ids. */
  lemma ConfigIdInjective(a: nat, b: nat)
    requires ConfigId(a) == ConfigId(b)
    ensures a == b
  {
    assert ConfigId(a)[1..] == NatToString(a);
    assert ConfigId(b)[1..] == NatToString(b);
    NatToStringInjective(a, b);
  }

  function PidsOf(ps: seq<Process>): (ks: seq<Pid>)
    ensures |ks| == |ps| && forall i :: 0 <= i < |ps| ==> ks[i] == ps[i].pid
  {
    seq(|ps|, i requires 0 <= i < |ps| => ps[i].pid)
  }

  /** The dict built from a list of processes has the list's pids as keys,
      each listed once in the key order. */
  lemma KeyedByPid(ps: seq<Process>)
    ensures Distinct(FirstOccurrences(PidsOf(ps)))
    ensures ZipByKey(PidsOf(ps), ps).Keys == (set k | k in FirstOccurrences(PidsOf(ps)))
    ensures ZipByKey(PidsOf(ps), ps).Keys == (set p | p in ps :: p.pid)
  {
    var ks := PidsOf(ps);
    FirstOccurrencesKeys(ks);
    ZipByKeyLast(ks, ps);
    forall k | k in ks ensures k in (set p | p in ps :: p.pid) {
      var i :| 0 <= i < |ks| && ks[i] == k;
      assert ps[i] in ps;
    }
  }

  /** One entry of `get_state_summary`. */
  datatype ProcessSummary = ProcessSummary(x: int, y: YValue, alive: bool, state: map<string, StateValue>)

  class Configuration<M> {
    var id: string
    const processes: map<Pid, Process>
    /** The key order of `processes`, which the broadcast loops follow. */
    const order: seq<Pid>
    const messageSystem: MessageSystem<M>
    var round: nat

    predicate Valid()
      reads this
    {
      Distinct(order) && processes.Keys == (set k | k in order) &&
      forall k :: k in processes ==> processes[k].pid == k
    }

    /** `__init__`: a later process with a duplicate pid replaces the earlier
        one, and the id is taken from the class counter, which is bumped. */
    constructor (ps: seq<Process>, ms: MessageSystem<M>, counter: ConfigCounter)
      modifies counter
      ensures Valid()
      ensures id == ConfigId(old(counter.value)) && counter.value == old(counter.value) + 1
      ensures processes == ZipByKey(PidsOf(ps), ps) && order == FirstOccurrences(PidsOf(ps))
      ensures messageSystem == ms && round == 0
    {
      var m, o := KeyBy(PidsOf(ps), ps);
      id := ConfigId(counter.value);
      processes, order := m, o;
      messageSystem := ms;
      round := 0;
      new;
      counter.value := counter.value + 1;
    }

    /** `decision_values`: the y values equal to the INTEGER 0 or 1. */
    function DecisionValues(): (r: set<YValue>)
      reads processes.Values
      ensures r <= {IntBit(0), IntBit(1)}
      ensures forall k :: k in processes && processes[k].y.IntBit? ==> processes[k].y in r
      ensures forall v :: v in r ==> exists k :: k in processes && processes[k].y == v
    {
      set k | k in processes && processes[k].y.IntBit? :: processes[k].y
    }

    /** `all_decided`: every process, crashed or not, holds an integer 0/1. */
    predicate AllDecided()
      reads processes.Values
    {
      forall k :: k in processes ==> processes[k].y.IntBit?
    }

    /** Once everybody has decided, at least one decision value is reported. */
    lemma AllDecidedHasValue()
      requires AllDecided() && processes != map[]
      ensures DecisionValues() != {}
    {
      var k :| k in processes;
      assert processes[k].y in DecisionValues();
    }

    /** The text decisions '0'/'1' written by protocols/ben_or.py are
        invisible to both queries: no value is reported, and a non-empty
        configuration never counts as decided. */
    lemma TextDecisionsInvisible()
      requires forall k :: k in processes ==> processes[k].y.TextBit?
      ensures DecisionValues() == {}
      ensures processes != map[] ==> !AllDecided()
    {
      if processes != map[] {
        var k :| k in processes;
        assert !processes[k].y.IntBit?;
      }
    }

    /** `get_state_summary`: one entry per pid with x, y, alive and a copy of
        the state map; it reads and changes nothing else. */
    function StateSummary(): (s: map<Pid, ProcessSummary>)
      reads processes.Values
      ensures s.Keys == processes.Keys
      ensures forall k :: k in s ==>
        s[k].x == processes[k].x && s[k].y == processes[k].y &&
        s[k].alive == processes[k].alive && s[k].state == processes[k].state
    {
      map k | k in processes :: ProcessSummary(processes[k].x, processes[k].y, processes[k].alive, processes[k].state)
    }
  }
}
