/** The process record of base/process.py. */
module Processes {
  import opened Common

  /** What the Ben-Or handler keeps in `process.state`: the vote (an int)
      and the set of (sender, value) pairs seen in the current round. */
  datatype StateValue = IntValue(i: int) | PairSet(pairs: set<(Pid, int)>)

  class Process {
    const pid: Pid
    /** The input value; no code in the repository reassigns it. */
    const x: int
    var y: YValue
    var alive: bool
    var state: map<string, StateValue>
    var pc: int
    /** `process.round`, an attribute the constructor never creates and
        protocols/ben_or.py:50 increments; None stands for "absent". */
    var round: Option<int>

    constructor (pid: Pid, inputValue: int, live: bool := true)
      ensures this.pid == pid && x == inputValue
      ensures y == Blank && alive == live
      ensures state == map[] && pc == 0 && round == None
    {
      this.pid := pid;
      x := inputValue;
      y := Blank;
      alive := live;
      state := map[];
      pc := 0;
      round := None;
    }
  }
}
