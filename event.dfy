/** The event of base/event.py: process `pid` takes one step on `message`.
    The pluggable handler is the Ben-Or handler of protocols/ben_or.py,
    called as `handler(config, process, message)`. */
module Events {
  import opened Common
  import opened Processes
  import opened Configurations
  import opened Logging
  import opened BenOr

  /** How `apply` ends: the KeyError of the lookup, the False of the crashed
      path, the handler's None, or the handler's exception passing through. */
  datatype ApplyOutcome = UnknownPid | SkippedDead | HandlerReturned | HandlerRaised

  /** The message as the log entry holds it. */
  function MessageJson(message: Option<VoteMsg>): Json {
    if message.Some? then JList([JStr(message.value.0), JInt(message.value.1)]) else JNull
  }

  /** The entry logged for a crashed process. */
  function SkippedEntry(pid: Pid): Entry {
    map["type" := JStr("skipped"), "pid" := JStr(pid), "reason" := JStr("process dead")]
  }

  /** The entry logged before the handler runs. */
  function ReceiveEntry(pid: Pid, message: Option<VoteMsg>): Entry {
    map["type" := JStr("receive"), "pid" := JStr(pid), "message" := MessageJson(message)]
  }

  class Event {
    const pid: Pid
    const message: Option<VoteMsg>

    constructor (pid: Pid, message: Option<VoteMsg>)
      ensures this.pid == pid && this.message == message
    {
      this.pid := pid;
      this.message := message;
    }

    /** `apply(config, handler, logger=logger)`, with the handler's coin
        passed in. The live path logs unconditionally, so it needs a logger. */
    method Apply(config: Configuration<VoteMsg>, logger: SimulationLogger?, coin: Bit) returns (outcome: ApplyOutcome)
      requires config.Valid() && config.messageSystem.Valid()
      requires pid in config.processes ==> StateWellTyped(config.processes[pid].state)
      requires pid in config.processes && config.processes[pid].alive ==> logger != null
      modifies config, config.messageSystem, logger
      modifies if pid in config.processes then {config.processes[pid]} else {}
      ensures outcome == UnknownPid <==> pid !in config.processes
      ensures outcome == UnknownPid ==>
        unchanged(config, config.messageSystem) && unchanged(config.processes.Values) &&
        (logger != null ==> unchanged(logger))
      ensures (outcome == SkippedDead <==> pid in config.processes && !config.processes[pid].alive)
      ensures (outcome == SkippedDead ==>
        unchanged(config, config.messageSystem, config.processes[pid]) &&
        (logger != null ==> logger.State() == AfterLogEvent(old(logger.State()), logger.enabled, SkippedEntry(pid))))
      ensures (outcome in {HandlerReturned, HandlerRaised} ==>
        logger != null &&
        logger.State() == AfterLogEvent(old(logger.State()), logger.enabled, ReceiveEntry(pid, message)) &&
        Handled(config, config.processes[pid], message, coin,
                if outcome == HandlerReturned then ReturnedNone else RoundAttributeMissing))
      // the round and the id move together, and only when the handler returned
      ensures (outcome == HandlerReturned ==>
        config.round == old(config.round) + 1 && config.id == ConfigId(config.round))
      ensures outcome != HandlerReturned ==> config.round == old(config.round) && config.id == old(config.id)
    {
      if pid !in config.processes {
        return UnknownPid;
      }
      var process := config.processes[pid];
      if !process.alive {
        if logger != null {
          logger.LogEvent(SkippedEntry(pid));
        }
        return SkippedDead;
      }
      logger.LogEvent(ReceiveEntry(pid, message));
      var handled := Handle(config, process, message, coin);
      if handled == RoundAttributeMissing {
        return HandlerRaised;
      }
      config.round := config.round + 1;
      config.id := ConfigId(config.round);
      outcome := HandlerReturned;
    }
  }
}
