# async-consensus-protocol in Dafny

This project models the core of a small, single-threaded Python simulator of
asynchronous consensus. The simulator is set in the setting of the FLP
impossibility result. It has these parts:

- a message substrate: a dictionary from receiver to a FIFO list;
- process records and a configuration that maps pids to processes;
- an event that lets one process take one step through a pluggable handler;
- a Ben-Or style handler;
- a structured, append-only logger;
- three stand-alone toy protocols, each of which drives events in a given pid
  order:
  - an echo protocol whose decisions are overwritten ("uncorrect");
  - a protocol that counts senders and decides by threshold ("partial correct");
  - a message-based echo protocol.

The simulator's two random draws are inputs of the model:

- The delivery coin `random.random() < 0.7` is a `deliver: bool` argument. A
  whole schedule takes one `delivers: seq<bool>` with one entry per receive.
- The Ben-Or `random.choice([0, 1])` is a `coin: Bit` argument. The model uses
  the second draw, the one stored as the vote at protocols/ben_or.py:46. The
  first draw only reaches the log.

Once the coins are inputs, every operation is deterministic. The model then
follows the code branch by branch.

Modules, one per source file:

- `Channel` (message_system.dfy), for base/message_system.py:
  - `Chan<M>` is the buffer as a value: a map from receiver to queue, plus the
    insertion order of its keys.
  - `SendTo` and `ReceiveFrom` are the pure operations.
  - `Broadcast` and `BroadcastAll` are the send-to-every-other-process loops
    that the protocol files write.
  - Lemmas over arbitrary sequences of operations give FIFO, no loss, and the
    keys created.
  - `class MessageSystem<M>` is the mutable buffer. Each of its methods is
    specified by the pure function it follows.
  - The three toy files use the same class with `M = (Pid, Option<string>)`,
    because their `send` appends `(sender, message)` to the receiver's list.
- `Processes` (process.dfy), for base/process.py: `class Process`.
- `Configurations` (configuration.dfy):
  - `class Configuration<M>`;
  - the class-wide id counter, as an explicit `ConfigCounter` object.
- `Events` (event.dfy): `Event.Apply`. Its handler is the Ben-Or handler.
- `BenOr` (ben_or.dfy):
  - `Step` is the pure effect of one handler call;
  - the methods carry that effect out on a `Process` and on the channel.
- `Logging` (logger.dfy):
  - `class SimulationLogger`;
  - its pure counterparts `AfterLogEvent`, `AfterSnapshot` and `AfterFinal`;
  - `Run`, a fold over a sequence of logger calls.
- `ToyBase` (toy_base.dfy) holds what the two echo protocols share:
  - the process and configuration classes;
  - the y update `EchoDecision`;
  - the event datatype, and the `Generated` relation between a schedule and
    the receives that built it.
- `Uncorrect`, `PartialCorrect` and `MessageBased`: the three toy protocol
  files. `PartialCorrect` also states its configuration as a value, `World`
  (the buffer, each process's input, liveness and tally, `done` and the step
  counter). `EventStep`, `Turn` and `RunFrom` give one event, one loop turn
  and a whole schedule run on that value. The methods are proved to follow
  them, and the lemmas about `RunFrom` hold for every schedule.
- `Common` (common.dfy): `Option`, the `YValue` datatype, substring tests,
  integer-to-text conversion, and the dictionary built from a list of
  processes.

Decisions are held in `YValue = Blank | TextBit(t) | IntBit(i)`:

- `Blank` is the undecided `'b'`;
- `TextBit` is a text `'0'`/`'1'`, the form every protocol stores;
- `IntBit` is an integer 0/1, which is what base/configuration.py tests for.

Python dictionaries keep insertion order, and the broadcast loops follow it.
So each configuration carries `order: seq<Pid>` beside its map.

Exceptions the source raises are modelled as outcomes:

- A missing `process.round` raises an AttributeError at
  protocols/ben_or.py:50. This is the outcome `RoundAttributeMissing`.
- A KeyError on an unknown pid becomes `UnknownPid`, seen by a schedule as
  `Raised`.
- Two toy files pop a `None` payload and then log through `self.pid`. Their
  `MessageSystem` never defines `pid`, so this raises an AttributeError. The
  model returns `NoPayloadRaised`, which keeps what was popped.

The message-based `receive` compares the popped pair with `None`. A pair is
never `None`, so its else-branch (message_based/consensus_protocol.py:50-51)
is unreachable. There, a popped `None` text is simply returned.

## Model

| member | source | states |
|---|---|---|
| Channel.SendTo | base/message_system.py:10-12 | r's queue gains m at its end; every other receiver's queue is unchanged; the key set gains r; well-formedness is kept |
| Channel.ReceiveFrom | base/message_system.py:14-22 | a message comes out iff the coin succeeds on a non-empty queue; what comes out, followed by what stays, is the old queue; a None result changes nothing; no other queue and no key changes |
| Channel.QueueLinesAre | base/message_system.py:34-36 | the inner snapshot loop gives exactly one line per queued message, in queue order, each naming its receiver |
| Channel.AllLinesCount | base/message_system.py:32-37 | the snapshot loop over all receivers gives as many lines as messages are queued, and each is a message line |
| Channel.SnapshotLineCount | base/message_system.py:32-37 | the snapshot is the single empty-buffer line when nothing is queued, and otherwise one message line per queued message |
| Channel.BroadcastQueue | protocols/ben_or.py:53-55 | after sending m to every target but oneself, a queue has gained m exactly when its receiver is a target other than the sender |
| Common.DistinctSplit | protocols/ben_or.py:53-55 | a duplicate-free list is a duplicate-free prefix and a last element not in it, and membership splits the same way |
| Channel.BroadcastLast | protocols/ben_or.py:53-55 | the last target of a broadcast adds m to its own queue, unless it is the sender, and to no other |
| Channel.BroadcastKeys | protocols/ben_or.py:53-55 | the broadcast creates a key for every target other than the sender, and no other key |
| Channel.BroadcastQueues | protocols/ben_or.py:53-55 | the queue and key effects of a broadcast, for all receivers at once |
| Channel.FifoNoLoss | base/message_system.py:10-22 | for any sequence of sends and coin-given receives, what a receiver got, followed by what is still queued for it, equals what was queued before followed by everything sent to it: nothing lost, nothing reordered, nothing invented |
| Channel.DeliveredInSendOrder | base/message_system.py:10-22 | from an empty buffer, what a receiver gets is a prefix of what was sent to it, in send order |
| Channel.ReceiversAreTargets | base/message_system.py:10-30 | only send creates keys: after any operation sequence, the receivers are the old ones plus exactly the send targets |
| Channel.ReceiveAll | input_based/uncorrect_consensus_protocol.py:122-123 | a receive per scheduled pid yields one result per pid |
| Channel.ReceiveAllNoLoss | input_based/uncorrect_consensus_protocol.py:122-125 | over a whole schedule of receives, the messages a receiver got, followed by its remaining queue, are its old queue; receives create no key |
| Channel.BroadcastAllQueue | input_based/uncorrect_consensus_protocol.py:151-154 | after every sender broadcasts, a target's queue has gained the messages of all other senders, in sender order |
| Channel.FromOthersCount | input_based/uncorrect_consensus_protocol.py:151-154 | with distinct senders, a receiver gets one message less than there are senders if it is one of them, and the message of every other sender |
| Channel.SeededCounts | input_based/uncorrect_consensus_protocol.py:151-154 | the initial all-to-all broadcast queues n-1 messages at each process, every process's message at every other process, n(n-1) in total |
| Channel.MessageSystem.constructor | base/message_system.py:7-8 | a new buffer is empty |
| Channel.MessageSystem.Send | base/message_system.py:10-12 | the buffer becomes SendTo of the old buffer |
| Channel.MessageSystem.Receive | base/message_system.py:14-22 | the result and the new buffer are ReceiveFrom of the old buffer and the coin |
| Channel.MessageSystem.SendToOthers | protocols/ben_or.py:53-55 | the send-to-every-other-target loop leaves the buffer at Broadcast of the old one |
| Channel.MessageSystem.SendAllToOthers | input_based/uncorrect_consensus_protocol.py:151-154 | the nested seeding loop leaves the buffer at BroadcastAll of the old one |
| Channel.MessageSystem.PeekBuffer | base/message_system.py:24-27 | a non-empty receiver name gives its queue (or []), whose head is what a successful receive returns; no receiver or the falsy empty name gives the whole map; nothing changes |
| Channel.MessageSystem.AllReceivers | base/message_system.py:29-30 | the receivers are listed without duplicates, exactly the buffer's keys, in the buffer's insertion order |
| Channel.MessageSystem.Snapshot | base/message_system.py:32-37 | the lines are the snapshot of the current buffer, whose count SnapshotLineCount gives |
| Common.Digit | input_based/uncorrect_consensus_protocol.py:154 | a decimal digit is the character of its value |
| Common.NatToString | input_based/uncorrect_consensus_protocol.py:154 | the decimal text of a natural number is non-empty, all digits, and one character long iff the number is below 10 |
| Common.IntToString | input_based/uncorrect_consensus_protocol.py:154 | the text of an integer is the decimal text of its value, with a leading '-' for a negative number |
| Common.NatToStringValue | input_based/uncorrect_consensus_protocol.py:154 | reading the decimal text of a natural number back, digit by digit with the most significant first, gives the number |
| Common.NatToStringInjective | base/configuration.py:7 | different numbers have different decimal texts |
| Common.ZipByKeyLast | base/configuration.py:10 | the dictionary `{p.pid: p for p in ps}` has exactly the pids as keys, and each key maps to the last process carrying it |
| Common.FirstOccurrencesKeys | base/configuration.py:10 | the dictionary's key order lists each pid once, in order of first appearance |
| Common.ZipByKeyFrom | base/configuration.py:10 | every value of the dictionary is the value paired with one of its key's occurrences |
| Common.ZipByKeySameIndex | base/configuration.py:10 | two dictionaries built from one pid list have the same keys, and each key picks both values at the same index |
| Common.KeyBy | base/configuration.py:10 | the built dictionary and order are the pure ones; the order is duplicate-free with the same keys; every entry comes from the list |
| Processes.Process.constructor | base/process.py:4-10 | the new process has the given pid and x, is undecided, is alive iff `live` (default true), and has an empty state, pc 0 and no round |
| Configurations.ConfigCounter.constructor | base/configuration.py:4 | the class counter starts at 0 |
| Configurations.ConfigIdInjective | base/configuration.py:7-8 | different counter values give different ids, so successive configurations have distinct ids |
| Configurations.PidsOf | base/configuration.py:10 | the pids of the process list, position by position |
| Configurations.KeyedByPid | base/configuration.py:10 | the configuration's keys are exactly the pids of the list, and its key order is duplicate-free |
| Configurations.Configuration.constructor | base/configuration.py:6-12 | the id is "C" plus the old counter, and the counter goes up by one; processes are keyed by pid, a later duplicate winning; round is 0 |
| Configurations.Configuration.DecisionValues | base/configuration.py:15-16 | exactly the y values equal to the integer 0 or 1: a subset of {0, 1}, containing each such y and nothing else |
| Configurations.Configuration.AllDecidedHasValue | base/configuration.py:39-40 | when every process has decided and there is one, some decision value is reported |
| Configurations.Configuration.TextDecisionsInvisible | base/configuration.py:15-16 | decisions stored as text '0'/'1' are not seen: no decision values, and not all decided |
| Configurations.Configuration.StateSummary | base/configuration.py:28-37 | one summary per pid of the configuration, holding that process's x, y, alive and a copy of its state |
| Events.Event.constructor | base/event.py:4-6 | the event holds the given pid and message |
| Events.Event.Apply | base/event.py:8-39 | an unknown pid raises and changes nothing; a crashed process is logged as skipped (when there is a logger) and nothing else changes; a live process is logged as a receive, the handler's effect is exactly Step's, and round and id advance together by one only when the handler returns |
| BenOr.Step | protocols/ben_or.py:5-57 | a decided process only gets vote and seen initialised; y changes only from undecided to '0'/'1', at n-1 pairs, on a strict majority, 0 first; conversely a strict majority at n-1 pairs decides that bit and votes for it; the vote is the decided value after a decision, and otherwise the coin; round moves by one, and seen empties, iff the threshold is met; a missing round raises there, leaving the collected pairs, no round and no broadcast; every call that gets past the early return and the round step broadcasts |
| BenOr.CountsWithinSeen | protocols/ben_or.py:29-30 | the 0-votes and 1-votes counted in seen never exceed the pairs in seen |
| BenOr.MajorityUnambiguous | protocols/ben_or.py:34-43 | while seen stays below the threshold, both values never have a strict majority at once, and a returning call keeps seen below it |
| BenOr.DecisionWriteOnce | protocols/ben_or.py:15-18 | over any sequence of handler calls, a '0'/'1' decision never changes, the round never decreases, and a missing round stays missing |
| BenOr.InitState | protocols/ben_or.py:9-13 | vote becomes x and seen the empty set, each only if absent; nothing else changes |
| BenOr.StepAfterInit | protocols/ben_or.py:9-13 | the initialisation is idempotent: after it, a handler call has the same effect as before it |
| BenOr.CollectAndDecide | protocols/ben_or.py:20-51 | an undecided process's y, round and state become those Step gives |
| BenOr.StateWrites | protocols/ben_or.py:23-51 | writing seen and then vote into a well-typed state gives the state with that vote and that seen set, whatever the order of the writes |
| BenOr.UpdateProcess | protocols/ben_or.py:9-51 | the process's y, round and state become those Step gives; alive and pc are kept |
| BenOr.Handle | protocols/ben_or.py:5-57 | the process and the channel end exactly as Step says, the vote broadcast to every other pid when Step broadcasts |
| Logging.AfterLogEvent | utils/logger.py:12-19 | disabled: no change; enabled: the counter goes up by one and one entry is appended, holding the event's keys and values plus "step", stamped with the new counter unless the event has its own "step" |
| Logging.AfterSnapshot | utils/logger.py:21-27 | the counter is kept; enabled, one snapshot entry stamped with the current counter is appended |
| Logging.FinalText | utils/logger.py:34 | the final message is never empty, and is the argument when that is a non-empty text |
| Logging.AfterFinal | utils/logger.py:29-35 | the counter is kept; enabled, one final entry stamped counter+1 is appended |
| Logging.AppendOnly | utils/logger.py:12-35 | any sequence of calls appends at most one entry per call and never changes earlier entries; the counter grows by the number of events only when enabled; a disabled logger never changes |
| Logging.StepsCountUp | utils/logger.py:14-19 | successive events without their own "step" are stamped k+1, k+2, … |
| Logging.SimulationLogger.constructor | utils/logger.py:7-10 | a new logger has no entries and a zero counter |
| Logging.SimulationLogger.LogEvent | utils/logger.py:12-19 | the logger's state becomes AfterLogEvent of the old state |
| Logging.SimulationLogger.Snapshot | utils/logger.py:21-27 | the logger's state becomes AfterSnapshot of the old state |
| Logging.SimulationLogger.Final | utils/logger.py:29-35 | the logger's state becomes AfterFinal of the old state |
| Logging.SimulationLogger.ExportAsDict | utils/logger.py:37-38 | the entries are returned unchanged |
| ToyBase.SendPacket | input_based/uncorrect_consensus_protocol.py:33-36 | the buffer becomes SendTo of the old one, with the (sender, message) pair |
| ToyBase.EchoProcess.constructor | input_based/uncorrect_consensus_protocol.py:17-24 | the new process has the given pid and x, is undecided, alive, pc 0, with no last message |
| ToyBase.EchoPids | input_based/uncorrect_consensus_protocol.py:71 | the pids of the process list, position by position |
| ToyBase.EchoConfig.constructor | input_based/uncorrect_consensus_protocol.py:67-72 | step counter 0 and id "C0"; processes are keyed by pid, a later duplicate winning, and come from the list |
| ToyBase.EchoConfig.DecisionValues | input_based/uncorrect_consensus_protocol.py:74-75 | exactly the y values that are text '0' or '1' |
| ToyBase.EchoConfig.CollectDecisionValues | message_based/consensus_protocol.py:76-81 | the accumulating loop returns exactly DecisionValues |
| ToyBase.EchoConfig.DecisionValuesOf | message_based/consensus_protocol.py:76-81 | the decision values depend only on the map from pid to y |
| ToyBase.EchoConfig.StepApplied | input_based/uncorrect_consensus_protocol.py:84-86 | the step counter goes up by one |
| ToyBase.EchoDecision | input_based/uncorrect_consensus_protocol.py:103-106 | a text with a '0' gives '0'; else one with a '1' gives '1'; else y is kept |
| ToyBase.LastDigitDecides | input_based/uncorrect_consensus_protocol.py:103-106 | after a sequence of texts, y is kept if no text has a digit, and is otherwise decided by the last text that has one |
| ToyBase.DecisionsAreOverwritten | input_based/uncorrect_consensus_protocol.py:103-106 | y is not write-once: "val=0" then "val=1" ends at '1', and "val=0" overwrites a '1' |
| ToyBase.GeneratedEvents | input_based/uncorrect_consensus_protocol.py:122-125 | a schedule generated against a buffer has, at each position, the scheduled pid and the text that receive returned there |
| ToyBase.Ys | input_based/uncorrect_consensus_protocol.py:71 | the map from pid to y has exactly the configuration's pids as keys |
| ToyBase.Alives | input_based/uncorrect_consensus_protocol.py:71 | the map from pid to liveness has exactly the configuration's pids as keys |
| ToyBase.RanStart | input_based/uncorrect_consensus_protocol.py:128-130 | before any event, every process is at its start y and liveness, and the counter at its start |
| ToyBase.TrackStep | input_based/uncorrect_consensus_protocol.py:94-106 | one event keeps a process at the rule over the texts handed to it so far: only the event's own live process changes, by one more text |
| Uncorrect.ReceiveText | input_based/uncorrect_consensus_protocol.py:41-55 | the queue changes as ReceiveFrom says; a text comes back iff the coin succeeds on a queue whose head has one; a popped None text raises; otherwise nothing changes |
| Uncorrect.ReceiveTextFrom | input_based/uncorrect_consensus_protocol.py:41-55 | the result and the new buffer are ReceiveText of the old buffer |
| Uncorrect.YText | input_based/uncorrect_consensus_protocol.py:111 | y as text: "b" exactly for undecided, else its digit |
| Uncorrect.ApplyEvent | input_based/uncorrect_consensus_protocol.py:93-113 | the step counter goes up by one first; an unknown pid raises; a crashed process or no message changes no process and sends nothing; a message sets last_msg and y by EchoDecision, then broadcasts "echo: val=" plus the new y to every other process; no other process changes |
| Uncorrect.ReceiveNext | input_based/uncorrect_consensus_protocol.py:122-124 | one receive of the schedule loop either raises at that position or extends the receives so far by one |
| Uncorrect.UncorrectSchedule.constructor | input_based/uncorrect_consensus_protocol.py:116-117 | a new schedule has no events |
| Uncorrect.UncorrectSchedule.GenerateFromConfig | input_based/uncorrect_consensus_protocol.py:119-126 | events are replaced by one per scheduled pid, each the result of that pid's receive in order, before any event is applied, and the buffer ends as those receives leave it; a popped None text stops it with the events so far |
| Uncorrect.UncorrectSchedule.Run | input_based/uncorrect_consensus_protocol.py:128-140 | events are applied in order, all of them unless an unknown pid raises at the last one applied; each applied event counts one step; no process dies or revives; a live process ends at EchoAll of its start y over the texts the applied events handed it, a dead one at its start y |
| Uncorrect.TrackedApply | input_based/uncorrect_consensus_protocol.py:131-133 | one applied event extends the tracked run by one event; the outcome is UnknownPid iff the pid is not a key |
| Uncorrect.Build | input_based/uncorrect_consensus_protocol.py:145-154 | new processes, buffer and configuration, with counter 0 and the buffer at BroadcastAll of every process's seed |
| Uncorrect.Seeds | input_based/uncorrect_consensus_protocol.py:151-154 | each process's seed message is "val=" plus its x |
| Uncorrect.SeedInputs | input_based/uncorrect_consensus_protocol.py:151-154 | the seeding loop leaves the buffer at BroadcastAll of every process's seed, in key order |
| Uncorrect.MakeProcesses | input_based/uncorrect_consensus_protocol.py:145 | one new process per (pid, x) pair, in order, undecided and alive |
| Uncorrect.SimulateInputBasedRun | input_based/uncorrect_consensus_protocol.py:143-161 | the assembled run ends in a consistent configuration and, when it finishes, has applied one step per scheduled pid |
| PartialCorrect.InputProcess.constructor | input_based/partial_correct_protocol.py:7-13 | the new process has the given pid and x, is undecided, has no senders and sum 0, and is alive iff `live` |
| PartialCorrect.ReceivePacket | input_based/partial_correct_protocol.py:29-43 | the queue changes as ReceiveFrom says; the (sender, text) pair comes back iff the coin succeeds on a queue whose head has a text; a popped None text raises; otherwise nothing changes |
| PartialCorrect.ReceivePacketFrom | input_based/partial_correct_protocol.py:29-43 | the result and the new buffer are ReceivePacket of the old buffer |
| PartialCorrect.InputPids | input_based/partial_correct_protocol.py:59 | the pids of the process list, position by position |
| PartialCorrect.InputConfig.constructor | input_based/partial_correct_protocol.py:56-62 | step counter 0, id "C0", done 0, processNum the list's length, processes keyed by pid |
| PartialCorrect.InputConfig.DecisionValues | input_based/partial_correct_protocol.py:64-65 | exactly the y values that are text '0' or '1' |
| PartialCorrect.InputConfig.StepApplied | input_based/partial_correct_protocol.py:74-76 | the step counter goes up by one and done is kept |
| PartialCorrect.React | input_based/partial_correct_protocol.py:93-114 | no message or a known sender changes nothing; a new sender is appended, its '1' adds one to sum, and an echo is due; the decision fires iff the new sender list reaches n-1, and is '1' iff sum + x > n//2, else '0'; without it y is kept |
| PartialCorrect.ReactKeepsConsistent | input_based/partial_correct_protocol.py:96-100 | the sender list stays duplicate-free, and sum never exceeds its length |
| PartialCorrect.ReactAllCountsSenders | input_based/partial_correct_protocol.py:96-100 | over a sequence of messages, the sender set grows by exactly the senders of the messages and stays consistent |
| PartialCorrect.SendersInSnoc | input_based/partial_correct_protocol.py:96-100 | the senders of a message list are those of all but the last message, plus the last one's |
| PartialCorrect.ReactSenders | input_based/partial_correct_protocol.py:96-100 | one reaction adds the message's sender to the sender set and no other, and the list grows by at most one |
| PartialCorrect.InputEvent.constructor | input_based/partial_correct_protocol.py:79-81 | the event holds the given pid and message |
| PartialCorrect.InputProcess.Absorb | input_based/partial_correct_protocol.py:96-109 | the process's new tally and the decided and echo flags are React of its old tally; alive and pc are kept |
| PartialCorrect.Absorbed | input_based/partial_correct_protocol.py:93-114 | a live process's event changes only that process, whose tally becomes React's; x, alive and the step count are kept; done grows by at most one |
| PartialCorrect.EventStep | input_based/partial_correct_protocol.py:83-118 | the step is always counted; an unknown or crashed pid, or no message, changes nothing else; only the stepping process can change; nobody's input or liveness changes |
| PartialCorrect.InputEvent.Deliver | input_based/partial_correct_protocol.py:96-114 | a live process's reaction leaves the configuration at Absorbed of the old one: React's tally, done bumped iff it decided, "echo: " plus the text to every other process iff the sender was new |
| PartialCorrect.InputEvent.Apply | input_based/partial_correct_protocol.py:83-118 | the step counter goes up by one first; the outcome is UnknownPid iff the pid is not a key, Skipped iff the process is crashed; the new configuration is EventStep of the old one |
| PartialCorrect.InputEvent.Touch | input_based/partial_correct_protocol.py:96-109 | the process's tally and the decided and echo flags become React of its old tally; only its entry of the configuration changes, and its liveness is kept |
| PartialCorrect.InputEvent.Announce | input_based/partial_correct_protocol.py:101-114 | done goes up by one iff the process decided; when an echo is due, "echo: " plus the text goes to every other pid, and the buffer is otherwise unchanged |
| PartialCorrect.InputSchedule.constructor | input_based/partial_correct_protocol.py:121-122 | a new schedule has an empty process order |
| PartialCorrect.InputSchedule.GenerateProcessOrder | input_based/partial_correct_protocol.py:124-125 | the process order is the given sequence |
| PartialCorrect.TakeTurn | input_based/partial_correct_protocol.py:135-140 | one receive and its event leave the configuration at Turn of the old one, which raises for a popped None text or an unknown pid; the step is counted iff the event was applied |
| PartialCorrect.RunFromTurn | input_based/partial_correct_protocol.py:134-140 | a run from position i takes pid i's turn and goes on from position i+1, or stops there when the turn raises |
| PartialCorrect.RunFromStops | input_based/partial_correct_protocol.py:134-136 | a run with no pid left, or with done at the process count, stops where it is, finished |
| PartialCorrect.Advance | input_based/partial_correct_protocol.py:134-140 | one pass of the loop body leaves the configuration where RunFrom from position i says: raised, or ready to go on from position i+1 |
| PartialCorrect.InputSchedule.Run | input_based/partial_correct_protocol.py:131-147 | the final configuration and the outcome are RunFrom of the initial configuration over the process order and the coins: turns are taken in order until a turn raises or done reaches the process count, and the step count is the one that run reaches |
| PartialCorrect.RunFromFrame | input_based/partial_correct_protocol.py:131-147 | a run keeps the set of processes, every input and every liveness flag, and leaves a crashed process's tally as it was |
| PartialCorrect.RunFromCounters | input_based/partial_correct_protocol.py:134-140 | done never decreases and grows by at most one per scheduled pid; steps grow by at most one per pid; a finished run with fewer steps than pids had done reach the process count |
| PartialCorrect.RunFromConsistent | input_based/partial_correct_protocol.py:131-147 | if every tally is consistent before a run, every tally is consistent after it |
| PartialCorrect.MakeProcesses | input_based/partial_correct_protocol.py:151-156 | one new process per input entry, alive unless a triple says otherwise |
| PartialCorrect.Seeds | input_based/partial_correct_protocol.py:163-166 | each process's seed message is "val=" plus its x |
| PartialCorrect.ValuePids | input_based/partial_correct_protocol.py:151-156 | the pids of the input entries, position by position |
| PartialCorrect.FreshAll | input_based/partial_correct_protocol.py:151-156 | the new processes of the input entries, position by position |
| PartialCorrect.StartShape | input_based/partial_correct_protocol.py:151-159 | the starting configuration has exactly the input pids as keys, every tally empty, done and the step counter 0 |
| PartialCorrect.StartLocals | input_based/partial_correct_protocol.py:151-159 | the configuration built from the new processes holds exactly the processes of the pure start |
| PartialCorrect.Build | input_based/partial_correct_protocol.py:151-166 | the processes, the configuration and the seeding leave a configuration equal to the pure start |
| PartialCorrect.SeedInputs | input_based/partial_correct_protocol.py:163-166 | the seeding loop leaves the buffer at BroadcastAll of every process's seed, in key order |
| PartialCorrect.SimulateRun | input_based/partial_correct_protocol.py:149-173 | the final configuration and outcome are RunFrom of the start built from the inputs, over the schedule and the coins; the configuration is consistent, with one process slot per input entry and the pids in order of first appearance |
| PartialCorrect.StartRunInvariants | input_based/partial_correct_protocol.py:149-173 | for every schedule and every coin sequence, a simulated run ends with one process per input pid, every tally consistent, and every process created crashed still without senders or a decision |
| MessageBased.ReceivePayload | message_based/consensus_protocol.py:41-57 | the queue pops its head iff the coin succeeds on a non-empty queue, and is otherwise unchanged; the head's text, without its sender, comes back iff there is one |
| MessageBased.ReceivePayloadFrom | message_based/consensus_protocol.py:41-57 | the result and the new buffer are ReceivePayload of the old buffer |
| MessageBased.ReceiptParts | message_based/consensus_protocol.py:39 | the receipt starts with the sender, ends with " [sent]", and holds the message text between; a None message reads "None" |
| MessageBased.SendWithReceipt | message_based/consensus_protocol.py:33-39 | (sender, message) is appended to the receiver's queue, and the receipt is returned |
| MessageBased.ApplyEvent | message_based/consensus_protocol.py:99-120 | the step counter goes up by one first; an unknown pid raises; a crashed process or no message changes nothing else; a message sets last_msg, broadcasts "echo:" plus the message before y is updated, and sets y by EchoDecision; no other process changes |
| MessageBased.MessageSchedule.constructor | message_based/consensus_protocol.py:123-124 | a new schedule has no events |
| MessageBased.MessageSchedule.GenerateFromConfig | message_based/consensus_protocol.py:126-133 | events are replaced by exactly one per scheduled pid, each the text of that pid's receive in order, and the buffer ends as those receives leave it |
| MessageBased.NextEvent | message_based/consensus_protocol.py:129-132 | one receive of the generating loop extends the generated events by that pid's text and the buffer by that receive |
| MessageBased.MessageSchedule.Run | message_based/consensus_protocol.py:135-146 | events are applied in order, all of them unless an unknown pid raises at the last one applied, every earlier pid being known; each applied event counts one step; no process dies or revives; a live process ends at EchoAll of its start y over the texts the applied events handed it, a dead one at its start y |
| MessageBased.TrackedApply | message_based/consensus_protocol.py:138-140 | one applied event extends the tracked run by one event; the outcome is UnknownPid iff the pid is not a key, and otherwise every pid so far is known |
| MessageBased.Schedule | message_based/consensus_protocol.py:126-133 | the schedule has one event per pid of the order, each for that pid |
| MessageBased.RunDecisions | message_based/consensus_protocol.py:169-187 | the run raises (None) iff the order names a pid other than P1, P2, P3; otherwise its decision values are text '0'/'1' |
| MessageBased.SendInitial | message_based/consensus_protocol.py:179-180 | the initial sends leave the buffer at Seeded of the initial messages |
| MessageBased.InitialConfiguration | message_based/consensus_protocol.py:171-180 | three new, alive, undecided processes P1, P2, P3, and a buffer holding the initial messages |
| MessageBased.UnknownPidRaises | message_based/consensus_protocol.py:101 | a scheduled pid outside P1, P2, P3 makes the run raise |
| MessageBased.SimulateMessageBasedRun | message_based/consensus_protocol.py:169-187 | the imperative run returns exactly RunDecisions of its inputs |
| MessageBased.Prepare | message_based/consensus_protocol.py:170-184 | three new processes P1, P2, P3, alive at y blank, counter 0, and the schedule generated from the seeded buffer |
| MessageBased.StartBlank | message_based/consensus_protocol.py:171-173 | new processes give an all-blank y map and an all-alive liveness map |
| MessageBased.FinishedRun | message_based/consensus_protocol.py:138-140 | a run through every event from all-alive blank processes leaves each process at EchoAll over the texts handed to it |
| MessageBased.ReadDecisions | message_based/consensus_protocol.py:187 | the decision values read from the final configuration are RunDecisions of the inputs |
| MessageBased.DecisionsOfThree | message_based/consensus_protocol.py:76-81 | the decision set over P1, P2, P3 is the union of each one's decision |
| MessageBased.DecidedOfThree | message_based/consensus_protocol.py:76-81 | a decision set over P1, P2, P3 is the union of the three processes' decisions, for any assignment of y values |
| MessageBased.OneDeliveredSchedule | message_based/consensus_protocol.py:191-192 | one text from P1 to a, fully delivered over the order a, b, b: a gets the text, and both of b's receives find nothing |
| MessageBased.OneDeliveredDecides | message_based/consensus_protocol.py:191-192 | with that schedule, the run decides exactly the decision of the text, at a alone |
| MessageBased.FinalDecisions | message_based/consensus_protocol.py:76-81 | when each process ends at EchoAll over its texts, the result is the set of their text decisions |
| MessageBased.BivalentWhenDelivered | message_based/consensus_protocol.py:190-196 | when every receive is delivered, the two runs of the bivalence test decide {'0'} and {'1'}: the initial configuration is bivalent |
| MessageBased.UndecidedWhenNothingDelivered | message_based/consensus_protocol.py:41-57 | when no receive is delivered, the run either raises or decides nothing |

## Left out

- Rendering and animation: utils/visualizer.py and the frame-drawing code of
  input_based/partial_correct_protocol.py. These are UI code and
  floating-point geometry.
- Log text:
  - the text of every `log.append`, `__repr__` and `snapshot` string beyond
    the line structure `Channel.SnapshotOf` keeps;
  - `Configuration.snapshot` and the toy files' `snapshot` methods, which
    only format text;
  - `export_as_json` and `print_log`, which are file and console I/O.
- `SimulationLogger.export_as_dict` returns the entry list itself, which
  callers could alias and mutate. The model returns the entries as a value.
- The probabilities, the 0.7 threshold and any seeding. Every draw is an
  input, so probabilistic termination is not stated.
- main.py and the demo drivers:
  - `show_partial_correct_protocol` and `show_contradiction_for_LEMMA2`;
  - `message_based_basic_run`;
  - the print-only `bivalent_test_*` functions;
  - these only draw schedules at random and print. The message-based
    bivalence test is stated as `MessageBased.BivalentWhenDelivered`.
- Unreachable code: message_based/consensus_protocol.py lines 188 and 201-241.
- The `doen` field of base/configuration.py:13. It is set and never read.
- How base/event.py and protocols/ben_or.py fit together. As written, they do
  not compose. The model picks one reading for each mismatch:
  - `Event.Apply` calls the handler with only `(config, process, message)`.
    The keywords of base/event.py:31-35 are not modelled.
  - The three-argument `send` of protocols/ben_or.py:55 is read as sending
    `(pid, vote)` to the target.
  - `process.round` is never initialised. It is a `round: Option<int>`
    field, `None` at construction. Its AttributeError at line 50 is the
    `RoundAttributeMissing` outcome, and the mutations made before it are
    kept.
- Requirements on callers:
  - `StateWellTyped`: the state map holds an integer under "vote" and a set
    of pairs under "seen". Python does not check this.
  - A logger must be given on the live path of `Event.Apply`. Without one,
    base/event.py:24 raises. This is a precondition, not an outcome.
- The event classes of the two echo protocols are the value
  `ToyBase.EchoEvent`, and `PartialCorrect.InputEvent` has constant fields.
  No code changes an event after construction.
- Global agreement, validity and termination of the assembled system. No file
  promises them, and the pieces do not compose as written.
- Uncorrect.SimulateInputBasedRun: returns the final configuration and
  outcome instead of the joined log text, which is presentation. It states
  only consistency and the step count. Each process's final y is stated by
  `Uncorrect.UncorrectSchedule.Run`, which it calls.
- PartialCorrect.SimulateRun: returns the final configuration instead of the
  joined log text.
- Channel.MessageSystem.PeekBuffer, Configurations.Configuration.StateSummary,
  Logging.AfterSnapshot: these return or store values, so the model has no
  shared references. In the source, `peek_buffer` returns a receiver's live
  list, or a new dict holding the live lists. `get_state_summary` copies
  each state dict one level deep only, so the `seen` set stays shared, and
  protocols/ben_or.py:22 changes it in place. The logger keeps the summary
  object itself. In the source an earlier peek or logged snapshot can
  therefore change later; in the model it cannot.
- Integer widths: Python integers are unbounded, and so are the model's.
