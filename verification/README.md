# A verified model of the thread-to-simulator bridge

The repository connects client code on a processor board to a SystemC model of a device. An operating-system
thread reads requests from a socket and hands them, through a thread-safe channel, to a SystemC process, which
carries them out on the device and hands the response back through the same channel. This project models that
bridge in Dafny, on every interleaving of the two threads, and proves that it behaves like a plain sequential
loop over the register file. It also proves exactly when a request that was read is never answered.

Two smaller protocols of the repository are modelled as well: the interrupt monitor of the driver, and the
reclassification and accounting of report messages.

## The files

| file | contents |
|---|---|
| `Tlmx.dfy` | packets, commands, statuses, fixed-width numbers |
| `Device.dfy`, `DeviceLaws.dfy` | the device: its transports on objects, their specification, laws of that specification |
| `Machine.dfy` | the sequential loop over the register file: what the bridge is meant to be; last-write history |
| `RequestLaws.dfy` | what each command does, in plain numbers; a store is read back |
| `Channel.dfy` | the channel class, each operation proved against a function on the channel's fields |
| `ChannelSteps.dfy` | the same operations cut at every mutex operation, two threads, arbitrary calls; safety and blocking |
| `Adaptor.dfy` | the body of the initiator's loop on objects: payload, packet, channel and device |
| `Bridge.dfy` | the whole bridge as one step function: both threads, kernel phases, channel, shared packets, device |
| `BridgeSafety.dfy`, `BridgeRefinement.dfy`, `BridgeTime.dfy`, `BridgeProgress.dfy` | what every step keeps |
| `BridgeTheorems.dfy`, `BridgeDelay.dfy` | the results about all runs: refinement, hand-over, simulated time |
| `BridgeAnswers.dfy` | which requests can still be answered, and which waits of the OS thread end |
| `BridgeRuns.dfy` | runs in which a request is answered, its response is missed, or it is cut off by a stop |
| `InterruptMonitor.dfy` | `dev_wait` against `interrupt_server` |
| `Report.dfy`, `ReportSummary.dfy`, `ReportLaws.dfy` | composing, reclassifying and counting report messages, and what is shown in the words that stand there |

## How the bridge is modelled

A state holds the owner of each of the four channel mutexes, the two queues, the three flags, the pending
events, both threads' program counters, the packets in memory, the data buffer that all packets of the OS
thread share, the registers, the keep-alive signal with its current and next value, the phase of the
simulation kernel and simulated time. A packet in a queue is a pointer (a position in the table of packets);
both threads read and write through it, so payload exclusion is a theorem and not an assumption.

`Bridge.Next` gives the one successor for each choice of who moves: the OS thread by one mutex operation or
one stretch between two of them, SystemC likewise, a request that arrives, or a stop signal. A run is a
sequence of such choices that are all possible; a theorem about all of them is a theorem about all
interleavings. The kernel's phases are evaluate, update, delta notification and time advance, as in section
4.2.1 of IEEE 1666-2011; an asynchronous update request is answered by `update` in the next update phase,
as in section 5.15.

The same operations appear at two grains. The class `TlmxChannel` has the source's fields and runs each
operation undisturbed, against functions such as `Pushed` and `Pulled`; the step functions `OsStep` and
`ScStep` let the other thread in at each mutex operation; the lemmas `StepsOf...` prove that the steps,
undisturbed, add up to the same functions.

## Where the code is not what one may expect

The model follows the code in each of these, and the cited lemma states the consequence.

- A write request (`TLMX_WRITE`) is carried out as a read, `sysc/async_adaptor.cpp:364`. Only debug writes store:
  `OnlyDebugWritesStore`. An unknown command repeats the command left in the reused payload,
  `sysc/async_adaptor.cpp:368`, and is modelled so: see `Effective`.
- The wake-up in `nb_put` is an unlock followed by a lock. If the lock comes before the OS thread has had the mutex,
  because it has not come to `wait_for_put` yet or is overtaken there, the response stays in the queue for good.
  This is the predicate `Missed`. `HowItIsMissed` gives the one step that leads into it, `ResponseCanBeMissed` a run.
- After a stop request a request can also be cut off: the put event or the end of `wait(delay)` does not come before
  `sc_stop` ends the simulation. This is the predicate `CutOff`; `ResponseCanBeCutOff` gives a run. Together:
  `AnsweredUnlessLost` proves that a request that was read can still be answered exactly when it is neither missed nor
  cut off, and `WaitsForEverIsHopeless` that the OS thread is blocked for ever exactly when it waits for such a response.
- The comment above the burst check speaks of transfers within the memory size; the check itself, with `>=`,
  refuses every burst that ends with the last register: `LastRegisterIsOutOfReach`.
- The driver's interrupt flag is never taken down, so after the first interrupt `dev_wait` no longer waits:
  `LaterWaitsDoNotSleep`, `SleepsOnlyBeforeTheFirst`.
- The summary adds fatalities and errors, less the adjustments, before it compares with 0, so an expected error that
  did not occur makes up for a fatality: `VerdictIs` and `VerdictIsRight` give the exact condition, `FatalCanPass` a run.
- `adjust_unexpected_warnings` and `adjust_unexpected_errors` change the expected counts; the unexpected ones stay 0
  (`WarningsAddUp`, `AdjustmentsAddUp`).
- A note whose text contains a debug tag is counted as a debug message: `NoteCounts`.

## Model

| member | source | states |
|---|---|---|
| BridgeTheorems.BridgeRefinesMachine | sysc/async_adaptor.cpp:245-402 | on every interleaving, with stop signals at any time, the responses sent are in order a prefix of the sequential machine's responses to the requests that arrived, lacking at most the last |
| BridgeTheorems.EveryExchange | sysc/async_adaptor.cpp:266-318 | each response sent is the machine's reply to its request in the state the requests before it left; it has that request's header and as much data, which is the header's data length, so whatever depends on that length alone, as the packed size, is the same; the client's call returns 0 exactly when the device accepts the request |
| BridgeTheorems.QuietBridgeIsMachine | sysc/async_adaptor.cpp:386-400 | whenever the OS thread is back at its read, the registers are the sequential machine's, and simulated time is the sum of the bursts' delays while no stop was requested |
| BridgeTheorems.ReachableIsGood | sysc/async_adaptor.cpp:245-422 | every state of every run satisfies the whole invariant: control, refinement, liveness of the simulator, clock |
| BridgeSafety.NextKeepsControl | sysc/tlmx_channel.cpp:47-165 | each step of either thread, the kernel and the environment keeps exactly one request in flight, in exactly one place, with exactly one wake-up on its way or used |
| BridgeRefinement.NextRefines | sysc/async_adaptor.cpp:264-400 | each step keeps the refinement relation between the concurrent state and the sequential machine |
| BridgeRefinement.TransactRefines | sysc/async_adaptor.cpp:355-389 | carrying out the packet found through the shared pointer does to device, payload command and buffer what the machine does with the latest request |
| BridgeRefinement.SendRefines | sysc/async_adaptor.cpp:293-307 | what the OS thread packs from memory after `nb_pull` is the machine's response to the latest request |
| BridgeTime.NextKeepsAlive | sysc/async_adaptor.cpp:340-343 | each step keeps: the keep-alive signal, or its pending update or change event, says that the initiator waits, and the keep-alive process is never left waiting for a change that cannot come |
| BridgeTime.NextKeepsClock | sysc/async_adaptor.cpp:384-386 | each step keeps: simulated time is the machine's time before or after the latest request, or the initiator is in the delay between the two |
| BridgeTheorems.BatonSafety | sysc/async_adaptor.cpp:286-295 | if the OS thread owns the put mutex then SystemC is between unlock and lock of `nb_put` and a response is queued; the pull that follows finds it, and "Missing response" is unreachable |
| BridgeTheorems.OneWakePerRequest | sysc/async_adaptor.cpp:279-352 | every push finds an empty queue and a lowered flag; its put event finds the initiator waiting; no event is lost; `nb_get` after the event always gets the latest packet |
| BridgeTheorems.TransportWaits | sysc/async_adaptor.cpp:373-389 | in every reachable state the initiator goes on at once from a debug access, waits 10 ns for each word of an accepted burst, and waits for the next delta after any other |
| BridgeTheorems.ExitEndsTheLoop | sysc/async_adaptor.cpp:270-273 | an exit command ends the OS thread's loop with nothing pushed or sent |
| BridgeTheorems.ExitIsFinal | sysc/async_adaptor.cpp:270-326 | after that it neither reads nor sends in any run |
| BridgeTheorems.ChannelIsSafe | sysc/tlmx_channel.cpp:47-165 | in the bridge nothing is lost, duplicated or reordered, no notification is lost, at most one packet is queued in all, `m_sysc_did_put` is up exactly while a response is queued, and both events are pending only between update and delta notification |
| BridgeTheorems.NextIsChannelStep | sysc/async_adaptor.cpp:245-402 | every step of the bridge is a step of the channel under two unconstrained callers, or leaves the channel alone, so whatever holds of all runs of the channel holds in the bridge |
| BridgeTheorems.PayloadExclusion | sysc/tlmx_channel.cpp:47-137 | never are both threads about to touch the shared packet or buffer; each does so only while the packet is its own or while it holds the queue's mutex |
| BridgeTheorems.OsTouchesNoMore | sysc/async_adaptor.cpp:245-319 | every other step of the OS thread neither writes the packets and the buffer nor depends on them |
| BridgeTheorems.ScTouchesNoMore | sysc/async_adaptor.cpp:338-422 | every other step of SystemC neither writes the packets and the buffer nor depends on them |
| BridgeTheorems.NeverStarves | sysc/async_adaptor.cpp:408-422 | the simulation ends only by `sc_stop` after a stop request; there is always a time to advance to; while the initiator waits and no stop is requested there is always a next delta |
| BridgeTime.NextKeepsAhead | sysc/async_adaptor.cpp:384-419 | each step keeps: a timed wait that is not over ends in the future, and the initiator's is never longer than 70 ns |
| BridgeTime.NextKeepsTime | sysc/async_adaptor.cpp:338-422 | simulated time never goes back, stopped or not |
| BridgeDelay.DelayIsBounded | sysc/async_adaptor.cpp:384-419 | in every run, with stop signals at any time: while the initiator is in a positive `wait(delay)`, SystemC takes at most its rank in steps before time moves on, whatever the OS thread does meanwhile |
| BridgeDelay.DelayRankBound | sysc/async_adaptor.cpp:410-419 | that rank never exceeds 511 |
| BridgeDelay.ScShortensDelay | sysc/async_adaptor.cpp:384-419 | each SystemC step during the delay lowers the rank, or moves time on to the earliest timed wake-up |
| BridgeDelay.WhereTimeGoes | sysc/async_adaptor.cpp:384-419 | that wake-up is the end of the initiator's delay, unless the last second after a stop request ends before it |
| BridgeDelay.StopIsSeen | sysc/async_adaptor.cpp:413-419 | each time round the keep-alive process tests for a stop request, and having seen one waits for 1,000,000,000 ns |
| BridgeDelay.StopTakesASecond | sysc/async_adaptor.cpp:419-421 | in every run from there on, time does not pass the end of that second, and `sc_stop` is called exactly at its end, however many requests are served meanwhile |
| BridgeTheorems.SystemCIsNeverBlockedForEver | sysc/tlmx_channel.cpp:77-165 | in every reachable state in which SystemC waits for a mutex, at most three steps of the OS thread alone let it go on |
| BridgeAnswers.AnsweredUnlessLost | sysc/async_adaptor.cpp:250-308 | in every reachable state, stopped or not: a request that was read and not answered can still get the machine's reply if and only if it is neither missed nor cut off; if it is, nothing is sent in any future |
| BridgeAnswers.AnsweredUnlessMissed | sysc/tlmx_channel.cpp:96-114 | with no stop requested, exactly when `nb_put` is not past its lock before the OS thread has had the mutex |
| BridgeAnswers.HowItIsMissed | sysc/tlmx_channel.cpp:104-110 | a step makes a response missed if and only if it is the lock that ends the wake-up and the OS thread has not had the mutex |
| BridgeAnswers.OnceThrough | sysc/async_adaptor.cpp:286-307 | once the OS thread has had the mutex its response can no longer be lost: every step of anyone keeps it safe, and at most eight steps of the OS thread, whatever comes between them, send the machine's reply |
| BridgeProgress.NextKeepsLost | sysc/tlmx_channel.cpp:96-114 | a missed or cut-off response stays so on every step of anyone, nothing is sent, and an OS thread that waits for it stays where it is |
| BridgeAnswers.WaitsForEverIsHopeless | sysc/tlmx_channel.cpp:96-114 | in every reachable state, stopped or not, the OS thread is blocked in every possible future if and only if it is at the lock of `wait_for_put` for a missed or cut-off response |
| BridgeAnswers.WaitsForEverIsStuck | sysc/tlmx_channel.cpp:96-114 | with no stop requested: if and only if it is there with one response queued, none in the other queue, and the initiator past the unlock and lock of `nb_put` |
| BridgeAnswers.HowItGetsStuck | sysc/tlmx_channel.cpp:104-110 | a step leads into that state exactly if it is the lock that ends the wake-up while the OS thread waits for the mutex, or the OS thread's late call of `wait_for_put` for a missed response |
| BridgeAnswers.StuckLooksLike | sysc/tlmx_channel.cpp:96-114 | a stuck state has the answered request as its one queued response, `m_sysc_did_put` up, no notification pending, and the put mutex with SystemC |
| BridgeProgress.PlayKeepsStuck | sysc/tlmx_channel.cpp:96-114 | once stuck, no sequence of steps of anyone leads out |
| BridgeProgress.ScProgress | sysc/async_adaptor.cpp:338-422 | while the OS thread waits, and not for a lost response, each step SystemC can take lowers a measure or lets the OS thread through, and none loses a response |
| BridgeAnswers.SyscLetsItThrough | sysc/async_adaptor.cpp:338-422 | such an OS thread can be let through by SystemC alone, within that measure, and no response is lost on the way |
| BridgeAnswers.LetThroughIsInevitable | sysc/async_adaptor.cpp:338-422 | and the mutex comes free on every course of that length that SystemC may take, whatever the scheduler picks |
| BridgeAnswers.OsGoesOn | sysc/async_adaptor.cpp:279-307 | an OS thread that does not wait, with a response not lost, sends the machine's reply with its next step or is one step nearer to it, and does not lose it |
| BridgeRuns.ResponseCanBeMissed | sysc/tlmx_channel.cpp:104-110 | for any first debug request there is a run that ends stuck, with the request carried out and no response sent |
| BridgeRuns.ResponseCanBeSent | sysc/async_adaptor.cpp:245-319 | and a run in which its response is sent, and is the machine's |
| BridgeRuns.ResponseCanBeCutOff | sysc/async_adaptor.cpp:413-421 | for any request there is a run with a stop signal in which it is read and cut off |
| ChannelSteps.StepKeepsInv | sysc/tlmx_channel.cpp:47-165 | any step of any mix of calls keeps mutex ownership, both queues' histories and both flags in order |
| ChannelSteps.EveryRunIsSafe | sysc/tlmx_channel.cpp:47-165 | on every interleaving of any calls, with queues of any length: pushed equals got followed by what is queued, oldest first, and likewise put and pulled; a raised flag means an update requested, about to be requested, or running and not yet past that flag; it is up exactly while SystemC has not been told of the latest push or pull |
| ChannelSteps.OsLetsGo | sysc/tlmx_channel.cpp:47-137 | whenever SystemC is blocked on a mutex the OS thread holds it, is itself not blocked, and each of its steps brings the unlock nearer |
| ChannelSteps.ScIsFreed | sysc/tlmx_channel.cpp:77-165 | at most three steps of the OS thread unblock SystemC |
| ChannelSteps.NoDeadlock | sysc/tlmx_channel.cpp:47-165 | the two threads are never blocked at once |
| ChannelSteps.StepsOfPush | sysc/tlmx_channel.cpp:47-55 | the steps of `push`, undisturbed, do what the channel object's method is specified to do |
| ChannelSteps.StepsOfNbGet | sysc/tlmx_channel.cpp:77-88 | the same of `nb_get`, on both branches |
| ChannelSteps.StepsOfWaitForPut | sysc/tlmx_channel.cpp:108-114 | with the mutex free, `wait_for_put` comes back and leaves everything as it was |
| ChannelSteps.StepsOfWaitForGet | sysc/tlmx_channel.cpp:90-94 | `wait_for_get` gets its mutex only between the unlock and the lock of `nb_get`, and then comes back and leaves everything as it was |
| ChannelSteps.EveryCallCanBegin | sysc/tlmx_channel.cpp:47-165 | a thread in no operation can begin any of its own; `update` begins only when asked for |
| ChannelSteps.StepsOfNbPut | sysc/tlmx_channel.cpp:96-106 | the same of `nb_put`, whose wake-up leaves no trace |
| ChannelSteps.StepsOfNbPull | sysc/tlmx_channel.cpp:123-137 | the same of `nb_pull`, on both branches |
| ChannelSteps.StepsOfUpdate | sysc/tlmx_channel.cpp:149-165 | the same of `update`, with both flags up or down |
| Channel.TakeOldest | sysc/tlmx_channel.cpp:82-83 | pushing at the front and popping at the back is first in, first out |
| Channel.TlmxChannel.constructor | sysc/tlmx_channel.cpp:32-40 | empty queues, lowered flags, and SystemC as the owner of both wake-up mutexes |
| Channel.TlmxChannel.Push | sysc/tlmx_channel.cpp:47-55 | the whole new state: packet in front, flag raised, update requested, all mutexes as before |
| Channel.TlmxChannel.NbGet | sysc/tlmx_channel.cpp:77-88 | the oldest packet or none, and the whole new state in either case |
| Channel.TlmxChannel.NbPut | sysc/tlmx_channel.cpp:96-106 | the whole new state: packet in front, flag raised, mutexes as before |
| Channel.TlmxChannel.NbPull | sysc/tlmx_channel.cpp:123-137 | the oldest response or none, and the whole new state in either case |
| Channel.TlmxChannel.Update | sysc/tlmx_channel.cpp:149-165 | each raised flag becomes its event and is lowered; nothing else changes |
| Adaptor.AsyncAdaptor.Transfer | sysc/async_adaptor.cpp:354-397 | payload set-up, command map, transport and status map together do to device, payload, packet and buffer what one step of the sequential machine does; bytes beyond the data length stay |
| Adaptor.AsyncAdaptor.ServeOne | sysc/async_adaptor.cpp:343-400 | one turn of the loop takes the oldest packet, executes it as the machine does, keeps its header, and puts it; with nothing to get it puts a packet of its own, refused, and leaves the device alone |
| Device.DevModule.BTransport | sysc/dev.cpp:76-121 | the branches with 64-bit addition do exactly what the closed-form acceptance rule says: verdict, registers, data, bytes outside the transfer, delay |
| Device.DevModule.TransportDbg | sysc/dev.cpp:134-170 | for an in-range request, the debug access: registers, data, status and the returned count |
| DeviceLaws.WhereRegistersAre | sysc/dev.cpp:90-97 | an access is an address error, to either transport, exactly if its address is none of 0, 4, 8, 12, 16, 20, 24, 28; a debug access to one of these is OK |
| DeviceLaws.DebugBounds | sysc/dev.cpp:149-168 | a debug access, if OK, reads or stores exactly its bytes; refused, it leaves registers and data as they were; it takes no time |
| DeviceLaws.LastRegisterIsOutOfReach | sysc/dev.cpp:102-107 | a well-formed burst inside the memory is refused exactly when it ends with the last register |
| DeviceLaws.BurstBounds | sysc/dev.cpp:90-120 | each status in plain numbers: address error, byte-enable error, burst error, or OK exactly for whole words that end at byte 28 or before; an OK burst reads or stores exactly its bytes and adds 10 ns for each word; a refused one changes neither registers, data nor delay |
| DeviceLaws.SplitBurst | sysc/dev.cpp:102-117 | a transfer is accepted exactly when its two adjacent parts are, and then gives the same registers, data and total delay |
| DeviceLaws.BurstIsWordByWord | sysc/dev.cpp:102-117 | a burst of any length is accepted exactly when all its words are, one by one, and then does the same |
| RequestLaws.WhatCanBeAsked | sysc/dev.cpp:149-165 | every request can be made except a debug access that starts at a register and runs past byte 32; exit is no request |
| RequestLaws.DebugReads | sysc/async_adaptor.cpp:367-377 | the whole reply and the whole new state of a debug read: all eight registers can be read, in no time |
| RequestLaws.DebugWrites | sysc/async_adaptor.cpp:365-377 | the same of a debug write: it stores exactly its bytes in any register, in no time, and echoes them |
| RequestLaws.Reads | sysc/async_adaptor.cpp:364-387 | the same of a read, and of a write, which is carried out as one: registers returned, 10 ns for each word, address error or generic error otherwise |
| RequestLaws.Ignores | sysc/async_adaptor.cpp:363-387 | the same of an ignored request: checked and timed as a burst, nothing moved |
| RequestLaws.RepeatsRead | sysc/async_adaptor.cpp:368-387 | the same of an unknown code when the command left in the payload is a read |
| RequestLaws.RepeatsWrite | sysc/async_adaptor.cpp:368-387 | when it is a store |
| RequestLaws.RepeatsIgnore | sysc/async_adaptor.cpp:368-387 | when it is neither |
| RequestLaws.StatusMap | sysc/async_adaptor.cpp:392-397 | which transaction statuses give which packet statuses, both ways |
| RequestLaws.ClientSees | zedboard/driver.c:403-413 | the client's call returns 0 for an OK response and -1 for any other |
| RequestLaws.WriteThenRead | sysc/dev.cpp:158-165 | what a debug write stored is what a later debug read of the same bytes returns, whatever requests that do not store there come in between |
| Machine.ReplyStatus | sysc/async_adaptor.cpp:391-397 | no reply is incomplete; address error exactly for an address that is none of the eight; generic error exactly for an access that is neither debug read nor debug write, to a register, with a bad burst |
| Machine.SizesAgree | sysc/async_adaptor.cpp:266-308 | every reply of a run keeps its request's header, and has the data length that this header gives |
| Machine.ClientSucceeds | zedboard/driver.c:403-413 | the client's result is 0 exactly when the device accepts the request, whatever came before |
| Machine.CommandIsEffective | sysc/async_adaptor.cpp:362-369 | the command left in the reused payload is that of the last request with a known code |
| Machine.RegisterHistory | sysc/dev.cpp:158-165 | after any requests each register byte is that of the last accepted store covering it, which exists if any store does, or its initial value |
| Machine.ReadReturnsHistory | sysc/dev.cpp:158-165 | every accepted read returns byte for byte what that history says |
| Machine.OnlyDebugWritesStore | sysc/async_adaptor.cpp:362-369 | requests without a debug write never change the device |
| InterruptMonitor.WaitMeansInterrupt | zedboard/driver.c:141-161 | with any spurious wake-ups, `dev_wait` returns only after a connection accepted with `server_stop` clear, and asleep with the flag up it is about to be signalled |
| InterruptMonitor.LaterWaitsDoNotSleep | zedboard/driver.c:450-456 | once an interrupt was passed on, no later call ever sleeps |
| InterruptMonitor.SleepsOnlyBeforeTheFirst | zedboard/driver.c:450-451 | a call that tests the flag goes to sleep exactly when no interrupt has ever been passed on |
| InterruptMonitor.AbandonedForEver | zedboard/driver.c:142-151 | with the server gone or about to leave and no interrupt so far, no run brings a return |
| InterruptMonitor.CanReturnUnlessAbandoned | zedboard/driver.c:441-462 | a call can still return if and only if it is not abandoned in that sense |
| InterruptMonitor.HowTheServerLeaves | zedboard/driver.c:142-144 | the server leaves its loop exactly when it finds `server_stop` set after a connection |
| InterruptMonitor.ServesUntilStopped | zedboard/driver.c:129-172 | it can accept and pass on another interrupt, whatever `dev_wait` is doing, if and only if `server_stop` is not set |
| Report.Reclassify | sysc/report.cpp:360-372 | the loop over a table computes the reclassified message and the entry used, for any message |
| Report.TagIsPastWord | sysc/report.cpp:381-392 | a tag found no earlier than the severity word never overlaps it |
| Report.CanonicalForm | sysc/report.cpp:381-395 | of a composed message: the first table entry whose tag occurs replaces the severity word, the first such tag collapses to a guard, all else is as composed; with no tag nothing changes |
| Report.WarningForm | sysc/report.cpp:381-395 | the canonical form for every warning, with any identifier, type, text, file and process |
| Report.InfoForm | sysc/report.cpp:359-372 | the canonical form for every informational message |
| Report.NoteCounts | sysc/report.cpp:385-395 | a note is counted as a note exactly when no debug tag occurs in it, and as a debug message otherwise |
| ReportLaws.FindFinds | sysc/report.cpp:367-368 | the string search finds the first occurrence, on the characters, and fails exactly when there is none |
| ReportLaws.BodySays | sysc/report.cpp:313-338 | where identifier with its letter, type, text, file, line and process stand; the file line is there unless it is information without a debug tag, and is indented to the severity word |
| ReportLaws.NamesAre | sysc/report.cpp:62-81 | the two tables, in their order |
| ReportLaws.ErrorsAreShown | sysc/report.cpp:54-60 | an error is shown as the time, "ERROR" and the body, a fatality with "FATAL"; neither raises a counter |
| ReportLaws.PlainWarningsAreShown | sysc/report.cpp:381-396 | a warning with none of the three tags is shown with "WARNING" and counted under no other name |
| ReportLaws.TaggedWarningsAreShown | sysc/report.cpp:385-394 | a tagged warning is shown with the tag's name for the word and the first such tag shortened to a colon and a blank, and counted under that name; debug goes before note, note before alert |
| ReportLaws.PlainInformationIsShown | sysc/report.cpp:359-380 | information with none of the eleven tags is shown with "INFO", but for an empty type |
| ReportLaws.TaggedInformationIsShown | sysc/report.cpp:363-380 | otherwise with the first name in the table whose tag occurs, the tag shortened likewise |
| ReportLaws.RuntIsRemoved | sysc/report.cpp:374-380 | the first mark of an empty type shrinks to a colon; without one the text stays |
| ReportLaws.TextsStart | sysc/report.cpp:303-313 | errors, fatalities and warnings start with the time, the word shown for the severity, a colon and a blank |
| ReportLaws.InformationStarts | sysc/report.cpp:359-380 | renamed information starts with the time, that name and a colon, also after the mark of an empty type is removed |
| ReportSummary.Handler.ReportHandler | sysc/report.cpp:346-396 | the text shown for each severity, and at most one counter raised: the one of the entry used |
| ReportSummary.Handler.Adjust | sysc/report.h:224-227 | the four adjustments, as the code has them, in 64-bit arithmetic |
| ReportSummary.Handler.Summary | sysc/report.cpp:527-600 | the lines for the nonwarnings; the stepwise 64-bit sums equal the one difference of all counts, for warnings and for errors; the exit code says whether the counts pass |
| ReportLaws.CountersByName | sysc/report.cpp:385-395 | over any reports and adjustments, each counter is the number of warnings whose first tag, in the order of the names, is its own |
| ReportLaws.LinesByName | sysc/report.cpp:556-558 | the summary's lines: for debug, note and alert in this order, that number with that name, none for 0 |
| ReportLaws.AdjustmentsAdd | sysc/report.h:224-227 | each of the four adjustments adds to the expected count of its kind modulo 2^64 and changes nothing else |
| ReportSummary.ErrorsAddUp | sysc/report.cpp:545-548 | the kernel's counters are the numbers of reports of information, errors and fatalities |
| ReportSummary.WarningsAddUp | sysc/report.cpp:385-395 | over any reports and adjustments, all warnings are those with no tag in their text and the reclassified ones, so the counters never exceed the total and the subtraction never wraps; the unexpected counts stay 0 |
| ReportSummary.AdjustmentsAddUp | sysc/report.h:224-227 | the expected counts of warnings and of errors are the sums of all adjustments, expected and unexpected, modulo 2^64 |
| ReportSummary.SummaryIsRight | sysc/report.cpp:543-550 | the printed number of warnings is the untagged ones less all adjustments exactly when that difference is a 64-bit number; with no adjustments it is the untagged ones |
| ReportSummary.VerdictIs | sysc/report.cpp:547-566 | over any reports and adjustments, the counts pass if and only if errors plus fatalities less the error adjustments is a multiple of 2^64 |
| ReportSummary.VerdictIsRight | sysc/report.cpp:549-566 | within 64 bits, the verdict says that no fatality and exactly the expected errors were reported, if and only if it is not the case that as many fatalities were reported as expected errors are missing |
| ReportSummary.FatalCanPass | sysc/report.cpp:549-566 | one expected error and one fatality are a pass |

## Left out

- Device.DevModule.TransportDbg: has an in-range precondition, because the source copies past its array otherwise; requests to the bridge carry the same restriction (`Machine.IsLegal`), which only debug accesses that start at a register and run past the last one fail.
- Machine.SizesAgree: the packet serializer is not part of this model; that the packed size depends on the data length alone is what the adaptor's size assertion and the client's expected reply size then still need.
- Machine.ClientSucceeds: of the client's call only the returned status is modelled; it does not copy read data back to its caller, and its assertions on partial transfers are not modelled.
- BridgeTheorems.QuietBridgeIsMachine: the claim on simulated time ends with a stop request, after which the keep-alive process waits in seconds of its own.
- Channel.TlmxChannel.Push: the class's methods run with the mutexes they take free; waiting for a mutex, and the other thread's steps in between, are in `ChannelSteps` and `Bridge`. The two waiting methods have no state of their own and are steps only.
- Adaptor.AsyncAdaptor.ServeOne: `wait(delay)` is the returned elapsed time, and each call is one turn of the endless loop; the loop itself, with waits and phases, is in `Bridge`.
- ReportSummary.Handler.Summary: the kernel's counters are a parameter, unbounded here; output, timing and the warning on a second call are not modelled.
- ReportSummary.VerdictIsRight: is stated for differences of less than 2^64; `ReportSummary.VerdictIs` is not.
- BridgeAnswers.AnsweredUnlessLost: says what can still happen, not that a given scheduler brings it about: whether the OS thread takes the mutex in the moment it is free depends on the scheduler. From there on `BridgeAnswers.OnceThrough` needs no such choice.
- InterruptMonitor.WaitMeansInterrupt: one thread in `dev_wait`; errors of the pthread calls, which end the program, are not modelled.
- The initial state is after the first evaluation phase, with the initiator at its first wait: requests that come before, the reading of the port that races with the thread's start, and the last part of the initialisation phase are not modelled.
- An update request that arrives during an update phase is answered in the next one; the kernel's own locking of its list of requests is not modelled.
- Sockets, host lookup, partial reads and writes, accept loops: the environment supplies whole requests and takes whole responses.
- `tlmx_channel::get`, which waits for the event of pulls instead of pushes, and `can_get` and `can_pull`: the bridge does not use them. Nor does it use `wait_for_get`, which is in the step model of the channel.
- Binding of TLM sockets, DMI, and `sc_time` beyond whole nanoseconds in unbounded numbers.
- The driver's opening handshake, which waits without testing its flag, and the four one-line calls around `dev_transport`.
- Concurrent calls of the report handler, log files, terminal output, actions, embedded zero characters, and number, time and duration formatting; a report's numbers and time are text already.
- Netlist printing, time literals, the top level, the software's test loop and the makefiles.
