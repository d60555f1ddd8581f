# Data acquisition: from the ADC FIFOs to the files on disk

A board with up to eight ADC chips fills nine FIFOs (one per chip, one for 64-bit timestamps).  A server programs a
scatter-gather DMA engine to collect one block per enabled chip into a message, pushes the messages onto a data queue,
and is commanded over a request-reply channel by a client that writes what it receives to files of bounded size.  This
project models those four pieces and proves the claim that joins them: **for every mask, read length, configuration
history and interleaving, the samples in the files are exactly what the FIFOs held, in order, nothing lost, repeated
or mixed** (`EndToEnd.MainDelivers`, `EndToEnd.FilesAreFifos`; and `Completion.MainCanEnd` shows that there are such runs).

Every piece is written twice.  Once as imperative Dafny in the source's own form: the drivers and the board they are
wired to (`Driver.dfy`), the run loops (`Daq.dfy`), the settings (`Control.dfy`) and the receive loop (`Client.dfy`) are
classes whose methods change fields and arrays in place and are proved against functions on values.  And once as
transition systems over those same functions: a worker thread (`Worker.dfy`), the whole server with every thread it
ever spawned, the engine and the ADC interleaved step by step (`Server.dfy`), and client and server joined by a
request-reply channel and a queue that may refuse a message (`Protocol.dfy`).  Theorems about reachable states are in
`Safety.dfy`, `Protocol.dfy` and `EndToEnd.dfy`; they speak of every state that some finite behaviour from power-up leads to
(`Safety.Reached`, `Protocol.Occurs`).

| file | content |
|---|---|
| `Words.dfy` | 32-bit arithmetic with its wrap-around, memory images of words, the chip mask and its rank function |
| `SgRing.dfy` | the descriptor ring: its words, its links, its destination ranges, the byte counts |
| `Cdma.dfy`, `Reads.dfy` | the engine as a step machine; kicked over the ring, it is a plain gather, read after read |
| `Registers.dfy`, `Hardware.dfy` | bit fields and read-modify-writes; the front end as one value |
| `Driver.dfy`, `Daq.dfy`, `Control.dfy`, `Client.dfy` | the classes of the source |
| `Worker.dfy`, `Server.dfy`, `Safety.dfy` | the threads of the server, interleaved, and what every reachable state satisfies |
| `Protocol.dfy` | client and server together |
| `Rotation.dfy`, `Config.dfy` | file rotation; configurations merged one after the other |
| `Requests.dfy` | what travels over the control channel |
| `EndToEnd.dfy` | from the FIFOs to the samples in the files |
| `Completion.dfy` | a behaviour in which the client's program comes to its end, from every power-up |

## What is assumed

* **The engine** does what `Cdma.Step` says: it follows next pointers from its current pointer up to and including the
  tail, refuses a descriptor whose completion bit is set, sets that bit when a transfer is done, stops with the current
  pointer at the tail's successor, and pops the FIFO it reads from.  Anything impossible (a wild pointer, an empty
  FIFO, a transfer beyond the buffer) raises `fault`; `Safety.EngineNeverFaults` shows that it never happens.
* **Its interrupt** is up when it is enabled and the engine has retired, since its kick, as many descriptors as the
  coalescing field says (`Hardware.Interrupt`).  The code waits for that and never looks whether the engine is idle.
* **Sizes.** `Hardware.Roomy`: the two buffers lie inside the 32-bit address space and are large enough for nine
  descriptors and ten shares of `reads_per_trigger` words.  It is required of every configuration received.
  `SgRing.SizesAgree` holds without it.  `size_t` has 32 bits, as on the board.
* **The board.** The reset bit of the DMA control register clears itself.  A reset of the front end may drop any part
  of what the FIFOs hold (`flush` is universally quantified).  Without `num_sum`, the enabled FIFOs fill in lockstep and
  the mask is not zero; these are the hypotheses under which polling one FIFO is enough (`Worker.PollSuffices`).  With
  `num_sum`, an interrupt of the front end means that a block is waiting.
* **The channels.** A control receive returns a message, and what follows `config` is a configuration.  Sends onto the
  data queue may be refused at any time; theorems that need none refused say so.

## What the code does that one might not expect

* A temperature request for a channel other than `1` and `2` is answered twice: the error reply does not end the
  handler, so the next send is out of turn.  One reply per request holds exactly for the other inputs
  (`Protocol.OneReplyEach`); the client, which only ever sends those two, keeps the alternation
  (`Protocol.TurnsAlternate`).
* `file_size` is an `int`.  The size bounds of rotation hold for all messages of at most `s` bytes exactly when
  `maxFileSize` is not negative and `maxFileSize + s` is below 2^31; beyond that the counter goes negative and the file
  is not closed (`Rotation.BoundsIff`, with the messages that escape).  The closed form of the file count has its own
  exact condition (`Rotation.FileCountIff`).
* The product `reads_per_trigger * (nChan + 2)` is one of two `int`s: beyond their range the size of a message is not
  defined (`SgRing.MessageBytes`).
* A stop request that finds no live worker leaves the flag up, and the next run ends at its first loop head having
  sent nothing (`Safety.StaleStopSilences`; `Safety.SilentRuns` says that no other finished run that was to send something is
  empty).
* An interrupted receive uses up a turn of the client's loop, and a message received in the turn that sees the stop
  flag is thrown away; no other message is (`Client.OnlyStopTurnDiscards`, `Protocol.DataInOrder`).
* `num_sum` has no default: it is whatever memory held until the first configuration supplies it
  (`Safety.SettingsAreMerged`).

## Model

| member | source | states |
|---|---|---|
| `Driver.DMACtrl.ConfigureSGBuf` | server/include/DMACtrl.h:24-59 | whatever the descriptor buffer held, it now holds exactly the ring of these arguments and zeros elsewhere; the head, the tail pointer, the count and the coalescing field belong to that ring |
| `Driver.DMACtrl.WriteDescriptors` | server/include/DMACtrl.h:41-51 | the loop writes one open-ended chain: a descriptor per enabled chip in ascending order, then the timestamps |
| `Driver.DMACtrl.SgBufReset` | server/include/DMACtrl.h:76-79 | clears the status word of one descriptor and no other word |
| `Driver.DMACtrl.StartSG` | server/include/DMACtrl.h:91-94 | writing the remembered tail pointer is the engine's kick |
| `Driver.DMACtrl.IRQWait` | server/include/DMACtrl.h:129-136 | waiting for the interrupt alone is enough: enabled, and due after as many descriptors as the ring has, it ends the wait when the engine has done exactly one step per descriptor |
| `Driver.DMACtrl.EnableSG` | server/include/DMACtrl.h:101-107 | the scatter-gather bit is as asked, and every other bit of the register is as before |
| `Driver.DMACtrl.KeyholeRead` | server/include/DMACtrl.h:119-122 | the keyhole-read bit is as asked, and every other bit of the register is as before |
| `Driver.DMACtrl.IRQEnable` | server/include/DMACtrl.h:124-127 | the interrupt-enable bit is as asked, and every other bit of the register is as before |
| `ChipMask.SourcesAreBits` | server/include/DMACtrl.h:41-43 | chip i is read exactly when bit `1 << i` of the mask is set, and the timestamps always |
| `ChipMask.RankIsBits` | server/include/DMACtrl.h:41-50 | the rank of a chip is the number of mask bits set below its own |
| `ChipMask.SlotOf` | server/include/DMACtrl.h:41-50 | the sources come in the order of their ranks: source i stands at the place that its rank gives |
| `ChipMask.FullMask` | server/src/server.cpp:29-33 | the chip count is at most eight, and eight exactly for mask 0xff |
| `SgRing.RingIsLinked` | server/include/DMACtrl.h:41-53 | when addresses fit 32 bits, the words written are a closed ring of descriptors in exact arithmetic, every status word clear |
| `SgRing.WalkVisitsRing` | server/include/DMACtrl.h:39-55 | following next pointers from the base visits as many distinct descriptors as there are sources and returns to the base; no number of hops ever reaches any other descriptor, so none left over from a larger mask |
| `SgRing.SlotsTile` | server/include/DMACtrl.h:41-51 | the destination ranges are disjoint and cover exactly the first (nSGBuf + 1) * length bytes |
| `SgRing.SlotStart` | server/include/DMACtrl.h:44-49 | the range of chip i starts at length times the number of enabled chips below i; the timestamps' range is twice as long |
| `SgRing.SizesAgree` | server/src/server.cpp:107 | wherever the signed product in the size of a message is defined, the bytes allocated equal the bytes copied into it, for every mask and read length, even when the unsigned arithmetic wraps |
| `SgRing.SizesFit` | server/src/LTC2333.cpp:23-24 | below the wrap the size of a message is defined, is the ring's and fits the synchronised window, with equality exactly for mask 0xff |
| `Cdma.StepTransfers` | server/include/DMACtrl.h:44-47 | the engine, decoding the words it finds at its current pointer, moves one share of the source of that slot to the slot's place |
| `Cdma.StepGathers` | server/include/DMACtrl.h:41-55 | one engine step over the ring extends the gathered message by exactly one slot |
| `Cdma.GatherLength` | server/src/server.cpp:107 | a gathered message has (nChan + 2) * reads words |
| `Cdma.GatherSlot` | server/src/test.cpp:70-79 | slicing a message at slot k gives exactly the next share of the source of that slot, 64-bit timestamps in the last two |
| `Reads.RunGathers` | server/include/DMACtrl.h:91-94 | after the kick, k engine steps gather k slots, and no word but status words of the ring changes |
| `Reads.RearmReady` | server/src/LTC2333.cpp:139 | clearing the status words makes a finished ring ready at its head again, with every link, address and length intact |
| `Reads.ReadRefinesGather` | server/src/LTC2333.cpp:129-141 | a whole read is the plain gather "for each enabled chip in order, pop a block", leaves the descriptor buffer as it was and the engine ready, so the next read is one too |
| `Reads.CutIsStream` | server/src/LTC2333.cpp:129-141 | over any number of reads, slot k of the messages put together is one uninterrupted stretch of the stream of its source |
| `Registers.CoalescingSet` | server/include/DMACtrl.h:57-58 | the number of descriptors after which the engine interrupts is the number of descriptors of the ring |
| `Registers.CoalescingKeepsRest` | server/include/DMACtrl.h:57-58 | writing the coalescing field changes no bit of the register outside it |
| `Registers.SwitchedOn` | server/src/LTC2333.cpp:10-14 | from any register whose reset bit is clear, three writes that each set their bit and keep the others leave all three switches on |
| `Registers.WriteWordFields` | server/src/LTC2333.cpp:26 | a configured write register has the mode bit as asked, holds the channel mask and the three range bits, and every other bit is clear |
| `Registers.ModeRoundTrip` | server/src/LTC2333.cpp:48-58 | switching the mode off undoes switching it on |
| `Registers.ModeFrame` | server/src/LTC2333.cpp:48-58 | switching the mode sets the mode bit as asked and keeps both fields |
| `Registers.ModeKeepsRest` | server/src/LTC2333.cpp:48-58 | and every bit beside the mode bit is as before |
| `Hardware.ConfigureReady` | server/src/LTC2333.cpp:18-31 | from any idle engine and any earlier configuration, larger or smaller, `configure` leaves the engine ready at the head of exactly the new ring, to interrupt when that ring is done |
| `Hardware.InterruptIsDone` | server/include/DMACtrl.h:129-136 | in the middle of a gather the interrupt means that every descriptor of the ring is retired and the engine rests; if enabled, it is up as soon as that is so |
| `Driver.Board.EngineStep` | server/include/DMACtrl.h:91-94 | the engine working in place on the two buffers is the step machine |
| `Driver.LTC2333.constructor` | server/src/LTC2333.cpp:4-16 | the data buffer is cleared; of the four writes to the DMA control register the first is the reset, and after the last the three switches are on, whatever the reset left in the other bits |
| `Driver.LTC2333.Configure` | server/src/LTC2333.cpp:18-31 | the object and the board become the configured value: ring, driver fields and write register of these arguments, nothing else changed |
| `Driver.LTC2333.SetMode` | server/src/LTC2333.cpp:48-58 | changes the mode bit of the write register alone |
| `Driver.LTC2333.EnableRead` | server/src/LTC2333.cpp:85-89 | the read register is 0x2 or 0x0, reading is on iff asked for, nothing else changes, and this is the one write made |
| `Driver.LTC2333.SetReset` | server/src/LTC2333.cpp:91-94 | the reset bit of the read register is set and every other bit is as before |
| `Driver.LTC2333.Reset` | server/src/LTC2333.cpp:91-94 | that write, after which the FIFOs are left wherever the hardware leaves them and nothing else has changed |
| `Driver.LTC2333.Polled` | server/src/LTC2333.cpp:103-115 | the FIFO polled is that of the lowest enabled chip, and none for an empty mask |
| `Driver.LTC2333.Read` | server/src/LTC2333.cpp:129-141 | the caller's buffer starts with the gather of the next shares and keeps its other words; the engine ends where `ReadRefinesGather` says |
| `Worker.PollSuffices` | server/src/LTC2333.cpp:103-120 | with FIFOs that fill in lockstep and a non-zero mask, polling the lowest chip means that a whole block waits in every enabled FIFO |
| `Worker.DataStep` | server/src/server.cpp:81-127 | every step of a run keeps the engine, the ring and the FIFO positions where that point of the run needs them |
| `Worker.RunLength` | server/src/server.cpp:98-105 | a finished run sent as many messages as the index of the first loop head that saw the flag, or its trigger count if none did |
| `Worker.RegisterStep` | server/src/server.cpp:129-173 | the mode bit is up exactly during a summing loop; the read register is reset, in a summing run after reading was disabled, enables reading for the whole loop, and is disabled when a run is done |
| `Daq.DAQThread.CountChips` | server/src/server.cpp:29-33 | counts the enabled chips of the mask |
| `Daq.DAQThread.Configure` | server/src/server.cpp:25-43 | takes over the run parameters and leaves the hardware configured for them |
| `Daq.DAQThread.SeesFlag` | server/src/server.cpp:100-105 | a loop head sees the flag iff it is up, and then it is taken down |
| `Daq.DAQThread.TakeMessage` | server/src/server.cpp:107-116 | the freshly allocated message is filled to its last word with the next shares of the FIFOs, and the hardware is ready for another |
| `Daq.DAQThread.Loop` | server/src/server.cpp:98-119 | one message per completed turn, message r being the gather after r reads; the accepted ones are in the queue in order |
| `Daq.DAQThread.DaqThreadAll` | server/src/server.cpp:81-127 | a run of all events: as its loop says, from where the reset left the FIFOs; the register writes before the loop are the reset and reading on, after it reading off, and the mode bit stays down |
| `Daq.DAQThread.DaqThreadSum` | server/src/server.cpp:129-173 | a run of sums: before the loop exactly mode off, reading off, reset, reading on, mode on; after it mode off and reading off, with the write register back to its configured word |
| `Daq.DAQThread.Run` | server/src/server.cpp:74-79 | `num_sum` decides which of the two runs: at the first loop head reading is enabled and the mode bit is up iff there is something to sum |
| `Daq.TurnsAreHeads` | server/src/server.cpp:98-105 | the turns a run completes are the index of the first head that sees the flag, or the trigger count if that is less |
| `Daq.AcceptedCounts` | server/src/server.cpp:118 | the queue holds as many of a run's messages as sends were not refused |
| `Daq.AcceptedAll` | server/src/server.cpp:118 | and all of them, in order, if none was |
| `Control.CtrlThread.constructor` | server/src/server.cpp:179-196 | the default settings, value by value, with `num_sum` left as it was found |
| `Control.CtrlThread.ParseConfig` | server/src/server.cpp:198-209 | every key that is present overrides its setting, every other setting stays |
| `Control.CtrlThread.PrepareRun` | server/src/server.cpp:262-268 | from an idle engine with any earlier configuration the hardware is prepared for a run with the settings of this moment: the ring, the readout registers and the write register hold them, the mode bit clear as a run needs it |
| `Control.CtrlThread.CmdStart` | server/src/server.cpp:262-273 | a start followed to the end of its run: whatever was configured before, the run is one with the settings of this moment, in its loop the mode bit is up iff `num_sum` is not zero, and at its end reading is disabled and the write register is as they ask |
| `Config.MergeAllIsLastWriter` | server/src/server.cpp:198-209 | after any sequence of partial configurations each setting is the last value supplied for its key, or its default |
| `Server.ThreadsStep` | server/src/server.cpp:45-60 | joins before configuring and before spawning keep at most one worker live under every step of every thread |
| `Server.HardwareStep` | server/src/server.cpp:262-273 | every step of every thread keeps the data path: a live worker owns it, otherwise the engine rests, ready for the last configured ring |
| `Server.StartedStep` | server/src/server.cpp:262-273 | every step of every thread keeps each run, past or present, with the settings that were in force at its start, and the readout registers with those of the live one |
| `Server.StopStep` | server/src/server.cpp:275-283 | from the moment `cmd_stop` has raised the flag to its reply, the flag is up or the last run was ended by it, whatever steps are taken |
| `Safety.Reachable` | server/src/server.cpp:211-283 | the invariant holds after every behaviour from power-up |
| `Safety.AtMostOneLive` | server/src/server.cpp:45-54 | two live workers are the same one; none is live while `cmd_start` configures or when the reply to `cmd_stop` is about to be sent |
| `Safety.NeverTerminates` | server/src/server.cpp:45-49 | no thread object is ever replaced while it is still joinable, which would end the process |
| `Safety.RunKeepsSetup` | server/src/server.cpp:25-43 | while a worker is live no step of anybody changes the run parameters, the driver's fields, the readout and control registers, the channel and range fields of the write register, or the ring beyond its status words |
| `Safety.WritesAreExclusive` | server/src/server.cpp:262-268 | whatever changes those is the control thread, with no worker live and the engine idle |
| `Safety.KicksAreSafe` | server/src/LTC2333.cpp:129-139 | at every kick of every run the engine is idle at the head of an armed ring and every source holds a whole share |
| `Safety.InterruptMeansDone` | server/include/DMACtrl.h:129-136 | in every run the interrupt that the worker waits for is up exactly when the engine has retired the whole ring and rests: never early, never missed |
| `Safety.EngineNeverFaults` | server/src/LTC2333.cpp:129-139 | no behaviour makes the engine refuse a descriptor or run out of data |
| `Safety.CopyFits` | server/src/LTC2333.cpp:137-139 | in every run the copy has the size of the message and stays inside the data buffer, and re-arming stays inside the descriptor buffer |
| `Safety.RunLengths` | server/src/server.cpp:98-105 | every run that ever ended has the length that its loop heads determine |
| `Safety.SilentRuns` | server/src/server.cpp:98-105 | a run that ended and was to send something has sent nothing iff its first loop head saw the flag |
| `Safety.RunsAreBounded` | server/src/server.cpp:98-119 | with a trigger count n >= 0 a worker never takes more than 5 n + 10 steps of its own in any behaviour, and is done when it has taken them |
| `Safety.FlagIsConserved` | server/src/server.cpp:56-60 | the stop flag was raised as often as runs were ended by it, plus one if it is up: never lost, never used twice |
| `Safety.StopIsHeard` | server/src/server.cpp:275-283 | when the reply to a stop is about to be sent no worker is live, and the stop has ended the last run or left the flag up for the next |
| `Safety.StopIsPrompt` | server/src/server.cpp:56-60 | from the moment the flag is up, in every continuation, no worker of that moment sends more than the one message of the turn it is in; one that has not reached its loop sends nothing more at all |
| `Safety.StaleStopSilences` | server/src/server.cpp:56-60 | a run that is started while the flag is still up from a stop that found no run to end sends nothing, in every continuation |
| `Safety.WorkerNeverStuck` | server/src/server.cpp:81-173 | a live worker can take its next step unless it waits for data or for a busy engine; the bounds that guard its copy and its re-arming never hold it up |
| `Safety.RunSendsStreams` | server/src/server.cpp:98-119 | what any worker ever sent, slot by slot, is one stretch of the stream of its source |
| `Safety.SettingsAreMerged` | server/src/server.cpp:285-311 | the settings are the defaults overridden by every configuration received, in order |
| `Safety.RunTakesSnapshot` | server/src/server.cpp:262-268 | a run takes over read length, trigger count, sum count, chip count and sources from the settings in force when it is started, and at that moment the readout registers and the write register hold all of them |
| `Safety.RunsUseTheirDocuments` | server/src/server.cpp:262-268 | every run ever started keeps, to its end and after it, the read length, trigger count, sum count and sources that follow from exactly the configurations received before its start, and is a summing run iff that sum count is not zero |
| `Safety.RegistersInRun` | server/src/server.cpp:129-173 | as long as a run lasts the readout registers and the channel and range fields hold the settings of its start; in its loop reading is enabled and the mode bit is up iff those settings have a sum count |
| `Safety.RegistersAtRest` | server/src/server.cpp:126-172 | with no worker live the mode bit is clear, the channel mask and range are the last configured, and after any run reading is disabled |
| `Safety.SwitchesStayOn` | server/include/DMACtrl.h:57-58 | scatter-gather, keyhole read and interrupts stay enabled forever, and the coalescing field always equals the size of the ring |
| `Protocol.RepliesPerRequest` | server/src/server.cpp:211-391 | the exact replies to every request at every point where one is received, two for an invalid temperature channel |
| `Protocol.OneReplyEach` | server/src/server.cpp:211-240 | so a handler sends exactly one reply per message received iff that message is not an invalid temperature channel |
| `Protocol.TurnsAlternate` | client/include/DAQCtrl.h:54-116 | whatever calls the client makes, neither side ever sends or receives out of turn |
| `Protocol.CallsAreAnswered` | server/src/server.cpp:262-391 | every call took its one or two exchanges, and each request was answered once, with its own answer |
| `Protocol.StopsAreCarriedOut` | client/include/DAQCtrl.h:152-185 | once a client whose run saw the stop flag is between calls, or any client whose last start or stop was a stop: "stop" was requested and answered with "Stopped", no start came after it, no worker is live, and the stop has ended the last run or left the flag up |
| `Protocol.StopRunStops` | client/include/DAQCtrl.h:173-185 | the same for a stop that the client's program calls for |
| `Protocol.DataInOrder` | client/include/DAQCtrl.h:136-170 | the queue took an in-order subsequence of what all runs produced, all of it if nothing was refused; the client wrote an uninterrupted stretch of that, and of what a run received at most one message is not written, and that only if the run was stopped |
| `Protocol.FinishedCounts` | client/include/DAQCtrl.h:136-150 | a run that ended by itself wrote its trigger count less the interrupted receives; exactly the count iff none was interrupted |
| `Protocol.DocumentsArrive` | client/include/DAQCtrl.h:95-116 | between calls the server has every configuration the client sent, in order, and has started one run per start, each with exactly the configurations sent before it |
| `Protocol.FirstRunPrefix` | client/include/DAQCtrl.h:136-170 | in the client's first run, nothing refused, what is written is a prefix of what the one worker sent |
| `Protocol.FirstRunComplete` | client/include/DAQCtrl.h:136-170 | if moreover no receive was interrupted and the loop ended by itself, exactly the trigger count was written, and all the worker sent if both count alike |
| `Protocol.LoopNeverStarves` | client/include/DAQCtrl.h:136-141 | once the worker has ended unstopped, a client that counts no further than it always finds another message while it wants one |
| `Rotation.SplitConserves` | client/include/DAQCtrl.h:159-168 | for any messages the files in order are every message followed by one newline; no message is split, lost or repeated |
| `Rotation.FileLength` | client/include/DAQCtrl.h:160-161 | a file is its payload plus one byte per message |
| `Rotation.SplitWithinBounds` | client/include/DAQCtrl.h:163-168 | a closed file is above the limit but was not before its last message, and no file exceeds the limit by more than one message |
| `Rotation.BoundsIff` | client/include/DAQCtrl.h:159-168 | these bounds hold for all messages of at most s bytes iff the limit is not negative and limit and s together stay below 2^31 |
| `Rotation.FileCount` | client/include/DAQCtrl.h:163-168 | with equal messages of s bytes, k of them have closed k / m files, m = limit / s + 1 (1 for a negative limit), and left k mod m in the open one, whenever m * s stays below 2^31 |
| `Rotation.RunningSize` | client/include/DAQCtrl.h:159-168 | ... of which the running size is the bytes |
| `Rotation.FileCountIff` | client/include/DAQCtrl.h:159-168 | for messages below 2^31 bytes that closed form holds iff m * s stays below 2^31 |
| `Client.DAQCtrl.Store` | client/include/DAQCtrl.h:159-168 | one message goes to the open file, and a new file is opened exactly when the running size passes the limit |
| `Client.DAQCtrl.TakeTurn` | client/include/DAQCtrl.h:136-170 | a turn skips an interrupted receive, ends the loop with one stop request when the flag is up, and writes the message otherwise |
| `Client.DAQCtrl.StartRun` | client/include/DAQCtrl.h:118-171 | after any turns the files hold exactly what was received in the turns before the first that saw the flag (or the trigger count, or the last), split as above; the requests sent are the start and, iff that turn saw the flag, a stop |
| `Client.WrittenIsReceived` | client/include/DAQCtrl.h:136-170 | what the loop writes is what those turns received, message for message, and the loop is stopped iff the next turn sees the flag |
| `Client.OnlyStopTurnDiscards` | client/include/DAQCtrl.h:152-158 | of all that the loop receives only a message received in the turn that sees the flag is not written |
| `Client.FilesConserve` | client/include/DAQCtrl.h:136-170 | the files put together are those messages, each with one newline, and an undisturbed run writes the very messages it receives, as many as it counts |
| `EndToEnd.RecoverIsCut` | client/include/DAQCtrl.h:160-161 | skipping one byte after each message and slicing recovers the memory image of the slices of all messages, whatever bytes they contain |
| `Words.SamplesOfBytes` | server/src/LTC2333.cpp:137 | reading a memory image word by word gives back the words |
| `EndToEnd.FilesAreFifos` | client/include/DAQCtrl.h:136-170 | for every behaviour with nothing refused, the files of the first run, however far it got, yield for every slot exactly what the FIFO of its source held from the run's start |
| `EndToEnd.CompleteRun` | server/src/LTC2333.cpp:129-141 | a complete run yields for every chip whose mask bit is set, sliced at length times the number of bits set below it, exactly triggers * reads samples of its FIFO in order, and the timestamps in the last two slots |
| `EndToEnd.MainDelivers` | client/src/client.cpp:65-72 | the same for the client's own program: if it comes to its end uninterrupted, the mask, read length and trigger count are those of the document it sent |
| `Completion.MainCanEnd` | client/src/client.cpp:65-72 | and it can: from every power-up, for every document with a chip in its mask, room for its reads and a non-negative count, some behaviour brings the program to that end |
| `EndToEnd.LoopWritesFiles` | client/include/DAQCtrl.h:136-170 | the files of the receive loop as a method, on the turns it met, are the bytes that these theorems speak of |

## Left out

- The ZeroMQ sockets, `UIO`, `UDMABuf` and I2C device access: a strictly alternating channel, a queue that may refuse, and arrays of words with a physical base stand for them.
- Cache synchronisation, sleeps, busy-wait durations, the interrupt controller's registers and interrupt delivery by the operating system: a wait that is over is a step that becomes possible.
- `writeInProgress`, `trigger` and the front end's interrupt reset: they touch no state that the run's data depends on in this model.
- YAML and option parsing, logging, file names and file-open failures: a configuration is a record of optional values.
- The replies "Nocmd", "Nocfg" and "Nochan" for a failed control receive, and data after `config` that is no configuration.
- Temperature conversion, the I2C ready loop and which bus a channel selects; setting the bias voltages. Only the number and order of their exchanges is modelled.
- The client with no stop pointer, which would write the previous message again after an interrupted receive; `main` always sets it.
- Several runs of one client with messages left over in the queue: `DataInOrder` covers them, the first-run theorems do not.
- A trigger index that overflows an `int` in an endless run: loop counters are unbounded here.
- Threads in the classes: the classes run one thread at a time, with the stop flag and the arrivals as inputs, and `CmdStart` runs its worker to the end before it returns; interleavings are in the transition systems.
- The wait inside the classes: `DAQThread` receives a block per turn as a hypothesis instead of spinning; the transition systems wait.
- `sgBufReady`, `sgBufError`, `keyholeWrite`, `transfer` and `fifoReady`: nothing in the modelled paths calls them.
- `Ctrl_Thread::stop` and the end of the server process: its main loop never leaves.
- `server/src/test.cpp`, the notebook and the build files.
- Driver.LTC2333.Polled: the busy-wait on the polled FIFO's occupancy is a step of the transition system and not a loop of this method.
- Driver.DMACtrl.EnableSG: waiting for the engine to be idle first is left out, as is the status register it reads.
