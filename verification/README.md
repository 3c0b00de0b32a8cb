# Luna and Titan engine controller: a verified model

The repository drives a rocket engine test stand from a Raspberry Pi. A network thread reads
one-byte commands from the base station and sends telemetry; a worker thread polls a work queue
and *visits* one item at a time: a command, an ignition, or a timed item that samples a sensor or
fires a part of the burn sequence. When the queue is empty the worker scans a table of 13 timed
items and enqueues those that are due. Each sensor has a ring of 12<<17 bytes, which is
dumped to a log file and offered to the network every half second.

The project proves what this controller promises in *every run*: valve interlocks, a bounded
time to shut down, at-most-once scheduling, ignition and pulse timing, lossless logs, command and
frame conservation, and the behaviour of the pressure cut-off. The verifier checks all of it with
`dafny verify dfyconfig.toml`.

## How the model is built

* **Transition system** (`Controller.dfy`). A `State` is the worker's place in its loop, the work
  queue, the timed items, pins and burn state (`Rig`), the rings, logs and frames (`Telemetry`),
  the network thread (`Net`), and a history `trace` of what was received and visited. `Step` is
  one step of either thread; `Run` folds any sequence of steps. Time between clock readings, ADC
  values, socket input and log-file failures come with each event, so every event sequence is a
  run and a statement over all event sequences is one over all runs. `check_ti_list` takes
  thirteen steps, between which the network thread can enqueue commands.
* **Objects** (`CircularBuffer`, `SafeQueue`, `TimedItemList`, `NetworkWorker`, `Visitors`,
  `MainWorker`, `Threads`, `Program`). Classes with the source's fields and loops. Each method is
  proved against the functions of the transition system through an abstraction (`Model()`), and
  `Programs.Program` shows that from start-up on, under any interleaving of the loops' turns,
  the objects are in the state that a function of the turns (`TakeTurns`) computes and that a
  run reaches, and draws the conclusions for log files and base station.
* **Theorems about runs** (`Interlock`, `Scheduling`, `Ignition`, `Pulses`, `Shutdown`,
  `Duplicates`, `Spacing`, `Preignition`, `TitanPresets`, `Telemetry`, `Residence`, `Pressure`, `Flows`,
  `Delivery`), each by an
  invariant that is kept handler by handler.
* **Rules told by the history** (`Histories`, `Tables`, `Rules`, `Links`). A second description of
  the controller, independent of the handlers: pins, burn, timed items, clock, connection and the
  frames handed over, each as a function of what happened before, with every number and level
  written out.
* **Concurrent ring access** (`ConcurrentRead.dfy`). Byte-level interleaving of a writer inside
  `memcpy` and a reader inside `write(2)`.

Points where the model makes a choice:

* A pin's level carries who wrote it last, which is what the interlocks speak of. On Titan TANK
  is GITVC's pin and VENT is WATER's. Both pin initialisations leave the same levels.
* A ring's pointer in a queue item is the sensor's position in the table. The two visitor
  subclasses are one class that dispatches on the engine; the GITVC fields are idle on Titan.
* A frame notes when it was handed over and whether the network got it. The source's queue item
  carries neither; they serve the statements only. So do the histories of the classes.
* Two clock readings inside one handler are one reading.
* The difference of two byte counters is clamped at zero; `RunSound` shows it never has to be.
* A fresh ring's memory and the network thread's `connected` flag are not initialised by their
  constructors and are arbitrary here.
* The header struct is that of a little-endian machine with an 8-byte `size_t`; its four padding
  bytes are arbitrary.

## What the proofs bring out

* *Known commands only* is needed nowhere for the interlocks, and elsewhere less than it seems:
  at-most-once, and the spacing of samples, hold if and only if at most one byte without a case
  is received (`AtMostOnceExactly`, `SpacingExactly`), and the bound on ign2 if and only if none
  is received between two ign_normals (`PreignitionExactly`).
* With overlapping ignitions ign3 can follow right behind the ign2 that re-armed it, if an entry
  of ign3 was queued already. The bound that holds for all overlaps is against the start of the
  burn (`BurnTiming`).
* On Titan the commands that can leave the four presets are exactly unset_valve, set_valve,
  unset_ignition and set_water; unset_water cannot (`PresetClosure`).
* `write_data` answers 0 both for success and, with bytes missing, exactly when its last write
  returned 0 (`ZeroResultIsAmbiguous`).
* The test for a blocking socket (src/final/main_network_worker.cpp:48) masks a negated flag word
  and so never holds: no frame is dropped there.
* The case for an ack request leaves `process_nqi` without a return value
  (src/final/main_network_worker.cpp:40-44); the model lets it be any.
* `copy_data` does not wrap its offset, so it leaves the array for offsets beyond the ring's
  size (`CopyData`).

## Model

| member | source | states |
|---|---|---|
| `Histories.PinsFollowHistory` | src/visitor/luna_visitor.cpp:44-117 | In every run of either engine each pin's level and its writer are what the last entry of the history that drives the pin leaves, written out as constants for each command byte, ign1, ign2, ign3, pulse and cut-off; a pin no entry drives is as the initialisation left it |
| `Histories.CommandDriven` | src/visitor/worker_visitor.cpp:60-102 | For each engine and each command byte: exactly the pins of its case get the levels of the source, all others stay; set_ignition drives the igniter high, unset_ignition igniter and main valve low |
| `Histories.LunaFire2Driven` | src/visitor/luna_visitor.cpp:56-65 | Luna's ign2 drives the main valve high and no other pin |
| `Histories.LunaFire3Driven` | src/visitor/luna_visitor.cpp:73-90 | Luna's ign3 drives main valve, igniter and water low and GITVC high |
| `Histories.TitanFiresDriven` | src/visitor/titan_visitor.cpp:74-101 | Titan's ign2 drives main valve and vent low and tank high, its ign3 the igniter low, and no other pin |
| `Histories.BurnFollowsHistory` | src/visitor/luna_visitor.cpp:62-114 | In every run burn_on and start_time_nitr, and on Luna gitvc_on and gitvc_count, are what the history of ign2, ign3, pulses and cut-offs tells |
| `Tables.TableFollowsHistory` | src/final/timed_item_list.hpp:41-72 | In every run of either engine the clock, every field of all 13 timed items, delays as numbers, and the bytes in each ring are what the history tells |
| `Rules.WorkerRule` | src/visitor/worker_visitor.cpp:19-102 | Each step of the worker: it takes the head of its queue, or nothing, notes exactly that visit, and puts back ign1 for ign_normal and a forced scan for a byte without a case; a visit of nothing starts the scan, whose steps add exactly the enabled, overdue items |
| `Rules.TripsExactly` | src/visitor/worker_visitor.cpp:129-146 | In every run a sample trips the cut-off if and only if shut-off is configured, it is one of pt_comb, the running average of all its calibrated readings from 700 is out of range, the burn is on by the history, and more than 1000000 us passed since the last ign2 |
| `Rules.PulsesExactly` | src/visitor/luna_visitor.cpp:91-115 | In every run a gitvc visit closes a pulse if and only if one is on; otherwise it opens the next one, for its own time, if and only if there is one and the burn is on; on Titan it does neither |
| `Links.UplinkRule` | src/visitor/worker_visitor.cpp:149-170 | In every reachable state: a sample more than 500000 us after the last send hands over a frame from the old to the new end of the stream, dumps its bytes, or as many as the disk takes, to the log and enqueues it for the network if and only if someone is connected; any other step of the worker leaves network queue and frames alone |
| `Links.SkipsExactly` | src/visitor/worker_visitor.cpp:167-170 | In every run each frame was handed over in some step, and was skipped if and only if the connection was down then |
| `Links.ConnectedExactly` | src/server/network_worker.cpp:39-117 | After any run, with any timeout, the base station is connected if and only if there was a connection, from the start or made on an empty queue, and no end of file or time-out dropped it since |
| `Links.NetworkRule` | src/server/network_worker.cpp:39-105 | Each step of the network thread: what it takes, sends and passes on, the connection, and which request it owes |
| `Interlock.RunSafe` | src/visitor/luna_visitor.cpp:44-117 | In every run of Luna, with any commands, stale or duplicate entries: burn_on implies ign3 is enabled; a main valve opened by the schedule implies ign3 is enabled; an igniter switched on by visitIgn implies ign2 or ign3 is enabled; GITVC opened by the schedule implies burn_on |
| `Interlock.StepSafe` | src/visitor/luna_visitor.cpp:44-117 | Each single step of either thread keeps these four implications |
| `BoundedShutdown.ShutdownIsBounded` | src/visitor/worker_visitor.cpp:19-33 | From any reachable state with ign3 enabled and overdue: if at most m more bytes arrive, then ign3 runs, or ign2 runs and re-arms it, within W + 14 + 2m visits, hence within 14 (W + 14 + 2m) + 13 worker steps, W the queue's weight (a command counts 2, anything else 1) |
| `BoundedShutdown.RunProgress` | src/visitor/worker_visitor.cpp:35-102 | As long as nothing fires, the countdown (queue weight until a scan, then the place of the ign3 entry) falls by one with each visit and rises by at most two with each received byte, and ign3 stays enabled and overdue |
| `Scheduling.AtMostOnce` | src/visitor/worker_visitor.cpp:19-33 | In every run with at most one unknown byte each of the 13 timed items has at most one entry in the work queue |
| `Scheduling.RunOrderly` | src/visitor/worker_visitor.cpp:19-33 | The invariant behind it: every queued timed entry is already passed by the running scan, still armed and, for a sensor, still due; no entry is queued twice or behind a forced scan; sensors stay enabled with their delays; at most one forced scan is pending |
| `Scheduling.SensorSpacing` | src/visitor/worker_visitor.cpp:104-111 | Under the same condition any two samples of one sensor are more than its time_delay apart, and the first comes more than the delay after start-up |
| `Spacing.SpacingExactly` | src/visitor/worker_visitor.cpp:96-111 | For each sequence of command bytes: this spacing holds under every schedule if and only if at most one byte has no case |
| `Duplicates.AtMostOnceExactly` | src/visitor/worker_visitor.cpp:96-99 | For each sequence of command bytes: no schedule of the two threads can ever queue an item twice if and only if the sequence has at most one byte without a case; for two or more such bytes a duplicating run is constructed |
| `FiringSequence.IgnitionAccounting` | src/visitor/worker_visitor.cpp:90-95 | In every run with at most one unknown byte: ign3 firings <= ign2 firings <= ign1 visits <= handled ign_normal commands <= received ign_normal commands |
| `Preignition.IgnitionTiming` | src/visitor/worker_visitor.cpp:177-193 | In every run whose received bytes have no byte without a case between two ign_normals, so in every run with known commands only or with a single ign_normal, however ignitions overlap: every ign2 comes more than preignite_us after the last ign1 |
| `Preignition.PreignitionExactly` | src/visitor/worker_visitor.cpp:90-99 | For each engine, configuration and sequence of command bytes: no schedule of the two threads can ever make an ign2 come within preignite_us of the last ign1 if and only if no byte without a case lies between two ign_normals; otherwise a run that does is constructed |
| `FiringSequence.BurnTiming` | src/visitor/luna_visitor.cpp:56-79 | With at most one unknown byte, however ignitions overlap: every ign3 comes more than hotflow_us after the start of the burn it ends |
| `FiringSequence.SingleBurn` | src/visitor/luna_visitor.cpp:56-79 | With a single ign_normal and at most one unknown byte every ign3 comes more than hotflow_us after every ign2 |
| `PulseTrain.PulsesNumbered` | src/visitor/luna_visitor.cpp:91-114 | In every run of Luna with a list no longer than INT_MAX: the k-th timed opening is pulse k and is given gitvc_times[k], there are at most gitvc_times.size() of them, and none follows an ign3, stale entries included |
| `PulseTrain.ValveFollowsSchedule` | src/visitor/luna_visitor.cpp:84-114 | Unless a set_gitvc or unset_gitvc was handled since the schedule last drove the valve, the GITVC pin is open if and only if the last of the schedule's openings, closings, burn ends and cut-offs is an opening |
| `PulseTrain.PulseTiming` | src/visitor/luna_visitor.cpp:66-114 | With one ignition and at most one unknown byte: openings and closings alternate, the first opening is more than gitvc_wait_time after ign2, the timed closing of pulse k comes more than gitvc_times[k] after its opening unless ign3 ran before, and an opening more than time_between_gitvc after a closing; the cut-off, which closes the pin early, is not a timed closing |
| `PulseTrain.PulseLasts` | src/visitor/luna_visitor.cpp:102-114 | In the same runs, from the opening of pulse k on: as long as neither ign3, the pressure cut-off nor an operator command took the valve over, its pin is open until a timed closing more than gitvc_times[k] later |
| `TitanPresets.PresetClosure` | src/visitor/titan_visitor.cpp:27-54 | For every set of commands that includes the four presets: (MAIN, VENT, TANK) is one of the four presets in all reachable states, through firings and cut-offs, if and only if the set has none of unset_valve, set_valve, unset_ignition, set_water |
| `TitanPresets.TankOpenOnlyInFill` | src/visitor/titan_visitor.cpp:34-101 | In those runs TANK is open only with MAIN and VENT as in the fill preset |
| `TelemetryPipeline.RunSound` | src/visitor/worker_visitor.cpp:149-173 | In every run, any commands: each ring holds exactly the last 12<<17 bytes of the records of all readings of its sensor, and the frames handed over, each non-empty, tile the stream up to nbytes_last_send, which never exceeds bytes_written |
| `TelemetryPipeline.LosslessLog` | src/visitor/worker_visitor.cpp:149-173 | With at most one unknown byte and no failing log write (short writes allowed): after every step each log is exactly the first nbytes_last_send bytes ever added to its ring; that the ring is not overrun between sends is proved from the scheduler's pace |
| `TelemetryPipeline.LogDecodes` | src/visitor/worker_visitor.hpp:25-28 | Reading such a log back record by record gives the sensor's readings in order |
| `TelemetryPipeline.FrameSizes` | src/visitor/worker_visitor.cpp:149-165 | Every frame carries whole 16-byte records, at least 1 and at most 999, 500 or 25 of them, by the sensor's delay |
| `TelemetryPipeline.MaxRecordsFit` | src/final/timed_item_list.hpp:41-62 | The most records one frame can carry, from SEND_TIME and each sensor's delay, in numbers, and that they fit the ring |
| `Residence.FrameSurvives` | src/visitor/worker_visitor.cpp:149-173 | In every run with at most one unknown byte every frame still reads back unharmed from its ring for 48 seconds after it was handed over, whatever is sampled meanwhile |
| `Delivery.ReadWhileWriting` | src/final/main_network_worker.cpp:54-89 | The same when the ring is read byte by byte while the worker adds to it: between two states of a run, the later no more than 48 seconds after the frame's hand-over, any interleaving of copying, publishing and short writes with one record in flight at most emits only the frame's bytes |
| `PressureFilter.RunAverage` | src/visitor/worker_visitor.cpp:129-131 | With the pressure shut-off configured: in every state of every run the average is the exponential filter of all calibrated pt_comb readings so far, from 700 |
| `PressureFilter.NoFalseTrip` | src/visitor/worker_visitor.cpp:129-146 | If 700 and every calibrated reading lie in [min, max], the cut-off never fires in any run |
| `PressureFilter.RisesAbove` | src/visitor/worker_visitor.cpp:131-133 | After at least 19 (max + d - avg) / d readings of max + d or more, d > 0, the average exceeds max, and stays there as long as they last |
| `PressureFilter.FallsBelow` | src/visitor/worker_visitor.cpp:131-133 | The same below min |
| `PressureFilter.TripsInTime` | src/visitor/worker_visitor.cpp:129-146 | With the pressure shut-off configured, from any state: the pt_comb reading that makes 19 gap / d readings out of range by d on one side, and each later one, trips the cut-off when burn_on holds and more than 1 s passed since ign2; main valve and igniter go low, GITVC closes, burn_on ends |
| `ConcurrentRead.ConcurrentReadValid` | src/util/circular_buffer.cpp:65-107 | For every interleaving of add_data's byte copies and publishing with write_data's short writes: what was emitted is the stream from total_bytes on, provided at the end bytes written plus the block in flight are at most total_bytes plus the ring's size |
| `ConcurrentRead.LapIsSharp` | src/util/circular_buffer.cpp:21-30 | That bound is sharp for every ring, every contents and every non-empty frame: with one byte more, not even published, there is an interleaving that emits a wrong byte |
| `Flows.CommandsConserved` | src/final/main_network_worker.cpp:21-39 | In every interleaving the command bytes handled, then those pending in the work queue, are the bytes received, in order |
| `Flows.AtMostOneRead` | src/server/network_worker.cpp:39-65 | Without a timeout the network queue always holds at most one nq_recv and never an nq_send_ack |
| `Flows.RunOneRequest` | src/server/network_worker.cpp:39-65 | With any timeout: among the queue and the item about to be enqueued there is at most one read or ack request |
| `Flows.FrameTiling` | src/visitor/worker_visitor.cpp:153-170 | In every run the frames of a channel, enqueued or skipped while disconnected, cover each byte below nbytes_last_send exactly once and none above; what the network thread sent and still holds is exactly the enqueued ones, in order |
| `CircularBuffers.AddHolds` | src/util/circular_buffer.cpp:21-30 | Adding a block of any length, also one longer than the ring, keeps the ring the window onto the last nbytes bytes of everything added, byte i at slot i % nbytes |
| `CircularBuffers.AddAllHolds` | src/util/circular_buffer.cpp:21-30 | After any blocks, from any initial memory, bytes_written is the total length and the ring is that window onto their concatenation |
| `CircularBuffers.CyclicReads` | src/util/circular_buffer.cpp:65-107 | Bytes still in the window read back as they were added |
| `CircularBuffers.WriteDataEmits` | src/util/circular_buffer.cpp:90-107 | For every sequence of write results: the emitted bytes are a prefix of the cyclic slice; the answer is 0 when all are out, else the failing result |
| `CircularBuffers.WriteDataComplete` | src/util/circular_buffer.cpp:90-107 | All n bytes come out if and only if the last write made, if any, had a positive result; with positive results, however short, they do and the answer is 0 |
| `CircularBuffers.ZeroResultIsAmbiguous` | src/util/circular_buffer.cpp:99-102 | For every script of write results: write_data answers 0 with bytes missing if and only if the last write it made returned 0 |
| `CircularBuffers.OverwrittenIffLost` | src/util/circular_buffer.cpp:69-83 | The overwrite warning fires if and only if a later byte has taken the slot of the first requested byte |
| `CircularBuffers.CircularBuffer.constructor` | src/util/circular_buffer.cpp:12-15 | A ring of the given size with nothing written; its memory is arbitrary |
| `CircularBuffers.CircularBuffer.AddData` | src/util/circular_buffer.cpp:21-30 | In place, does to memory and counter what Add says |
| `CircularBuffers.CircularBuffer.WriteTo` | src/util/circular_buffer.cpp:65-107 | Emits to the descriptor, answers and uses up write results as WriteData says, for every script of results |
| `CircularBuffers.CircularBuffer.CopyData` | src/util/circular_buffer.cpp:32-63 | Refuses exactly n = 0 and n > nbytes; for offset <= nbytes it copies the n bytes that a complete write_data emits; beyond, it leaves the array |
| `CircularBuffers.CircularBuffer.CheckOverwritten` | src/util/circular_buffer.cpp:69-83 | The warning is printed if and only if a later byte has taken the slot of the first requested byte |
| `CircularBuffers.CircularBuffer.Zero` | src/util/circular_buffer.cpp:109-112 | All memory zero, and the ring holds the empty stream |
| `Wire.RecordsRoundTrip` | src/visitor/worker_visitor.hpp:25-28 | The k-th 16-byte slice of the records decodes to the k-th reading |
| `Wire.ParseEmitAll` | src/server/network_worker.cpp:148-159 | For any messages and any header padding a receiver's parser recovers from the bytes exactly the messages, with any incomplete rest, of a header or of a payload, left over |
| `ScanLoop.DueFromExact` | src/visitor/worker_visitor.cpp:19-33 | check_ti_list adds exactly the enabled, overdue items, once each, in table order |
| `ScanLoop.SettleIsScan` | src/visitor/worker_visitor.cpp:19-33 | The thirteen interruptible steps of a scan, undisturbed, add up to one pass of check_ti_list |
| `ScanLoop.IterateRuns` | src/final/main_worker.cpp:7-19 | Any number of iterations of the worker's loop is a run of the transition system |
| `TimedItems.FindIsSlot` | src/final/timed_item_list.hpp:70-76 | A linear search of the table by action finds the constructor's slot |
| `TimedItems.TimedItemList.constructor` | src/final/timed_item_list.hpp:35-77 | The 13 items with their delays, ten enabled; actionMap holds every action with its slot |
| `TimedItems.TimedItemList.At` | src/final/timed_item_list.cpp:10-24 | The index agrees with a linear search by action and never misses |
| `TimedItems.TimedItemList.Enable` | src/final/timed_item_list.cpp:10-12 | Sets scheduled and enabled of exactly the searched item; the index stays right |
| `TimedItems.TimedItemList.Disable` | src/final/timed_item_list.cpp:14-16 | Clears enabled of exactly the searched item; the index stays right |
| `TimedItems.TimedItemList.SetDelay` | src/final/timed_item_list.cpp:18-20 | Sets time_delay of exactly the searched item; the index stays right |
| `TimedItems.TimedItemList.GetStatus` | src/final/timed_item_list.cpp:22-24 | Reads enabled of the searched item |
| `SafeQueues.SafeQueue.Enqueue` | src/server/safe_queue.hpp:31-36 | The element joins at the back |
| `SafeQueues.SafeQueue.Dequeue` | src/server/safe_queue.hpp:40-51 | One pass of the waiting loop: the front element leaves, or the queue is empty and the wait goes on |
| `SafeQueues.SafeQueue.Poll` | src/server/safe_queue.hpp:55-67 | The front element leaves, or the null item is answered and the queue stays empty |
| `SafeQueues.Fifo` | src/server/safe_queue.hpp:31-67 | In every history of enqueues and polls the elements taken, then those left, are the elements put in, in order |
| `Visitors.Visitor.constructor` | src/visitor/worker_visitor.hpp:87-99 | The fields start so that table, pins and burn state are the transition system's initial ones |
| `Visitors.Visitor.CheckTiList` | src/visitor/worker_visitor.cpp:19-33 | The loop with bound 20 that stops after 13 entries adds exactly the due entries |
| `Visitors.Visitor.WorkerVisitProc` | src/visitor/worker_visitor.cpp:60-102 | Base commands: pins and follow-up entry for every byte |
| `Visitors.Visitor.LunaVisitProc` | src/visitor/luna_visitor.cpp:10-42 | Luna's commands over the base ones |
| `Visitors.Visitor.TitanVisitProc` | src/visitor/titan_visitor.cpp:10-60 | Titan's commands and presets over the base ones |
| `Visitors.Visitor.VisitIgn` | src/visitor/worker_visitor.cpp:177-193 | The igniter, the delays of ign2 and ign3 and the arming of ign2, as Ignite says |
| `Visitors.Visitor.LunaFireTimed` | src/visitor/luna_visitor.cpp:55-117 | ign2, ign3 and gitvc on Luna change table, pins and burn state as Fire says |
| `Visitors.Visitor.TitanFireTimed` | src/visitor/titan_visitor.cpp:73-102 | ign2 and ign3 on Titan, as Fire says |
| `Visitors.Visitor.Watch` | src/visitor/worker_visitor.cpp:129-146 | The running average and the cut-off, as AverageAfter, Trips and CutOff say, the rings untouched |
| `Visitors.Visitor.StoreReading` | src/visitor/worker_visitor.cpp:148-173 | add_data, the send bookkeeping, the frame for the network when connected and the dump to the log, for the one channel; a log whose writes progress takes everything |
| `Visitors.Visitor.WorkerVisitTimed` | src/visitor/worker_visitor.cpp:104-175 | A sensor's visit takes the objects from their abstract state to the one Sample gives |
| `Visitors.Visitor.Visit` | src/visitor/worker_visitor.cpp:35-58 | Each visit takes the objects to the state the transition system's visit gives, a scan run to its end |
| `MainWorkers.MainWorker.Turn` | src/final/main_worker.cpp:7-19 | One turn takes the objects to the state the transition system's worker reaches with this clock and ADC reading; no log write fails if the file opens and its writes progress |
| `MainWorkers.MainWorker.WorkerMethod` | src/final/main_worker.cpp:7-19 | Any number of turns takes the objects to the state Iterate gives for exactly these ADC readings and clock differences, with no failing log write if the files open and their writes progress |
| `Turns.TurnRuns` | src/final/main_worker.cpp:7-19 | Each whole turn of either loop is a run of the transition system, without a failing log write unless the turn's disk fails |
| `Turns.UnknownOffered` | src/final/main_network_worker.cpp:21-39 | The turns receive no more bytes without a case than their sockets offered |
| `Threads.WorkerGo` | src/final/main_worker.cpp:7-19 | A worker turn takes the objects to TurnStep's state and keeps them reached by a run, with a faithful history of sends |
| `Threads.NetworkGo` | src/server/network_worker.cpp:28-36 | A network turn does the same; a frame sent becomes a message that is the slice of the stream whenever its bytes were still in the ring |
| `Threads.Interleave` | src/final/main.cpp:160-163 | Any interleaving of whole turns takes the objects to exactly the state TakeTurns computes from the turns' times, bytes and readings, which a run reaches; no log write of that run fails if the files open and their writes progress |
| `Programs.StartUp` | src/final/main.cpp:140-158 | The constructors in main's order leave the objects in an initial state of the transition system, with nothing sent |
| `Programs.ObjectLogs` | src/visitor/worker_visitor.cpp:149-173 | LosslessLog on the objects: each log file holds exactly the records of its sensor's readings up to the last send |
| `Programs.Recovered` | src/final/main_network_worker.cpp:54-91 | End to end: with at most one unknown byte, whole writes and each frame sent within 48 seconds of its hand-over, parsing the socket's bytes leaves no rest and yields for each sensor its frames in order, each as that slice of the sensor's records |
| `Programs.Program` | src/final/main.cpp:140-164 | From start-up on, for every interleaving of turns: the final state is TakeTurns' and reached by a run, so theorems about runs hold of the objects; from conditions on turns and write results alone the log files are complete, and with each frame sent in time so is what the base station reads |
| `Delivery.SendFaithful` | src/final/main_network_worker.cpp:54-91 | A waiting frame sent in any reachable state becomes a message with its channel's code; its payload is its slice of the stream if the ring still held it, and the ring did if it is sent within 48 seconds |
| `Delivery.RunDelivered` | src/final/main_network_worker.cpp:45-92 | With all frames sent in time, the messages of each channel are its sensor's records, sliced by the first of its queued frames, in order |
| `Delivery.Unbroken` | src/visitor/worker_visitor.cpp:153-170 | If besides no frame of a channel was skipped for want of a connection, the payloads received for it join into the first bytes of its sensor's records |
| `BuffLogger.Routing` | src/final/main_buff_logger.cpp:26-60 | Each sensor's send code is its action's number; a code goes to the file of sensor i if and only if it is sensor i's code |
| `BuffLogger.WriteBuff` | src/final/main_buff_logger.cpp:21-74 | Appends write_data's bytes to the one file of the code; an unknown code or a failing open answers -1 and changes no file |
| `NetworkWorkers.NetworkWorker.constructor` | src/server/network_worker.hpp:43-54 | Nothing sent; last_recv lies a timeout before now; connected is arbitrary |
| `NetworkWorkers.NetworkWorker.OpenConnection` | src/server/network_worker.cpp:139-146 | Connected, not acked, last_recv now |
| `NetworkWorkers.NetworkWorker.FailConnection` | src/server/network_worker.cpp:107-117 | Not connected; nothing else changes |
| `NetworkWorkers.NetworkWorker.DoRecv` | src/server/network_worker.cpp:72-105 | Nothing to read, a byte, end of file or an error: the answer and the new state of each |
| `NetworkWorkers.NetworkWorker.SendHeader` | src/server/network_worker.cpp:148-159 | One write of the header; its result is ignored |
| `NetworkWorkers.NetworkWorker.SendBytes` | src/final/main_network_worker.cpp:54-91 | The header, then write_data's bytes; a whole header and progressing writes give one complete message |
| `NetworkWorkers.NetworkWorker.SendFrame` | src/final/main_network_worker.cpp:45-92 | nq_send: one message for the frame, with the ring's bytes; as long as all writes were whole the socket carries exactly the messages of the frames sent, and writes that take a header each are whole |
| `NetworkWorkers.NetworkWorker.WireParsed` | src/final/main_network_worker.cpp:54-91 | From the socket's bytes a receiver recovers exactly the messages sent, as long as all writes were whole |
| `NetworkWorkers.NetworkWorker.BaseProcessNqi` | src/server/network_worker.cpp:39-70 | nq_none: connect, time out, ask for an ack or re-arm the read; anything else is refused, after connecting if need be |
| `NetworkWorkers.NetworkWorker.ProcessNqi` | src/final/main_network_worker.cpp:12-98 | Each item's effect on connection, queues and socket; exactly a received byte enqueues work |
| `NetworkWorkers.NetworkWorker.WorkerMethod` | src/server/network_worker.cpp:28-36 | One iteration of the loop is one step of the transition system's network thread, and the enqueue it owes |

## Left out

- Sockets, `listener`, `poll`, choice of TCP or UDP, opening and closing of files: replaced by a byte arriving or not, scripted write results, and an outcome of opening.
- GPIO and SPI calls and the bit packing of the ADC: pins are values, a reading is a number; pin levels in the middle of one handler are not observed.
- `Logger`, console output and `perror`: no effect on the modelled state.
- INI parsing and the range checks of `main`: the configuration is a parameter with non-negative delays; negative ones are not modelled.
- Wall clock and wrap-around of unsigned time stamps and counters: time never decreases and numbers are unbounded.
- Rounding in the pressure filter: it is computed over the reals.
- Mutex and condition variable: each queue operation, or pass of a waiting loop, is one step.
- Visitors.Visitor.CheckTiList: runs undisturbed; the interleaving of a scan with received commands is in the transition system's thirteen steps.
- Threads.Interleave: interleaves whole turns of the loops; finer interleavings are runs of the transition system, and byte-level ones are in ConcurrentRead.
- NetworkWorkers.NetworkWorker.SendFrame: reads the ring at one moment; a read while the worker writes is in `ReadWhileWriting`.
- Programs.Recovered: promises nothing for a frame that waited longer than 48 seconds in the network queue; the queue's waiting time depends on the operating system's scheduling.
- CircularBuffers.CircularBuffer.CopyData: what a copy from outside the array brings is undefined and only named; the source has no such call.
- `visitDefault`: the queue never holds an item that reaches it.
- The uncalled `rwrite`, `counter`, `echo_server`, `udp_test`, `spi`, `network_visitor` and the tests' framework: not part of the controller.
