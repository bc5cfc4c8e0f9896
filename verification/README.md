# Verified models of the UNX511 message, memory, socket and driver programs

The repository holds small systems programs in C and C++. This project models the ones whose
behaviour is hard to see from any one function, and proves what they do under every schedule and
every input. `dafny verify dfyconfig.toml` checks all of it.

**Lab8, message dispatch.** A server and three clients, two threads each, share one System V
queue and guard a local queue with a mutex. The model has three layers.

- `DispatchThreads` is the eight threads at one shared-memory or kernel operation a step: lock,
  test, `front`, `pop`, unlock and `msgsnd` are separate steps, any thread may move next, SIGINT
  may arrive at any time, and the kernel queue has any capacity of at least 1.
- `DispatchPipeline` is the same system with atomic queue operations and no locks.
- `DispatchDelivery` has the specification: one FIFO queue for each destination.

`DispatchRefinement` shows that every run of the first is a run of the second and of the third,
and draws the conclusions about whole runs. `DispatchLiveness` is about getting on: no blocked
sender need stay blocked, and everything in flight can be delivered. `DispatchShutdown` is about
stopping: how processes wind down, and exactly when the Quits can go out.
`DispatchProgress` has how each thread gets on and ends, `DispatchTexts` what the messages say.
`DispatchProcesses` and `DispatchSystem` are the programs in the source's form, as objects whose
methods update their globals in place, and every such method is proved against the step
functions that the theorems are about. `DispatchMessages` has the messages and the kernel queue,
`Decimal` the `%d` conversion (section 7.21.6.2 of ISO C11).

**Lab10, the shared-memory turn** (`SharedTurn`, `SharedTurnBodies`, `SharedTurnRounds`,
`SharedTurnProcess`). Three clients pass a turn through `destClientNo` with no lock, one statement a
step over sequentially consistent memory, from a zeroed segment to which all three are attached.

**Lab9, the chat server** (`ChatServer`, `ChatServerRuns`, `ChatServerProcess`). Accepting,
draining and shutting down interleave with the receive threads; what `accept` and `read` return is
arbitrary.

**Lab5, the driver** (`HardwareDevice`). The sweeping kernel thread interleaves with `ioctl`,
`read` and unloading.

**assignment1** (`Accumulator`): the bounded read loop. **Assignment3**: the level command printed
and parsed back (`LogControl`), a log line's way from a buffer through a datagram to the log file
(`LogRecords`), and the cars and laps (`TravelSimulator`), with `double` as `real`.

Histories that no step looks at are fields of the model: the kernel's `log` of every message ever
put, `printed`, `sends` and a message's `no` in Lab8; `hops`, `accepted`, `sources` and `messages`
in Lab10; `accepted`, `pushed`, `printed`, `received`, `events` and a string's `conn` in Lab9;
`refuels` and the fuel totals of a car. A `fault` field records undefined behaviour (`front` of
an empty queue, an index past an array, a read of a closed descriptor); it is proved never to be
set.

Four things the code does not do, although its comments or structure suggest otherwise:

- Lab10 calls itself an exercise with named semaphores and announces one at line 82 of each
  client, but has none. The turn is passed correctly anyway; the message text is not protected.
- The Lab8 server's shutdown can hang: receivers that were told to stop may have left their loops
  while the queue is full of messages only they would take. Then no Quit can be sent, unless a
  signal interrupts the blocked msgsnd, which the model leaves out.
- Unloading the Lab5 driver does not end its thread while that is in its inner loop, since that loop
  tests only is_halt, which unloading clears; a HALT is needed as well.
- The assignment1 worker can accept a short chunk after skipping a long one, so what it has
  accumulated of a file of 60 MiB or more need not be a prefix of the file.

## Model

| member | source | states |
|---|---|---|
| `DispatchRefinement.RunDelivers` | Lab8/server.cpp:46-88 | After every run, what a client printed followed by what is in its hands, its local queue, the kernel, the server's hands and the server's queue is exactly what was sent to it, in global send order: no loss, duplication, misrouting or reordering. |
| `DispatchRefinement.RunRefines` | Lab8/client1.cpp:67-105 | Every run of the eight threads is, for each destination, a run of one FIFO queue: sends enqueue, prints dequeue the head, no other statement is visible. |
| `DispatchRefinement.Simulate` | Lab8/client1.cpp:68-73 | Lock, queue operation and unlock as separate steps refine one atomic queue operation. |
| `DispatchRefinement.ExecGood` | Lab8/server.cpp:46-88 | Every run from an initial state keeps mutual exclusion and the whole pipeline invariant, which the results below that name no run assume. |
| `DispatchRefinement.NeverFaults` | Lab8/client1.cpp:68-71 | No run calls front() or pop() on an empty queue, although size() is tested before locking. |
| `DispatchThreads.OnlyOwnersTouchQueues` | Lab8/server.cpp:47-51 | A process's queue changes only in a step of the thread that owns its mutex. |
| `DispatchThreads.LockedStep` | Lab8/server.cpp:47-56 | Every step of every thread keeps mutual exclusion, non-emptiness where front and pop need it, and that threads end only after being told to stop. |
| `DispatchPipeline.ActInv` | Lab8/server.cpp:46-88 | Every atomic operation keeps routing, the server's single line, each client's line, the place of Quit, the kernel's capacity and each client's alternation. |
| `DispatchDelivery.Delivery` | Lab8/server.cpp:49-54 | The eight places between a send and a print, concatenated oldest first, complete what was printed to what was sent. |
| `DispatchDelivery.RefinesFifo` | Lab8/client1.cpp:69-73 | One atomic operation enqueues at one destination, dequeues at one, or changes no queue at all. |
| `DispatchRefinement.RunAlternates` | Lab8/client1.cpp:75-83 | The kth message from client 1 that client 2 prints is client 1's send 2k-1, and at client 3 its send 2k; likewise 3 then 1 for client 2 and 1 then 2 for client 3; none is printed at its sender. |
| `DispatchDelivery.KthPrinted` | Lab8/client2.cpp:76-84 | The same in every state that satisfies the pipeline's invariant, with k counted from 0. |
| `DispatchDelivery.AlternatingRoutes` | Lab8/client3.cpp:76-81 | Of an alternating sequence exactly every other message goes to each destination. |
| `DispatchMessages.ClientTextIsNotQuit` | Lab8/client1.cpp:82-99 | No process identifier makes a client's own text pass the strncmp with Quit. |
| `DispatchTexts.RunTexts` | Lab8/client1.cpp:74-83 | In every run each message on a client's screen was for that client, and its text is digits that read back as the process identifier of the client named as source, followed by the literal ending of that client. |
| `DispatchTexts.OnTheWire` | Lab8/server.cpp:53-69 | In every run all that was ever put on the queue is type 4 with such a text, type 1 to 3 with such a text for that client, or the server's literal Quit to that client. |
| `DispatchTexts.TextTellsSender` | Lab8/client2.cpp:83 | Two clients, or two nonnegative process identifiers, never give the same text. |
| `DispatchTexts.ClientTextFits` | Lab8/client3.cpp:83 | For every 32-bit process identifier the text and its zero fit the 64 bytes of buf. |
| `DispatchRefinement.RunQuits` | Lab8/client1.cpp:99 | A receiver about to stop for a Quit holds the server's broadcast to it, has pushed everything the server ever dispatched to it in dispatch order, and has nothing more waiting. |
| `DispatchDelivery.QuitComesLast` | Lab8/server.cpp:61-69 | The same from the invariant, and the broadcast to that client has happened. |
| `DispatchShutdown.QuitStops` | Lab8/client1.cpp:95-104 | Once a receiver takes its Quit, whatever is scheduled afterwards, that client sends at most once more and nothing is pushed behind what the server had dispatched to it by then. |
| `DispatchShutdown.ClientWindsDown` | Lab8/client1.cpp:67-95 | A client told to stop, by Quit or SIGINT, sends at most one more message in any continuation, and once its receiver is back at its loop test nothing more is pushed. |
| `DispatchShutdown.ServerWindsDown` | Lab8/server.cpp:46-59 | After SIGINT the server dispatches at most one more message. |
| `DispatchRefinement.RunHandoffs` | Lab8/server.cpp:46-88 | Over any run, hand-offs made plus weighted stages left equal the stages at the start plus eight for each send. |
| `DispatchRefinement.HandoffBound` | Lab8/client1.cpp:67-104 | From the start: hand-offs plus stages left are exactly eight times the sends, so never more than eight a send. |
| `DispatchDelivery.WeightStep` | Lab8/server.cpp:53-54 | A send adds eight stages, a hand-off uses exactly one, nothing else changes the sum. |
| `DispatchLiveness.DrainsCompletely` | Lab8/client1.cpp:68-74 | With no process told to stop and the client main loops in their drain loops, a continuation without a new send, of at most seven steps for each stage left, has every client print exactly what had been sent to it. |
| `DispatchLiveness.HandoffsRemain` | Lab8/server.cpp:46-59 | In such a state a hand-off without a new send is possible exactly as long as some client has not printed all that was sent to it. |
| `DispatchLiveness.Drive` | Lab8/server.cpp:47-51 | A thread with something to pass on, helped where its partner holds the lock, makes a hand-off within seven steps and without a new send, and the state can be driven on. |
| `DispatchLiveness.OwnersNeverBlock` | Lab8/client1.cpp:69-72 | Whoever owns a mutex can take its next step, so no thread holds one while blocked in msgsnd or msgrcv. |
| `DispatchLiveness.FreeSlot` | Lab8/server.cpp:54-85 | For every capacity, before anything is told to stop: at most nine steps of threads that are not senders free a slot, and then every waiting sender can send. |
| `DispatchProgress.SendsNext` | Lab8/client1.cpp:67-84 | A running client at its loop's test, with room in the kernel, can print all that has arrived and send the next message of its alternation without help from another process. |
| `DispatchProgress.MainEnds` | Lab8/client1.cpp:67-87 | The main of a client that was told to stop gets to its join if its last send finds room. |
| `DispatchProgress.ReceiverEnds` | Lab8/client1.cpp:93-107 | The receiver of a client that was told to stop ends, unless it is waiting in msgrcv. |
| `DispatchProgress.ServerReceiverEnds` | Lab8/server.cpp:77-88 | The server's receiver can always end after SIGINT. |
| `DispatchProgress.SignalStopsClient` | Lab8/client1.cpp:26-33 | After a SIGINT to a client it sends at most one more message in any continuation. |
| `DispatchProgress.SignalStopsServer` | Lab8/server.cpp:22-26 | After a SIGINT to the server it dispatches at most one more message in any continuation. |
| `DispatchShutdown.BroadcastReaches` | Lab8/server.cpp:61-69 | From any state of the broadcast, whichever processes still run, the Quits up to a given one can all go out if and only if fewer slots than the capacity hold, or will by then hold, messages nobody will take. |
| `DispatchShutdown.BroadcastProceeds` | Lab8/server.cpp:65-69 | The next Quit can go out if and only if the kernel is not full of messages whose receivers were told to stop and are not already in msgrcv. |
| `DispatchShutdown.BroadcastCompletes` | Lab8/server.cpp:61-69 | With every client still running, that is also when the whole broadcast can go out. |
| `DispatchShutdown.JamIsReachable` | Lab8/server.cpp:77-81 | For every capacity a run reaches a shutdown in which no Quit can go out. |
| `DispatchShutdown.JammedForever` | Lab8/server.cpp:65-69 | In such a jam no continuation changes the kernel queue or gets the broadcast on. |
| `DispatchProcesses.MessageQueue.Send` | Lab8/server.cpp:54 | msgsnd appends, or blocks exactly when the queue is full. |
| `DispatchProcesses.MessageQueue.Receive` | Lab8/server.cpp:80 | msgrcv with a positive type removes the first message of that type and keeps the rest in order, or blocks exactly when there is none. |
| `DispatchProcesses.ServerProcess.MainStep` | Lab8/server.cpp:46-71 | One statement of the server's main, in place, is the step the run theorems are about. |
| `DispatchProcesses.ServerProcess.RecvStep` | Lab8/server.cpp:77-88 | One statement of the server's recv_func, likewise. |
| `DispatchProcesses.ServerProcess.ShutdownHandler` | Lab8/server.cpp:22-26 | SIGINT clears is_running and nothing else. |
| `DispatchProcesses.ClientProcess.MainStep` | Lab8/client1.cpp:67-85 | One statement of a client's main, in place, is the step the run theorems are about. |
| `DispatchProcesses.ClientProcess.SendNext` | Lab8/client2.cpp:76-84 | The alternation, the message built and its send, nothing of which happens where msgsnd blocks. |
| `DispatchProcesses.ClientProcess.RecvStep` | Lab8/client3.cpp:94-108 | One statement of a client's receive thread, likewise. |
| `DispatchSystem.Machine.Run` | Lab8/client1.cpp:67-105 | The four processes run in place by any schedule, up to the first blocked actor, follow the step functions and deliver in order. |
| `SharedTurn.OneTurnAtATime` | Lab10/client1.cpp:85-90 | Under every interleaving at most one client is between its successful destClientNo test and its next destClientNo write. |
| `SharedTurn.SourceIsTheGiver` | Lab10/client2.cpp:85-86 | The source a client is about to print is the client that handed it the turn. |
| `SharedTurn.HandoffsAreAWalk` | Lab10/client3.cpp:84-95 | The hand-offs are a walk starting 3 to 1; each hop starts where the one before ended, goes where the round number says, never to itself; turns accepted and sources printed follow it. |
| `SharedTurn.WritesMatchTurns` | Lab10/client3.cpp:85-95 | Once client 3 has opened, destClientNo writes equal accepted turns, plus one exactly when no client is inside its turn. |
| `SharedTurn.AtMostThirtyTurns` | Lab10/client1.cpp:84-94 | Each client accepts at most NUM_MESSAGES turns in any run. |
| `SharedTurn.EveryRunEnds` | Lab10/client2.cpp:84-94 | No run of the three programs is longer than 730 statements and signals. |
| `SharedTurnRounds.ThirtyRounds` | Lab10/client1.cpp:84-85 | A client that is done and was never signalled has tested destClientNo exactly 30 times. |
| `SharedTurnRounds.LoopGoesOn` | Lab10/client2.cpp:84 | At its loop's test a client goes on exactly if it has made fewer than 30 tests and was not signalled. |
| `SharedTurnRounds.TestTells` | Lab10/client3.cpp:90 | In any run a test accepts the turn if and only if the last destClientNo write named the tester. |
| `SharedTurnRounds.TurnCompletes` | Lab10/client1.cpp:86-92 | Six statements after an accepted test the client has handed the turn to the next in its alternation, with its own literal message, and is back at its loop. |
| `SharedTurnRounds.OpeningCompletes` | Lab10/client3.cpp:84-87 | Client 3 opens with the turn for client 1 and message 0. |
| `SharedTurnBodies.BodiesMatchExactly` | Lab10/client1.cpp:87-92 | In any run every text printed is the one its source wrote for that hop if and only if at every print the last text statement was the sprintf of the client that made the last hop, for that hop. |
| `SharedTurnBodies.BodiesMatchHeaders` | Lab10/client2.cpp:82-92 | That is so if no statement runs while another client is between naming its successor and finishing the text, which the announced semaphore would ensure. |
| `SharedTurnBodies.BodyCanBeMissed` | Lab10/client3.cpp:85-87 | It is not always so: client 1 can print an empty text as the message of client 3's opening. |
| `SharedTurnProcess.TurnClient.Step` | Lab10/client1.cpp:84-94 | One statement of a client, in place, is the step the run theorems are about. |
| `SharedTurnProcess.TurnSystem.RunAll` | Lab10/client1.cpp:84-94 | The three clients run in place on one segment by any schedule, up to the first that is done: the sources on the screens are those of the walk, and the texts belong to it exactly in a well-timed schedule. |
| `SharedTurnProcess.TurnClient.constructor` | Lab10/client3.cpp:83-89 | Client 3 begins with the opening, the others with their loops. |
| `ChatServerRuns.StreamsSurvive` | Lab9/server.cpp:40-47 | Under every schedule and chunking, printed then queued strings are the pushed ones in push order; for each connection printed, queued and in-hand bytes are exactly what its reads delivered along the schedule, and what is printed is always a prefix of that. |
| `ChatServerRuns.ConnectionsAreAccepted` | Lab9/server.cpp:79-86 | The connections are the descriptors that accept returned along the schedule, in order. |
| `ChatServerRuns.AcceptServes` | Lab9/server.cpp:75-86 | While fewer than three are connected, one pass of main's loop serves the next connection: it is in the next slot, and a new thread is handed that slot. |
| `ChatServerRuns.ReadServes` | Lab9/server.cpp:40-47 | While the server runs and the mutex is free, one round of a thread puts up to 4096 bytes from a read at the end of the queue, all of them and as one string. |
| `ChatServerRuns.DrainServes` | Lab9/server.cpp:88-94 | With the mutex free one drain prints all that is queued, in order. |
| `ChatServerRuns.SlotsAreStable` | Lab9/server.cpp:75-86 | client_count stays within MAX_CLIENTS, no index, empty queue or closed descriptor is ever misused, and from the moment a thread exists, however the run goes on, its slot holds the descriptor accepted for it and that is the one it reads. |
| `ChatServerRuns.ShutdownIsOrderly` | Lab9/server.cpp:99-103 | A stopped server has sent exactly one Quit to each accepted connection and closed each descriptor after joining its thread, in slot order. |
| `ChatServerRuns.ShutdownFinishes` | Lab9/server.cpp:74-107 | SIGINT stops the server whatever state it finds: no continuation, whatever the reads deliver, runs more statements than are left then, and one can be continued exactly until the server has stopped. |
| `ChatServerRuns.DrainsAreComplete` | Lab9/server.cpp:88-94 | Whenever main unlocks after draining, all that was pushed has been printed. |
| `ChatServer.NextInv` | Lab9/server.cpp:31-103 | Every statement of main and of every thread keeps all of the above. |
| `ChatServerProcess.ServerProcess.AcceptStatement` | Lab9/server.cpp:76-86 | The accept part of main, in place, is the step the run theorems are about, with every index in bounds. |
| `ChatServerProcess.ServerProcess.DrainStatement` | Lab9/server.cpp:88-94 | The drain part, likewise, with front and pop only on a non-empty queue. |
| `ChatServerProcess.ServerProcess.ShutdownStatement` | Lab9/server.cpp:99-103 | The shutdown loop, likewise. |
| `ChatServerProcess.ServerProcess.ReadStatement` | Lab9/server.cpp:31-43 | A receive thread up to its read, likewise. |
| `ChatServerProcess.ServerProcess.PushStatement` | Lab9/server.cpp:43-47 | A receive thread from the lock to the unlock, likewise. |
| `ChatServerProcess.ServerProcess.Run` | Lab9/server.cpp:75-107 | The server run in place by any schedule, up to the first actor that cannot move: slots hold the descriptors accepted along it, what is printed of a connection is the first part of what its reads delivered, and a stopped server has said farewell to each connection in slot order. |
| `HardwareDevice.BufferBetweenSweeps` | Lab5/kernel/hardwareDevice.c:49-61 | After the fill and n sweeps the buffer is fifteen cells of letter n mod 26 and a zero. |
| `HardwareDevice.BufferDuringSweeps` | Lab5/kernel/hardwareDevice.c:55-58 | At every moment after the fill a reader sees the next letter up to some cell and the current one after it; only the cell being stepped may hold the character between. |
| `HardwareDevice.KeepsSweeping` | Lab5/kernel/hardwareDevice.c:43-66 | Left alone, the thread has made its nth sweep after 18 + 32n statements. |
| `HardwareDevice.SweepsOn` | Lab5/kernel/hardwareDevice.c:54-61 | From any reachable state at the inner loop's test, not halted, the next 32 statements are a sweep: every letter becomes the next, with 'a' after 'z'. |
| `HardwareDevice.ResumeSweeps` | Lab5/kernel/hardwareDevice.c:137-139 | RESUME lets a thread waiting in the outer loop make its next sweep. |
| `HardwareDevice.UnloadEndsThread` | Lab5/kernel/hardwareDevice.c:94-98 | Unloading lets the thread end if and only if it finds it outside its inner loop, which tests only is_halt. |
| `HardwareDevice.HaltEndsUnloaded` | Lab5/kernel/hardwareDevice.c:53-64 | A HALT after unloading ends the thread in any case. |
| `HardwareDevice.SimNeverStuck` | Lab5/kernel/hardwareDevice.c:53-63 | The kernel thread can always take its next statement until it has left its loop. |
| `HardwareDevice.AtMostOneMoreSweep` | Lab5/kernel/hardwareDevice.c:54-61 | After HALT at most one more sweep completes until RESUME or unloading, and none if HALT fell between sweeps. |
| `HardwareDevice.ReadTotals` | Lab5/kernel/hardwareDevice.c:117-128 | Over any reads from offset 0, with any changes of the buffer, the offset and the bytes returned are min(16, sum of the lengths). |
| `HardwareDevice.ReadsAreAPrefix` | Lab5/kernel/hardwareDevice.c:121-127 | If the buffer is the same at each read, the results concatenated are that prefix of it. |
| `HardwareDevice.Driver.FillBuffer` | Lab5/kernel/hardwareDevice.c:49-52 | The opening loop leaves fifteen times 'a' and a zero. |
| `HardwareDevice.Driver.Sweep` | Lab5/kernel/hardwareDevice.c:55-59 | One sweep in place takes every cell from letter n to letter n + 1. |
| `HardwareDevice.Driver.Read` | Lab5/kernel/hardwareDevice.c:117-128 | A read returns the rest of the buffer up to the length asked and moves the offset by that, nothing past the end, and fails without moving it when the copy fails. |
| `HardwareDevice.Driver.Ioctl` | Lab5/kernel/hardwareDevice.c:130-145 | HALT and RESUME set and clear is_halt; any other command is refused and changes nothing. |
| `Accumulator.Accumulated` | assignment1/parallel_file/worker.c:20-24 | For every split into chunks of 1 to 4096 bytes pos stays below 62914560; a shorter file is kept exactly; otherwise pos ends within 4096 bytes of that and the first 62910464 bytes are the file's. |
| `Accumulator.KeptIsPrefix` | assignment1/parallel_file/worker.c:21-24 | For given chunk lengths, all that is kept is a prefix of the file whatever the bytes are if and only if no chunk from the first skipped one on would still fit. |
| `Accumulator.Gap` | assignment1/parallel_file/worker.c:21-24 | It is not always so: a file of 60 MiB and one byte. |
| `Accumulator.Accumulate` | assignment1/parallel_file/worker.c:15-24 | The loop in place, with every copy in bounds, keeps what the lemmas are about. |
| `LogControl.CommandRoundTrip` | Assignment3/server/LogServer.cpp:174-178 | For every 32-bit level the command is the three literal words and the number, fits its 64 bytes, and the client's sscanf recovers the same number. |
| `LogControl.ScanExactly` | Assignment3/client/Logger.cpp:53-54 | The client reads a number from a datagram if and only if what comes before its first zero byte is the three words, with any white space between them, and that number. |
| `LogControl.DatagramTakesEffect` | Assignment3/client/Logger.cpp:53-57 | Any datagram: a command for one of 0 to 3 sets the filter, and everything else leaves it alone. |
| `LogControl.CommandTakesEffect` | Assignment3/client/Logger.cpp:53-57 | The filter becomes the commanded level exactly when that is one of 0 to 3. |
| `LogControl.LastLevelWins` | Assignment3/client/Logger.cpp:51-57 | Over any mix of local settings and server commands the filter is what the last event that named one of 0 to 3 asked for, or the first one. |
| `LogControl.Filter.Receive` | Assignment3/client/Logger.cpp:51-57 | One datagram, in place, whatever it holds, leaves a valid level. |
| `LogRecords.RecordShape` | Assignment3/server/LogServer.cpp:62-83 | A delivered record is the first min(length, 2047) bytes of the text, with a zero byte only when the length is at most 2046. |
| `LogRecords.LogReadsBack` | Assignment3/client/Logger.cpp:131-139 | Cutting the log at zero bytes gives back the lines if and only if each is at most 2046 bytes long. |
| `LogRecords.LogLine` | Assignment3/client/Logger.cpp:117-141 | Nothing is sent while the logger is off or below the filter; otherwise the truncated, terminated text, with every index in bounds. |
| `LogRecords.ReceiveLoop` | Assignment3/server/LogServer.cpp:60-86 | Whatever datagrams arrive, the log file is the in-order concatenation of what is received of each. |
| `TravelSimulator.TrackCycle` | Assignment3/client/TravelSimulator.cpp:75 | The track in lap n is (2n mod 5) + 1. |
| `TravelSimulator.WhoRunsDry` | Assignment3/client/TravelSimulator.cpp:48-56 | In the city exactly the Escalade on tracks 3 to 5 and the Impala on track 5 outrun a full tank. |
| `TravelSimulator.HighwayIsShort` | Assignment3/client/TravelSimulator.cpp:65-73 | No car outruns a full tank on the highway; car 1 ends with 19.0 + 6.2 * track liters, car 2 with 21.0 + 5.8 * track, car 3 with 12.5 + 7.5 * track and car 4 with -12.5 + 12.5 * track. |
| `TravelSimulator.DriveLap` | Assignment3/client/TravelSimulator.cpp:37-73 | A lap pours 100 liters in two pourings that both end at exactly 50, dumps what was left before, and for each car ends at those levels and spills 50 liters less 8.2, 7.8, 10.6 or 17.29 for each unit of track, or nothing where that runs out. |
| `TravelSimulator.Simulate` | Assignment3/client/TravelSimulator.cpp:35-77 | Any number of laps with the four cars: the track, what each has in its tank, was poured, spilled and dumped, every pouring ending at exactly 50, every tank in 0 to 50 and no fuel lost or made. |
| `TravelSimulator.AccountNumbers` | Assignment3/client/TravelSimulator.cpp:65-75 | After n laps 100n liters were poured in and the tank is at the literal level of track (2(n-1) mod 5) + 1. |
| `TravelSimulator.Automobile.AddFuel` | Assignment3/client/Automobile.cpp:27-36 | Pouring is capped at 50 liters and the rest counted as spilled. |
| `TravelSimulator.Automobile.Drive` | Assignment3/client/Automobile.cpp:38-50 | Driving burns efficiency/100 * distance, at most what is there. |
| `TravelSimulator.Automobile.EmptyFuel` | Assignment3/client/Automobile.cpp:22-25 | Emptying dumps exactly what was in the tank. |
| `Decimal.NumberOfDigits` | Assignment3/server/LogServer.cpp:175 | Reading back the printed digits gives the number. |

## Left out

- DispatchThreads: the run theorems stop before the first IPC_RMID (Lab8/client1.cpp:88), after which clients go on with failed receives; a signal that interrupts a client's msgrcv or anyone's msgsnd is not modelled, and nothing is claimed about printing what is still queued locally after Quit.
- DispatchThreads: the size argument of msgsnd and msgrcv, ftok, msgget and thread-creation failures, sleep and usleep; capacity counts messages because all have one size.
- DispatchThreads: a client's choice of destination, its message and its msgsnd are one step, as is the server's `mtype` assignment and its msgsnd, because the rest touches only local variables.
- SharedTurn: memset, sprintf and each read of the text are single steps, packet_no is unused in the source, and the segment stays attached until all clients are done.
- ChatServer: errors of socket, bind, listen, write and pthread_create, the 5-second receive timeout (an empty read at any time), and how the strings look on screen.
- ChatServer: the Lab9 client, which sets is_running after starting its thread.
- HardwareDevice: copy_to_user is one step; device registration, open and close; sleeping; a negative file offset, which read cannot produce.
- Accumulator: opening the file, malloc failure, the memory report and its signals.
- LogControl.FilterAfter: a number outside 32 bits, whose conversion ISO C11 leaves undefined, gives an arbitrary int.
- LogRecords: the words of a log line, sockets, lost or reordered datagrams before arrival, short file writes, the menu, dump_log and last-sender tracking.
- TravelSimulator: double rounding; the four cars are driven through a lap one after the other instead of in lockstep, which cannot matter since they share nothing; log messages and reports.
- assignment2, Lab1 to Lab4, Lab5b, Lab6, Lab7 and the rest of assignment1: terminal, process and /proc plumbing, or too few states to be hard.
