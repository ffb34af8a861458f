# RuralPipe: a model of the tunnel and its proofs

RuralPipe bundles several TCP connections between a client and a server into one tunnel. Queue
threads read datagrams from a tun device and batch them into frames; a frame gets a session-wide
sequence number and goes out on whichever stream is free; the other side finds the frames in the
bytes of each stream and writes their datagrams back to its own tun device in turn. This project
models that path, from the datagrams read on one side to the datagrams written on the other, and
proves what it promises.

`dafny verify dfyconfig.toml` checks everything.

## What is modelled

| files | what they model |
|---|---|
| `Bytes`, `Lists` | bytes, little-endian fields, sequences of sequences, subsequences |
| `FrameFormat` | the frame layout, the header check, the records in a frame's body |
| `TunnelFrameWriter`, `TunnelFrameReader`, `FrameRoundTrip` | the writer and the reader as classes over `array<byte>`, and both together |
| `Deframing`, `TunnelFrameStream` | how a byte stream falls into frames, as a function; the descriptor and the stream as classes that send and receive in pieces |
| `Batching`, `TunnelReceiveLoop`, `BatchingSteps`, `BatchingRuns` | greedy splitting of a queue into frames; the loop of a queue thread as a class; how it meets the scheduler's steps, and a run of the scheduler for each of its accounts |
| `Dispatch`, `DispatchSteps` | dealing the datagrams of received frames to the queues of the tun device, frame by frame as a class; by several socket threads at once as a step relation |
| `Scheduler`, `SchedulerInvariant` | the stream scheduler and the session registry as a step relation, and its invariant |
| `SchedulerOwnership`, `SchedulerChoice`, `SchedulerNumbers`, `SchedulerWires`, `SchedulerQueues` | each part of the invariant is kept by every step |
| `SchedulerSafety`, `SchedulerOutcomes`, `SchedulerProgress`, `WriterPreference`, `SchedulerRuns` | what follows for every run: safety, which way each thread goes, no lost wakeup, sleepers served, and why the lock must let readers pass; runs that show that certain states do come about |
| `Reassembly`, `EndToEnd` | frames in order of their numbers; what the far end gets out of everything a session carried |
| `PipeChain`, `PipeLifetime` | the chain of pipes with calls in flight, attaching and detaching; pipes owned by constructors and destructors |
| `InitialExchange`, `Handshake` | the first frame in each direction; any number of connections of one client in any interleaving |

Concurrency is modelled by steps. A step is what one thread does between two points at which another
thread can interfere: a critical section, a lock acquisition, one partial write. Where a thread is
tells which locks it holds, so the locks are predicates over the threads' places and not separate
state. Fields marked "history" in `Scheduler.dfy` record what happened and decide nothing.

The environment is left open. A read or write may move any positive number of bytes, a poll may time
out or not, a wait may wake up spuriously, `notify_one` may wake any waiter, a frame may be refused
as not yet ready any number of times, a connection may fail at any moment, and the interruption flag
may be seen at any check.

Where the code and its own documentation differ, the model follows the code:

* The header check compares one byte of the magic, not three, because of a misplaced parenthesis
  (`native/common/tunnel_frame.cpp:42-43`). `CheckMeetsIntent` says for which headers this matters
  and `CheckAcceptsWrongMagic` shows one.
* `next()` returning true does not imply that a whole datagram lies inside the frame, although
  `data()` and `size()` are documented as safe to use then (`native/common/tunnel_frame.h:122-134`).
  `OnTunnelFrameFromNext` says exactly when such bytes are written to a queue, and
  `DealOverrunningFrame` shows it for one frame.
* `remainingBytes()` reports 0 both when exactly a separator fits and when not even that does, so it
  is the size of the biggest datagram only for datagrams that are not empty (`RemainingIsTruthful`,
  `FillToOneByte`).
* `pipePush` asserts nothing about `prev` being the pipe itself; the model requires it.

## Model

| member | source | states |
|---|---|---|
| FrameFormat.CheckMeetsIntent | native/common/tunnel_frame.cpp:37-53 | the check made accepts, and refuses with the same error, what the intended three-byte check does, except exactly for headers that begin with the first magic byte and not with all three |
| FrameFormat.CheckAcceptsWrongMagic | native/common/tunnel_frame.cpp:42-45 | a header with a wrong magic that is accepted |
| FrameFormat.FlagsAreIgnored | native/common/tunnel_frame.cpp:46-48 | of the byte that holds both, only the version decides; no flags make a header be refused |
| FrameFormat.SplitBodyReproduces | native/common/tunnel_frame.cpp:65-75 | reading records off any body loses no byte: re-encoding them and appending the rest gives the body back |
| FrameFormat.SplitBodyUnique | native/common/tunnel_frame.cpp:65-75 | an encoded list of datagrams is read as that list and no other, whatever incomplete rest follows |
| FrameFormat.TiledExactlyWhenEncoded | native/common/tunnel_frame.cpp:65-75 | a body is accepted if and only if it is the encoding of some list of datagrams |
| FrameFormat.StampKeepsFrame | native/common/tunnel_frame.cpp:121-124 | numbering a closed frame sets its number and changes neither size, session nor datagrams |
| Bytes.LittleEndianAt | native/common/tunnel_frame.h:40-45 | of a stored integer, byte k is its digit of 256 to the k: the low byte comes first |
| FrameWriter.RemainingIsTruthful | native/common/tunnel_frame.cpp:89-94 | what is reported as remaining is exactly what can be written without tripping the assertion, except for the empty datagram with no room for a separator |
| FrameWriter.FillToOneByte | native/common/tunnel_frame.cpp:89-103 | a frame can be filled so far that zero bytes are reported as remaining although not even an empty datagram fits |
| FrameWriter.TunnelFrameWriter.constructor | native/common/tunnel_frame.cpp:77-87 | starts an empty frame and touches only the six bytes of the header info |
| FrameWriter.TunnelFrameWriter.RemainingBytes | native/common/tunnel_frame.cpp:89-94 | a positive answer is what is left after one more separator; zero means that nothing more than a separator fits |
| FrameWriter.TunnelFrameWriter.OnDatagramWritten | native/common/tunnel_frame.cpp:96-103 | the bytes placed after the separator become the next datagram; nothing else in the buffer changes |
| FrameWriter.TunnelFrameWriter.Append | native/common/tunnel_frame.cpp:110-113 | the datagram becomes the frame's next; nothing before the old or after the new cursor changes |
| FrameWriter.TunnelFrameWriter.Close | native/common/tunnel_frame.cpp:105-108 | the bytes up to the cursor are then an accepted frame that declares its own length, untruncated, and holds exactly the datagrams written |
| FrameWriter.SetSequenceNumberOnClosedBuffer | native/common/tunnel_frame.cpp:121-124 | stores the number in place, low byte first, for each k the digit of 256 to the k at place 22 + k, and changes nothing else of the buffer |
| FrameReader.TunnelFrameReader.Size | native/common/tunnel_frame.h:133-134 | a complete record is ahead if and only if the size read at the cursor keeps within the frame, whatever bytes follow it |
| FrameReader.TunnelFrameReader.Data | native/common/tunnel_frame.h:128-133 | the bytes at the cursor are the record's datagram when a complete record is ahead |
| FrameReader.TunnelFrameReader.Next | native/common/tunnel_frame.cpp:65-75 | moves over one record, or throws exactly when none is complete |
| FrameReader.Drain | native/common/tunnel_frame.cpp:65-75 | iterating terminates, and without throwing if and only if the body consists of complete records, which it returns |
| FrameReader.ReadDatagrams | native/common/tunnel_frame.cpp:37-75 | on arbitrary bytes: succeeds if and only if the header is accepted and the body tiled, and then re-encoding what was read reproduces the body |
| FrameReader.VerdictIsLocal | native/common/tunnel_frame.cpp:55-75 | verdict and datagrams depend only on the bytes inside the declared frame |
| FrameRoundTrip.WriteThenRead | native/common/tunnel_frame.cpp:55-124 | any datagrams that fit, empty ones included, come back unchanged with session and number after writing, closing, numbering and reading; no byte past the frame is touched |
| FrameStream.FileDescriptor.Read | native/common/file_descriptor.cpp:70-82 | retries until at least one byte has been read, or throws because the connection ended |
| FrameStream.FileDescriptor.Write | native/common/file_descriptor.cpp:94-106 | retries until at least one byte has been written, or throws |
| FrameStream.TunnelFrameStream.Send | native/common/socket_producer_consumer.cpp:301-308 | however the writes are cut up, either the whole frame goes out or the prefix that the connection still took, after which it takes nothing |
| FrameStream.TunnelFrameStream.Receive | native/common/socket_producer_consumer.cpp:310-327 | the outcome is a function of the bytes on their way, however they are cut up, and nothing after the frame is consumed |
| FrameStream.TunnelFrameStream.ReceiveLoop | native/common/socket_producer_consumer.cpp:279-287 | passes on the frames of the stream in order, all of them unless interrupted, and an interruption loses none of the rest |
| Deframing.ReceiveOneExactly | native/common/socket_producer_consumer.cpp:310-327 | a receive yields a frame exactly if that frame is what the bytes begin with; once a header is there it waits exactly if a longer frame begins with these bytes, and throws exactly if no frame does, for the reason of the check or on the assertion |
| Deframing.ReceiveManyFrames | native/common/socket_producer_consumer.cpp:310-327 | frames put one after another come out as those frames, whatever follows |
| Deframing.ReceiveManyPrefix | native/common/socket_producer_consumer.cpp:310-327 | of a stream of frames that has arrived in part, exactly the frames that are complete come out; neither the header check nor the size assertion ever fails |
| Batching.GreedyIsOptimal | native/common/tunnel_producer_consumer.cpp:136-197 | no order-preserving split into frames that fit uses fewer frames than a greedy one, but for one frame for each that was closed early |
| Batching.GreedyBound | native/common/tunnel_producer_consumer.cpp:181-197 | a greedy split uses at most 2 * (cost / 3939) + 1 frames, and one more for each closed early |
| Batching.NeighboursOverflow | native/common/tunnel_producer_consumer.cpp:181-184 | a full frame and its successor together carry more than 3938 bytes |
| TunnelReceiveLoop.QueueThread.WaitForDatagram | native/common/tunnel_producer_consumer.cpp:142-174 | ends with a datagram to take, with one more short wait timed out and only if the frame is not empty and nothing is carried over, or with the flag set; each look at the flag is followed by one poll, unless something is carried over |
| TunnelReceiveLoop.QueueThread.FillFrame | native/common/tunnel_producer_consumer.cpp:139-195 | what was carried over or read is in the frame or carried over, in order; a frame is closed as full only if the next datagram did not fit, and otherwise exactly when a short wait timed out; it stops early only on the flag set, a read that finds nothing, or a datagram that fits no frame |
| TunnelReceiveLoop.QueueThread.HandOn | native/common/tunnel_producer_consumer.cpp:199-212 | the same frame is offered once after each look at the flag and taken over at most once; it gives up only on the flag set or an offer that fails for good |
| TunnelReceiveLoop.QueueThread.Run | native/common/tunnel_producer_consumer.cpp:126-214 | what is read are the first datagrams of those on their way, in order, each whole unless longer than the MTU; everything announced is read, and everything read is, in order, in the frames handed on, in the open frame or carried over; no frame handed on is empty or too large; the loop ends only on the flag set, a read that finds nothing, or a refusal for good, and does nothing between looks at the flag but poll, offer or take up a datagram; with an MTU of up to 3936 no assertion fails; for each short wait that timed out it uses at most one frame more than any split does and than the bound, and hands on at most one frame of less than 4095 - MTU bytes |
| BatchingSteps.EachFrameCanBeClosed | native/common/tunnel_producer_consumer.cpp:136-212 | every frame of a queue thread's account is one that the scheduler's model lets the thread close at that point, with the same datagrams left over |
| BatchingRuns.SchedulerSendsAccount | native/common/tunnel_producer_consumer.cpp:136-212 | for every account of the loop there is a run of the scheduler in which the thread reads the same datagrams, hands on and sends exactly the account's frames, numbered in turn, and is left with the same datagrams |
| TunnelReceiveLoop.TimeoutCostsOneFrame | native/common/tunnel_producer_consumer.cpp:136-197 | for every account that the loop can end with, no split of what was read uses fewer frames, but for one for each frame that a timeout closed |
| TunnelReceiveLoop.FullFramesAreLarge | native/common/tunnel_producer_consumer.cpp:181-197 | a frame handed on that no timeout closed has at least 4095 - MTU bytes |
| Dispatch.TunnelProducerConsumer.WriteToNext | native/common/tunnel_producer_consumer.cpp:112-117 | draws the next ticket and writes to that queue only; it fails exactly for a size of zero or when the device refuses the write |
| Dispatch.TunnelProducerConsumer.OnTunnelFrameFromNext | native/common/tunnel_producer_consumer.cpp:109-124 | the complete records before the first empty one, or the first that the device refuses, are dealt out in turn behind what each queue had; it completes exactly on an accepted frame with a tiled body and no empty datagram, if the device takes them all; otherwise, once begun, one more ticket is drawn, and bytes that are no datagram of the frame are written with it if and only if something is left behind the records, none of these is empty, the size found there is positive, and the device takes one more |
| Dispatch.OverrunningFrameOverruns | native/common/tunnel_frame.h:122-134 | a frame that is accepted, is not tiled, and overruns, whatever stale bytes follow it in the buffer |
| Dispatch.DealOverrunningFrame | native/common/tunnel_producer_consumer.cpp:109-124 | on that frame `next()` returns true, and the dispatcher writes one byte of the frame and four stale ones to the queue |
| Dispatch.DealtInSequence | native/common/tunnel_producer_consumer.cpp:109-124 | frame after frame is dealt as the one list of all their attempts would be, the ticket that a failing frame loses included |
| Dispatch.ShareAt | native/common/tunnel_producer_consumer.cpp:112-117 | the datagram with ticket first + k is number k / n of queue (first + k) mod n |
| Dispatch.ShareBalanced | native/common/tunnel_producer_consumer.cpp:112-117 | the queues' loads never differ by more than one |
| Dispatch.SharesComplete | native/common/tunnel_producer_consumer.cpp:109-124 | the shares together have as many datagrams as were written |
| DispatchSteps.EachTicketOnce | native/common/tunnel_producer_consumer.cpp:112-117 | in every interleaving of the threads' draws and writes each ticket is held by a thread, or lost to a failed write, or stands at one place of the queue its remainder names and nowhere else |
| DispatchSteps.ThreadsKeepOrder | native/common/tunnel_producer_consumer.cpp:109-124 | the frames a thread has begun are, in order, what it has dealt and what it still has, and within each queue its own datagrams stand in that order |
| DispatchSteps.FailureEndsThread | native/common/socket_producer_consumer.cpp:203-213 | a write that throws loses its ticket and ends the thread, which deals out nothing more in any run |
| DispatchSteps.LoadsBalanced | native/common/tunnel_producer_consumer.cpp:112-117 | counting the tickets held or lost, the queues' loads never differ by more than one |
| DispatchSteps.OrderKeptExactly | native/common/tunnel_producer_consumer.cpp:109-124 | after a run every queue is in ticket order if and only if no thread wrote while another held a smaller ticket of the same queue that was still to succeed |
| DispatchSteps.PatientRunsKeepOrder | native/common/tunnel_producer_consumer.cpp:112-117 | if nobody writes while another holds a smaller ticket of the same queue, every queue stays in ticket order |
| DispatchSteps.OvertakingSpoilsOrder | native/common/tunnel_producer_consumer.cpp:112-117 | whenever a thread could be overtaken, both writes are enabled one after the other and leave the queue out of order |
| DispatchSteps.OneThreadKeepsOrder | native/common/tunnel_producer_consumer.cpp:109-124 | a single socket thread always keeps ticket order |
| DispatchSteps.TicketsOvertake | native/common/tunnel_producer_consumer.cpp:112-117 | that does come about: a run after which ticket 2 stands before ticket 1 in their queue |
| SchedulerSafety.InvariantKept | native/common/socket_producer_consumer.cpp:146-273 | every step of every thread keeps the whole invariant |
| SchedulerSafety.EveryRunKeepsInvariant | native/common/socket_producer_consumer.cpp:146-273 | the invariant holds at every point of every run, for any number of queues and sockets |
| SchedulerOwnership.LocksKept | native/common/socket_producer_consumer.cpp:217-269 | the map's lock is held by one writer or by readers, a session's mutex by one thread |
| SchedulerChoice.RegistryKept | native/common/socket_producer_consumer.cpp:162-199 | a socket is in exactly the list of the session it joined, from registration to unregistration |
| SchedulerChoice.ChoicesKept | native/common/socket_producer_consumer.cpp:238-257 | a thread that chooses does so from the session in the map, a waiter is after its first stream, and a stream picked stays free until it is taken |
| SchedulerChoice.PicksKept | native/common/socket_producer_consumer.cpp:238-257 | every step keeps that a stream picked is the first one not in use in its session's list |
| SchedulerChoice.NoLostWakeupKept | native/common/socket_producer_consumer.cpp:240-269 | no step makes a wakeup get lost |
| SchedulerOwnership.OwnershipKept | native/common/socket_producer_consumer.cpp:256-272 | every step keeps ownership and byte accounting of the streams, failed sends included |
| SchedulerNumbers.NumbersKept | native/common/socket_producer_consumer.cpp:217-273 | every step keeps each number given out once and accounted for |
| SchedulerWires.WiresKept | native/common/socket_producer_consumer.cpp:256-272 | every step keeps the bytes of every socket in whole frames plus part of one |
| SchedulerQueues.QueuesKept | native/common/tunnel_producer_consumer.cpp:197-212 | every step keeps each queue's datagrams in order in numbered frames, the frame in hand, or the rest |
| SchedulerSafety.SessionLifecycle | native/common/socket_producer_consumer.cpp:162-177 | there is at most one session, and a session in the map has at least one stream; so the assertions that there is exactly one hold |
| SchedulerSafety.ErasedExactlyWhenEmpty | native/common/socket_producer_consumer.cpp:188-193 | a session is out of the map if and only if its list of streams is empty |
| SchedulerRuns.ErasedSessionIsUsed | native/common/socket_producer_consumer.cpp:259-269 | a run at whose end a sender releases its stream in a session that is no longer in the map |
| SchedulerSafety.ListsServe | native/common/socket_producer_consumer.cpp:183-201 | choosing never meets an empty list, and unregistering always finds the session and the stream in it |
| SchedulerOutcomes.TakesFirstFree | native/common/socket_producer_consumer.cpp:243-249 | in every state a thread that has picked a stream has the first of the list that is free: all before it are in use |
| SchedulerOutcomes.LookingSettles | native/common/socket_producer_consumer.cpp:240-254 | a look through the list ends at the first free stream if there is one, and asleep for the first of all exactly if there is none |
| SchedulerOutcomes.RefusedWithoutStreams | native/common/socket_producer_consumer.cpp:218-236 | a frame is refused exactly if no socket is registered, and can be numbered exactly if one is; a thread that looks does one or the other |
| SchedulerOutcomes.FailedSendEndsThread | native/common/socket_producer_consumer.cpp:262-272 | whoever gives back its stream goes on filling frames if and only if its frame was completed, and has ended if and only if it was lost; the stream is free either way |
| SchedulerOutcomes.StoppedForGood | native/common/tunnel_producer_consumer.cpp:82-91 | a queue thread that has ended takes no step any more, and no step of another changes it |
| SchedulerOutcomes.NoWriteAfterClose | native/common/socket_producer_consumer.cpp:183-186 | once its thread has closed a stream nothing is written to it, although it is still listed |
| SchedulerOutcomes.LeavesOthersInOrder | native/common/socket_producer_consumer.cpp:188-193 | unregistering takes exactly its own stream out of the session's list, leaves the others in their order and the other sessions alone |
| SchedulerSafety.AllEndedMapEmpty | native/common/socket_producer_consumer.cpp:89-93 | once every socket thread has ended the map is empty, as the destructor asserts |
| SchedulerSafety.SecondSessionRefused | native/common/socket_producer_consumer.cpp:162-181 | a socket joins an existing session of its id, at the end of its list, or founds one if there is none; for a second session it is refused and nothing else changes |
| SchedulerSafety.StreamOwnership | native/common/socket_producer_consumer.cpp:256-272 | a stream is in use if and only if exactly one thread is between marking and releasing it; `bytesSending` is that thread's frame size or 0; `bytesSent` is the total size of the frames completed |
| SchedulerSafety.FramesNeverInterleave | native/common/socket_producer_consumer.cpp:256-272 | a registered socket has carried its init frame, then whole frames in the order their sends completed, then part of at most one frame, of the thread sending on it or of a failed send |
| SchedulerSafety.NothingAfterFailure | native/common/socket_producer_consumer.cpp:262-271 | taking for granted that a failed write makes all later ones on that socket fail: after a failed send, or once the descriptor is closed, no step of any run writes to it |
| SchedulerSafety.NumbersAccountedFor | native/common/socket_producer_consumer.cpp:236-273 | the numbers given out are 1 .. nextSeqNum - 1; each stands for one thread's frame and is in flight if and only if exactly that thread is still on its way with it |
| SchedulerSafety.CompletedOnce | native/common/socket_producer_consumer.cpp:236-273 | a number is completed if and only if its frame is at exactly one place of one stream |
| SchedulerSafety.LaterNumbersAreLarger | native/common/socket_producer_consumer.cpp:236 | of two numberings in one session the later one yields the larger number, so each thread's numbers strictly increase |
| SchedulerSafety.HistoryOnlyGrows | native/common/socket_producer_consumer.cpp:217-273 | in no run is a number given to another frame later, or a settled fate changed |
| SchedulerSafety.RefusalChangesNothing | native/common/socket_producer_consumer.cpp:218-221 | in every run, whatever the other threads do in between, a frame refused for want of a session uses up no number of any session and comes back unchanged |
| SchedulerProgress.FreeStreamHasTaker | native/common/socket_producer_consumer.cpp:251-268 | if the stream a thread sleeps for is free, another thread is already awake that will look at it before it can sleep |
| SchedulerProgress.SomebodyMoves | native/common/socket_producer_consumer.cpp:238-273 | while a thread sleeps, some queue thread has a step, not counting spurious wakeups, by which it moves on |
| SchedulerProgress.ThreadMoves | native/common/socket_producer_consumer.cpp:238-273 | any thread that has a number and is awake can move on, or the holder of the mutex it wants can; only to come back for the map's lock it may have to wait for an exclusive holder |
| SchedulerProgress.ForwardDecreases | native/common/socket_producer_consumer.cpp:238-273 | every step by which a thread with a number moves on, waking another included, lowers a measure of the work left |
| SchedulerProgress.ForwardRunsServeSleepers | native/common/socket_producer_consumer.cpp:238-273 | however the threads are scheduled, steps that move on come to an end after a number known in advance; then no thread sleeps, and unless a socket thread held the map's lock from the start, every frame with a number is completed or lost and its stream given back |
| SchedulerProgress.IdleReachesTake | native/common/socket_producer_consumer.cpp:251-268 | with no send under way, a sleeper is never stuck: some thread can take a stream within three steps of its own |
| SchedulerProgress.SleepersAgree | native/common/socket_producer_consumer.cpp:240-252 | all sleepers are after the same stream, the first of the only session, and the list cannot change under them |
| WriterPreference.SendersGetStuck | native/common/socket_producer_consumer.cpp:262-273 | the state that is a deadlock under a lock that prefers writers comes about whenever a send is complete while another thread waits for its stream and a socket thread has asked for the lock |
| SchedulerRuns.DeadlockComesAbout | native/common/socket_producer_consumer.cpp:186-269 | a run under such a lock, of two queue threads and two sockets, that leads into that state |
| WriterPreference.WritersFirstDeadlocks | native/common/socket_producer_consumer.cpp:186-269 | under such a lock, which holds readers back only for a thread that has asked for it, no continuation leads out of that state |
| WriterPreference.NotStuckMoves | native/common/socket_producer_consumer.cpp:186-269 | nothing else deadlocks: a sleeper that is in no such state leaves some queue thread a step forward, even under such a lock |
| Reassembly.SortedIsSubsequence | native/common/socket_producer_consumer.cpp:236-273 | frames of a session in ascending order of their numbers give, for each queue, an in-order part of the batches it sent |
| EndToEnd.DeliveredOnce | native/common/socket_producer_consumer.cpp:217-273 | whatever amount of bytes has arrived on each stream, no number arrives twice and each frame is the one that got its number |
| Reassembly.SortedIsComplete | native/common/socket_producer_consumer.cpp:236-273 | if every number of a session is among them, they give everything each queue sent to it |
| EndToEnd.InOrderAtMostOnce | native/common/socket_producer_consumer.cpp:217-273 | in every state of every run, the frames that have arrived, sorted by their numbers, give for each queue an in-order subsequence of the datagrams it read, none twice |
| EndToEnd.CompleteWhenDrained | native/common/tunnel_producer_consumer.cpp:126-214 | if no send failed, none is under way and all bytes have arrived, it is the whole of what that queue read |
| PipeChain.InvariantKept | native/common/tunnel_frame.cpp:150-189 | every call, return, attachment and step of a removal keeps links, counters and calls in flight consistent |
| PipeChain.CounterIsExact | native/common/tunnel_frame.cpp:150-166 | the counter is the number of calls between increment and decrement, and a call in flight can always return |
| PipeChain.DetachedUntilPushed | native/common/tunnel_frame.cpp:168-189 | in every run, when the wait of a removal is over no thread is in the removed pipe, and none enters it until it is attached again |
| PipeChain.SleeperIsOwed | native/common/tunnel_frame.cpp:158-185 | a removal never sleeps while the count is zero, also after repeated removals, and while it sleeps a counted call can go on |
| PipeChain.SpuriousWakeupPasses | native/common/tunnel_frame.cpp:181-186 | a removal that wakes up for nothing looks at the count again and is asleep as before |
| PipeChain.CountsNest | native/common/tunnel_frame.cpp:150-166 | a pipe has no more calls in flight than its predecessor, and none if it has no predecessor |
| PipeLifetime.AssertionsHold | native/common/socket_producer_consumer.cpp:80-99 | with pipes constructed in order and destroyed in reverse order, no assertion of attaching or detaching fails in any interleaving with calls; and the assertions allow only the last pipe to be removed, only a pipe that is not in the chain to be attached, and only below the last or a pipe outside it |
| PipeLifetime.CallTravelsDown | native/common/tunnel_frame.cpp:150-166 | whenever no pipe is being destroyed, a thread with no call in flight can pass a frame down the whole chain: its i-th call enters pipe i, and only the one after the last meets the sentinel |
| PipeLifetime.DestroyedPipesAreEmpty | native/common/socket_producer_consumer.cpp:89-99 | no thread is in a destroyed pipe, each attached link counts at least as many calls as the next, and when all are destroyed the tunnel's next link is the sentinel |
| PipeLifetime.DestructionGoesOn | native/common/signing_tunnel_frame_pipe.cpp:32-35 | destroying a pipe can go on, or waits for a call that can return |
| PipeLifetime.DestructionCompletes | native/common/tunnel_frame.cpp:177-189 | from every state of a destruction there is a continuation, of a bounded number of returning calls and the removal's own steps only, after which the pipe is destroyed |
| InitialExchange.WriteGreeting | native/common/socket_producer_consumer.cpp:44-51 | lays out, byte for byte, an accepted frame of 176 bytes: magic, version 1, no flags, size, session, number 0, filler for the signature, and one datagram of 16 bytes with the sender's name |
| InitialExchange.GreetingTeaches | native/common/socket_producer_consumer.cpp:54-74 | whoever receives a greeting, whatever follows it, learns its session and name |
| InitialExchange.ClientExchange | native/common/socket_producer_consumer.cpp:43-59 | sends the greeting, then takes exactly one frame and agrees on what it says, or fails |
| InitialExchange.ServerExchange | native/common/socket_producer_consumer.cpp:60-75 | takes one frame, answers with the same session under its own name; sends nothing if the frame was no good |
| Handshake.EndsAgree | native/common/socket_producer_consumer.cpp:146-180 | for any number of connections and any interleaving, both ends that get through hold the client's session and the other's name, each has sent its init frame before anything else, and the receive loop starts at the first byte after it |
| Handshake.HearingNeverFails | native/common/socket_producer_consumer.cpp:38-76 | no exchange fails because of what was received |
| Handshake.OnlyBreakingCloses | native/common/socket_producer_consumer.cpp:38-76 | in every run an end is closed if and only if the connection broke on its side |
| Handshake.BothGetThrough | native/common/socket_producer_consumer.cpp:146-180 | from every start and for each connection there is a run after which both its ends are through |
| Handshake.DataFollows | native/common/socket_producer_consumer.cpp:203-204 | in every run what an end that is through has written is its greeting and then exactly its data |
| Handshake.SameSession | native/common/socket_producer_consumer.cpp:162-181 | sockets that hold the same session are never refused, and all that are registered at one time serve the same session object |

## Left out

- Real sockets, `poll`, `ioctl`, `setsockopt`, tun device creation, option parsing, process set-up, commands server, logging, statistics of the tunnel interface, Python scripts.
- Compression, signing and the signature field: still to be written in the code, so both pipes pass frames on unchanged. The 128 signature bytes are whatever the buffer held.
- Session ids of data frames: the code never sets them, so nothing is said about them.
- Upward calls (`pipeInvokePrev`): they are not counted by the code and made only by socket threads, which are joined before any pipe is removed.
- `pipePush` is one step, although it writes two links without a lock, and links are read only inside the critical sections.
- Liveness that needs a fair scheduler, such as the endless retry while no session exists, or a removal that waits while refused calls keep coming. Instead, enabled steps are proved, and that runs of forward steps end, with nobody asleep and every numbered frame completed or lost.
- Sessions are objects that outlive their map entry. A sender uses its session while holding no lock (`native/common/socket_producer_consumer.cpp:259-269`) and the last socket thread may erase it meanwhile; in the model the release then acts on the detached object.
- `alloca` of iterators is a sequence; its size in bytes is not modelled.
- The lock of the session map lets shared lockers pass exclusive ones that wait. `WriterPreference` and `SchedulerRuns` show that the code would deadlock otherwise.
- Write errors are sticky: after one failed write on a socket all later ones fail.
- Sequence numbers and round-robin tickets are unbounded. What is read back from the eight bytes of the field is proved for numbers below 2^64 (`Fits` in `EndToEnd`).
- The exception for a second session is thrown outside the handler's `try`; what the thread pool does with it is not modelled beyond the thread's end.
- A poll that fails, and a write to the tun device that takes part of a datagram.
- Failures inside a frame under concurrent dispatch: `DispatchSteps` deals lists of datagrams, and a thread whose write fails ends there; which frames fail, and with which bytes, is said by `Dispatch` for one call at a time.
- Order across streams at the far end: the order in which frames of different streams are dealt out is arbitrary in the code; nothing sorts them, and `EndToEnd` says what sorting them would give.
- FrameReader.TunnelFrameReader.Data: bytes beyond the end of the buffer are cut off rather than read, and the one byte that a separator may take from there is an arbitrary constant.
- FrameReader.ReadDatagrams: requires that an accepted buffer is as long as the size it declares, because the bytes behind it are not modelled.
- FrameReader.TunnelFrameReader.constructor: requires that the declared size lies inside the buffer, which the code leaves to whoever filled the buffer.
- InitialExchange.ServerExchange: the same holds for the identifier as for the client's below.
- InitialExchange.ClientExchange: the identifier ends at the first NUL or at the end of the frame, whereas the code would read on into the buffer.
- Exception texts, `errno` mapping, durations of waits, and the generation of session ids.
- Data races as such: a step is a critical section or an access of one thread, and memory ordering is not modelled.
