# Verification of Stream To Speaker

Stream To Speaker is a virtual audio device for Windows with a service that sends what
the device plays to a network speaker. This project models the parts of both in which
most can go wrong, and proves what their design promises.

**The driver's inverted-call protocol** (`IrpMachine`, `IrpInvariant`, `IrpFrame`,
`IrpThreadProof`, `IrpListProof`, `IrpEnvProof`, `IrpTheorems`, `IrpWakeups`, `IrpEvents`,
`IrpRaces`). User mode posts IRPs which the driver queues and completes later: when audio
arrives, when the stream stops, when a handle is cleaned up, when a device goes away, or
when the I/O manager cancels them. Any number of threads, IRPs and devices take part; a step is one
interlocked operation, one step inside a lock section, or one step of the I/O manager.
The invariant holds over every interleaving: each uncompleted IRP has exactly one owner,
the rundown count is exact, no freed context is used, and a drained list stays empty. Audio
and a request wait for each other unseen exactly in the runs with one kind of requeue, and
an event waits beside an event request exactly in the runs with one of two steps.

**The driver's data path** (`Bits`, `BoundedQueue`, `RingBuffer`, `Packets`,
`IoctlModel`, `IoctlProof`, `IoctlCtx`, `DrainMachine`, `DrainAlone`, `DrainRaces`). The
power-of-two byte ring with drop-oldest overrun refines a bounded queue; the device
context built on it conserves every byte and every request, and what the service decodes
is what was produced, in order. `IoctlModel` treats each entry point of the driver as
one atomic call and follows contents; `IrpMachine` above follows the interleavings
inside the calls and abstracts from contents. `DrainMachine` follows both for the audio
requests of one device, and so shows which results on whole calls survive interleaving:
`DrainAlone` for one request at a time, `DrainRaces` for any number.

**The WaveRT stream** (`WaveClock`, `WaveStream`) turns the performance counter into
frames due and copies them out of the cyclic buffer: the clock is less than one frame off
exactly as long as its 64-bit products fit (about 484 days of one RUN at 10 MHz), and each
frame goes to the ring exactly once, in order, across the wrap.

**The topology publication** (`Topology`) hands volumes to a reference-counted miniport
behind a second rundown.

**The service's audio path** (`Equalizer`, `EqControl`, `AudioLoop`, `StreamHub`): the
crossfading equalizer and its hand-off between threads, the rate fudge and the latency
adjustment, and the hub that broadcasts frames to the readers of the HTTP stream.

**The HTTP/1.1 reader** (`HttpText`, `HttpHead`, `HttpReader`, `HttpArrival`,
`HttpConnection`): the
incremental head scan, body framing (section 6.3 of RFC 9112), chunked decoding (section
7.1 of RFC 9112) and the reuse of connections. Whatever the reads, a pipeline of
well-formed requests is served as it was sent. `HttpDate` is the IMF-fixdate printer
(section 7.1.1.1 of RFC 7231), `ConnLimiter` the connection budget.

**The service's sessions** (`Sessions`, `Gena`): which speaker session is bound while
selecting, disabling, forgetting and the watchdog race, and which event subscriptions are
registered (section 4 of the UPnP Device Architecture 1.1).

Objects that the program updates in place are classes; every method is proved against a
function of the old state, and the properties are proved of that function. Protocols
between threads are transition systems over values, with an inductive invariant over all
runs. `Common` and `Arith` hold shared datatypes and arithmetic.

`dafny verify dfyconfig.toml` checks the whole project.

## Where the code does not do what its comments or its neighbours suggest

- The audio requeue returns without looking at the ring again (`driver/ioctl.cpp:397-415`).
  `IrpRaces.RequeueRace` is a run in which a frame and a claimable IRP stay beside each
  other with every thread idle. `IrpWakeups.NoLostWakeup`: over all runs, this happens if
  and only if an IRP is requeued while the ring holds a frame, an IRP of the list can be
  claimed and no other thread is about to look.
- The two sides of the event queue use different locks and can pass each other
  (`driver/ioctl.cpp:456-497`, `527-553`): `IrpRaces.EventRace` leaves an event queued
  beside a pending event IRP. `IrpEvents.NeverBothExactly`: over all runs, this happens if
  and only if a dispatcher links its IRP beside an event, or a poster queues its event
  beside an IRP.
- Two drainers can complete their requests out of the order in which they read the ring
  (`driver/ioctl.cpp:365-434`): `DrainRaces.OrderRace`. `DrainRaces.OrderedExactly`: if and
  only if one completes its request while another has an earlier piece in hand. With one
  request at a time this cannot happen (`DrainAlone.HeardInOrder`).
- The ring is read at one place and the restart flag fetched at another
  (`driver/ioctl.cpp:394`, `418`): a stream start between the two marks the last packet of
  the old stream and leaves the first of the new one unmarked, `DrainRaces.MarkRace`, even
  with one request at a time. `DrainAlone.RestartMarksFirst`: if and only if a drainer is
  between the two when the flag is raised.
- The frames of a write are counted after they are in the ring (`driver/ioctl.cpp:346-348`),
  so a packet can say a position that lacks its own frames, `DrainRaces.PositionRace`; by no
  more than that write, `DrainMachine.PositionBetween`.
- `driver/wavestream.cpp:354-355` says that each notification chunk is a whole number of
  frames; the cap at 64 KB (`253-255`) can cut it. `WaveStream.WholeFrameChunks` gives the
  exact condition, `WaveStream.CappedChunksSplitFrames` an input.
- `driver/wavestream.cpp:364` stores the notification count before the allocation can
  fail, so a failed allocation changes nothing if and only if it asks for the count that
  was there (`WaveStream.Stream.AllocateBufferWithNotification`); otherwise a busy stream's
  packets no longer match its notification interval (`WaveStream.BusyStreamDisagrees`).
- The frames due are computed in 64 bits (`driver/wavestream.cpp:777-779`): they are right
  if and only if the product and the count fit, `WaveClock.OverflowExactly`.
- What is made of a head depends on how its bytes arrive if and only if its blank line
  begins 2, 1 or 0 bytes before the limit and its headers are not too many
  (`service/src/http_server.rs:1041-1050`): `HttpArrival.HeadDependsOnArrival`. Whether it
  is accepted depends on that if and only if, besides, it is a proper head:
  `HttpArrival.AcceptanceDependsOnArrival`.
- What is made of a line depends on how its bytes arrive if and only if it is text and its
  length is from the limit to the limit and one read, less the line end
  (`service/src/http_server.rs:1204-1220`): `HttpArrival.LineDependsOnArrival`.
- The rate fudge corrects one frame a packet at most
  (`service/src/audio_loop.rs:121-135`). A stream of equal packets falls behind the rate
  asked for exactly when a packet's share is more than one frame:
  `AudioLoop.RateKeptExactly`, with the instance `AudioLoop.TenMillisecondsAtFullFudge`. Any
  stream is within a frame of it after its stretches of one sign exactly when no end of
  such a stretch brings more whole frames than it has packets: `AudioLoop.RateKeptMixed`.
- A latency step is credited in full even if the packet has fewer frames
  (`service/src/audio_loop.rs:147-150`): `AudioLoop.CreditExact`. Every adjustment is done
  in full over given packets if and only if each of them has the frames of the largest
  step: `AudioLoop.AdjustedInFull`. A packet that a step empties ends the HTTP body of every
  client (`service/src/http_server.rs:1836-1850`): `StreamHub.EmptiedPacketEnds`.

## Model

| member | source | states |
|---|---|---|
| IrpTheorems.StepKeepsInv | driver/ioctl.cpp:261-748 | every step of every thread and of the I/O manager keeps the invariant, a drained queue stays marked, and audio waits beside an IRP unseen afterwards only if it did before or the step requeues beside a frame |
| IrpTheorems.RunKeepsInv | driver/ioctl.cpp:261-748 | the invariant holds in every state of every run from a state where it holds |
| IrpTheorems.NoFault | driver/ioctl.cpp:314-335 | no run unlinks an entry that is not linked, completes an IRP twice or touches it afterwards, drops a rundown reference twice, uses a freed context, or frees one with IRPs in its lists |
| IrpTheorems.OneOwner | driver/ioctl.cpp:283-335 | an uncompleted IRP is in exactly one of: a list with its cancel routine set, the hand of exactly one thread, its cancel routine; and the self-reference of its entry tells whether it is linked |
| IrpTheorems.CompletedIsOut | driver/ioctl.cpp:46-54 | a completed IRP is in no list and has no cancel routine |
| IrpTheorems.NoLostCancel | driver/ioctl.cpp:290-303 | a cancelled IRP that stays in a list with its routine set is one whose routine the I/O manager is still about to take |
| IrpTheorems.PublishedIsFirst | driver/driver.cpp:131-187 | the published context is that of the first live device, none if there is none, and none while a withdrawal drains |
| IrpTheorems.RundownCounts | driver/driver.cpp:110-126 | the rundown count is the number of dispatchers holding a reference plus that of queued IRPs whose reference is not released |
| IrpTheorems.WaitReturns | driver/driver.cpp:170-174 | when the wait of a withdrawal returns no dispatcher is running and no queued or cancelled IRP is left, on any context |
| IrpTheorems.FreedUnheld | driver/driver.cpp:546-558 | when a context is freed its lists are empty, it is not published, and no IRP, dispatcher, cleanup or audio-side producer is inside it |
| IrpTheorems.ClosedStaysEmpty | driver/ioctl.cpp:600-639 | once a closing drain has seen a list empty under its lock the list is empty in every later state, though Closing is stored without the lock |
| IrpTheorems.DrainedRun | driver/ioctl.cpp:283-304 | no run links an IRP into a list that was drained after Closing |
| IrpTheorems.RequeueExact | driver/ioctl.cpp:397-415 | one requeue leaves the wake-up lost if and only if the ring holds a frame, an IRP of the new list is claimable, and no other thread is about to look |
| IrpWakeups.StepWoken | driver/ioctl.cpp:337-415 | from a reachable state in which nobody waits unseen, any step leads to one where somebody does if and only if it is such a requeue |
| IrpWakeups.NoLostWakeup | driver/ioctl.cpp:337-415 | over every run: wherever the ring holds a frame and an IRP could take it some thread is about to look, in every state, if and only if no step is such a requeue |
| IrpWakeups.QuietMeansServed | driver/ioctl.cpp:303-371 | when such a run comes to rest, no claimable audio IRP waits beside a frame |
| IrpEvents.StepPasses | driver/ioctl.cpp:456-553 | from a reachable state without an event beside a claimable event IRP, any step leads to one if and only if it links such an IRP beside an event or queues an event beside such an IRP |
| IrpEvents.NeverBothExactly | driver/ioctl.cpp:456-553 | over every run: no state has an event beside a claimable event IRP if and only if no step is one of these two |
| IrpRaces.RequeueRace | driver/ioctl.cpp:397-415 | a run that ends with every thread idle, a frame in the ring and a claimable audio IRP in the list |
| IrpRaces.EventRace | driver/ioctl.cpp:456-553 | a run that ends with every thread idle, an event queued and an event IRP pending |
| IrpThreadProof.KeepDcPrepare | driver/ioctl.cpp:56-72 | preparing an IRP takes its reference and self-references its entry, keeping the invariant; it fails while a rundown is in progress |
| IrpThreadProof.KeepLocking | driver/ioctl.cpp:283-289 | taking the list lock to queue an IRP, or completing it because the context is closing, keeps the invariant |
| IrpListProof.KeepUnhooking | driver/ioctl.cpp:291-302 | the exchange after Cancel was seen set, won or lost, at the first queueing or at a requeue, keeps the invariant |
| IrpListProof.KeepInserting | driver/ioctl.cpp:303-304 | linking an IRP at either end of its list keeps the invariant even if its cancel routine owns it by then |
| IrpListProof.KeepDequeue | driver/ioctl.cpp:314-335 | a round of the dequeue loop, claiming the IRP or leaving it to its cancel routine, keeps the invariant |
| IrpListProof.KeepClWalk | driver/ioctl.cpp:645-662 | a round of the walk over a list for one handle's IRPs keeps the invariant |
| IrpEnvProof.KeepTakeRoutine | driver/ioctl.cpp:695-702 | the I/O manager's exchange of the cancel routine keeps the invariant |
| IrpEnvProof.KeepRoutineUnlink | driver/ioctl.cpp:710-720 | the cancel routine's lock section unlinks exactly an entry that is linked |
| IrpEnvProof.KeepWUnpublish | driver/driver.cpp:156-166 | leaving the live list and clearing the published pointer keeps the invariant |
| IrpEnvProof.KeepWRepublish | driver/driver.cpp:176-185 | publishing the next live device's context after the wait keeps the invariant |
| IrpEnvProof.KeepAddDevice | driver/driver.cpp:131-141 | adding a device, published or not, keeps the invariant |
| Bits.MaskIsModulo | driver/ringbuffer.cpp:129 | masking with a power of two less one is reduction modulo that power, for every counter |
| Bits.PowerTest | driver/ringbuffer.cpp:22-25 | the bit test of the initialisation accepts exactly the powers of two |
| BoundedQueue.InOrder | driver/ringbuffer.h:9-15 | over every run, what was read and then what is queued are elements of the input in their order, none twice, and the queue is within its capacity |
| BoundedQueue.RunConserves | driver/ringbuffer.cpp:91-196 | over every run, elements read, queued, reported lost and thrown away by resets add up to those written |
| BoundedQueue.LosslessRun | driver/ringbuffer.cpp:91-196 | a run that reports no loss delivers exactly its input |
| BoundedQueue.StepThinned | driver/ringbuffer.cpp:91-196 | every single operation keeps the output a thinned copy of the input |
| RingBuffer.WriteKeepsNewest | driver/ringbuffer.cpp:101-139 | laying down the end of the data and moving the head by the overrun leaves the last Capacity bytes of the queue followed by the data |
| RingBuffer.WindowWritten | driver/ringbuffer.cpp:117-139 | the same for data that fits, whatever the positions of head and tail |
| RingBuffer.PiecesLaid | driver/ringbuffer.cpp:129-138 | the two copies of a write put each byte at its counter modulo the capacity and touch nothing else |
| RingBuffer.Ring.Init | driver/ringbuffer.cpp:14-42 | which sizes are refused, and an empty ring otherwise |
| RingBuffer.Ring.Available | driver/ringbuffer.cpp:60-77 | the number of queued bytes |
| RingBuffer.Ring.Reset | driver/ringbuffer.cpp:79-89 | the queue becomes empty |
| RingBuffer.Ring.Write | driver/ringbuffer.cpp:91-146 | the queue becomes its last Capacity bytes after appending, and the result is exactly the number of bytes lost |
| RingBuffer.Ring.Read | driver/ringbuffer.cpp:148-196 | moves out the longest prefix that fits and leaves the rest; the defensive clamp is never reached |
| Packets.HeaderRoundTrip | include/stream_to_speaker_ioctl.h:112-129 | decoding the 40-byte header gives back every field, whatever is in the padding and behind it |
| Packets.FromLeLe | include/stream_to_speaker_ioctl.h:112-129 | a little-endian integer is read back as it was stored |
| Packets.SamplesInjective | service/src/ioctl_source.rs:404-414 | the samples determine the bytes |
| Packets.RecvPacket | service/src/ioctl_source.rs:359-431 | the method with its sample loop computes the decoder, its four refusals and the synthesized silence included |
| Packets.PacketRoundTrip | service/src/ioctl_source.rs:372-431 | the service gets exactly the samples, time, position and restart flag that the driver filled in, whatever was in the buffer |
| IoctlProof.ApplyOk | driver/ioctl.cpp:261-689 | every entry point of the driver keeps the invariant of ring, requests and events |
| IoctlProof.RunOk | driver/ioctl.cpp:261-689 | and so does every run of them |
| IoctlProof.DeliverOk | driver/ioctl.cpp:352-436 | the drain loop ends with no frame beside a request, and touches no event |
| IoctlProof.AudioConserved | driver/ioctl.cpp:337-349 | bytes delivered, overwritten and queued add up to those produced since the stream start, all in whole frames; the stream position counts those frames modulo 2^64 |
| IoctlProof.ServiceHears | driver/ioctl.cpp:385-434 | the samples the service decodes since the stream start are those that left the ring, in order; all of them if nothing was overwritten; it refuses no successful packet |
| IoctlProof.RequestsConserved | driver/ioctl.cpp:261-309 | the requests pending and those completed are those issued, each once |
| IoctlProof.NothingWaits | driver/ioctl.cpp:352-371 | between calls no byte waits beside an audio request and no event beside an event request; a closed context holds none |
| IoctlProof.EventsInOrder | driver/ioctl.cpp:517-554 | events are handed out in the order posted, each is handed out, queued or lost, at most 15 are queued, and all are delivered if none is lost |
| IoctlProof.RestartMarksFirst | driver/ioctl.cpp:417-431 | a packet carries the restart flag if and only if it is the first since the stream start, and the frame count so far |
| IoctlProof.FileGone | driver/ioctl.cpp:645-681 | handle cleanup leaves exactly the audio requests of the other handles, in their order |
| IoctlProof.PostOk | driver/ioctl.cpp:517-554 | posting an event, to a waiting request or to the queue, keeps the events' invariant and touches nothing else |
| IoctlProof.CloseOk | driver/ioctl.cpp:628-639 | closing keeps the invariant, both lists drained |
| DrainMachine.MoveKeeps | driver/ioctl.cpp:352-436 | every step of every drainer, of the producer and of a stream start keeps the invariant of ring, pieces, flags and positions |
| DrainMachine.EveryPieceOnce | driver/ioctl.cpp:352-436 | in every interleaving of any number of requests and drainers: what left the ring is cut into pieces, each in the hand of one drainer or completed once, and the service decodes exactly those completed, each with its samples, its flag and the position of its completion, in the order of completion |
| DrainMachine.PositionBetween | driver/ioctl.cpp:394-431 | in every interleaving: the position in a packet of the current stream lies between the frames counted when its piece was read and those counted now, and is no less than the frames up to its end, but for a write that was not counted yet at the read |
| DrainMachine.FirstExchangeMarked | driver/ioctl.cpp:417-420 | in every interleaving: of the pieces read since a stream start and given their flag, exactly the one whose drainer exchanged first since then is marked |
| DrainAlone.HeardInOrder | driver/ioctl.cpp:385-434 | with at most one uncompleted audio request at a time, in every interleaving: the samples the service decodes are those that left the ring, in order, but for the one piece that may be in hand |
| DrainAlone.RestartMarksFirst | driver/ioctl.cpp:417-431 | in the same runs: a packet of the new stream is marked if and only if it is the first and no drainer was between its read and its exchange when the flag was raised |
| DrainRaces.OrderedExactly | driver/ioctl.cpp:365-434 | over every run with any number of requests: the completed packets are the first pieces in their order, in every state, if and only if no request is completed while another drainer has an earlier piece in hand |
| DrainRaces.InOrderHeard | driver/ioctl.cpp:385-434 | the service then decodes just these pieces, end to end |
| DrainRaces.OrderRace | driver/ioctl.cpp:365-434 | a run of two requests and two drainers that ends with nobody at work and the two frames heard swapped |
| DrainRaces.MarkRace | driver/ioctl.cpp:394-420 | a run with one request at a time in which the last packet of the old stream is marked and the first of the new one is not |
| DrainRaces.PositionRace | driver/ioctl.cpp:346-431 | a run in which a packet that ends behind the first frame says position 0 |
| IoctlCtx.Ctx.constructor | driver/ioctl.cpp:78-106 | the initialised context holds the initial state |
| IoctlCtx.Ctx.FillPacket | driver/ioctl.cpp:385-434 | the request is completed with the header and the longest prefix of the ring that fits, and only that leaves the ring |
| IoctlCtx.Ctx.ServeOne | driver/ioctl.cpp:365-434 | one round of the drain serves the first request, or finds none |
| IoctlCtx.Ctx.TryCompleteAudio | driver/ioctl.cpp:352-436 | the loop ends, each round taking one request, in the state of the model |
| IoctlCtx.Ctx.AudioProduce | driver/ioctl.cpp:337-350 | the call does what the model says and keeps the invariant |
| IoctlCtx.Ctx.HandleGetAudio | driver/ioctl.cpp:261-309 | the call, with its four refusals, does what the model says and keeps the invariant |
| IoctlCtx.Ctx.PostEvent | driver/ioctl.cpp:517-554 | the call on the circular array does what the model's queue says |
| IoctlCtx.Ctx.HandleGetEvent | driver/ioctl.cpp:442-499 | the call does what the model says |
| IoctlCtx.Ctx.OnStreamStart | driver/ioctl.cpp:560-573 | the call does what the model says and keeps the invariant |
| IoctlCtx.Ctx.OnStreamStop | driver/ioctl.cpp:575-598 | the call does what the model says and keeps the invariant |
| IoctlCtx.Ctx.CancelFileIrps | driver/ioctl.cpp:664-689 | the two walks over the lists do what the model says and keep the invariant |
| IoctlCtx.Ctx.BeginClose | driver/ioctl.cpp:628-639 | the call does what the model says and keeps the invariant |
| IoctlCtx.Queued | driver/ioctl.cpp:544-552 | storing at the tail of the circular array, after dropping the oldest if it is full, keeps the newest 15 of the queue and the event |
| IoctlCtx.Unqueued | driver/ioctl.cpp:457-459 | the array is empty exactly when head and tail meet, and moving the head takes off the oldest event |
| WaveClock.DriftBelowOneFrame | driver/wavestream.cpp:761-779 | as long as the 64-bit products fit, the frames counted are less than one frame short of the elapsed time |
| WaveClock.OverflowExactly | driver/wavestream.cpp:777-779 | for every clock and elapsed time: the count is the exact one if and only if both the product with the sample rate and the count fit in 64 bits |
| WaveClock.PerTickLoses | driver/wavestream.cpp:761-768 | summing per-tick counts never counts too much and loses up to one frame for each tick after the first |
| WaveClock.PerTickLosesAll | driver/wavestream.cpp:761-768 | and does lose that for a clock of 44101 Hz, for every number of ticks up to 44101 |
| WaveClock.SegmentIsExact | driver/wavestream.cpp:772-804 | however the ticks of a RUN segment fall, the frames produced are those due since its start, and both counters only grow |
| WaveClock.PositionMonotone | driver/wavestream.cpp:597-655 | through any states but STOP and any ticks, with a clock that may jump, the position only grows and never passes what was produced |
| WaveClock.StopRewinds | driver/wavestream.cpp:621-631 | STOP, or ACQUIRE from STOP, sets the position to zero, and nothing else lets it fall |
| WaveClock.PausedStands | driver/wavestream.cpp:870-872 | outside RUN ticks change nothing |
| WaveClock.RunStartsSegment | driver/wavestream.cpp:636-640 | entering RUN starts a segment at the frozen position |
| WaveClock.TwoPieces | driver/wavestream.cpp:810-822 | the two chunks of a copy that wraps are the frames in order, each once, within the buffer |
| WaveClock.Straight | driver/wavestream.cpp:810-818 | a copy that does not wrap is one stretch of the buffer |
| WaveClock.EveryFrameOnce | driver/wavestream.cpp:741-824 | over any ticks the frames handed on are the engine's from the first to the last consumed, each once and in order, never more than were produced, if the buffer holds what is read |
| WaveClock.DoubledSamples | driver/wavestream.cpp:727-737 | the stereo samples of a mono stretch are its samples, left and right alike |
| WaveStream.WholeFrameChunks | driver/wavestream.cpp:253-369 | notification chunks are whole frames if and only if the cap does not cut the rounded request or divides evenly |
| WaveStream.CappedChunksSplitFrames | driver/wavestream.cpp:253-369 | a stereo request of 128 KB with three notifications splits frames |
| WaveStream.BufferSize | driver/wavestream.cpp:248-259 | the size settled on is whole frames within the cap, and the request itself if that already is |
| WaveStream.Stream.AllocateAudioBuffer | driver/wavestream.cpp:226-308 | status, size, position and notification fields for every outcome; a failure changes nothing |
| WaveStream.Stream.AllocateBufferWithNotification | driver/wavestream.cpp:338-370 | which of the outcomes occurs; on success the size and chunk, and exactly when the chunk is whole frames; a failure changes nothing but the notification count, and nothing at all if and only if the count asked for was there; when a busy stream's packets then differ from its interval |
| WaveStream.BusyStreamDisagrees | driver/wavestream.cpp:338-370 | a stream asked again while busy, whose packets are then half of its notification interval |
| WaveStream.Stream.FreeBufferWithNotification | driver/wavestream.cpp:372-381 | the buffer and both notification fields are gone, the timer is off, the position stands |
| WaveStream.Stream.FreeAudioBuffer | driver/wavestream.cpp:310-334 | the buffer is gone, the timer is off, the position stands |
| WaveStream.Stream.GetPosition | driver/wavestream.cpp:519-546 | the offset is the place of the next frame to play in the cyclic buffer |
| WaveStream.Stream.SetFormat | driver/wavestream.cpp:576-595 | which formats are refused, and that the channel count changes only without a buffer |
| WaveStream.Stream.SetState | driver/wavestream.cpp:597-655 | the position becomes what the clock model says; leaving and entering RUN notify the ioctl context once each |
| WaveStream.Stream.ProduceToRing | driver/wavestream.cpp:714-739 | a stretch no longer than the cyclic buffer is handed to the ring in full, mono doubled, in whole stereo frames: the scratch size check never drops data |
| WaveStream.Stream.UpMix | driver/wavestream.cpp:731-737 | the loop writes each sample twice |
| WaveStream.Stream.DoCopyToRing | driver/wavestream.cpp:741-831 | the counters move as the clock model says and exactly the frames consumed by it go to the ring |
| WaveStream.Stream.SignalNotificationEvents | driver/wavestream.cpp:833-860 | events are signalled exactly when an interval has been consumed, and what is left over is less than an interval (and a frame) and does not drift |
| WaveStream.Stream.OnConsumerDpc | driver/wavestream.cpp:862-874 | the DPC does that in RUN and nothing otherwise |
| WaveStream.CopyPlan | driver/wavestream.cpp:810-822 | for every read position and count the two chunks are within the buffer, whole frames, and together the frames in order |
| Topology.NeverReleased | driver/topology.cpp:888-909 | a forwarded volume never reaches a miniport whose last reference is gone |
| Topology.WithdrawnIsUnused | driver/topology.cpp:866-886 | when a withdrawal drops its reference no forwarder is inside that miniport or can get to it |
| Topology.NoLeak | driver/topology.cpp:848-886 | with nothing under way the publication holds a reference on the published miniport and on no other |
| Topology.RunKeeps | driver/topology.cpp:848-909 | every interleaving of publishing, withdrawing and forwarding keeps the invariant |
| HttpText.FindExtends | service/src/http_server.rs:1028-1030 | bytes that arrive later do not change what was found before them |
| HttpText.FindResumes | service/src/http_server.rs:1041-1051 | after an unsuccessful search the next may start at the length less the pattern's less one |
| HttpText.SplitJoin | service/src/http_server.rs:1065-1067 | splitting undoes joining if no piece holds the first byte of the separator |
| HttpHead.RenderParses | service/src/http_server.rs:1063-1136 | every well-formed request, rendered, parses to its own fields and to the framing its headers announce, or to the framing error |
| HttpHead.RenderEnds | service/src/http_server.rs:1028-1045 | the blank line behind a rendered head is the first one |
| HttpHead.OneFraming | service/src/http_server.rs:1103-1133 | an accepted head is chunked if and only if it has a Transfer-Encoding and then has no Content-Length; all its Content-Lengths say the length of its body |
| HttpHead.ReadParsedHead | service/src/http_server.rs:1063-1136 | the method with its loop over the lines computes the parse and its errors |
| HttpReader.HeadRunIsHeadOf | service/src/http_server.rs:1032-1056 | what the head reader makes of a stream depends only on its bytes, not on the reads, unless the blank line begins 2, 1 or 0 bytes before the limit |
| HttpArrival.HeadDependsOnArrival | service/src/http_server.rs:1032-1056 | for every stream, stray line ends included: two arrivals of the same bytes get different answers if and only if the blank line begins 2, 1 or 0 bytes before the limit and the parser does not itself find too many headers |
| HttpArrival.AcceptanceDependsOnArrival | service/src/http_server.rs:1032-1056 | one arrival is accepted and another refused if and only if the blank line begins there and the head parses |
| HttpArrival.ParsedOrTooLarge | service/src/http_server.rs:1041-1056 | where the bytes do not decide, every arrival is parsed or refused as too large |
| HttpReader.LineFound | service/src/http_server.rs:1204-1220 | a line shorter than the limit is read however it arrives |
| HttpArrival.LineDependsOnArrival | service/src/http_server.rs:1204-1220 | two arrivals of the same bytes get different answers if and only if there is a line end, the line is text, and it is from the limit to the limit and one read long, less the line end |
| HttpArrival.LineReadOrRefused | service/src/http_server.rs:1204-1220 | however it arrives a line is read whole or refused, and one beyond that length always refused |
| HttpArrival.NoLineAtAll | service/src/http_server.rs:1204-1220 | bytes without a line end are refused if they exceed the limit and end the body otherwise |
| HttpReader.ChunksRead | service/src/http_server.rs:1222-1254 | decoding undoes the chunked coding whatever sizes, extensions and trailers it uses, and leaves exactly what follows |
| HttpReader.BodyReads | service/src/http_server.rs:1172-1202 | a body framed as its head announces is read exactly, and nothing behind it |
| HttpReader.TrailersRead | service/src/http_server.rs:1231-1238 | up to 63 trailer lines are skipped, and nothing behind them |
| HttpReader.TrailersExactly | service/src/http_server.rs:1231-1238 | a trailer section of non-empty lines is read if and only if it has fewer lines than the limit of 64, and then exactly |
| HttpConnection.ServesWhatWasSent | service/src/http_server.rs:446-540 | for every list of well-formed messages and every way their bytes arrive, the connection serves exactly those heads and bodies up to the first that ends it; what follows is read as heads only if none does |
| HttpConnection.RenderedIsText | service/src/http_server.rs:1032-1136 | every rendered request within the limit is such a message's head |
| HttpConnection.HeadReads | service/src/http_server.rs:1032-1056 | after stray line ends the next head is read however it arrives, and its body is next |
| HttpConnection.Conn.ReadHead | service/src/http_server.rs:1032-1056 | the loop with its resume index finds what a search from the start would |
| HttpConnection.Conn.ReadLine | service/src/http_server.rs:1204-1220 | the same for lines |
| HttpConnection.Conn.ReadChunked | service/src/http_server.rs:1222-1254 | the loop on the connection's buffer computes the decoder, its errors and what is left unread |
| HttpConnection.Conn.ReadBody | service/src/http_server.rs:1173-1202 | the same for the three framings, the cap and Expect |
| HttpConnection.Conn.HandleConnection | service/src/http_server.rs:446-477 | the connection loop serves the requests of the model and ends |
| HttpDate.CivilIsCalendar | service/src/http_server.rs:1431-1440 | the conversion is, for every day count, the calendar's own count of days from 1 January 1970 |
| HttpDate.CivilValid | service/src/http_server.rs:1431-1440 | every day count is a valid Gregorian date |
| HttpDate.CivilNext | service/src/http_server.rs:1431-1440 | the next day count is the calendar's next day, over months, leap years and 400-year eras |
| HttpDate.CivilOrdered | service/src/http_server.rs:1431-1440 | different day counts are different dates in their order |
| HttpDate.YearIs | service/src/http_server.rs:1435-1436 | the three corrections of the year count exactly the leap days before the day |
| HttpDate.Weekday | service/src/http_server.rs:1430 | the weekday starts with Thursday and advances by one each day, cyclically |
| HttpDate.Fields | service/src/http_server.rs:1443-1452 | the printed fields are at their places |
| HttpDate.RenderInjective | service/src/http_server.rs:1426-1453 | different seconds print differently |
| ConnLimiter.BudgetsHold | service/src/http_server.rs:402-431 | over every run of arrivals and drops each address is within its cap and the unprotected connections are within theirs |
| ConnLimiter.AdmitKeeps | service/src/http_server.rs:414-431 | an admission keeps that, with ids unique and ascending |
| ConnLimiter.AdmitClosesOne | service/src/http_server.rs:418-426 | at most one connection makes room, the oldest of the full budget; a protected one only for its own address |
| ConnLimiter.EvictedLeave | service/src/http_server.rs:402-431 | exactly the connection that is shut down leaves the list |
| ConnLimiter.DropKeeps | service/src/http_server.rs:439-444 | dropping a permit takes its own connection off the list and no other |
| ConnLimiter.Limiter.Admit | service/src/http_server.rs:414-431 | an arrival is refused only if its socket cannot be cloned; the list and the connection shut down are those of the model |
| ConnLimiter.Limiter.EvictOldest | service/src/http_server.rs:402-411 | the first matching connection is shut down and removed |
| ConnLimiter.Limiter.Release | service/src/http_server.rs:439-444 | the loop keeps every other connection in order |
| EqControl.OneDesigner | service/src/equalizer.rs:446-485 | at most one thread is designing at a time |
| EqControl.NoRequestLost | service/src/equalizer.rs:446-501 | when nobody is at work no request is pending, and the last one made is in the slot or was heard |
| EqControl.SlotShows | service/src/equalizer.rs:498-512 | a filled slot with a cleared flag occurs only between the two stores of a publisher, or inside the audio thread's own lock section |
| EqControl.AudioGetsLatest | service/src/equalizer.rs:503-512 | then four undisturbed steps of the audio thread give it the latest curve |
| EqControl.StepKeeps | service/src/equalizer.rs:446-512 | every step of editors, workers and the audio thread keeps the invariant |
| Equalizer.IdleIsIdentity | service/src/equalizer.rs:373-377 | skipping a block while idle is what processing each frame would do |
| Equalizer.BlocksJoin | service/src/equalizer.rs:374-408 | where a stream is cut into blocks makes no difference, if no frame is cut |
| Equalizer.FadeRises | service/src/equalizer.rs:380-384 | the weight of the new curve rises from frame to frame and is exactly one at the last |
| Equalizer.LastFrameIsNew | service/src/equalizer.rs:388-391 | that frame is the new curve's alone |
| Equalizer.LastDesignWins | service/src/equalizer.rs:353-402 | two fade lengths after the last change its curve runs alone with nothing waiting, whatever was fading or waiting when it came |
| Equalizer.Equalizer.Process | service/src/equalizer.rs:374-408 | the in-place loop with its idle path computes the frame-by-frame reference |
| Equalizer.Equalizer.SetDesignTo | service/src/equalizer.rs:353-366 | the switch, the ignored change and the queued one |
| AudioLoop.FramesConserved | service/src/audio_loop.rs:115-163 | over every run the frames published are those received, plus what the fudge asked for and does not still hold, minus what was asked to be cut and is not pending, plus what was credited without being there |
| AudioLoop.AdjustedInFull | service/src/audio_loop.rs:138-160 | nothing is credited without being there, whatever adjustment is pending, if and only if every packet after the fudge has the frames of the largest step |
| AudioLoop.LongerIsAmple | service/src/audio_loop.rs:121-150 | packets of one frame more than that before the fudge are enough, whatever it holds |
| AudioLoop.CreditExact | service/src/audio_loop.rs:146-158 | a packet loses exactly its step if and only if it has that many frames, and is published empty if and only if it has no more |
| AudioLoop.RateKept | service/src/audio_loop.rs:115-136 | if no packet's share is over a frame, the stream is always within a frame of the rate asked for |
| AudioLoop.RateKeptExactly | service/src/audio_loop.rs:115-136 | a stream of equal packets keeps within a frame of the rate if and only if a packet's share is at most a frame |
| AudioLoop.RateKeptRising | service/src/audio_loop.rs:115-136 | for any packets under a fudge that is never negative, idle and empty ones included: the stream is within a frame of the rate after them if and only if no stretch at their end brings more whole frames than it has packets |
| AudioLoop.RateKeptFalling | service/src/audio_loop.rs:115-136 | the same under a fudge that is never positive |
| AudioLoop.RateKeptMixed | service/src/audio_loop.rs:115-136 | for any packets and settings, cut into stretches under a fudge of one sign: the stream is within a frame of the rate after each stretch if and only if no end of a stretch brings more whole frames than it has packets, the accumulator before each stretch being given by the shares alone |
| AudioLoop.MirroredRun | service/src/audio_loop.rs:115-136 | a negative fudge is the mirror image |
| AudioLoop.FallsBehind | service/src/audio_loop.rs:115-136 | above a frame each of them adds its excess to the lag |
| AudioLoop.TenMillisecondsAtFullFudge | service/src/audio_loop.rs:119-123 | 441 frames at 10000 ppm leave a lag of 3.41 frames after one packet |
| AudioLoop.PendingWorkedOff | service/src/audio_loop.rs:138-160 | undisturbed, each packet works off one step until nothing is pending, and not beyond |
| AudioLoop.OnlyTheTail | service/src/audio_loop.rs:115-160 | a published packet is the first frames of the packet as it came, the last of these repeated |
| AudioLoop.Loop.Round | service/src/audio_loop.rs:115-163 | one round of the loop does what the model says |
| AudioLoop.Loop.AdjustLatency | service/src/audio_loop.rs:138-160 | the cut or the padding loop, with what other threads add meanwhile kept |
| StreamHub.Hears | service/src/http_server.rs:1784-1852 | whatever the reads, a client hears the WAVE header and then, byte for byte, published frames in order, none twice; the others are queued or counted as lost |
| StreamHub.HearsAll | service/src/http_server.rs:134-159 | a client whose queue was never full misses nothing |
| StreamHub.EndsExactly | service/src/http_server.rs:1823-1851 | the body ends if and only if nothing is left over and the gate refuses, no frame comes, or the next one is empty |
| StreamHub.EmptiedPacketEnds | service/src/http_server.rs:1836-1850 | a latency step ends the body at a packet if and only if it is at least as long as the packet |
| StreamHub.PcmRoundTrip | service/src/http_server.rs:1864-1872 | a frame is the encoding of samples if and only if it decodes to them |
| StreamHub.Hub.Publish | service/src/http_server.rs:144-159 | every client that still reads gets the frame or is counted with a full queue, the others are unsubscribed, nobody else is touched |
| StreamHub.Hub.DisconnectClients | service/src/http_server.rs:167-172 | exactly the matching network clients lose their sender; the result counts them |
| StreamHub.Hub.Subscribe | service/src/http_server.rs:134-140 | a new client starts with an empty queue, behind the others |
| StreamHub.Reader.Read | service/src/http_server.rs:1823-1851 | the reader's buffer, its rest and its channel after a read are those of the model |
| Gena.RegistryMatches | service/src/gena.rs:203-288 | once all calls have returned the registry holds exactly the managers' current SIDs, none for a closed manager, each once, and no exchange is pending |
| Gena.EverySidOwned | service/src/gena.rs:203-288 | at any moment a registered SID is either some manager's current one or in the hand of exactly one call |
| Gena.RunKeeps | service/src/gena.rs:203-288 | every interleaving of subscribing and unsubscribing keeps the invariant |
| Gena.RegisteredAsAsked | service/src/gena.rs:91-113 | in every reachable state, each registered SID has exactly the addresses that the exchange which brought it was begun with, and so has each pending exchange |
| Gena.Registry.BeginSubscribe | service/src/gena.rs:91-98 | a fresh token and its pending entry |
| Gena.Registry.FinishSubscribe | service/src/gena.rs:102-113 | the entry of the token is resolved; a SID replaces any earlier entry of its own and keeps the addresses it was asked from |
| Gena.Registry.Remove | service/src/gena.rs:115-118 | the SID's entries are gone, the others stay in order |
| Gena.Registry.Check | service/src/gena.rs:120-133 | live if and only if SID and address match an entry; pending if and only if not and an exchange with the address is in flight |
| Sessions.SessionsAccounted | service/src/app.rs:2158-2288 | every session brought up is the bound one, in the hand of a thread, or stopped, exactly one of these, and stopped at most once |
| Sessions.QuietSessions | service/src/app.rs:3421-3447 | with nothing in flight every session but the bound one was stopped once, and none is bound while streaming is disabled |
| Sessions.CommandsReachTheirSession | service/src/app.rs:329-416 | a volume command goes only to the one session that was bound under the number it was queued for, and none goes out that was queued before any session was bound |
| Sessions.RunKeeps | service/src/app.rs:2124-2288 | every interleaving of select, disable, enable, forget, the watchdog and commands keeps the invariant |

## Left out

Of the driver:

- The interleavings (`Irp*`) abstract from contents: an event is a count, the ring a number of bytes. The contents are in the call-atomic `IoctlModel`, which has no rundown failure.
- The protocol assumes what the operating system grants: PnP requests of a device come one at a time, PortCls returns from REMOVE only when no stream or topology callback runs, and cancelling sets `Cancel` before it exchanges the routine.
- Whether an MDL can be mapped, whether a buffer is acceptable, and how large it is, are free choices of each step in `IrpMachine`.
- `DestroyIoctlCtx` from driver unload (`driver/driver.cpp:201-211`): the same calls with no producer left.
- GET_VERSION and PUSH_VOLUME as requests; the forwarding of the volume is in `Topology`.
- RingBuffer.Ring.Write: does not model the wrap of the 64-bit head and tail counters, which would take 2^63 bytes.
- IoctlProof.EventsInOrder: holds for whole calls only; inside them the two sides of the event queue can pass each other (IrpRaces.EventRace, IrpEvents.NeverBothExactly).
- IoctlProof.ServiceHears: holds for whole calls only; inside them two drainers can complete out of order (DrainRaces.OrderRace). Which runs do, and that one request at a time excludes it, is DrainRaces.OrderedExactly and DrainAlone.HeardInOrder.
- IoctlProof.RestartMarksFirst: holds for whole calls only; inside them an old packet can take the flag (DrainRaces.MarkRace) and a position can lack a write (DrainRaces.PositionRace). DrainAlone.RestartMarksFirst and DrainMachine.PositionBetween give the conditions.
- IoctlProof.NothingWaits: holds for whole calls only; inside them a frame can stay beside a request and an event beside an event request (IrpRaces.RequeueRace, IrpRaces.EventRace). IrpWakeups.NoLostWakeup and IrpEvents.NeverBothExactly give the conditions.
- `DrainMachine` takes from the driver that no production is under way from the reset of the ring to the raising of the flag, as the timer starts behind both; reads of the ring, being under its lock, are single steps. The time of a packet is a free value there, and a requeue that meets a closing context is a requeue and a withdrawal.
- WaveClock.EveryFrameOnce: assumes that the engine has written the frames which a tick reads; the tick's cap of one buffer less a frame does not ensure that after a long gap.
- WaveStream.Stream.GetPosition: does not wrap the product of frames and frame size at 64 bits; only the frames due do.
- Write packets and end of stream, the registration of notification events, PacketsCompleted, the timer and its resolution.
- Format tables, jack and volume properties of the topology, security, memory and IRQL.

Of the service:

- HttpConnection.ServesWhatWasSent: the routes are abstracted to which bodies they read and with what cap; replies, the interim 100 response and deadlines are not part of the model (a timeout is one of the ways a stream can end). Heads of up to 16381 bytes, lines of up to 1023 bytes and at most 63 trailers; beyond these see HttpArrival.HeadDependsOnArrival, HttpArrival.LineDependsOnArrival and HttpReader.TrailersExactly.
- ConnLimiter.BudgetsHold: takes protection as a fixed function of the address, which changing the active speaker is not.
- EqControl.NoRequestLost: the design inline after a failed spawn (`service/src/equalizer.rs:455-460`) is excluded; it does not look for a later request.
- Equalizer.BlocksJoin: samples are processed in real arithmetic, the filter is any function of design, channel, sample and state, and `flush_tiny` is not part of the model.
- AudioLoop.RateKept: the accumulator is exact; the rounding of the double is not part of the model.
- The equalizer's curve design, the silence detector and the pacing of idle packets.
- StreamHub.Hub.Publish: the channels are held by number in the hub instead of being shared objects; the timeouts of a read are the case of an empty channel.
- Gena.RegistryMatches: assumes that publishers hand out unique SIDs; waiting for a pending exchange, renewal and the parsing of notifications are not part of the model.
- Sessions.SessionsAccounted: bringing a session up and stopping it are single steps, and the choice of the protocol is free; the volume synchronisation beside the binding is not part of the model.
- Discovery, SOAP, RTSP, pairing, mDNS, the web pages and their keys, the GUI and the settings.
