/**
 The driver's inverted-call protocol as a transition system.

 One step is one interlocked operation, one step inside a lock section, or one
 step of the I/O manager (set `Cancel`, exchange the cancel routine, run it).
 Any number of threads run the dispatchers, the WaveRT DPC, the stream and
 topology callbacks, handle cleanup and device removal; devices come and go
 behind the one published context pointer.

 Whatever would corrupt the kernel is recorded in `fault`: unlinking an entry
 that is not in the list, completing an IRP twice or touching it afterwards,
 dropping a rundown reference that does not exist, inserting a linked entry,
 using a freed context, or freeing one whose lists still hold IRPs.

 Fields and constructors marked "auxiliary" are history: no guard and no fault
 looks at them.
 */
module IrpMachine {
  import opened Common

  datatype Kind = Audio | Event

  // Who must complete the IRP next (auxiliary). Gone: completed, nothing left to do.
  datatype Owner = Held(thread: nat) | Queued | Routine | Gone

  // How far the cancel routine of an IRP has come.
  datatype RoutineStage = NotCalled | Called | Unlinked | Finished

  datatype Irp = Irp(
    kind: Kind,
    file: nat,            // the file object it was issued through
    ctx: nat,             // DriverContext[0]
    cancel: bool,         // Irp->Cancel
    cancelling: bool,     // IoCancelIrp has set Cancel and not yet exchanged the routine
    hooked: bool,         // the cancel routine pointer is non-null
    selfRef: bool,        // ListEntry.Flink == &ListEntry
    routine: RoutineStage,
    done: bool,           // IoCompleteRequest was called
    refd: bool,           // auxiliary: its queue reference is not yet released
    linked: bool,         // auxiliary: its entry is in its context's list
    owner: Owner)         // auxiliary

  datatype Queue = Queue(
    list: seq<nat>,
    lock: Option<nat>,
    drained: bool)        // auxiliary: a drain that began after Closing saw the list empty

  datatype Ctx = Ctx(
    audio: Queue,
    event: Queue,
    closing: bool,
    ring: nat,            // bytes in the audio ring
    events: nat,          // queued control events
    fdo: bool,            // ext->IoctlCtx still points here
    withdrawn: bool,      // ext->IoctlCtxWithdrawn
    alive: bool,          // not freed
    pnp: Option<nat>,     // the thread handling a PnP request of this device
    listed: bool,         // auxiliary: in g_LiveDevices
    quiet: bool)          // auxiliary: PortCls has torn the device down

  // Why CancelAll runs: withdrawal (of the published context or not; for
  // REMOVE or for SURPRISE_REMOVAL), or the destruction of the context.
  datatype Why = Withdraw(wasPublished: bool, remove: bool) | Destroy

  datatype Job =
    | TryAudio(c: nat, dispatched: bool)   // IoctlTryCompleteAudio
    | StopAudio(c: nat)                    // the drain of IoctlOnStreamStop
    | Post(c: nat)                         // IoctlPostEvent
    | CancelAll(c: nat, k: Kind, why: Why) // IoctlCancelAll

  datatype After =
    | Return               // back to the device-control dispatcher
    | Continue(job: Job)   // next round of a drain loop
    | Cleanup(out: seq<nat>) // the IRPs IoctlCancelFileIrps still holds

  datatype QueueStage = Locking | Hooking | Testing | Unhooking | Inserting

  datatype ProducerOp = Produce(bytes: nat) | Start | Stop | Notify

  datatype Pc =
    | Idle
    // StreamToSpeakerDispatchDeviceControl and the two GET handlers
    | DcStart(i: nat)
    | DcRef(i: nat)
    | DcNull(i: nat)
    | DcCtx(i: nat, c: nat)
    | DcPrepare(i: nat, c: nat)
    | DcFinish(i: nat, ref: bool)
    | Release
    // the queueing section, first queueing (Return) or requeue (Continue)
    | Enqueue(stage: QueueStage, i: nat, c: nat, k: Kind, after: After)
    // CompleteQueuedIrp
    | Complete(i: nat, after: After)
    | Unref(i: nat, after: After)
    // the drain loops
    | Loop(job: Job)
    | Lock(job: Job)
    | Dequeue(job: Job)
    | Claimed(i: nat, job: Job)
    | Queueing(c: nat)                     // IoctlPostEvent found no IRP
    | Producer(c: nat, op: ProducerOp)
    // StreamToSpeakerDispatchCleanup
    | ClStart(file: nat)
    | ClRef(file: nat)
    | ClLock(file: nat, c: nat, k: Kind, out: seq<nat>)
    | ClWalk(file: nat, c: nat, k: Kind, pos: nat, out: seq<nat>)
    | ClNext(out: seq<nat>)
    // WithdrawIoctlCtx and the REMOVE path
    | WStart(c: nat, remove: bool)
    | WUnpublish(c: nat, remove: bool)
    | WClose(c: nat, remove: bool, wasPublished: bool)
    | WWait(c: nat, remove: bool)
    | WDrain(c: nat, remove: bool)
    | WReinit(c: nat, remove: bool)
    | WRepublish(c: nat, remove: bool)
    | WEnd(c: nat, remove: bool)
    | RPass(c: nat)
    | RFree(c: nat)

  // The thread withdrawing the published context (auxiliary).
  datatype Withdrawer = Withdrawer(thread: nat, c: nat, waited: bool)

  datatype State = State(
    threads: seq<Pc>,
    irps: seq<Irp>,
    ctxs: seq<Ctx>,
    published: Option<nat>, // g_IoctlCtxPtr
    live: seq<nat>,         // g_LiveDevices
    withdrawing: bool,      // g_IoctlCtxWithdrawing
    rundown: bool,          // rundown in progress: acquire fails
    count: nat,             // rundown references
    fault: bool,
    wd: Option<Withdrawer>) // auxiliary

  const FRAME_BYTES := 4
  const RING_BYTES := 32768

  function Start0(threads: nat): State {
    State(seq(threads, _ => Idle), [], [], None, [], false, false, 0, false, None)
  }

  // ----- field access -----

  function QueueOf(x: Ctx, k: Kind): Queue {
    if k == Audio then x.audio else x.event
  }

  function WithQueue(x: Ctx, k: Kind, q: Queue): Ctx {
    if k == Audio then x.(audio := q) else x.(event := q)
  }

  function SetPc(s: State, t: nat, pc: Pc): State
    requires t < |s.threads|
  {
    s.(threads := s.threads[t := pc])
  }

  function SetIrp(s: State, i: nat, r: Irp): State
    requires i < |s.irps|
  {
    s.(irps := s.irps[i := r])
  }

  function SetCtx(s: State, c: nat, x: Ctx): State
    requires c < |s.ctxs|
  {
    s.(ctxs := s.ctxs[c := x])
  }

  function SetQueue(s: State, c: nat, k: Kind, q: Queue): State
    requires c < |s.ctxs|
  {
    SetCtx(s, c, WithQueue(s.ctxs[c], k, q))
  }

  function GetQueue(s: State, c: nat, k: Kind): Queue
    requires c < |s.ctxs|
  {
    QueueOf(s.ctxs[c], k)
  }

  // Record `bad` as a fault.
  function Check(s: State, bad: bool): State {
    s.(fault := s.fault || bad)
  }

  // A use of the memory of context c.
  function UseCtx(s: State, c: nat): State
    requires c < |s.ctxs|
  {
    Check(s, !s.ctxs[c].alive)
  }

  function JobKind(j: Job): Kind {
    match j
    case TryAudio(_, _) => Audio
    case StopAudio(_) => Audio
    case Post(_) => Event
    case CancelAll(_, k, _) => k
  }

  function DropRef(s: State): State {
    Check(s, s.count == 0).(count := if s.count == 0 then 0 else s.count - 1)
  }

  // ----- ranges -----

  predicate InAfter(a: After, irps: nat, ctxs: nat) {
    match a
    case Return => true
    case Continue(j) => j.c < ctxs
    case Cleanup(out) => forall n :: 0 <= n < |out| ==> out[n] < irps
  }

  predicate InRange(pc: Pc, irps: nat, ctxs: nat) {
    match pc
    case Idle => true
    case DcStart(i) => i < irps
    case DcRef(i) => i < irps
    case DcNull(i) => i < irps
    case DcCtx(i, c) => i < irps && c < ctxs
    case DcPrepare(i, c) => i < irps && c < ctxs
    case DcFinish(i, _) => i < irps
    case Release => true
    case Enqueue(_, i, c, _, a) => i < irps && c < ctxs && InAfter(a, irps, ctxs)
    case Complete(i, a) => i < irps && InAfter(a, irps, ctxs)
    case Unref(i, a) => i < irps && InAfter(a, irps, ctxs)
    case Loop(j) => j.c < ctxs
    case Lock(j) => j.c < ctxs
    case Dequeue(j) => j.c < ctxs
    case Claimed(i, j) => i < irps && j.c < ctxs
    case Queueing(c) => c < ctxs
    case Producer(c, _) => c < ctxs
    case ClStart(_) => true
    case ClRef(_) => true
    case ClLock(_, c, _, out) => c < ctxs && InAfter(Cleanup(out), irps, ctxs)
    case ClWalk(_, c, _, _, out) => c < ctxs && InAfter(Cleanup(out), irps, ctxs)
    case ClNext(out) => InAfter(Cleanup(out), irps, ctxs)
    case WStart(c, _) => c < ctxs
    case WUnpublish(c, _) => c < ctxs
    case WClose(c, _, _) => c < ctxs
    case WWait(c, _) => c < ctxs
    case WDrain(c, _) => c < ctxs
    case WReinit(c, _) => c < ctxs
    case WRepublish(c, _) => c < ctxs
    case WEnd(c, _) => c < ctxs
    case RPass(c) => c < ctxs
    case RFree(c) => c < ctxs
  }

  // Every index stored in the state names something.
  predicate WellFormed(s: State) {
    && (forall t :: 0 <= t < |s.threads| ==> InRange(s.threads[t], |s.irps|, |s.ctxs|))
    && (forall i :: 0 <= i < |s.irps| ==> s.irps[i].refd ==> s.irps[i].ctx < |s.ctxs|)
    && (forall c, n :: 0 <= c < |s.ctxs| && 0 <= n < |s.ctxs[c].audio.list| ==> s.ctxs[c].audio.list[n] < |s.irps|)
    && (forall c, n :: 0 <= c < |s.ctxs| && 0 <= n < |s.ctxs[c].event.list| ==> s.ctxs[c].event.list[n] < |s.irps|)
    && (forall n :: 0 <= n < |s.live| ==> s.live[n] < |s.ctxs|)
    && (s.published.Some? ==> s.published.value < |s.ctxs|)
  }

  // ----- where a thread goes next -----

  function AfterPc(a: After): Pc {
    match a
    case Return => Release
    case Continue(Post(_)) => Idle
    case Continue(j) => Loop(j)
    case Cleanup(out) => ClNext(out)
  }

  // A drain loop leaves: the list was empty, or (TryAudio) it returns.
  function JobEnd(j: Job): Pc {
    match j
    case TryAudio(_, dispatched) => if dispatched then Release else Idle
    case StopAudio(c) => Loop(Post(c))
    case Post(c) => Queueing(c)
    case CancelAll(c, Audio, why) => Loop(CancelAll(c, Event, why))
    case CancelAll(c, Event, Withdraw(wasPublished, remove)) =>
      if wasPublished then WWait(c, remove) else WEnd(c, remove)
    case CancelAll(c, Event, Destroy) => RFree(c)
  }

  // Where the queueing section goes once it leaves the IRP in the list.
  function InsertEnd(c: nat, k: Kind, a: After): Pc {
    match a
    case Continue(j) => JobEnd(j)
    case _ => if k == Audio then Loop(TryAudio(c, true)) else Release
  }

  // ----- the dispatchers -----

  function StepDcStart(s: State, t: nat): State
    requires t < |s.threads| && s.threads[t].DcStart?
  {
    var i := s.threads[t].i;
    if s.rundown then SetPc(s, t, DcFinish(i, false))
    else SetPc(s.(count := s.count + 1), t, DcRef(i))
  }

  function StepDcRef(s: State, t: nat): State
    requires t < |s.threads| && s.threads[t].DcRef?
  {
    var i := s.threads[t].i;
    match s.published
    case None => SetPc(s, t, DcNull(i))
    case Some(c) => SetPc(s, t, DcCtx(i, c))
  }

  function StepDcNull(s: State, t: nat): State
    requires t < |s.threads| && s.threads[t].DcNull?
  {
    SetPc(DropRef(s), t, DcFinish(s.threads[t].i, false))
  }

  // The handler up to queueing. `ok` is false when it answers at once for a
  // reason outside this model (a bad buffer, GET_VERSION, PUSH_VOLUME).
  function StepDcCtx(s: State, t: nat, ok: bool): State
    requires t < |s.threads| && s.threads[t].DcCtx? && InRange(s.threads[t], |s.irps|, |s.ctxs|)
  {
    var DcCtx(i, c) := s.threads[t];
    var u := UseCtx(s, c);
    if !ok then SetPc(u, t, DcFinish(i, true))
    else if s.irps[i].kind == Event && s.ctxs[c].events > 0 then
      SetPc(SetCtx(u, c, s.ctxs[c].(events := s.ctxs[c].events - 1)), t, DcFinish(i, true))
    else SetPc(u, t, DcPrepare(i, c))
  }

  // PrepareIrpForQueue
  function StepDcPrepare(s: State, t: nat): State
    requires t < |s.threads| && s.threads[t].DcPrepare? && InRange(s.threads[t], |s.irps|, |s.ctxs|)
  {
    var DcPrepare(i, c) := s.threads[t];
    if s.rundown then SetPc(s, t, DcFinish(i, true))
    else
      var r := s.irps[i];
      SetPc(SetIrp(Check(s, r.done), i, r.(ctx := c, selfRef := true, refd := true)).(count := s.count + 1),
            t, Enqueue(Locking, i, c, r.kind, Return))
  }

  // The dispatcher completes an IRP that was never queued.
  function StepDcFinish(s: State, t: nat): State
    requires t < |s.threads| && s.threads[t].DcFinish? && InRange(s.threads[t], |s.irps|, |s.ctxs|)
  {
    var DcFinish(i, ref) := s.threads[t];
    var r := s.irps[i];
    SetPc(SetIrp(Check(s, r.done), i, r.(done := true, owner := Gone)), t, if ref then Release else Idle)
  }

  function StepRelease(s: State, t: nat): State
    requires t < |s.threads| && s.threads[t].Release?
  {
    SetPc(DropRef(s), t, Idle)
  }

  // ----- the queueing section -----

  function StepLocking(s: State, t: nat): State
    requires t < |s.threads| && s.threads[t].Enqueue? && InRange(s.threads[t], |s.irps|, |s.ctxs|)
  {
    var Enqueue(_, i, c, k, a) := s.threads[t];
    var u := UseCtx(s, c);
    if s.ctxs[c].closing then SetPc(u, t, Complete(i, a))
    else
      SetPc(SetQueue(u, c, k, GetQueue(s, c, k).(lock := Some(t))), t, Enqueue(Hooking, i, c, k, a))
  }

  function StepHooking(s: State, t: nat): State
    requires t < |s.threads| && s.threads[t].Enqueue? && InRange(s.threads[t], |s.irps|, |s.ctxs|)
  {
    var Enqueue(_, i, c, k, a) := s.threads[t];
    var r := s.irps[i];
    SetPc(SetIrp(Check(s, r.done), i, r.(hooked := true)), t, Enqueue(Testing, i, c, k, a))
  }

  function StepTesting(s: State, t: nat): State
    requires t < |s.threads| && s.threads[t].Enqueue? && InRange(s.threads[t], |s.irps|, |s.ctxs|)
  {
    var Enqueue(_, i, c, k, a) := s.threads[t];
    var r := s.irps[i];
    SetPc(Check(s, r.done), t, Enqueue(if r.cancel then Unhooking else Inserting, i, c, k, a))
  }

  // The exchange after Cancel was seen set. A first queueing that loses it
  // leaves the IRP to its cancel routine; a requeue goes on to insert it.
  function StepUnhooking(s: State, t: nat): State
    requires t < |s.threads| && s.threads[t].Enqueue? && InRange(s.threads[t], |s.irps|, |s.ctxs|)
  {
    var Enqueue(_, i, c, k, a) := s.threads[t];
    var r := s.irps[i];
    var u := Check(UseCtx(s, c), r.done);
    var unlocked := SetQueue(u, c, k, GetQueue(s, c, k).(lock := None));
    if r.hooked then SetPc(SetIrp(unlocked, i, r.(hooked := false)), t, Complete(i, a))
    else if a.Continue? then SetPc(u, t, Enqueue(Inserting, i, c, k, a))
    else SetPc(unlocked, t, Release)
  }

  // InsertTailList (first queueing) or InsertHeadList (requeue), and unlock.
  function StepInserting(s: State, t: nat): State
    requires t < |s.threads| && s.threads[t].Enqueue? && InRange(s.threads[t], |s.irps|, |s.ctxs|)
  {
    var Enqueue(_, i, c, k, a) := s.threads[t];
    var r := s.irps[i];
    var q := GetQueue(s, c, k);
    var list := if a.Continue? then [i] + q.list else q.list + [i];
    var u := Check(UseCtx(s, c), r.done || !r.selfRef);
    SetPc(
      SetIrp(SetQueue(u, c, k, q.(list := list, lock := None)), i,
             r.(selfRef := false, linked := true, owner := if r.owner == Held(t) then Queued else r.owner)),
      t, InsertEnd(c, k, a))
  }

  // ----- CompleteQueuedIrp -----

  function StepComplete(s: State, t: nat): State
    requires t < |s.threads| && s.threads[t].Complete? && InRange(s.threads[t], |s.irps|, |s.ctxs|)
  {
    var Complete(i, a) := s.threads[t];
    var r := s.irps[i];
    SetPc(SetIrp(Check(s, r.done), i, r.(done := true)), t, Unref(i, a))
  }

  function StepUnref(s: State, t: nat): State
    requires t < |s.threads| && s.threads[t].Unref? && InRange(s.threads[t], |s.irps|, |s.ctxs|)
  {
    var Unref(i, a) := s.threads[t];
    SetPc(SetIrp(DropRef(s), i, s.irps[i].(refd := false, owner := Gone)), t, AfterPc(a))
  }

  // ----- the drain loops -----

  function StepLoop(s: State, t: nat): State
    requires t < |s.threads| && s.threads[t].Loop? && InRange(s.threads[t], |s.irps|, |s.ctxs|)
  {
    var j := s.threads[t].job;
    var u := UseCtx(s, j.c);
    if j.TryAudio? && s.ctxs[j.c].ring < FRAME_BYTES then SetPc(u, t, JobEnd(j))
    else SetPc(u, t, Lock(j))
  }

  function StepLock(s: State, t: nat): State
    requires t < |s.threads| && s.threads[t].Lock? && InRange(s.threads[t], |s.irps|, |s.ctxs|)
  {
    var j := s.threads[t].job;
    var k := JobKind(j);
    SetPc(SetQueue(UseCtx(s, j.c), j.c, k, GetQueue(s, j.c, k).(lock := Some(t))), t, Dequeue(j))
  }

  // One round of DequeueAudioIrp / DequeueEventIrp, with the lock held.
  function StepDequeue(s: State, t: nat): State
    requires t < |s.threads| && s.threads[t].Dequeue? && WellFormed(s)
  {
    var j := s.threads[t].job;
    assert InRange(s.threads[t], |s.irps|, |s.ctxs|);
    var k := JobKind(j);
    var q := GetQueue(s, j.c, k);
    var u := UseCtx(s, j.c);
    if q.list == [] then
      SetPc(SetQueue(u, j.c, k, q.(lock := None, drained := q.drained || j.CancelAll?)), t, JobEnd(j))
    else
      var i := q.list[0];
      var r := s.irps[i];
      var unlinked := r.(selfRef := true, linked := false);
      var v := Check(u, r.done);
      if r.hooked then
        SetPc(SetIrp(SetQueue(v, j.c, k, q.(list := q.list[1..], lock := None)), i,
                     unlinked.(hooked := false, owner := Held(t))),
              t, Claimed(i, j))
      else
        SetIrp(SetQueue(v, j.c, k, q.(list := q.list[1..])), i, unlinked)
  }

  // What a drain does with an IRP it claimed. For TryAudio, `ok` says that the
  // MDL could be mapped and `room` is the packet capacity in bytes.
  function StepClaimed(s: State, t: nat, ok: bool, room: nat): State
    requires t < |s.threads| && s.threads[t].Claimed? && InRange(s.threads[t], |s.irps|, |s.ctxs|)
  {
    var Claimed(i, j) := s.threads[t];
    var u := Check(s, s.irps[i].done);
    if !j.TryAudio? || !ok then SetPc(u, t, Complete(i, Continue(j)))
    else
      var ring := s.ctxs[j.c].ring;
      var copied := if ring < room then ring else room;
      if copied == 0 then SetPc(UseCtx(u, j.c), t, Enqueue(Locking, i, j.c, Audio, Continue(j)))
      else
        SetPc(SetCtx(UseCtx(u, j.c), j.c, s.ctxs[j.c].(ring := ring - copied)), t, Complete(i, Continue(j)))
  }

  // The rest of IoctlPostEvent when no IRP waits; the 16-slot queue holds 15.
  function StepQueueing(s: State, t: nat): State
    requires t < |s.threads| && s.threads[t].Queueing? && InRange(s.threads[t], |s.irps|, |s.ctxs|)
  {
    var c := s.threads[t].c;
    var x := s.ctxs[c];
    SetPc(SetCtx(UseCtx(s, c), c, x.(events := if x.events < 15 then x.events + 1 else 15)), t, Idle)
  }

  function StepProducer(s: State, t: nat): State
    requires t < |s.threads| && s.threads[t].Producer? && InRange(s.threads[t], |s.irps|, |s.ctxs|)
  {
    var Producer(c, op) := s.threads[t];
    var u := UseCtx(s, c);
    var x := s.ctxs[c];
    match op
    case Produce(n) =>
      var fill := x.ring + n;
      SetPc(SetCtx(u, c, x.(ring := if fill <= RING_BYTES then fill else RING_BYTES)), t, Loop(TryAudio(c, false)))
    case Start => SetPc(SetCtx(u, c, x.(ring := 0)), t, Loop(Post(c)))
    case Stop => SetPc(u, t, Loop(StopAudio(c)))
    case Notify => SetPc(u, t, Loop(Post(c)))
  }

  // ----- handle cleanup -----

  function StepClStart(s: State, t: nat): State
    requires t < |s.threads| && s.threads[t].ClStart?
  {
    if s.rundown then SetPc(s, t, Idle)
    else SetPc(s.(count := s.count + 1), t, ClRef(s.threads[t].file))
  }

  function StepClRef(s: State, t: nat): State
    requires t < |s.threads| && s.threads[t].ClRef?
  {
    match s.published
    case None => SetPc(s, t, Release)
    case Some(c) => SetPc(s, t, ClLock(s.threads[t].file, c, Audio, []))
  }

  function StepClLock(s: State, t: nat): State
    requires t < |s.threads| && s.threads[t].ClLock? && InRange(s.threads[t], |s.irps|, |s.ctxs|)
  {
    var ClLock(f, c, k, out) := s.threads[t];
    SetPc(SetQueue(UseCtx(s, c), c, k, GetQueue(s, c, k).(lock := Some(t))), t, ClWalk(f, c, k, 0, out))
  }

  // One entry of CollectFileIrps, with the lock held.
  function StepClWalk(s: State, t: nat): State
    requires t < |s.threads| && s.threads[t].ClWalk? && WellFormed(s)
  {
    var ClWalk(f, c, k, pos, out) := s.threads[t];
    assert InRange(s.threads[t], |s.irps|, |s.ctxs|);
    var q := GetQueue(s, c, k);
    var u := UseCtx(s, c);
    if pos >= |q.list| then
      SetPc(SetQueue(u, c, k, q.(lock := None)), t, if k == Audio then ClLock(f, c, Event, out) else ClNext(out))
    else
      var i := q.list[pos];
      var r := s.irps[i];
      var v := Check(u, r.done);
      if r.file != f then SetPc(v, t, ClWalk(f, c, k, pos + 1, out))
      else
        var w := SetQueue(v, c, k, q.(list := q.list[..pos] + q.list[pos + 1..]));
        if r.hooked then
          SetPc(SetIrp(w, i, r.(selfRef := false, linked := false, hooked := false, owner := Held(t))), t,
                ClWalk(f, c, k, pos, out + [i]))
        else
          SetIrp(w, i, r.(selfRef := true, linked := false))
  }

  // Take the next IRP off the local list of claimed ones.
  function StepClNext(s: State, t: nat): State
    requires t < |s.threads| && s.threads[t].ClNext? && InRange(s.threads[t], |s.irps|, |s.ctxs|)
  {
    var out := s.threads[t].out;
    if out == [] then SetPc(s, t, Release)
    else
      var r := s.irps[out[0]];
      SetPc(SetIrp(Check(s, r.done), out[0], r.(selfRef := true)), t, Complete(out[0], Cleanup(out[1..])))
  }

  // ----- withdrawal and removal -----

  function Without(l: seq<nat>, c: nat): seq<nat> {
    if l == [] then [] else if l[0] == c then l[1..] else [l[0]] + Without(l[1..], c)
  }

  function StepWStart(s: State, t: nat): State
    requires t < |s.threads| && s.threads[t].WStart? && InRange(s.threads[t], |s.irps|, |s.ctxs|)
  {
    var WStart(c, remove) := s.threads[t];
    if s.ctxs[c].withdrawn then SetPc(s, t, WEnd(c, remove))
    else SetPc(SetCtx(s, c, s.ctxs[c].(withdrawn := true)), t, WUnpublish(c, remove))
  }

  // The first section under g_LiveDevicesLock.
  function StepWUnpublish(s: State, t: nat): State
    requires t < |s.threads| && s.threads[t].WUnpublish? && InRange(s.threads[t], |s.irps|, |s.ctxs|)
  {
    var WUnpublish(c, remove) := s.threads[t];
    var was := s.published == Some(c);
    var u := SetCtx(Check(s, c !in s.live), c, s.ctxs[c].(listed := false)).(live := Without(s.live, c));
    if was then
      SetPc(u.(published := None, withdrawing := true, wd := Some(Withdrawer(t, c, false))), t, WClose(c, remove, true))
    else SetPc(u, t, WClose(c, remove, false))
  }

  function StepWClose(s: State, t: nat): State
    requires t < |s.threads| && s.threads[t].WClose? && InRange(s.threads[t], |s.irps|, |s.ctxs|)
  {
    var WClose(c, remove, was) := s.threads[t];
    SetPc(SetCtx(UseCtx(s, c), c, s.ctxs[c].(closing := true)), t, Loop(CancelAll(c, Audio, Withdraw(was, remove))))
  }

  // ExWaitForRundownProtectionRelease, in two steps, then the re-arming.
  function StepWWait(s: State, t: nat): State
    requires t < |s.threads| && s.threads[t].WWait?
  {
    var WWait(c, remove) := s.threads[t];
    SetPc(s.(rundown := true), t, WDrain(c, remove))
  }

  function StepWDrain(s: State, t: nat): State
    requires t < |s.threads| && s.threads[t].WDrain? && s.count == 0
  {
    var WDrain(c, remove) := s.threads[t];
    SetPc(s.(wd := Some(Withdrawer(t, c, true))), t, WReinit(c, remove))
  }

  function StepWReinit(s: State, t: nat): State
    requires t < |s.threads| && s.threads[t].WReinit?
  {
    var WReinit(c, remove) := s.threads[t];
    SetPc(s.(rundown := false, count := 0), t, WRepublish(c, remove))
  }

  // The second section under g_LiveDevicesLock.
  function StepWRepublish(s: State, t: nat): State
    requires t < |s.threads| && s.threads[t].WRepublish?
  {
    var WRepublish(c, remove) := s.threads[t];
    var u := s.(withdrawing := false, wd := None);
    SetPc(if s.live == [] then u else u.(published := Some(s.live[0])), t, WEnd(c, remove))
  }

  // SURPRISE_REMOVAL is finished; REMOVE detaches the context from the FDO.
  function StepWEnd(s: State, t: nat): State
    requires t < |s.threads| && s.threads[t].WEnd? && InRange(s.threads[t], |s.irps|, |s.ctxs|)
  {
    var WEnd(c, remove) := s.threads[t];
    if remove then SetPc(SetCtx(s, c, s.ctxs[c].(fdo := false)), t, RPass(c))
    else SetPc(SetCtx(s, c, s.ctxs[c].(pnp := None)), t, Idle)
  }

  // PortCls has torn the device down: IoctlCtxDestroy begins.
  function StepRPass(s: State, t: nat): State
    requires t < |s.threads| && s.threads[t].RPass? && InRange(s.threads[t], |s.irps|, |s.ctxs|)
  {
    var c := s.threads[t].c;
    SetPc(SetCtx(s, c, s.ctxs[c].(quiet := true)), t, Loop(CancelAll(c, Audio, Destroy)))
  }

  function StepRFree(s: State, t: nat): State
    requires t < |s.threads| && s.threads[t].RFree? && InRange(s.threads[t], |s.irps|, |s.ctxs|)
  {
    var c := s.threads[t].c;
    var x := s.ctxs[c];
    SetPc(SetCtx(Check(UseCtx(s, c), x.audio.list != [] || x.event.list != []), c, x.(alive := false, pnp := None)),
      t, Idle)
  }

  // ----- steps that begin something -----

  // RegisterLiveDevice for a newly added device.
  function StepAddDevice(s: State): State {
    var c := |s.ctxs|;
    var q := Queue([], None, false);
    var x := Ctx(q, q, false, 0, 0, true, false, true, None, true, false);
    s.(ctxs := s.ctxs + [x], live := s.live + [c],
       published := if !s.withdrawing && s.published == None then Some(c) else s.published)
  }

  function StepIssue(s: State, t: nat, kind: Kind, file: nat): State
    requires t < |s.threads|
  {
    var r := Irp(kind, file, 0, false, false, false, false, NotCalled, false, false, false, Held(t));
    SetPc(s.(irps := s.irps + [r]), t, DcStart(|s.irps|))
  }

  // ----- the I/O manager -----

  function StepSetCancel(s: State, i: nat): State
    requires i < |s.irps|
  {
    SetIrp(s, i, s.irps[i].(cancel := true, cancelling := true))
  }

  // IoCancelIrp's exchange of the cancel routine; a non-null one is called.
  function StepTakeRoutine(s: State, i: nat): State
    requires i < |s.irps|
  {
    var r := s.irps[i];
    if r.hooked then SetIrp(s, i, r.(cancelling := false, hooked := false, routine := Called, owner := Routine))
    else SetIrp(s, i, r.(cancelling := false))
  }

  // The cancel routine's lock section.
  function StepRoutineUnlink(s: State, i: nat): State
    requires i < |s.irps| && s.irps[i].ctx < |s.ctxs|
  {
    var r := s.irps[i];
    var c := r.ctx;
    var q := GetQueue(s, c, r.kind);
    var u := Check(UseCtx(s, c), r.done || (!r.selfRef && i !in q.list));
    var v := if r.selfRef then u else SetQueue(u, c, r.kind, q.(list := Without(q.list, i)));
    SetIrp(v, i, r.(selfRef := true, linked := false, routine := Unlinked))
  }

  function StepRoutineComplete(s: State, i: nat): State
    requires i < |s.irps|
  {
    var r := s.irps[i];
    SetIrp(Check(s, r.done), i, r.(done := true, routine := Finished))
  }

  function StepRoutineUnref(s: State, i: nat): State
    requires i < |s.irps|
  {
    SetIrp(DropRef(s), i, s.irps[i].(refd := false, routine := NotCalled, owner := Gone))
  }

  // ----- the transition relation -----

  datatype Step =
    | AddDevice
    | Issue(t: nat, kind: Kind, file: nat)
    | CleanupFile(t: nat, file: nat)
    | PnpRemove(t: nat, c: nat, remove: bool)
    | Produces(t: nat, c: nat, op: ProducerOp)
    | SetCancel(i: nat)
    | TakeRoutine(i: nat)
    | RoutineUnlink(i: nat)
    | RoutineComplete(i: nat)
    | RoutineUnref(i: nat)
    | Go(t: nat, ok: bool, room: nat)

  // The job a thread is in the middle of.
  function JobOf(pc: Pc): Option<Job> {
    match pc
    case Loop(j) => Some(j)
    case Lock(j) => Some(j)
    case Dequeue(j) => Some(j)
    case Claimed(_, j) => Some(j)
    case Enqueue(_, _, _, _, Continue(j)) => Some(j)
    case Complete(_, Continue(j)) => Some(j)
    case Unref(_, Continue(j)) => Some(j)
    case _ => None
  }

  // The context a thread works on as an audio-side producer, outside the rundown.
  function Produced(pc: Pc): Option<nat> {
    match pc
    case Producer(c, _) => Some(c)
    case Queueing(c) => Some(c)
    case _ =>
      match JobOf(pc)
      case Some(TryAudio(c, dispatched)) => if dispatched then None else Some(c)
      case Some(StopAudio(c)) => Some(c)
      case Some(Post(c)) => Some(c)
      case _ => None
  }

  // A thread waits for a lock, for the rundown, and for PortCls's teardown
  // (which returns only when no stream or topology callback is running).
  predicate CanGo(s: State, t: nat, room: nat)
    requires t < |s.threads| && WellFormed(s)
  {
    var pc := s.threads[t];
    assert InRange(pc, |s.irps|, |s.ctxs|);
    match pc
    case Idle => false
    case Enqueue(Locking, _, c, k, _) => GetQueue(s, c, k).lock == None
    case Lock(j) => GetQueue(s, j.c, JobKind(j)).lock == None
    case ClLock(_, c, k, _) => GetQueue(s, c, k).lock == None
    case Claimed(_, _) => room >= FRAME_BYTES && room % FRAME_BYTES == 0
    case WDrain(_, _) => s.count == 0
    case RPass(c) => forall u :: 0 <= u < |s.threads| ==> Produced(s.threads[u]) != Some(c)
    case _ => true
  }

  predicate Enabled(s: State, step: Step)
    requires WellFormed(s)
  {
    match step
    case AddDevice => true
    case Issue(t, _, _) => t < |s.threads| && s.threads[t] == Idle
    case CleanupFile(t, _) => t < |s.threads| && s.threads[t] == Idle
    case PnpRemove(t, c, _) =>
      t < |s.threads| && s.threads[t] == Idle && c < |s.ctxs| && s.ctxs[c].fdo && s.ctxs[c].pnp == None
    case Produces(t, c, op) =>
      && t < |s.threads| && s.threads[t] == Idle && c < |s.ctxs| && s.ctxs[c].fdo
      && (op.Produce? ==> op.bytes % FRAME_BYTES == 0)
    case SetCancel(i) => i < |s.irps|
    case TakeRoutine(i) => i < |s.irps| && s.irps[i].cancelling
    case RoutineUnlink(i) =>
      && i < |s.irps| && s.irps[i].routine == Called
      && s.irps[i].ctx < |s.ctxs| && GetQueue(s, s.irps[i].ctx, s.irps[i].kind).lock == None
    case RoutineComplete(i) => i < |s.irps| && s.irps[i].routine == Unlinked
    case RoutineUnref(i) => i < |s.irps| && s.irps[i].routine == Finished
    case Go(t, _, room) => t < |s.threads| && CanGo(s, t, room)
  }

  function GoStep(s: State, t: nat, ok: bool, room: nat): State
    requires WellFormed(s) && t < |s.threads| && CanGo(s, t, room)
  {
    var pc := s.threads[t];
    assert InRange(pc, |s.irps|, |s.ctxs|);
    match pc
    case DcStart(_) => StepDcStart(s, t)
    case DcRef(_) => StepDcRef(s, t)
    case DcNull(_) => StepDcNull(s, t)
    case DcCtx(_, _) => StepDcCtx(s, t, ok)
    case DcPrepare(_, _) => StepDcPrepare(s, t)
    case DcFinish(_, _) => StepDcFinish(s, t)
    case Release => StepRelease(s, t)
    case Enqueue(Locking, _, _, _, _) => StepLocking(s, t)
    case Enqueue(Hooking, _, _, _, _) => StepHooking(s, t)
    case Enqueue(Testing, _, _, _, _) => StepTesting(s, t)
    case Enqueue(Unhooking, _, _, _, _) => StepUnhooking(s, t)
    case Enqueue(Inserting, _, _, _, _) => StepInserting(s, t)
    case Complete(_, _) => StepComplete(s, t)
    case Unref(_, _) => StepUnref(s, t)
    case Loop(_) => StepLoop(s, t)
    case Lock(_) => StepLock(s, t)
    case Dequeue(_) => StepDequeue(s, t)
    case Claimed(_, _) => StepClaimed(s, t, ok, room)
    case Queueing(_) => StepQueueing(s, t)
    case Producer(_, _) => StepProducer(s, t)
    case ClStart(_) => StepClStart(s, t)
    case ClRef(_) => StepClRef(s, t)
    case ClLock(_, _, _, _) => StepClLock(s, t)
    case ClWalk(_, _, _, _, _) => StepClWalk(s, t)
    case ClNext(_) => StepClNext(s, t)
    case WStart(_, _) => StepWStart(s, t)
    case WUnpublish(_, _) => StepWUnpublish(s, t)
    case WClose(_, _, _) => StepWClose(s, t)
    case WWait(_, _) => StepWWait(s, t)
    case WDrain(_, _) => StepWDrain(s, t)
    case WReinit(_, _) => StepWReinit(s, t)
    case WRepublish(_, _) => StepWRepublish(s, t)
    case WEnd(_, _) => StepWEnd(s, t)
    case RPass(_) => StepRPass(s, t)
    case RFree(_) => StepRFree(s, t)
  }

  function Apply(s: State, step: Step): State
    requires WellFormed(s) && Enabled(s, step)
  {
    match step
    case AddDevice => StepAddDevice(s)
    case Issue(t, k, f) => StepIssue(s, t, k, f)
    case CleanupFile(t, f) => SetPc(s, t, ClStart(f))
    case PnpRemove(t, c, remove) => SetPc(SetCtx(s, c, s.ctxs[c].(pnp := Some(t))), t, WStart(c, remove))
    case Produces(t, c, op) => SetPc(s, t, Producer(c, op))
    case SetCancel(i) => StepSetCancel(s, i)
    case TakeRoutine(i) => StepTakeRoutine(s, i)
    case RoutineUnlink(i) => StepRoutineUnlink(s, i)
    case RoutineComplete(i) => StepRoutineComplete(s, i)
    case RoutineUnref(i) => StepRoutineUnref(s, i)
    case Go(t, ok, room) => GoStep(s, t, ok, room)
  }

  // s leads to s' by the steps in order, each enabled where it is taken.
  ghost predicate Run(s: State, steps: seq<Step>, s': State)
    decreases |steps|
  {
    if steps == [] then s' == s
    else WellFormed(s) && Enabled(s, steps[0]) && Run(Apply(s, steps[0]), steps[1..], s')
  }
}
