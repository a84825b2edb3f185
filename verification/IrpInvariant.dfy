/**
 The inductive invariant of the inverted-call protocol.

 It is split by what it talks about: threads holding contexts, IRPs in the
 hands of threads, IRPs, queues, contexts, the publication, and the rundown
 count. Every clause reads a thread through a view of its program
 counter, so a step of one thread leaves the clauses about the others alone.
 */
module IrpInvariant {
  import opened Common
  import opened IrpMachine

  // ----- what a program counter stands for -----

  // How far the PnP request of the device has come.
  datatype Progress =
    Beginning | Marked | Unlisted | Shut | AudioDrained | BothDrained | Draining | Rearming | Detached | Destroying

  // How a thread comes to use a context: under its own dispatcher reference,
  // as an audio-side producer, or handling a PnP request of its device
  // (`withdraws` when the context was the published one: has the rundown drained?).
  datatype Role =
    | NoRole
    | Uses(c: nat)
    | Feeds(c: nat)
    | Pnp(c: nat, progress: Progress, withdraws: Option<bool>)

  datatype LockId = LockId(c: nat, k: Kind)

  // The IRP of a thread, by what the thread is about to do with it.
  datatype Hand =
    | Fresh                          // with its dispatcher, not prepared for queueing
    | Ready(c: nat, k: Kind)         // prepared or claimed, unlinked, no cancel routine
    | Hooked(c: nat, k: Kind, tested: bool)  // the cancel routine is set, not linked yet
    | Unhook(c: nat, k: Kind)
    | Completing
    | Completed

  datatype View = View(
    ref: bool,               // a dispatcher that holds a rundown reference
    role: Role,
    lock: Option<LockId>,    // the queue lock it holds
    linking: bool,           // inside the lock section in order to link an IRP
    walk: nat,               // its position in the list it walks
    irp: Option<nat>,
    hand: Hand,
    collected: seq<nat>,     // the local list of IoctlCancelFileIrps
    checks: Option<nat>)     // the context whose ring and list it will look at again

  function PnpView(c: nat, p: Progress, withdraws: Option<bool>): View {
    View(false, Pnp(c, p, withdraws), None, false, 0, None, Fresh, [], None)
  }

  function JobRole(j: Job): Role {
    match j
    case TryAudio(c, dispatched) => if dispatched then Uses(c) else Feeds(c)
    case StopAudio(c) => Feeds(c)
    case Post(c) => Feeds(c)
    case CancelAll(c, k, Destroy) => Pnp(c, Destroying, None)
    case CancelAll(c, k, Withdraw(was, _)) =>
      Pnp(c, if k == Audio then Shut else AudioDrained, if was then Some(false) else None)
  }

  function JobRef(j: Job): bool {
    j.TryAudio? && j.dispatched
  }

  function JobView(j: Job): View {
    View(JobRef(j), JobRole(j), None, false, 0, None, Fresh, [], if j.TryAudio? then Some(j.c) else None)
  }

  function AfterView(a: After): View {
    match a
    case Return => View(true, NoRole, None, false, 0, None, Fresh, [], None)
    case Continue(j) => JobView(j)
    case Cleanup(out) => View(true, NoRole, None, false, 0, None, Fresh, out, None)
  }

  function EnqueueHand(stage: QueueStage, c: nat, k: Kind): Hand {
    match stage
    case Locking => Ready(c, k)
    case Hooking => Ready(c, k)
    case Testing => Hooked(c, k, false)
    case Unhooking => Unhook(c, k)
    case Inserting => Hooked(c, k, true)
  }

  function ViewOf(pc: Pc): View {
    match pc
    case Idle => View(false, NoRole, None, false, 0, None, Fresh, [], None)
    case DcStart(i) => View(false, NoRole, None, false, 0, Some(i), Fresh, [], None)
    case DcRef(i) => View(true, NoRole, None, false, 0, Some(i), Fresh, [], None)
    case DcNull(i) => View(true, NoRole, None, false, 0, Some(i), Fresh, [], None)
    case DcCtx(i, c) => View(true, Uses(c), None, false, 0, Some(i), Fresh, [], None)
    case DcPrepare(i, c) => View(true, Uses(c), None, false, 0, Some(i), Fresh, [], None)
    case DcFinish(i, ref) => View(ref, NoRole, None, false, 0, Some(i), Fresh, [], None)
    case Release => View(true, NoRole, None, false, 0, None, Fresh, [], None)
    case Enqueue(stage, i, c, k, a) =>
      View(if a.Continue? then JobRef(a.job) else true,
           if a.Continue? then JobRole(a.job) else Uses(c),
           if stage == Locking then None else Some(LockId(c, k)), stage != Locking, 0,
           Some(i), EnqueueHand(stage, c, k), [], None)
    case Complete(i, a) => AfterView(a).(irp := Some(i), hand := Completing)
    case Unref(i, a) => AfterView(a).(irp := Some(i), hand := Completed)
    case Loop(j) => JobView(j)
    case Lock(j) => JobView(j)
    case Dequeue(j) => JobView(j).(lock := Some(LockId(j.c, JobKind(j))))
    case Claimed(i, j) => JobView(j).(irp := Some(i), hand := Ready(j.c, JobKind(j)))
    case Queueing(c) => View(false, Feeds(c), None, false, 0, None, Fresh, [], None)
    case Producer(c, _) => View(false, Feeds(c), None, false, 0, None, Fresh, [], None)
    case ClStart(_) => View(false, NoRole, None, false, 0, None, Fresh, [], None)
    case ClRef(_) => View(true, NoRole, None, false, 0, None, Fresh, [], None)
    case ClLock(_, c, _, out) => View(true, Uses(c), None, false, 0, None, Fresh, out, None)
    case ClWalk(_, c, k, pos, out) => View(true, Uses(c), Some(LockId(c, k)), false, pos, None, Fresh, out, None)
    case ClNext(out) => View(true, NoRole, None, false, 0, None, Fresh, out, None)
    case WStart(c, _) => PnpView(c, Beginning, None)
    case WUnpublish(c, _) => PnpView(c, Marked, None)
    case WClose(c, _, was) => PnpView(c, Unlisted, if was then Some(false) else None)
    case WWait(c, _) => PnpView(c, BothDrained, Some(false))
    case WDrain(c, _) => PnpView(c, Draining, Some(false))
    case WReinit(c, _) => PnpView(c, Rearming, Some(true))
    case WRepublish(c, _) => PnpView(c, BothDrained, Some(true))
    case WEnd(c, _) => PnpView(c, BothDrained, None)
    case RPass(c) => PnpView(c, Detached, None)
    case RFree(c) => PnpView(c, Destroying, None)
  }

  // Does the thread have IRP i in hand?
  predicate Has(v: View, i: nat) {
    v.irp == Some(i) || i in v.collected
  }

  predicate NoDup(l: seq<nat>) {
    forall m, n :: 0 <= m < n < |l| ==> l[m] != l[n]
  }

  // A requeue comes from TryAudio, on the same context's audio list; the
  // WaveRT side hands over whole frames.
  predicate Flow(pc: Pc) {
    && (pc.Enqueue? ==>
      && !pc.after.Cleanup?
      && (pc.after.Continue? ==> pc.after.job.TryAudio? && pc.after.job.c == pc.c && pc.k == Audio))
    && (pc.Producer? && pc.op.Produce? ==> pc.op.bytes % FRAME_BYTES == 0)
  }

  // ----- who may hold a context -----

  // A context that a dispatcher or a queued IRP may hold: it is published, or
  // its withdrawal is still waiting for the rundown.
  predicate CtxHeld(s: State, c: nat) {
    && c < |s.ctxs|
    && (s.published == Some(c) || (s.wd.Some? && s.wd.value.c == c && !s.wd.value.waited))
  }

  // ----- the clauses -----

  predicate HandOk(t: nat, r: Irp, h: Hand) {
    match h
    case Fresh => r.owner == Held(t) && !r.done && !r.hooked && !r.linked && !r.refd
    case Ready(c, k) =>
      r.owner == Held(t) && !r.done && !r.hooked && !r.linked && r.refd && r.selfRef && r.ctx == c && r.kind == k
    case Hooked(c, k, tested) =>
      && !r.done && !r.linked && r.refd && r.selfRef && r.ctx == c && r.kind == k
      && (if r.hooked then r.owner == Held(t) && (tested && r.cancel ==> r.cancelling)
          else r.owner == Routine && r.routine == Called)
    case Unhook(c, k) =>
      && !r.done && !r.linked && r.refd && r.selfRef && r.ctx == c && r.kind == k && r.cancel
      && (if r.hooked then r.owner == Held(t) else r.owner == Routine && r.routine == Called)
    case Completing => r.owner == Held(t) && !r.done && !r.hooked && !r.linked && r.refd
    case Completed => r.owner == Held(t) && r.done && !r.hooked && !r.linked && r.refd
  }

  // A linked IRP is in its context's list; an unfinished one is with exactly one owner.
  predicate IrpOk(r: Irp) {
    && (r.cancelling ==> r.cancel)
    && (r.linked ==>
          r.refd && !r.selfRef && !r.done && (r.owner == Queued || (r.owner == Routine && r.routine == Called)))
    && (r.owner == Queued ==> r.linked && r.hooked && (r.cancel ==> r.cancelling))
    && (r.owner == Routine ==> !r.hooked && r.refd && r.cancel && r.routine != NotCalled)
    && (r.owner != Routine ==> r.routine == NotCalled)
    && (r.routine == Called ==> !r.done && r.linked != r.selfRef)
    && (r.routine == Unlinked ==> !r.done && !r.linked && r.selfRef)
    && (r.routine == Finished ==> r.done && !r.linked)
    && (r.owner == Gone ==> r.done && !r.hooked && !r.linked && !r.refd)
  }

  predicate RoleOk(s: State, t: nat, role: Role) {
    match role
    case NoRole => true
    case Uses(c) => CtxHeld(s, c)
    case Feeds(c) => c < |s.ctxs| && !s.ctxs[c].quiet
    case Pnp(c, p, w) =>
      && c < |s.ctxs| && s.ctxs[c].pnp == Some(t) && PnpOk(s.ctxs[c], p)
      && (w.Some? ==> s.wd == Some(Withdrawer(t, c, w.value)))
      && (p == Draining ==> w == Some(false) && s.rundown)
      && (p == Rearming ==> w == Some(true) && s.rundown && s.count == 0)
  }

  // A thread inside a lock section holds that lock; it is about to link an IRP
  // only where no drain after Closing has been, and walks within the list.
  predicate LockOk(t: nat, v: View, q: Queue) {
    && q.lock == Some(t)
    && (v.linking ==> !q.drained)
    && v.walk <= |q.list|
  }

  // What thread t relies on.
  predicate ThreadInv(s: State, t: nat, v: View) {
    && RoleOk(s, t, v.role)
    && (v.lock.Some? ==>
      && v.lock.value.c < |s.ctxs| && LockOk(t, v, GetQueue(s, v.lock.value.c, v.lock.value.k)))
    && (v.irp.Some? ==>
      && v.irp.value < |s.irps| && HandOk(t, s.irps[v.irp.value], v.hand) && v.irp.value !in v.collected)
    && NoDup(v.collected)
    && (forall n :: 0 <= n < |v.collected| ==>
          v.collected[n] < |s.irps| && HandOk(t, s.irps[v.collected[n]], Completing))
  }

  predicate ThreadsOk(s: State) {
    forall t :: 0 <= t < |s.threads| ==> Flow(s.threads[t]) && ThreadInv(s, t, ViewOf(s.threads[t]))
  }

  // IRP i: its record is consistent, its context is held as long as it owns a
  // reference, its entry is in that context's list when linked, and the
  // thread that owns it has it in hand.
  predicate IrpInv(s: State, i: nat, r: Irp) {
    && IrpOk(r)
    && (r.refd ==> CtxHeld(s, r.ctx))
    && (r.linked ==> r.ctx < |s.ctxs| && i in QueueOf(s.ctxs[r.ctx], r.kind).list)
    && (r.owner.Held? ==> r.owner.thread < |s.threads| && Has(ViewOf(s.threads[r.owner.thread]), i))
  }

  predicate IrpsOk(s: State) {
    forall i :: 0 <= i < |s.irps| ==> IrpInv(s, i, s.irps[i])
  }

  predicate QueueOk(s: State, c: nat, k: Kind, q: Queue, closing: bool) {
    && NoDup(q.list)
    && (forall n :: 0 <= n < |q.list| ==>
          && q.list[n] < |s.irps| && s.irps[q.list[n]].linked
          && s.irps[q.list[n]].ctx == c && s.irps[q.list[n]].kind == k)
    && (q.lock.Some? ==> q.lock.value < |s.threads| && ViewOf(s.threads[q.lock.value]).lock == Some(LockId(c, k)))
    && (q.drained ==> closing && q.list == [])
  }

  predicate PnpOk(x: Ctx, p: Progress) {
    && x.alive
    && match p
       case Beginning => x.withdrawn ==> !x.listed && x.audio.drained && x.event.drained
       case Marked => x.withdrawn && x.listed
       case Unlisted => x.withdrawn && !x.listed
       case Shut => x.withdrawn && !x.listed && x.closing
       case AudioDrained => x.withdrawn && !x.listed && x.closing && x.audio.drained
       case Detached => x.withdrawn && !x.listed && x.audio.drained && x.event.drained && !x.fdo
       case Destroying => x.withdrawn && !x.listed && x.audio.drained && x.event.drained && !x.fdo && x.quiet
       case _ => x.withdrawn && !x.listed && x.audio.drained && x.event.drained
  }

  predicate CtxOk(x: Ctx) {
    && x.ring % FRAME_BYTES == 0
    && (!x.withdrawn ==> x.listed && x.fdo)
    && (x.withdrawn && x.pnp == None ==> !x.listed && x.audio.drained && x.event.drained)
    && (x.quiet ==> !x.fdo)
    && (!x.fdo ==> x.withdrawn && !x.listed && x.audio.drained && x.event.drained)
    && (!x.alive ==> x.quiet)
  }

  predicate CtxInv(s: State, c: nat, x: Ctx) {
    && CtxOk(x)
    && QueueOk(s, c, Audio, x.audio, x.closing)
    && QueueOk(s, c, Event, x.event, x.closing)
    && (x.listed <==> c in s.live)
  }

  predicate CtxsOk(s: State) {
    forall c :: 0 <= c < |s.ctxs| ==> CtxInv(s, c, s.ctxs[c])
  }

  // Nothing is published while a withdrawal drains; otherwise the first live
  // device's context is, or null if there is none.
  predicate Publication(s: State) {
    s.published == if s.withdrawing || s.live == [] then None else Some(s.live[0])
  }

  predicate PublishOk(s: State) {
    && Publication(s)
    && NoDup(s.live)
    && (forall n :: 0 <= n < |s.live| ==> s.live[n] < |s.ctxs|)
    && (s.withdrawing <==> s.wd.Some?)
    && (s.wd.Some? ==> s.wd.value.thread < |s.threads| && WithdrawerOk(s, ViewOf(s.threads[s.wd.value.thread]).role))
    && (s.rundown ==> s.wd.Some?)
  }

  // The thread recorded as the withdrawer is at it; the rundown is on only
  // between its two calls.
  predicate WithdrawerOk(s: State, role: Role)
    requires s.wd.Some?
  {
    && role.Pnp? && role.c == s.wd.value.c && role.withdraws == Some(s.wd.value.waited)
    && (s.rundown ==> role.progress == Draining || role.progress == Rearming)
  }

  function B2N(b: bool): nat {
    if b then 1 else 0
  }

  // Dispatchers holding a reference.
  function Dispatchers(threads: seq<Pc>): nat {
    if threads == [] then 0 else Dispatchers(threads[..|threads| - 1]) + B2N(ViewOf(threads[|threads| - 1]).ref)
  }

  // IRPs whose queue reference is not released.
  function RefdIrps(irps: seq<Irp>): nat {
    if irps == [] then 0 else RefdIrps(irps[..|irps| - 1]) + B2N(irps[|irps| - 1].refd)
  }

  predicate CountOk(s: State) {
    s.count == Dispatchers(s.threads) + RefdIrps(s.irps)
  }

  // The audio ring of context c holds a frame and an IRP could take it.
  predicate Tempting(s: State, c: nat) {
    && c < |s.ctxs| && s.ctxs[c].ring >= FRAME_BYTES
    && exists i :: i in s.ctxs[c].audio.list && i < |s.irps| && s.irps[i].hooked
  }

  predicate Checked(s: State, c: nat) {
    exists u :: 0 <= u < |s.threads| && ViewOf(s.threads[u]).checks == Some(c)
  }

  // No wake-up is lost: where audio and an IRP wait for each other, some
  // thread is about to look again.
  predicate Woken(s: State) {
    forall c :: 0 <= c < |s.ctxs| && Tempting(s, c) ==> Checked(s, c)
  }

  predicate Inv(s: State) {
    && !s.fault
    && ThreadsOk(s)
    && IrpsOk(s)
    && CtxsOk(s)
    && PublishOk(s)
    && CountOk(s)
  }

  // ----- consequences used by the steps -----

  lemma ViewInRange(s: State, t: nat, pc: Pc)
    requires Flow(pc) && ThreadInv(s, t, ViewOf(pc))
    ensures InRange(pc, |s.irps|, |s.ctxs|)
  {
  }

  lemma InvWellFormed(s: State)
    requires Inv(s)
    ensures WellFormed(s)
  {
    hide ViewOf, Flow, InRange, ThreadInv, CtxOk, IrpOk, Dispatchers, RefdIrps;
    forall t | 0 <= t < |s.threads| ensures InRange(s.threads[t], |s.irps|, |s.ctxs|) {
      ViewInRange(s, t, s.threads[t]);
    }
    forall c | 0 <= c < |s.ctxs|
      ensures forall n :: 0 <= n < |s.ctxs[c].audio.list| ==> s.ctxs[c].audio.list[n] < |s.irps|
      ensures forall n :: 0 <= n < |s.ctxs[c].event.list| ==> s.ctxs[c].event.list[n] < |s.irps|
    {
      assert CtxInv(s, c, s.ctxs[c]);
    }
    forall i | 0 <= i < |s.irps| ensures s.irps[i].refd ==> s.irps[i].ctx < |s.ctxs| {
      assert IrpInv(s, i, s.irps[i]);
    }
  }

  // A held context is not freed.
  lemma HeldAlive(s: State, c: nat)
    requires Inv(s) && CtxHeld(s, c)
    ensures s.ctxs[c].alive
  {
    if s.published == Some(c) {
      assert s.live[0] == c;
      assert CtxInv(s, c, s.ctxs[c]);
    } else {
      var t := s.wd.value.thread;
      assert ThreadInv(s, t, ViewOf(s.threads[t]));
    }
  }

  lemma {:induction false} DispatchersUpdate(p: seq<Pc>, t: nat, pc: Pc)
    requires t < |p|
    ensures Dispatchers(p[t := pc]) + B2N(ViewOf(p[t]).ref) == Dispatchers(p) + B2N(ViewOf(pc).ref)
  {
    var n := |p| - 1;
    if t < n {
      DispatchersUpdate(p[..n], t, pc);
      assert p[t := pc][..n] == p[..n][t := pc];
    } else {
      assert p[t := pc][..n] == p[..n];
    }
  }

  lemma {:induction false} RefdUpdate(p: seq<Irp>, i: nat, r: Irp)
    requires i < |p|
    ensures RefdIrps(p[i := r]) + B2N(p[i].refd) == RefdIrps(p) + B2N(r.refd)
  {
    var n := |p| - 1;
    if i < n {
      RefdUpdate(p[..n], i, r);
      assert p[i := r][..n] == p[..n][i := r];
    } else {
      assert p[i := r][..n] == p[..n];
    }
  }

  // A zero count means that nobody holds a reference.
  lemma {:induction false} NoDispatchers(p: seq<Pc>)
    requires Dispatchers(p) == 0
    ensures forall t :: 0 <= t < |p| ==> !ViewOf(p[t]).ref
  {
    if p != [] {
      NoDispatchers(p[..|p| - 1]);
      forall t | 0 <= t < |p| ensures !ViewOf(p[t]).ref {
        assert t < |p| - 1 ==> p[..|p| - 1][t] == p[t];
      }
    }
  }

  lemma {:induction false} NoRefdIrps(p: seq<Irp>)
    requires RefdIrps(p) == 0
    ensures forall i :: 0 <= i < |p| ==> !p[i].refd
  {
    if p != [] {
      NoRefdIrps(p[..|p| - 1]);
      forall i | 0 <= i < |p| ensures !p[i].refd {
        assert i < |p| - 1 ==> p[..|p| - 1][i] == p[i];
      }
    }
  }
}
