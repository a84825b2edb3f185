/** What holds in every run of the inverted-call protocol, for any number of threads. */
module IrpTheorems {
  import opened Common
  import opened IrpMachine
  import opened IrpInvariant
  import opened IrpFrame
  import T = IrpThreadProof
  import L = IrpListProof
  import E = IrpEnvProof

  // Thread t is about to put an IRP back while the ring holds a frame.
  predicate RequeuesBesideFrame(s: State, t: nat) {
    && t < |s.threads| && s.threads[t].Enqueue? && s.threads[t].stage == Inserting && s.threads[t].after.Continue?
    && s.threads[t].c < |s.ctxs| && s.ctxs[s.threads[t].c].ring >= FRAME_BYTES
  }

  lemma KeepGo(s: State, t: nat, ok: bool, room: nat)
    requires Inv(s) && WellFormed(s) && t < |s.threads| && CanGo(s, t, room)
    ensures Stays(s, GoStep(s, t, ok, room))
    ensures !RequeuesBesideFrame(s, t) ==> Keeps(s, GoStep(s, t, ok, room))
  {
    hide Inv, Stays, Woken, ViewOf, WellFormed;
    assert InRange(s.threads[t], |s.irps|, |s.ctxs|) by { ThreadInRange(s, t); }
    match s.threads[t]
    case DcStart(_) => T.KeepDcStart(s, t);
    case DcRef(_) => T.KeepDcRef(s, t);
    case DcNull(_) => T.KeepDcNull(s, t);
    case DcCtx(_, _) => T.KeepDcCtx(s, t, ok);
    case DcPrepare(_, _) => T.KeepDcPrepare(s, t);
    case DcFinish(_, _) => T.KeepDcFinish(s, t);
    case Release => T.KeepRelease(s, t);
    case Enqueue(Locking, _, _, _, _) => T.KeepLocking(s, t);
    case Enqueue(Hooking, _, _, _, _) => T.KeepHooking(s, t);
    case Enqueue(Testing, _, _, _, _) => L.KeepTesting(s, t);
    case Enqueue(Unhooking, _, _, _, _) => L.KeepUnhooking(s, t);
    case Enqueue(Inserting, _, _, _, _) => L.KeepInserting(s, t);
    case Complete(_, _) => T.KeepComplete(s, t);
    case Unref(_, _) => T.KeepUnref(s, t);
    case Loop(_) => T.KeepLoop(s, t);
    case Lock(_) => T.KeepLock(s, t);
    case Dequeue(_) => L.KeepDequeue(s, t);
    case Claimed(_, _) => T.KeepClaimed(s, t, ok, room);
    case Queueing(_) => T.KeepQueueing(s, t);
    case Producer(_, _) => T.KeepProducer(s, t);
    case ClStart(_) => T.KeepClStart(s, t);
    case ClRef(_) => T.KeepClRef(s, t);
    case ClLock(_, _, _, _) => T.KeepClLock(s, t);
    case ClWalk(_, _, _, _, _) => L.KeepClWalk(s, t);
    case ClNext(_) => L.KeepClNext(s, t);
    case WStart(_, _) => T.KeepWStart(s, t);
    case WUnpublish(_, _) => E.KeepWUnpublish(s, t);
    case WClose(_, _, _) => T.KeepWClose(s, t);
    case WWait(_, _) => E.KeepWWait(s, t);
    case WDrain(_, _) => E.KeepWDrain(s, t);
    case WReinit(_, _) => E.KeepWReinit(s, t);
    case WRepublish(_, _) => E.KeepWRepublish(s, t);
    case WEnd(_, _) => T.KeepWEnd(s, t);
    case RPass(_) => T.KeepRPass(s, t);
    case RFree(_) => T.KeepRFree(s, t);
  }

  lemma ThreadInRange(s: State, t: nat)
    requires WellFormed(s) && t < |s.threads|
    ensures InRange(s.threads[t], |s.irps|, |s.ctxs|)
  {
  }

  // Every step keeps the invariant; and that nobody waits unseen, unless it puts an IRP
  // back beside a frame.
  lemma StepKeepsInv(s: State, step: Step)
    requires Inv(s) && WellFormed(s) && Enabled(s, step)
    ensures Stays(s, Apply(s, step)) && WellFormed(Apply(s, step))
    ensures Woken(s) && !(step.Go? && RequeuesBesideFrame(s, step.t)) ==> Woken(Apply(s, step))
  {
    hide Inv, DrainedKept, WellFormed, CanGo, GoStep;
    match step {
      case AddDevice => E.KeepAddDevice(s);
      case Issue(t, k, f) => E.KeepIssue(s, t, k, f);
      case CleanupFile(t, f) => E.KeepCleanupFile(s, t, f);
      case PnpRemove(t, c, remove) => E.KeepPnpRemove(s, t, c, remove);
      case Produces(t, c, op) => E.KeepProduces(s, t, c, op);
      case SetCancel(i) => E.KeepSetCancel(s, i);
      case TakeRoutine(i) => E.KeepTakeRoutine(s, i);
      case RoutineUnlink(i) => E.KeepRoutineUnlink(s, i);
      case RoutineComplete(i) => E.KeepRoutineComplete(s, i);
      case RoutineUnref(i) => E.KeepRoutineUnref(s, i);
      case Go(t, ok, room) => KeepGo(s, t, ok, room);
    }
    InvWellFormed(Apply(s, step));
  }

  lemma {:induction false} RunKeepsInv(s: State, steps: seq<Step>, s': State)
    requires Inv(s) && Run(s, steps, s')
    ensures Inv(s')
    decreases |steps|
  {
    if steps != [] {
      StepKeepsInv(s, steps[0]);
      RunKeepsInv(Apply(s, steps[0]), steps[1..], s');
    }
  }

  lemma {:induction false} IdleThreads(n: nat)
    ensures Dispatchers(seq(n, _ => Idle)) == 0
  {
    if n > 0 {
      IdleThreads(n - 1);
      assert seq(n, _ => Idle)[..n - 1] == seq(n - 1, _ => Idle);
    }
  }

  lemma StartInv(n: nat)
    ensures Inv(Start0(n))
  {
    IdleThreads(n);
  }

  ghost predicate Reachable(s: State) {
    exists n: nat, steps :: Run(Start0(n), steps, s)
  }

  lemma ReachableInv(s: State)
    requires Reachable(s)
    ensures Inv(s) && WellFormed(s)
  {
    var n: nat, steps :| Run(Start0(n), steps, s);
    StartInv(n);
    RunKeepsInv(Start0(n), steps, s);
    InvWellFormed(s);
  }

  // ----- the theorems -----

  // No run corrupts the kernel: nothing is unlinked that is not linked, no IRP
  // is completed twice or touched after its completion, no rundown reference
  // is dropped twice, and no freed context is used.
  lemma NoFault(s: State)
    requires Reachable(s)
    ensures !s.fault
  {
    ReachableInv(s);
  }

  predicate Listed(s: State, i: nat) {
    exists c :: 0 <= c < |s.ctxs| && (i in s.ctxs[c].audio.list || i in s.ctxs[c].event.list)
  }

  // A thread has the IRP in hand and its cancel routine has not been called.
  predicate ClaimedBy(s: State, t: nat, i: nat)
    requires t < |s.threads| && i < |s.irps|
  {
    Has(ViewOf(s.threads[t]), i) && s.irps[i].routine == NotCalled
  }

  // Every uncompleted IRP has exactly one owner: a list (with its cancel
  // routine set), one thread, or its cancel routine; and Flink tells.
  lemma OneOwner(s: State, i: nat)
    requires Reachable(s) && i < |s.irps| && !s.irps[i].done
    ensures var queued := Listed(s, i) && s.irps[i].routine == NotCalled;
      var claimed := exists t :: 0 <= t < |s.threads| && ClaimedBy(s, t, i);
      var cancelled := s.irps[i].routine != NotCalled;
      && (queued || claimed || cancelled)
      && !(queued && claimed) && !(queued && cancelled) && !(claimed && cancelled)
      && (queued ==> s.irps[i].hooked && !s.irps[i].selfRef)
      && (cancelled ==> !s.irps[i].hooked && (Listed(s, i) <==> !s.irps[i].selfRef))
    ensures forall t, u ::
              0 <= t < |s.threads| && 0 <= u < |s.threads| && ClaimedBy(s, t, i) && ClaimedBy(s, u, i) ==> t == u
  {
    hide ViewOf, Flow, PublishOk, CountOk, CtxOk, NoDup, PnpOk;
    ReachableInv(s);
    var r := s.irps[i];
    assert IrpInv(s, i, r);
    ListedLinked(s, i);
    forall t | 0 <= t < |s.threads| && ClaimedBy(s, t, i) ensures r.owner == Held(t) {
      assert ThreadInv(s, t, ViewOf(s.threads[t]));
    }
    if r.owner.Held? {
      assert ClaimedBy(s, r.owner.thread, i);
    }
  }

  lemma ListedLinked(s: State, i: nat)
    requires Inv(s) && i < |s.irps|
    ensures Listed(s, i) <==> s.irps[i].linked
  {
    hide ViewOf, Flow, PublishOk, CountOk, CtxOk, NoDup, PnpOk, ThreadsOk;
    assert IrpInv(s, i, s.irps[i]);
    forall c | 0 <= c < |s.ctxs| && (i in s.ctxs[c].audio.list || i in s.ctxs[c].event.list)
      ensures s.irps[i].linked
    {
      ListFacts(s, c, i);
    }
  }

  // A completed IRP is in no list and its cancel routine can no longer be called.
  lemma CompletedIsOut(s: State, i: nat)
    requires Reachable(s) && i < |s.irps| && s.irps[i].done
    ensures !Listed(s, i) && !s.irps[i].hooked
  {
    hide ViewOf, Flow, PublishOk, CountOk, CtxOk, NoDup, PnpOk;
    ReachableInv(s);
    assert IrpInv(s, i, s.irps[i]);
    ListedLinked(s, i);
    if s.irps[i].owner.Held? {
      assert ThreadInv(s, s.irps[i].owner.thread, ViewOf(s.threads[s.irps[i].owner.thread]));
    }
  }

  // A cancelled IRP is never stranded in a list: the I/O manager's exchange of
  // its routine is still to come.
  lemma NoLostCancel(s: State, i: nat)
    requires Reachable(s) && i < |s.irps| && Listed(s, i) && s.irps[i].hooked && s.irps[i].cancel
    ensures s.irps[i].cancelling
  {
    hide ViewOf, Flow, PublishOk, CountOk, CtxOk, NoDup, PnpOk, ThreadsOk;
    ReachableInv(s);
    assert IrpInv(s, i, s.irps[i]);
    ListedLinked(s, i);
  }

  // Whenever no withdrawal is draining, the first live device's context is
  // published (null if there is none); while one is, nothing is.
  lemma PublishedIsFirst(s: State)
    requires Reachable(s)
    ensures s.published == if s.withdrawing || s.live == [] then None else Some(s.live[0])
  {
    ReachableInv(s);
  }

  // The rundown count is the number of running dispatchers plus that of the
  // queued IRPs whose reference is not released.
  lemma RundownCounts(s: State)
    requires Reachable(s)
    ensures s.count == Dispatchers(s.threads) + RefdIrps(s.irps)
  {
    ReachableInv(s);
  }

  // When the wait of the withdrawal returns, no dispatcher is running and no
  // queued IRP is uncompleted, on any context.
  lemma WaitReturns(s: State, t: nat)
    requires Reachable(s) && t < |s.threads| && s.threads[t].WDrain? && s.count == 0
    ensures forall u :: 0 <= u < |s.threads| ==> !ViewOf(s.threads[u]).ref
    ensures forall i :: 0 <= i < |s.irps| ==> !Listed(s, i) && s.irps[i].routine == NotCalled
  {
    hide ViewOf, Flow, PublishOk, CtxOk, NoDup, PnpOk, Dispatchers, RefdIrps;
    ReachableInv(s);
    NoDispatchers(s.threads);
    NoRefdIrps(s.irps);
    forall i | 0 <= i < |s.irps| ensures !Listed(s, i) && s.irps[i].routine == NotCalled {
      assert IrpInv(s, i, s.irps[i]);
      ListedLinked(s, i);
    }
  }

  // When a context is freed nobody holds it: its lists are empty, no queued or
  // cancelled IRP names it, no dispatcher, cleanup or producer is inside it,
  // and it is not published.
  lemma FreedUnheld(s: State, t: nat)
    requires Reachable(s) && t < |s.threads| && s.threads[t].RFree?
    ensures var c := s.threads[t].c;
      && c < |s.ctxs| && s.ctxs[c].audio.list == [] && s.ctxs[c].event.list == [] && s.published != Some(c)
      && (forall i :: 0 <= i < |s.irps| && s.irps[i].refd ==> s.irps[i].ctx != c)
      && (forall u :: 0 <= u < |s.threads| ==>
            ViewOf(s.threads[u]).role != Uses(c) && ViewOf(s.threads[u]).role != Feeds(c))
  {
    hide Flow, NoDup, PnpOk, Dispatchers, RefdIrps, CountOk, IrpOk;
    ReachableInv(s);
    var c := s.threads[t].c;
    assert ViewOf(s.threads[t]) == PnpView(c, Destroying, None);
    assert ThreadInv(s, t, ViewOf(s.threads[t]));
    FreeingFacts(s, t, c);
    forall u | 0 <= u < |s.threads|
      ensures ViewOf(s.threads[u]).role != Uses(c) && ViewOf(s.threads[u]).role != Feeds(c)
    {
      assert ThreadInv(s, u, ViewOf(s.threads[u]));
    }
    forall i | 0 <= i < |s.irps| && s.irps[i].refd ensures s.irps[i].ctx != c {
      assert IrpInv(s, i, s.irps[i]);
    }
  }

  lemma FreeingFacts(s: State, t: nat, c: nat)
    requires Inv(s) && t < |s.threads| && c < |s.ctxs|
    requires ViewOf(s.threads[t]) == PnpView(c, Destroying, None)
    ensures !CtxHeld(s, c) && s.ctxs[c].quiet && s.ctxs[c].audio.list == [] && s.ctxs[c].event.list == []
  {
    hide ViewOf, Flow, NoDup, Dispatchers, RefdIrps, CountOk, IrpOk, IrpsOk;
    assert ThreadInv(s, t, ViewOf(s.threads[t]));
    assert CtxInv(s, c, s.ctxs[c]);
    assert s.live != [] ==> s.live[0] in s.live;
    if s.wd.Some? {
      assert ThreadInv(s, s.wd.value.thread, ViewOf(s.threads[s.wd.value.thread]));
    }
  }

  // ----- Closing -----

  predicate DrainedIn(s: State, c: nat, k: Kind) {
    c < |s.ctxs| && GetQueue(s, c, k).drained
  }

  lemma {:induction false} DrainedRun(s: State, steps: seq<Step>, s': State, c: nat, k: Kind)
    requires Inv(s) && Run(s, steps, s')
    requires DrainedIn(s, c, k)
    ensures c < |s'.ctxs| && GetQueue(s', c, k).list == []
    decreases |steps|
  {
    hide ViewOf, Flow, PnpOk, Dispatchers, RefdIrps, CountOk, IrpOk, IrpsOk, ThreadsOk, NoDup, PublishOk;
    if steps == [] {
      assert CtxInv(s, c, s.ctxs[c]);
    } else {
      StepKeepsInv(s, steps[0]);
      DrainedRun(Apply(s, steps[0]), steps[1..], s', c, k);
    }
  }

  // Once the drain of IoctlBeginClose has seen a list empty under its lock, the
  // list stays empty for ever, although Closing is stored without the lock.
  lemma ClosedStaysEmpty(s: State, t: nat, ok: bool, room: nat, steps: seq<Step>, s': State)
    requires Reachable(s) && WellFormed(s) && Enabled(s, Go(t, ok, room))
    requires s.threads[t].Dequeue? && s.threads[t].job.CancelAll? && s.threads[t].job.c < |s.ctxs|
    requires GetQueue(s, s.threads[t].job.c, s.threads[t].job.k).list == []
    requires Run(Apply(s, Go(t, ok, room)), steps, s')
    ensures s.threads[t].job.c < |s'.ctxs| && GetQueue(s', s.threads[t].job.c, s.threads[t].job.k).list == []
  {
    hide Inv, ViewOf;
    ReachableInv(s);
    StepKeepsInv(s, Go(t, ok, room));
    DrainedRun(Apply(s, Go(t, ok, room)), steps, s', s.threads[t].job.c, s.threads[t].job.k);
  }

  // ----- wake-ups -----

  // The ring of the requeueing thread's context holds a frame, an IRP of the list it
  // leaves behind can be claimed, and no other thread is about to look.
  predicate BesideFrameUnseen(s: State, t: nat)
    requires t < |s.threads| && s.threads[t].Enqueue? && s.threads[t].c < |s.ctxs| && s.threads[t].i < |s.irps|
  {
    var c := s.threads[t].c;
    && s.ctxs[c].ring >= FRAME_BYTES
    && (s.irps[s.threads[t].i].hooked
        || exists j :: j in s.ctxs[c].audio.list && j < |s.irps| && s.irps[j].hooked)
    && (forall u :: 0 <= u < |s.threads| && u != t ==> ViewOf(s.threads[u]).checks != Some(c))
  }

  // The requeue loses the wake-up exactly when there is a frame, an IRP of the
  // new list can be claimed, and no other thread is about to look.
  lemma RequeueExact(s: State, t: nat)
    requires Reachable(s) && WellFormed(s) && t < |s.threads|
    requires s.threads[t].Enqueue? && s.threads[t].stage == Inserting && s.threads[t].after.Continue?
    ensures var c := s.threads[t].c;
      var s' := GoStep(s, t, true, 0);
      c < |s.ctxs| && s.threads[t].i < |s.irps|
      && ((Tempting(s', c) && !Checked(s', c)) <==> BesideFrameUnseen(s, t))
  {
    hide Inv, BesideFrameUnseen;
    ReachableInv(s);
    ThreadInRange(s, t);
    RequeueIs(s, t);
  }

  lemma RequeueIs(s: State, t: nat)
    requires Inv(s) && WellFormed(s) && t < |s.threads|
    requires s.threads[t].Enqueue? && s.threads[t].stage == Inserting && s.threads[t].after.Continue?
    ensures s.threads[t].c < |s.ctxs| && s.threads[t].i < |s.irps| && InRange(s.threads[t], |s.irps|, |s.ctxs|)
    ensures var c, s' := s.threads[t].c, StepInserting(s, t);
      (Tempting(s', c) && !Checked(s', c)) <==> BesideFrameUnseen(s, t)
  {
    hide ViewOf, IrpsOk, CtxsOk, PublishOk, CountOk, Woken, ThreadInv;
    var i, c := s.threads[t].i, s.threads[t].c;
    assert Flow(s.threads[t]);
    ThreadInRange(s, t);
    var s' := StepInserting(s, t);
    assert s'.threads[t] == JobEnd(s.threads[t].after.job);
    ReturnsUnchecked(s.threads[t].after.job);
    assert s'.ctxs[c].audio.list == [i] + s.ctxs[c].audio.list;
    forall j | j in s.ctxs[c].audio.list ensures j in s'.ctxs[c].audio.list {}
    assert i in s'.ctxs[c].audio.list;
    if Checked(s', c) {
      var u :| 0 <= u < |s'.threads| && ViewOf(s'.threads[u]).checks == Some(c);
      assert u != t && s'.threads[u] == s.threads[u];
    }
    forall u | 0 <= u < |s.threads| && u != t && ViewOf(s.threads[u]).checks == Some(c) ensures Checked(s', c) {
      assert s'.threads[u] == s.threads[u];
    }
  }

  lemma ReturnsUnchecked(j: Job)
    requires j.TryAudio?
    ensures ViewOf(JobEnd(j)).checks == None
  {
  }
}
