/**
 When a control event stays queued beside a pending event IRP: over whole runs,
 exactly by one of two steps, in which the two sides of the event path pass each
 other.
 */
module IrpEvents {
  import opened Common
  import opened IrpMachine
  import opened IrpInvariant
  import opened IrpFrame
  import opened IrpTheorems

  // An event IRP of the context can be claimed.
  predicate Waits(s: State, c: nat)
    requires c < |s.ctxs|
  {
    exists i :: i in s.ctxs[c].event.list && i < |s.irps| && s.irps[i].hooked
  }

  predicate Both(s: State, c: nat) {
    c < |s.ctxs| && s.ctxs[c].events > 0 && Waits(s, c)
  }

  predicate Never(s: State) {
    forall c :: 0 <= c < |s.ctxs| ==> !Both(s, c)
  }

  // The dispatcher, which found no event, links its IRP beside one.
  predicate LinksBesideEvent(s: State, step: Step) {
    && step.Go? && step.t < |s.threads|
    && s.threads[step.t].Enqueue? && s.threads[step.t].stage == Inserting && s.threads[step.t].k == Event
    && s.threads[step.t].c < |s.ctxs| && s.threads[step.t].i < |s.irps|
    && s.ctxs[s.threads[step.t].c].events > 0 && s.irps[s.threads[step.t].i].hooked
  }

  // IoctlPostEvent, which found no IRP, queues its event beside one.
  predicate QueuesBesideIrp(s: State, step: Step) {
    && step.Go? && step.t < |s.threads|
    && s.threads[step.t].Queueing? && s.threads[step.t].c < |s.ctxs| && Waits(s, s.threads[step.t].c)
  }

  predicate Passes(s: State, step: Step) {
    LinksBesideEvent(s, step) || QueuesBesideIrp(s, step)
  }

  // ----- all other steps -----

  // No event is added, and no IRP becomes claimable in an event list.
  predicate AddsNothing(s: State, s': State) {
    && |s.ctxs| <= |s'.ctxs|
    && (forall c :: |s.ctxs| <= c < |s'.ctxs| ==> s'.ctxs[c].events == 0)
    && (forall c :: 0 <= c < |s.ctxs| ==> CtxAddsNothing(s.ctxs[c], s'.ctxs[c]))
    && (forall i :: 0 <= i < |s'.irps| && s'.irps[i].hooked && (i < |s.irps| ==> !s.irps[i].hooked) ==>
          forall c :: 0 <= c < |s.ctxs| ==> i !in s.ctxs[c].event.list)
  }

  predicate CtxAddsNothing(x: Ctx, x': Ctx) {
    x'.events <= x.events && forall j :: j in x'.event.list ==> j in x.event.list
  }

  lemma BothBefore(s: State, s': State, c: nat)
    requires AddsNothing(s, s') && c < |s'.ctxs|
    ensures Both(s', c) ==> Both(s, c)
  {
    if Both(s', c) {
      var i :| i in s'.ctxs[c].event.list && i < |s'.irps| && s'.irps[i].hooked;
      assert CtxAddsNothing(s.ctxs[c], s'.ctxs[c]);
      assert i in s.ctxs[c].event.list;
    }
  }

  lemma NothingAdded(s: State, s': State)
    requires AddsNothing(s, s') && Never(s)
    ensures Never(s')
  {
    hide AddsNothing, Both;
    forall c | 0 <= c < |s'.ctxs| ensures !Both(s', c) {
      BothBefore(s, s', c);
      NotBoth(s, c);
    }
  }

  lemma NotBoth(s: State, c: nat)
    requires Never(s)
    ensures !Both(s, c)
  {
  }

  // What a step writes: no cancel routine is set, and at most context c changes.
  predicate Writes(s: State, s': State, c: nat) {
    && |s'.ctxs| == |s.ctxs| && |s'.irps| == |s.irps|
    && (forall d :: 0 <= d < |s.ctxs| && d != c ==> s'.ctxs[d] == s.ctxs[d])
    && (c < |s.ctxs| ==> CtxAddsNothing(s.ctxs[c], s'.ctxs[c]))
    && (forall i :: 0 <= i < |s.irps| && s'.irps[i].hooked ==> s.irps[i].hooked)
  }

  lemma WritesAddNothing(s: State, s': State, c: nat)
    requires Writes(s, s', c)
    ensures AddsNothing(s, s')
  {
  }

  lemma {:induction false} WithoutWithin(l: seq<nat>, c: nat)
    ensures forall j :: j in Without(l, c) ==> j in l
  {
    if l != [] { WithoutWithin(l[1..], c); }
  }

  // A queue that loses entries at most.
  lemma QueueAddsNothing(x: Ctx, k: Kind, q: Queue)
    requires forall j :: j in q.list ==> j in QueueOf(x, k).list
    ensures CtxAddsNothing(x, WithQueue(x, k, q))
  {
  }

  lemma ListInRange(s: State, c: nat, k: Kind)
    requires WellFormed(s) && c < |s.ctxs|
    ensures forall n :: 0 <= n < |GetQueue(s, c, k).list| ==> GetQueue(s, c, k).list[n] < |s.irps|
  {
  }

  // The context a program counter works on; past the end for none.
  function CtxOf(pc: Pc, none: nat): nat {
    match pc
    case DcCtx(_, c) => c
    case Enqueue(_, _, c, _, _) => c
    case Loop(j) => j.c
    case Lock(j) => j.c
    case Dequeue(j) => j.c
    case Claimed(_, j) => j.c
    case Producer(c, _) => c
    case ClLock(_, c, _, _) => c
    case ClWalk(_, c, _, _, _) => c
    case WStart(c, _) => c
    case WUnpublish(c, _) => c
    case WClose(c, _, _) => c
    case WEnd(c, _) => c
    case RPass(c) => c
    case RFree(c) => c
    case _ => none
  }

  lemma DispatchWrites(s: State, t: nat, ok: bool, room: nat)
    requires WellFormed(s) && t < |s.threads| && CanGo(s, t, room)
    requires var pc := s.threads[t];
      pc.DcStart? || pc.DcRef? || pc.DcNull? || pc.DcCtx? || pc.DcPrepare? || pc.DcFinish? || pc.Release?
    ensures Writes(s, GoStep(s, t, ok, room), CtxOf(s.threads[t], |s.ctxs|))
  {
    hide WellFormed, CanGo;
    ThreadInRange(s, t);
  }

  lemma EnqueueWrites(s: State, t: nat)
    requires WellFormed(s) && t < |s.threads| && s.threads[t].Enqueue?
    ensures InRange(s.threads[t], |s.irps|, |s.ctxs|)
    ensures s.threads[t].stage == Locking ==> Writes(s, StepLocking(s, t), s.threads[t].c)
    ensures s.threads[t].stage == Testing ==> Writes(s, StepTesting(s, t), s.threads[t].c)
  {
    hide WellFormed, QueueOf, WithQueue;
    ThreadInRange(s, t);
    var c, k := s.threads[t].c, s.threads[t].k;
    QueueAddsNothing(s.ctxs[c], k, GetQueue(s, c, k).(lock := Some(t)));
  }

  lemma UnhookingWrites(s: State, t: nat)
    requires WellFormed(s) && t < |s.threads| && s.threads[t].Enqueue?
    ensures InRange(s.threads[t], |s.irps|, |s.ctxs|)
    ensures Writes(s, StepUnhooking(s, t), s.threads[t].c)
  {
    hide WellFormed, QueueOf, WithQueue, CtxAddsNothing;
    ThreadInRange(s, t);
    var c, k := s.threads[t].c, s.threads[t].k;
    QueueAddsNothing(s.ctxs[c], k, GetQueue(s, c, k).(lock := None));
    assert CtxAddsNothing(s.ctxs[c], s.ctxs[c]) by { SameAddsNothing(s.ctxs[c]); }
  }

  lemma SameAddsNothing(x: Ctx)
    ensures CtxAddsNothing(x, x)
  {
  }

  // Linking an audio IRP.
  lemma InsertingWrites(s: State, t: nat)
    requires WellFormed(s) && t < |s.threads| && s.threads[t].Enqueue? && s.threads[t].k == Audio
    ensures InRange(s.threads[t], |s.irps|, |s.ctxs|)
    ensures Writes(s, StepInserting(s, t), s.threads[t].c)
  {
    hide WellFormed;
    ThreadInRange(s, t);
  }

  lemma CompletionWrites(s: State, t: nat, ok: bool, room: nat)
    requires WellFormed(s) && t < |s.threads| && CanGo(s, t, room)
    requires var pc := s.threads[t]; pc.Complete? || pc.Unref?
    ensures Writes(s, GoStep(s, t, ok, room), |s.ctxs|)
  {
    hide WellFormed, CanGo;
    ThreadInRange(s, t);
  }

  lemma ClaimedWrites(s: State, t: nat, ok: bool, room: nat)
    requires t < |s.threads| && s.threads[t].Claimed? && InRange(s.threads[t], |s.irps|, |s.ctxs|)
    ensures Writes(s, StepClaimed(s, t, ok, room), s.threads[t].job.c)
  {
    hide CtxAddsNothing;
    var x := s.ctxs[s.threads[t].job.c];
    SameAddsNothing(x);
    RingAddsNothing(x, if x.ring < room then 0 else x.ring - room);
  }

  lemma RingAddsNothing(x: Ctx, ring: nat)
    ensures CtxAddsNothing(x, x.(ring := ring))
  {
  }

  lemma ProducerWrites(s: State, t: nat)
    requires t < |s.threads| && s.threads[t].Producer? && InRange(s.threads[t], |s.irps|, |s.ctxs|)
    ensures Writes(s, StepProducer(s, t), s.threads[t].c)
  {
    hide CtxAddsNothing;
    var Producer(c, op) := s.threads[t];
    var x := s.ctxs[c];
    SameAddsNothing(x);
    if op.Produce? {
      RingAddsNothing(x, if x.ring + op.bytes <= RING_BYTES then x.ring + op.bytes else RING_BYTES);
    } else {
      RingAddsNothing(x, 0);
    }
  }

  lemma DrainWrites(s: State, t: nat, ok: bool, room: nat)
    requires WellFormed(s) && t < |s.threads| && CanGo(s, t, room)
    requires var pc := s.threads[t]; pc.Loop? || pc.Lock? || pc.Dequeue?
    ensures Writes(s, GoStep(s, t, ok, room), s.threads[t].job.c)
  {
    hide WellFormed, CanGo, QueueOf, WithQueue, CtxAddsNothing;
    ThreadInRange(s, t);
    var j := s.threads[t].job;
    var k, x := JobKind(j), s.ctxs[j.c];
    var q := GetQueue(s, j.c, k);
    ListInRange(s, j.c, k);
    SameAddsNothing(x);
    QueueAddsNothing(x, k, q.(lock := Some(t)));
    QueueAddsNothing(x, k, q.(lock := None, drained := q.drained || j.CancelAll?));
    if q.list != [] {
      QueueAddsNothing(x, k, q.(list := q.list[1..]));
      QueueAddsNothing(x, k, q.(list := q.list[1..], lock := None));
    }
  }

  lemma CleanupWrites(s: State, t: nat, ok: bool, room: nat)
    requires WellFormed(s) && t < |s.threads| && CanGo(s, t, room)
    requires var pc := s.threads[t]; pc.ClStart? || pc.ClRef? || pc.ClLock? || pc.ClNext?
    ensures Writes(s, GoStep(s, t, ok, room), CtxOf(s.threads[t], |s.ctxs|))
  {
    hide WellFormed, CanGo;
    ThreadInRange(s, t);
  }

  lemma ClWalkWrites(s: State, t: nat)
    requires WellFormed(s) && t < |s.threads| && s.threads[t].ClWalk?
    ensures Writes(s, StepClWalk(s, t), s.threads[t].c)
  {
    hide WellFormed, QueueOf, WithQueue, CtxAddsNothing;
    ThreadInRange(s, t);
    var ClWalk(f, c, k, pos, out) := s.threads[t];
    var q, x := GetQueue(s, c, k), s.ctxs[c];
    ListInRange(s, c, k);
    SameAddsNothing(x);
    QueueAddsNothing(x, k, q.(lock := None));
    if pos < |q.list| {
      var less := q.list[..pos] + q.list[pos + 1..];
      assert forall j :: j in less ==> j in q.list;
      QueueAddsNothing(x, k, q.(list := less));
    }
  }

  lemma WithdrawalWrites(s: State, t: nat, ok: bool, room: nat)
    requires WellFormed(s) && t < |s.threads| && CanGo(s, t, room)
    requires var pc := s.threads[t]; pc.WStart? || pc.WUnpublish? || pc.WClose?
    ensures Writes(s, GoStep(s, t, ok, room), s.threads[t].c)
  {
    hide WellFormed, CanGo, Without;
    ThreadInRange(s, t);
  }

  lemma RearmingWrites(s: State, t: nat, ok: bool, room: nat)
    requires WellFormed(s) && t < |s.threads| && CanGo(s, t, room)
    requires var pc := s.threads[t]; pc.WWait? || pc.WDrain? || pc.WReinit? || pc.WRepublish?
    ensures Writes(s, GoStep(s, t, ok, room), |s.ctxs|)
  {
    hide WellFormed, CanGo;
    ThreadInRange(s, t);
  }

  lemma RemovalWrites(s: State, t: nat, ok: bool, room: nat)
    requires WellFormed(s) && t < |s.threads| && CanGo(s, t, room)
    requires var pc := s.threads[t]; pc.WEnd? || pc.RPass? || pc.RFree?
    ensures Writes(s, GoStep(s, t, ok, room), s.threads[t].c)
  {
    hide WellFormed, CanGo;
    ThreadInRange(s, t);
  }

  // Setting a cancel routine: the IRP is in no list yet.
  lemma HookingAddsNothing(s: State, t: nat)
    requires Inv(s) && WellFormed(s) && t < |s.threads| && s.threads[t].Enqueue? && s.threads[t].stage == Hooking
    ensures InRange(s.threads[t], |s.irps|, |s.ctxs|)
    ensures AddsNothing(s, StepHooking(s, t))
  {
    hide Inv, WellFormed, QueueOk, CtxOk, PnpOk, NoDup;
    ThreadInRange(s, t);
    var i := s.threads[t].i;
    Facts(s, t, i, |s.ctxs|);
    forall c | 0 <= c < |s.ctxs| ensures i !in s.ctxs[c].event.list { ListFacts(s, c, i); }
  }

  lemma GoAddsNothing(s: State, t: nat, ok: bool, room: nat)
    requires Inv(s) && WellFormed(s) && t < |s.threads| && CanGo(s, t, room)
    requires !s.threads[t].Queueing?
    requires !(s.threads[t].Enqueue? && s.threads[t].stage == Inserting && s.threads[t].k == Event)
    ensures AddsNothing(s, GoStep(s, t, ok, room))
  {
    hide Inv, WellFormed, AddsNothing, Writes;
    var pc := s.threads[t];
    ThreadInRange(s, t);
    if pc.Enqueue? {
      hide StepLocking, StepTesting, StepUnhooking, StepInserting, StepHooking;
      match pc.stage {
        case Locking => EnqueueWrites(s, t); WritesAddNothing(s, StepLocking(s, t), pc.c);
        case Hooking => HookingAddsNothing(s, t);
        case Testing => EnqueueWrites(s, t); WritesAddNothing(s, StepTesting(s, t), pc.c);
        case Unhooking => UnhookingWrites(s, t); WritesAddNothing(s, StepUnhooking(s, t), pc.c);
        case Inserting => InsertingWrites(s, t); WritesAddNothing(s, StepInserting(s, t), pc.c);
      }
    } else {
      hide GoStep;
      if pc.Loop? || pc.Lock? || pc.Dequeue? {
        DrainWrites(s, t, ok, room);
      } else if pc.Complete? || pc.Unref? {
        CompletionWrites(s, t, ok, room);
      } else if pc.Claimed? {
        ProducerGoes(s, t, ok, room);
        ClaimedWrites(s, t, ok, room);
      } else if pc.Producer? {
        ProducerGoes(s, t, ok, room);
        ProducerWrites(s, t);
      } else if pc.ClWalk? {
        WalkGoes(s, t, ok, room);
        ClWalkWrites(s, t);
      } else if pc.ClStart? || pc.ClRef? || pc.ClLock? || pc.ClNext? {
        CleanupWrites(s, t, ok, room);
      } else if pc.WStart? || pc.WUnpublish? || pc.WClose? {
        WithdrawalWrites(s, t, ok, room);
      } else if pc.WWait? || pc.WDrain? || pc.WReinit? || pc.WRepublish? {
        RearmingWrites(s, t, ok, room);
      } else if pc.WEnd? || pc.RPass? || pc.RFree? {
        RemovalWrites(s, t, ok, room);
      } else {
        DispatchWrites(s, t, ok, room);
      }
      WritesAddNothing(s, GoStep(s, t, ok, room), CtxOf(pc, |s.ctxs|));
    }
  }

  lemma ProducerGoes(s: State, t: nat, ok: bool, room: nat)
    requires WellFormed(s) && t < |s.threads| && CanGo(s, t, room) && (s.threads[t].Claimed? || s.threads[t].Producer?)
    ensures InRange(s.threads[t], |s.irps|, |s.ctxs|)
    ensures GoStep(s, t, ok, room) == if s.threads[t].Claimed? then StepClaimed(s, t, ok, room) else StepProducer(s, t)
  {
    hide StepClaimed, StepProducer;
  }

  lemma WalkGoes(s: State, t: nat, ok: bool, room: nat)
    requires WellFormed(s) && t < |s.threads| && CanGo(s, t, room) && s.threads[t].ClWalk?
    ensures GoStep(s, t, ok, room) == StepClWalk(s, t)
  {
  }

  // The I/O manager, new devices and new IRPs.
  lemma OthersAddNothing(s: State, step: Step)
    requires Inv(s) && WellFormed(s) && Enabled(s, step) && !step.Go?
    ensures AddsNothing(s, Apply(s, step))
  {
    hide Inv, WellFormed, CanGo, AddsNothing;
    if step.RoutineUnlink? {
      UnlinkWrites(s, step.i);
      WritesAddNothing(s, StepRoutineUnlink(s, step.i), s.irps[step.i].ctx);
    } else if step.AddDevice? || step.Issue? {
      NewAddsNothing(s, step);
    } else {
      OthersWrite(s, step);
      WritesAddNothing(s, Apply(s, step), if step.PnpRemove? then step.c else |s.ctxs|);
    }
  }

  lemma UnlinkWrites(s: State, i: nat)
    requires i < |s.irps| && s.irps[i].ctx < |s.ctxs|
    ensures Writes(s, StepRoutineUnlink(s, i), s.irps[i].ctx)
  {
    hide QueueOf, WithQueue, CtxAddsNothing, Without;
    var c, k := s.irps[i].ctx, s.irps[i].kind;
    var q := GetQueue(s, c, k);
    WithoutWithin(q.list, i);
    SameAddsNothing(s.ctxs[c]);
    QueueAddsNothing(s.ctxs[c], k, q.(list := Without(q.list, i)));
  }

  lemma NewAddsNothing(s: State, step: Step)
    requires WellFormed(s) && Enabled(s, step) && (step.AddDevice? || step.Issue?)
    ensures AddsNothing(s, Apply(s, step))
  {
    hide WellFormed;
  }

  lemma OthersWrite(s: State, step: Step)
    requires WellFormed(s) && Enabled(s, step)
    requires step.CleanupFile? || step.PnpRemove? || step.Produces? || step.SetCancel? || step.TakeRoutine?
      || step.RoutineComplete? || step.RoutineUnref?
    ensures Writes(s, Apply(s, step), if step.PnpRemove? then step.c else |s.ctxs|)
  {
    hide WellFormed;
  }

  // ----- the two steps -----

  lemma LinkStep(s: State, t: nat)
    requires Inv(s) && WellFormed(s) && Never(s) && t < |s.threads|
    requires s.threads[t].Enqueue? && s.threads[t].stage == Inserting && s.threads[t].k == Event
    ensures InRange(s.threads[t], |s.irps|, |s.ctxs|)
    ensures var c, i := s.threads[t].c, s.threads[t].i;
      Never(StepInserting(s, t)) <==> !(s.ctxs[c].events > 0 && s.irps[i].hooked)
  {
    hide Inv, WellFormed;
    ThreadInRange(s, t);
    var c, i, s' := s.threads[t].c, s.threads[t].i, StepInserting(s, t);
    var q, q' := s.ctxs[c].event.list, s'.ctxs[c].event.list;
    assert forall j :: j in q' <==> j == i || j in q;
    if s.ctxs[c].events > 0 && s.irps[i].hooked {
      assert i in q' && s'.irps[i].hooked;
      assert Both(s', c);
    } else {
      forall d | 0 <= d < |s'.ctxs| ensures !Both(s', d) { LinkedBefore(s, t, d); }
    }
  }

  lemma LinkedBefore(s: State, t: nat, d: nat)
    requires WellFormed(s) && t < |s.threads| && d < |s.ctxs|
    requires s.threads[t].Enqueue? && s.threads[t].stage == Inserting && s.threads[t].k == Event
    requires InRange(s.threads[t], |s.irps|, |s.ctxs|)
    requires s.ctxs[s.threads[t].c].events == 0 || !s.irps[s.threads[t].i].hooked
    ensures Both(StepInserting(s, t), d) ==> Both(s, d)
  {
    hide WellFormed;
    var s' := StepInserting(s, t);
    if Both(s', d) {
      var j :| j in s'.ctxs[d].event.list && j < |s'.irps| && s'.irps[j].hooked;
      assert s.irps[j].hooked && j in s.ctxs[d].event.list;
    }
  }

  lemma QueueStep(s: State, t: nat)
    requires WellFormed(s) && Never(s) && t < |s.threads| && s.threads[t].Queueing?
    ensures InRange(s.threads[t], |s.irps|, |s.ctxs|)
    ensures Never(StepQueueing(s, t)) <==> !Waits(s, s.threads[t].c)
  {
    hide WellFormed;
    ThreadInRange(s, t);
    var c, s' := s.threads[t].c, StepQueueing(s, t);
    assert s'.ctxs[c].events > 0 && s'.ctxs[c].event == s.ctxs[c].event;
    if Waits(s, c) {
      assert Both(s', c);
    } else {
      assert !Waits(s', c);
      forall d | 0 <= d < |s'.ctxs| ensures !Both(s', d) {
        if d != c { SameBoth(s, s', d); }
      }
    }
  }

  lemma SameBoth(s: State, s': State, d: nat)
    requires d < |s.ctxs| == |s'.ctxs| && s'.irps == s.irps && s'.ctxs[d] == s.ctxs[d]
    ensures Both(s', d) <==> Both(s, d)
  {
  }

  // From a state without an event beside an event IRP, a step leads to one if and only
  // if it is one of the two.
  lemma StepPasses(s: State, step: Step)
    requires Inv(s) && WellFormed(s) && Enabled(s, step) && Never(s)
    ensures Never(Apply(s, step)) <==> !Passes(s, step)
  {
    hide Inv, WellFormed, Never, Waits, AddsNothing;
    if step.Go? {
      var t := step.t;
      ThreadInRange(s, t);
      if s.threads[t].Queueing? {
        QueueStep(s, t);
      } else if s.threads[t].Enqueue? && s.threads[t].stage == Inserting && s.threads[t].k == Event {
        LinkStep(s, t);
      } else {
        GoAddsNothing(s, t, step.ok, step.room);
        NothingAdded(s, Apply(s, step));
      }
    } else {
      OthersAddNothing(s, step);
      NothingAdded(s, Apply(s, step));
    }
  }

  // ----- runs -----

  ghost predicate NeverBoth(s: State, steps: seq<Step>)
    decreases |steps|
  {
    Never(s) && (steps != [] && WellFormed(s) && Enabled(s, steps[0]) ==> NeverBoth(Apply(s, steps[0]), steps[1..]))
  }

  ghost predicate NeverPasses(s: State, steps: seq<Step>)
    decreases |steps|
  {
    steps != [] && WellFormed(s) && Enabled(s, steps[0]) ==>
      !Passes(s, steps[0]) && NeverPasses(Apply(s, steps[0]), steps[1..])
  }

  lemma {:induction false} RunPasses(s: State, steps: seq<Step>, s': State)
    requires Inv(s) && Never(s) && Run(s, steps, s')
    ensures NeverBoth(s, steps) <==> NeverPasses(s, steps)
    ensures NeverBoth(s, steps) ==> Never(s')
    decreases |steps|
  {
    hide Inv, Never, Passes, WellFormed, Enabled, Apply;
    if steps != [] {
      StepPasses(s, steps[0]);
      StepKeepsInv(s, steps[0]);
      var r := Apply(s, steps[0]);
      if Never(r) {
        RunPasses(r, steps[1..], s');
      } else {
        assert !NeverBoth(r, steps[1..]);
      }
    }
  }

  // Over every run from the start: no state has an event queued beside a claimable event
  // IRP if and only if no step links such an IRP beside an event or queues an event
  // beside such an IRP.
  lemma NeverBothExactly(n: nat, steps: seq<Step>, s: State)
    requires Run(Start0(n), steps, s)
    ensures NeverBoth(Start0(n), steps) <==> NeverPasses(Start0(n), steps)
    ensures NeverPasses(Start0(n), steps) ==> Never(s)
  {
    hide Inv, Run, WellFormed;
    StartInv(n);
    assert Never(Start0(n));
    RunPasses(Start0(n), steps, s);
  }
}
