/** Each step of a thread keeps the invariant. */
module IrpThreadProof {
  import opened Common
  import opened IrpMachine
  import opened IrpInvariant
  import opened IrpFrame

  lemma KeepDcStart(s: State, t: nat)
    requires Inv(s) && t < |s.threads| && InRange(s.threads[t], |s.irps|, |s.ctxs|)
    requires s.threads[t].DcStart?
    ensures Keeps(s, StepDcStart(s, t))
  {
    hide Inv, Keeps, QueueOk, IrpInv;
    Facts(s, t, |s.irps|, |s.ctxs|);
    var s' := StepDcStart(s, t);
    KeepPc(s, t, s'.threads[t], s'.count);
  }

  lemma KeepDcRef(s: State, t: nat)
    requires Inv(s) && t < |s.threads| && InRange(s.threads[t], |s.irps|, |s.ctxs|)
    requires s.threads[t].DcRef?
    ensures Keeps(s, StepDcRef(s, t))
  {
    hide Inv, Keeps, QueueOk, IrpInv;
    Facts(s, t, |s.irps|, |s.ctxs|);
    var s' := StepDcRef(s, t);
    KeepPc(s, t, s'.threads[t], s'.count);
  }

  lemma KeepDcNull(s: State, t: nat)
    requires Inv(s) && t < |s.threads| && InRange(s.threads[t], |s.irps|, |s.ctxs|)
    requires s.threads[t].DcNull?
    ensures Keeps(s, StepDcNull(s, t))
  {
    hide Inv, Keeps, QueueOk, IrpInv;
    Facts(s, t, |s.irps|, |s.ctxs|);
    var s' := StepDcNull(s, t);
    KeepPc(s, t, s'.threads[t], s'.count);
  }

  lemma EventPopped(x: Ctx)
    requires CtxOk(x) && x.events > 0
    ensures CtxOk(x.(events := x.events - 1))
  {
  }

  lemma KeepDcCtx(s: State, t: nat, ok: bool)
    requires Inv(s) && t < |s.threads| && InRange(s.threads[t], |s.irps|, |s.ctxs|)
    requires s.threads[t].DcCtx?
    ensures Keeps(s, StepDcCtx(s, t, ok))
  {
    hide Inv, Keeps, QueueOk, IrpInv, CtxOk;
    var DcCtx(i, c) := s.threads[t];
    Facts(s, t, i, c);
    if !ok {
      KeepPc(s, t, DcFinish(i, true), s.count);
    } else if s.irps[i].kind == Event && s.ctxs[c].events > 0 {
      EventPopped(s.ctxs[c]);
      KeepPcCtx(s, t, DcFinish(i, true), c, s.ctxs[c].(events := s.ctxs[c].events - 1));
    } else {
      KeepPc(s, t, DcPrepare(i, c), s.count);
    }
  }

  lemma KeepDcPrepare(s: State, t: nat)
    requires Inv(s) && t < |s.threads| && InRange(s.threads[t], |s.irps|, |s.ctxs|)
    requires s.threads[t].DcPrepare?
    ensures Keeps(s, StepDcPrepare(s, t))
  {
    hide Inv, Keeps, QueueOk;
    var i := s.threads[t].i;
    Facts(s, t, i, |s.ctxs|);
    OwnedAlone(s, t, i);
    var s' := StepDcPrepare(s, t);
    KeepPcIrp(s, t, s'.threads[t], i, s'.irps[i], s'.count);
    assert s'.irps == s.irps[i := s'.irps[i]];
  }

  lemma KeepDcFinish(s: State, t: nat)
    requires Inv(s) && t < |s.threads| && InRange(s.threads[t], |s.irps|, |s.ctxs|)
    requires s.threads[t].DcFinish?
    ensures Keeps(s, StepDcFinish(s, t))
  {
    hide Inv, Keeps, QueueOk;
    var i := s.threads[t].i;
    Facts(s, t, i, |s.ctxs|);
    OwnedAlone(s, t, i);
    var s' := StepDcFinish(s, t);
    KeepPcIrp(s, t, s'.threads[t], i, s'.irps[i], s'.count);
    assert s'.irps == s.irps[i := s'.irps[i]];
  }

  lemma KeepRelease(s: State, t: nat)
    requires Inv(s) && t < |s.threads| && InRange(s.threads[t], |s.irps|, |s.ctxs|)
    requires s.threads[t].Release?
    ensures Keeps(s, StepRelease(s, t))
  {
    hide Inv, Keeps, QueueOk, IrpInv;
    Facts(s, t, |s.irps|, |s.ctxs|);
    var s' := StepRelease(s, t);
    KeepPc(s, t, s'.threads[t], s'.count);
  }

  lemma EnqueueAlive(s: State, t: nat)
    requires Inv(s) && t < |s.threads| && InRange(s.threads[t], |s.irps|, |s.ctxs|)
    requires s.threads[t].Enqueue?
    ensures s.ctxs[s.threads[t].c].alive
  {
    hide Inv, Keeps, QueueOk, IrpInv;
    Facts(s, t, s.threads[t].i, s.threads[t].c);
  }

  // The queueing section finds Closing set ...
  lemma Refused(s: State, t: nat)
    requires Inv(s) && t < |s.threads| && InRange(s.threads[t], |s.irps|, |s.ctxs|)
    requires s.threads[t].Enqueue? && s.threads[t].stage == Locking
    ensures var pc := Complete(s.threads[t].i, s.threads[t].after);
      PcOk(s, t, pc, s.count, ViewOf(s.threads[t]), ViewOf(pc))
  {
    hide Inv, Keeps, QueueOk, IrpInv, CtxInv;
    Facts(s, t, s.threads[t].i, s.threads[t].c);
  }

  // ... or clear: then no drain after Closing has seen this list.
  lemma Admitted(s: State, t: nat)
    requires Inv(s) && t < |s.threads| && InRange(s.threads[t], |s.irps|, |s.ctxs|)
    requires s.threads[t].Enqueue? && s.threads[t].stage == Locking
    requires GetQueue(s, s.threads[t].c, s.threads[t].k).lock == None
    requires !s.ctxs[s.threads[t].c].closing
    ensures var Enqueue(_, i, c, k, a) := s.threads[t];
      var pc := Enqueue(Hooking, i, c, k, a);
      PcCtxOk(s, t, pc, c, Locked(s.ctxs[c], k, t), ViewOf(s.threads[t]), ViewOf(pc))
  {
    hide Inv, Keeps, QueueOk, IrpInv, PnpOk;
    Facts(s, t, s.threads[t].i, s.threads[t].c);
  }

  lemma KeepLocking(s: State, t: nat)
    requires Inv(s) && t < |s.threads| && InRange(s.threads[t], |s.irps|, |s.ctxs|)
    requires s.threads[t].Enqueue? && s.threads[t].stage == Locking
    requires GetQueue(s, s.threads[t].c, s.threads[t].k).lock == None
    ensures Keeps(s, StepLocking(s, t))
  {
    hide Inv, Keeps, PcCtxOk, PcOk;
    var Enqueue(_, i, c, k, a) := s.threads[t];
    Facts(s, t, i, c);
    EnqueueAlive(s, t);
    if s.ctxs[c].closing {
      Refused(s, t);
      KeepPc(s, t, Complete(i, a), s.count);
    } else {
      Admitted(s, t);
      KeepPcCtx(s, t, Enqueue(Hooking, i, c, k, a), c, Locked(s.ctxs[c], k, t));
    }
  }

  lemma KeepHooking(s: State, t: nat)
    requires Inv(s) && t < |s.threads| && InRange(s.threads[t], |s.irps|, |s.ctxs|)
    requires s.threads[t].Enqueue? && s.threads[t].stage == Hooking
    ensures Keeps(s, StepHooking(s, t))
  {
    hide Inv, Keeps, QueueOk;
    var i := s.threads[t].i;
    Facts(s, t, i, |s.ctxs|);
    OwnedAlone(s, t, i);
    var s' := StepHooking(s, t);
    KeepPcIrp(s, t, s'.threads[t], i, s'.irps[i], s'.count);
    assert s'.irps == s.irps[i := s'.irps[i]];
  }

  lemma KeepComplete(s: State, t: nat)
    requires Inv(s) && t < |s.threads| && InRange(s.threads[t], |s.irps|, |s.ctxs|)
    requires s.threads[t].Complete?
    ensures Keeps(s, StepComplete(s, t))
  {
    hide Inv, Keeps, QueueOk;
    var i := s.threads[t].i;
    Facts(s, t, i, |s.ctxs|);
    OwnedAlone(s, t, i);
    var s' := StepComplete(s, t);
    KeepPcIrp(s, t, s'.threads[t], i, s'.irps[i], s'.count);
    assert s'.irps == s.irps[i := s'.irps[i]];
  }

  lemma Unreferenced(s: State, t: nat)
    requires Inv(s) && t < |s.threads| && InRange(s.threads[t], |s.irps|, |s.ctxs|)
    requires s.threads[t].Unref?
    ensures var Unref(i, a) := s.threads[t];
      && s.count > 0
      && PcIrpOk(s, t, AfterPc(a), i, s.irps[i].(refd := false, owner := Gone), s.count - 1,
                 ViewOf(s.threads[t]), ViewOf(AfterPc(a)))
  {
    hide Inv, Keeps, QueueOk, CtxInv;
    Facts(s, t, s.threads[t].i, |s.ctxs|);
  }

  lemma KeepUnref(s: State, t: nat)
    requires Inv(s) && t < |s.threads| && InRange(s.threads[t], |s.irps|, |s.ctxs|)
    requires s.threads[t].Unref?
    ensures Keeps(s, StepUnref(s, t))
  {
    hide Inv, Keeps, QueueOk, PcIrpOk, CtxInv, AfterPc;
    var i := s.threads[t].i;
    Facts(s, t, i, |s.ctxs|);
    OwnedAlone(s, t, i);
    Unreferenced(s, t);
    var s' := StepUnref(s, t);
    KeepPcIrp(s, t, s'.threads[t], i, s'.irps[i], s'.count);
    assert s'.irps == s.irps[i := s'.irps[i]];
  }

  lemma TryAudioView(j: Job)
    requires j.TryAudio?
    ensures JobRef(j) == j.dispatched
    ensures JobRole(j) == if j.dispatched then Uses(j.c) else Feeds(j.c)
  {
  }

  lemma KeepLoop(s: State, t: nat)
    requires Inv(s) && t < |s.threads| && InRange(s.threads[t], |s.irps|, |s.ctxs|)
    requires s.threads[t].Loop?
    ensures Keeps(s, StepLoop(s, t))
  {
    hide Inv, Keeps, QueueOk, IrpInv, CtxOk, PnpOk, JobRole, JobRef;
    var j := s.threads[t].job;
    Facts(s, t, |s.irps|, j.c);
    JobAlive(s, t, j);
    if j.TryAudio? && s.ctxs[j.c].ring < FRAME_BYTES {
      TryAudioView(j);
      KeepPc(s, t, JobEnd(j), s.count);
    } else {
      KeepPc(s, t, Lock(j), s.count);
    }
  }

  function Locked(x: Ctx, k: Kind, t: nat): Ctx {
    WithQueue(x, k, QueueOf(x, k).(lock := Some(t)))
  }

  lemma LockTaken(s: State, t: nat)
    requires Inv(s) && t < |s.threads| && InRange(s.threads[t], |s.irps|, |s.ctxs|)
    requires s.threads[t].Lock?
    requires GetQueue(s, s.threads[t].job.c, JobKind(s.threads[t].job)).lock == None
    ensures var j := s.threads[t].job;
      PcCtxOk(s, t, Dequeue(j), j.c, Locked(s.ctxs[j.c], JobKind(j), t), ViewOf(s.threads[t]), ViewOf(Dequeue(j)))
  {
    hide Inv, Keeps, QueueOk, IrpInv, JobRole, JobRef, PnpOk;
    var j := s.threads[t].job;
    Facts(s, t, |s.irps|, j.c);
    RoleKept(s, t, j, Locked(s.ctxs[j.c], JobKind(j), t));
  }

  lemma KeepLock(s: State, t: nat)
    requires Inv(s) && t < |s.threads| && InRange(s.threads[t], |s.irps|, |s.ctxs|)
    requires s.threads[t].Lock?
    requires GetQueue(s, s.threads[t].job.c, JobKind(s.threads[t].job)).lock == None
    ensures Keeps(s, StepLock(s, t))
  {
    hide Inv, Keeps, PcCtxOk;
    var j := s.threads[t].job;
    LockTaken(s, t);
    Facts(s, t, |s.irps|, j.c);
    JobAlive(s, t, j);
    KeepPcCtx(s, t, Dequeue(j), j.c, Locked(s.ctxs[j.c], JobKind(j), t));
  }

  lemma ClaimedNext(s: State, t: nat)
    requires Inv(s) && t < |s.threads| && InRange(s.threads[t], |s.irps|, |s.ctxs|)
    requires s.threads[t].Claimed?
    ensures var Claimed(i, j) := s.threads[t];
      && PcOk(s, t, Complete(i, Continue(j)), s.count, ViewOf(s.threads[t]), ViewOf(Complete(i, Continue(j))))
      && (j.TryAudio? && s.ctxs[j.c].ring < FRAME_BYTES ==> var pc := Enqueue(Locking, i, j.c, Audio, Continue(j));
            PcOk(s, t, pc, s.count, ViewOf(s.threads[t]), ViewOf(pc)))
  {
    hide Inv, Keeps, QueueOk, IrpInv, CtxInv, JobRole, JobRef;
    Facts(s, t, s.threads[t].i, s.threads[t].job.c);
  }

  lemma RingRead(s: State, t: nat, copied: nat)
    requires Inv(s) && t < |s.threads| && InRange(s.threads[t], |s.irps|, |s.ctxs|)
    requires s.threads[t].Claimed?
    requires copied % FRAME_BYTES == 0 && copied <= s.ctxs[s.threads[t].job.c].ring
    ensures var Claimed(i, j) := s.threads[t];
      var x := s.ctxs[j.c];
      var pc := Complete(i, Continue(j));
      PcCtxOk(s, t, pc, j.c, x.(ring := x.ring - copied), ViewOf(s.threads[t]), ViewOf(pc))
  {
    hide Inv, Keeps, QueueOk, IrpInv, JobRole, JobRef, PnpOk;
    var Claimed(i, j) := s.threads[t];
    Facts(s, t, i, j.c);
    RoleKept(s, t, j, s.ctxs[j.c].(ring := s.ctxs[j.c].ring - copied));
  }

  lemma KeepClaimed(s: State, t: nat, ok: bool, room: nat)
    requires Inv(s) && t < |s.threads| && InRange(s.threads[t], |s.irps|, |s.ctxs|)
    requires s.threads[t].Claimed? && room >= FRAME_BYTES && room % FRAME_BYTES == 0
    ensures Keeps(s, StepClaimed(s, t, ok, room))
  {
    hide Inv, Keeps, PcCtxOk, PcOk;
    var Claimed(i, j) := s.threads[t];
    Facts(s, t, i, j.c);
    JobAlive(s, t, j);
    var ring := s.ctxs[j.c].ring;
    var copied := if ring < room then ring else room;
    assert copied % FRAME_BYTES == 0;
    ClaimedNext(s, t);
    if !j.TryAudio? || !ok {
      KeepPc(s, t, Complete(i, Continue(j)), s.count);
    } else if copied == 0 {
      KeepPc(s, t, Enqueue(Locking, i, j.c, Audio, Continue(j)), s.count);
    } else {
      RingRead(s, t, copied);
      KeepPcCtx(s, t, Complete(i, Continue(j)), j.c, s.ctxs[j.c].(ring := ring - copied));
    }
  }

  lemma KeepQueueing(s: State, t: nat)
    requires Inv(s) && t < |s.threads| && InRange(s.threads[t], |s.irps|, |s.ctxs|)
    requires s.threads[t].Queueing?
    ensures Keeps(s, StepQueueing(s, t))
  {
    hide Inv, Keeps, QueueOk, IrpInv;
    var c := s.threads[t].c;
    Facts(s, t, |s.irps|, c);
    var s' := StepQueueing(s, t);
    KeepPcCtx(s, t, s'.threads[t], c, s'.ctxs[c]);
    assert s'.ctxs == s.ctxs[c := s'.ctxs[c]];
  }

  lemma ProducerNext(s: State, t: nat, pc: Pc, fill: nat)
    requires Inv(s) && t < |s.threads| && InRange(s.threads[t], |s.irps|, |s.ctxs|)
    requires s.threads[t].Producer?
    requires fill % FRAME_BYTES == 0 || fill == s.ctxs[s.threads[t].c].ring
    requires pc.Loop? && ViewOf(pc) == ViewOf(s.threads[t]).(checks := ViewOf(pc).checks)
    requires fill <= s.ctxs[s.threads[t].c].ring || ViewOf(pc).checks == Some(s.threads[t].c)
    ensures var c := s.threads[t].c;
      && s.ctxs[c].alive && s.ctxs[c].ring % FRAME_BYTES == 0
      && (s.threads[t].op.Produce? ==> s.threads[t].op.bytes % FRAME_BYTES == 0)
      && PcCtxOk(s, t, pc, c, s.ctxs[c].(ring := fill), ViewOf(s.threads[t]), ViewOf(pc))
  {
    hide Inv, Keeps, QueueOk, IrpInv, PnpOk, JobView;
    Facts(s, t, |s.irps|, s.threads[t].c);
  }

  // On to a drain of its own context, the ring filled as said.
  lemma ProducerGoes(s: State, t: nat, j: Job, fill: nat)
    requires Inv(s) && t < |s.threads| && InRange(s.threads[t], |s.irps|, |s.ctxs|)
    requires s.threads[t].Producer? && j.c == s.threads[t].c
      && ((j.TryAudio? && !j.dispatched) || j.StopAudio? || j.Post?)
    requires fill % FRAME_BYTES == 0 || fill == s.ctxs[j.c].ring
    requires fill <= s.ctxs[j.c].ring || j.TryAudio?
    ensures s.ctxs[j.c].alive && s.ctxs[j.c].ring % FRAME_BYTES == 0
    ensures s.threads[t].op.Produce? ==> s.threads[t].op.bytes % FRAME_BYTES == 0
    ensures Keeps(s, SetPc(SetCtx(s, j.c, s.ctxs[j.c].(ring := fill)), t, Loop(j)))
  {
    hide Inv, Keeps, PcCtxOk;
    ProducerNext(s, t, Loop(j), fill);
    KeepPcCtx(s, t, Loop(j), j.c, s.ctxs[j.c].(ring := fill));
  }

  lemma KeepProduce(s: State, t: nat)
    requires Inv(s) && t < |s.threads| && InRange(s.threads[t], |s.irps|, |s.ctxs|)
    requires s.threads[t].Producer? && (s.threads[t].op.Produce? || s.threads[t].op.Start?)
    ensures Keeps(s, StepProducer(s, t))
  {
    hide Inv, Keeps;
    var Producer(c, op) := s.threads[t];
    var ring := s.ctxs[c].ring;
    if op.Produce? {
      ProducerGoes(s, t, TryAudio(c, false), ring);
      ProducerGoes(s, t, TryAudio(c, false), if ring + op.bytes <= RING_BYTES then ring + op.bytes else RING_BYTES);
    } else {
      ProducerGoes(s, t, Post(c), 0);
    }
  }

  lemma KeepNotify(s: State, t: nat)
    requires Inv(s) && t < |s.threads| && InRange(s.threads[t], |s.irps|, |s.ctxs|)
    requires s.threads[t].Producer? && (s.threads[t].op.Stop? || s.threads[t].op.Notify?)
    ensures Keeps(s, StepProducer(s, t))
  {
    hide Inv, Keeps;
    var Producer(c, op) := s.threads[t];
    ProducerGoes(s, t, if op.Stop? then StopAudio(c) else Post(c), s.ctxs[c].ring);
    assert s.ctxs[c := s.ctxs[c]] == s.ctxs;
  }

  lemma KeepProducer(s: State, t: nat)
    requires Inv(s) && t < |s.threads| && InRange(s.threads[t], |s.irps|, |s.ctxs|)
    requires s.threads[t].Producer?
    ensures Keeps(s, StepProducer(s, t))
  {
    hide Inv, Keeps, InRange, StepProducer;
    if s.threads[t].op.Produce? || s.threads[t].op.Start? {
      KeepProduce(s, t);
    } else {
      KeepNotify(s, t);
    }
  }

  lemma KeepClStart(s: State, t: nat)
    requires Inv(s) && t < |s.threads| && InRange(s.threads[t], |s.irps|, |s.ctxs|)
    requires s.threads[t].ClStart?
    ensures Keeps(s, StepClStart(s, t))
  {
    hide Inv, Keeps, QueueOk, IrpInv;
    Facts(s, t, |s.irps|, |s.ctxs|);
    var s' := StepClStart(s, t);
    KeepPc(s, t, s'.threads[t], s'.count);
  }

  lemma KeepClRef(s: State, t: nat)
    requires Inv(s) && t < |s.threads| && InRange(s.threads[t], |s.irps|, |s.ctxs|)
    requires s.threads[t].ClRef?
    ensures Keeps(s, StepClRef(s, t))
  {
    hide Inv, Keeps, QueueOk, IrpInv;
    Facts(s, t, |s.irps|, |s.ctxs|);
    var s' := StepClRef(s, t);
    KeepPc(s, t, s'.threads[t], s'.count);
  }

  lemma KeepClLock(s: State, t: nat)
    requires Inv(s) && t < |s.threads| && InRange(s.threads[t], |s.irps|, |s.ctxs|)
    requires s.threads[t].ClLock?
    requires GetQueue(s, s.threads[t].c, s.threads[t].k).lock == None
    ensures Keeps(s, StepClLock(s, t))
  {
    hide Inv, Keeps, QueueOk, IrpInv;
    var c := s.threads[t].c;
    Facts(s, t, |s.irps|, c);
    var s' := StepClLock(s, t);
    KeepPcCtx(s, t, s'.threads[t], c, s'.ctxs[c]);
    assert s'.ctxs == s.ctxs[c := s'.ctxs[c]];
  }

  lemma WStartAgain(s: State, t: nat)
    requires Inv(s) && t < |s.threads| && InRange(s.threads[t], |s.irps|, |s.ctxs|)
    requires s.threads[t].WStart? && s.ctxs[s.threads[t].c].withdrawn
    ensures var WStart(c, remove) := s.threads[t];
      PcCtxOk(s, t, WEnd(c, remove), c, s.ctxs[c], ViewOf(s.threads[t]), ViewOf(WEnd(c, remove)))
  {
    hide Inv, Keeps, QueueOk, IrpInv, NoFeeder;
    Facts(s, t, |s.irps|, s.threads[t].c);
  }

  lemma WStartFirst(s: State, t: nat)
    requires Inv(s) && t < |s.threads| && InRange(s.threads[t], |s.irps|, |s.ctxs|)
    requires s.threads[t].WStart? && !s.ctxs[s.threads[t].c].withdrawn
    ensures var WStart(c, remove) := s.threads[t];
      PcCtxOk(s, t, WUnpublish(c, remove), c, s.ctxs[c].(withdrawn := true), ViewOf(s.threads[t]),
        ViewOf(WUnpublish(c, remove)))
  {
    hide Inv, Keeps, QueueOk, IrpInv, NoFeeder;
    Facts(s, t, |s.irps|, s.threads[t].c);
  }

  lemma KeepWStart(s: State, t: nat)
    requires Inv(s) && t < |s.threads| && InRange(s.threads[t], |s.irps|, |s.ctxs|)
    requires s.threads[t].WStart?
    ensures Keeps(s, StepWStart(s, t))
  {
    hide Inv, Keeps, PcCtxOk, ViewOf;
    var WStart(c, remove) := s.threads[t];
    if s.ctxs[c].withdrawn {
      WStartAgain(s, t);
      KeepPcCtx(s, t, WEnd(c, remove), c, s.ctxs[c]);
      assert s.ctxs[c := s.ctxs[c]] == s.ctxs;
    } else {
      WStartFirst(s, t);
      KeepPcCtx(s, t, WUnpublish(c, remove), c, s.ctxs[c].(withdrawn := true));
    }
  }

  lemma KeepWClose(s: State, t: nat)
    requires Inv(s) && t < |s.threads| && InRange(s.threads[t], |s.irps|, |s.ctxs|)
    requires s.threads[t].WClose?
    ensures Keeps(s, StepWClose(s, t))
  {
    hide Inv, Keeps, QueueOk, IrpInv;
    var c := s.threads[t].c;
    Facts(s, t, |s.irps|, c);
    var s' := StepWClose(s, t);
    KeepPcCtx(s, t, s'.threads[t], c, s'.ctxs[c]);
    assert s'.ctxs == s.ctxs[c := s'.ctxs[c]];
  }

  lemma KeepWEnd(s: State, t: nat)
    requires Inv(s) && t < |s.threads| && InRange(s.threads[t], |s.irps|, |s.ctxs|)
    requires s.threads[t].WEnd?
    ensures Keeps(s, StepWEnd(s, t))
  {
    hide Inv, Keeps, QueueOk, IrpInv;
    var WEnd(c, remove) := s.threads[t];
    Facts(s, t, |s.irps|, c);
    if remove {
      KeepPcCtx(s, t, RPass(c), c, s.ctxs[c].(fdo := false));
    } else {
      KeepPcCtx(s, t, Idle, c, s.ctxs[c].(pnp := None));
    }
  }

  lemma FeedersProduce(s: State, t: nat, c: nat)
    requires Inv(s)
    requires forall u :: 0 <= u < |s.threads| ==> Produced(s.threads[u]) != Some(c)
    ensures NoFeeder(s, t, c)
  {
    hide ViewOf, Produced, Flow, ThreadInv, IrpsOk, CtxsOk, CountOk;
    forall u | 0 <= u < |s.threads| && u != t ensures ViewOf(s.threads[u]).role != Feeds(c) {
      FeederProduces(s.threads[u], c);
    }
  }

  lemma FeederProduces(pc: Pc, c: nat)
    requires Flow(pc) && Produced(pc) != Some(c)
    ensures ViewOf(pc).role != Feeds(c)
  {
  }

  lemma KeepRPass(s: State, t: nat)
    requires Inv(s) && t < |s.threads| && InRange(s.threads[t], |s.irps|, |s.ctxs|)
    requires s.threads[t].RPass? && forall u :: 0 <= u < |s.threads| ==> Produced(s.threads[u]) != Some(s.threads[t].c)
    ensures Keeps(s, StepRPass(s, t))
  {
    hide Inv, Keeps, QueueOk, IrpInv;
    var c := s.threads[t].c;
    Facts(s, t, |s.irps|, c);
    FeedersProduce(s, t, c);
    var s' := StepRPass(s, t);
    KeepPcCtx(s, t, s'.threads[t], c, s'.ctxs[c]);
    assert s'.ctxs == s.ctxs[c := s'.ctxs[c]];
  }

  lemma KeepRFree(s: State, t: nat)
    requires Inv(s) && t < |s.threads| && InRange(s.threads[t], |s.irps|, |s.ctxs|)
    requires s.threads[t].RFree?
    ensures Keeps(s, StepRFree(s, t))
  {
    hide Inv, Keeps, QueueOk, IrpInv;
    var c := s.threads[t].c;
    Facts(s, t, |s.irps|, c);
    var s' := StepRFree(s, t);
    KeepPcCtx(s, t, s'.threads[t], c, s'.ctxs[c]);
    assert s'.ctxs == s.ctxs[c := s'.ctxs[c]];
  }
}
