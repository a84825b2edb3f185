/**
 The steps of the I/O manager, of device arrival and of the withdrawal of a
 context keep the invariant.
 */
module IrpEnvProof {
  import opened Common
  import opened IrpMachine
  import opened IrpInvariant
  import opened IrpFrame

  // ----- steps that touch an IRP but no thread -----

  // IRP i changes, and possibly the one list of context c whose lock is free.
  predicate EnvOk(s: State, s': State, i: nat, c: nat) {
    && i < |s.irps| == |s'.irps| && |s'.ctxs| == |s.ctxs|
    && s'.threads == s.threads && s'.published == s.published && s'.live == s.live
    && s'.withdrawing == s.withdrawing && s'.rundown == s.rundown && s'.wd == s.wd
    && !s'.fault
    && s'.irps == s.irps[i := s'.irps[i]]
    && (forall d :: 0 <= d < |s.ctxs| && d != c ==> s'.ctxs[d] == s.ctxs[d])
    && var r, r' := s.irps[i], s'.irps[i];
    && (forall u :: 0 <= u < |s.threads| ==> HandsStep(u, i, ViewOf(s.threads[u]), r, r'))
    && r'.kind == r.kind && r'.ctx == r.ctx && IrpOk(r')
    && (r'.refd ==> r.refd) && (r'.hooked ==> r.hooked) && (r'.linked ==> r.linked && r.ctx != c)
    && (r.linked ==> r'.linked || r.ctx == c)
    && (r'.owner.Held? ==> r'.owner == r.owner)
    && s'.count + B2N(r.refd) == s.count + B2N(r'.refd)
    && (s.rundown && s.count == 0 ==> s'.count == 0)
    && (c < |s.ctxs| ==>
      && QueueCut(i, r', c, Audio, s.ctxs[c].audio, s'.ctxs[c].audio)
      && QueueCut(i, r', c, Event, s.ctxs[c].event, s'.ctxs[c].event)
      && s'.ctxs[c] == s.ctxs[c].(audio := s'.ctxs[c].audio, event := s'.ctxs[c].event))
  }

  // Whoever has the IRP in hand may go on with the new record.
  predicate HandsStep(u: nat, i: nat, v: View, r: Irp, r': Irp) {
    && (v.irp == Some(i) && HandOk(u, r, v.hand) ==> HandOk(u, r', v.hand))
    && (i in v.collected && HandOk(u, r, Completing) ==> HandOk(u, r', Completing))
  }

  // The list loses at most IRP i, and only while its lock is free.
  predicate QueueCut(i: nat, r': Irp, c: nat, k: Kind, q: Queue, q': Queue) {
    || (q' == q && (i in q.list ==> r'.linked))
    || (&& q.lock == None && q' == q.(list := q'.list)
        && NoDup(q'.list) && i !in q'.list
        && (forall j :: j in q'.list ==> j in q.list)
        && (forall j :: j in q.list && j != i ==> j in q'.list))
  }

  lemma EnvThread(s: State, s': State, i: nat, c: nat, u: nat)
    requires Inv(s) && EnvOk(s, s', i, c) && u < |s.threads|
    ensures ThreadInv(s', u, ViewOf(s'.threads[u]))
  {
    hide ViewOf, Flow, IrpOk, CtxOk, IrpInv, CtxInv, Publication, Dispatchers, RefdIrps, NoDup;
    assert ThreadInv(s, u, ViewOf(s.threads[u]));
    assert HandsStep(u, i, ViewOf(s.threads[u]), s.irps[i], s'.irps[i]);
    var v := ViewOf(s.threads[u]);
    if v.lock.Some? && v.lock.value.c == c {
      assert GetQueue(s, c, v.lock.value.k).lock == Some(u);
      assert GetQueue(s', c, v.lock.value.k) == GetQueue(s, c, v.lock.value.k);
    }
  }

  // A queue that loses entries, while those that stay are linked as before.
  lemma QueueShrinks(s: State, s': State, d: nat, k: Kind, q: Queue, q': Queue, closing: bool)
    requires QueueOk(s, d, k, q, closing) && NoDup(q'.list) && q' == q.(list := q'.list)
    requires s'.threads == s.threads && |s'.irps| == |s.irps|
    requires forall j :: j in q'.list ==> j in q.list
    requires forall j :: j in q'.list && j < |s.irps| && s.irps[j].linked && s.irps[j].ctx == d ==>
      s'.irps[j].linked && s'.irps[j].ctx == d && s'.irps[j].kind == s.irps[j].kind
    ensures QueueOk(s', d, k, q', closing)
  {
    hide ViewOf, NoDup;
    if q'.list != [] { assert q'.list[0] in q.list; }
    forall n | 0 <= n < |q'.list|
      ensures q'.list[n] < |s'.irps| && s'.irps[q'.list[n]].linked
      ensures s'.irps[q'.list[n]].ctx == d && s'.irps[q'.list[n]].kind == k
    {
      assert q'.list[n] in q'.list;
      var m :| 0 <= m < |q.list| && q.list[m] == q'.list[n];
    }
  }

  lemma EnvQueue(s: State, s': State, i: nat, c: nat, d: nat, k: Kind)
    requires Inv(s) && EnvOk(s, s', i, c) && d < |s.ctxs|
    ensures QueueOk(s', d, k, GetQueue(s', d, k), s'.ctxs[d].closing)
  {
    hide ViewOf, Flow, IrpOk, CtxOk, ThreadInv, IrpInv, Publication, Dispatchers, RefdIrps, HandsStep, Woken;
    hide IrpsOk, ThreadsOk, NoDup;
    assert CtxInv(s, d, s.ctxs[d]);
    var q, q' := GetQueue(s, d, k), GetQueue(s', d, k);
    assert d == c ==> QueueCut(i, s'.irps[i], c, k, q, q');
    assert NoDup(q.list);
    QueueShrinks(s, s', d, k, q, q', s'.ctxs[d].closing);
  }

  lemma EnvWake(s: State, s': State, i: nat, c: nat)
    requires Inv(s) && EnvOk(s, s', i, c)
    requires Woken(s)
    ensures Woken(s')
  {
    hide ViewOf, Flow, IrpOk, CtxOk, ThreadInv, IrpInv, CtxInv, ThreadsOk, IrpsOk, CountOk, Publication;
    hide Dispatchers, RefdIrps, HandsStep, NoDup;
    forall d | 0 <= d < |s'.ctxs| && Tempting(s', d) ensures Checked(s', d) {
      var j :| j in s'.ctxs[d].audio.list && j < |s'.irps| && s'.irps[j].hooked;
      assert j in s.ctxs[d].audio.list && s.irps[j].hooked;
      assert Tempting(s, d);
    }
  }

  lemma KeepEnv(s: State, s': State, i: nat, c: nat)
    requires Inv(s) && EnvOk(s, s', i, c)
    ensures Keeps(s, s')
  {
    hide Woken, ViewOf, Flow, IrpOk, CtxOk, ThreadInv, Dispatchers, RefdIrps, QueueOk, HandsStep, NoDup;
    forall u | 0 <= u < |s'.threads| ensures Flow(s'.threads[u]) && ThreadInv(s', u, ViewOf(s'.threads[u])) {
      EnvThread(s, s', i, c, u);
    }
    forall j | 0 <= j < |s'.irps| ensures IrpInv(s', j, s'.irps[j]) {
      assert IrpInv(s, j, s.irps[j]);
      assert IrpInv(s, i, s.irps[i]);
    }
    forall d | 0 <= d < |s'.ctxs| ensures CtxInv(s', d, s'.ctxs[d]) {
      assert CtxInv(s, d, s.ctxs[d]);
      EnvQueue(s, s', i, c, d, Audio);
      EnvQueue(s, s', i, c, d, Event);
      EnvCtx(s.ctxs[d], s'.ctxs[d]);
    }
    RefdUpdate(s.irps, i, s'.irps[i]);
    if Woken(s) { EnvWake(s, s', i, c); }
  }

  lemma EnvCtx(x: Ctx, x': Ctx)
    requires CtxOk(x) && x' == x.(audio := x'.audio, event := x'.event)
    requires x'.audio.drained == x.audio.drained && x'.event.drained == x.event.drained
    ensures CtxOk(x')
  {
  }

  lemma KeepSetCancel(s: State, i: nat)
    requires Inv(s) && i < |s.irps|
    ensures Keeps(s, StepSetCancel(s, i))
  {
    hide ViewOf, ThreadsOk, CtxsOk, CountOk;
    assert IrpInv(s, i, s.irps[i]);
    KeepEnv(s, StepSetCancel(s, i), i, |s.ctxs|);
  }

  // The exchange takes the IRP from the queue, or from the thread about to link it.
  lemma TakeRoutineOk(s: State, i: nat)
    requires Inv(s) && i < |s.irps| && s.irps[i].cancelling
    ensures EnvOk(s, StepTakeRoutine(s, i), i, |s.ctxs|)
  {
    hide ViewOf, CtxsOk, CountOk, PublishOk;
    assert IrpInv(s, i, s.irps[i]);
    if s.irps[i].hooked && s.irps[i].owner.Held? {
      assert ThreadInv(s, s.irps[i].owner.thread, ViewOf(s.threads[s.irps[i].owner.thread]));
    }
  }

  lemma KeepTakeRoutine(s: State, i: nat)
    requires Inv(s) && i < |s.irps| && s.irps[i].cancelling
    ensures Keeps(s, StepTakeRoutine(s, i))
  {
    hide Inv, Keeps, EnvOk;
    TakeRoutineOk(s, i);
    KeepEnv(s, StepTakeRoutine(s, i), i, |s.ctxs|);
  }

  lemma {:induction false} WithoutFacts(l: seq<nat>, c: nat)
    requires NoDup(l)
    ensures NoDup(Without(l, c)) && c !in Without(l, c)
    ensures forall j :: j in Without(l, c) <==> j in l && j != c
  {
    if l != [] {
      assert l == [l[0]] + l[1..];
      assert l[0] !in l[1..];
      if l[0] != c { WithoutFacts(l[1..], c); }
    }
  }

  // Nobody has in hand an IRP whose cancel routine runs while the lock of its
  // queue is free.
  lemma NobodyLinks(s: State, i: nat)
    requires Inv(s) && i < |s.irps| && s.irps[i].owner == Routine
    requires s.irps[i].routine == Called ==>
               s.irps[i].ctx < |s.ctxs| && GetQueue(s, s.irps[i].ctx, s.irps[i].kind).lock == None
    ensures forall u :: 0 <= u < |s.threads| ==> !Has(ViewOf(s.threads[u]), i)
  {
    hide ViewOf, CtxsOk, CountOk, IrpsOk;
    forall u | 0 <= u < |s.threads| ensures !Has(ViewOf(s.threads[u]), i) {
      assert ThreadInv(s, u, ViewOf(s.threads[u]));
      LinkingLocks(s.threads[u]);
    }
  }

  lemma RoutineUnlinks(s: State, i: nat)
    requires Inv(s) && i < |s.irps| && s.irps[i].routine == Called
    requires s.irps[i].ctx < |s.ctxs| && GetQueue(s, s.irps[i].ctx, s.irps[i].kind).lock == None
    ensures var r := s.irps[i];
      var q := GetQueue(s, r.ctx, r.kind);
      && r.owner == Routine && !r.done && s.ctxs[r.ctx].alive
      && IrpOk(r.(selfRef := true, linked := false, routine := Unlinked))
      && (r.selfRef ==> i !in s.ctxs[r.ctx].audio.list && i !in s.ctxs[r.ctx].event.list)
      && (!r.selfRef ==> i in q.list)
      && QueueCut(i, r.(linked := false), r.ctx, r.kind, q, q.(list := Without(q.list, i)))
      && (r.kind == Audio ==> i !in s.ctxs[r.ctx].event.list)
      && (r.kind == Event ==> i !in s.ctxs[r.ctx].audio.list)
  {
    hide ViewOf, ThreadsOk, CtxsOk, CountOk, QueueOk, NoDup;
    assert IrpInv(s, i, s.irps[i]);
    HeldAlive(s, s.irps[i].ctx);
    ListFacts(s, s.irps[i].ctx, i);
    WithoutFacts(GetQueue(s, s.irps[i].ctx, s.irps[i].kind).list, i);
  }

  lemma KeepRoutineUnlink(s: State, i: nat)
    requires Inv(s) && i < |s.irps| && s.irps[i].routine == Called
    requires s.irps[i].ctx < |s.ctxs| && GetQueue(s, s.irps[i].ctx, s.irps[i].kind).lock == None
    ensures Keeps(s, StepRoutineUnlink(s, i))
  {
    hide ViewOf, ThreadsOk, IrpsOk, CtxsOk, CountOk, PublishOk, QueueOk, NoDup, IrpOk;
    RoutineUnlinks(s, i);
    NobodyLinks(s, i);
    var s' := StepRoutineUnlink(s, i);
    assert s'.irps == s.irps[i := s'.irps[i]];
    KeepEnv(s, s', i, s.irps[i].ctx);
  }

  lemma KeepRoutineComplete(s: State, i: nat)
    requires Inv(s) && i < |s.irps| && s.irps[i].routine == Unlinked
    ensures Keeps(s, StepRoutineComplete(s, i))
  {
    hide ViewOf, ThreadsOk, CtxsOk, CountOk;
    assert IrpInv(s, i, s.irps[i]);
    NobodyLinks(s, i);
    KeepEnv(s, StepRoutineComplete(s, i), i, |s.ctxs|);
  }

  lemma RefdCounts(s: State, i: nat)
    requires CountOk(s) && i < |s.irps| && s.irps[i].refd
    ensures s.count > 0
  {
    RefdUpdate(s.irps, i, s.irps[i].(refd := false));
  }

  lemma KeepRoutineUnref(s: State, i: nat)
    requires Inv(s) && i < |s.irps| && s.irps[i].routine == Finished
    ensures Keeps(s, StepRoutineUnref(s, i))
  {
    hide ViewOf, ThreadsOk, CtxsOk;
    assert IrpInv(s, i, s.irps[i]);
    NobodyLinks(s, i);
    RefdCounts(s, i);
    KeepEnv(s, StepRoutineUnref(s, i), i, |s.ctxs|);
  }

  // ----- new devices and new IRPs -----

  lemma AddDeviceWake(s: State)
    requires Inv(s)
    requires Woken(s)
    ensures Woken(StepAddDevice(s))
  {
    hide ViewOf, Flow, IrpOk, CtxOk, PnpOk, ThreadInv, IrpInv, CtxInv, ThreadsOk, IrpsOk, CountOk, PublishOk;
    var s' := StepAddDevice(s);
    forall d | 0 <= d < |s'.ctxs| && Tempting(s', d) ensures Checked(s', d) {
      assert d < |s.ctxs| && s'.ctxs[d] == s.ctxs[d];
      assert Tempting(s, d);
    }
  }

  lemma AddDeviceThreads(s: State)
    requires Inv(s)
    ensures ThreadsOk(StepAddDevice(s))
  {
    hide Woken, ViewOf, Flow, IrpOk, CtxOk, IrpsOk, CtxsOk, CountOk, PnpOk, HandOk, NoDup;
    var s' := StepAddDevice(s);
    forall u | 0 <= u < |s.threads| ensures Flow(s'.threads[u]) && ThreadInv(s', u, ViewOf(s'.threads[u])) {
      assert ThreadInv(s, u, ViewOf(s.threads[u]));
    }
  }

  lemma AddDeviceIrps(s: State)
    requires Inv(s)
    ensures IrpsOk(StepAddDevice(s))
  {
    hide Woken, ViewOf, Flow, IrpOk, CtxOk, ThreadsOk, CountOk, PnpOk, NoDup;
    var s' := StepAddDevice(s);
    forall i | 0 <= i < |s.irps| ensures IrpInv(s', i, s'.irps[i]) {
      assert IrpInv(s, i, s.irps[i]);
    }
  }

  lemma AddDeviceCtxs(s: State)
    requires Inv(s)
    ensures CtxsOk(StepAddDevice(s))
  {
    hide Woken, ViewOf, Flow, IrpOk, ThreadsOk, IrpsOk, CountOk, PnpOk;
    var s' := StepAddDevice(s);
    forall c | 0 <= c < |s'.ctxs| ensures CtxInv(s', c, s'.ctxs[c]) {
      if c < |s.ctxs| { assert CtxInv(s, c, s.ctxs[c]); }
    }
  }

  lemma KeepAddDevice(s: State)
    requires Inv(s)
    ensures Keeps(s, StepAddDevice(s))
  {
    hide Woken, ViewOf, ThreadsOk, IrpsOk, CtxsOk, Dispatchers, RefdIrps;
    if Woken(s) { AddDeviceWake(s); }
    AddDeviceThreads(s);
    AddDeviceIrps(s);
    AddDeviceCtxs(s);
  }

  lemma RefdAppend(irps: seq<Irp>, r: Irp)
    ensures RefdIrps(irps + [r]) == RefdIrps(irps) + B2N(r.refd)
  {
    assert (irps + [r])[..|irps|] == irps;
  }

  lemma KeepIssue(s: State, t: nat, kind: Kind, file: nat)
    requires Inv(s) && t < |s.threads| && s.threads[t] == Idle
    ensures Keeps(s, StepIssue(s, t, kind, file))
  {
    hide Woken, CtxOk, PnpOk, Dispatchers, RefdIrps;
    var s' := StepIssue(s, t, kind, file);
    assert ThreadInv(s, t, ViewOf(Idle));
    IssueThreads(s, t, kind, file);
    IssueIrps(s, t, kind, file);
    IssueCtxs(s, t, kind, file);
    if Woken(s) { IssueWake(s, t, kind, file); }
    DispatchersUpdate(s.threads, t, s'.threads[t]);
    RefdAppend(s.irps, s'.irps[|s.irps|]);
  }

  lemma IssueThreads(s: State, t: nat, kind: Kind, file: nat)
    requires Inv(s) && t < |s.threads| && s.threads[t] == Idle
    ensures ThreadsOk(StepIssue(s, t, kind, file))
  {
    hide ViewOf, Flow, IrpsOk, CtxsOk, CountOk, PnpOk;
    var s' := StepIssue(s, t, kind, file);
    forall u | 0 <= u < |s.threads| ensures Flow(s'.threads[u]) && ThreadInv(s', u, ViewOf(s'.threads[u])) {
      assert ThreadInv(s, u, ViewOf(s.threads[u]));
      if u == t { FreshView(|s.irps|); }
    }
  }

  lemma FreshView(i: nat)
    ensures Flow(DcStart(i)) && ViewOf(DcStart(i)) == View(false, NoRole, None, false, 0, Some(i), Fresh, [], None)
    ensures ViewOf(Idle) == View(false, NoRole, None, false, 0, None, Fresh, [], None)
  {
  }

  lemma IssueIrps(s: State, t: nat, kind: Kind, file: nat)
    requires Inv(s) && t < |s.threads| && s.threads[t] == Idle
    ensures IrpsOk(StepIssue(s, t, kind, file))
  {
    hide ViewOf, Flow, ThreadsOk, CtxsOk, CountOk, PnpOk;
    var s' := StepIssue(s, t, kind, file);
    FreshView(|s.irps|);
    forall i | 0 <= i < |s'.irps| ensures IrpInv(s', i, s'.irps[i]) {
      if i < |s.irps| { assert IrpInv(s, i, s.irps[i]); }
    }
  }

  lemma IssueCtxs(s: State, t: nat, kind: Kind, file: nat)
    requires Inv(s) && t < |s.threads| && s.threads[t] == Idle
    ensures CtxsOk(StepIssue(s, t, kind, file))
  {
    hide ViewOf, Flow, ThreadsOk, IrpsOk, CountOk, PnpOk, CtxOk;
    var s' := StepIssue(s, t, kind, file);
    FreshView(|s.irps|);
    forall c | 0 <= c < |s.ctxs| ensures CtxInv(s', c, s'.ctxs[c]) {
      assert CtxInv(s, c, s.ctxs[c]);
    }
  }

  lemma IssueWake(s: State, t: nat, kind: Kind, file: nat)
    requires Inv(s) && t < |s.threads| && s.threads[t] == Idle
    requires Woken(s)
    ensures Woken(StepIssue(s, t, kind, file))
  {
    hide ViewOf, Flow, IrpOk, CtxOk, PnpOk, ThreadInv, IrpInv, ThreadsOk, IrpsOk, CountOk, PublishOk;
    var s' := StepIssue(s, t, kind, file);
    FreshView(|s.irps|);
    forall d | 0 <= d < |s'.ctxs| && Tempting(s', d) ensures Checked(s', d) {
      var j :| j in s'.ctxs[d].audio.list && j < |s'.irps| && s'.irps[j].hooked;
      assert CtxInv(s, d, s.ctxs[d]);
      assert Tempting(s, d);
      var u :| 0 <= u < |s.threads| && ViewOf(s.threads[u]).checks == Some(d);
      assert ViewOf(s'.threads[u]).checks == Some(d);
    }
  }

  lemma KeepCleanupFile(s: State, t: nat, file: nat)
    requires Inv(s) && t < |s.threads| && s.threads[t] == Idle
    ensures Keeps(s, SetPc(s, t, ClStart(file)))
  {
    hide Inv, Keeps, QueueOk;
    Facts(s, t, |s.irps|, |s.ctxs|);
    KeepPc(s, t, ClStart(file), s.count);
  }

  lemma KeepProduces(s: State, t: nat, c: nat, op: ProducerOp)
    requires Inv(s) && t < |s.threads| && s.threads[t] == Idle && c < |s.ctxs| && s.ctxs[c].fdo
    requires op.Produce? ==> op.bytes % FRAME_BYTES == 0
    ensures Keeps(s, SetPc(s, t, Producer(c, op)))
  {
    hide Inv, Keeps, QueueOk;
    Facts(s, t, |s.irps|, c);
    KeepPcCtx(s, t, Producer(c, op), c, s.ctxs[c]);
    assert s.ctxs == s.ctxs[c := s.ctxs[c]];
  }

  lemma KeepPnpRemove(s: State, t: nat, c: nat, remove: bool)
    requires Inv(s) && t < |s.threads| && s.threads[t] == Idle && c < |s.ctxs| && s.ctxs[c].fdo && s.ctxs[c].pnp == None
    ensures Keeps(s, SetPc(SetCtx(s, c, s.ctxs[c].(pnp := Some(t))), t, WStart(c, remove)))
  {
    hide Inv, Keeps, QueueOk;
    Facts(s, t, |s.irps|, c);
    KeepPcCtx(s, t, WStart(c, remove), c, s.ctxs[c].(pnp := Some(t)));
  }

  // ----- the withdrawal of the published context -----

  // A PnP thread between its uses of locks and IRPs.
  predicate Bare(v: View, c: nat) {
    v.role.Pnp? && v.role.c == c && v == PnpView(c, v.role.progress, v.role.withdraws)
  }

  // A step of thread t that changes the publication and at most the flag
  // `listed` of its own context.
  predicate GlobalStep(s: State, s': State, t: nat, c: nat, v: View, v': View) {
    GlobalFrame(s, s', t, c) && GlobalRoles(s, s', t, c, v, v')
  }

  predicate GlobalFrame(s: State, s': State, t: nat, c: nat) {
    && t < |s.threads| == |s'.threads| && c < |s.ctxs| == |s'.ctxs|
    && s'.threads == s.threads[t := s'.threads[t]]
    && s'.irps == s.irps
    && s'.ctxs == s.ctxs[c := s.ctxs[c].(listed := c in s'.live)]
    && (forall d :: 0 <= d < |s.ctxs| && d != c ==> (d in s'.live <==> d in s.live))
    && s'.fault == s.fault
    && s'.count == s.count
    && !s'.threads[t].Enqueue? && !s'.threads[t].Producer?
  }

  predicate GlobalRoles(s: State, s': State, t: nat, c: nat, v: View, v': View) {
    && c < |s.ctxs|
    && Bare(v, c) && Bare(v', c)
    && PnpOk(s.ctxs[c].(listed := c in s'.live), v'.role.progress)
    && CtxOk(s.ctxs[c].(listed := c in s'.live))
    && (v'.role.withdraws.Some? ==> s'.wd == Some(Withdrawer(t, c, v'.role.withdraws.value)))
    && (v'.role.progress == Draining ==> v'.role.withdraws == Some(false) && s'.rundown)
    && (v'.role.progress == Rearming ==> v'.role.withdraws == Some(true) && s'.rundown && s.count == 0)
    && ((s.wd.Some? ==> s.wd.value.thread == t) || (s'.wd == s.wd && s'.rundown == s.rundown))
  }

  // Whoever holds a context still may, or nobody does.
  predicate HeldKept(s: State, s': State) {
    (forall d :: 0 <= d < |s.ctxs| && CtxHeld(s, d) ==> CtxHeld(s', d)) || s.count == 0
  }

  predicate GoodGlobal(s: State, s': State, t: nat, c: nat) {
    && Inv(s) && t < |s.threads| == |s'.threads|
    && GlobalStep(s, s', t, c, ViewOf(s.threads[t]), ViewOf(s'.threads[t]))
    && HeldKept(s, s') && PublishOk(s')
  }

  lemma GlobalThread(s: State, s': State, t: nat, c: nat, u: nat)
    requires GoodGlobal(s, s', t, c) && u < |s.threads|
    ensures ThreadInv(s', u, ViewOf(s'.threads[u]))
  {
    hide ViewOf, Flow, CtxOk, IrpsOk, CtxsOk, PublishOk, Dispatchers, RefdIrps, PnpOk;
    assert ThreadInv(s, u, ViewOf(s.threads[u]));
    UsersHoldRef(s.threads[u]);
    if s.count == 0 { NoDispatchers(s.threads); }
  }

  lemma UsersHoldRef(pc: Pc)
    ensures ViewOf(pc).role.Uses? ==> ViewOf(pc).ref
  {
  }

  lemma GlobalCtx(s: State, s': State, t: nat, c: nat, d: nat)
    requires GoodGlobal(s, s', t, c) && d < |s.ctxs|
    ensures CtxInv(s', d, s'.ctxs[d])
  {
    hide ViewOf, Flow, CtxOk, IrpsOk, PublishOk, CountOk, PnpOk, ThreadInv;
    assert CtxInv(s, d, s.ctxs[d]);
  }

  lemma GlobalWake(s: State, s': State, t: nat, c: nat)
    requires GoodGlobal(s, s', t, c)
    requires Woken(s)
    ensures Woken(s')
  {
    hide ViewOf, Flow, IrpOk, CtxOk, PnpOk, ThreadInv, IrpInv, CtxInv, ThreadsOk, IrpsOk, CountOk, PublishOk, HeldKept;
    forall d | 0 <= d < |s'.ctxs| && Tempting(s', d) ensures Checked(s', d) {
      assert s'.ctxs[d].audio == s.ctxs[d].audio && s'.ctxs[d].ring == s.ctxs[d].ring;
      assert Tempting(s, d);
      var u :| 0 <= u < |s.threads| && ViewOf(s.threads[u]).checks == Some(d);
      assert u != t;
      assert ViewOf(s'.threads[u]).checks == Some(d);
    }
  }

  lemma KeepGlobal(s: State, s': State, t: nat, c: nat)
    requires GoodGlobal(s, s', t, c)
    ensures Keeps(s, s')
  {
    hide Woken, ViewOf, Flow, CtxOk, PublishOk, Dispatchers, RefdIrps, PnpOk, ThreadInv, IrpOk;
    if Woken(s) { GlobalWake(s, s', t, c); }
    forall u | 0 <= u < |s'.threads| ensures Flow(s'.threads[u]) && ThreadInv(s', u, ViewOf(s'.threads[u])) {
      GlobalThread(s, s', t, c, u);
      if u == t { PnpFlow(s'.threads[t]); } else { assert Flow(s.threads[u]); }
    }
    if s.count == 0 { NoRefdIrps(s.irps); }
    forall i | 0 <= i < |s.irps| ensures IrpInv(s', i, s'.irps[i]) {
      assert IrpInv(s, i, s.irps[i]);
    }
    forall d | 0 <= d < |s.ctxs| ensures CtxInv(s', d, s'.ctxs[d]) {
      GlobalCtx(s, s', t, c, d);
    }
    DispatchersUpdate(s.threads, t, s'.threads[t]);
  }

  lemma PnpFlow(pc: Pc)
    requires !pc.Enqueue? && !pc.Producer?
    ensures Flow(pc)
  {
  }

  // Taking a device off the list keeps the publication of the others.
  // What the invariant says about a thread at a PnP request.
  lemma PnpFacts(s: State, t: nat)
    requires Inv(s) && t < |s.threads| && ViewOf(s.threads[t]).role.Pnp?
    ensures var r := ViewOf(s.threads[t]).role;
      && r.c < |s.ctxs| && RoleOk(s, t, r) && CtxOk(s.ctxs[r.c]) && PublishOk(s)
      && (s.ctxs[r.c].listed <==> r.c in s.live)
      && (s.wd.Some? && s.wd.value.thread == t ==> WithdrawerOk(s, r))
      && (s.published.Some? ==> s.wd == None)
  {
    hide ViewOf, CtxOk, PnpOk, QueueOk, WithdrawerOk, NoDup, LockOk;
    assert ThreadInv(s, t, ViewOf(s.threads[t]));
    assert CtxInv(s, ViewOf(s.threads[t]).role.c, s.ctxs[ViewOf(s.threads[t]).role.c]);
  }

  lemma UnpublishOk(s: State, t: nat)
    requires Inv(s) && t < |s.threads| && InRange(s.threads[t], |s.irps|, |s.ctxs|)
    requires s.threads[t].WUnpublish?
    ensures PublishOk(StepWUnpublish(s, t)) && s.threads[t].c in s.live
    ensures forall d :: 0 <= d < |s.ctxs| && CtxHeld(s, d) ==> CtxHeld(StepWUnpublish(s, t), d)
  {
    hide ThreadsOk, IrpsOk, CtxsOk, CountOk, QueueOk, CtxOk;
    var c := s.threads[t].c;
    Facts(s, t, |s.irps|, c);
    WithoutFacts(s.live, c);
    var live := Without(s.live, c);
    forall n | 0 <= n < |live| ensures live[n] < |s.ctxs| {
      assert live[n] in live;
      var m :| 0 <= m < |s.live| && s.live[m] == live[n];
    }
  }

  lemma UnpublishFrame(s: State, t: nat)
    requires Inv(s) && t < |s.threads| && InRange(s.threads[t], |s.irps|, |s.ctxs|)
    requires s.threads[t].WUnpublish?
    ensures GlobalFrame(s, StepWUnpublish(s, t), t, s.threads[t].c)
  {
    hide Inv, NoDup, CtxHeld, PublishOk, CtxOk, WithdrawerOk;
    PnpFacts(s, t);
    LiveNoDup(s);
    WithoutFacts(s.live, s.threads[t].c);
  }

  lemma UnpublishRoles(s: State, t: nat)
    requires Inv(s) && t < |s.threads| && InRange(s.threads[t], |s.irps|, |s.ctxs|)
    requires s.threads[t].WUnpublish?
    ensures GlobalRoles(s, StepWUnpublish(s, t), t, s.threads[t].c, ViewOf(s.threads[t]),
      ViewOf(StepWUnpublish(s, t).threads[t]))
  {
    hide Inv, NoDup, CtxHeld, PublishOk, ViewOf;
    var WUnpublish(c, remove) := s.threads[t];
    UnpublishViews(c, remove, s.published == Some(c));
    assert StepWUnpublish(s, t).threads[t] == WClose(c, remove, s.published == Some(c));
    PnpFacts(s, t);
    LiveNoDup(s);
    WithoutFacts(s.live, c);
  }

  lemma UnpublishViews(c: nat, remove: bool, was: bool)
    ensures ViewOf(WUnpublish(c, remove)) == PnpView(c, Marked, None)
    ensures ViewOf(WClose(c, remove, was)) == PnpView(c, Unlisted, if was then Some(false) else None)
  {
  }

  lemma KeepWUnpublish(s: State, t: nat)
    requires Inv(s) && t < |s.threads| && InRange(s.threads[t], |s.irps|, |s.ctxs|)
    requires s.threads[t].WUnpublish?
    ensures Keeps(s, StepWUnpublish(s, t))
  {
    hide Inv, Keeps, PublishOk, CtxHeld, GlobalFrame, GlobalRoles;
    UnpublishOk(s, t);
    UnpublishFrame(s, t);
    UnpublishRoles(s, t);
    KeepGlobal(s, StepWUnpublish(s, t), t, s.threads[t].c);
  }

  lemma LiveNoDup(s: State)
    requires Inv(s)
    ensures NoDup(s.live)
  {
  }

  lemma KeepWWait(s: State, t: nat)
    requires Inv(s) && t < |s.threads| && InRange(s.threads[t], |s.irps|, |s.ctxs|)
    requires s.threads[t].WWait?
    ensures Keeps(s, StepWWait(s, t))
  {
    hide ThreadsOk, IrpsOk, CtxsOk, CountOk, QueueOk, NoDup;
    var c := s.threads[t].c;
    Facts(s, t, |s.irps|, c);
    assert s.ctxs == s.ctxs[c := s.ctxs[c].(listed := c in s.live)];
    KeepGlobal(s, StepWWait(s, t), t, c);
  }

  lemma KeepWDrain(s: State, t: nat)
    requires Inv(s) && t < |s.threads| && InRange(s.threads[t], |s.irps|, |s.ctxs|)
    requires s.threads[t].WDrain? && s.count == 0
    ensures Keeps(s, StepWDrain(s, t))
  {
    hide ThreadsOk, IrpsOk, CtxsOk, CountOk, QueueOk, NoDup;
    var c := s.threads[t].c;
    Facts(s, t, |s.irps|, c);
    assert s.ctxs == s.ctxs[c := s.ctxs[c].(listed := c in s.live)];
    KeepGlobal(s, StepWDrain(s, t), t, c);
  }

  lemma KeepWReinit(s: State, t: nat)
    requires Inv(s) && t < |s.threads| && InRange(s.threads[t], |s.irps|, |s.ctxs|)
    requires s.threads[t].WReinit?
    ensures Keeps(s, StepWReinit(s, t))
  {
    hide ThreadsOk, IrpsOk, CtxsOk, CountOk, QueueOk, NoDup;
    var c := s.threads[t].c;
    Facts(s, t, |s.irps|, c);
    assert s.ctxs == s.ctxs[c := s.ctxs[c].(listed := c in s.live)];
    KeepGlobal(s, StepWReinit(s, t), t, c);
  }

  lemma RepublishOk(s: State, t: nat)
    requires Inv(s) && t < |s.threads| && InRange(s.threads[t], |s.irps|, |s.ctxs|)
    requires s.threads[t].WRepublish?
    ensures PublishOk(StepWRepublish(s, t))
    ensures forall d :: 0 <= d < |s.ctxs| && CtxHeld(s, d) ==> CtxHeld(StepWRepublish(s, t), d)
    ensures s.wd.Some? && s.wd.value.thread == t
  {
    hide ThreadsOk, IrpsOk, CtxsOk, CountOk, QueueOk, CtxOk, NoDup;
    Facts(s, t, |s.irps|, s.threads[t].c);
  }

  lemma NotFaulty(s: State)
    requires Inv(s)
    ensures !s.fault
  {
  }

  lemma KeepWRepublish(s: State, t: nat)
    requires Inv(s) && t < |s.threads| && InRange(s.threads[t], |s.irps|, |s.ctxs|)
    requires s.threads[t].WRepublish?
    ensures Keeps(s, StepWRepublish(s, t))
  {
    hide Inv, Keeps, PublishOk, NoDup, CtxHeld;
    var c := s.threads[t].c;
    PnpFacts(s, t);
    NotFaulty(s);
    RepublishOk(s, t);
    assert s.ctxs == s.ctxs[c := s.ctxs[c].(listed := c in s.live)];
    KeepGlobal(s, StepWRepublish(s, t), t, c);
  }
}
