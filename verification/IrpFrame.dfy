/**
 Frame lemmas: a step that touches one thread, at most one IRP and at most one
 context keeps the invariant as soon as it keeps the clauses about those.
 The views of program counters stay folded here.
 */
module IrpFrame {
  import opened Common
  import opened IrpMachine
  import opened IrpInvariant

  // s' differs from s at most in thread t, IRP i, context c, the rundown count
  // and the fault flag; an index past the end stands for "none".
  predicate Local(s: State, s': State, t: nat, i: nat, c: nat) {
    && |s'.threads| == |s.threads| && |s'.irps| == |s.irps| && |s'.ctxs| == |s.ctxs|
    && (forall u :: 0 <= u < |s.threads| && u != t ==> s'.threads[u] == s.threads[u])
    && (forall j :: 0 <= j < |s.irps| && j != i ==> s'.irps[j] == s.irps[j])
    && (forall d :: 0 <= d < |s.ctxs| && d != c ==> s'.ctxs[d] == s.ctxs[d])
    && s'.published == s.published && s'.live == s.live && s'.withdrawing == s.withdrawing
    && s'.rundown == s.rundown && s'.wd == s.wd
  }

  // No thread but t has IRP i in hand.
  predicate OnlyHolder(s: State, t: nat, i: nat) {
    forall u :: 0 <= u < |s.threads| && u != t ==> !Has(ViewOf(s.threads[u]), i)
  }

  predicate IrpStep(r: Irp, r': Irp, c: nat) {
    && r'.kind == r.kind
    && (r.linked ==> r'.ctx == r.ctx && (r'.linked || r.ctx == c) && (r'.hooked ==> r.hooked))
  }

  // What a change to a queue leaves to a thread other than t that holds its lock,
  // and to every IRP other than i.
  predicate QueueStep(t: nat, i: nat, q: Queue, q': Queue) {
    && (q.lock.Some? && q.lock.value != t ==> q' == q)
    && (q.drained ==> q'.drained)
    && (q.list == q'.list || forall j :: j in q.list && j != i ==> j in q'.list)
  }

  // No PnP request of another thread is disturbed.
  predicate PnpStep(t: nat, x: Ctx, x': Ctx) {
    || x.pnp == None || x.pnp == Some(t)
    || (&& x'.pnp == x.pnp && x'.alive == x.alive && x'.withdrawn == x.withdrawn && x'.listed == x.listed
        && x'.fdo == x.fdo && x'.quiet == x.quiet && x'.closing == x.closing
        && (x.audio.drained ==> x'.audio.drained) && (x.event.drained ==> x'.event.drained))
  }

  predicate NoFeeder(s: State, t: nat, c: nat) {
    forall u :: 0 <= u < |s.threads| && u != t ==> ViewOf(s.threads[u]).role != Feeds(c)
  }

  predicate CtxStep(s: State, t: nat, i: nat, c: nat, x: Ctx, x': Ctx) {
    && QueueStep(t, i, x.audio, x'.audio)
    && QueueStep(t, i, x.event, x'.event)
    && PnpStep(t, x, x')
    && (x'.quiet && !x.quiet ==> NoFeeder(s, t, c))
  }

  // What the view of thread t may change into.
  predicate ViewStep(s: State, i: nat, c: nat, v: View, v': View) {
    && (v.lock.Some? && v.lock.value.c != c ==> v'.lock == v.lock)
    && (v.irp.Some? && v.irp.value != i ==> Has(v', v.irp.value))
    && (v.collected == v'.collected || forall j :: j in v.collected && j != i ==> Has(v', j))
  }

  // A thread stops looking only where there is nothing to take; whoever makes
  // something to take looks itself.
  predicate WakeStep(s: State, s': State, c: nat, v: View, v': View) {
    && (v.checks.Some? ==> v'.checks == v.checks || !Tempting(s', v.checks.value))
    && (Tempting(s', c) ==> Tempting(s, c) || v'.checks == Some(c))
  }

  // A drained queue stays marked.
  predicate DrainedKept(s: State, s': State) {
    && |s.ctxs| <= |s'.ctxs|
    && (forall c :: 0 <= c < |s.ctxs| ==>
          && (s.ctxs[c].audio.drained ==> s'.ctxs[c].audio.drained)
          && (s.ctxs[c].event.drained ==> s'.ctxs[c].event.drained))
  }

  // The invariant is kept; so is, except by some requeues, that nobody waits unseen.
  predicate Stays(s: State, s': State) {
    Inv(s') && DrainedKept(s, s')
  }

  predicate Keeps(s: State, s': State) {
    Stays(s, s') && (Woken(s) ==> Woken(s'))
  }

  // Everything a step of thread t has to show.
  predicate StepOk(s: State, s': State, t: nat, i: nat, c: nat, v: View, v': View) {
    && t < |s.threads|
    && Local(s, s', t, i, c)
    && !s'.fault
    && (s.rundown && s.count == 0 ==> s'.count == 0)
    && Flow(s'.threads[t])
    && ThreadInv(s', t, v')
    && ViewStep(s, i, c, v, v')
    && (i < |s.irps| ==> OnlyHolder(s, t, i) && IrpStep(s.irps[i], s'.irps[i], c) && IrpInv(s', i, s'.irps[i]))
    && (c < |s.ctxs| ==> CtxStep(s, t, i, c, s.ctxs[c], s'.ctxs[c]) && CtxInv(s', c, s'.ctxs[c]))
    && (s.wd.Some? && s.wd.value.thread == t ==> WithdrawerOk(s, v'.role))
    && s'.count + B2N(v.ref) + (if i < |s.irps| then B2N(s.irps[i].refd) else 0)
       == s.count + B2N(v'.ref) + (if i < |s.irps| then B2N(s'.irps[i].refd) else 0)
  }

  predicate GoodStep(s: State, s': State, t: nat, i: nat, c: nat) {
    && Inv(s) && t < |s.threads| == |s'.threads|
    && StepOk(s, s', t, i, c, ViewOf(s.threads[t]), ViewOf(s'.threads[t]))
  }

  lemma FrameThread(s: State, s': State, t: nat, i: nat, c: nat, u: nat)
    requires u < |s.threads| && u != t
    requires GoodStep(s, s', t, i, c)
    ensures Flow(s'.threads[u]) && ThreadInv(s', u, ViewOf(s'.threads[u]))
  {
    hide ViewOf, Flow, IrpOk, CtxOk, IrpInv, CtxInv, Publication, Woken, WakeStep, Dispatchers, RefdIrps;
    assert ThreadInv(s, u, ViewOf(s.threads[u]));
  }

  lemma FrameIrp(s: State, s': State, t: nat, i: nat, c: nat, j: nat)
    requires j < |s.irps| && j != i
    requires GoodStep(s, s', t, i, c)
    ensures IrpInv(s', j, s'.irps[j])
  {
    hide ViewOf, Flow, IrpOk, CtxOk, ThreadInv, CtxInv, Publication, Woken, WakeStep, Dispatchers, RefdIrps;
    assert IrpInv(s, j, s.irps[j]);
  }

  lemma FrameQueue(s: State, s': State, t: nat, i: nat, c: nat, d: nat, k: Kind)
    requires d < |s.ctxs| && d != c
    requires GoodStep(s, s', t, i, c)
    ensures QueueOk(s', d, k, QueueOf(s.ctxs[d], k), s.ctxs[d].closing)
  {
    hide ViewOf, Flow, IrpOk, CtxOk, ThreadInv, IrpInv, Publication, Woken, WakeStep, Dispatchers, RefdIrps;
    assert CtxInv(s, d, s.ctxs[d]);
    assert QueueOk(s, d, k, QueueOf(s.ctxs[d], k), s.ctxs[d].closing);
  }

  lemma FrameCtx(s: State, s': State, t: nat, i: nat, c: nat, d: nat)
    requires d < |s.ctxs| && d != c
    requires GoodStep(s, s', t, i, c)
    ensures CtxInv(s', d, s'.ctxs[d])
  {
    hide ViewOf, Flow, IrpOk, CtxOk, ThreadInv, IrpInv, Publication, Woken, WakeStep, Dispatchers, RefdIrps, QueueOk;
    assert CtxInv(s, d, s.ctxs[d]);
    FrameQueue(s, s', t, i, c, d, Audio);
    FrameQueue(s, s', t, i, c, d, Event);
  }

  lemma FrameCount(s: State, s': State, t: nat, i: nat, c: nat)
    requires GoodStep(s, s', t, i, c)
    ensures CountOk(s')
  {
    hide ViewOf, Flow, IrpOk, CtxOk, ThreadInv, IrpInv, CtxInv, Publication, Woken, WakeStep, Dispatchers, RefdIrps;
    DispatchersUpdate(s.threads, t, s'.threads[t]);
    assert s'.threads == s.threads[t := s'.threads[t]];
    if i < |s.irps| {
      RefdUpdate(s.irps, i, s'.irps[i]);
      assert s'.irps == s.irps[i := s'.irps[i]];
    } else {
      assert s'.irps == s.irps;
    }
  }

  lemma FrameWake(s: State, s': State, t: nat, i: nat, c: nat)
    requires GoodStep(s, s', t, i, c) && WakeStep(s, s', c, ViewOf(s.threads[t]), ViewOf(s'.threads[t])) && Woken(s)
    ensures Woken(s')
  {
    hide ViewOf, Flow, IrpOk, CtxOk, ThreadInv, CtxInv, Dispatchers, RefdIrps, ThreadsOk, Publication, OnlyHolder;
    forall d | 0 <= d < |s'.ctxs| && Tempting(s', d) ensures Checked(s', d) {
      if d != c {
        var j :| j in s'.ctxs[d].audio.list && j < |s'.irps| && s'.irps[j].hooked;
        ListLinked(s, d, j);
        assert Tempting(s, d);
      }
      if Tempting(s, d) {
        var u :| 0 <= u < |s.threads| && ViewOf(s.threads[u]).checks == Some(d);
        assert ViewOf(s'.threads[u]).checks == Some(d);
      } else {
        assert ViewOf(s'.threads[t]).checks == Some(d);
      }
    }
  }

  lemma ListLinked(s: State, c: nat, j: nat)
    requires Inv(s) && c < |s.ctxs| && j in s.ctxs[c].audio.list
    ensures j < |s.irps| && s.irps[j].linked && s.irps[j].ctx == c && s.irps[j].kind == Audio
  {
    hide ViewOf, Flow, IrpOk, CtxOk, ThreadsOk, IrpsOk, Woken, WakeStep, Dispatchers, RefdIrps, Publication;
    assert CtxInv(s, c, s.ctxs[c]);
  }

  lemma Frame(s: State, s': State, t: nat, i: nat, c: nat)
    requires GoodStep(s, s', t, i, c)
    ensures Stays(s, s')
  {
    hide ViewOf, Flow, IrpOk, CtxOk, ThreadInv, IrpInv, CtxInv, Woken, WakeStep, Dispatchers, RefdIrps;
    forall u | 0 <= u < |s'.threads| ensures Flow(s'.threads[u]) && ThreadInv(s', u, ViewOf(s'.threads[u])) {
      if u != t { FrameThread(s, s', t, i, c, u); }
    }
    forall j | 0 <= j < |s'.irps| ensures IrpInv(s', j, s'.irps[j]) {
      if j != i { FrameIrp(s, s', t, i, c, j); }
    }
    forall d | 0 <= d < |s'.ctxs| ensures CtxInv(s', d, s'.ctxs[d]) {
      if d != c { FrameCtx(s, s', t, i, c, d); }
    }
    FrameCount(s, s', t, i, c);
  }

  lemma FrameWoken(s: State, s': State, t: nat, i: nat, c: nat)
    requires GoodStep(s, s', t, i, c) && WakeStep(s, s', c, ViewOf(s.threads[t]), ViewOf(s'.threads[t]))
    ensures Keeps(s, s')
  {
    hide Inv, GoodStep, WakeStep, ViewOf, Woken, DrainedKept;
    Frame(s, s', t, i, c);
    if Woken(s) { FrameWake(s, s', t, i, c); }
  }

  // An IRP that a thread owns, or that is in a list, is in no other thread's hand.
  lemma OwnedAlone(s: State, t: nat, i: nat)
    requires Inv(s) && i < |s.irps|
    requires s.irps[i].owner == Held(t) || s.irps[i].linked || s.irps[i].owner == Gone
    ensures OnlyHolder(s, t, i)
  {
    hide ViewOf, Flow, CtxOk, CtxInv, Woken, WakeStep, Dispatchers, RefdIrps;
    assert IrpInv(s, i, s.irps[i]);
    forall u | 0 <= u < |s.threads| && u != t ensures !Has(ViewOf(s.threads[u]), i) {
      assert ThreadInv(s, u, ViewOf(s.threads[u]));
    }
  }

  // An IRP in the hand of the thread inside its queue's lock section is in no
  // other thread's hand, even if its cancel routine owns it by now.
  lemma LockedAlone(s: State, t: nat, i: nat)
    requires Inv(s) && i < |s.irps| && t < |s.threads|
    requires s.threads[t].Enqueue? && s.threads[t].i == i && s.threads[t].stage != Locking
    ensures OnlyHolder(s, t, i)
  {
    hide CtxOk, CtxInv, Woken, WakeStep, Dispatchers, RefdIrps;
    var v := ViewOf(s.threads[t]);
    assert ThreadInv(s, t, v);
    assert IrpInv(s, i, s.irps[i]);
    forall u | 0 <= u < |s.threads| && u != t ensures !Has(ViewOf(s.threads[u]), i) {
      var w := ViewOf(s.threads[u]);
      assert ThreadInv(s, u, w);
      LinkingLocks(s.threads[u]);
    }
  }

  // A thread whose IRP may already belong to its cancel routine holds the lock
  // of the list it is about to link it into.
  lemma LinkingLocks(pc: Pc)
    ensures var v := ViewOf(pc);
      v.irp.Some? && (v.hand.Hooked? || v.hand.Unhook?) ==> v.lock == Some(LockId(v.hand.c, v.hand.k))
  {
  }

  // The rundown count covers the reference of a thread and that of an IRP.
  lemma CountCovers(s: State, t: nat, i: nat)
    requires CountOk(s) && t < |s.threads|
    ensures B2N(ViewOf(s.threads[t]).ref) + (if i < |s.irps| then B2N(s.irps[i].refd) else 0) <= s.count
  {
    DispatchersUpdate(s.threads, t, Idle);
    if i < |s.irps| { RefdUpdate(s.irps, i, s.irps[i].(refd := false)); }
  }

  // What the invariant says about one thread, one IRP and one context.
  lemma Facts(s: State, t: nat, i: nat, c: nat)
    requires Inv(s) && t < |s.threads|
    ensures Flow(s.threads[t]) && ThreadInv(s, t, ViewOf(s.threads[t]))
    ensures i < |s.irps| ==> IrpInv(s, i, s.irps[i])
    ensures c < |s.ctxs| ==> CtxInv(s, c, s.ctxs[c]) && (CtxHeld(s, c) ==> s.ctxs[c].alive)
    ensures c < |s.ctxs| && s.ctxs[c].audio.lock == Some(t) ==> ViewOf(s.threads[t]).lock == Some(LockId(c, Audio))
    ensures c < |s.ctxs| && s.ctxs[c].event.lock == Some(t) ==> ViewOf(s.threads[t]).lock == Some(LockId(c, Event))
    ensures c < |s.ctxs| ==> (s.ctxs[c].audio.drained ==> s.ctxs[c].audio.list == [] && s.ctxs[c].closing)
    ensures c < |s.ctxs| ==> (s.ctxs[c].event.drained ==> s.ctxs[c].event.list == [] && s.ctxs[c].closing)
    ensures s.wd.Some? && s.wd.value.thread == t ==> WithdrawerOk(s, ViewOf(s.threads[t]).role)
    ensures s.rundown ==> s.wd.Some?
    ensures s.published.Some? ==> CtxHeld(s, s.published.value) && s.wd == None
    ensures B2N(ViewOf(s.threads[t]).ref) + (if i < |s.irps| then B2N(s.irps[i].refd) else 0) <= s.count
  {
    hide ViewOf, Flow, CtxOk, IrpOk, Woken, WakeStep, Dispatchers, RefdIrps;
    assert ThreadInv(s, t, ViewOf(s.threads[t]));
    if c < |s.ctxs| {
      assert CtxInv(s, c, s.ctxs[c]);
      if CtxHeld(s, c) { HeldAlive(s, c); }
    }
    if i < |s.irps| { assert IrpInv(s, i, s.irps[i]); }
    CountCovers(s, t, i);
  }

  // A queue whose list a step leaves alone stays in order.
  lemma SameList(s: State, s': State, t: nat, i: nat, c: nat, k: Kind, q': Queue, closing: bool)
    requires Inv(s) && c < |s.ctxs| && t < |s.threads|
    requires Local(s, s', t, i, c)
    requires i < |s.irps| && s.irps[i].linked && s.irps[i].ctx == c && s.irps[i].kind == k ==>
               s'.irps[i].linked && s'.irps[i].ctx == c && s'.irps[i].kind == k
    requires q'.list == GetQueue(s, c, k).list
    requires q'.drained ==> GetQueue(s, c, k).drained || (q'.list == [] && closing)
    requires s.ctxs[c].closing ==> closing
    requires q'.lock.Some? ==>
      || (q'.lock.value == t && ViewOf(s'.threads[t]).lock == Some(LockId(c, k)))
      || (q'.lock == GetQueue(s, c, k).lock && q'.lock.value != t)
    ensures QueueOk(s', c, k, q', closing)
  {
    hide ViewOf, Flow, IrpOk, CtxOk, ThreadInv, IrpInv, Publication, Woken, WakeStep, Dispatchers, RefdIrps;
    assert CtxInv(s, c, s.ctxs[c]);
    assert QueueOk(s, c, k, GetQueue(s, c, k), s.ctxs[c].closing);
  }

  // ----- the three common shapes of a step, stated on what it writes -----

  predicate CountStep(s: State, count: nat) {
    s.rundown && s.count == 0 ==> count == 0
  }

  // The role of the new program counter, with x' in the place of context c.
  predicate RoleAt(s: State, t: nat, c: nat, x': Ctx, role: Role) {
    match role
    case NoRole => true
    case Uses(d) => CtxHeld(s, d)
    case Feeds(d) => d < |s.ctxs| && !(if d == c then x' else s.ctxs[d]).quiet
    case Pnp(d, p, w) =>
      && d == c && d < |s.ctxs| && x'.pnp == Some(t) && PnpOk(x', p)
      && (w.Some? ==> s.wd == Some(Withdrawer(t, c, w.value)))
      && p != Draining && p != Rearming
  }

  // Only the program counter and the count change.
  predicate PcOk(s: State, t: nat, pc: Pc, count: nat, v: View, v': View) {
    && Flow(pc)
    && CountStep(s, count)
    && ((v'.role == v.role && (v.role.Pnp? ==> count == s.count)) || v'.role.NoRole?
          || (v'.role.Uses? && CtxHeld(s, v'.role.c)))
    && v.lock == None && v'.lock == None
    && (if v'.irp.Some? then v'.irp.value < |s.irps| && v'.irp == v.irp && HandOk(t, s.irps[v'.irp.value], v'.hand)
          else v.irp == None)
    && v'.collected == v.collected
    && (s.wd.Some? && s.wd.value.thread == t ==> WithdrawerOk(s, v'.role))
    && (v.checks.Some? ==> v'.checks == v.checks || !Tempting(s, v.checks.value))
    && count + B2N(v.ref) == s.count + B2N(v'.ref)
  }

  lemma KeepPc(s: State, t: nat, pc: Pc, count: nat)
    requires Inv(s) && t < |s.threads|
    requires PcOk(s, t, pc, count, ViewOf(s.threads[t]), ViewOf(pc))
    ensures Keeps(s, s.(threads := s.threads[t := pc], count := count))
  {
    hide ViewOf, Flow, IrpOk, CtxOk, IrpInv, CtxInv, ThreadsOk, IrpsOk, CtxsOk, CountOk, Woken, Dispatchers;
    hide RefdIrps, Publication;
    Facts(s, t, |s.irps|, |s.ctxs|);
    FrameWoken(s, s.(threads := s.threads[t := pc], count := count), t, |s.irps|, |s.ctxs|);
  }

  // The program counter, IRP i and the count change.
  predicate PcIrpOk(s: State, t: nat, pc: Pc, i: nat, r': Irp, count: nat, v: View, v': View)
    requires i < |s.irps|
  {
    var r := s.irps[i];
    && Flow(pc)
    && CountStep(s, count)
    && (v'.role == v.role || v'.role.NoRole? || (v'.role.Uses? && CtxHeld(s, v'.role.c)))
    && v'.lock == v.lock && v'.linking == v.linking && v'.walk == v.walk
    && (v.irp.Some? ==> v.irp.value == i)
    && (if v'.irp.Some? then v'.irp.value == i && HandOk(t, r', v'.hand) && i !in v'.collected
          else v'.collected == v.collected && i !in v.collected)
    && (v'.collected == v.collected || (v.collected != [] && v'.collected == v.collected[1..] && i == v.collected[0]))
    && r'.kind == r.kind && r'.linked == r.linked && (r.linked ==> r'.ctx == r.ctx)
    && IrpOk(r') && (r'.refd ==> CtxHeld(s, r'.ctx))
    && (r'.linked ==> r'.ctx == r.ctx)
    && (r'.owner.Held? ==> r'.owner == Held(t) && v'.irp == Some(i))
    && (s.wd.Some? && s.wd.value.thread == t ==> WithdrawerOk(s, v'.role))
    && (v.checks.Some? ==> v'.checks == v.checks)
    && (r'.hooked && r.linked ==> r.hooked)
    && count + B2N(v.ref) + B2N(r.refd) == s.count + B2N(v'.ref) + B2N(r'.refd)
  }

  lemma PcIrpThread(s: State, t: nat, pc: Pc, i: nat, r': Irp, count: nat)
    requires Inv(s) && t < |s.threads| && i < |s.irps|
    requires PcIrpOk(s, t, pc, i, r', count, ViewOf(s.threads[t]), ViewOf(pc))
    ensures ThreadInv(s.(threads := s.threads[t := pc], irps := s.irps[i := r'], count := count), t, ViewOf(pc))
  {
    hide ViewOf, Flow, IrpOk, CtxOk, CtxInv, IrpInv, ThreadsOk, IrpsOk, CtxsOk, CountOk, Woken, Dispatchers;
    hide RefdIrps, Publication, PnpOk;
    Facts(s, t, i, |s.ctxs|);
  }

  lemma PcIrpInv(s: State, t: nat, pc: Pc, i: nat, r': Irp, count: nat)
    requires Inv(s) && t < |s.threads| && i < |s.irps|
    requires PcIrpOk(s, t, pc, i, r', count, ViewOf(s.threads[t]), ViewOf(pc))
    ensures IrpInv(s.(threads := s.threads[t := pc], irps := s.irps[i := r'], count := count), i, r')
  {
    hide ViewOf, Flow, IrpOk, CtxOk, CtxInv, ThreadInv, ThreadsOk, IrpsOk, CtxsOk, CountOk, Woken;
    hide Dispatchers, RefdIrps, Publication;
    Facts(s, t, i, |s.ctxs|);
  }

  lemma KeepPcIrp(s: State, t: nat, pc: Pc, i: nat, r': Irp, count: nat)
    requires Inv(s) && t < |s.threads| && i < |s.irps| && OnlyHolder(s, t, i)
    requires PcIrpOk(s, t, pc, i, r', count, ViewOf(s.threads[t]), ViewOf(pc))
    ensures Keeps(s, s.(threads := s.threads[t := pc], irps := s.irps[i := r'], count := count))
  {
    hide ViewOf, Flow, IrpOk, IrpInv, ThreadInv, CtxOk, CtxInv, ThreadsOk, IrpsOk, CtxsOk, CountOk, Woken;
    hide Dispatchers, RefdIrps, Publication, OnlyHolder;
    Facts(s, t, i, |s.ctxs|);
    PcIrpThread(s, t, pc, i, r', count);
    PcIrpInv(s, t, pc, i, r', count);
    FrameWoken(s, s.(threads := s.threads[t := pc], irps := s.irps[i := r'], count := count), t, i, |s.ctxs|);
  }

  // A queue whose list stays: t takes its lock, releases it, or leaves it.
  predicate LockStep(t: nat, q: Queue, q': Queue, here: bool, closing: bool) {
    && q'.list == q.list && (q.drained ==> q'.drained)
    && (q'.drained ==> q.drained || (q.list == [] && closing))
    && (if q'.lock == Some(t) then here else q'.lock == None || q'.lock == q.lock)
    && (q.lock.Some? && q.lock.value != t ==> q' == q)
  }

  // The program counter and context c change, its lists do not.
  predicate PcCtxOk(s: State, t: nat, pc: Pc, c: nat, x': Ctx, v: View, v': View)
    requires c < |s.ctxs|
  {
    var x := s.ctxs[c];
    && Flow(pc)
    && RoleAt(s, t, c, x', v'.role)
    && (v.lock.Some? ==> v.lock.value.c == c)
    && (v'.lock.Some? ==> v'.lock.value.c == c && LockOk(t, v', QueueOf(x', v'.lock.value.k)))
    && (if v'.irp.Some? then v'.irp.value < |s.irps| && v'.irp == v.irp && HandOk(t, s.irps[v'.irp.value], v'.hand)
          else v.irp == None)
    && v'.collected == v.collected
    && LockStep(t, x.audio, x'.audio, v'.lock == Some(LockId(c, Audio)), x'.closing)
    && LockStep(t, x.event, x'.event, v'.lock == Some(LockId(c, Event)), x'.closing)
    && CtxOk(x') && x'.listed == x.listed && (x.closing ==> x'.closing)
    && PnpStep(t, x, x')
    && (x'.quiet && !x.quiet ==> NoFeeder(s, t, c))
    && (s.wd.Some? && s.wd.value.thread == t ==> WithdrawerOk(s, v'.role))
    && (v.checks.Some? ==>
          v.checks == Some(c) && (v'.checks == v.checks || x'.ring < FRAME_BYTES || x.audio.list == []))
    && (x'.ring <= x.ring || v'.checks == Some(c))
    && v'.ref == v.ref
  }

  lemma PcCtxThread(s: State, t: nat, pc: Pc, c: nat, x': Ctx)
    requires Inv(s) && t < |s.threads| && c < |s.ctxs|
    requires PcCtxOk(s, t, pc, c, x', ViewOf(s.threads[t]), ViewOf(pc))
    ensures ThreadInv(s.(threads := s.threads[t := pc], ctxs := s.ctxs[c := x']), t, ViewOf(pc))
  {
    hide ViewOf, Flow, IrpOk, CtxOk, IrpInv, CtxInv, ThreadsOk, IrpsOk, CtxsOk, CountOk, Woken, WakeStep;
    hide Dispatchers, RefdIrps, Publication, NoFeeder, QueueOk, LockStep, PnpStep, PnpOk, LockOk;
    Facts(s, t, |s.irps|, c);
  }

  lemma PcCtxStep(s: State, t: nat, pc: Pc, c: nat, x': Ctx)
    requires Inv(s) && t < |s.threads| && c < |s.ctxs|
    requires PcCtxOk(s, t, pc, c, x', ViewOf(s.threads[t]), ViewOf(pc))
    ensures CtxStep(s, t, |s.irps|, c, s.ctxs[c], x')
    ensures CtxInv(s.(threads := s.threads[t := pc], ctxs := s.ctxs[c := x']), c, x')
  {
    hide ViewOf, Flow, IrpOk, CtxOk, IrpInv, ThreadInv, ThreadsOk, IrpsOk, CtxsOk, CountOk, Woken, WakeStep;
    hide Dispatchers, RefdIrps, Publication, NoFeeder, QueueOk, PnpStep, PnpOk, LockOk, RoleAt;
    Facts(s, t, |s.irps|, c);
    var s' := s.(threads := s.threads[t := pc], ctxs := s.ctxs[c := x']);
    SameList(s, s', t, |s.irps|, c, Audio, x'.audio, x'.closing);
    SameList(s, s', t, |s.irps|, c, Event, x'.event, x'.closing);
  }

  lemma PcCtxWake(s: State, t: nat, pc: Pc, c: nat, x': Ctx)
    requires Inv(s) && t < |s.threads| && c < |s.ctxs|
    requires PcCtxOk(s, t, pc, c, x', ViewOf(s.threads[t]), ViewOf(pc))
    ensures WakeStep(s, s.(threads := s.threads[t := pc], ctxs := s.ctxs[c := x']), c, ViewOf(s.threads[t]), ViewOf(pc))
  {
    hide ViewOf, Flow, Inv, CtxOk, NoFeeder, PnpStep, PnpOk, LockOk, RoleAt;
  }

  lemma KeepPcCtx(s: State, t: nat, pc: Pc, c: nat, x': Ctx)
    requires Inv(s) && t < |s.threads| && c < |s.ctxs|
    requires PcCtxOk(s, t, pc, c, x', ViewOf(s.threads[t]), ViewOf(pc))
    ensures Keeps(s, s.(threads := s.threads[t := pc], ctxs := s.ctxs[c := x']))
  {
    hide Woken, WakeStep, ViewOf, Flow, IrpInv, CtxInv, CtxStep, ThreadInv, ThreadsOk, IrpsOk, CtxsOk;
    hide CountOk, RoleAt, LockStep, PnpStep, CtxOk, NoFeeder, LockOk;
    PcCtxThread(s, t, pc, c, x');
    PcCtxStep(s, t, pc, c, x');
    PcCtxWake(s, t, pc, c, x');
    FrameWoken(s, s.(threads := s.threads[t := pc], ctxs := s.ctxs[c := x']), t, |s.irps|, c);
  }

  // ----- steps that move an IRP into or out of a list -----

  // The list of kind k changes at most by IRP i; t takes or releases the lock.
  predicate QueueEdit(t: nat, i: nat, r': Irp, c: nat, k: Kind, q: Queue, q': Queue, closing: bool, here: bool) {
    && NoDup(q'.list)
    && (forall n :: 0 <= n < |q'.list| ==> q'.list[n] == i || q'.list[n] in q.list)
    && (forall j :: j in q.list && j != i ==> j in q'.list)
    && (i in q'.list ==> r'.linked && r'.ctx == c && r'.kind == k)
    && (q'.drained ==> closing && q'.list == []) && (q.drained ==> q'.drained)
    && (if q'.lock == Some(t) then here else q'.lock == None || q'.lock == q.lock)
    && (q.lock.Some? && q.lock.value != t ==> q' == q)
  }

  lemma QueueEdited(s: State, s': State, t: nat, i: nat, c: nat, k: Kind)
    requires Inv(s) && t < |s.threads| && i < |s.irps| && c < |s.ctxs|
    requires Local(s, s', t, i, c)
    requires QueueEdit(t, i, s'.irps[i], c, k, GetQueue(s, c, k), GetQueue(s', c, k), s'.ctxs[c].closing,
                       ViewOf(s'.threads[t]).lock == Some(LockId(c, k)))
    ensures QueueOk(s', c, k, GetQueue(s', c, k), s'.ctxs[c].closing)
  {
    hide ViewOf, Flow, IrpOk, CtxOk, ThreadInv, IrpInv, Publication, Woken, WakeStep, Dispatchers, RefdIrps;
    hide ThreadsOk, IrpsOk;
    assert CtxInv(s, c, s.ctxs[c]);
    assert QueueOk(s, c, k, GetQueue(s, c, k), s.ctxs[c].closing);
    var q, q' := GetQueue(s, c, k), GetQueue(s', c, k);
    forall n | 0 <= n < |q'.list|
      ensures q'.list[n] < |s'.irps| && s'.irps[q'.list[n]].linked && s'.irps[q'.list[n]].ctx == c
        && s'.irps[q'.list[n]].kind == k
    {
      if q'.list[n] != i {
        var m :| 0 <= m < |q.list| && q.list[m] == q'.list[n];
      }
    }
  }

  predicate MoveOk(s: State, t: nat, pc: Pc, i: nat, r': Irp, c: nat, x': Ctx, v: View, v': View)
    requires i < |s.irps| && c < |s.ctxs|
  {
    var r := s.irps[i];
    var x := s.ctxs[c];
    && Flow(pc)
    && RoleAt(s, t, c, x', v'.role)
    && (v.lock.Some? ==> v.lock.value.c == c)
    && (v'.lock.Some? ==> v'.lock.value.c == c && LockOk(t, v', QueueOf(x', v'.lock.value.k)))
    && (v.irp.Some? ==> v.irp.value == i)
    && (v'.irp.Some? ==> v'.irp.value == i && HandOk(t, r', v'.hand))
    && i !in v.collected
    && (v'.collected == v.collected
        || (v'.irp == None && v'.collected == v.collected + [i] && HandOk(t, r', Completing)))
    && r'.kind == r.kind && r'.ctx == r.ctx && r'.refd == r.refd && (r.linked ==> r.ctx == c)
    && IrpOk(r')
    && (r'.linked ==> r'.ctx == c && i in QueueOf(x', r'.kind).list)
    && (r'.owner.Held? ==> r'.owner == Held(t) && (v'.irp == Some(i) || i in v'.collected))
    && CtxOk(x') && x'.listed == x.listed && x'.closing == x.closing && x'.quiet == x.quiet
    && PnpStep(t, x, x')
    && QueueEdit(t, i, r', c, Audio, x.audio, x'.audio, x.closing, v'.lock == Some(LockId(c, Audio)))
    && QueueEdit(t, i, r', c, Event, x.event, x'.event, x.closing, v'.lock == Some(LockId(c, Event)))
    && (s.wd.Some? && s.wd.value.thread == t ==> WithdrawerOk(s, v'.role))
    && (v.checks.Some? ==> v'.checks == v.checks)
    && x'.ring == x.ring && (r'.hooked && r.linked ==> r.hooked)
    && v'.ref == v.ref
  }

  // The move makes something to take, and its thread does not look again.
  predicate Strands(i: nat, r: Irp, x: Ctx, x': Ctx, v': View, c: nat) {
    i in x'.audio.list && i !in x.audio.list && x.ring >= FRAME_BYTES && v'.checks != Some(c)
  }

  function Moved(s: State, t: nat, pc: Pc, i: nat, r': Irp, c: nat, x': Ctx): State
    requires t < |s.threads| && i < |s.irps| && c < |s.ctxs|
  {
    s.(threads := s.threads[t := pc], irps := s.irps[i := r'], ctxs := s.ctxs[c := x'])
  }

  lemma MoveThread(s: State, t: nat, pc: Pc, i: nat, r': Irp, c: nat, x': Ctx)
    requires Inv(s) && t < |s.threads| && i < |s.irps| && c < |s.ctxs|
    requires MoveOk(s, t, pc, i, r', c, x', ViewOf(s.threads[t]), ViewOf(pc))
    ensures ThreadInv(Moved(s, t, pc, i, r', c, x'), t, ViewOf(pc))
  {
    hide ViewOf, Flow, IrpOk, CtxOk, IrpInv, CtxInv, ThreadsOk, IrpsOk, CtxsOk, CountOk, Woken, WakeStep;
    hide Dispatchers, RefdIrps, Publication, QueueOk, QueueEdit, PnpStep, PnpOk, LockOk;
    Facts(s, t, |s.irps|, c);
  }

  lemma MoveCtx(s: State, t: nat, pc: Pc, i: nat, r': Irp, c: nat, x': Ctx)
    requires Inv(s) && t < |s.threads| && i < |s.irps| && c < |s.ctxs|
    requires MoveOk(s, t, pc, i, r', c, x', ViewOf(s.threads[t]), ViewOf(pc))
    ensures CtxStep(s, t, i, c, s.ctxs[c], x')
    ensures CtxInv(Moved(s, t, pc, i, r', c, x'), c, x')
  {
    hide ViewOf, Flow, IrpOk, CtxOk, IrpInv, ThreadInv, ThreadsOk, IrpsOk, CtxsOk, CountOk, Woken, WakeStep;
    hide Dispatchers, RefdIrps, Publication, QueueOk, PnpStep, PnpOk, LockOk, RoleAt, NoDup;
    Facts(s, t, |s.irps|, c);
    QueueEdited(s, Moved(s, t, pc, i, r', c, x'), t, i, c, Audio);
    QueueEdited(s, Moved(s, t, pc, i, r', c, x'), t, i, c, Event);
  }

  lemma MoveWake(s: State, t: nat, pc: Pc, i: nat, r': Irp, c: nat, x': Ctx)
    requires Inv(s) && t < |s.threads| && i < |s.irps| && c < |s.ctxs|
    requires MoveOk(s, t, pc, i, r', c, x', ViewOf(s.threads[t]), ViewOf(pc))
    requires !Strands(i, s.irps[i], s.ctxs[c], x', ViewOf(pc), c)
    ensures WakeStep(s, Moved(s, t, pc, i, r', c, x'), c, ViewOf(s.threads[t]), ViewOf(pc))
  {
    hide ViewOf, Flow, IrpOk, CtxOk, IrpInv, ThreadInv, CtxInv, ThreadsOk, IrpsOk, CtxsOk, CountOk;
    hide Dispatchers, RefdIrps, Publication, QueueOk, PnpStep, PnpOk, LockOk, RoleAt, NoDup;
    var s' := Moved(s, t, pc, i, r', c, x');
    if Tempting(s', c) && ViewOf(pc).checks != Some(c) {
      var j :| j in x'.audio.list && j < |s'.irps| && s'.irps[j].hooked;
      if j == i {
        ListLinked(s, c, i);
      }
      assert s.irps[j].hooked;
    }
  }

  lemma KeepMove(s: State, t: nat, pc: Pc, i: nat, r': Irp, c: nat, x': Ctx)
    requires Inv(s) && t < |s.threads| && i < |s.irps| && c < |s.ctxs| && OnlyHolder(s, t, i)
    requires MoveOk(s, t, pc, i, r', c, x', ViewOf(s.threads[t]), ViewOf(pc))
    ensures Stays(s, Moved(s, t, pc, i, r', c, x'))
    ensures !Strands(i, s.irps[i], s.ctxs[c], x', ViewOf(pc), c) ==> Keeps(s, Moved(s, t, pc, i, r', c, x'))
  {
    hide Woken, WakeStep, ViewOf, Flow, CtxInv, CtxStep, ThreadInv, ThreadsOk, IrpsOk, CtxsOk, CountOk;
    hide RoleAt, QueueEdit, PnpStep, CtxOk, LockOk, OnlyHolder, NoDup, IrpOk;
    MoveThread(s, t, pc, i, r', c, x');
    MoveCtx(s, t, pc, i, r', c, x');
    Facts(s, t, i, |s.ctxs|);
    Frame(s, Moved(s, t, pc, i, r', c, x'), t, i, c);
    if !Strands(i, s.irps[i], s.ctxs[c], x', ViewOf(pc), c) {
      MoveWake(s, t, pc, i, r', c, x');
      FrameWoken(s, Moved(s, t, pc, i, r', c, x'), t, i, c);
    }
  }

  // The lists of a context hold distinct IRPs, all of them linked there.
  lemma ListFacts(s: State, c: nat, i: nat)
    requires Inv(s) && c < |s.ctxs|
    ensures NoDup(s.ctxs[c].audio.list) && NoDup(s.ctxs[c].event.list)
    ensures i in s.ctxs[c].audio.list ==>
      i < |s.irps| && s.irps[i].linked && s.irps[i].ctx == c && s.irps[i].kind == Audio
    ensures i in s.ctxs[c].event.list ==>
      i < |s.irps| && s.irps[i].linked && s.irps[i].ctx == c && s.irps[i].kind == Event
  {
    hide ViewOf, Flow, ThreadsOk, IrpsOk, CountOk, CtxOk;
    assert CtxInv(s, c, s.ctxs[c]);
  }

  // A thread in the middle of a job uses a context that is not freed.
  lemma JobAlive(s: State, t: nat, j: Job)
    requires j.c < |s.ctxs| && CtxOk(s.ctxs[j.c])
    requires CtxHeld(s, j.c) ==> s.ctxs[j.c].alive
    requires RoleOk(s, t, JobRole(j))
    ensures s.ctxs[j.c].alive
  {
  }

  // Changes to locks, the ring and the queued events keep a job's role.
  lemma RoleKept(s: State, t: nat, j: Job, x': Ctx)
    requires j.c < |s.ctxs| && RoleOk(s, t, JobRole(j))
    requires x'.quiet == s.ctxs[j.c].quiet && x'.pnp == s.ctxs[j.c].pnp && x'.alive == s.ctxs[j.c].alive
    requires x'.withdrawn == s.ctxs[j.c].withdrawn && x'.listed == s.ctxs[j.c].listed
      && x'.closing == s.ctxs[j.c].closing
    requires x'.fdo == s.ctxs[j.c].fdo
    requires x'.audio.drained == s.ctxs[j.c].audio.drained && x'.event.drained == s.ctxs[j.c].event.drained
    ensures RoleAt(s, t, j.c, x', JobRole(j))
  {
  }
}
