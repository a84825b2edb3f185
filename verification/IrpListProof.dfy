/** The steps inside a lock section, which link and unlink IRPs, keep the invariant. */
module IrpListProof {
  import opened Common
  import opened IrpMachine
  import opened IrpInvariant
  import opened IrpFrame

  lemma KeepTesting(s: State, t: nat)
    requires Inv(s) && t < |s.threads| && InRange(s.threads[t], |s.irps|, |s.ctxs|)
    requires s.threads[t].Enqueue? && s.threads[t].stage == Testing
    ensures Keeps(s, StepTesting(s, t))
  {
    hide Inv, Keeps, QueueOk;
    var i := s.threads[t].i;
    Facts(s, t, i, |s.ctxs|);
    LockedAlone(s, t, i);
    var s' := StepTesting(s, t);
    KeepPcIrp(s, t, s'.threads[t], i, s.irps[i], s.count);
    assert s.irps == s.irps[i := s.irps[i]];
  }

  function Unlocked(x: Ctx, k: Kind): Ctx {
    WithQueue(x, k, QueueOf(x, k).(lock := None))
  }

  // The thread won the exchange, or the cancel routine has the IRP and the
  // thread lets go of it.
  lemma Unhooked(s: State, t: nat)
    requires Inv(s) && t < |s.threads| && InRange(s.threads[t], |s.irps|, |s.ctxs|)
    requires s.threads[t].Enqueue? && s.threads[t].stage == Unhooking
    ensures var Enqueue(_, i, c, k, a) := s.threads[t];
      var x' := Unlocked(s.ctxs[c], k);
      && s.ctxs[c].alive
      && (s.irps[i].hooked ==>
            MoveOk(s, t, Complete(i, a), i, s.irps[i].(hooked := false), c, x', ViewOf(s.threads[t]),
              ViewOf(Complete(i, a))))
      && (!s.irps[i].hooked && a == Return ==>
            MoveOk(s, t, Release, i, s.irps[i], c, x', ViewOf(s.threads[t]), ViewOf(Release)))
  {
    hide Inv, Keeps, QueueOk;
    var Enqueue(_, i, c, k, a) := s.threads[t];
    Facts(s, t, i, c);
    ListFacts(s, c, i);
  }

  lemma UnlockingStrands(i: nat, r: Irp, x: Ctx, k: Kind, v: View, c: nat)
    ensures !Strands(i, r, x, Unlocked(x, k), v, c)
  {
  }

  // A requeue that lost the exchange goes on to insert its IRP.
  lemma KeepGoingOn(s: State, t: nat)
    requires Inv(s) && t < |s.threads| && InRange(s.threads[t], |s.irps|, |s.ctxs|)
    requires s.threads[t].Enqueue? && s.threads[t].stage == Unhooking
    requires s.threads[t].after.Continue? && !s.irps[s.threads[t].i].hooked
    ensures s.ctxs[s.threads[t].c].alive
    ensures Keeps(s, SetPc(s, t, s.threads[t].(stage := Inserting)))
  {
    hide Inv, Keeps, QueueOk;
    var Enqueue(_, i, c, k, a) := s.threads[t];
    Facts(s, t, i, c);
    LockedAlone(s, t, i);
    KeepPcIrp(s, t, Enqueue(Inserting, i, c, k, a), i, s.irps[i], s.count);
    assert s.irps == s.irps[i := s.irps[i]];
  }

  lemma KeepUnhooking(s: State, t: nat)
    requires Inv(s) && t < |s.threads| && InRange(s.threads[t], |s.irps|, |s.ctxs|)
    requires s.threads[t].Enqueue? && s.threads[t].stage == Unhooking
    ensures Keeps(s, StepUnhooking(s, t))
  {
    hide Inv, Keeps, QueueOk, MoveOk, CtxInv, Strands;
    var Enqueue(_, i, c, k, a) := s.threads[t];
    Facts(s, t, i, c);
    LockedAlone(s, t, i);
    Unhooked(s, t);
    UnlockingStrands(i, s.irps[i], s.ctxs[c], k, ViewOf(Complete(i, a)), c);
    UnlockingStrands(i, s.irps[i], s.ctxs[c], k, ViewOf(Release), c);
    if s.irps[i].hooked {
      KeepMove(s, t, Complete(i, a), i, s.irps[i].(hooked := false), c, Unlocked(s.ctxs[c], k));
    } else if a.Continue? {
      KeepGoingOn(s, t);
    } else {
      KeepMove(s, t, Release, i, s.irps[i], c, Unlocked(s.ctxs[c], k));
      assert s.irps == s.irps[i := s.irps[i]];
    }
  }

  function LinkedIrp(r: Irp, t: nat): Irp {
    r.(selfRef := false, linked := true, owner := if r.owner == Held(t) then Queued else r.owner)
  }

  function LinkedList(a: After, i: nat, list: seq<nat>): seq<nat> {
    if a.Continue? then [i] + list else list + [i]
  }

  lemma LinkedNoDup(a: After, i: nat, list: seq<nat>)
    requires NoDup(list) && i !in list
    ensures NoDup(LinkedList(a, i, list))
    ensures forall j :: j in LinkedList(a, i, list) <==> j == i || j in list
  {
  }

  function LinkedCtx(x: Ctx, k: Kind, a: After, i: nat): Ctx {
    WithQueue(x, k, QueueOf(x, k).(list := LinkedList(a, i, QueueOf(x, k).list), lock := None))
  }

  lemma Inserted(s: State, t: nat)
    requires Inv(s) && t < |s.threads| && InRange(s.threads[t], |s.irps|, |s.ctxs|)
    requires s.threads[t].Enqueue? && s.threads[t].stage == Inserting
    ensures var Enqueue(_, i, c, k, a) := s.threads[t];
      && s.ctxs[c].alive && s.irps[i].selfRef && !s.irps[i].done
      && MoveOk(s, t, InsertEnd(c, k, a), i, LinkedIrp(s.irps[i], t), c, LinkedCtx(s.ctxs[c], k, a, i),
                ViewOf(s.threads[t]), ViewOf(InsertEnd(c, k, a)))
  {
    hide Inv, Keeps, QueueOk, NoDup, LinkedList;
    var Enqueue(_, i, c, k, a) := s.threads[t];
    Facts(s, t, i, c);
    ListFacts(s, c, i);
    LinkedNoDup(a, i, GetQueue(s, c, k).list);
  }

  // A first queueing looks at the ring next; only a requeue can strand its IRP.
  lemma InsertingStrands(s: State, t: nat)
    requires t < |s.threads| && InRange(s.threads[t], |s.irps|, |s.ctxs|)
    requires s.threads[t].Enqueue? && Flow(s.threads[t])
    ensures var Enqueue(_, i, c, k, a) := s.threads[t];
      || (a.Continue? && s.ctxs[c].ring >= FRAME_BYTES)
      || !Strands(i, s.irps[i], s.ctxs[c], LinkedCtx(s.ctxs[c], k, a, i), ViewOf(InsertEnd(c, k, a)), c)
  {
    hide LinkedList;
  }

  lemma KeepInserting(s: State, t: nat)
    requires Inv(s) && t < |s.threads| && InRange(s.threads[t], |s.irps|, |s.ctxs|)
    requires s.threads[t].Enqueue? && s.threads[t].stage == Inserting
    ensures Stays(s, StepInserting(s, t))
    ensures !(s.threads[t].after.Continue? && s.ctxs[s.threads[t].c].ring >= FRAME_BYTES) ==>
      Keeps(s, StepInserting(s, t))
  {
    hide Inv, Keeps, QueueOk, MoveOk, CtxInv, InsertEnd, Strands, ViewOf;
    var Enqueue(_, i, c, k, a) := s.threads[t];
    LockedAlone(s, t, i);
    Inserted(s, t);
    Facts(s, t, i, c);
    InsertingStrands(s, t);
    KeepMove(s, t, InsertEnd(c, k, a), i, LinkedIrp(s.irps[i], t), c, LinkedCtx(s.ctxs[c], k, a, i));
  }

  // ----- the drains -----

  // A drain after Closing that finds the list empty may mark it drained.
  function Emptied(x: Ctx, j: Job): Ctx {
    var q := QueueOf(x, JobKind(j));
    WithQueue(x, JobKind(j), q.(lock := None, drained := q.drained || j.CancelAll?))
  }

  lemma FoundEmpty(s: State, t: nat)
    requires Inv(s) && t < |s.threads| && InRange(s.threads[t], |s.irps|, |s.ctxs|)
    requires s.threads[t].Dequeue? && !s.threads[t].job.CancelAll?
    requires GetQueue(s, s.threads[t].job.c, JobKind(s.threads[t].job)).list == []
    ensures var j := s.threads[t].job;
      && s.ctxs[j.c].alive
      && PcCtxOk(s, t, JobEnd(j), j.c, Emptied(s.ctxs[j.c], j), ViewOf(s.threads[t]), ViewOf(JobEnd(j)))
  {
    hide Inv, Keeps, QueueOk, IrpInv, NoDup, PnpOk;
    var j := s.threads[t].job;
    Facts(s, t, |s.irps|, j.c);
  }

  // Where the PnP request is before and after the drain of a list.
  function DrainProgress(j: Job, after: bool): Progress
    requires j.CancelAll?
  {
    if j.why.Destroy? then Destroying
    else if j.k == Audio then (if after then AudioDrained else Shut)
    else (if after then BothDrained else AudioDrained)
  }

  lemma DrainViews(j: Job)
    requires j.CancelAll?
    ensures var w := if j.why.Withdraw? && j.why.wasPublished then Some(false) else None;
      && ViewOf(Dequeue(j)) == PnpView(j.c, DrainProgress(j, false), w).(lock := Some(LockId(j.c, j.k)))
      && ViewOf(JobEnd(j)) == PnpView(j.c, DrainProgress(j, true), w)
  {
  }

  lemma FoundDrained(s: State, t: nat)
    requires Inv(s) && t < |s.threads| && InRange(s.threads[t], |s.irps|, |s.ctxs|)
    requires s.threads[t].Dequeue? && s.threads[t].job.CancelAll?
    requires GetQueue(s, s.threads[t].job.c, JobKind(s.threads[t].job)).list == []
    ensures var j := s.threads[t].job;
      && s.ctxs[j.c].alive
      && PcCtxOk(s, t, JobEnd(j), j.c, Emptied(s.ctxs[j.c], j), ViewOf(s.threads[t]), ViewOf(JobEnd(j)))
  {
    hide Inv, Keeps, QueueOk, IrpInv, NoDup, ViewOf;
    var j := s.threads[t].job;
    DrainViews(j);
    Facts(s, t, |s.irps|, j.c);
  }

  function UnlinkedIrp(r: Irp): Irp {
    r.(selfRef := true, linked := false)
  }

  function HeadOff(x: Ctx, k: Kind, release: bool): Ctx
    requires QueueOf(x, k).list != []
  {
    var q := QueueOf(x, k);
    WithQueue(x, k, q.(list := q.list[1..], lock := if release then None else q.lock))
  }

  lemma HeadStrands(i: nat, r: Irp, x: Ctx, k: Kind, release: bool, v: View, c: nat)
    requires QueueOf(x, k).list != []
    ensures !Strands(i, r, x, HeadOff(x, k, release), v, c)
  {
  }

  lemma HeadNoDup(list: seq<nat>)
    requires list != [] && NoDup(list)
    ensures NoDup(list[1..])
    ensures forall j :: j in list[1..] <==> j in list && j != list[0]
  {
  }

  // The entry at the head of the list is of a live context, uncompleted, and in nobody's hand.
  lemma HeadFacts(s: State, t: nat)
    requires Inv(s) && t < |s.threads| && InRange(s.threads[t], |s.irps|, |s.ctxs|)
    requires s.threads[t].Dequeue?
    requires GetQueue(s, s.threads[t].job.c, JobKind(s.threads[t].job)).list != []
    ensures var j := s.threads[t].job;
      var i := GetQueue(s, j.c, JobKind(j)).list[0];
      && s.ctxs[j.c].alive && i < |s.irps| && !s.irps[i].done && OnlyHolder(s, t, i)
      && s.irps[i].linked && s.irps[i].ctx == j.c && s.irps[i].kind == JobKind(j)
  {
    hide Inv, Keeps, QueueOk, NoDup, JobRole, JobRef, PnpOk, OnlyHolder;
    var j := s.threads[t].job;
    var i := GetQueue(s, j.c, JobKind(j)).list[0];
    Facts(s, t, |s.irps|, j.c);
    ListFacts(s, j.c, i);
    Facts(s, t, i, j.c);
    OwnedAlone(s, t, i);
    JobAlive(s, t, j);
  }

  // The list loses its head, which r' stands for.
  lemma HeadEdit(s: State, t: nat, i: nat, r': Irp, release: bool)
    requires Inv(s) && t < |s.threads| && InRange(s.threads[t], |s.irps|, |s.ctxs|)
    requires s.threads[t].Dequeue?
    requires GetQueue(s, s.threads[t].job.c, JobKind(s.threads[t].job)).list != []
    requires i == GetQueue(s, s.threads[t].job.c, JobKind(s.threads[t].job)).list[0]
    ensures var j := s.threads[t].job;
      var x, x' := s.ctxs[j.c], HeadOff(s.ctxs[j.c], JobKind(j), release);
      && QueueEdit(t, i, r', j.c, Audio, x.audio, x'.audio, x.closing, !release && JobKind(j) == Audio)
      && QueueEdit(t, i, r', j.c, Event, x.event, x'.event, x.closing, !release && JobKind(j) == Event)
      && x'.audio.drained == x.audio.drained && x'.event.drained == x.event.drained
  {
    hide Inv, Keeps, QueueOk, NoDup, JobRole, JobRef, PnpOk, IrpInv, CtxOk;
    var j := s.threads[t].job;
    Facts(s, t, i, j.c);
    ListFacts(s, j.c, i);
    HeadNoDup(GetQueue(s, j.c, JobKind(j)).list);
    if JobKind(j) == Audio { OtherLists(s, i, j.c, Audio, Event); } else { OtherLists(s, i, j.c, Event, Audio); }
  }

  // No IRP is in two lists of a context.
  lemma OtherLists(s: State, i: nat, c: nat, k: Kind, l: Kind)
    requires Inv(s) && c < |s.ctxs| && k != l && i in GetQueue(s, c, k).list
    ensures i !in GetQueue(s, c, l).list
  {
    hide Inv;
    ListFacts(s, c, i);
  }

  lemma HeadClaimed(s: State, t: nat, i: nat)
    requires Inv(s) && t < |s.threads| && InRange(s.threads[t], |s.irps|, |s.ctxs|)
    requires s.threads[t].Dequeue?
    requires GetQueue(s, s.threads[t].job.c, JobKind(s.threads[t].job)).list != []
    requires i == GetQueue(s, s.threads[t].job.c, JobKind(s.threads[t].job)).list[0]
    requires i < |s.irps| && s.irps[i].hooked
    ensures var j := s.threads[t].job;
      MoveOk(s, t, Claimed(i, j), i, UnlinkedIrp(s.irps[i]).(hooked := false, owner := Held(t)), j.c,
             HeadOff(s.ctxs[j.c], JobKind(j), true), ViewOf(s.threads[t]), ViewOf(Claimed(i, j)))
  {
    hide Inv, Keeps, QueueOk, QueueEdit, NoDup, JobRole, JobRef, PnpOk, OnlyHolder;
    var j := s.threads[t].job;
    HeadFacts(s, t);
    Facts(s, t, i, j.c);
    HeadEdit(s, t, i, UnlinkedIrp(s.irps[i]).(hooked := false, owner := Held(t)), true);
    RoleKept(s, t, j, HeadOff(s.ctxs[j.c], JobKind(j), true));
  }

  lemma HeadSkipped(s: State, t: nat, i: nat)
    requires Inv(s) && t < |s.threads| && InRange(s.threads[t], |s.irps|, |s.ctxs|)
    requires s.threads[t].Dequeue?
    requires GetQueue(s, s.threads[t].job.c, JobKind(s.threads[t].job)).list != []
    requires i == GetQueue(s, s.threads[t].job.c, JobKind(s.threads[t].job)).list[0]
    requires i < |s.irps| && !s.irps[i].hooked
    ensures var j := s.threads[t].job;
      MoveOk(s, t, s.threads[t], i, UnlinkedIrp(s.irps[i]), j.c,
             HeadOff(s.ctxs[j.c], JobKind(j), false), ViewOf(s.threads[t]), ViewOf(s.threads[t]))
  {
    hide Inv, Keeps, QueueOk, QueueEdit, NoDup, JobRole, JobRef, PnpOk, OnlyHolder;
    var j := s.threads[t].job;
    HeadFacts(s, t);
    Facts(s, t, i, j.c);
    HeadEdit(s, t, i, UnlinkedIrp(s.irps[i]), false);
    RoleKept(s, t, j, HeadOff(s.ctxs[j.c], JobKind(j), false));
  }

  lemma KeepDequeue(s: State, t: nat)
    requires Inv(s) && WellFormed(s) && t < |s.threads| && InRange(s.threads[t], |s.irps|, |s.ctxs|)
    requires s.threads[t].Dequeue?
    ensures Keeps(s, StepDequeue(s, t))
  {
    hide Inv, Keeps, QueueOk, MoveOk, PcCtxOk, CtxInv, JobEnd, Strands, ViewOf;
    var j := s.threads[t].job;
    var k := JobKind(j);
    var list := GetQueue(s, j.c, k).list;
    if list == [] {
      if j.CancelAll? { FoundDrained(s, t); } else { FoundEmpty(s, t); }
      KeepPcCtx(s, t, JobEnd(j), j.c, Emptied(s.ctxs[j.c], j));
    } else {
      HeadFacts(s, t);
      var i := list[0];
      HeadStrands(i, s.irps[i], s.ctxs[j.c], k, true, ViewOf(Claimed(i, j)), j.c);
      HeadStrands(i, s.irps[i], s.ctxs[j.c], k, false, ViewOf(s.threads[t]), j.c);
      if s.irps[i].hooked {
        HeadClaimed(s, t, i);
        KeepMove(s, t, Claimed(i, j), i, UnlinkedIrp(s.irps[i]).(hooked := false, owner := Held(t)), j.c,
                 HeadOff(s.ctxs[j.c], k, true));
      } else {
        HeadSkipped(s, t, i);
        KeepMove(s, t, s.threads[t], i, UnlinkedIrp(s.irps[i]), j.c, HeadOff(s.ctxs[j.c], k, false));
        assert s.threads == s.threads[t := s.threads[t]];
      }
    }
  }

  // ----- handle cleanup -----

  function RemovedAt(x: Ctx, k: Kind, pos: nat): Ctx
    requires pos < |QueueOf(x, k).list|
  {
    var q := QueueOf(x, k);
    WithQueue(x, k, q.(list := q.list[..pos] + q.list[pos + 1..]))
  }

  lemma RemovedNoDup(list: seq<nat>, pos: nat)
    requires pos < |list| && NoDup(list)
    ensures NoDup(list[..pos] + list[pos + 1..])
    ensures forall j :: j in list[..pos] + list[pos + 1..] <==> j in list && j != list[pos]
  {
    var l := list[..pos] + list[pos + 1..];
    forall j | j in list && j != list[pos] ensures j in l {
      var n :| 0 <= n < |list| && list[n] == j;
      assert l[if n < pos then n else n - 1] == j;
    }
  }

  lemma RemovingStrands(i: nat, r: Irp, x: Ctx, k: Kind, pos: nat, v: View, c: nat)
    requires pos < |QueueOf(x, k).list|
    ensures !Strands(i, r, x, RemovedAt(x, k, pos), v, c)
  {
    var list := x.audio.list;
    if k == Audio && i in list[..pos] + list[pos + 1..] {
      assert i in list;
    }
  }

  lemma Walked(s: State, t: nat)
    requires Inv(s) && t < |s.threads| && InRange(s.threads[t], |s.irps|, |s.ctxs|)
    requires s.threads[t].ClWalk? && s.threads[t].pos < |GetQueue(s, s.threads[t].c, s.threads[t].k).list|
    ensures var ClWalk(f, c, k, pos, out) := s.threads[t];
      var i := GetQueue(s, c, k).list[pos];
      && s.ctxs[c].alive && i < |s.irps| && !s.irps[i].done && OnlyHolder(s, t, i)
  {
    hide Inv, Keeps, QueueOk, NoDup, PnpOk, OnlyHolder;
    var ClWalk(f, c, k, pos, out) := s.threads[t];
    var i := GetQueue(s, c, k).list[pos];
    Facts(s, t, |s.irps|, c);
    ListFacts(s, c, i);
    Facts(s, t, i, c);
    OwnedAlone(s, t, i);
  }

  // The walker claims the IRP.
  lemma WalkedClaims(s: State, t: nat)
    requires Inv(s) && t < |s.threads| && InRange(s.threads[t], |s.irps|, |s.ctxs|)
    requires s.threads[t].ClWalk? && s.threads[t].pos < |GetQueue(s, s.threads[t].c, s.threads[t].k).list|
    ensures var ClWalk(f, c, k, pos, out) := s.threads[t];
      var i := GetQueue(s, c, k).list[pos];
      i < |s.irps|
      && (s.irps[i].hooked ==>
            MoveOk(s, t, ClWalk(f, c, k, pos, out + [i]), i,
                   s.irps[i].(selfRef := false, linked := false, hooked := false, owner := Held(t)), c,
                   RemovedAt(s.ctxs[c], k, pos), ViewOf(s.threads[t]), ViewOf(ClWalk(f, c, k, pos, out + [i]))))
  {
    hide Inv, Keeps, QueueOk, NoDup, PnpOk, OnlyHolder;
    var ClWalk(f, c, k, pos, out) := s.threads[t];
    var list := GetQueue(s, c, k).list;
    ListFacts(s, c, list[pos]);
    RemovedNoDup(list, pos);
    Facts(s, t, list[pos], c);
  }

  // Its cancel routine has it already.
  lemma WalkedLeaves(s: State, t: nat)
    requires Inv(s) && t < |s.threads| && InRange(s.threads[t], |s.irps|, |s.ctxs|)
    requires s.threads[t].ClWalk? && s.threads[t].pos < |GetQueue(s, s.threads[t].c, s.threads[t].k).list|
    ensures var ClWalk(f, c, k, pos, out) := s.threads[t];
      var i := GetQueue(s, c, k).list[pos];
      i < |s.irps|
      && (!s.irps[i].hooked ==>
            MoveOk(s, t, s.threads[t], i, UnlinkedIrp(s.irps[i]), c,
                   RemovedAt(s.ctxs[c], k, pos), ViewOf(s.threads[t]), ViewOf(s.threads[t])))
  {
    hide Inv, Keeps, QueueOk, NoDup, PnpOk, OnlyHolder;
    var ClWalk(f, c, k, pos, out) := s.threads[t];
    var list := GetQueue(s, c, k).list;
    ListFacts(s, c, list[pos]);
    RemovedNoDup(list, pos);
    Facts(s, t, list[pos], c);
  }

  lemma WalkOn(s: State, t: nat)
    requires Inv(s) && t < |s.threads| && InRange(s.threads[t], |s.irps|, |s.ctxs|)
    requires s.threads[t].ClWalk?
    requires s.threads[t].pos < |GetQueue(s, s.threads[t].c, s.threads[t].k).list|
    ensures var ClWalk(f, c, k, pos, out) := s.threads[t];
      var pc := ClWalk(f, c, k, pos + 1, out);
      s.ctxs[c].alive && PcCtxOk(s, t, pc, c, s.ctxs[c], ViewOf(s.threads[t]), ViewOf(pc))
  {
    hide Inv, Keeps, QueueOk, NoDup, PnpOk, IrpInv;
    Facts(s, t, |s.irps|, s.threads[t].c);
  }

  lemma WalkEnd(s: State, t: nat)
    requires Inv(s) && t < |s.threads| && InRange(s.threads[t], |s.irps|, |s.ctxs|)
    requires s.threads[t].ClWalk?
    ensures var ClWalk(f, c, k, pos, out) := s.threads[t];
      var pc := if k == Audio then ClLock(f, c, Event, out) else ClNext(out);
      s.ctxs[c].alive && PcCtxOk(s, t, pc, c, Unlocked(s.ctxs[c], k), ViewOf(s.threads[t]), ViewOf(pc))
  {
    hide Inv, Keeps, QueueOk, NoDup, PnpOk, IrpInv;
    Facts(s, t, |s.irps|, s.threads[t].c);
  }

  lemma KeepClWalk(s: State, t: nat)
    requires Inv(s) && WellFormed(s) && t < |s.threads| && InRange(s.threads[t], |s.irps|, |s.ctxs|)
    requires s.threads[t].ClWalk?
    ensures Keeps(s, StepClWalk(s, t))
  {
    hide Inv, Keeps, QueueOk, MoveOk, PcCtxOk, Strands, ViewOf;
    var ClWalk(f, c, k, pos, out) := s.threads[t];
    var list := GetQueue(s, c, k).list;
    if pos >= |list| {
      WalkEnd(s, t);
      KeepPcCtx(s, t, if k == Audio then ClLock(f, c, Event, out) else ClNext(out), c, Unlocked(s.ctxs[c], k));
    } else {
      var i := list[pos];
      Walked(s, t);
      WalkedClaims(s, t);
      WalkedLeaves(s, t);
      RemovingStrands(i, s.irps[i], s.ctxs[c], k, pos, ViewOf(ClWalk(f, c, k, pos, out + [i])), c);
      RemovingStrands(i, s.irps[i], s.ctxs[c], k, pos, ViewOf(s.threads[t]), c);
      if s.irps[i].file != f {
        WalkOn(s, t);
        KeepPcCtx(s, t, ClWalk(f, c, k, pos + 1, out), c, s.ctxs[c]);
        assert s.ctxs == s.ctxs[c := s.ctxs[c]];
      } else if s.irps[i].hooked {
        KeepMove(s, t, ClWalk(f, c, k, pos, out + [i]), i,
                 s.irps[i].(selfRef := false, linked := false, hooked := false, owner := Held(t)), c,
                   RemovedAt(s.ctxs[c], k, pos));
      } else {
        KeepMove(s, t, s.threads[t], i, UnlinkedIrp(s.irps[i]), c, RemovedAt(s.ctxs[c], k, pos));
        assert s.threads == s.threads[t := s.threads[t]];
      }
    }
  }

  lemma KeepClNext(s: State, t: nat)
    requires Inv(s) && t < |s.threads| && InRange(s.threads[t], |s.irps|, |s.ctxs|)
    requires s.threads[t].ClNext?
    ensures Keeps(s, StepClNext(s, t))
  {
    hide Inv, Keeps, QueueOk;
    var out := s.threads[t].out;
    Facts(s, t, |s.irps|, |s.ctxs|);
    if out == [] {
      KeepPc(s, t, Release, s.count);
    } else {
      var i := out[0];
      Facts(s, t, i, |s.ctxs|);
      OwnedAlone(s, t, i);
      KeepPcIrp(s, t, Complete(i, Cleanup(out[1..])), i, s.irps[i].(selfRef := true), s.count);
    }
  }
}
