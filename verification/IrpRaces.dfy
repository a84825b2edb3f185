/**
 Two races of the protocol, as runs: the audio requeue that returns without
 looking at the ring again, and the event queue, whose two sides can pass each
 other. IrpWakeups and IrpEvents say which runs have them.
 */
module IrpRaces {
  import opened Common
  import opened IrpMachine
  import opened IrpInvariant
  import opened IrpTheorems

  lemma {:induction false} RunSnoc(s: State, steps: seq<Step>, s': State, step: Step)
    requires Run(s, steps, s') && WellFormed(s') && Enabled(s', step)
    ensures Run(s, steps + [step], Apply(s', step))
    decreases |steps|
  {
    hide WellFormed, Enabled, Apply;
    if steps == [] {
      assert ([step])[1..] == [];
      assert steps + [step] == [step];
      assert Run(Apply(s, step), [], Apply(s', step));
    } else {
      RunSnoc(Apply(s, steps[0]), steps[1..], s', step);
      assert (steps + [step])[1..] == steps[1..] + [step];
    }
  }

  lemma Next(s: State, step: Step) returns (s': State)
    requires Reachable(s)
    requires Inv(s) && WellFormed(s) ==> Enabled(s, step)
    ensures WellFormed(s) && Enabled(s, step) && s' == Apply(s, step) && Reachable(s')
  {
    hide Inv, WellFormed, Enabled, Apply;
    ReachableInv(s);
    var n: nat, steps :| Run(Start0(n), steps, s);
    RunSnoc(Start0(n), steps, s, step);
    s' := Apply(s, step);
  }

  // Thread t at p, the other of two threads at o, and one device, whose context is published.
  function Two(t: nat, p: Pc, o: Pc, irps: seq<Irp>, audio: Queue, event: Queue, ring: nat, events: nat,
      count: nat): State {
    State(if t == 0 then [p, o] else [o, p], irps,
          [Ctx(audio, event, false, ring, events, true, false, true, None, true, false)],
          Some(0), [0], false, false, count, false, None)
  }

  const EMPTY := Queue([], None, false)

  function InHand(k: Kind, t: nat): Irp {
    Irp(k, 0, 0, false, false, false, false, NotCalled, false, false, false, Held(t))
  }

  function Pending(k: Kind): Irp {
    InHand(k, 0).(refd := true, hooked := true, linked := true, owner := Queued)
  }

  function Claim(k: Kind, t: nat): Irp {
    InHand(k, t).(refd := true, selfRef := true)
  }

  // A new IRP is dispatched up to queueing.
  lemma Dispatch(t: nat, k: Kind, o: Pc, irps: seq<Irp>, ring: nat, count: nat) returns (s: State)
    requires t < 2 && Reachable(Two(t, Idle, o, irps, EMPTY, EMPTY, ring, 0, count))
    ensures s == Two(t, DcPrepare(|irps|, 0), o, irps + [InHand(k, t)], EMPTY, EMPTY, ring, 0, count + 1)
    ensures Reachable(s)
  {
    hide Inv, WellFormed, Reachable;
    s := Next(Two(t, Idle, o, irps, EMPTY, EMPTY, ring, 0, count), Issue(t, k, 0));
    assert s == Two(t, DcStart(|irps|), o, irps + [InHand(k, t)], EMPTY, EMPTY, ring, 0, count);
    s := Finds(t, o, irps + [InHand(k, t)], ring, count);
  }

  // Its dispatcher takes the reference and finds the published context.
  lemma Finds(t: nat, o: Pc, irps: seq<Irp>, ring: nat, count: nat) returns (s: State)
    requires t < 2 && irps != [] && Reachable(Two(t, DcStart(|irps| - 1), o, irps, EMPTY, EMPTY, ring, 0, count))
    ensures s == Two(t, DcPrepare(|irps| - 1, 0), o, irps, EMPTY, EMPTY, ring, 0, count + 1)
    ensures Reachable(s)
  {
    hide Inv, WellFormed, Reachable;
    s := Next(Two(t, DcStart(|irps| - 1), o, irps, EMPTY, EMPTY, ring, 0, count), Go(t, true, 0));
    s := Next(s, Go(t, true, 0));
    s := Next(s, Go(t, true, 0));
  }

  // The queueing section links the last IRP into its empty list.
  lemma Enter(t: nat, o: Pc, first: seq<Irp>, k: Kind, ring: nat, events: nat, count: nat) returns (s: State)
    requires t < 2
    requires Reachable(Two(t, DcPrepare(|first|, 0), o, first + [InHand(k, t)], EMPTY, EMPTY, ring, events, count))
    ensures var q := EMPTY.(list := [|first|]);
      s == Two(t, InsertEnd(0, k, Return), o, first + [Pending(k)], if k == Audio then q else EMPTY,
               if k == Event then q else EMPTY, ring, events, count + 1)
    ensures Reachable(s)
  {
    hide Inv, WellFormed, Reachable;
    var i := |first|;
    s := Two(t, DcPrepare(i, 0), o, first + [InHand(k, t)], EMPTY, EMPTY, ring, events, count);
    s := Prepare(t, o, first, k, ring, events, count);
    s := Hook(t, o, first, k, ring, events, count + 1);
    s := Next(s, Go(t, true, 0));
    assert s.irps == first + [Pending(k)];
    assert [] + [i] == [i];
    assert s.ctxs == Two(t, Idle, o, [], if k == Audio then EMPTY.(list := [i]) else EMPTY,
                         if k == Event then EMPTY.(list := [i]) else EMPTY, ring, events, 0).ctxs;
  }

  lemma Hook(t: nat, o: Pc, first: seq<Irp>, k: Kind, ring: nat, events: nat, count: nat) returns (s: State)
    requires t < 2
    requires var q := EMPTY.(lock := Some(t));
      Reachable(Two(t, Enqueue(Hooking, |first|, 0, k, Return), o, first + [Claim(k, t)],
                    if k == Audio then q else EMPTY,
                    if k == Event then q else EMPTY, ring, events, count))
    ensures var q := EMPTY.(lock := Some(t));
      s == Two(t, Enqueue(Inserting, |first|, 0, k, Return), o, first + [Claim(k, t).(hooked := true)],
               if k == Audio then q else EMPTY, if k == Event then q else EMPTY, ring, events, count)
    ensures Reachable(s)
  {
    hide Inv, WellFormed, Reachable;
    var q := EMPTY.(lock := Some(t));
    s := Next(Two(t, Enqueue(Hooking, |first|, 0, k, Return), o, first + [Claim(k, t)], if k == Audio then q else EMPTY,
                  if k == Event then q else EMPTY, ring, events, count), Go(t, true, 0));
    s := Next(s, Go(t, true, 0));
  }

  lemma Prepare(t: nat, o: Pc, first: seq<Irp>, k: Kind, ring: nat, events: nat, count: nat) returns (s: State)
    requires t < 2
    requires Reachable(Two(t, DcPrepare(|first|, 0), o, first + [InHand(k, t)], EMPTY, EMPTY, ring, events, count))
    ensures var q := EMPTY.(lock := Some(t));
      s == Two(t, Enqueue(Hooking, |first|, 0, k, Return), o, first + [Claim(k, t)], if k == Audio then q else EMPTY,
               if k == Event then q else EMPTY, ring, events, count + 1)
    ensures Reachable(s)
  {
    hide Inv, WellFormed, Reachable;
    s := Next(Two(t, DcPrepare(|first|, 0), o, first + [InHand(k, t)], EMPTY, EMPTY, ring, events, count),
      Go(t, true, 0));
    s := Next(s, Go(t, true, 0));
  }

  lemma Begin() returns (s: State)
    ensures s == Two(0, Idle, Idle, [], EMPTY, EMPTY, 0, 0, 0) && Reachable(s)
  {
    hide Inv, WellFormed;
    s := Start0(2);
    assert Run(s, [], s);
    s := Next(s, AddDevice);
  }

  // ----- the event queue -----

  // IoctlPostEvent finds no IRP and queues its event.
  lemma PostLocks(o: Pc, irps: seq<Irp>, count: nat) returns (s: State)
    requires Reachable(Two(1, Idle, o, irps, EMPTY, EMPTY, 0, 0, count))
    ensures s == Two(1, Lock(Post(0)), o, irps, EMPTY, EMPTY, 0, 0, count) && Reachable(s)
  {
    hide Inv, WellFormed, Reachable;
    s := Next(Two(1, Idle, o, irps, EMPTY, EMPTY, 0, 0, count), Produces(1, 0, Notify));
    s := Next(s, Go(1, true, 0));
    s := Next(s, Go(1, true, 0));
  }

  lemma PostFindsNone(o: Pc, irps: seq<Irp>, count: nat) returns (s: State)
    requires Reachable(Two(1, Lock(Post(0)), o, irps, EMPTY, EMPTY, 0, 0, count))
    ensures s == Two(1, Queueing(0), o, irps, EMPTY, EMPTY, 0, 0, count) && Reachable(s)
  {
    hide Inv, WellFormed, Reachable;
    s := Next(Two(1, Lock(Post(0)), o, irps, EMPTY, EMPTY, 0, 0, count), Go(1, true, 0));
    s := Next(s, Go(1, true, 0));
  }

  lemma PostMisses(o: Pc, irps: seq<Irp>, count: nat) returns (s: State)
    requires Reachable(Two(1, Idle, o, irps, EMPTY, EMPTY, 0, 0, count))
    ensures s == Two(1, Idle, o, irps, EMPTY, EMPTY, 0, 1, count) && Reachable(s)
  {
    hide Inv, WellFormed, Reachable;
    s := PostLocks(o, irps, count);
    s := PostFindsNone(o, irps, count);
    s := Next(s, Go(1, true, 0));
  }

  // A control event stays queued beside a pending event IRP, with every thread idle.
  lemma EventRace() returns (s: State)
    ensures Reachable(s) && |s.irps| == 1 && |s.ctxs| == 1
    ensures forall t :: 0 <= t < |s.threads| ==> s.threads[t] == Idle
    ensures s.ctxs[0].events > 0 && s.ctxs[0].event.list == [0] && s.irps[0].hooked && !s.irps[0].cancel
  {
    hide Inv, WellFormed, Reachable;
    s := Begin();
    s := Dispatch(0, Event, Idle, [], 0, 0);
    assert s == Two(1, Idle, DcPrepare(0, 0), [InHand(Event, 0)], EMPTY, EMPTY, 0, 0, 1);
    s := PostMisses(DcPrepare(0, 0), [InHand(Event, 0)], 1);
    assert s == Two(0, DcPrepare(0, 0), Idle, [] + [InHand(Event, 0)], EMPTY, EMPTY, 0, 1, 1);
    s := Enter(0, Idle, [], Event, 0, 1, 1);
    s := Next(s, Go(0, true, 0));
  }

  // ----- the requeue -----

  // A frame arrives while nobody else drains.
  lemma FrameArrives(o: Pc, irps: seq<Irp>, audio: Queue, count: nat) returns (s: State)
    requires Reachable(Two(1, Idle, o, irps, audio, EMPTY, 0, 0, count))
    ensures s == Two(1, Lock(TryAudio(0, false)), o, irps, audio, EMPTY, 4, 0, count) && Reachable(s)
  {
    hide Inv, WellFormed, Reachable;
    s := FrameStored(o, irps, audio, count);
    s := Next(s, Go(1, true, 0));
  }

  lemma FrameStored(o: Pc, irps: seq<Irp>, audio: Queue, count: nat) returns (s: State)
    requires Reachable(Two(1, Idle, o, irps, audio, EMPTY, 0, 0, count))
    ensures s == Two(1, Loop(TryAudio(0, false)), o, irps, audio, EMPTY, 4, 0, count) && Reachable(s)
  {
    hide Inv, WellFormed, Reachable;
    s := Next(Two(1, Idle, o, irps, audio, EMPTY, 0, 0, count), Produces(1, 0, Produce(4)));
    s := Next(s, Go(1, true, 0));
  }

  // Thread t claims the one IRP of the list.
  lemma Claims(t: nat, d: bool, o: Pc, first: seq<Irp>, ring: nat, count: nat) returns (s: State)
    requires t < 2
    requires Reachable(Two(t, Lock(TryAudio(0, d)), o, first + [Pending(Audio)], EMPTY.(list := [|first|]),
                           EMPTY, ring, 0, count))
    ensures s == Two(t, Claimed(|first|, TryAudio(0, d)), o, first + [Claim(Audio, t)], EMPTY, EMPTY, ring, 0, count)
    ensures Reachable(s)
  {
    hide Inv, WellFormed, Reachable;
    s := Next(Two(t, Lock(TryAudio(0, d)), o, first + [Pending(Audio)], EMPTY.(list := [|first|]),
                  EMPTY, ring, 0, count),
              Go(t, true, 0));
    assert s == Two(t, Dequeue(TryAudio(0, d)), o, first + [Pending(Audio)], Queue([|first|], Some(t), false), EMPTY,
                    ring, 0, count);
    s := Dequeues(t, d, o, first, ring, count);
  }

  lemma Dequeues(t: nat, d: bool, o: Pc, first: seq<Irp>, ring: nat, count: nat) returns (s: State)
    requires t < 2
    requires Reachable(Two(t, Dequeue(TryAudio(0, d)), o, first + [Pending(Audio)], Queue([|first|], Some(t), false),
                           EMPTY, ring, 0, count))
    ensures s == Two(t, Claimed(|first|, TryAudio(0, d)), o, first + [Claim(Audio, t)], EMPTY, EMPTY, ring, 0, count)
    ensures Reachable(s)
  {
    hide Inv, WellFormed, Reachable;
    s := Next(Two(t, Dequeue(TryAudio(0, d)), o, first + [Pending(Audio)], Queue([|first|], Some(t), false), EMPTY,
                  ring, 0, count), Go(t, true, 0));
    assert s.irps == first + [Claim(Audio, t)];
    assert [|first|][1..] == [];
  }

  // The DPC delivers the frame and finds the ring empty.
  lemma Delivers(o: Pc, count: nat) returns (s: State)
    requires Reachable(Two(1, Claimed(0, TryAudio(0, false)), o, [Claim(Audio, 1)], EMPTY, EMPTY, 4, 0, count + 1))
    ensures s == Two(1, Idle, o, [Delivered()], EMPTY, EMPTY, 0, 0, count)
    ensures Reachable(s)
  {
    hide Inv, WellFormed, Reachable;
    s := Copies(o, count);
    s := Next(s, Go(1, true, 0));
    s := Next(s, Go(1, true, 0));
  }

  function Delivered(): Irp {
    Claim(Audio, 1).(done := true, refd := false, owner := Gone)
  }

  lemma Copies(o: Pc, count: nat) returns (s: State)
    requires Reachable(Two(1, Claimed(0, TryAudio(0, false)), o, [Claim(Audio, 1)], EMPTY, EMPTY, 4, 0, count + 1))
    ensures s == Two(1, Unref(0, Continue(TryAudio(0, false))), o, [Claim(Audio, 1).(done := true)], EMPTY, EMPTY,
                     0, 0, count + 1)
    ensures Reachable(s)
  {
    hide Inv, WellFormed, Reachable;
    s := Reads(o, count);
    s := Next(s, Go(1, true, 0));
  }

  lemma Reads(o: Pc, count: nat) returns (s: State)
    requires Reachable(Two(1, Claimed(0, TryAudio(0, false)), o, [Claim(Audio, 1)], EMPTY, EMPTY, 4, 0, count + 1))
    ensures s == Two(1, Complete(0, Continue(TryAudio(0, false))), o, [Claim(Audio, 1)], EMPTY, EMPTY, 0, 0, count + 1)
    ensures Reachable(s)
  {
    hide Inv, WellFormed, Reachable;
    s := Next(Two(1, Claimed(0, TryAudio(0, false)), o, [Claim(Audio, 1)], EMPTY, EMPTY, 4, 0, count + 1),
      Go(1, true, 4));
  }

  // The DPC finds the list empty while the requeue is under way.
  lemma Misses(o: Pc, irps: seq<Irp>, count: nat) returns (s: State)
    requires Reachable(Two(1, Lock(TryAudio(0, false)), o, irps, EMPTY, EMPTY, 4, 0, count))
    ensures s == Two(1, Idle, o, irps, EMPTY, EMPTY, 4, 0, count) && Reachable(s)
  {
    hide Inv, WellFormed, Reachable;
    s := Next(Two(1, Lock(TryAudio(0, false)), o, irps, EMPTY, EMPTY, 4, 0, count), Go(1, true, 0));
    s := Next(s, Go(1, true, 0));
  }

  // The dispatcher puts the IRP back and returns.
  lemma Requeues(first: seq<Irp>, count: nat) returns (s: State)
    requires var again := Enqueue(Locking, |first|, 0, Audio, Continue(TryAudio(0, true)));
      Reachable(Two(0, again, Idle, first + [Claim(Audio, 0)], EMPTY, EMPTY, 4, 0, count + 1))
    ensures s == Two(0, Idle, Idle, first + [Pending(Audio)], EMPTY.(list := [|first|]), EMPTY, 4, 0, count)
    ensures Reachable(s)
  {
    hide Inv, WellFormed, Reachable;
    s := Rehooks(first, count);
    s := Next(s, Go(0, true, 0));
    s := Next(s, Go(0, true, 0));
    s := Next(s, Go(0, true, 0));
    assert s.irps == first + [Pending(Audio)];
    assert [|first|] + [] == [|first|];
  }

  lemma Rehooks(first: seq<Irp>, count: nat) returns (s: State)
    requires var again := Enqueue(Locking, |first|, 0, Audio, Continue(TryAudio(0, true)));
      Reachable(Two(0, again, Idle, first + [Claim(Audio, 0)], EMPTY, EMPTY, 4, 0, count + 1))
    ensures s == Two(0, Enqueue(Testing, |first|, 0, Audio, Continue(TryAudio(0, true))), Idle,
                     first + [Claim(Audio, 0).(hooked := true)], EMPTY.(lock := Some(0)), EMPTY, 4, 0, count + 1)
    ensures Reachable(s)
  {
    hide Inv, WellFormed, Reachable;
    var again := Enqueue(Locking, |first|, 0, Audio, Continue(TryAudio(0, true)));
    s := Next(Two(0, again, Idle, first + [Claim(Audio, 0)], EMPTY, EMPTY, 4, 0, count + 1), Go(0, true, 0));
    s := Next(s, Go(0, true, 0));
    assert s.irps == first + [Claim(Audio, 0).(hooked := true)];
  }

  // A frame stays in the ring beside a pending audio IRP, with every thread idle.
  lemma RequeueRace() returns (s: State)
    ensures Reachable(s) && |s.irps| == 2 && |s.ctxs| == 1
    ensures forall t :: 0 <= t < |s.threads| ==> s.threads[t] == Idle
    ensures s.ctxs[0].ring >= FRAME_BYTES && s.ctxs[0].audio.list == [1] && s.irps[1].hooked && !s.irps[1].cancel
  {
    hide Inv, WellFormed, Reachable;
    s := Begin();
    s := Dispatch(0, Audio, Idle, [], 0, 0);
    s := Enter(0, Idle, [], Audio, 0, 0, 1);
    var waits := Loop(TryAudio(0, true));
    assert s == Two(1, Idle, waits, [Pending(Audio)], EMPTY.(list := [0]), EMPTY, 0, 0, 2);
    s := FrameArrives(waits, [Pending(Audio)], EMPTY.(list := [0]), 2);
    s := Next(s, Go(0, true, 0));
    var looks := Lock(TryAudio(0, true));
    assert s == Two(1, Lock(TryAudio(0, false)), looks, [] + [Pending(Audio)], EMPTY.(list := [0]), EMPTY, 4, 0, 2);
    s := Claims(1, false, looks, [], 4, 2);
    assert s == Two(1, Claimed(0, TryAudio(0, false)), looks, [Claim(Audio, 1)], EMPTY, EMPTY, 4, 0, 2);
    s := Delivers(looks, 1);
    s := SecondRound(s.irps);
  }

  // A second IRP comes while the ring is empty, and the dispatcher of the first claims it.
  lemma SecondRound(irps: seq<Irp>) returns (s: State)
    requires |irps| == 1
    requires Reachable(Two(1, Idle, Lock(TryAudio(0, true)), irps, EMPTY, EMPTY, 0, 0, 1))
    ensures Reachable(s) && |s.irps| == 2 && |s.ctxs| == 1
    ensures forall t :: 0 <= t < |s.threads| ==> s.threads[t] == Idle
    ensures s.ctxs[0].ring >= FRAME_BYTES && s.ctxs[0].audio.list == [1] && s.irps[1].hooked && !s.irps[1].cancel
  {
    hide Inv, WellFormed, Reachable;
    var looks := Lock(TryAudio(0, true));
    s := Dispatch(1, Audio, looks, irps, 0, 1);
    s := Enter(1, looks, irps, Audio, 0, 0, 2);
    s := Next(s, Go(1, true, 0));
    s := Next(s, Go(1, true, 0));
    assert s == Two(0, looks, Idle, irps + [Pending(Audio)], EMPTY.(list := [1]), EMPTY, 0, 0, 2);
    s := Claims(0, true, Idle, irps, 0, 2);
    s := Next(s, Go(0, true, 4));
    var again := Enqueue(Locking, 1, 0, Audio, Continue(TryAudio(0, true)));
    assert s == Two(1, Idle, again, irps + [Claim(Audio, 0)], EMPTY, EMPTY, 0, 0, 2);
    s := FrameArrives(again, irps + [Claim(Audio, 0)], EMPTY, 2);
    s := Misses(again, irps + [Claim(Audio, 0)], 2);
    assert s == Two(0, again, Idle, irps + [Claim(Audio, 0)], EMPTY, EMPTY, 4, 0, 2);
    s := Requeues(irps, 1);
  }
}
