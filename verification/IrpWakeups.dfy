/**
 When a wake-up of the audio side is lost: over whole runs, exactly by a requeue
 that puts an IRP back beside a frame with nobody else about to look.
 */
module IrpWakeups {
  import opened Common
  import opened IrpMachine
  import opened IrpInvariant
  import opened IrpFrame
  import opened IrpTheorems

  // The step links a requeued IRP into its list.
  predicate Requeues(s: State, step: Step) {
    && step.Go? && step.t < |s.threads|
    && s.threads[step.t].Enqueue? && s.threads[step.t].stage == Inserting && s.threads[step.t].after.Continue?
    && s.threads[step.t].c < |s.ctxs| && s.threads[step.t].i < |s.irps|
  }

  // ... while the ring holds a frame, an IRP of the new list can be claimed, and no
  // other thread is about to look.
  predicate LosesWakeup(s: State, step: Step) {
    Requeues(s, step) && BesideFrameUnseen(s, step.t)
  }

  // ----- one step -----

  // Another context than that of a requeue looks the same after it.
  lemma RequeueElsewhere(s: State, step: Step, d: nat)
    requires WellFormed(s) && Enabled(s, step) && Requeues(s, step) && d != s.threads[step.t].c
    requires ViewOf(s.threads[step.t]).checks == None && Flow(s.threads[step.t])
    ensures Tempting(Apply(s, step), d) ==> Tempting(s, d)
    ensures Checked(s, d) ==> Checked(Apply(s, step), d)
  {
    hide ViewOf, WellFormed, CanGo, Flow;
    var s' := Apply(s, step);
    if Tempting(s', d) {
      var j :| j in s'.ctxs[d].audio.list && j < |s'.irps| && s'.irps[j].hooked;
      assert j in s.ctxs[d].audio.list && s.irps[j].hooked;
    }
    if Checked(s, d) {
      var u :| 0 <= u < |s.threads| && ViewOf(s.threads[u]).checks == Some(d);
      assert s'.threads[u] == s.threads[u];
    }
  }

  lemma RequeueUnchecked(pc: Pc)
    requires pc.Enqueue?
    ensures ViewOf(pc).checks == None
  {
  }

  lemma RequeueStep(s: State, step: Step)
    requires Inv(s) && WellFormed(s) && Enabled(s, step) && Woken(s) && Requeues(s, step)
    ensures Woken(Apply(s, step)) <==> !LosesWakeup(s, step)
  {
    hide Inv, WellFormed, ViewOf, Tempting, Checked, CanGo, BesideFrameUnseen;
    var t := step.t;
    assert Apply(s, step) == StepInserting(s, t) by { ThreadInRange(s, t); }
    RequeueIs(s, t);
    RequeueUnchecked(s.threads[t]);
    assert Flow(s.threads[t]) by { Facts(s, t, |s.irps|, |s.ctxs|); }
    forall d | 0 <= d < |s.ctxs| && d != s.threads[t].c && Tempting(Apply(s, step), d)
      ensures Checked(Apply(s, step), d)
    {
      RequeueElsewhere(s, step, d);
    }
  }

  // From a state where nobody waits unseen, a step leads to one where somebody does if
  // and only if it is such a requeue.
  lemma StepWoken(s: State, step: Step)
    requires Inv(s) && WellFormed(s) && Enabled(s, step) && Woken(s)
    ensures Woken(Apply(s, step)) <==> !LosesWakeup(s, step)
  {
    hide Inv, WellFormed, Enabled, Apply, Woken;
    StepKeepsInv(s, step);
    if Requeues(s, step) {
      RequeueStep(s, step);
    } else {
      assert !(step.Go? && RequeuesBesideFrame(s, step.t)) by {
        if step.Go? && RequeuesBesideFrame(s, step.t) { RequeuesInRange(s, step); }
      }
    }
  }

  lemma RequeuesInRange(s: State, step: Step)
    requires WellFormed(s) && step.Go? && RequeuesBesideFrame(s, step.t)
    ensures Requeues(s, step)
  {
    ThreadInRange(s, step.t);
  }

  // ----- runs -----

  // Nobody waits unseen in any state of the run.
  ghost predicate AlwaysWoken(s: State, steps: seq<Step>)
    decreases |steps|
  {
    Woken(s) && (steps != [] && WellFormed(s) && Enabled(s, steps[0]) ==> AlwaysWoken(Apply(s, steps[0]), steps[1..]))
  }

  // No step of the run is such a requeue.
  ghost predicate NeverLoses(s: State, steps: seq<Step>)
    decreases |steps|
  {
    steps != [] && WellFormed(s) && Enabled(s, steps[0]) ==>
      !LosesWakeup(s, steps[0]) && NeverLoses(Apply(s, steps[0]), steps[1..])
  }

  lemma {:induction false} RunWoken(s: State, steps: seq<Step>, s': State)
    requires Inv(s) && Woken(s) && Run(s, steps, s')
    ensures AlwaysWoken(s, steps) <==> NeverLoses(s, steps)
    ensures AlwaysWoken(s, steps) ==> Woken(s')
    decreases |steps|
  {
    hide Inv, Woken, LosesWakeup, WellFormed, Enabled, Apply;
    if steps != [] {
      StepWoken(s, steps[0]);
      StepKeepsInv(s, steps[0]);
      var r := Apply(s, steps[0]);
      if Woken(r) {
        RunWoken(r, steps[1..], s');
      } else {
        assert !AlwaysWoken(r, steps[1..]);
      }
    }
  }

  lemma StartWoken(n: nat)
    ensures Inv(Start0(n)) && Woken(Start0(n))
  {
    StartInv(n);
  }

  // Over every run from the start: audio and an IRP that wait for each other are about
  // to be looked at by some thread, in every state, if and only if no step of the run
  // is a requeue that loses the wake-up.
  lemma NoLostWakeup(n: nat, steps: seq<Step>, s: State)
    requires Run(Start0(n), steps, s)
    ensures AlwaysWoken(Start0(n), steps) <==> NeverLoses(Start0(n), steps)
    ensures NeverLoses(Start0(n), steps) ==> Woken(s)
  {
    hide Inv, Woken, Run;
    StartWoken(n);
    RunWoken(Start0(n), steps, s);
  }

  // So when such a run comes to rest, no claimable IRP waits beside a frame.
  lemma QuietMeansServed(n: nat, steps: seq<Step>, s: State, c: nat, i: nat)
    requires Run(Start0(n), steps, s) && NeverLoses(Start0(n), steps)
    requires c < |s.ctxs| && forall t :: 0 <= t < |s.threads| ==> s.threads[t] == Idle
    ensures s.ctxs[c].ring < FRAME_BYTES || i !in s.ctxs[c].audio.list || i >= |s.irps| || !s.irps[i].hooked
  {
    hide Run, NeverLoses, AlwaysWoken;
    NoLostWakeup(n, steps, s);
    assert !Checked(s, c);
  }
}
