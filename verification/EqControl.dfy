/**
 The hand-off of equalizer curves between the editors, the design worker and
 the audio thread, as a transition system. One step is one lock section or one
 atomic operation. A worker thread can always be started.
 */
module EqControl {
  import opened Common

  // What a settings value is does not matter here.
  type Settings = nat

  // EqControl::request
  datatype Editor = Resting | Swapping | Spawning

  // design_worker and design_pending
  datatype Worker =
    | Taking                     // about to take the pending request
    | Designing(s: Settings)
    | Putting(s: Settings)       // about to fill the ready slot
    | Raising                    // about to raise the ready flag
    | Clearing                   // about to clear worker_running
    | Rechecking
    | Reswapping
    | Finished

  // take_ready
  datatype Audio = Playing | Saw | Locked | Cleared

  // Who owns the right to design (auxiliary).
  datatype Token = Nobody | Edit(e: nat) | Work(w: nat)

  datatype State = State(
    editors: seq<Editor>,
    workers: seq<Worker>,
    audio: Audio,
    request: Option<Settings>,
    running: bool,              // worker_running
    ready: Option<Settings>,
    flag: bool,                 // ready_flag
    report: Option<Settings>,
    token: Token,               // auxiliary
    latest: Option<Settings>,   // auxiliary: the last request made
    published: Option<Settings>,// auxiliary: the last design put into the slot
    heard: Option<Settings>)    // auxiliary: the last design the audio thread took

  function Start(editors: nat): State {
    State(seq(editors, _ => Resting), [], Playing, None, false, None, false, None, Nobody, None, None, None)
  }

  datatype Step =
    | Request(e: nat, s: Settings)
    | Swap(e: nat)
    | Spawn(e: nat)
    | Go(w: nat)
    | Hear(contended: bool)

  predicate Enabled(s: State, step: Step) {
    match step
    case Request(e, _) => e < |s.editors| && s.editors[e] == Resting
    case Swap(e) => e < |s.editors| && s.editors[e] == Swapping
    case Spawn(e) => e < |s.editors| && s.editors[e] == Spawning
    case Go(w) => w < |s.workers| && s.workers[w] != Finished && (s.workers[w].Putting? ==> !SlotLocked(s))
    case Hear(_) => true
  }

  // The audio thread is inside its lock section on the ready slot.
  predicate SlotLocked(s: State) {
    s.audio == Locked || s.audio == Cleared
  }

  function Edited(s: State, e: nat, to: Editor): State
    requires e < |s.editors|
  {
    s.(editors := s.editors[e := to])
  }

  function Worked(s: State, w: nat, to: Worker): State
    requires w < |s.workers|
  {
    s.(workers := s.workers[w := to])
  }

  function GoStep(s: State, w: nat): State
    requires Enabled(s, Go(w))
  {
    match s.workers[w]
    case Taking =>
      if s.request.Some? then Worked(s.(request := None), w, Designing(s.request.value))
      else Worked(s, w, Clearing)
    case Designing(d) => Worked(s.(report := Some(d)), w, Putting(d))
    case Putting(d) => Worked(s.(ready := Some(d), published := Some(d)), w, Raising)
    case Raising => Worked(s.(flag := true), w, Taking)
    case Clearing => Worked(s.(running := false, token := Nobody), w, Rechecking)
    case Rechecking => Worked(s, w, if s.request.None? then Finished else Reswapping)
    case Reswapping =>
      if s.running then Worked(s, w, Finished)
      else Worked(s.(running := true, token := Work(w)), w, Taking)
    case Finished => s
  }

  function HearStep(s: State, contended: bool): State {
    match s.audio
    case Playing => if s.flag then s.(audio := Saw) else s
    case Saw => if contended then s.(audio := Playing) else s.(audio := Locked)
    case Locked => s.(flag := false, audio := Cleared)
    case Cleared => s.(ready := None, audio := Playing, heard := if s.ready.Some? then s.ready else s.heard)
  }

  function Apply(s: State, step: Step): State
    requires Enabled(s, step)
  {
    match step
    case Request(e, x) => Edited(s.(request := Some(x), latest := Some(x)), e, Swapping)
    case Swap(e) =>
      if s.running then Edited(s, e, Resting)
      else Edited(s.(running := true, token := Edit(e)), e, Spawning)
    case Spawn(e) => Edited(s.(workers := s.workers + [Taking], token := Work(|s.workers|)), e, Resting)
    case Go(w) => GoStep(s, w)
    case Hear(contended) => HearStep(s, contended)
  }

  ghost predicate Run(s: State, steps: seq<Step>, s': State)
    decreases |steps|
  {
    if steps == [] then s' == s
    else Enabled(s, steps[0]) && Run(Apply(s, steps[0]), steps[1..], s')
  }

  // ----- the invariant -----

  // The worker may design.
  predicate Holds(w: Worker) {
    w.Taking? || w.Designing? || w.Putting? || w.Raising? || w.Clearing?
  }

  predicate TokenOk(s: State) {
    && (s.running <==> s.token != Nobody)
    && (forall e :: 0 <= e < |s.editors| ==> (s.editors[e] == Spawning <==> s.token == Edit(e)))
    && (forall w :: 0 <= w < |s.workers| ==> (Holds(s.workers[w]) <==> s.token == Work(w)))
    && (s.token.Edit? ==> s.token.e < |s.editors|)
    && (s.token.Work? ==> s.token.w < |s.workers|)
  }

  // Somebody will still look at a pending request.
  predicate Watched(s: State) {
    || s.running
    || (exists e :: 0 <= e < |s.editors| && s.editors[e] == Swapping)
    || (exists w :: 0 <= w < |s.workers| && (s.workers[w] == Rechecking || s.workers[w] == Reswapping))
  }

  // The design that the owner of the token has in hand.
  function InHand(s: State): Option<Settings> {
    if s.token.Work? && s.token.w < |s.workers| then
      match s.workers[s.token.w]
      case Designing(d) => Some(d)
      case Putting(d) => Some(d)
      case _ => None
    else None
  }

  // A publisher is between its two stores.
  predicate Publishing(s: State) {
    s.token.Work? && s.token.w < |s.workers| && s.workers[s.token.w] == Raising
  }

  // A pending request is the latest, and watched.
  predicate RequestOk(s: State) {
    s.request.Some? ==> Watched(s) && s.request == s.latest
  }

  // The latest request is pending, in hand, or published.
  predicate LatestOk(s: State) {
    && (s.request.None? ==> if InHand(s).Some? then InHand(s) == s.latest else s.published == s.latest)
    && (s.latest.None? ==> s.request.None? && InHand(s).None? && s.published.None?)
  }

  // What was published last is in the slot or heard; a filled slot shows in the flag.
  predicate SlotOk(s: State) {
    && (if s.ready.Some? then s.ready == s.published else s.heard == s.published)
    && (s.ready.Some? && !s.flag ==> Publishing(s) || s.audio == Cleared)
  }

  predicate Inv(s: State) {
    TokenOk(s) && RequestOk(s) && LatestOk(s) && SlotOk(s)
  }

  lemma StartInv(editors: nat)
    ensures Inv(Start(editors))
  {
  }

  lemma RequestKeeps(s: State, e: nat, x: Settings)
    requires Inv(s) && Enabled(s, Request(e, x))
    ensures Inv(Apply(s, Request(e, x)))
  {
    var s' := Apply(s, Request(e, x));
    assert s'.editors[e] == Swapping;
  }

  lemma SwapKeeps(s: State, e: nat)
    requires Inv(s) && Enabled(s, Swap(e))
    ensures Inv(Apply(s, Swap(e)))
  {
  }

  lemma SpawnKeeps(s: State, e: nat)
    requires Inv(s) && Enabled(s, Spawn(e))
    ensures Inv(Apply(s, Spawn(e)))
  {
  }

  lemma GoKeepsToken(s: State, w: nat)
    requires Inv(s) && Enabled(s, Go(w))
    ensures TokenOk(GoStep(s, w))
  {
    hide RequestOk, LatestOk, SlotOk;
  }

  lemma GoKeepsRequest(s: State, w: nat)
    requires Inv(s) && Enabled(s, Go(w))
    ensures RequestOk(GoStep(s, w))
  {
    hide LatestOk, SlotOk;
    var s' := GoStep(s, w);
    if s'.request.Some? && !s'.running {
      if s.workers[w] == Clearing {
        assert s'.workers[w] == Rechecking;
      } else if s.workers[w] == Rechecking {
        assert s'.workers[w] == Reswapping;
      } else {
        OthersWatch(s, s', w);
      }
    }
  }

  // A worker that is not about to look leaves those who are.
  lemma OthersWatch(s: State, s': State, w: nat)
    requires w < |s.workers| == |s'.workers| && s'.editors == s.editors && !s.running && Watched(s)
    requires s.workers[w] != Rechecking && s.workers[w] != Reswapping
    requires forall v :: 0 <= v < |s.workers| && v != w ==> s'.workers[v] == s.workers[v]
    ensures Watched(s')
  {
    if v :| 0 <= v < |s.workers| && (s.workers[v] == Rechecking || s.workers[v] == Reswapping) {
      assert s'.workers[v] == s.workers[v];
    }
  }

  lemma GoKeepsLatest(s: State, w: nat)
    requires Inv(s) && Enabled(s, Go(w))
    ensures LatestOk(GoStep(s, w))
  {
    hide SlotOk, Watched;
    assert Holds(s.workers[w]) ==> s.token == Work(w);
  }

  lemma GoKeepsSlot(s: State, w: nat)
    requires Inv(s) && Enabled(s, Go(w))
    ensures SlotOk(GoStep(s, w))
  {
    hide RequestOk, LatestOk;
    assert Holds(s.workers[w]) ==> s.token == Work(w);
  }

  lemma GoKeeps(s: State, w: nat)
    requires Inv(s) && Enabled(s, Go(w))
    ensures Inv(Apply(s, Go(w)))
  {
    hide TokenOk, RequestOk, LatestOk, SlotOk;
    GoKeepsToken(s, w);
    GoKeepsRequest(s, w);
    GoKeepsLatest(s, w);
    GoKeepsSlot(s, w);
  }

  // The audio thread leaves the editors and workers alone.
  lemma HearKeepsOthers(s: State, s': State)
    requires TokenOk(s) && RequestOk(s) && LatestOk(s)
    requires s' == s.(audio := s'.audio, ready := s'.ready, flag := s'.flag, heard := s'.heard)
    ensures TokenOk(s') && RequestOk(s') && LatestOk(s')
  {
    hide Holds;
    assert InHand(s') == InHand(s);
    assert Watched(s) ==> Watched(s');
  }

  lemma HearKeeps(s: State, contended: bool)
    requires Inv(s)
    ensures Inv(Apply(s, Hear(contended)))
  {
    hide TokenOk, RequestOk, LatestOk;
    HearKeepsOthers(s, HearStep(s, contended));
  }

  lemma StepKeeps(s: State, step: Step)
    requires Inv(s) && Enabled(s, step)
    ensures Inv(Apply(s, step))
  {
    hide Inv, Apply;
    match step
    case Request(e, x) => RequestKeeps(s, e, x);
    case Swap(e) => SwapKeeps(s, e);
    case Spawn(e) => SpawnKeeps(s, e);
    case Go(w) => GoKeeps(s, w);
    case Hear(contended) => HearKeeps(s, contended);
  }

  lemma {:induction false} RunKeeps(s: State, steps: seq<Step>, s': State)
    requires Inv(s) && Run(s, steps, s')
    ensures Inv(s')
    decreases |steps|
  {
    hide Inv, Apply, Enabled;
    if steps != [] {
      StepKeeps(s, steps[0]);
      RunKeeps(Apply(s, steps[0]), steps[1..], s');
    }
  }

  ghost predicate Reachable(s: State) {
    exists n: nat, steps :: Run(Start(n), steps, s)
  }

  lemma ReachableInv(s: State)
    requires Reachable(s)
    ensures Inv(s)
  {
    var n: nat, steps :| Run(Start(n), steps, s);
    StartInv(n);
    RunKeeps(Start(n), steps, s);
  }

  // ----- the theorems -----

  // At most one thread designs at a time.
  lemma OneDesigner(s: State, v: nat, w: nat)
    requires Reachable(s) && v < |s.workers| && w < |s.workers|
    requires Holds(s.workers[v]) && Holds(s.workers[w])
    ensures v == w
  {
    ReachableInv(s);
  }

  predicate Quiet(s: State) {
    && (forall e :: 0 <= e < |s.editors| ==> s.editors[e] == Resting)
    && (forall w :: 0 <= w < |s.workers| ==> s.workers[w] == Finished)
  }

  lemma OwnerAtWork(s: State)
    requires TokenOk(s)
    ensures s.token.Work? ==> s.token.w < |s.workers| && Holds(s.workers[s.token.w])
    ensures s.token.Edit? ==> s.token.e < |s.editors| && s.editors[s.token.e] == Spawning
  {
  }

  // No request is lost: when nobody is at work, none is pending, and the last one
  // made was designed and put into the slot, or has been heard already.
  lemma NoRequestLost(s: State)
    requires Reachable(s) && Quiet(s)
    ensures s.request == None && !s.running
    ensures s.published == s.latest && (s.ready == s.latest || s.heard == s.latest)
  {
    ReachableInv(s);
    OwnerAtWork(s);
  }

  // A filled slot shows in the flag, except between the two stores of a publisher
  // or between the two of the audio thread itself.
  lemma SlotShows(s: State)
    requires Reachable(s) && s.ready.Some? && !s.flag
    ensures s.audio == Cleared || exists w :: 0 <= w < |s.workers| && s.workers[w] == Raising
  {
    ReachableInv(s);
    if s.audio != Cleared { assert s.workers[s.token.w] == Raising; }
  }

  // So, once nobody is at work and the audio thread looks undisturbed, it has the
  // latest request within four steps.
  lemma AudioGetsLatest(s: State)
    requires Reachable(s) && Quiet(s) && s.audio == Playing && s.latest.Some?
    ensures var t := HearStep(HearStep(HearStep(HearStep(s, false), false), false), false);
      t.heard == s.latest
  {
    hide Inv;
    NoRequestLost(s);
    if s.ready.Some? && !s.flag { SlotShows(s); }
    ReadyOrHeard(s);
  }

  lemma ReadyOrHeard(s: State)
    requires Reachable(s)
    ensures s.ready.Some? ==> s.ready == s.published
    ensures s.ready.None? ==> s.heard == s.published
  {
    ReachableInv(s);
  }
}
