/**
 The published topology miniport: a pointer with its own reference, read by
 volume forwarders under a rundown, replaced and withdrawn by the PnP thread.
 One step is one interlocked or rundown operation.
 */
module Topology {
  import opened Common

  // `others` are the references besides that of the publication.
  datatype Miniport = Miniport(others: nat, publication: bool, volume: int, muted: bool)

  predicate Released(m: Miniport) {
    m.others == 0 && !m.publication
  }

  // TopologyForwardExternalVolume
  datatype Forwarder =
    | Outside
    | Inside                 // holds a rundown reference, has not read the pointer
    | Using(m: nat)
    | Leaving

  // TopologyWithdraw, alone or at the head of TopologyPublish (`next`).
  datatype Pnp =
    | Resting
    | Clearing(next: Option<nat>)
    | Waiting(was: Option<nat>, next: Option<nat>)
    | Draining(was: Option<nat>, next: Option<nat>)
    | Rearming(was: Option<nat>, next: Option<nat>)
    | Releasing(was: Option<nat>, next: Option<nat>)
    | Referencing(m: nat)
    | Storing(m: nat)

  datatype State = State(
    miniports: seq<Miniport>,
    forwarders: seq<Forwarder>,
    pnp: Pnp,
    published: Option<nat>,
    rundown: bool,          // acquiring fails
    count: nat,             // rundown references
    fault: bool)            // a released miniport was used, or a reference dropped twice

  datatype Step =
    | Start                 // a START creates a miniport and publishes it
    | Stop                  // STOP, SURPRISE_REMOVAL and REMOVE withdraw
    | DropOther(m: nat)     // PortCls lets go of a miniport
    | Manage                // the PnP thread goes on
    | Forward(f: nat, mb: int, muted: bool)

  function Fresh(n: nat): State {
    State([], seq(n, _ => Outside), Resting, None, false, 0, false)
  }

  // The miniport the PnP thread is about to publish, on which it has a reference.
  function Coming(p: Pnp): Option<nat> {
    match p
    case Clearing(next) => next
    case Waiting(_, next) => next
    case Draining(_, next) => next
    case Rearming(_, next) => next
    case Releasing(_, next) => next
    case Referencing(next) => Some(next)
    case Storing(next) => Some(next)
    case Resting => None
  }

  function Going(p: Pnp): Option<nat> {
    match p
    case Waiting(was, _) => was
    case Draining(was, _) => was
    case Rearming(was, _) => was
    case Releasing(was, _) => was
    case _ => None
  }

  predicate InRange(s: State) {
    && (Coming(s.pnp).Some? ==> Coming(s.pnp).value < |s.miniports|)
    && (Going(s.pnp).Some? ==> Going(s.pnp).value < |s.miniports|)
    && (s.published.Some? ==> s.published.value < |s.miniports|)
    && (forall f :: 0 <= f < |s.forwarders| ==> s.forwarders[f].Using? ==> s.forwarders[f].m < |s.miniports|)
  }

  predicate Enabled(s: State, step: Step) {
    match step
    case Start => s.pnp == Resting
    case Stop => s.pnp == Resting
    case DropOther(m) => m < |s.miniports| && s.miniports[m].others > 0 && Coming(s.pnp) != Some(m)
    case Manage => s.pnp != Resting && (s.pnp.Draining? ==> s.count == 0)
    case Forward(f, _, _) => f < |s.forwarders|
  }

  function AfterWithdraw(next: Option<nat>): Pnp {
    if next.Some? then Referencing(next.value) else Resting
  }

  function ManageStep(s: State): State
    requires InRange(s)
  {
    match s.pnp
    case Resting => s
    case Clearing(next) => s.(published := None, pnp := Waiting(s.published, next))
    case Waiting(was, next) => s.(rundown := true, pnp := Draining(was, next))
    case Draining(was, next) => s.(pnp := Rearming(was, next))
    case Rearming(was, next) => s.(rundown := false, count := 0, pnp := Releasing(was, next))
    case Releasing(was, next) =>
      if was.None? then s.(pnp := AfterWithdraw(next))
      else
        var m := was.value;
        s.(miniports := s.miniports[m := s.miniports[m].(publication := false)], pnp := AfterWithdraw(next),
           fault := s.fault || !s.miniports[m].publication)
    case Referencing(m) =>
      s.(miniports := s.miniports[m := s.miniports[m].(publication := true)], pnp := Storing(m),
         fault := s.fault || Released(s.miniports[m]) || s.miniports[m].publication)
    case Storing(m) => s.(published := Some(m), pnp := Resting)
  }

  function ForwardStep(s: State, f: nat, mb: int, muted: bool): State
    requires InRange(s) && f < |s.forwarders|
  {
    match s.forwarders[f]
    case Outside =>
      if s.rundown then s else s.(count := s.count + 1, forwarders := s.forwarders[f := Inside])
    case Inside =>
      s.(forwarders := s.forwarders[f := if s.published.Some? then Using(s.published.value) else Leaving])
    case Using(m) =>
      s.(forwarders := s.forwarders[f := Leaving],
         miniports := s.miniports[m := s.miniports[m].(volume := mb, muted := muted)],
         fault := s.fault || Released(s.miniports[m]))
    case Leaving =>
      s.(forwarders := s.forwarders[f := Outside], count := if s.count == 0 then 0 else s.count - 1,
         fault := s.fault || s.count == 0)
  }

  function Apply(s: State, step: Step): State
    requires InRange(s) && Enabled(s, step)
  {
    match step
    case Start => s.(miniports := s.miniports + [Miniport(1, false, 0, false)], pnp := Clearing(Some(|s.miniports|)))
    case Stop => s.(pnp := Clearing(None))
    case DropOther(m) => s.(miniports := s.miniports[m := s.miniports[m].(others := s.miniports[m].others - 1)])
    case Manage => ManageStep(s)
    case Forward(f, mb, muted) => ForwardStep(s, f, mb, muted)
  }

  ghost predicate Run(s: State, steps: seq<Step>, s': State)
    decreases |steps|
  {
    if steps == [] then s' == s
    else InRange(s) && Enabled(s, steps[0]) && Run(Apply(s, steps[0]), steps[1..], s')
  }

  // ----- the invariant -----

  function Within(forwarders: seq<Forwarder>): nat {
    if forwarders == [] then 0
    else Within(forwarders[..|forwarders| - 1]) + (if forwarders[|forwarders| - 1] == Outside then 0 else 1)
  }

  // A forwarder may have miniport m in hand.
  predicate Readable(s: State, m: nat) {
    s.published == Some(m) || ((s.pnp.Waiting? || s.pnp.Draining?) && s.pnp.was == Some(m))
  }

  // The publication's reference is held exactly on the published miniport and on
  // the one being withdrawn, and just before the store on the one to come.
  predicate RefsOk(s: State) {
    forall m :: 0 <= m < |s.miniports| ==>
      (s.miniports[m].publication <==>
         s.published == Some(m) || Going(s.pnp) == Some(m) || s.pnp == Storing(m))
  }

  predicate PnpOk(s: State) {
    && (s.pnp != Resting && !s.pnp.Clearing? ==> s.published == None)
    && (s.rundown <==> s.pnp.Draining? || s.pnp.Rearming?)
    && (s.pnp.Rearming? ==> s.count == 0)
    && (Coming(s.pnp).Some? ==> Coming(s.pnp).value < |s.miniports| && s.miniports[Coming(s.pnp).value].others > 0)
    && (Coming(s.pnp).Some? ==> Coming(s.pnp) != s.published && Coming(s.pnp) != Going(s.pnp))
  }

  predicate UsersOk(s: State) {
    forall f :: 0 <= f < |s.forwarders| && s.forwarders[f].Using? ==> Readable(s, s.forwarders[f].m)
  }

  predicate Inv(s: State) {
    !s.fault && InRange(s) && RefsOk(s) && PnpOk(s) && UsersOk(s) && s.count == Within(s.forwarders)
  }

  lemma {:induction false} WithinUpdate(fs: seq<Forwarder>, f: nat, x: Forwarder)
    requires f < |fs|
    ensures Within(fs[f := x]) + (if fs[f] == Outside then 0 else 1) == Within(fs) + (if x == Outside then 0 else 1)
  {
    var n := |fs| - 1;
    if f < n {
      WithinUpdate(fs[..n], f, x);
      assert fs[f := x][..n] == fs[..n][f := x];
    } else {
      assert fs[f := x][..n] == fs[..n];
    }
  }

  lemma {:induction false} NobodyWithin(fs: seq<Forwarder>)
    requires Within(fs) == 0
    ensures forall f :: 0 <= f < |fs| ==> fs[f] == Outside
  {
    if fs != [] {
      NobodyWithin(fs[..|fs| - 1]);
      assert forall f :: 0 <= f < |fs| - 1 ==> fs[f] == fs[..|fs| - 1][f];
    }
  }

  lemma ManageKeeps(s: State)
    requires Inv(s) && Enabled(s, Manage)
    ensures Inv(ManageStep(s))
  {
    hide Within;
    if s.pnp.Draining? || s.pnp.Rearming? { NobodyWithin(s.forwarders); }
  }

  lemma ForwardKeeps(s: State, f: nat, mb: int, muted: bool)
    requires Inv(s) && f < |s.forwarders|
    ensures Inv(ForwardStep(s, f, mb, muted))
  {
    hide Within;
    WithinUpdate(s.forwarders, f, Outside);
    WithinUpdate(s.forwarders, f, ForwardStep(s, f, mb, muted).forwarders[f]);
    assert s.forwarders[f].Using? ==> Readable(s, s.forwarders[f].m);
  }

  lemma OthersKeep(s: State, step: Step)
    requires Inv(s) && Enabled(s, step) && (step.Start? || step.Stop? || step.DropOther?)
    ensures Inv(Apply(s, step))
  {
    hide Within;
  }

  lemma {:induction false} RunKeeps(s: State, steps: seq<Step>, s': State)
    requires Inv(s) && Run(s, steps, s')
    ensures Inv(s')
    decreases |steps|
  {
    hide Inv, ManageStep, ForwardStep, InRange, Enabled;
    if steps != [] {
      match steps[0] {
        case Manage => ManageKeeps(s);
        case Forward(f, mb, muted) =>
          ForwardInRange(s, f, mb, muted);
          ForwardKeeps(s, f, mb, muted);
        case _ => OthersKeep(s, steps[0]);
      }
      RunKeeps(Apply(s, steps[0]), steps[1..], s');
    }
  }

  lemma ForwardInRange(s: State, f: nat, mb: int, muted: bool)
    requires Enabled(s, Forward(f, mb, muted))
    ensures f < |s.forwarders|
  {
  }

  lemma {:induction false} AllOutside(n: nat)
    ensures Within(seq(n, _ => Outside)) == 0
  {
    if n > 0 {
      AllOutside(n - 1);
      assert seq(n, _ => Outside)[..n - 1] == seq(n - 1, _ => Outside);
    }
  }

  ghost predicate Reachable(s: State) {
    exists n: nat, steps :: Run(Fresh(n), steps, s)
  }

  lemma ReachableInv(s: State)
    requires Reachable(s)
    ensures Inv(s)
  {
    var n: nat, steps :| Run(Fresh(n), steps, s);
    AllOutside(n);
    RunKeeps(Fresh(n), steps, s);
  }

  // ----- the theorems -----

  // A forwarded volume never reaches a released miniport.
  lemma NeverReleased(s: State, f: nat)
    requires Reachable(s) && f < |s.forwarders| && s.forwarders[f].Using?
    ensures !s.fault && s.forwarders[f].m < |s.miniports| && !Released(s.miniports[s.forwarders[f].m])
  {
    ReachableInv(s);
    assert Readable(s, s.forwarders[f].m);
  }

  // When the withdrawal drops its reference no forwarder is inside the miniport it
  // withdrew, or can get to it.
  lemma WithdrawnIsUnused(s: State, f: nat)
    requires Reachable(s) && s.pnp.Releasing? && s.pnp.was.Some? && f < |s.forwarders|
    ensures s.forwarders[f] != Using(s.pnp.was.value) && s.published != s.pnp.was
  {
    ReachableInv(s);
  }

  // With nothing under way the publication holds its one reference on the
  // published miniport and on no other: none is leaked.
  lemma NoLeak(s: State, m: nat)
    requires Reachable(s) && s.pnp == Resting && m < |s.miniports|
    ensures s.miniports[m].publication <==> s.published == Some(m)
  {
    ReachableInv(s);
  }
}
