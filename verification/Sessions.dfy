/**
 The speaker session of the service: selecting, disabling, forgetting, the
 watchdog's takes and the volume worker, as a transition system. One step is one
 lock section, one access of an atomic, or the start or stop of a session.
 */
module Sessions {
  import opened Common

  // Where a session is (auxiliary): brought up by a thread and not bound yet, to
  // be stopped by a thread, bound, or stopped.
  datatype Owner = New(t: nat) | Doomed(t: nat) | Cell | Nobody

  // `stops` counts the calls of stop; `number` is set when the session is bound.
  datatype Session = Session(owner: Owner, stops: nat, number: nat)

  datatype Pc =
    | Free
    // select_speaker and select_speaker_async_full, from the claim of `connecting` on
    | Claimed(user: bool)
    | Replacing                         // is the bound session the same device?
    | TakingSame
    | StoppingSame(x: nat)
    | Starting                          // start_upnp and the like
    | Placing(x: nat)                   // takes the old session, under the session lock
    | StoppingOld(x: nat, was: nat)
    | Relocking(x: nat)
    | Deciding(x: nat)                  // the session lock is held
    | Binding(x: nat)                   // held, and streaming was seen enabled
    | Refusing(x: nat)                  // held, not to be bound
    | StoppingNew(x: nat)
    | Releasing
    // Disable and Forget, after their store of the flag
    | Disabling
    // Disable, Forget, the watchdog, removal of a manual speaker: stop what was taken
    | StoppingTaken(x: nat)
    // SpeakerControl::send
    | Queueing(number: nat)             // has loaded the number for its command
    // run_speaker_control
    | Sending(number: nat)              // popped a command queued for that number
    | Commanding(number: nat, x: nat)   // has the volume control of session x

  // A command that went out: the number it was queued for, and the session it went through.
  datatype Sent = Sent(number: nat, x: nat)

  datatype State = State(
    threads: seq<Pc>,
    sessions: seq<Session>,
    cell: Option<nat>,       // App::session
    lock: Option<nat>,       // its mutex, when held over several steps
    connecting: bool,        // the `connecting` slot is taken
    enabled: bool,           // streaming_enabled
    number: nat,             // SpeakerControl's session number
    queue: seq<nat>,         // numbers of the queued commands
    sent: seq<Sent>)         // auxiliary

  function Fresh(threads: nat): State {
    State(seq(threads, _ => Free), [], None, None, false, true, 0, [], [])
  }

  datatype Step =
    | Select(t: nat, user: bool)
    | Disable(t: nat)
    | Enable(t: nat)
    | Forget(t: nat)
    | TakeSession(t: nat)    // the watchdog and the removal of a manual speaker, when they decide to
    | QueueCommand(t: nat)
    | PopCommand(t: nat)
    | Go(t: nat, yes: bool)

  // The step needs the session lock.
  predicate NeedsLock(pc: Pc) {
    pc.Replacing? || pc.TakingSame? || pc.Placing? || pc.Relocking? || pc.Disabling? || pc.Sending?
  }

  predicate Enabled(s: State, step: Step) {
    match step
    case Select(t, _) => t < |s.threads| && s.threads[t] == Free && !s.connecting
    case Disable(t) => t < |s.threads| && s.threads[t] == Free
    case Enable(t) => t < |s.threads| && s.threads[t] == Free
    case Forget(t) => t < |s.threads| && s.threads[t] == Free
    case TakeSession(t) => t < |s.threads| && s.threads[t] == Free && s.lock == None
    case QueueCommand(t) => t < |s.threads| && s.threads[t] == Free
    case PopCommand(t) => t < |s.threads| && s.threads[t] == Free && s.queue != []
    case Go(t, _) => t < |s.threads| && s.threads[t] != Free && (NeedsLock(s.threads[t]) ==> s.lock == None)
  }

  function To(s: State, t: nat, pc: Pc): State
    requires t < |s.threads|
  {
    s.(threads := s.threads[t := pc])
  }

  function Owned(s: State, x: nat, o: Owner): State {
    if x < |s.sessions| then s.(sessions := s.sessions[x := s.sessions[x].(owner := o)]) else s
  }

  function Stopped(s: State, x: nat): State {
    if x < |s.sessions| then
      s.(sessions := s.sessions[x := s.sessions[x].(owner := Nobody, stops := s.sessions[x].stops + 1)])
    else s
  }

  // The bound session, taken to be stopped by thread t.
  function Taken(s: State, t: nat): State
    requires s.cell.Some?
  {
    Owned(s.(cell := None), s.cell.value, Doomed(t))
  }

  // bind_session, and the session lock is released.
  function Bound(s: State, x: nat): State {
    var u := s.(cell := Some(x), number := s.number + 1, lock := None);
    if x < |s.sessions| then u.(sessions := s.sessions[x := s.sessions[x].(owner := Cell, number := s.number + 1)])
      else u
  }

  function GoStep(s: State, t: nat, yes: bool): State
    requires Enabled(s, Go(t, yes))
  {
    match s.threads[t]
    case Free => s
    case Claimed(user) => To(if user then s.(enabled := true) else s, t, if yes then Replacing else Releasing)
    case Replacing => To(s, t, if s.cell.Some? && yes then TakingSame else Starting)
    case TakingSame =>
      if s.cell.None? then To(s, t, Starting) else To(Taken(s, t), t, StoppingSame(s.cell.value))
    case StoppingSame(x) => To(Stopped(s, x), t, Starting)
    case Starting =>
      if yes then To(s.(sessions := s.sessions + [Session(New(t), 0, 0)]), t, Placing(|s.sessions|))
      else To(s, t, Releasing)
    case Placing(x) =>
      if s.cell.None? then To(s.(lock := Some(t)), t, Deciding(x))
      else To(Taken(s, t), t, StoppingOld(x, s.cell.value))
    case StoppingOld(x, y) => To(Stopped(s, y), t, Relocking(x))
    case Relocking(x) => To(s.(lock := Some(t)), t, Deciding(x))
    case Deciding(x) => To(s, t, if s.enabled && yes then Binding(x) else Refusing(x))
    case Binding(x) => To(Bound(s, x), t, Releasing)
    case Refusing(x) => To(Owned(s.(lock := None), x, Doomed(t)), t, StoppingNew(x))
    case StoppingNew(x) => To(Stopped(s, x), t, Releasing)
    case Releasing => To(s.(connecting := false), t, Free)
    case Disabling =>
      if s.cell.None? then To(s, t, Free) else To(Taken(s, t), t, StoppingTaken(s.cell.value))
    case StoppingTaken(x) => To(Stopped(s, x), t, Free)
    case Queueing(n) => To(s.(queue := s.queue + [n]), t, Free)
    case Sending(n) =>
      if s.number != n || s.cell.None? || !yes then To(s, t, Free) else To(s, t, Commanding(n, s.cell.value))
    case Commanding(n, x) => To(s.(sent := s.sent + [Sent(n, x)]), t, Free)
  }

  function Apply(s: State, step: Step): State
    requires Enabled(s, step)
  {
    match step
    case Select(t, user) => To(s.(connecting := true), t, Claimed(user))
    case Disable(t) => if s.enabled then To(s.(enabled := false), t, Disabling) else s
    case Enable(_) => s.(enabled := true)
    case Forget(t) => To(s.(enabled := false), t, Disabling)
    case TakeSession(t) => if s.cell.None? then s else To(Taken(s, t), t, StoppingTaken(s.cell.value))
    case QueueCommand(t) => To(s, t, Queueing(s.number))
    case PopCommand(t) => To(s.(queue := s.queue[1..]), t, Sending(s.queue[0]))
    case Go(t, yes) => GoStep(s, t, yes)
  }

  ghost predicate Run(s: State, steps: seq<Step>, s': State)
    decreases |steps|
  {
    if steps == [] then s' == s
    else Enabled(s, steps[0]) && Run(Apply(s, steps[0]), steps[1..], s')
  }

  // ----- the invariant -----

  // The thread is inside a select.
  predicate Selecting(pc: Pc) {
    pc.Claimed? || pc.Replacing? || pc.TakingSame? || pc.StoppingSame? || pc.Starting? || pc.Placing?
    || pc.StoppingOld? || pc.Relocking? || pc.Deciding? || pc.Binding? || pc.Refusing? || pc.StoppingNew?
    || pc.Releasing?
  }

  predicate HoldsLock(pc: Pc) {
    pc.Deciding? || pc.Binding? || pc.Refusing?
  }

  // The old session is gone and the new one not bound.
  predicate Between(pc: Pc) {
    pc.StoppingOld? || pc.Relocking? || HoldsLock(pc)
  }

  // The session a thread has brought up and not bound, and the one it is to stop.
  function NewOf(pc: Pc): Option<nat> {
    match pc
    case Placing(x) => Some(x)
    case StoppingOld(x, _) => Some(x)
    case Relocking(x) => Some(x)
    case Deciding(x) => Some(x)
    case Binding(x) => Some(x)
    case Refusing(x) => Some(x)
    case _ => None
  }

  function DoomedOf(pc: Pc): Option<nat> {
    match pc
    case StoppingSame(x) => Some(x)
    case StoppingOld(_, x) => Some(x)
    case StoppingNew(x) => Some(x)
    case StoppingTaken(x) => Some(x)
    case _ => None
  }

  predicate OneSelect(s: State) {
    && (forall t :: 0 <= t < |s.threads| && Selecting(s.threads[t]) ==> s.connecting)
    && (forall t, u :: 0 <= t < u < |s.threads| ==> !(Selecting(s.threads[t]) && Selecting(s.threads[u])))
    && (forall t :: 0 <= t < |s.threads| && HoldsLock(s.threads[t]) ==> s.lock == Some(t))
    && (s.lock.Some? ==> s.lock.value < |s.threads| && HoldsLock(s.threads[s.lock.value]))
    && (forall t :: 0 <= t < |s.threads| && Between(s.threads[t]) ==> s.cell == None)
  }

  predicate SessionOk(s: State, x: nat, r: Session) {
    match r.owner
    case New(t) => r.stops == 0 && r.number == 0 && t < |s.threads| && NewOf(s.threads[t]) == Some(x)
    case Doomed(t) => r.stops == 0 && t < |s.threads| && DoomedOf(s.threads[t]) == Some(x)
    case Cell => r.stops == 0 && s.cell == Some(x) && r.number == s.number > 0
    case Nobody => r.stops == 1
  }

  predicate HandsOk(s: State, t: nat, pc: Pc) {
    && (NewOf(pc).Some? ==> NewOf(pc).value < |s.sessions| && s.sessions[NewOf(pc).value].owner == New(t))
    && (DoomedOf(pc).Some? ==> DoomedOf(pc).value < |s.sessions| && s.sessions[DoomedOf(pc).value].owner == Doomed(t))
  }

  predicate SessionsOk(s: State) {
    && (forall x :: 0 <= x < |s.sessions| ==> SessionOk(s, x, s.sessions[x]))
    && (forall t :: 0 <= t < |s.threads| ==> HandsOk(s, t, s.threads[t]))
    && (s.cell.Some? ==> s.cell.value < |s.sessions| && s.sessions[s.cell.value].owner == Cell)
  }

  // Session x was bound under the number.
  predicate Numbered(s: State, x: nat, number: nat) {
    x < |s.sessions| && s.sessions[x].number == number > 0 && !s.sessions[x].owner.New?
  }

  predicate NumbersOk(s: State) {
    && (forall t :: 0 <= t < |s.threads| && s.threads[t].Commanding? ==>
          Numbered(s, s.threads[t].x, s.threads[t].number))
    && (forall k :: 0 <= k < |s.sent| ==> Numbered(s, s.sent[k].x, s.sent[k].number))
  }

  // No two sessions were bound under the same number, and none under one not given yet.
  predicate DistinctOk(s: State) {
    && (forall x :: 0 <= x < |s.sessions| ==> s.sessions[x].number <= s.number)
    && (forall x, y :: 0 <= x < y < |s.sessions| && s.sessions[x].number > 0 ==>
          s.sessions[x].number != s.sessions[y].number)
  }

  // Whoever turned streaming off is still to take the session, or binding waits for it.
  predicate DisabledOk(s: State) {
    !s.enabled && (s.cell.Some? || exists t :: 0 <= t < |s.threads| && s.threads[t].Binding?) ==>
      exists t :: 0 <= t < |s.threads| && s.threads[t] == Disabling
  }

  predicate Inv(s: State) {
    OneSelect(s) && SessionsOk(s) && NumbersOk(s) && DistinctOk(s) && DisabledOk(s)
  }

  // ----- frames: a step of thread t that touches at most session x -----

  predicate OthersSame(s: State, s': State, t: nat) {
    t < |s.threads| == |s'.threads| && forall u :: 0 <= u < |s.threads| && u != t ==> s'.threads[u] == s.threads[u]
  }

  predicate SelectFrame(s: State, s': State, t: nat, pc: Pc, pc': Pc) {
    && OthersSame(s, s', t)
    && (Selecting(pc') ==> Selecting(pc) && s'.connecting)
    && (s'.connecting == s.connecting || Selecting(pc))
    && (HoldsLock(pc') ==> s'.lock == Some(t))
    && (if s'.lock == Some(t) then HoldsLock(pc') else s'.lock == s.lock || (s'.lock == None && HoldsLock(pc)))
    && (s'.lock == Some(t) ==> s.lock == None || s.lock == Some(t))
    && (Between(pc') ==> s'.cell == None)
    && (s'.cell == s.cell || s'.cell == None || Selecting(pc))
  }

  lemma SelectKept(s: State, s': State, t: nat)
    requires OneSelect(s) && t < |s.threads| == |s'.threads|
    requires SelectFrame(s, s', t, s.threads[t], s'.threads[t])
    ensures OneSelect(s')
  {
    hide HoldsLock, Between;
    BetweenSelects(s);
  }

  lemma BetweenSelects(s: State)
    ensures forall u :: 0 <= u < |s.threads| && (Between(s.threads[u]) || HoldsLock(s.threads[u])) ==>
      Selecting(s.threads[u])
  {
  }

  predicate SessionFrame(s: State, s': State, t: nat, x: nat, pc: Pc, pc': Pc) {
    && OthersSame(s, s', t)
    && |s.sessions| <= |s'.sessions| <= |s.sessions| + 1
    && (|s'.sessions| > |s.sessions| ==> x == |s.sessions|)
    && (forall y :: 0 <= y < |s.sessions| && y != x ==> s'.sessions[y] == s.sessions[y])
    && HandsOk(s', t, pc')
    && (x < |s.sessions| ==>
          s.sessions[x].owner == New(t) || s.sessions[x].owner == Doomed(t) || s.sessions[x].owner == Cell)
    && (x < |s'.sessions| ==> SessionOk(s', x, s'.sessions[x]))
    && (NewOf(pc).Some? && NewOf(pc).value != x ==> NewOf(pc') == NewOf(pc))
    && (DoomedOf(pc).Some? && DoomedOf(pc).value != x ==> DoomedOf(pc') == DoomedOf(pc))
    && ((s'.cell == s.cell && s'.number == s.number) || s.cell == None || s.cell == Some(x))
    && (s'.cell.Some? ==> s'.cell.value < |s'.sessions| && s'.sessions[s'.cell.value].owner == Cell)
    && s.number <= s'.number
    && (x < |s'.sessions| ==> NumberSet(s, s', x))
  }

  // Session x has no number, the one it had, or a new one.
  predicate NumberSet(s: State, s': State, x: nat)
    requires x < |s'.sessions|
  {
    var n := s'.sessions[x].number;
    n == 0 || (x < |s.sessions| && n == s.sessions[x].number) || s.number < n <= s'.number
  }

  lemma DistinctKept(s: State, s': State, t: nat, x: nat)
    requires DistinctOk(s) && t < |s.threads| == |s'.threads|
    requires SessionFrame(s, s', t, x, s.threads[t], s'.threads[t])
    ensures DistinctOk(s')
  {
    hide NewOf, DoomedOf, HandsOk, SessionOk;
  }

  lemma SessionsKept(s: State, s': State, t: nat, x: nat)
    requires SessionsOk(s) && t < |s.threads| == |s'.threads|
    requires SessionFrame(s, s', t, x, s.threads[t], s'.threads[t])
    ensures SessionsOk(s')
  {
    hide NewOf, DoomedOf;
    forall y | 0 <= y < |s'.sessions| ensures SessionOk(s', y, s'.sessions[y]) {
      if y != x { assert SessionOk(s, y, s.sessions[y]); }
    }
    forall u | 0 <= u < |s'.threads| ensures HandsOk(s', u, s'.threads[u]) {
      if u != t { assert HandsOk(s, u, s.threads[u]); }
    }
  }

  ghost predicate NumberFrame(s: State, s': State, t: nat, pc': Pc) {
    && OthersSame(s, s', t)
    && |s.sessions| <= |s'.sessions|
    && (forall y :: 0 <= y < |s.sessions| && !s.sessions[y].owner.New? ==>
          s'.sessions[y].number == s.sessions[y].number && !s'.sessions[y].owner.New?)
    && (pc'.Commanding? ==> Numbered(s', pc'.x, pc'.number))
    && (s'.sent == s.sent || (exists e :: s'.sent == s.sent + [e] && Numbered(s', e.x, e.number)))
  }

  lemma NumbersKept(s: State, s': State, t: nat)
    requires NumbersOk(s) && t < |s.threads| == |s'.threads|
    requires NumberFrame(s, s', t, s'.threads[t])
    ensures NumbersOk(s')
  {
    forall u | 0 <= u < |s'.threads| && s'.threads[u].Commanding?
      ensures Numbered(s', s'.threads[u].x, s'.threads[u].number)
    {
      if u != t { assert Numbered(s, s.threads[u].x, s.threads[u].number); }
    }
    forall k | 0 <= k < |s'.sent| ensures Numbered(s', s'.sent[k].x, s'.sent[k].number) {
      if k < |s.sent| { assert s'.sent[k] == s.sent[k] && Numbered(s, s.sent[k].x, s.sent[k].number); }
    }
  }

  // ----- the steps -----

  // The session a step touches; past the end for none.
  function Touched(s: State, t: nat, yes: bool): nat
    requires t < |s.threads|
  {
    var cell := if s.cell.Some? then s.cell.value else |s.sessions|;
    match s.threads[t]
    case TakingSame => cell
    case StoppingSame(x) => x
    case Starting => |s.sessions|
    case Placing(_) => cell
    case StoppingOld(_, y) => y
    case Binding(x) => x
    case Refusing(x) => x
    case StoppingNew(x) => x
    case Disabling => cell
    case StoppingTaken(x) => x
    case _ => |s.sessions| + 1
  }

  // What the invariant says about thread t, its sessions and the bound one.
  predicate Known(s: State, t: nat, pc: Pc) {
    && HandsOk(s, t, pc)
    && (Selecting(pc) ==> s.connecting)
    && (HoldsLock(pc) <==> s.lock == Some(t))
    && (Between(pc) ==> s.cell == None)
    && (NewOf(pc).Some? ==> SessionOk(s, NewOf(pc).value, s.sessions[NewOf(pc).value]))
    && (DoomedOf(pc).Some? ==> SessionOk(s, DoomedOf(pc).value, s.sessions[DoomedOf(pc).value]))
    && (s.cell.Some? ==>
      s.cell.value < |s.sessions| && s.sessions[s.cell.value].owner == Cell
      && SessionOk(s, s.cell.value, s.sessions[s.cell.value]))
    && (pc.Commanding? ==> Numbered(s, pc.x, pc.number))
  }

  lemma Facts(s: State, t: nat)
    requires Inv(s) && t < |s.threads|
    ensures Known(s, t, s.threads[t])
  {
    hide DisabledOk;
    assert HandsOk(s, t, s.threads[t]);
  }

  predicate DisabledFrame(s: State, s': State, t: nat, pc: Pc, pc': Pc) {
    && OthersSame(s, s', t)
    && (s.enabled ==> s'.enabled)
    && (s'.cell.Some? ==> s.cell.Some? || pc.Binding?)
    && (pc'.Binding? ==> s'.enabled)
    && (pc == Disabling ==> s'.cell == None && s.lock == None)
  }

  ghost predicate Framed(s: State, s': State, t: nat, x: nat) {
    && t < |s.threads| == |s'.threads|
    && SelectFrame(s, s', t, s.threads[t], s'.threads[t])
    && SessionFrame(s, s', t, x, s.threads[t], s'.threads[t])
    && NumberFrame(s, s', t, s'.threads[t])
  }

  lemma ClaimingFrames(s: State, t: nat, yes: bool)
    requires Enabled(s, Go(t, yes)) && Known(s, t, s.threads[t])
    requires s.threads[t].Claimed? || s.threads[t].Replacing? || s.threads[t].Releasing?
    ensures Framed(s, GoStep(s, t, yes), t, Touched(s, t, yes))
    ensures DisabledFrame(s, GoStep(s, t, yes), t, s.threads[t], GoStep(s, t, yes).threads[t])
  {
  }

  lemma TakingOwnFrames(s: State, t: nat, yes: bool)
    requires Enabled(s, Go(t, yes)) && Known(s, t, s.threads[t])
    requires s.threads[t].TakingSame?
    ensures Framed(s, GoStep(s, t, yes), t, Touched(s, t, yes))
    ensures DisabledFrame(s, GoStep(s, t, yes), t, s.threads[t], GoStep(s, t, yes).threads[t])
  {
  }

  lemma StoppingFrames(s: State, t: nat, yes: bool)
    requires Enabled(s, Go(t, yes)) && Known(s, t, s.threads[t])
    requires s.threads[t].StoppingSame? || s.threads[t].StoppingNew? || s.threads[t].StoppingTaken?
    ensures Framed(s, GoStep(s, t, yes), t, Touched(s, t, yes))
    ensures DisabledFrame(s, GoStep(s, t, yes), t, s.threads[t], GoStep(s, t, yes).threads[t])
  {
  }

  lemma StartingUpFrames(s: State, t: nat, yes: bool)
    requires Enabled(s, Go(t, yes)) && Known(s, t, s.threads[t])
    requires s.threads[t].Starting?
    ensures Framed(s, GoStep(s, t, yes), t, Touched(s, t, yes))
    ensures DisabledFrame(s, GoStep(s, t, yes), t, s.threads[t], GoStep(s, t, yes).threads[t])
  {
  }

  lemma PlacingNewFrames(s: State, t: nat, yes: bool)
    requires Enabled(s, Go(t, yes)) && Known(s, t, s.threads[t])
    requires s.threads[t].Placing?
    ensures Framed(s, GoStep(s, t, yes), t, Touched(s, t, yes))
    ensures DisabledFrame(s, GoStep(s, t, yes), t, s.threads[t], GoStep(s, t, yes).threads[t])
  {
  }

  lemma StoppingFirstFrames(s: State, t: nat, yes: bool)
    requires Enabled(s, Go(t, yes)) && Known(s, t, s.threads[t])
    requires s.threads[t].StoppingOld?
    ensures Framed(s, GoStep(s, t, yes), t, Touched(s, t, yes))
    ensures DisabledFrame(s, GoStep(s, t, yes), t, s.threads[t], GoStep(s, t, yes).threads[t])
  {
  }

  lemma DecidingNewFrames(s: State, t: nat, yes: bool)
    requires Enabled(s, Go(t, yes)) && Known(s, t, s.threads[t])
    requires s.threads[t].Relocking? || s.threads[t].Deciding?
    ensures Framed(s, GoStep(s, t, yes), t, Touched(s, t, yes))
    ensures DisabledFrame(s, GoStep(s, t, yes), t, s.threads[t], GoStep(s, t, yes).threads[t])
  {
  }

  lemma BindingNewFrames(s: State, t: nat, yes: bool)
    requires Enabled(s, Go(t, yes)) && Known(s, t, s.threads[t])
    requires s.threads[t].Binding?
    ensures Framed(s, GoStep(s, t, yes), t, Touched(s, t, yes))
    ensures DisabledFrame(s, GoStep(s, t, yes), t, s.threads[t], GoStep(s, t, yes).threads[t])
  {
  }

  lemma RefusingNewFrames(s: State, t: nat, yes: bool)
    requires Enabled(s, Go(t, yes)) && Known(s, t, s.threads[t])
    requires s.threads[t].Refusing?
    ensures Framed(s, GoStep(s, t, yes), t, Touched(s, t, yes))
    ensures DisabledFrame(s, GoStep(s, t, yes), t, s.threads[t], GoStep(s, t, yes).threads[t])
  {
  }

  lemma TakingAwayFrames(s: State, t: nat, yes: bool)
    requires Enabled(s, Go(t, yes)) && Known(s, t, s.threads[t])
    requires s.threads[t].Disabling?
    ensures Framed(s, GoStep(s, t, yes), t, Touched(s, t, yes))
    ensures DisabledFrame(s, GoStep(s, t, yes), t, s.threads[t], GoStep(s, t, yes).threads[t])
  {
  }

  lemma SendingOnFrames(s: State, t: nat, yes: bool)
    requires Enabled(s, Go(t, yes)) && Known(s, t, s.threads[t])
    requires s.threads[t].Queueing? || s.threads[t].Sending? || s.threads[t].Commanding?
    ensures Framed(s, GoStep(s, t, yes), t, Touched(s, t, yes))
    ensures DisabledFrame(s, GoStep(s, t, yes), t, s.threads[t], GoStep(s, t, yes).threads[t])
  {
  }

  lemma GoFrames(s: State, t: nat, yes: bool)
    requires Inv(s) && Enabled(s, Go(t, yes))
    ensures Framed(s, GoStep(s, t, yes), t, Touched(s, t, yes))
    ensures DisabledFrame(s, GoStep(s, t, yes), t, s.threads[t], GoStep(s, t, yes).threads[t])
  {
    hide Inv, SelectFrame, SessionFrame, NumberFrame, DisabledFrame, GoStep, Touched, Known;
    Facts(s, t);
    match s.threads[t]
    case Claimed(_) => ClaimingFrames(s, t, yes);
    case Replacing => ClaimingFrames(s, t, yes);
    case Releasing => ClaimingFrames(s, t, yes);
    case TakingSame => TakingOwnFrames(s, t, yes);
    case StoppingSame(_) => StoppingFrames(s, t, yes);
    case StoppingNew(_) => StoppingFrames(s, t, yes);
    case StoppingTaken(_) => StoppingFrames(s, t, yes);
    case Starting => StartingUpFrames(s, t, yes);
    case Placing(_) => PlacingNewFrames(s, t, yes);
    case StoppingOld(_, _) => StoppingFirstFrames(s, t, yes);
    case Relocking(_) => DecidingNewFrames(s, t, yes);
    case Deciding(_) => DecidingNewFrames(s, t, yes);
    case Binding(_) => BindingNewFrames(s, t, yes);
    case Refusing(_) => RefusingNewFrames(s, t, yes);
    case Disabling => TakingAwayFrames(s, t, yes);
    case Queueing(_) => SendingOnFrames(s, t, yes);
    case Sending(_) => SendingOnFrames(s, t, yes);
    case Commanding(_, _) => SendingOnFrames(s, t, yes);
  }

  lemma DisabledKept(s: State, s': State, t: nat)
    requires OneSelect(s) && DisabledOk(s) && t < |s.threads| == |s'.threads|
    requires DisabledFrame(s, s', t, s.threads[t], s'.threads[t])
    ensures DisabledOk(s')
  {
    if !s'.enabled && (s'.cell.Some? || exists u :: 0 <= u < |s'.threads| && s'.threads[u].Binding?) {
      if s'.cell.None? {
        var u :| 0 <= u < |s'.threads| && s'.threads[u].Binding?;
        assert s.threads[u].Binding?;
      }
      var u :| 0 <= u < |s.threads| && s.threads[u] == Disabling;
      assert u != t;
      assert s'.threads[u] == Disabling;
    }
  }

  lemma GoKeepsDisabled(s: State, t: nat, yes: bool)
    requires Inv(s) && Enabled(s, Go(t, yes))
    ensures DisabledOk(GoStep(s, t, yes))
  {
    hide OneSelect, SessionsOk, NumbersOk, DistinctOk, DisabledOk;
    hide GoStep, DisabledFrame, SelectFrame, SessionFrame, NumberFrame, Touched;
    GoFrames(s, t, yes);
    DisabledKept(s, GoStep(s, t, yes), t);
  }

  lemma GoKeeps(s: State, t: nat, yes: bool)
    requires Inv(s) && Enabled(s, Go(t, yes))
    ensures Inv(GoStep(s, t, yes))
  {
    hide OneSelect, SessionsOk, NumbersOk, DistinctOk, DisabledOk, GoStep;
    hide Touched, SelectFrame, SessionFrame, NumberFrame;
    var s' := GoStep(s, t, yes);
    GoFrames(s, t, yes);
    SelectKept(s, s', t);
    SessionsKept(s, s', t, Touched(s, t, yes));
    DistinctKept(s, s', t, Touched(s, t, yes));
    NumbersKept(s, s', t);
    GoKeepsDisabled(s, t, yes);
  }

  // The session that a beginning step touches.
  function TouchedFirst(s: State, step: Step): nat {
    if step.TakeSession? && s.cell.Some? then s.cell.value else |s.sessions| + 1
  }

  function Actor(step: Step): nat {
    match step
    case Select(t, _) => t
    case Disable(t) => t
    case Enable(t) => t
    case Forget(t) => t
    case TakeSession(t) => t
    case QueueCommand(t) => t
    case PopCommand(t) => t
    case Go(t, _) => t
  }

  lemma BeginFrames(s: State, step: Step)
    requires !step.Go? && !step.Select? && Enabled(s, step) && Known(s, Actor(step), s.threads[Actor(step)])
    ensures Framed(s, Apply(s, step), Actor(step), TouchedFirst(s, step))
  {
  }

  lemma BeginKeeps(s: State, step: Step)
    requires Inv(s) && Enabled(s, step) && !step.Go? && !step.Select?
    ensures Inv(Apply(s, step))
  {
    hide Inv, Apply, TouchedFirst, Known, SelectFrame, SessionFrame, NumberFrame;
    var s', t := Apply(s, step), Actor(step);
    Facts(s, t);
    BeginFrames(s, step);
    assert OneSelect(s') && SessionsOk(s') && NumbersOk(s') && DistinctOk(s') by {
      Parts(s);
      SelectKept(s, s', t);
      SessionsKept(s, s', t, TouchedFirst(s, step));
      DistinctKept(s, s', t, TouchedFirst(s, step));
      NumbersKept(s, s', t);
    }
    BeginKeepsDisabled(s, step);
    Whole(s');
  }

  lemma Parts(s: State)
    requires Inv(s)
    ensures OneSelect(s) && SessionsOk(s) && NumbersOk(s) && DistinctOk(s) && DisabledOk(s)
  {
  }

  lemma Whole(s: State)
    requires OneSelect(s) && SessionsOk(s) && NumbersOk(s) && DistinctOk(s) && DisabledOk(s)
    ensures Inv(s)
  {
  }

  lemma BeginKeepsDisabled(s: State, step: Step)
    requires Inv(s) && Enabled(s, step) && !step.Go? && !step.Select?
    ensures DisabledOk(Apply(s, step))
  {
    hide OneSelect, SessionsOk, NumbersOk;
    var s', t := Apply(s, step), Actor(step);
    if !s'.enabled && (s'.cell.Some? || exists u :: 0 <= u < |s'.threads| && s'.threads[u].Binding?) {
      if s'.threads[t] != Disabling {
        if s'.cell.None? {
          var u :| 0 <= u < |s'.threads| && s'.threads[u].Binding?;
          assert s.threads[u].Binding?;
        }
        var u :| 0 <= u < |s.threads| && s.threads[u] == Disabling;
        assert s'.threads[u] == Disabling;
      }
    }
  }

  lemma SelectKeeps(s: State, t: nat, user: bool)
    requires Inv(s) && Enabled(s, Select(t, user))
    ensures Inv(Apply(s, Select(t, user)))
  {
    var s' := Apply(s, Select(t, user));
    assert HandsOk(s, t, s.threads[t]);
    assert SessionsOk(s') by {
      hide OneSelect, NumbersOk, DisabledOk;
      SessionsKept(s, s', t, |s.sessions| + 1);
    }
    assert DisabledOk(s') by {
      hide OneSelect, NumbersOk, SessionsOk;
      forall u | 0 <= u < |s.threads| && s.threads[u] == Disabling ensures s'.threads[u] == Disabling {}
      forall u | 0 <= u < |s.threads| && s'.threads[u].Binding? ensures s.threads[u].Binding? {}
    }
  }

  lemma {:induction false} RunKeeps(s: State, steps: seq<Step>, s': State)
    requires Inv(s) && Run(s, steps, s')
    ensures Inv(s')
    decreases |steps|
  {
    hide Inv, GoStep, Enabled;
    if steps != [] {
      match steps[0] {
        case Go(t, yes) => GoKeeps(s, t, yes);
        case Select(t, user) => SelectKeeps(s, t, user);
        case _ => BeginKeeps(s, steps[0]);
      }
      RunKeeps(Apply(s, steps[0]), steps[1..], s');
    }
  }

  ghost predicate Reachable(s: State) {
    exists n: nat, steps :: Run(Fresh(n), steps, s)
  }

  lemma ReachableInv(s: State)
    requires Reachable(s)
    ensures Inv(s)
  {
    var n: nat, steps :| Run(Fresh(n), steps, s);
    assert Inv(Fresh(n));
    RunKeeps(Fresh(n), steps, s);
  }

  // ----- the theorems -----

  // Every session brought up is bound, or in the hand of exactly one thread, or was
  // stopped, and then once; none is dropped without being stopped.
  lemma SessionsAccounted(s: State, x: nat)
    requires Reachable(s) && x < |s.sessions|
    ensures s.sessions[x].stops <= 1
    ensures var bound := s.cell == Some(x);
      var inHand := exists t ::
        0 <= t < |s.threads| && (NewOf(s.threads[t]) == Some(x) || DoomedOf(s.threads[t]) == Some(x));
      var stopped := s.sessions[x].stops == 1;
      (bound || inHand || stopped) && !(bound && inHand) && !(bound && stopped) && !(inHand && stopped)
  {
    ReachableInv(s);
    assert SessionOk(s, x, s.sessions[x]);
    forall t | 0 <= t < |s.threads| && (NewOf(s.threads[t]) == Some(x) || DoomedOf(s.threads[t]) == Some(x))
      ensures s.sessions[x].owner == New(t) || s.sessions[x].owner == Doomed(t)
    {
      assert HandsOk(s, t, s.threads[t]);
    }
  }

  predicate Quiet(s: State) {
    forall t :: 0 <= t < |s.threads| ==> s.threads[t] == Free
  }

  // With no operation in flight, every session but the bound one was stopped once;
  // and while streaming is disabled none is bound.
  lemma QuietSessions(s: State)
    requires Reachable(s) && Quiet(s)
    ensures forall x :: 0 <= x < |s.sessions| && s.cell != Some(x) ==> s.sessions[x].stops == 1
    ensures !s.enabled ==> s.cell == None
  {
    ReachableInv(s);
    forall x | 0 <= x < |s.sessions| && s.cell != Some(x) ensures s.sessions[x].stops == 1 {
      assert SessionOk(s, x, s.sessions[x]);
    }
  }

  // A volume command goes out only through the one session that was bound under the
  // number it was queued for, and never if no session was bound when it was queued.
  lemma CommandsReachTheirSession(s: State, k: nat)
    requires Reachable(s) && k < |s.sent|
    ensures s.sent[k].x < |s.sessions| && s.sent[k].number > 0
    ensures forall y :: 0 <= y < |s.sessions| ==> (s.sessions[y].number == s.sent[k].number <==> y == s.sent[k].x)
  {
    ReachableInv(s);
    assert Numbered(s, s.sent[k].x, s.sent[k].number);
  }
}
