/**
 GENA subscriptions: the registry of live SIDs, and the managers that subscribe,
 renew and unsubscribe. One step is one lock section, one atomic operation or
 one network exchange. Publishers never hand out a SID twice.
 */
module Gena {
  import opened Common

  // ----- the registry -----

  datatype Entry = Entry(sid: nat, ips: seq<nat>)

  datatype Admission = Live | Pending | Unknown

  function Retained(live: seq<Entry>, sid: nat): seq<Entry> {
    if live == [] then []
    else (if live[0].sid == sid then [] else [live[0]]) + Retained(live[1..], sid)
  }

  // The entry of a token, taken out.
  function WithoutToken(pending: seq<Entry>, token: nat): seq<Entry> {
    if pending == [] then []
    else if pending[0].sid == token then pending[1..]
    else [pending[0]] + WithoutToken(pending[1..], token)
  }

  lemma {:induction false} RetainedIs(live: seq<Entry>, sid: nat)
    ensures forall e :: e in Retained(live, sid) <==> e in live && e.sid != sid
  {
    if live != [] {
      RetainedIs(live[1..], sid);
      assert live == [live[0]] + live[1..];
    }
  }

  predicate DistinctSids(live: seq<Entry>) {
    forall i, j :: 0 <= i < j < |live| ==> live[i].sid != live[j].sid
  }

  lemma {:induction false} RetainedDistinct(live: seq<Entry>, sid: nat)
    requires DistinctSids(live)
    ensures DistinctSids(Retained(live, sid))
  {
    if live != [] {
      RetainedDistinct(live[1..], sid);
      RetainedIs(live[1..], sid);
      var rest := Retained(live[1..], sid);
      forall j | 0 <= j < |rest| ensures rest[j].sid != live[0].sid {
        assert rest[j] in live[1..];
        var k :| 0 <= k < |live[1..]| && live[1..][k] == rest[j];
        assert live[1 + k] == rest[j];
      }
    }
  }

  lemma {:induction false} WithoutTokenIs(pending: seq<Entry>, token: nat)
    requires DistinctSids(pending)
    ensures DistinctSids(WithoutToken(pending, token))
    ensures forall e :: e in WithoutToken(pending, token) <==> e in pending && e.sid != token
  {
    if pending != [] {
      assert pending == [pending[0]] + pending[1..];
      forall e | e in pending[1..] ensures e.sid != pending[0].sid {
        var k :| 0 <= k < |pending[1..]| && pending[1..][k] == e;
        assert pending[1 + k] == e;
      }
      if pending[0].sid != token {
        WithoutTokenIs(pending[1..], token);
        var rest := WithoutToken(pending[1..], token);
        forall j | 0 <= j < |rest| ensures rest[j].sid != pending[0].sid {
          assert rest[j] in pending[1..];
        }
      }
    }
  }

  // What check_locked answers for a NOTIFY.
  ghost predicate Admits(live: seq<Entry>, sid: nat, peer: nat) {
    exists e :: e in live && e.sid == sid && peer in e.ips
  }

  ghost predicate Expected(pending: seq<Entry>, peer: nat) {
    exists e :: e in pending && peer in e.ips
  }

  predicate First(pending: seq<Entry>, token: nat, p: nat)
    requires p < |pending|
  {
    pending[p].sid == token && forall q :: 0 <= q < p ==> pending[q].sid != token
  }

  class Registry {
    var live: seq<Entry>
    var pending: seq<Entry>
    var nextToken: nat

    constructor ()
      ensures live == [] && pending == [] && nextToken == 0
    {
      live, pending, nextToken := [], [], 0;
    }

    method BeginSubscribe(publisher: seq<nat>) returns (token: nat)
      modifies this`pending, this`nextToken
      ensures nextToken == old(nextToken) + 1 == token && pending == old(pending) + [Entry(token, publisher)]
    {
      nextToken := nextToken + 1;
      token := nextToken;
      pending := pending + [Entry(token, publisher)];
    }

    // Resolves an exchange in flight: a SID is registered for the addresses it
    // was asked from, in place of any earlier entry.
    method FinishSubscribe(token: nat, sid: Option<nat>)
      modifies this`pending, this`live
      ensures (forall e :: e in old(pending) ==> e.sid != token) ==> unchanged(this)
      ensures forall p :: 0 <= p < |old(pending)| && First(old(pending), token, p) ==>
        && pending == WithoutToken(old(pending), token)
        && live == if sid.None? then old(live)
                   else Retained(old(live), sid.value) + [Entry(sid.value, old(pending)[p].ips)]
    {
      var pos := 0;
      while pos < |pending| && pending[pos].sid != token
        invariant pos <= |pending| && forall q :: 0 <= q < pos ==> pending[q].sid != token
        invariant unchanged(this)
      {
        pos := pos + 1;
      }
      if pos < |pending| {
        var ips := pending[pos].ips;
        TokenAt(pending, token, pos);
        pending := pending[..pos] + pending[pos + 1..];
        if sid.Some? {
          Remove(sid.value);
          live := live + [Entry(sid.value, ips)];
        }
      }
    }

    method Remove(sid: nat)
      modifies this`live
      ensures live == Retained(old(live), sid)
    {
      var kept := [];
      for i := 0 to |live|
        invariant live == old(live) && kept + Retained(live[i..], sid) == Retained(live, sid)
      {
        var was := kept;
        if live[i].sid != sid {
          kept := kept + [live[i]];
        }
        assert live[i..][1..] == live[i + 1..];
      }
      assert kept + [] == kept;
      live := kept;
    }

    method Check(sid: nat, peer: nat) returns (a: Admission)
      ensures a == Live <==> Admits(live, sid, peer)
      ensures a == Pending <==> !Admits(live, sid, peer) && Expected(pending, peer)
    {
      for i := 0 to |live|
        invariant forall j :: 0 <= j < i ==> !(live[j].sid == sid && peer in live[j].ips)
      {
        if live[i].sid == sid && peer in live[i].ips {
          assert live[i] in live;
          return Live;
        }
      }
      for i := 0 to |pending|
        invariant forall j :: 0 <= j < i ==> peer !in pending[j].ips
      {
        if peer in pending[i].ips {
          assert pending[i] in pending;
          return Pending;
        }
      }
      return Unknown;
    }
  }

  lemma {:induction false} TokenAt(pending: seq<Entry>, token: nat, p: nat)
    requires p < |pending| && pending[p].sid == token && forall q :: 0 <= q < p ==> pending[q].sid != token
    ensures WithoutToken(pending, token) == pending[..p] + pending[p + 1..]
  {
    if p > 0 {
      TokenAt(pending[1..], token, p - 1);
      assert pending[..p] == [pending[0]] + pending[1..][..p - 1];
    }
  }

  // ----- the managers -----

  datatype Manager = Manager(sid: Option<nat>, closed: bool)

  // A thread inside subscribe (initial or from the renewer) or unsubscribe of
  // manager m, or outside both.
  datatype Call =
    | Returned
    | Beginning(m: nat)            // closed was seen false
    | Requesting(m: nat, token: nat)
    | Replacing(m: nat, sid: nat)
    | RemovingOld(m: nat, sid: nat)
    | Rechecking(m: nat)
    | Taking(m: nat)
    | Dropping(m: nat, sid: nat)

  // Who must take a SID off the registry (auxiliary).
  datatype Owner = Held(m: nat) | Carried(t: nat) | Gone

  datatype State = State(
    managers: seq<Manager>,
    calls: seq<Call>,
    live: seq<Entry>,
    pending: seq<Entry>,
    nextToken: nat,
    owners: seq<Owner>,     // auxiliary: one per SID handed out
    tokens: seq<nat>,       // auxiliary: the token of its exchange, one per SID handed out
    asked: seq<seq<nat>>)   // auxiliary: the addresses that exchanges were begun with, by token

  datatype Step =
    | NewManager
    | Subscribe(t: nat, m: nat)
    | Unsubscribe(t: nat, m: nat)   // stores `closed`
    | Go(t: nat, ok: bool, ips: seq<nat>)

  function Fresh(threads: nat): State {
    State([], seq(threads, _ => Returned), [], [], 0, [], [], [])
  }

  predicate Enabled(s: State, step: Step) {
    match step
    case NewManager => true
    case Subscribe(t, m) => t < |s.calls| && s.calls[t] == Returned && m < |s.managers|
    case Unsubscribe(t, m) => t < |s.calls| && s.calls[t] == Returned && m < |s.managers|
    case Go(t, _, _) => t < |s.calls| && s.calls[t] != Returned
  }

  predicate InRange(s: State) {
    forall t :: 0 <= t < |s.calls| && s.calls[t] != Returned ==> s.calls[t].m < |s.managers|
  }

  function Called(s: State, t: nat, c: Call): State
    requires t < |s.calls|
  {
    s.(calls := s.calls[t := c])
  }

  // The entry that a SID gets: with the addresses pending under the token, if it is pending.
  function Resolved(pending: seq<Entry>, token: nat, sid: nat): seq<Entry> {
    if pending == [] then []
    else if pending[0].sid == token then [Entry(sid, pending[0].ips)]
    else Resolved(pending[1..], token, sid)
  }

  lemma {:induction false} ResolvedIs(pending: seq<Entry>, token: nat, sid: nat)
    requires Listed(pending, token)
    ensures exists e :: e in pending && e.sid == token && Resolved(pending, token, sid) == [Entry(sid, e.ips)]
  {
    if pending[0].sid == token {
      assert pending[0] in pending;
    } else {
      var i :| 0 <= i < |pending| && pending[i].sid == token;
      assert pending[1..][i - 1].sid == token;
      ResolvedIs(pending[1..], token, sid);
    }
  }

  function GoStep(s: State, t: nat, ok: bool, ips: seq<nat>): State
    requires InRange(s) && Enabled(s, Go(t, ok, ips))
  {
    match s.calls[t]
    case Returned => s
    case Beginning(m) =>
      Called(s.(nextToken := s.nextToken + 1, pending := s.pending + [Entry(s.nextToken + 1, ips)],
        asked := s.asked + [ips]),
             t, Requesting(m, s.nextToken + 1))
    case Requesting(m, token) =>
      // the exchange, and finish_subscribe
      var u := s.(pending := WithoutToken(s.pending, token));
      if ok then
        Called(u.(live := s.live + Resolved(s.pending, token, |s.owners|), owners := s.owners + [Carried(t)],
                  tokens := s.tokens + [token]), t, Replacing(m, |s.owners|))
      else Called(u, t, Returned)
    case Replacing(m, sid) =>
      var was := s.managers[m].sid;
      var u := s.(managers := s.managers[m := s.managers[m].(sid := Some(sid))]);
      if sid >= |s.owners| then s
      else if was.None? || was.value >= |s.owners| then Called(u.(owners := s.owners[sid := Held(m)]), t, Rechecking(m))
      else Called(u.(owners := s.owners[sid := Held(m)][was.value := Carried(t)]), t, RemovingOld(m, was.value))
    case RemovingOld(m, sid) =>
      if sid >= |s.owners| then s
      else Called(s.(live := Retained(s.live, sid), owners := s.owners[sid := Gone]), t, Rechecking(m))
    case Rechecking(m) => Called(s, t, if s.managers[m].closed then Taking(m) else Returned)
    case Taking(m) =>
      var was := s.managers[m].sid;
      if was.None? || was.value >= |s.owners| then Called(s, t, Returned)
      else
        Called(s.(managers := s.managers[m := s.managers[m].(sid := None)],
          owners := s.owners[was.value := Carried(t)]), t,
               Dropping(m, was.value))
    case Dropping(m, sid) =>
      if sid >= |s.owners| then s
      else Called(s.(live := Retained(s.live, sid), owners := s.owners[sid := Gone]), t, Returned)
  }

  function Apply(s: State, step: Step): State
    requires InRange(s) && Enabled(s, step)
  {
    match step
    case NewManager => s.(managers := s.managers + [Manager(None, false)])
    case Subscribe(t, m) => if s.managers[m].closed then s else Called(s, t, Beginning(m))
    case Unsubscribe(t, m) =>
      Called(s.(managers := s.managers[m := s.managers[m].(closed := true)]), t, Taking(m))
    case Go(t, ok, ips) => GoStep(s, t, ok, ips)
  }

  ghost predicate Run(s: State, steps: seq<Step>, s': State)
    decreases |steps|
  {
    if steps == [] then s' == s
    else InRange(s) && Enabled(s, steps[0]) && Run(Apply(s, steps[0]), steps[1..], s')
  }

  // ----- the invariant -----

  // The SID a call has in hand, to store or to remove.
  function Carries(c: Call): Option<nat> {
    match c
    case Replacing(_, sid) => Some(sid)
    case RemovingOld(_, sid) => Some(sid)
    case Dropping(_, sid) => Some(sid)
    case _ => None
  }

  predicate OwnersOk(s: State) {
    && (forall m :: 0 <= m < |s.managers| && s.managers[m].sid.Some? ==>
          s.managers[m].sid.value < |s.owners| && s.owners[s.managers[m].sid.value] == Held(m))
    && (forall t :: 0 <= t < |s.calls| && Carries(s.calls[t]).Some? ==>
          Carries(s.calls[t]).value < |s.owners| && s.owners[Carries(s.calls[t]).value] == Carried(t))
    && (forall x :: 0 <= x < |s.owners| ==>
          match s.owners[x]
          case Held(m) => m < |s.managers| && s.managers[m].sid == Some(x)
          case Carried(t) => t < |s.calls| && Carries(s.calls[t]) == Some(x)
          case Gone => true)
  }

  // The registry holds exactly the SIDs that somebody still has to take off.
  predicate LiveOk(s: State) {
    && DistinctSids(s.live)
    && (forall e :: e in s.live ==> e.sid < |s.owners| && s.owners[e.sid] != Gone)
    && (forall x :: 0 <= x < |s.owners| && s.owners[x] != Gone ==> Listed(s.live, x))
  }

  predicate Listed(live: seq<Entry>, sid: nat) {
    exists i :: 0 <= i < |live| && live[i].sid == sid
  }

  predicate PendingOk(s: State) {
    && DistinctSids(s.pending)
    && (forall e :: e in s.pending ==>
          e.sid <= s.nextToken && exists t :: 0 <= t < |s.calls| && Awaits(s.calls[t], e.sid))
    && (forall t :: 0 <= t < |s.calls| && s.calls[t].Requesting? ==> s.calls[t].token <= s.nextToken)
    && (forall t, u :: 0 <= t < u < |s.calls| && s.calls[t].Requesting? && s.calls[u].Requesting? ==>
          s.calls[t].token != s.calls[u].token)
  }

  // An exchange under way has its entry.
  predicate AskedOk(s: State) {
    forall t :: 0 <= t < |s.calls| && s.calls[t].Requesting? ==> Listed(s.pending, s.calls[t].token)
  }

  // The addresses that the exchange of a token was begun with; tokens count from 1.
  predicate Begun(s: State, token: nat, ips: seq<nat>) {
    1 <= token <= |s.asked| && s.asked[token - 1] == ips
  }

  // Every entry, pending or registered, has the addresses of its exchange.
  predicate IpsOk(s: State) {
    && |s.asked| == s.nextToken && |s.tokens| == |s.owners|
    && (forall e :: e in s.pending ==> Begun(s, e.sid, e.ips))
    && (forall e :: e in s.live ==> e.sid < |s.tokens| && Begun(s, s.tokens[e.sid], e.ips))
  }

  predicate Awaits(c: Call, token: nat) {
    c.Requesting? && c.token == token
  }

  // A call that will look at the closed manager again.
  predicate WillTake(c: Call, m: nat) {
    (c.RemovingOld? || c.Rechecking? || c.Taking?) && c.m == m
  }

  predicate ClosedOk(s: State) {
    forall m :: 0 <= m < |s.managers| && s.managers[m].closed && s.managers[m].sid.Some? ==>
      exists t :: 0 <= t < |s.calls| && WillTake(s.calls[t], m)
  }

  predicate Inv(s: State) {
    InRange(s) && OwnersOk(s) && LiveOk(s) && PendingOk(s) && AskedOk(s) && ClosedOk(s) && IpsOk(s)
  }

  lemma AskingKeepsOwners(s: State, t: nat, ok: bool, ips: seq<nat>)
    requires Inv(s) && Enabled(s, Go(t, ok, ips))
      && (s.calls[t].Beginning? || s.calls[t].Requesting? || s.calls[t].Rechecking?)
    ensures OwnersOk(GoStep(s, t, ok, ips)) && InRange(GoStep(s, t, ok, ips))
  {
    hide LiveOk, PendingOk, ClosedOk, Retained, WithoutToken;
  }

  lemma ReplacingKeepsOwners(s: State, t: nat, ok: bool, ips: seq<nat>)
    requires Inv(s) && Enabled(s, Go(t, ok, ips)) && (s.calls[t].Replacing?)
    ensures OwnersOk(GoStep(s, t, ok, ips)) && InRange(GoStep(s, t, ok, ips))
  {
    hide LiveOk, PendingOk, ClosedOk, Retained, WithoutToken;
  }

  lemma TakingKeepsOwners(s: State, t: nat, ok: bool, ips: seq<nat>)
    requires Inv(s) && Enabled(s, Go(t, ok, ips)) && (s.calls[t].Taking?)
    ensures OwnersOk(GoStep(s, t, ok, ips)) && InRange(GoStep(s, t, ok, ips))
  {
    hide LiveOk, PendingOk, ClosedOk, Retained, WithoutToken;
  }

  lemma RemovingKeepsOwners(s: State, t: nat, ok: bool, ips: seq<nat>)
    requires Inv(s) && Enabled(s, Go(t, ok, ips)) && (s.calls[t].RemovingOld? || s.calls[t].Dropping?)
    ensures OwnersOk(GoStep(s, t, ok, ips)) && InRange(GoStep(s, t, ok, ips))
  {
    hide LiveOk, PendingOk, ClosedOk, Retained, WithoutToken;
  }

  lemma GoKeepsOwners(s: State, t: nat, ok: bool, ips: seq<nat>)
    requires Inv(s) && Enabled(s, Go(t, ok, ips))
    ensures OwnersOk(GoStep(s, t, ok, ips)) && InRange(GoStep(s, t, ok, ips))
  {
    hide Inv, OwnersOk, GoStep;
    match s.calls[t]
    case Replacing(_, _) => ReplacingKeepsOwners(s, t, ok, ips);
    case Taking(_) => TakingKeepsOwners(s, t, ok, ips);
    case RemovingOld(_, _) => RemovingKeepsOwners(s, t, ok, ips);
    case Dropping(_, _) => RemovingKeepsOwners(s, t, ok, ips);
    case _ => AskingKeepsOwners(s, t, ok, ips);
  }

  lemma ListedMore(live: seq<Entry>, e: Entry)
    requires DistinctSids(live) && !Listed(live, e.sid)
    ensures DistinctSids(live + [e])
    ensures forall x :: Listed(live + [e], x) <==> Listed(live, x) || x == e.sid
  {
    forall x | Listed(live, x) ensures Listed(live + [e], x) {
      var i :| 0 <= i < |live| && live[i].sid == x;
      assert (live + [e])[i].sid == x;
    }
    assert (live + [e])[|live|] == e;
  }

  lemma ListedLess(live: seq<Entry>, sid: nat)
    requires DistinctSids(live)
    ensures DistinctSids(Retained(live, sid))
    ensures forall x :: Listed(Retained(live, sid), x) <==> Listed(live, x) && x != sid
  {
    RetainedDistinct(live, sid);
    RetainedIs(live, sid);
    var r := Retained(live, sid);
    forall x | Listed(live, x) && x != sid ensures Listed(r, x) {
      var i :| 0 <= i < |live| && live[i].sid == x;
      assert live[i] in r;
    }
    forall x | Listed(r, x) ensures Listed(live, x) && x != sid {
      var i :| 0 <= i < |r| && r[i].sid == x;
      assert r[i] in live;
    }
  }

  lemma GoKeepsLive(s: State, t: nat, ok: bool, ips: seq<nat>)
    requires Inv(s) && Enabled(s, Go(t, ok, ips))
    ensures LiveOk(GoStep(s, t, ok, ips))
  {
    hide PendingOk, ClosedOk, IpsOk, Retained, WithoutToken, DistinctSids;
    ListedSids(s);
    match s.calls[t]
    case Requesting(_, _) => AnswerKeepsLive(s, t, ok, ips);
    case RemovingOld(_, sid) => ListedLess(s.live, sid); RetainedIs(s.live, sid);
    case Dropping(_, sid) => ListedLess(s.live, sid); RetainedIs(s.live, sid);
    case _ =>
  }

  lemma AnswerKeepsLive(s: State, t: nat, ok: bool, ips: seq<nat>)
    requires Inv(s) && Enabled(s, Go(t, ok, ips)) && s.calls[t].Requesting?
    ensures LiveOk(GoStep(s, t, ok, ips))
  {
    hide PendingOk, ClosedOk, IpsOk, OwnersOk, WithoutToken, DistinctSids, Resolved;
    ListedSids(s);
    ResolvedIs(s.pending, s.calls[t].token, |s.owners|);
    ListedMore(s.live, Resolved(s.pending, s.calls[t].token, |s.owners|)[0]);
  }

  lemma ListedSids(s: State)
    requires LiveOk(s)
    ensures forall x: nat :: Listed(s.live, x) ==> x < |s.owners| && s.owners[x] != Gone
  {
    forall x: nat | Listed(s.live, x) ensures x < |s.owners| && s.owners[x] != Gone {
      var i :| 0 <= i < |s.live| && s.live[i].sid == x;
      assert s.live[i] in s.live;
    }
  }

  lemma GoKeepsPending(s: State, t: nat, ok: bool, ips: seq<nat>)
    requires Inv(s) && Enabled(s, Go(t, ok, ips))
    ensures PendingOk(GoStep(s, t, ok, ips))
  {
    hide OwnersOk, LiveOk, ClosedOk, Retained, WithoutToken, Carries;
    var s' := GoStep(s, t, ok, ips);
    if s.calls[t].Requesting? { WithoutTokenIs(s.pending, s.calls[t].token); }
    forall e | e in s'.pending
      ensures e.sid <= s'.nextToken && exists u :: 0 <= u < |s'.calls| && Awaits(s'.calls[u], e.sid)
    {
      if e in s.pending {
        var u :| 0 <= u < |s.calls| && Awaits(s.calls[u], e.sid);
        assert u != t;
        assert Awaits(s'.calls[u], e.sid);
      } else {
        assert Awaits(s'.calls[t], e.sid);
      }
    }
    if s.calls[t].Beginning? { FreshToken(s.pending, Entry(s.nextToken + 1, ips)); }
  }

  lemma ListedWithout(pending: seq<Entry>, token: nat, other: nat)
    requires DistinctSids(pending) && Listed(pending, other) && other != token
    ensures Listed(WithoutToken(pending, token), other)
  {
    hide WithoutToken;
    WithoutTokenIs(pending, token);
    var i :| 0 <= i < |pending| && pending[i].sid == other;
    assert pending[i] in WithoutToken(pending, token);
  }

  lemma ListedStill(pending: seq<Entry>, e: Entry, x: nat)
    ensures Listed(pending + [e], e.sid)
    ensures Listed(pending, x) ==> Listed(pending + [e], x)
  {
    assert (pending + [e])[|pending|] == e;
    if Listed(pending, x) {
      var i :| 0 <= i < |pending| && pending[i].sid == x;
      assert (pending + [e])[i].sid == x;
    }
  }

  lemma GoKeepsAsked(s: State, t: nat, ok: bool, ips: seq<nat>)
    requires Inv(s) && Enabled(s, Go(t, ok, ips))
    ensures AskedOk(GoStep(s, t, ok, ips))
  {
    hide OwnersOk, LiveOk, ClosedOk, Retained, WithoutToken, Carries, Resolved, Listed, DistinctSids;
    var s' := GoStep(s, t, ok, ips);
    forall u | 0 <= u < |s'.calls| && s'.calls[u].Requesting? ensures Listed(s'.pending, s'.calls[u].token) {
      if s.calls[t].Beginning? {
        ListedStill(s.pending, Entry(s.nextToken + 1, ips), s'.calls[u].token);
      } else if s.calls[t].Requesting? {
        ListedWithout(s.pending, s.calls[t].token, s.calls[u].token);
      }
    }
  }

  lemma FreshToken(pending: seq<Entry>, e: Entry)
    requires DistinctSids(pending) && forall f :: f in pending ==> f.sid < e.sid
    ensures DistinctSids(pending + [e])
  {
    forall i | 0 <= i < |pending| ensures pending[i].sid != e.sid { assert pending[i] in pending; }
  }

  lemma GoKeepsClosed(s: State, t: nat, ok: bool, ips: seq<nat>)
    requires Inv(s) && Enabled(s, Go(t, ok, ips))
    ensures ClosedOk(GoStep(s, t, ok, ips))
  {
    hide LiveOk, PendingOk, Retained, WithoutToken, Carries;
    var s' := GoStep(s, t, ok, ips);
    forall m | 0 <= m < |s'.managers| && s'.managers[m].closed && s'.managers[m].sid.Some?
      ensures exists u :: 0 <= u < |s'.calls| && WillTake(s'.calls[u], m)
    {
      if WillTake(s'.calls[t], m) {
      } else {
        assert s.managers[m].sid.Some? && s.managers[m].closed;
        var u :| 0 <= u < |s.calls| && WillTake(s.calls[u], m);
        if u != t { assert WillTake(s'.calls[u], m); }
      }
    }
  }

  lemma GoKeepsIps(s: State, t: nat, ok: bool, ips: seq<nat>)
    requires Inv(s) && Enabled(s, Go(t, ok, ips))
    ensures IpsOk(GoStep(s, t, ok, ips))
  {
    hide OwnersOk, LiveOk, PendingOk, ClosedOk, Retained, WithoutToken, DistinctSids, Resolved, Listed;
    match s.calls[t]
    case Requesting(_, token) =>
      PendingDistinct(s);
      WithoutTokenIs(s.pending, token);
      ResolvedIs(s.pending, token, |s.owners|);
    case RemovingOld(_, sid) => RetainedIs(s.live, sid);
    case Dropping(_, sid) => RetainedIs(s.live, sid);
    case _ =>
  }

  lemma PendingDistinct(s: State)
    requires PendingOk(s)
    ensures DistinctSids(s.pending)
  {
  }

  lemma OthersKeepPending(s: State, step: Step)
    requires Inv(s) && Enabled(s, step) && !step.Go?
    ensures PendingOk(Apply(s, step))
  {
    hide OwnersOk, LiveOk, ClosedOk, Carries;
    var s' := Apply(s, step);
    forall e | e in s'.pending ensures exists u :: 0 <= u < |s'.calls| && Awaits(s'.calls[u], e.sid) {
      var u :| 0 <= u < |s.calls| && Awaits(s.calls[u], e.sid);
      assert Awaits(s'.calls[u], e.sid);
    }
  }

  lemma OthersKeepClosed(s: State, step: Step)
    requires Inv(s) && Enabled(s, step) && !step.Go?
    ensures ClosedOk(Apply(s, step))
  {
    hide OwnersOk, LiveOk, PendingOk, Carries;
    var s' := Apply(s, step);
    forall m | 0 <= m < |s'.managers| && s'.managers[m].closed && s'.managers[m].sid.Some?
      ensures exists u :: 0 <= u < |s'.calls| && WillTake(s'.calls[u], m)
    {
      if step.Unsubscribe? && step.m == m {
        assert WillTake(s'.calls[step.t], m);
      } else {
        assert m < |s.managers|;
        var u :| 0 <= u < |s.calls| && WillTake(s.calls[u], m);
        assert WillTake(s'.calls[u], m);
      }
    }
  }

  lemma OthersKeep(s: State, step: Step)
    requires Inv(s) && Enabled(s, step) && !step.Go?
    ensures Inv(Apply(s, step))
  {
    hide PendingOk, ClosedOk;
    OthersKeepPending(s, step);
    OthersKeepClosed(s, step);
  }

  lemma {:induction false} RunKeeps(s: State, steps: seq<Step>, s': State)
    requires Inv(s) && Run(s, steps, s')
    ensures Inv(s')
    decreases |steps|
  {
    hide OwnersOk, LiveOk, PendingOk, AskedOk, ClosedOk, IpsOk, GoStep;
    if steps != [] {
      match steps[0] {
        case Go(t, ok, ips) =>
          GoKeepsOwners(s, t, ok, ips);
          GoKeepsLive(s, t, ok, ips);
          GoKeepsPending(s, t, ok, ips);
          GoKeepsAsked(s, t, ok, ips);
          GoKeepsClosed(s, t, ok, ips);
          GoKeepsIps(s, t, ok, ips);
        case _ => OthersKeep(s, steps[0]);
      }
      RunKeeps(Apply(s, steps[0]), steps[1..], s');
    }
  }

  ghost predicate Reachable(s: State) {
    exists n: nat, steps :: Run(Fresh(n), steps, s)
  }

  lemma ReachableInv(s: State)
    requires Reachable(s)
    ensures Inv(s)
  {
    var n: nat, steps :| Run(Fresh(n), steps, s);
    assert Inv(Fresh(n));
    RunKeeps(Fresh(n), steps, s);
  }

  // ----- the theorems -----

  predicate Quiet(s: State) {
    forall t :: 0 <= t < |s.calls| ==> s.calls[t] == Returned
  }

  lemma PendingAwaited(s: State)
    requires PendingOk(s)
    ensures s.pending == [] || exists t :: 0 <= t < |s.calls| && s.calls[t].Requesting?
  {
    if s.pending != [] {
      assert s.pending[0] in s.pending;
      var t :| 0 <= t < |s.calls| && Awaits(s.calls[t], s.pending[0].sid);
      assert s.calls[t].Requesting?;
    }
  }

  // Once all calls have returned, the registry holds exactly the managers' current
  // SIDs: one for an open manager that is subscribed, none for a closed one. No
  // exchange is left pending.
  lemma RegistryMatches(s: State)
    requires Reachable(s) && Quiet(s)
    ensures forall x: nat :: Listed(s.live, x) <==> exists m :: 0 <= m < |s.managers| && s.managers[m].sid == Some(x)
    ensures forall m :: 0 <= m < |s.managers| && s.managers[m].closed ==> s.managers[m].sid == None
    ensures s.pending == [] && DistinctSids(s.live)
  {
    ReachableInv(s);
    ListedSids(s);
    forall x: nat | Listed(s.live, x) ensures exists m :: 0 <= m < |s.managers| && s.managers[m].sid == Some(x) {
      assert s.owners[x].Held?;
      assert s.managers[s.owners[x].m].sid == Some(x);
    }
    PendingAwaited(s);
  }

  // Whatever is in the registry was put there by one exchange that succeeded, and is
  // registered for exactly the addresses that this exchange was begun with; so is what
  // is pending.
  lemma RegisteredAsAsked(s: State)
    requires Reachable(s)
    ensures |s.asked| == s.nextToken && |s.tokens| == |s.owners|
    ensures forall e :: e in s.live ==> e.sid < |s.tokens| && Begun(s, s.tokens[e.sid], e.ips)
    ensures forall e :: e in s.pending ==> Begun(s, e.sid, e.ips)
  {
    ReachableInv(s);
  }

  // At any moment, a SID in the registry is some manager's current one, or in the
  // hand of exactly one call that is about to store it or take it off.
  lemma EverySidOwned(s: State, x: nat)
    requires Reachable(s) && Listed(s.live, x)
    ensures (exists m :: 0 <= m < |s.managers| && s.managers[m].sid == Some(x))
         != (exists t :: 0 <= t < |s.calls| && Carries(s.calls[t]) == Some(x))
    ensures forall t, u ::
              0 <= t < |s.calls| && 0 <= u < |s.calls| && Carries(s.calls[t]) == Some(x) == Carries(s.calls[u]) ==>
              t == u
  {
    ReachableInv(s);
    ListedSids(s);
    match s.owners[x]
    case Held(m) => assert s.managers[m].sid == Some(x);
    case Carried(t) => assert Carries(s.calls[t]) == Some(x);
  }
}
