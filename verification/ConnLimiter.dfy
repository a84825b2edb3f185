/** The connection budget of the HTTP server: newcomers get in, the oldest make room. */
module ConnLimiter {
  import opened Common

  const MAX_CONNECTIONS: nat := 128
  const MAX_CONNECTIONS_PER_PEER: nat := 16
  const MAX_PROTECTED_CONNECTIONS_PER_PEER: nat := 64

  datatype Ip = V4(n: nat) | V6(n: nat)

  // canonical_ip: an IPv4 address mapped into IPv6 counts as the IPv4 address.
  function Canonical(ip: Ip): Ip {
    if ip.V6? && ip.n / 0x1_0000_0000 == 0xFFFF then V4(ip.n % 0x1_0000_0000) else ip
  }

  datatype Tracked = Tracked(id: nat, peer: Ip, priority: bool)

  // Which connections are charged to a budget.
  datatype Scope = SamePeer(peer: Ip) | Unprotected

  predicate In(t: Tracked, s: Scope) {
    match s
    case SamePeer(peer) => t.peer == peer
    case Unprotected => !t.priority
  }

  function Count(conns: seq<Tracked>, s: Scope): nat {
    if conns == [] then 0 else (if In(conns[0], s) then 1 else 0) + Count(conns[1..], s)
  }

  // The place of the oldest connection in a budget; |conns| if there is none.
  function Oldest(conns: seq<Tracked>, s: Scope): (p: nat)
    ensures p <= |conns| && (p < |conns| ==> In(conns[p], s))
    ensures forall i :: 0 <= i < p ==> !In(conns[i], s)
    ensures p == |conns| <==> Count(conns, s) == 0
  {
    if conns == [] || In(conns[0], s) then 0
    else
      var p := Oldest(conns[1..], s);
      assert forall i :: 0 < i < 1 + p ==> conns[i] == conns[1..][i - 1];
      1 + p
  }

  function Without(conns: seq<Tracked>, p: nat): seq<Tracked>
    requires p < |conns|
  {
    conns[..p] + conns[p + 1..]
  }

  function PeerCap(priority: bool): nat {
    if priority then MAX_PROTECTED_CONNECTIONS_PER_PEER else MAX_CONNECTIONS_PER_PEER
  }

  // The budget that a newcomer finds full, if any.
  function FullBudget(conns: seq<Tracked>, peer: Ip, priority: bool): Option<Scope> {
    if Count(conns, SamePeer(peer)) >= PeerCap(priority) then Some(SamePeer(peer))
    else if !priority && Count(conns, Unprotected) >= MAX_CONNECTIONS then Some(Unprotected)
    else None
  }

  // The connections once the newcomer is in.
  function Admitted(conns: seq<Tracked>, id: nat, peer: Ip, priority: bool): seq<Tracked> {
    var full := FullBudget(conns, peer, priority);
    var room :=
      if full.None? then conns
      else
        var p := Oldest(conns, full.value);
        if p < |conns| then Without(conns, p) else conns;
    room + [Tracked(id, peer, priority)]
  }

  // The connections closed to make room for it.
  function Evicted(conns: seq<Tracked>, peer: Ip, priority: bool): (ids: seq<nat>)
    ensures |ids| <= 1
  {
    var full := FullBudget(conns, peer, priority);
    if full.None? || Oldest(conns, full.value) == |conns| then [] else [conns[Oldest(conns, full.value)].id]
  }

  function Dropped(conns: seq<Tracked>, id: nat): seq<Tracked> {
    if conns == [] then []
    else (if conns[0].id == id then [] else [conns[0]]) + Dropped(conns[1..], id)
  }

  // ----- the invariant, for a fixed set of protected addresses -----

  ghost predicate Inv(conns: seq<Tracked>, nextId: nat, protect: Ip -> bool) {
    && (forall i :: 0 <= i < |conns| ==> conns[i].id <= nextId && conns[i].priority == protect(conns[i].peer))
    && (forall i, j :: 0 <= i < j < |conns| ==> conns[i].id < conns[j].id)
    && (forall ip :: Count(conns, SamePeer(ip)) <= PeerCap(protect(ip)))
    && Count(conns, Unprotected) <= MAX_CONNECTIONS
  }

  lemma {:induction false} CountJoins(a: seq<Tracked>, b: seq<Tracked>, s: Scope)
    ensures Count(a + b, s) == Count(a, s) + Count(b, s)
  {
    if a == [] {
      assert a + b == b;
    } else {
      assert (a + b)[1..] == a[1..] + b;
      CountJoins(a[1..], b, s);
    }
  }

  lemma CountWithout(conns: seq<Tracked>, p: nat, s: Scope)
    requires p < |conns|
    ensures Count(Without(conns, p), s) == Count(conns, s) - (if In(conns[p], s) then 1 else 0)
  {
    assert conns == conns[..p] + ([conns[p]] + conns[p + 1..]);
    CountJoins(conns[..p], [conns[p]] + conns[p + 1..], s);
    CountJoins([conns[p]], conns[p + 1..], s);
    CountJoins(conns[..p], conns[p + 1..], s);
  }

  lemma CountWith(conns: seq<Tracked>, t: Tracked, s: Scope)
    ensures Count(conns + [t], s) == Count(conns, s) + (if In(t, s) then 1 else 0)
  {
    CountJoins(conns, [t], s);
  }

  // A full budget has a connection to close.
  lemma FullHasOne(conns: seq<Tracked>, peer: Ip, priority: bool)
    ensures var full := FullBudget(conns, peer, priority);
      full.Some? ==> Oldest(conns, full.value) < |conns|
  {
  }

  lemma AdmitCounts(conns: seq<Tracked>, nextId: nat, id: nat, peer: Ip, protect: Ip -> bool, s: Scope)
    requires Inv(conns, nextId, protect)
    ensures var full := FullBudget(conns, peer, protect(peer));
      var out := if full.Some? && In(conns[Oldest(conns, full.value)], s) then 1 else 0;
      Count(Admitted(conns, id, peer, protect(peer)), s)
        == Count(conns, s) - out + (if In(Tracked(id, peer, protect(peer)), s) then 1 else 0)
  {
    var full := FullBudget(conns, peer, protect(peer));
    FullHasOne(conns, peer, protect(peer));
    var t := Tracked(id, peer, protect(peer));
    if full.Some? {
      var p := Oldest(conns, full.value);
      CountWithout(conns, p, s);
      CountWith(Without(conns, p), t, s);
    } else {
      CountWith(conns, t, s);
    }
  }

  // Admission keeps every address within its cap and the unprotected
  // connections within theirs.
  lemma AdmitKeeps(conns: seq<Tracked>, nextId: nat, peer: Ip, protect: Ip -> bool)
    requires Inv(conns, nextId, protect)
    ensures Inv(Admitted(conns, nextId + 1, peer, protect(peer)), nextId + 1, protect)
  {
    hide Count, Oldest, FullBudget;
    AdmitOrder(conns, nextId, peer, protect);
    AdmitBudgets(conns, nextId, peer, protect);
  }

  lemma AdmitOrder(conns: seq<Tracked>, nextId: nat, peer: Ip, protect: Ip -> bool)
    requires Inv(conns, nextId, protect)
    ensures var after := Admitted(conns, nextId + 1, peer, protect(peer));
      && (forall i :: 0 <= i < |after| ==> after[i].id <= nextId + 1 && after[i].priority == protect(after[i].peer))
      && (forall i, j :: 0 <= i < j < |after| ==> after[i].id < after[j].id)
  {
    hide Count, Oldest, FullBudget;
  }

  lemma AdmitBudgets(conns: seq<Tracked>, nextId: nat, peer: Ip, protect: Ip -> bool)
    requires Inv(conns, nextId, protect)
    ensures var after := Admitted(conns, nextId + 1, peer, protect(peer));
      && (forall ip :: Count(after, SamePeer(ip)) <= PeerCap(protect(ip)))
      && Count(after, Unprotected) <= MAX_CONNECTIONS
  {
    hide Count, Oldest, Admitted;
    var after := Admitted(conns, nextId + 1, peer, protect(peer));
    FullHasOne(conns, peer, protect(peer));
    forall ip ensures Count(after, SamePeer(ip)) <= PeerCap(protect(ip)) {
      AdmitCounts(conns, nextId, nextId + 1, peer, protect, SamePeer(ip));
    }
    AdmitCounts(conns, nextId, nextId + 1, peer, protect, Unprotected);
  }

  // At most one connection is closed for a newcomer: the oldest of the budget that
  // is full. A protected one is closed only for its own address.
  lemma AdmitClosesOne(conns: seq<Tracked>, nextId: nat, peer: Ip, protect: Ip -> bool)
    requires Inv(conns, nextId, protect)
    ensures var after, t := Admitted(conns, nextId + 1, peer, protect(peer)), Tracked(nextId + 1, peer, protect(peer));
      || after == conns + [t]
      || exists p, s :: 0 <= p < |conns| && p == Oldest(conns, s) && after == Without(conns, p) + [t]
           && FullBudget(conns, peer, protect(peer)) == Some(s)
           && (conns[p].priority ==> conns[p].peer == peer)
  {
    FullHasOne(conns, peer, protect(peer));
    var full := FullBudget(conns, peer, protect(peer));
    if full.Some? {
      var p := Oldest(conns, full.value);
      assert In(conns[p], full.value);
    }
  }

  // Exactly the connections that are closed leave the list.
  lemma EvictedLeave(conns: seq<Tracked>, nextId: nat, peer: Ip, protect: Ip -> bool, x: Tracked)
    requires Inv(conns, nextId, protect)
    ensures x in Admitted(conns, nextId + 1, peer, protect(peer)) <==>
              || x == Tracked(nextId + 1, peer, protect(peer))
              || (x in conns && x.id !in Evicted(conns, peer, protect(peer)))
  {
    hide Count, Oldest, PeerCap;
    var full := FullBudget(conns, peer, protect(peer));
    FullHasOne(conns, peer, protect(peer));
    if full.Some? {
      var p := Oldest(conns, full.value);
      forall i | 0 <= i < |conns| && i != p ensures conns[i] in Without(conns, p) && conns[i].id != conns[p].id {
        assert Without(conns, p)[if i < p then i else i - 1] == conns[i];
      }
    }
  }

  lemma {:induction false} DropCounts(conns: seq<Tracked>, id: nat, s: Scope)
    ensures Count(Dropped(conns, id), s) <= Count(conns, s)
  {
    if conns != [] {
      DropCounts(conns[1..], id, s);
      CountJoins(if conns[0].id == id then [] else [conns[0]], Dropped(conns[1..], id), s);
    }
  }

  lemma {:induction false} DropSubset(conns: seq<Tracked>, id: nat)
    requires forall i, j :: 0 <= i < j < |conns| ==> conns[i].id < conns[j].id
    ensures var r := Dropped(conns, id);
      && (forall t :: t in r <==> t in conns && t.id != id)
      && (forall i, j :: 0 <= i < j < |r| ==> r[i].id < r[j].id)
  {
    if conns != [] {
      DropSubset(conns[1..], id);
      assert conns == [conns[0]] + conns[1..];
      var rest := Dropped(conns[1..], id);
      forall j | 0 <= j < |rest| ensures conns[0].id < rest[j].id {
        assert rest[j] in conns[1..];
        var k :| 0 <= k < |conns[1..]| && conns[1..][k] == rest[j];
        assert conns[1 + k] == rest[j];
      }
    }
  }

  // Dropping a permit takes its own connection off the list and no other.
  lemma DropKeeps(conns: seq<Tracked>, nextId: nat, id: nat, protect: Ip -> bool)
    requires Inv(conns, nextId, protect)
    ensures Inv(Dropped(conns, id), nextId, protect)
    ensures forall t :: t in Dropped(conns, id) <==> t in conns && t.id != id
  {
    hide Count;
    DropSubset(conns, id);
    var r := Dropped(conns, id);
    forall i | 0 <= i < |r| ensures r[i].id <= nextId && r[i].priority == protect(r[i].peer) {
      assert r[i] in conns;
    }
    forall ip ensures Count(r, SamePeer(ip)) <= PeerCap(protect(ip)) {
      DropCounts(conns, id, SamePeer(ip));
    }
    DropCounts(conns, id, Unprotected);
  }

  // ----- runs -----

  datatype Event = Arrive(peer: Ip, cloned: bool) | Drop(id: nat)

  datatype State = State(conns: seq<Tracked>, nextId: nat)

  function Step(s: State, e: Event, protect: Ip -> bool): State {
    match e
    case Arrive(ip, cloned) =>
      if !cloned then s
      else
        var peer := Canonical(ip);
        State(Admitted(s.conns, s.nextId + 1, peer, protect(peer)), s.nextId + 1)
    case Drop(id) => s.(conns := Dropped(s.conns, id))
  }

  function Run(s: State, events: seq<Event>, protect: Ip -> bool): State
    decreases |events|
  {
    if events == [] then s else Run(Step(s, events[0], protect), events[1..], protect)
  }

  lemma {:induction false} RunKeeps(s: State, events: seq<Event>, protect: Ip -> bool)
    requires Inv(s.conns, s.nextId, protect)
    ensures Inv(Run(s, events, protect).conns, Run(s, events, protect).nextId, protect)
    decreases |events|
  {
    hide Inv, Admitted, Dropped;
    if events != [] {
      match events[0] {
        case Arrive(ip, cloned) => AdmitKeeps(s.conns, s.nextId, Canonical(ip), protect);
        case Drop(id) => DropKeeps(s.conns, s.nextId, id, protect);
      }
      RunKeeps(Step(s, events[0], protect), events[1..], protect);
    }
  }

  // Over every run of arrivals and drops the budgets hold.
  lemma BudgetsHold(events: seq<Event>, protect: Ip -> bool)
    ensures var s := Run(State([], 0), events, protect);
      && (forall ip :: Count(s.conns, SamePeer(ip)) <= PeerCap(protect(ip)))
      && Count(s.conns, Unprotected) <= MAX_CONNECTIONS
  {
    RunKeeps(State([], 0), events, protect);
  }

  // ----- the limiter object -----

  class Limiter {
    var nextId: nat
    var conns: seq<Tracked>
    var closed: seq<nat> // the connections shut down to make room

    constructor ()
      ensures conns == [] && nextId == 0 && closed == []
    {
      nextId, conns, closed := 0, [], [];
    }

    method CountIn(s: Scope) returns (n: nat)
      ensures n == Count(conns, s)
    {
      n := 0;
      for i := 0 to |conns|
        invariant n + Count(conns[i..], s) == Count(conns, s)
      {
        if In(conns[i], s) {
          n := n + 1;
        }
      }
    }

    method EvictOldest(s: Scope)
      modifies this`conns, this`closed
      ensures var p := Oldest(old(conns), s);
        if p < |old(conns)| then conns == Without(old(conns), p) && closed == old(closed) + [old(conns)[p].id]
        else unchanged(this)
    {
      var pos := 0;
      while pos < |conns| && !In(conns[pos], s)
        invariant pos <= |conns| && forall i :: 0 <= i < pos ==> !In(conns[i], s)
        invariant conns == old(conns) && closed == old(closed)
      {
        pos := pos + 1;
      }
      if pos < |conns| {
        closed := closed + [conns[pos].id];
        conns := conns[..pos] + conns[pos + 1..];
      }
    }

    // `cloned` is false when the socket handle cannot be duplicated; that is the
    // only reason for a refusal.
    method Admit(ip: Ip, priority: bool, cloned: bool) returns (permit: Option<nat>)
      modifies this
      ensures permit.Some? <==> cloned
      ensures !cloned ==> unchanged(this)
      ensures cloned ==>
        && nextId == old(nextId) + 1 && permit == Some(nextId)
        && conns == Admitted(old(conns), nextId, Canonical(ip), priority)
        && closed == old(closed) + Evicted(old(conns), Canonical(ip), priority)
    {
      if !cloned {
        return None;
      }
      var peer := Canonical(ip);
      var samePeer := CountIn(SamePeer(peer));
      var perPeerCap := if priority then MAX_PROTECTED_CONNECTIONS_PER_PEER else MAX_CONNECTIONS_PER_PEER;
      if samePeer >= perPeerCap {
        EvictOldest(SamePeer(peer));
      } else if !priority {
        var unprotected := CountIn(Unprotected);
        if unprotected >= MAX_CONNECTIONS {
          EvictOldest(Unprotected);
        }
      }
      nextId := nextId + 1;
      conns := conns + [Tracked(nextId, peer, priority)];
      return Some(nextId);
    }

    // Dropping a permit: keeps every other connection.
    method Release(id: nat)
      modifies this`conns
      ensures conns == Dropped(old(conns), id)
    {
      var kept := [];
      for i := 0 to |conns|
        invariant conns == old(conns) && kept + Dropped(conns[i..], id) == Dropped(conns, id)
      {
        var was := kept;
        if conns[i].id != id {
          kept := kept + [conns[i]];
        }
        assert conns[i..][1..] == conns[i + 1..];
      }
      assert kept + [] == kept;
      conns := kept;
    }
  }
}
