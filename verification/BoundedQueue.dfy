/**
 A bounded queue that drops its oldest elements: a write keeps the newest, a
 read takes from the front. The byte ring and the event queue are such queues.
 */
module BoundedQueue {
  // The last `cap` elements of s.
  function Newest<T>(s: seq<T>, cap: nat): (r: seq<T>)
    ensures |r| == if |s| <= cap then |s| else cap
  {
    if |s| <= cap then s else s[|s| - cap..]
  }

  function Taken<T>(q: seq<T>, max: nat): nat {
    if |q| <= max then |q| else max
  }

  datatype Op<T> = Write(data: seq<T>) | Read(max: nat) | Reset

  // `out` are the elements read so far, `lost` those that writes reported as
  // overwritten, `dropped` those that resets threw away.
  datatype Queue<T> = Queue(items: seq<T>, out: seq<T>, lost: nat, dropped: nat)

  function Step<T>(cap: nat, q: Queue<T>, op: Op<T>): (r: Queue<T>) {
    match op
    case Write(data) =>
      var kept := Newest(q.items + data, cap);
      q.(items := kept, lost := q.lost + |q.items + data| - |kept|)
    case Read(max) =>
      var n := Taken(q.items, max);
      q.(items := q.items[n..], out := q.out + q.items[..n])
    case Reset => q.(items := [], dropped := q.dropped + |q.items|)
  }

  function Run<T>(cap: nat, q: Queue<T>, ops: seq<Op<T>>): (r: Queue<T>)
    decreases |ops|
  {
    if ops == [] then q else Run(cap, Step(cap, q, ops[0]), ops[1..])
  }

  // What the operation adds to the input.
  function Fed<T>(op: Op<T>): seq<T> {
    if op.Write? then op.data else []
  }

  // Everything that the run writes, end to end.
  function Written<T>(ops: seq<Op<T>>): seq<T> {
    if ops == [] then []
    else Fed(ops[0]) + Written(ops[1..])
  }

  // s is w with some elements left out, in the same order.
  ghost predicate Thinned<T>(s: seq<T>, w: seq<T>) {
    exists at: seq<nat> :: Picks(s, w, at)
  }

  ghost predicate Picks<T>(s: seq<T>, w: seq<T>, at: seq<nat>) {
    && |at| == |s|
    && (forall i, j :: 0 <= i < j < |at| ==> at[i] < at[j])
    && (forall i :: 0 <= i < |at| ==> at[i] < |w| && w[at[i]] == s[i])
  }

  lemma ThinnedSelf<T>(s: seq<T>)
    ensures Thinned(s, s)
  {
    assert Picks(s, s, seq(|s|, i requires 0 <= i => i));
  }

  lemma ThinnedAppend<T>(s: seq<T>, w: seq<T>, t: seq<T>)
    requires Thinned(s, w)
    ensures Thinned(s + t, w + t)
  {
    var at :| Picks(s, w, at);
    assert Picks(s + t, w + t, at + seq(|t|, i requires 0 <= i => |w| + i));
  }

  // Leaving out the elements from a to b once more.
  lemma ThinnedCut<T>(s: seq<T>, w: seq<T>, a: nat, b: nat)
    requires Thinned(s, w) && a <= b <= |s|
    ensures Thinned(s[..a] + s[b..], w)
  {
    var at :| Picks(s, w, at);
    assert Picks(s[..a] + s[b..], w, at[..a] + at[b..]);
  }

  lemma Assoc<T>(a: seq<T>, b: seq<T>, c: seq<T>)
    ensures a + b + c == a + (b + c)
  {
  }

  lemma WriteThinned<T>(cap: nat, q: Queue<T>, data: seq<T>, w: seq<T>)
    requires Thinned(q.out + q.items, w)
    ensures Thinned(q.out + Newest(q.items + data, cap), w + data)
  {
    hide Thinned;
    var kept := Newest(q.items + data, cap);
    var cut := |q.items + data| - |kept|;
    var all := q.out + q.items + data;
    Assoc(q.out, q.items, data);
    ThinnedAppend(q.out + q.items, w, data);
    ThinnedCut(all, w + data, |q.out|, |q.out| + cut);
    assert kept == (q.items + data)[cut..];
    CutBehind(q.out, q.items + data, cut);
  }

  // Cutting behind what was read.
  lemma CutBehind<T>(out: seq<T>, items: seq<T>, cut: nat)
    requires cut <= |items|
    ensures (out + items)[..|out|] + (out + items)[|out| + cut..] == out + items[cut..]
  {
  }

  // One step: what was read and what is queued stays the old, in order, with
  // the new ones behind and some left out.
  lemma StepThinned<T>(cap: nat, q: Queue<T>, op: Op<T>, w: seq<T>)
    requires Thinned(q.out + q.items, w)
    ensures var q' := Step(cap, q, op);
      Thinned(q'.out + q'.items, w + Fed(op))
  {
    hide Thinned, Newest;
    assert w + [] == w;
    match op
    case Write(data) => WriteThinned(cap, q, data, w);
    case Read(max) =>
      var n := Taken(q.items, max);
      Assoc(q.out, q.items[..n], q.items[n..]);
      assert q.items[..n] + q.items[n..] == q.items;
    case Reset =>
      ThinnedCut(q.out + q.items, w, |q.out|, |q.out + q.items|);
      CutBehind(q.out, q.items, |q.items|);
      assert q.items[|q.items|..] == [];
  }

  lemma {:induction false} RunThinned<T>(cap: nat, q: Queue<T>, ops: seq<Op<T>>, w: seq<T>)
    requires Thinned(q.out + q.items, w)
    ensures var r := Run(cap, q, ops);
      Thinned(r.out + r.items, w + Written(ops))
    decreases |ops|
  {
    if ops == [] {
      assert w + [] == w;
    } else {
      hide Thinned, Step, Fed;
      StepThinned(cap, q, ops[0], w);
      RunThinned(cap, Step(cap, q, ops[0]), ops[1..], w + Fed(ops[0]));
      Assoc(w, Fed(ops[0]), Written(ops[1..]));
    }
  }

  function Empty<T>(): Queue<T> {
    Queue([], [], 0, 0)
  }

  // Whatever the run, what was read and then what is queued are elements of the
  // input in their order, none twice.
  lemma InOrder<T>(cap: nat, ops: seq<Op<T>>)
    ensures var r := Run(cap, Empty(), ops);
      Thinned(r.out + r.items, Written(ops)) && |r.items| <= cap
  {
    hide Thinned, Run, Written;
    var none: seq<T> := [];
    ThinnedSelf(none);
    assert none + none == none;
    RunThinned(cap, Empty<T>(), ops, none);
    assert none + Written(ops) == Written(ops);
    RunBounded(cap, Empty(), ops);
  }

  lemma {:induction false} RunBounded<T>(cap: nat, q: Queue<T>, ops: seq<Op<T>>)
    requires |q.items| <= cap
    ensures |Run(cap, q, ops).items| <= cap
    decreases |ops|
  {
    if ops != [] { RunBounded(cap, Step(cap, q, ops[0]), ops[1..]); }
  }

  // Nothing is lost without being counted ...
  lemma {:induction false} RunConserves<T>(cap: nat, q: Queue<T>, ops: seq<Op<T>>)
    ensures var r := Run(cap, q, ops);
      |r.out| + |r.items| + r.lost + r.dropped == |q.out| + |q.items| + q.lost + q.dropped + |Written(ops)|
    ensures Run(cap, q, ops).lost >= q.lost && Run(cap, q, ops).dropped >= q.dropped
    decreases |ops|
  {
    if ops != [] { RunConserves(cap, Step(cap, q, ops[0]), ops[1..]); }
  }

  lemma {:induction false} PicksAll(at: seq<nat>, n: nat)
    requires |at| == n && (forall i, j :: 0 <= i < j < n ==> at[i] < at[j]) && (forall i :: 0 <= i < n ==> at[i] < n)
    ensures forall i :: 0 <= i < n ==> at[i] == i
  {
    if n > 0 {
      forall i | 0 <= i < n - 1 ensures at[i] < n - 1 {
        assert at[i] < at[n - 1];
      }
      PicksAll(at[..n - 1], n - 1);
      forall i | 0 <= i < n - 1 ensures at[i] == i {
        assert at[..n - 1][i] == i;
      }
      assert n > 1 ==> at[n - 2] < at[n - 1];
    }
  }

  // ... and a run that reports no loss delivers exactly its input, in order,
  // the queued elements still to come.
  lemma LosslessRun<T>(cap: nat, ops: seq<Op<T>>)
    requires Run(cap, Empty(), ops).lost == 0 && Run(cap, Empty(), ops).dropped == 0
    ensures var r := Run(cap, Empty(), ops); r.out + r.items == Written(ops)
  {
    var r := Run(cap, Empty(), ops);
    InOrder(cap, ops);
    RunConserves(cap, Empty(), ops);
    var at :| Picks(r.out + r.items, Written(ops), at);
    PicksAll(at, |Written(ops)|);
  }
}
