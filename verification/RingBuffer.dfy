/** The driver's power-of-two byte ring with drop-oldest overrun. */
module RingBuffer {
  import opened Common
  import opened Arith
  import opened Bits
  import opened BoundedQueue

  // Where the byte k behind a counter lies in a buffer of c bytes.
  function Slot(counter: nat, k: nat, c: nat): (p: nat)
    requires c > 0
    ensures p < c
  {
    (counter + k) % c
  }

  // A slot depends only on the sum of its counters, up to one wrap.
  lemma SlotSum(a: nat, j: nat, b: nat, k: nat, c: nat)
    requires c > 0 && (a + j == b + k || a + j + c == b + k)
    ensures Slot(a, j, c) == Slot(b, k, c)
  {
    var d, e := (a + j) / c, (a + j) % c;
    assert a + j == d * c + e;
    assert (d + 1) * c == d * c + c;
    if a + j + c == b + k { DivModUnique(b + k, c, d + 1, e); }
  }

  // The slots behind a counter, on either side of the wrap.
  lemma SlotAt(counter: nat, k: nat, c: nat)
    requires k < c
    ensures var idx := Slot(counter, 0, c); Slot(counter, k, c) == if idx + k < c then idx + k else idx + k - c
  {
    WrapOnce(counter, k, c);
  }

  // The n bytes from a counter on.
  function Window(buf: seq<Byte>, head: nat, n: nat): (w: seq<Byte>)
    requires |buf| > 0
    ensures |w| == n
  {
    seq(n, k requires 0 <= k < n => buf[Slot(head, k, |buf|)])
  }

  lemma WindowDrop(buf: seq<Byte>, head: nat, n: nat, d: nat)
    requires |buf| > 0 && d <= n
    ensures Window(buf, head + d, n - d) == Window(buf, head, n)[d..]
  {
    forall k | 0 <= k < n - d ensures Window(buf, head + d, n - d)[k] == Window(buf, head, n)[d..][k] {
      SlotSum(head + d, k, head, d + k, |buf|);
    }
  }

  lemma WindowTake(buf: seq<Byte>, head: nat, n: nat, d: nat)
    requires |buf| > 0 && d <= n
    ensures Window(buf, head, d) == Window(buf, head, n)[..d]
  {
  }

  // Bytes laid down from `tail` on, in a buffer of the same size.
  ghost predicate LaidDown(was: seq<Byte>, buf: seq<Byte>, tail: nat, src: seq<Byte>) {
    && 0 < |buf| == |was| && |src| <= |buf|
    && (forall j :: 0 <= j < |src| ==> buf[Slot(tail, j, |buf|)] == src[j])
    && (forall j :: |src| <= j < |buf| ==> buf[Slot(tail, j, |buf|)] == was[Slot(tail, j, |buf|)])
  }

  // Two pieces, up to the end of the buffer and from its start, are laid down from `tail` on.
  lemma PiecesLaid(was: seq<Byte>, buf: seq<Byte>, tail: nat, src: seq<Byte>, idx: nat, first: nat)
    requires 0 < |buf| == |was| && |src| <= |buf| && idx == Slot(tail, 0, |buf|)
    requires first == if |buf| - idx > |src| then |src| else |buf| - idx
    requires forall p :: 0 <= p < |buf| ==>
      buf[p] == if idx <= p < idx + first then src[p - idx] else if p < |src| - first then src[first + p] else was[p]
    ensures LaidDown(was, buf, tail, src)
  {
    hide Slot;
    forall j | 0 <= j < |buf|
      ensures Slot(tail, j, |buf|) == if idx + j < |buf| then idx + j else idx + j - |buf|
    {
      SlotAt(tail, j, |buf|);
    }
  }

  lemma WindowWritten(was: seq<Byte>, buf: seq<Byte>, head: nat, tail: nat, src: seq<Byte>, newHead: nat)
    requires LaidDown(was, buf, tail, src) && head <= tail <= head + |buf|
    requires newHead == if tail + |src| - head <= |buf| then head else tail + |src| - |buf|
    ensures Window(buf, newHead, tail + |src| - newHead) == Newest(Window(was, head, tail - head) + src, |buf|)
  {
    hide Slot;
    var c, all := |buf|, Window(was, head, tail - head) + src;
    forall k | 0 <= k < tail + |src| - newHead
      ensures buf[Slot(newHead, k, c)] == Newest(all, c)[k]
    {
      if newHead + k < tail {
        SlotSum(newHead, k, tail, newHead + k + c - tail, c);
        SlotSum(newHead, k, head, newHead + k - head, c);
      } else {
        SlotSum(newHead, k, tail, newHead + k - tail, c);
      }
    }
  }

  // Bytes that cannot be kept may as well be skipped.
  lemma OnlyTheEndCounts(q: seq<Byte>, data: seq<Byte>, skip: nat, cap: nat)
    requires skip == if |data| > cap then |data| - cap else 0
    ensures Newest(q + data[skip..], cap) == Newest(q + data, cap)
  {
    assert skip == 0 ==> data[skip..] == data;
  }

  // What a write makes of the queue.
  lemma WriteKeepsNewest(was: seq<Byte>, buf: seq<Byte>, head: nat, tail: nat, data: seq<Byte>, skip: nat, newHead: nat)
    requires 0 < |buf| == |was|
    requires skip == if |data| > |buf| then |data| - |buf| else 0
    requires LaidDown(was, buf, tail, data[skip..]) && head <= tail <= head + |buf|
    requires newHead == if tail + |data| - skip - head <= |buf| then head else tail + |data| - skip - |buf|
    ensures Window(buf, newHead, tail + |data| - skip - newHead) == Newest(Window(was, head, tail - head) + data, |buf|)
  {
    hide Window, LaidDown, Newest;
    WindowWritten(was, buf, head, tail, data[skip..], newHead);
    OnlyTheEndCounts(Window(was, head, tail - head), data, skip, |buf|);
  }

  lemma NothingWritten(q: seq<Byte>, cap: nat)
    requires |q| <= cap
    ensures Newest(q + [], cap) == q
  {
  }

  class Ring {
    var Buffer: array?<Byte>
    var Capacity: nat
    var CapacityMask: nat
    var Head: nat
    var Tail: nat

    ghost predicate Valid()
      reads this
    {
      if Buffer == null then Capacity == 0
      else
        && Capacity == Buffer.Length > 0 && IsPow2(Capacity) && CapacityMask == Capacity - 1
        && Head <= Tail <= Head + Capacity
    }

    // The queued bytes, oldest first.
    ghost function Contents(): (q: seq<Byte>)
      reads this, Buffer
      requires Valid()
      ensures |q| == if Buffer == null then 0 else Tail - Head
    {
      if Buffer == null then []
      else Window(Buffer[..], Head, Tail - Head)
    }

    // A zeroed structure, as before RingBufferInit.
    constructor ()
      ensures Valid() && Buffer == null
    {
      Buffer, Capacity, CapacityMask, Head, Tail := null, 0, 0, 0, 0;
    }

    // `pool` says whether the allocation succeeds.
    method Init(capacityBytes: nat, pool: bool) returns (status: Status)
      modifies this
      ensures status == if !IsPow2(capacityBytes) then InvalidParameter
                        else if !pool then InsufficientResources
                        else Success
      ensures status == InvalidParameter ==> unchanged(this)
      ensures status == InsufficientResources ==> Valid() && Buffer == null
      ensures status == Success ==>
        Valid() && Buffer != null && fresh(Buffer) && Capacity == capacityBytes && Contents() == [] && Head == 0
    {
      if capacityBytes == 0 {
        assert forall k: nat :: Pow2(k) > 0;
        return InvalidParameter;
      }
      PowerTest(capacityBytes);
      if And(capacityBytes, capacityBytes - 1) != 0 {
        return InvalidParameter;
      }
      Buffer, Capacity, CapacityMask, Head, Tail := null, 0, 0, 0, 0;
      if !pool {
        return InsufficientResources;
      }
      Buffer := new Byte[capacityBytes](_ => 0);
      Capacity := capacityBytes;
      CapacityMask := capacityBytes - 1;
      return Success;
    }

    method Destroy()
      modifies this
      ensures Valid() && Buffer == null && Contents() == []
    {
      Buffer, Capacity, CapacityMask, Head, Tail := null, 0, 0, 0, 0;
    }

    method Available() returns (n: nat)
      requires Valid()
      ensures n == |Contents()|
    {
      if Buffer == null {
        return 0;
      }
      var avail := Tail - Head;
      if avail < 0 || avail > Capacity {
        assert false;
      }
      return avail;
    }

    method Reset()
      requires Valid()
      modifies this`Head
      ensures Valid() && Contents() == []
    {
      if Buffer != null {
        Head := Tail;
      }
    }

    // Copies src into the ring from counter `tail` on, in at most two pieces.
    method CopyIn(tail: nat, src: seq<Byte>)
      requires Valid() && Buffer != null && |src| <= Capacity
      modifies Buffer
      ensures LaidDown(old(Buffer[..]), Buffer[..], tail, src)
    {
      hide Slot, And, IsPow2, Pow2, LaidDown;
      MaskIsSlot(tail);
      var idx := And(tail, CapacityMask);
      var first := Capacity - idx;
      if first > |src| {
        first := |src|;
      }
      forall k | 0 <= k < first {
        Buffer[idx + k] := src[k];
      }
      var second := |src| - first;
      if second > 0 {
        forall k | 0 <= k < second {
          Buffer[k] := src[first + k];
        }
      }
      PiecesLaid(old(Buffer[..]), Buffer[..], tail, src, idx, first);
    }

    // Copies n bytes from counter `head` on to the front of `out`, in at most two pieces.
    method CopyOut(head: nat, n: nat, out: array<Byte>)
      requires Valid() && Buffer != null && n <= Capacity && n <= out.Length && out != Buffer
      modifies out
      ensures out[..n] == Window(Buffer[..], head, n) && out[n..] == old(out[n..])
    {
      hide Slot, And, IsPow2, Pow2;
      MaskIsSlot(head);
      var idx := And(head, CapacityMask);
      var first := Capacity - idx;
      if first > n {
        first := n;
      }
      forall k | 0 <= k < first {
        out[k] := Buffer[idx + k];
      }
      var second := n - first;
      if second > 0 {
        forall k | 0 <= k < second {
          out[first + k] := Buffer[k];
        }
      }
      forall k | 0 <= k < n ensures out[k] == Window(Buffer[..], head, n)[k] {
        SlotAt(head, k, Capacity);
      }
    }

    lemma MaskIsSlot(counter: nat)
      requires Valid() && Buffer != null
      ensures Capacity > 0 && And(counter, CapacityMask) == Slot(counter, 0, Capacity)
    {
      var k: nat :| Capacity == Pow2(k);
      MaskIsModulo(counter, k);
    }

    // Appends data, dropping the oldest bytes when it does not fit; the result
    // is the number of bytes lost.
    method Write(data: seq<Byte>) returns (overwritten: nat)
      requires Valid()
      modifies this`Head, this`Tail, Buffer
      ensures Valid()
      ensures Contents() == Newest(old(Contents()) + data, Capacity) || Buffer == null
      ensures overwritten == if Buffer == null then 0 else |old(Contents())| + |data| - |Contents()|
      ensures Buffer != null ==> Tail == old(Tail) + (if |data| <= Capacity then |data| else Capacity)
    {
      hide Slot, Window, LaidDown, Newest, IsPow2, Pow2;
      NothingWritten(Contents(), Capacity);
      if Buffer == null || |data| == 0 {
        assert data == [] || Buffer == null;
        return 0;
      }
      ghost var was := Buffer[..];
      var effective := |data|;
      var skipSrc := 0;
      if effective > Capacity {
        skipSrc := effective - Capacity;
        effective := Capacity;
      }
      var src := data[skipSrc..];
      overwritten := skipSrc;
      var head, tail := Head, Tail;
      var used := tail - head;
      var free := Capacity - used;
      if effective > free {
        var drop := effective - free;
        Head := head + drop;
        overwritten := overwritten + drop;
      }
      assert Head == if used + effective <= Capacity then head else tail + effective - Capacity;
      assert overwritten == used + |data| - (tail + effective - Head);
      CopyIn(tail, src);
      Tail := tail + effective;
      WriteKeepsNewest(was, Buffer[..], head, tail, data, skipSrc, Head);
    }

    // Moves up to `maxBytes` of the oldest bytes to the front of `out`.
    method Read(out: array<Byte>, maxBytes: nat) returns (copied: nat)
      requires Valid() && maxBytes <= out.Length && out != Buffer
      modifies this`Head, out
      ensures Valid()
      ensures copied == Taken(old(Contents()), maxBytes)
      ensures out[..copied] == old(Contents())[..copied] && out[copied..] == old(out[copied..])
      ensures Contents() == old(Contents())[copied..]
      ensures Buffer != null ==> Head == old(Head) + copied
    {
      hide Window, IsPow2;
      ghost var q := Contents();
      assert q[0..] == q;
      assert out[..0] == q[..0] && out[0..] == old(out[0..]);
      if Buffer == null || maxBytes == 0 {
        return 0;
      }
      var head, tail := Head, Tail;
      var avail := tail - head;
      if avail <= 0 {
        return 0;
      }
      if avail > Capacity {
        assert false; // the clamp cannot be reached
      }
      var toCopy := avail;
      if toCopy > maxBytes {
        toCopy := maxBytes;
      }
      CopyOut(head, toCopy, out);
      WindowDrop(Buffer[..], head, avail, toCopy);
      WindowTake(Buffer[..], head, avail, toCopy);
      Head := head + toCopy;
      return toCopy;
    }
  }
}
