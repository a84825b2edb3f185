/**
 Where the outcome of reading depends on how the bytes arrive, and where it does not.

 An arrival of a byte string is a sequence of reads, none empty and none longer
 than the scratch array, into an empty buffer.
 */
module HttpArrival {
  import opened Common
  import opened HttpText
  import opened HttpHead
  import opened HttpReader

  predicate Arrives(w: Wire, s: Bytes, ending: Ending) {
    Good(w) && w.buf == [] && Stream(w) == s && w.ending == ending
  }

  // ----- heads: two arrivals -----

  // Cuts s into reads of at most `size` bytes.
  function Cut(s: Bytes, size: nat): (r: seq<Bytes>)
    requires size > 0
    ensures forall i :: 0 <= i < |r| ==> 0 < |r[i]| <= size
    ensures Flat(r) == s
  {
    if s == [] then []
    else if |s| <= size then
      assert [s][1..] == [];
      [s]
    else
      var rest := Cut(s[size..], size);
      assert ([s[..size]] + rest)[1..] == rest;
      [s[..size]] + rest
  }

  // Two arrivals of s: the first read past the limit ends the head, or does not.
  function Early(s: Bytes, pos: nat, ending: Ending): Wire
    requires MAX_HEAD_BYTES < pos + 4 <= |s|
  {
    Wire([], Cut(s[..MAX_HEAD_BYTES], READ_BYTES) + ([s[MAX_HEAD_BYTES..pos + 4]] + Cut(s[pos + 4..], READ_BYTES)),
      ending)
  }

  function Late(s: Bytes, ending: Ending): Wire
    requires MAX_HEAD_BYTES < |s|
  {
    Wire([], Cut(s[..MAX_HEAD_BYTES + 1], READ_BYTES) + Cut(s[MAX_HEAD_BYTES + 1..], READ_BYTES), ending)
  }

  lemma LateRefused(s: Bytes, ending: Ending)
    requires !(CRLF <= s) && Find(s, BLANK, 0).Some? && Find(s, BLANK, 0).value + 3 > MAX_HEAD_BYTES
    ensures Good(Late(s, ending)) && Stream(Late(s, ending)) == s && HeadRun(Late(s, ending)).0 == Err(TooLarge)
  {
    hide ParseHead, HeadRun, Cut, Find;
    var n := MAX_HEAD_BYTES + 1;
    var first, rest := Cut(s[..n], READ_BYTES), Cut(s[n..], READ_BYTES);
    FlatJoins(first, rest);
    assert s[..n] + s[n..] == s;
    assert [] + Flat(first) == s[..n];
    Unfinished(s, [], first, rest, ending);
    Overlong(s[..n], s, rest, ending);
  }

  lemma ThreePieces(s: Bytes, n: nat, end: nat)
    requires n <= end <= |s|
    ensures s[..n] + (s[n..end] + s[end..]) == s
  {
  }

  lemma EarlyTaken(s: Bytes, ending: Ending)
    requires !(CRLF <= s) && Find(s, BLANK, 0).Some?
    requires MAX_HEAD_BYTES < Find(s, BLANK, 0).value + 3 <= MAX_HEAD_BYTES + 3
    ensures var pos := Find(s, BLANK, 0).value;
      && Good(Early(s, pos, ending)) && Stream(Early(s, pos, ending)) == s
      && HeadRun(Early(s, pos, ending)).0 == ParseHead(s[..pos])
  {
    hide ParseHead, HeadRun, Cut, Find;
    var n, end := MAX_HEAD_BYTES, Find(s, BLANK, 0).value + 4;
    var first, rest := Cut(s[..n], READ_BYTES), Cut(s[end..], READ_BYTES);
    var middle := [s[n..end]] + rest;
    assert middle[1..] == rest;
    FlatJoins(first, middle);
    ThreePieces(s, n, end);
    assert [] + Flat(first) == s[..n];
    Unfinished(s, [], first, middle, ending);
    Finished(s, n, rest, ending);
  }

  lemma {:induction false} FlatJoins(a: seq<Bytes>, b: seq<Bytes>)
    ensures Flat(a + b) == Flat(a) + Flat(b)
  {
    if a == [] {
      assert a + b == b;
    } else {
      FlatJoins(a[1..], b);
      assert (a + b)[1..] == a[1..] + b;
    }
  }

  // Reads that neither end the head nor exceed the limit before their last are collected.
  lemma {:induction false} Unfinished(s: Bytes, got: Bytes, coming: seq<Bytes>, then_: seq<Bytes>, ending: Ending)
    requires got + Flat(coming) <= s && !(CRLF <= s)
    requires Find(s, BLANK, 0).Some? && |got + Flat(coming)| < Find(s, BLANK, 0).value + 4
    requires forall i :: 0 <= i < |coming| ==> 0 < |coming[i]|
    requires |got + Flat(coming)| <= MAX_HEAD_BYTES + 1
    requires |got| <= MAX_HEAD_BYTES || coming == []
    ensures HeadRun(Wire(got, coming + then_, ending)) == HeadRun(Wire(got + Flat(coming), then_, ending))
    decreases |coming|
  {
    hide ParseHead;
    if coming == [] {
      assert coming + then_ == then_ && got + Flat(coming) == got;
    } else {
      NoBlankYet(s, got);
      var w := Wire(got, coming + then_, ending);
      assert w.(buf := got) == w;
      assert w.input[1..] == coming[1..] + then_;
      var more := got + coming[0];
      assert more + Flat(coming[1..]) == got + Flat(coming);
      FlatEmpty(coming[1..]);
      Unfinished(s, more, coming[1..], then_, ending);
    }
  }

  lemma FlatEmpty(input: seq<Bytes>)
    requires forall i :: 0 <= i < |input| ==> 0 < |input[i]|
    ensures Flat(input) == [] <==> input == []
  {
  }

  lemma NoBlankYet(s: Bytes, b: Bytes)
    requires b <= s && !(CRLF <= s) && Find(s, BLANK, 0).Some? && |b| < Find(s, BLANK, 0).value + 4
    ensures StripCrlf(b) == b && Find(b, BLANK, 0).None?
  {
    assert s == b + s[|b|..];
    FindExtends(b, BLANK, s[|b|..]);
  }

  lemma Overlong(b: Bytes, s: Bytes, input: seq<Bytes>, ending: Ending)
    requires b <= s && !(CRLF <= s) && Find(s, BLANK, 0).Some? && |b| < Find(s, BLANK, 0).value + 4
    requires |b| > MAX_HEAD_BYTES
    ensures HeadRun(Wire(b, input, ending)).0 == Err(TooLarge)
  {
    hide ParseHead;
    NoBlankYet(s, b);
  }

  lemma Finished(s: Bytes, n: nat, rest: seq<Bytes>, ending: Ending)
    requires !(CRLF <= s) && Find(s, BLANK, 0).Some? && n == MAX_HEAD_BYTES
    requires n < Find(s, BLANK, 0).value + 3 <= n + 3
    ensures var pos := Find(s, BLANK, 0).value;
      HeadRun(Wire(s[..n], [s[n..pos + 4]] + rest, ending)).0 == ParseHead(s[..pos])
  {
    hide ParseHead;
    var pos := Find(s, BLANK, 0).value;
    NoBlankYet(s, s[..n]);
    var w := Wire(s[..n], [s[n..pos + 4]] + rest, ending);
    assert w.(buf := s[..n]) == w;
    var b := s[..pos + 4];
    assert s[..n] + s[n..pos + 4] == b;
    assert b[..2] == s[..2];
    assert StripCrlf(b) == b;
    assert s == b + s[pos + 4..];
    FindExtends(b, BLANK, s[pos + 4..]);
    assert b[pos..pos + 4] == s[pos..pos + 4];
    assert Match(b, BLANK, pos);
    assert b[..pos] == s[..pos];
    assert w.input[1..] == rest;
    assert Arrive(w) == Wire(b, rest, ending);
  }

  // ----- heads: stray line ends -----

  // Each stray line end in a read of its own.
  function StrayReads(s: Bytes): (r: seq<Bytes>)
    ensures forall i :: 0 <= i < |r| ==> r[i] == CRLF
    ensures Flat(r) + StripCrlf(s) == s
  {
    if CRLF <= s then
      var rest := StrayReads(s[2..]);
      assert ([CRLF] + rest)[1..] == rest;
      assert CRLF + (Flat(rest) + StripCrlf(s[2..])) == (CRLF + Flat(rest)) + StripCrlf(s[2..]);
      assert s == CRLF + s[2..];
      [CRLF] + rest
    else
      assert [] + s == s;
      []
  }

  lemma StrayRead(input: seq<Bytes>, ending: Ending)
    ensures HeadRun(Wire([], [CRLF] + input, ending)) == HeadRun(Wire([], input, ending))
  {
    hide ParseHead;
    var w := Wire([], [CRLF] + input, ending);
    assert w.input[1..] == input;
    assert StripCrlf(CRLF) == [] && StripCrlf([]) == [];
    assert [] + CRLF == CRLF;
    assert Arrive(w) == Wire(CRLF, input, ending);
  }

  lemma {:induction false} StraysSkipped(s: Bytes, input: seq<Bytes>, ending: Ending)
    ensures HeadRun(Wire([], StrayReads(s) + input, ending)) == HeadRun(Wire([], input, ending))
    decreases |s|
  {
    hide HeadRun;
    if CRLF <= s {
      StraysSkipped(s[2..], input, ending);
      StrayRead(StrayReads(s[2..]) + input, ending);
      assert StrayReads(s) + input == [CRLF] + (StrayReads(s[2..]) + input);
    } else {
      assert StrayReads(s) + input == input;
    }
  }

  // An arrival of what is behind the strays becomes one of everything.
  lemma StraysArrive(s: Bytes, w: Wire)
    requires Arrives(w, StripCrlf(s), w.ending)
    ensures var v := Wire([], StrayReads(s) + w.input, w.ending);
      Arrives(v, s, w.ending) && HeadRun(v) == HeadRun(w)
  {
    hide HeadRun;
    FlatJoins(StrayReads(s), w.input);
    StraysSkipped(s, w.input, w.ending);
    assert [] + Flat(w.input) == Flat(w.input);
    assert [] + Flat(StrayReads(s) + w.input) == s;
    assert w == Wire([], w.input, w.ending);
  }

  // ----- heads: exactly when -----

  // Where the blank line begins, once the strays are gone.
  function HeadLength(s: Bytes): Option<nat> {
    Find(StripCrlf(s), BLANK, 0)
  }

  // Where the bytes do not decide, a head is parsed or refused as too large.
  lemma {:induction false} ParsedOrTooLarge(w: Wire)
    requires HeadOf(Stream(w), w.ending) == None
    ensures HeadLength(Stream(w)).Some? && HeadLength(Stream(w)).value <= |StripCrlf(Stream(w))|
    ensures HeadRun(w).0 == Err(TooLarge)
      || HeadRun(w).0 == ParseHead(StripCrlf(Stream(w))[..HeadLength(Stream(w)).value])
    decreases |w.input|
  {
    hide ParseHead, HeadEnd, Find, StripCrlf;
    var b, t := StripCrlf(w.buf), Flat(w.input);
    StripTwice(w.buf, t);
    var v := w.(buf := b);
    assert Stream(v) == b + t;
    assert t == [] ==> w.buf + t == w.buf && b + t == b;
    FindExtends(b, BLANK, t);
    if Find(b, BLANK, 0).Some? {
      var pos := Find(b, BLANK, 0).value;
      StrippedStays(b, t);
      assert (b + t)[..pos] == b[..pos];
    } else if |b| <= MAX_HEAD_BYTES && v.input != [] {
      ParsedOrTooLarge(Arrive(v));
      StripTwice(b, t);
    }
  }

  // Where they do not decide, one arrival is parsed and another refused.
  lemma BothHappen(s: Bytes, ending: Ending) returns (early: Wire, late: Wire)
    requires HeadOf(s, ending) == None
    ensures Arrives(early, s, ending) && Arrives(late, s, ending) && HeadLength(s).Some?
    ensures HeadLength(s).value <= |StripCrlf(s)|
    ensures HeadRun(early).0 == ParseHead(StripCrlf(s)[..HeadLength(s).value]) && HeadRun(late).0 == Err(TooLarge)
  {
    hide ParseHead, HeadRun, Find;
    var t := StripCrlf(s);
    var pos := Find(t, BLANK, 0).value;
    StripTwice(s, []);
    LateRefused(t, ending);
    EarlyTaken(t, ending);
    early, late := Early(t, pos, ending), Late(t, ending);
    StraysArrive(s, early);
    StraysArrive(s, late);
    early, late := Wire([], StrayReads(s) + early.input, ending), Wire([], StrayReads(s) + late.input, ending);
  }

  // What the head reader answers depends on the arrival if and only if the blank line
  // begins 2, 1 or 0 bytes before the limit and the parser does not itself answer that
  // the head is too large.
  lemma HeadDependsOnArrival(s: Bytes, ending: Ending)
    ensures (exists v, w :: Arrives(v, s, ending) && Arrives(w, s, ending) && HeadRun(v).0 != HeadRun(w).0) <==>
              && HeadLength(s).Some? && MAX_HEAD_BYTES < HeadLength(s).value + 3 <= MAX_HEAD_BYTES + 3
              && ParseHead(StripCrlf(s)[..HeadLength(s).value]) != Err(TooLarge)
  {
    hide ParseHead, HeadRun, Find;
    if HeadOf(s, ending) == None {
      var early, late := BothHappen(s, ending);
      forall w | Arrives(w, s, ending)
        ensures HeadRun(w).0 == Err(TooLarge) || HeadRun(w).0 == ParseHead(StripCrlf(s)[..HeadLength(s).value])
      {
        ParsedOrTooLarge(w);
      }
    } else {
      forall w | Arrives(w, s, ending) ensures HeadRun(w).0 == HeadOf(s, ending).value.0 { HeadRunIsHeadOf(w); }
    }
  }

  // Whether a head is accepted depends on it if and only if, in addition, it parses.
  lemma AcceptanceDependsOnArrival(s: Bytes, ending: Ending)
    ensures (exists v, w ::
               Arrives(v, s, ending) && Arrives(w, s, ending) && HeadRun(v).0.Ok? && HeadRun(w).0.Err?) <==>
              && HeadLength(s).Some? && MAX_HEAD_BYTES < HeadLength(s).value + 3 <= MAX_HEAD_BYTES + 3
              && ParseHead(StripCrlf(s)[..HeadLength(s).value]).Ok?
  {
    hide ParseHead, HeadRun, Find;
    HeadDependsOnArrival(s, ending);
    if HeadOf(s, ending) == None {
      var early, late := BothHappen(s, ending);
      forall w | Arrives(w, s, ending)
        ensures HeadRun(w).0 == Err(TooLarge) || HeadRun(w).0 == ParseHead(StripCrlf(s)[..HeadLength(s).value])
      {
        ParsedOrTooLarge(w);
      }
    }
  }

  // ----- lines -----

  // Reads that neither end the line nor exceed the limit before their last are collected.
  lemma {:induction false} LineUnfinished(s: Bytes, max: nat, got: Bytes, coming: seq<Bytes>, then_: seq<Bytes>,
      ending: Ending)
    requires got + Flat(coming) <= s
    requires Find(s, CRLF, 0).Some? && |got + Flat(coming)| < Find(s, CRLF, 0).value + 2
    requires forall i :: 0 <= i < |coming| ==> 0 < |coming[i]|
    requires |got + Flat(coming)| <= max + 1
    requires |got| <= max || coming == []
    ensures LineRun(Wire(got, coming + then_, ending), max) == LineRun(Wire(got + Flat(coming), then_, ending), max)
    decreases |coming|
  {
    hide Utf8;
    if coming == [] {
      assert coming + then_ == then_ && got + Flat(coming) == got;
    } else {
      NoLineYet(s, got);
      assert (coming + then_)[1..] == coming[1..] + then_;
      var more := got + coming[0];
      assert more + Flat(coming[1..]) == got + Flat(coming);
      FlatEmpty(coming[1..]);
      LineUnfinished(s, max, more, coming[1..], then_, ending);
    }
  }

  lemma NoLineYet(s: Bytes, b: Bytes)
    requires b <= s && Find(s, CRLF, 0).Some? && |b| < Find(s, CRLF, 0).value + 2
    ensures Find(b, CRLF, 0).None?
  {
    assert s == b + s[|b|..];
    FindExtends(b, CRLF, s[|b|..]);
  }

  // An arrival that takes one byte more than the limit before the line is over ...
  lemma LineLate(s: Bytes, max: nat, ending: Ending) returns (w: Wire)
    requires Find(s, CRLF, 0).Some? && max <= Find(s, CRLF, 0).value
    ensures Arrives(w, s, ending) && LineRun(w, max).0 == Err(BodyBad)
  {
    hide LineRun, Cut, Find;
    var first, rest := Cut(s[..max + 1], READ_BYTES), Cut(s[max + 1..], READ_BYTES);
    w := Wire([], first + rest, ending);
    FlatJoins(first, rest);
    assert s[..max + 1] + s[max + 1..] == s;
    assert [] + Flat(first) == s[..max + 1];
    LineUnfinished(s, max, [], first, rest, ending);
    LineOverlong(s, max, s[..max + 1], rest, ending);
  }

  lemma LineOverlong(s: Bytes, max: nat, b: Bytes, input: seq<Bytes>, ending: Ending)
    requires b <= s && Find(s, CRLF, 0).Some? && max < |b| < Find(s, CRLF, 0).value + 2
    ensures LineRun(Wire(b, input, ending), max).0 == Err(BodyBad)
  {
    NoLineYet(s, b);
  }

  // ... and one that takes just the limit, and all the rest of the line at once.
  lemma LineEarly(s: Bytes, max: nat, ending: Ending) returns (w: Wire)
    requires Find(s, CRLF, 0).Some? && max <= Find(s, CRLF, 0).value <= max + READ_BYTES - 2
    ensures Arrives(w, s, ending)
    ensures var p := Find(s, CRLF, 0).value; LineRun(w, max).0 == if Utf8(s[..p]) then Ok(s[..p]) else Err(BodyBad)
  {
    hide LineRun, Cut, Find, Utf8;
    var end := Find(s, CRLF, 0).value + 2;
    var first, rest := Cut(s[..max], READ_BYTES), Cut(s[end..], READ_BYTES);
    var middle := [s[max..end]] + rest;
    assert middle[1..] == rest;
    w := Wire([], first + middle, ending);
    FlatJoins(first, middle);
    ThreePieces(s, max, end);
    assert [] + Flat(first) == s[..max];
    LineUnfinished(s, max, [], first, middle, ending);
    LineFinished(s, max, rest, ending);
  }

  lemma LineFinished(s: Bytes, max: nat, rest: seq<Bytes>, ending: Ending)
    requires Find(s, CRLF, 0).Some? && max <= Find(s, CRLF, 0).value
    ensures var p := Find(s, CRLF, 0).value;
      LineRun(Wire(s[..max], [s[max..p + 2]] + rest, ending), max).0
        == if Utf8(s[..p]) then Ok(s[..p]) else Err(BodyBad)
  {
    hide Utf8;
    var p := Find(s, CRLF, 0).value;
    NoLineYet(s, s[..max]);
    var w := Wire(s[..max], [s[max..p + 2]] + rest, ending);
    var b := s[..p + 2];
    assert s[..max] + s[max..p + 2] == b;
    assert s == b + s[p + 2..];
    FindExtends(b, CRLF, s[p + 2..]);
    assert b[p..p + 2] == s[p..p + 2];
    assert Match(b, CRLF, p);
    assert b[..p] == s[..p];
    assert w.input[1..] == rest;
    assert Arrive(w) == Wire(b, rest, ending);
  }

  // However it arrives, a line is read whole or refused; so is, and then always, one
  // that does not fit the limit and one read.
  lemma {:induction false} LineReadOrRefused(w: Wire, max: nat)
    requires Good(w) && Find(Stream(w), CRLF, 0).Some?
    ensures var p, s := Find(Stream(w), CRLF, 0).value, Stream(w);
      && (LineRun(w, max).0 == Err(BodyBad) || LineRun(w, max).0 == Ok(s[..p]))
      && (!Utf8(s[..p]) ==> LineRun(w, max).0 == Err(BodyBad))
      && (|w.buf| <= max + READ_BYTES < p + 2 ==> LineRun(w, max).0 == Err(BodyBad))
    decreases |w.input|
  {
    hide Utf8;
    FindExtends(w.buf, CRLF, Flat(w.input));
    var s, p := Stream(w), Find(Stream(w), CRLF, 0).value;
    if Find(w.buf, CRLF, 0).Some? {
      assert s[..p] == w.buf[..p];
    } else {
      assert w.input == [] ==> s == w.buf;
      if w.input != [] && |w.buf| <= max {
        assert Good(Arrive(w)) by {
          forall i | 0 <= i < |w.input| - 1
            ensures 0 < |w.input[1..][i]| <= READ_BYTES
          {
            assert w.input[1..][i] == w.input[i + 1];
          }
        }
        LineReadOrRefused(Arrive(w), max);
      }
    }
  }

  // Bytes without a line end.
  lemma {:induction false} NoLineAtAll(w: Wire, max: nat)
    requires Find(Stream(w), CRLF, 0).None?
    ensures LineRun(w, max).0 == Err(if |Stream(w)| > max then BodyBad else BodyEnd(w.ending))
    decreases |w.input|
  {
    hide Utf8;
    FindExtends(w.buf, CRLF, Flat(w.input));
    if w.input == [] {
      assert Stream(w) == w.buf;
    } else if |w.buf| <= max {
      NoLineAtAll(Arrive(w), max);
    }
  }

  // What the line reader answers depends on the arrival if and only if the line is text
  // and its length is from the limit to the limit and one read, less the line end.
  lemma LineDependsOnArrival(s: Bytes, max: nat, ending: Ending)
    ensures (exists v, w ::
               Arrives(v, s, ending) && Arrives(w, s, ending) && LineRun(v, max).0 != LineRun(w, max).0) <==>
              && Find(s, CRLF, 0).Some? && max <= Find(s, CRLF, 0).value <= max + READ_BYTES - 2
              && Utf8(s[..Find(s, CRLF, 0).value])
  {
    hide LineRun, Find, Utf8;
    if Find(s, CRLF, 0).None? {
      forall w | Arrives(w, s, ending)
        ensures LineRun(w, max).0 == Err(if |s| > max then BodyBad else BodyEnd(ending))
      {
        NoLineAtAll(w, max);
      }
    } else {
      var p := Find(s, CRLF, 0).value;
      if max <= p <= max + READ_BYTES - 2 {
        var late := LineLate(s, max, ending);
        var early := LineEarly(s, max, ending);
      }
      forall w | Arrives(w, s, ending) && p < max
        ensures LineRun(w, max).0 == if Utf8(s[..p]) then Ok(s[..p]) else Err(BodyBad)
      {
        LineFound(w, max);
      }
      forall w | Arrives(w, s, ending) && (p > max + READ_BYTES - 2 || !Utf8(s[..p]))
        ensures LineRun(w, max).0 == Err(BodyBad)
      {
        LineReadOrRefused(w, max);
      }
    }
  }
}
