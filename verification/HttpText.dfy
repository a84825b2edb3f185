/** Byte strings as the HTTP reader takes them apart. */
module HttpText {
  import opened Common

  type Bytes = seq<Byte>

  const CR: Byte := 13
  const LF: Byte := 10
  const SP: Byte := 32
  const TAB: Byte := 9
  const COLON: Byte := 58
  const CRLF: Bytes := [CR, LF]
  const BLANK: Bytes := [CR, LF, CR, LF]

  // ----- searching -----

  predicate Match(s: Bytes, pat: Bytes, p: nat) {
    p + |pat| <= |s| && s[p..p + |pat|] == pat
  }

  // The first occurrence of pat at or after `from`.
  function Find(s: Bytes, pat: Bytes, from: nat): (r: Option<nat>)
    ensures r.Some? ==> from <= r.value && Match(s, pat, r.value)
    ensures r.Some? ==> forall q :: from <= q < r.value ==> !Match(s, pat, q)
    ensures r.None? ==> forall q :: from <= q ==> !Match(s, pat, q)
    decreases |s| - from
  {
    if from + |pat| > |s| then None
    else if Match(s, pat, from) then Some(from)
    else Find(s, pat, from + 1)
  }

  lemma FindIs(s: Bytes, pat: Bytes, from: nat, p: nat)
    requires from <= p && Match(s, pat, p) && forall q :: from <= q < p ==> !Match(s, pat, q)
    ensures Find(s, pat, from) == Some(p)
  {
  }

  // Bytes behind do not disturb what is found before them ...
  lemma FindExtends(s: Bytes, pat: Bytes, t: Bytes)
    ensures Find(s, pat, 0).Some? ==> Find(s + t, pat, 0) == Find(s, pat, 0)
    ensures Find(s, pat, 0).None? && Find(s + t, pat, 0).Some? ==> Find(s + t, pat, 0).value + |pat| > |s|
  {
    forall q: nat | q + |pat| <= |s| ensures Match(s + t, pat, q) <==> Match(s, pat, q) {
      assert (s + t)[q..q + |pat|] == s[q..q + |pat|];
    }
    var r := Find(s, pat, 0);
    if r.Some? { FindIs(s + t, pat, 0, r.value); }
  }

  // ... so a search may resume just before the end of what was searched.
  lemma FindResumes(s: Bytes, pat: Bytes, t: Bytes, scanned: nat)
    requires Find(s, pat, 0).None? && (scanned == 0 || scanned + |pat| <= |s| + 1)
    ensures forall q :: 0 <= q < scanned ==> !Match(s + t, pat, q)
  {
    hide Match;
    forall q: nat | q < scanned ensures !Match(s + t, pat, q) {
      MatchExtends(s, pat, t, q);
    }
  }

  lemma MatchExtends(s: Bytes, pat: Bytes, t: Bytes, q: nat)
    requires q + |pat| <= |s|
    ensures Match(s + t, pat, q) <==> Match(s, pat, q)
  {
    assert (s + t)[q..q + |pat|] == s[q..q + |pat|];
  }

  // A search may start where no earlier occurrence is possible.
  lemma SearchFrom(s: Bytes, pat: Bytes, scanned: nat)
    requires forall q :: 0 <= q < scanned ==> !Match(s, pat, q)
    ensures Find(s, pat, scanned) == Find(s, pat, 0)
  {
    var r := Find(s, pat, 0);
    if r.Some? {
      FindIs(s, pat, scanned, r.value);
    } else {
      assert Find(s, pat, scanned).None?;
    }
  }

  // ----- ASCII -----

  function Ascii(s: string): Bytes
    requires forall i :: 0 <= i < |s| ==> s[i] < 128 as char
  {
    seq(|s|, i requires 0 <= i < |s| => s[i] as int)
  }

  function LowerByte(b: Byte): Byte {
    if 65 <= b <= 90 then b + 32 else b
  }

  function Lower(s: Bytes): (l: Bytes)
    ensures |l| == |s|
  {
    seq(|s|, i requires 0 <= i < |s| => LowerByte(s[i]))
  }

  predicate EqIgnoreCase(a: Bytes, b: Bytes) {
    Lower(a) == Lower(b)
  }

  predicate IsDigit(b: Byte) {
    48 <= b <= 57
  }

  predicate IsHex(b: Byte) {
    IsDigit(b) || 65 <= b <= 70 || 97 <= b <= 102
  }

  predicate IsTokenByte(b: Byte) {
    IsDigit(b) || 65 <= b <= 90 || 97 <= b <= 122
    || b in [33, 35, 36, 37, 38, 39, 42, 43, 45, 46, 94, 95, 96, 124, 126]
  }

  predicate IsToken(s: Bytes) {
    s != [] && forall i :: 0 <= i < |s| ==> IsTokenByte(s[i])
  }

  function DigitValue(b: Byte): (v: nat)
    requires IsDigit(b)
    ensures v < 10
  {
    b - 48
  }

  function Decimal(s: Bytes): nat
    requires forall i :: 0 <= i < |s| ==> IsDigit(s[i])
  {
    if s == [] then 0 else 10 * Decimal(s[..|s| - 1]) + DigitValue(s[|s| - 1])
  }

  function HexDigit(b: Byte): (v: nat)
    requires IsHex(b)
    ensures v < 16
  {
    if b <= 57 then b - 48 else if b <= 70 then b - 55 else b - 87
  }

  function Hexadecimal(s: Bytes): nat
    requires forall i :: 0 <= i < |s| ==> IsHex(s[i])
  {
    if s == [] then 0 else 16 * Hexadecimal(s[..|s| - 1]) + HexDigit(s[|s| - 1])
  }

  // ----- UTF-8 (RFC 3629) -----

  predicate Continues(b: Byte) {
    0x80 <= b < 0xC0
  }

  // The length of the well-formed character at the front; zero if there is none.
  function CharLength(s: Bytes): (n: nat)
    ensures n <= |s|
  {
    if s == [] then 0
    else if s[0] < 0x80 then 1
    else if 0xC2 <= s[0] <= 0xDF && |s| >= 2 && Continues(s[1]) then 2
    else if |s| >= 3 && Continues(s[1]) && Continues(s[2])
      && ((s[0] == 0xE0 && s[1] >= 0xA0) || 0xE1 <= s[0] <= 0xEC || (s[0] == 0xED && s[1] < 0xA0)
            || 0xEE <= s[0] <= 0xEF)
    then 3
    else if |s| >= 4 && Continues(s[1]) && Continues(s[2]) && Continues(s[3])
      && ((s[0] == 0xF0 && s[1] >= 0x90) || 0xF1 <= s[0] <= 0xF3 || (s[0] == 0xF4 && s[1] < 0x90))
    then 4
    else 0
  }

  predicate Utf8(s: Bytes) {
    s == [] || (CharLength(s) > 0 && Utf8(s[CharLength(s)..]))
  }

  lemma {:induction false} Utf8Joins(a: Bytes, b: Bytes)
    requires Utf8(a) && Utf8(b)
    ensures Utf8(a + b)
    decreases |a|
  {
    if a == [] {
      assert a + b == b;
    } else {
      var n := CharLength(a);
      assert CharLength(a + b) == n;
      Utf8Joins(a[n..], b);
      assert (a + b)[n..] == a[n..] + b;
    }
  }

  lemma {:induction false} AsciiIsUtf8(s: Bytes)
    requires forall i :: 0 <= i < |s| ==> s[i] < 0x80
    ensures Utf8(s)
  {
    if s != [] { AsciiIsUtf8(s[1..]); }
  }

  // ----- white space -----

  // The length of the Unicode white space at the front; zero if there is none.
  function SpaceAt(s: Bytes): (n: nat)
    ensures n <= |s|
  {
    if |s| >= 1 && (9 <= s[0] <= 13 || s[0] == 32) then 1
    else if |s| >= 2 && s[0] == 0xC2 && (s[1] == 0x85 || s[1] == 0xA0) then 2
    else if |s| >= 3 && WideSpace(s[0], s[1], s[2]) then 3
    else 0
  }

  predicate WideSpace(a: Byte, b: Byte, c: Byte) {
    || (a == 0xE1 && b == 0x9A && c == 0x80)
    || (a == 0xE2 && b == 0x80 && (c <= 0x8A || c == 0xA8 || c == 0xA9 || c == 0xAF))
    || (a == 0xE2 && b == 0x81 && c == 0x9F)
    || (a == 0xE3 && b == 0x80 && c == 0x80)
  }

  function SpaceBefore(s: Bytes): (n: nat)
    ensures n <= |s|
  {
    var e := |s|;
    if e >= 1 && (9 <= s[e - 1] <= 13 || s[e - 1] == 32) then 1
    else if e >= 2 && s[e - 2] == 0xC2 && (s[e - 1] == 0x85 || s[e - 1] == 0xA0) then 2
    else if e >= 3 && WideSpace(s[e - 3], s[e - 2], s[e - 1]) then 3
    else 0
  }

  function TrimStart(s: Bytes): Bytes {
    if SpaceAt(s) == 0 then s else TrimStart(s[SpaceAt(s)..])
  }

  function TrimEnd(s: Bytes): Bytes {
    if SpaceBefore(s) == 0 then s else TrimEnd(s[..|s| - SpaceBefore(s)])
  }

  function Trim(s: Bytes): Bytes {
    TrimEnd(TrimStart(s))
  }

  // Only spaces and tabs, as around a header value.
  predicate IsBlank(b: Byte) {
    b == SP || b == TAB
  }

  function TrimBlanksStart(s: Bytes): Bytes {
    if s != [] && IsBlank(s[0]) then TrimBlanksStart(s[1..]) else s
  }

  function TrimBlanksEnd(s: Bytes): Bytes {
    if s != [] && IsBlank(s[|s| - 1]) then TrimBlanksEnd(s[..|s| - 1]) else s
  }

  function TrimBlanks(s: Bytes): Bytes {
    TrimBlanksEnd(TrimBlanksStart(s))
  }

  // ----- splitting -----

  // The pieces of s between the occurrences of pat.
  function Split(s: Bytes, pat: Bytes): (pieces: seq<Bytes>)
    requires pat != []
    ensures |pieces| >= 1
    decreases |s|
  {
    var p := Find(s, pat, 0);
    if p.None? then [s] else [s[..p.value]] + Split(s[p.value + |pat|..], pat)
  }

  function Join(pieces: seq<Bytes>, pat: Bytes): Bytes
    requires |pieces| >= 1
  {
    if |pieces| == 1 then pieces[0] else pieces[0] + pat + Join(pieces[1..], pat)
  }

  // Splitting undoes joining when no piece holds the first byte of the separator.
  lemma {:induction false} SplitJoin(pieces: seq<Bytes>, pat: Bytes)
    requires |pieces| >= 1 && pat != []
    requires forall i :: 0 <= i < |pieces| ==> pat[0] !in pieces[i]
    ensures Split(Join(pieces, pat), pat) == pieces
    decreases |pieces|
  {
    var s := Join(pieces, pat);
    if |pieces| == 1 {
      NoMatchWithin(s, pat, |s|);
      assert Find(s, pat, 0).None?;
    } else {
      var p, rest := pieces[0], Join(pieces[1..], pat);
      assert s == p + pat + rest;
      NoMatchWithin(s, pat, |p|);
      assert s[|p|..|p| + |pat|] == pat;
      FindIs(s, pat, 0, |p|);
      assert s[|p| + |pat|..] == rest && s[..|p|] == p;
      SplitJoin(pieces[1..], pat);
    }
  }

  lemma NoMatchWithin(s: Bytes, pat: Bytes, n: nat)
    requires n <= |s| && pat != [] && pat[0] !in s[..n]
    ensures forall q :: 0 <= q < n ==> !Match(s, pat, q)
  {
    forall q | 0 <= q < n ensures !Match(s, pat, q) {
      assert s[q] in s[..n];
      assert q + |pat| <= |s| ==> s[q..q + |pat|][0] == s[q];
    }
  }
}
