/** Unicode facts that the input checks and the address parsers rest on:
    white space, control characters, trimming and UTF-8. */
module Text {

  newtype Byte = b: int | 0 <= b < 256

  type Bytes = seq<Byte>

  const LF: Byte := 10
  const CR: Byte := 13

  /** The Unicode White_Space property, which Rust's `trim` uses. */
  predicate IsWhite(c: char) {
    var n := c as int;
    || 0x09 <= n <= 0x0D || n == 0x20 || n == 0x85 || n == 0xA0 || n == 0x1680
    || 0x2000 <= n <= 0x200A || n == 0x2028 || n == 0x2029 || n == 0x202F
    || n == 0x205F || n == 0x3000
  }

  /** Unicode general category Cc. */
  predicate IsControl(c: char) {
    var n := c as int;
    n <= 0x1F || 0x7F <= n <= 0x9F
  }

  /** No white space at either end. */
  predicate Trimmed(s: string) {
    s == "" || (!IsWhite(s[0]) && !IsWhite(s[|s| - 1]))
  }

  function Trim(s: string): (t: string)
    ensures Trimmed(t)
    ensures Trimmed(s) ==> t == s
    ensures |t| <= |s| && (!Trimmed(s) ==> |t| < |s|)
    ensures forall c :: c in t ==> c in s
    decreases |s|
  {
    if s == "" then ""
    else if IsWhite(s[0]) then Trim(s[1..])
    else if IsWhite(s[|s| - 1]) then Trim(s[..|s| - 1])
    else s
  }

  predicate AllWhite(s: string) {
    forall c <- s :: IsWhite(c)
  }

  /** `t` is what is left of `s` between white space at both ends. */
  ghost predicate Core(s: string, t: string) {
    exists before, after :: s == before + t + after && AllWhite(before) && AllWhite(after)
  }

  lemma CoreOfRest(s: string, t: string)
    requires s != "" && IsWhite(s[0]) && Core(s[1..], t)
    ensures Core(s, t)
  {
    var before, after :| s[1..] == before + t + after && AllWhite(before) && AllWhite(after);
    assert s == ([s[0]] + before) + t + after && AllWhite([s[0]] + before);
  }

  lemma CoreOfFront(s: string, t: string)
    requires s != "" && IsWhite(s[|s| - 1]) && Core(s[..|s| - 1], t)
    ensures Core(s, t)
  {
    var p, c := s[..|s| - 1], s[|s| - 1];
    var before, after :| p == before + t + after && AllWhite(before) && AllWhite(after);
    assert s == p + [c];
    assert s == before + t + (after + [c]) && AllWhite(after + [c]);
  }

  lemma {:induction false} TrimIsCore(s: string)
    ensures Core(s, Trim(s))
    decreases |s|
  {
    hide Core, AllWhite;
    if s == "" {
      CoreOfItself(s);
    } else if IsWhite(s[0]) {
      TrimIsCore(s[1..]);
      CoreOfRest(s, Trim(s));
    } else if IsWhite(s[|s| - 1]) {
      TrimIsCore(s[..|s| - 1]);
      CoreOfFront(s, Trim(s));
    } else {
      CoreOfItself(s);
    }
  }

  lemma CoreOfItself(s: string)
    ensures Core(s, s)
  {
    assert s == "" + s + "" && AllWhite("");
  }

  /** Nothing is left exactly of white space. */
  lemma TrimmedAway(s: string)
    ensures Trim(s) == "" <==> AllWhite(s)
  {
    TrimIsCore(s);
    if Trim(s) == "" {
      var before, after :| s == before + "" + after && AllWhite(before) && AllWhite(after);
      assert s == before + after;
    } else {
      assert Trim(s)[0] in s;
    }
  }

  function Utf8Char(c: char): (b: Bytes)
    ensures 1 <= |b| <= 4
    ensures c != '\n' ==> LF !in b
  {
    var n := c as int;
    if n < 0x80 then [n as Byte]
    else if n < 0x800 then [(0xC0 + n / 0x40) as Byte, Continuation(n)]
    else if n < 0x1_0000 then
      [(0xE0 + n / 0x1000) as Byte, Continuation(n / 0x40), Continuation(n)]
    else
      [(0xF0 + n / 0x4_0000) as Byte, Continuation(n / 0x1000), Continuation(n / 0x40),
       Continuation(n)]
  }

  function Continuation(n: nat): Byte {
    (0x80 + n % 0x40) as Byte
  }

  function Utf8(s: string): (b: Bytes)
    ensures '\n' !in s ==> LF !in b
    ensures |s| <= |b|
  {
    if s == "" then [] else Utf8Char(s[0]) + Utf8(s[1..])
  }

  /* ---- The tables, spelled out ---- */

  lemma LineBreakBytes()
    ensures LF == 10 && CR == 13
  {
  }

  /** The 25 white space characters of Unicode. */
  lemma WhiteSpaceTable(c: char)
    ensures IsWhite(c) <==> c as int in {
      0x09, 0x0A, 0x0B, 0x0C, 0x0D, 0x20, 0x85, 0xA0, 0x1680, 0x2000, 0x2001, 0x2002, 0x2003,
      0x2004, 0x2005, 0x2006, 0x2007, 0x2008, 0x2009, 0x200A, 0x2028, 0x2029, 0x202F, 0x205F,
      0x3000}
  {
  }

  /** Reading UTF-8 as section 3 of RFC 3629 lays it out: the leading byte gives the length. */
  function CodePoints(b: Bytes): seq<int> {
    if b == [] then []
    else
      var b0 := b[0] as int;
      if b0 < 0x80 then [b0] + CodePoints(b[1..])
      else if b0 < 0xE0 && |b| >= 2 then
        [(b0 - 0xC0) * 0x40 + (b[1] as int - 0x80)] + CodePoints(b[2..])
      else if b0 < 0xF0 && |b| >= 3 then
        [(b0 - 0xE0) * 0x1000 + (b[1] as int - 0x80) * 0x40 + (b[2] as int - 0x80)]
        + CodePoints(b[3..])
      else if |b| >= 4 then
        [(b0 - 0xF0) * 0x4_0000 + (b[1] as int - 0x80) * 0x1000 + (b[2] as int - 0x80) * 0x40
         + (b[3] as int - 0x80)] + CodePoints(b[4..])
      else []
  }

  lemma SixBitGroups(n: nat)
    ensures n == n / 0x40 * 0x40 + n % 0x40
    ensures n / 0x40 == n / 0x1000 * 0x40 + n / 0x40 % 0x40
    ensures n / 0x1000 == n / 0x4_0000 * 0x40 + n / 0x1000 % 0x40
  {
  }

  lemma ReadsSequence(b: Bytes, rest: Bytes)
    requires b != []
    requires var b0 := b[0] as int;
      |b| == if b0 < 0x80 then 1 else if b0 < 0xE0 then 2 else if b0 < 0xF0 then 3 else 4
    ensures CodePoints(b + rest) == CodePoints(b) + CodePoints(rest)
  {
    var all, k := b + rest, |b|;
    assert all[k..] == rest && b[k..] == [];
    assert forall i :: 0 <= i < k ==> all[i] == b[i];
    assert CodePoints([]) == [];
  }

  lemma CharIsOnePoint(c: char)
    ensures CodePoints(Utf8Char(c)) == [c as int]
  {
    SixBitGroups(c as int);
    assert CodePoints([]) == [];
  }

  lemma CharReadsBack(c: char, rest: Bytes)
    ensures CodePoints(Utf8Char(c) + rest) == [c as int] + CodePoints(rest)
  {
    CharIsOnePoint(c);
    ReadsSequence(Utf8Char(c), rest) by { hide CodePoints; SixBitGroups(c as int); }
  }

  /** UTF-8 loses nothing. */
  lemma {:induction false} Utf8ReadsBack(s: string)
    ensures CodePoints(Utf8(s)) == seq(|s|, i requires 0 <= i < |s| => s[i] as int)
  {
    hide CodePoints;
    if s == "" {
      NoCodePoints();
    } else {
      Utf8ReadsBack(s[1..]);
      CharReadsBack(s[0], Utf8(s[1..]));
    }
  }

  lemma NoCodePoints()
    ensures CodePoints([]) == []
  {
  }
}
