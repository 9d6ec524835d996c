/**
  The streaming line splitter: chunks of a child's output go through a capped pending buffer
  and come out as lines and partial lines. Lossy decoding and trimming are abstracted to a
  predicate `blank` on the bytes of a line.
*/
module LineSplitter {
  import opened Text

  const MAX_PENDING: nat := 64 * 1024
  const READ_SIZE: nat := 32 * 1024

  datatype Event = OnLine(bytes: Bytes) | OnPartial(bytes: Bytes)

  /** How the stream ends: end of file, or a read error. */
  datatype End = Eof | ReadError

  predicate IsSep(b: Byte) {
    b == CR || b == LF
  }

  predicate SepFree(s: Bytes) {
    forall b <- s :: !IsSep(b)
  }

  /* ---- The one-shot split ---- */

  /** The finished non-empty CR/LF-free runs of `s`, and the run that is still open. */
  function Split(s: Bytes): (seq<Bytes>, Bytes) {
    if s == [] then ([], [])
    else
      var (runs, open) := Split(s[..|s| - 1]);
      var b := s[|s| - 1];
      if !IsSep(b) then (runs, open + [b])
      else (runs + Kept(open), [])
  }

  /** The run itself, unless it is empty. */
  function Kept(run: Bytes): seq<Bytes> {
    if run == [] then [] else [run]
  }

  function Runs(s: Bytes): seq<Bytes> {
    Split(s).0 + Kept(Split(s).1)
  }

  lemma SeparatorsAndSizes(b: Byte)
    ensures IsSep(b) <==> b == 10 || b == 13
    ensures MAX_PENDING == 65536 && READ_SIZE == 32768
  {
  }

  function LastBytes(s: Bytes, n: nat): Bytes {
    if |s| > n then s[|s| - n..] else s
  }

  /* ---- The streaming split ---- */

  function FirstSep(s: Bytes): (i: nat)
    ensures i <= |s| && SepFree(s[..i]) && (i < |s| ==> IsSep(s[i]))
  {
    if s == [] || IsSep(s[0]) then 0
    else
      var i := FirstSep(s[1..]);
      assert s[..i + 1] == [s[0]] + s[1..][..i];
      i + 1
  }

  function PastSeps(s: Bytes, from: nat): (i: nat)
    requires from <= |s|
    ensures from <= i <= |s| && forall k :: from <= k < i ==> IsSep(s[k])
    decreases |s| - from
  {
    if from < |s| && IsSep(s[from]) then PastSeps(s, from + 1) else from
  }

  /** The lines that one pass over the buffer hands on, and what stays in it. */
  function Drained(buffer: Bytes): (seq<Bytes>, Bytes)
    decreases |buffer|
  {
    var i := FirstSep(buffer);
    if i == |buffer| then ([], buffer)
    else
      var (lines, rest) := Drained(buffer[PastSeps(buffer, i + 1)..]);
      ([buffer[..i]] + lines, rest)
  }

  function Pending(chunks: seq<Bytes>): Bytes
    decreases |chunks|, 0
  {
    if chunks == [] then []
    else LastBytes(Drained(Buffered(chunks)).1, MAX_PENDING)
  }

  /** The buffer once the last read has been appended to what was pending. */
  function Buffered(chunks: seq<Bytes>): Bytes
    requires chunks != []
    decreases |chunks| - 1, 1
  {
    Pending(chunks[..|chunks| - 1]) + chunks[|chunks| - 1]
  }

  function Partial(pending: Bytes, blank: Bytes -> bool): seq<Event> {
    if blank(pending) then [] else [OnPartial(pending)]
  }

  function AsLines(lines: seq<Bytes>): seq<Event> {
    seq(|lines|, i requires 0 <= i < |lines| => OnLine(lines[i]))
  }

  function EventsOf(chunks: seq<Bytes>, blank: Bytes -> bool): seq<Event> {
    if chunks == [] then []
    else EventsOf(chunks[..|chunks| - 1], blank)
         + (AsLines(Drained(Buffered(chunks)).0) + Partial(Pending(chunks), blank))
  }

  function Trace(chunks: seq<Bytes>, end: End, blank: Bytes -> bool): seq<Event> {
    EventsOf(chunks, blank)
    + if end.Eof? && !blank(Pending(chunks)) then [OnLine(Pending(chunks))] else []
  }

  method Position(s: Bytes) returns (i: nat)
    ensures i == FirstSep(s)
  {
    i := 0;
    while i < |s| && !IsSep(s[i])
      invariant i <= |s| && FirstSep(s) == i + FirstSep(s[i..])
    {
      assert s[i..][1..] == s[i + 1..];
      i := i + 1;
    }
  }

  method SkipSeps(s: Bytes, from: nat) returns (i: nat)
    requires from <= |s|
    ensures i == PastSeps(s, from)
  {
    i := from;
    while i < |s| && IsSep(s[i])
      invariant from <= i <= |s| && PastSeps(s, from) == PastSeps(s, i)
    {
      i := i + 1;
    }
  }

  /** Hands the finished lines of `buffer` on; the buffer strictly shrinks on each round. */
  method DrainLines(buffer: Bytes) returns (lines: seq<Bytes>, rest: Bytes)
    ensures (lines, rest) == Drained(buffer)
  {
    hide Drained, FirstSep, PastSeps;
    lines, rest := [], buffer;
    var more := true;
    while more
      invariant Drained(buffer).0 == if more then lines + Drained(rest).0 else lines
      invariant Drained(buffer).1 == if more then Drained(rest).1 else rest
      decreases more, |rest|
    {
      var i := Position(rest);
      DrainedOnce(rest);
      if i == |rest| {
        assert lines + [] == lines;
        more := false;
      } else {
        var consume := SkipSeps(rest, i + 1);
        MovesLine(lines, rest[..i], Drained(rest[consume..]).0);
        lines, rest := lines + [rest[..i]], rest[consume..];
      }
    }
  }

  lemma MovesLine(lines: seq<Bytes>, line: Bytes, later: seq<Bytes>)
    ensures lines + ([line] + later) == (lines + [line]) + later
  {
  }

  lemma DrainedOnce(buffer: Bytes)
    ensures var i := FirstSep(buffer);
      if i == |buffer| then Drained(buffer) == ([], buffer)
      else
        var left := buffer[PastSeps(buffer, i + 1)..];
        Drained(buffer) == ([buffer[..i]] + Drained(left).0, Drained(left).1)
  {
  }

  lemma EventsGrow(chunks: seq<Bytes>, k: nat, blank: Bytes -> bool)
    requires k < |chunks|
    ensures var buffer := Pending(chunks[..k]) + chunks[k];
      && Pending(chunks[..k + 1]) == LastBytes(Drained(buffer).1, MAX_PENDING)
      && EventsOf(chunks[..k + 1], blank) == EventsOf(chunks[..k], blank)
           + (AsLines(Drained(buffer).0) + Partial(Pending(chunks[..k + 1]), blank))
  {
    assert chunks[..k + 1][..|chunks[..k + 1]| - 1] == chunks[..k];
  }

  /** One round of the outer loop: append, drain, cap, hand on the partial line. */
  method TakeChunk(before: Bytes, chunk: Bytes, blank: Bytes -> bool)
    returns (pending: Bytes, events: seq<Event>)
    ensures pending == LastBytes(Drained(before + chunk).1, MAX_PENDING)
    ensures events == AsLines(Drained(before + chunk).0) + Partial(pending, blank)
  {
    hide Drained, AsLines;
    pending := before + chunk;
    var lines, rest := DrainLines(pending);
    pending := rest;
    if |pending| > MAX_PENDING {
      pending := pending[|pending| - MAX_PENDING..];
    }
    events := AsLines(lines);
    if !blank(pending) {
      events := events + [OnPartial(pending)];
    } else {
      assert events + [] == events;
    }
  }

  method ConsumeStream(chunks: seq<Bytes>, end: End, blank: Bytes -> bool)
    returns (events: seq<Event>)
    requires forall chunk <- chunks :: chunk != []
    ensures events == Trace(chunks, end, blank)
  {
    hide Pending, EventsOf, Drained, AsLines, Partial, LastBytes;
    events := [];
    var pending: Bytes := [];
    NothingRead(chunks, blank);
    for k := 0 to |chunks|
      invariant pending == Pending(chunks[..k])
      invariant events == EventsOf(chunks[..k], blank)
    {
      EventsGrow(chunks, k, blank);
      var more;
      pending, more := TakeChunk(pending, chunks[k], blank);
      events := events + more;
    }
    assert chunks[..|chunks|] == chunks;
    if end.Eof? && !blank(pending) {
      events := events + [OnLine(pending)];
    } else {
      assert events + [] == events;
    }
  }

  lemma NothingRead(chunks: seq<Bytes>, blank: Bytes -> bool)
    ensures Pending(chunks[..0]) == [] && EventsOf(chunks[..0], blank) == []
  {
  }

  /* ---- What the streaming split hands on ---- */

  function Flat(chunks: seq<Bytes>): Bytes {
    if chunks == [] then [] else Flat(chunks[..|chunks| - 1]) + chunks[|chunks| - 1]
  }

  function Shown(events: seq<Event>, blank: Bytes -> bool): seq<Bytes> {
    if events == [] then []
    else
      var e := events[|events| - 1];
      Shown(events[..|events| - 1], blank) + if e.OnLine? && !blank(e.bytes) then [e.bytes] else []
  }

  function Partials(events: seq<Event>): seq<Bytes> {
    if events == [] then []
    else
      var e := events[|events| - 1];
      Partials(events[..|events| - 1]) + if e.OnPartial? then [e.bytes] else []
  }

  function NonBlank(lines: seq<Bytes>, blank: Bytes -> bool): seq<Bytes> {
    if lines == [] then []
    else
      var l := lines[|lines| - 1];
      NonBlank(lines[..|lines| - 1], blank) + if blank(l) then [] else [l]
  }

  function NonEmpty(lines: seq<Bytes>): seq<Bytes> {
    NonBlank(lines, l => l == [])
  }

  predicate Suffix(s: Bytes, t: Bytes) {
    |s| <= |t| && s == t[|t| - |s|..]
  }

  /** `line` is what the capped splitter makes of `run`. */
  predicate Renders(line: Bytes, run: Bytes, bound: nat) {
    Suffix(line, run) && |line| <= bound && (|run| <= MAX_PENDING || |line| >= MAX_PENDING)
    && (|run| <= MAX_PENDING ==> line == run)
  }

  ghost predicate RendersAll(lines: seq<Bytes>, runs: seq<Bytes>, bound: nat) {
    |lines| == |runs| && forall i :: 0 <= i < |lines| ==> Renders(lines[i], runs[i], bound)
  }

  lemma {:induction false} SplitOpen(s: Bytes, x: Bytes)
    requires SepFree(x)
    ensures Split(s + x) == (Split(s).0, Split(s).1 + x)
  {
    if x == [] {
      assert s + x == s && Split(s).1 + x == Split(s).1;
    } else {
      var n := |x| - 1;
      assert (s + x)[..|s + x| - 1] == s + x[..n] && x[n] in x;
      SplitOpen(s, x[..n]);
      assert Split(s).1 + x == (Split(s).1 + x[..n]) + [x[n]];
    }
  }

  lemma {:induction false} SplitSeps(s: Bytes, x: Bytes)
    requires x != [] && forall b <- x :: IsSep(b)
    ensures Split(s + x) == (Split(s).0 + Kept(Split(s).1), [])
  {
    var n := |x| - 1;
    assert (s + x)[..|s + x| - 1] == s + x[..n] && x[n] in x;
    if n == 0 {
      assert s + x[..n] == s;
    } else {
      SplitSeps(s, x[..n]);
      assert (Split(s).0 + Kept(Split(s).1)) + [] == Split(s).0 + Kept(Split(s).1);
    }
  }

  /* ---- What the one-shot split is ---- */

  lemma NoRuns()
    ensures Runs([]) == []
  {
  }

  lemma OneRun(run: Bytes)
    requires run != [] && SepFree(run)
    ensures Runs(run) == [run]
  {
    SplitOpen([], run);
    assert [] + run == run;
  }

  lemma {:induction false} SplitJoins(a: Bytes, seps: Bytes, b: Bytes)
    requires seps != [] && forall x <- seps :: IsSep(x)
    ensures Split(a + seps + b) == (Runs(a) + Split(b).0, Split(b).1)
    decreases |b|
  {
    if b == [] {
      SplitSeps(a, seps);
      assert a + seps + b == a + seps && Runs(a) + [] == Runs(a);
    } else {
      var n := |b| - 1;
      SplitJoins(a, seps, b[..n]);
      assert (a + seps + b)[..|a + seps + b| - 1] == a + seps + b[..n];
      assert (Runs(a) + Split(b[..n]).0) + Kept(Split(b[..n]).1)
        == Runs(a) + (Split(b[..n]).0 + Kept(Split(b[..n]).1));
    }
  }

  /** Separators part the runs before them from the runs after; with the two lemmas above this
      says what the runs of every stream are. */
  lemma RunsJoin(a: Bytes, seps: Bytes, b: Bytes)
    requires seps != [] && forall x <- seps :: IsSep(x)
    ensures Runs(a + seps + b) == Runs(a) + Runs(b)
  {
    SplitJoins(a, seps, b);
    assert (Runs(a) + Split(b).0) + Kept(Split(b).1) == Runs(a) + Runs(b);
  }

  lemma {:induction false} OpenIsSepFree(s: Bytes)
    ensures SepFree(Split(s).1)
  {
    if s != [] {
      OpenIsSepFree(s[..|s| - 1]);
    }
  }

  lemma {:induction false} NonBlankAppends(a: seq<Bytes>, b: seq<Bytes>, blank: Bytes -> bool)
    ensures NonBlank(a + b, blank) == NonBlank(a, blank) + NonBlank(b, blank)
  {
    if b == [] {
      assert a + b == a;
    } else {
      var n := |b| - 1;
      assert (a + b)[..|a + b| - 1] == a + b[..n];
      NonBlankAppends(a, b[..n], blank);
    }
  }

  lemma FirstSepAt(s: Bytes, i: nat)
    requires i <= |s| && SepFree(s[..i]) && (i < |s| ==> IsSep(s[i]))
    ensures FirstSep(s) == i
  {
    var f := FirstSep(s);
    assert forall k :: 0 <= k < i ==> s[k] in s[..i];
    assert forall k :: 0 <= k < f ==> s[k] in s[..f];
  }

  lemma {:induction false} PastSepsShift(p: Bytes, x: Bytes, from: nat)
    requires from <= |x|
    ensures PastSeps(p + x, |p| + from) == |p| + PastSeps(x, from)
    decreases |x| - from
  {
    if from < |x| && IsSep(x[from]) {
      PastSepsShift(p, x, from + 1);
    }
  }

  lemma LastOfLast(t: Bytes, x: Bytes, n: nat)
    ensures LastBytes(LastBytes(t, n) + x, n) == LastBytes(t + x, n)
  {
  }

  lemma TailRenders(tail: Bytes, x: Bytes, bound: nat)
    requires |LastBytes(tail, MAX_PENDING)| + |x| <= bound
    ensures Renders(LastBytes(tail, MAX_PENDING) + x, tail + x, bound)
  {
  }

  lemma FirstSepShift(p: Bytes, x: Bytes)
    requires SepFree(p) && FirstSep(x) < |x|
    ensures FirstSep(p + x) == |p| + FirstSep(x)
  {
    var j := FirstSep(x);
    assert (p + x)[..|p| + j] == p + x[..j];
    FirstSepAt(p + x, |p| + j);
  }

  /** What one pass over `p + x` hands on first, when `x` holds a separator. */
  lemma DrainedFirst(p: Bytes, x: Bytes)
    requires SepFree(p) && FirstSep(x) < |x|
    ensures var j := FirstSep(x);
      var left := Drained(x[PastSeps(x, j + 1)..]);
      Drained(p + x) == ([p + x[..j]] + left.0, left.1)
  {
    hide FirstSep, PastSeps, IsSep;
    var j := FirstSep(x);
    assert (p + x)[..|p| + j] == p + x[..j];
    FirstSepShift(p, x);
    PastSepsShift(p, x, j + 1);
    assert (p + x)[|p| + PastSeps(x, j + 1)..] == x[PastSeps(x, j + 1)..];
  }

  lemma DrainedNothing(p: Bytes, x: Bytes)
    requires SepFree(p) && SepFree(x)
    ensures Drained(p + x) == ([], p + x)
  {
    assert (p + x)[..|p + x|] == p + x;
    FirstSepAt(p + x, |p + x|);
  }

  /** The split after the first separator run of `x`. */
  lemma SplitFirst(s: Bytes, x: Bytes)
    requires FirstSep(x) < |x|
    ensures var j := FirstSep(x);
      Split(s + x[..PastSeps(x, j + 1)]) == (Split(s).0 + Kept(Split(s).1 + x[..j]), [])
  {
    hide Split, FirstSep, PastSeps, Kept, IsSep;
    var j := FirstSep(x);
    var c := PastSeps(x, j + 1);
    SplitOpen(s, x[..j]);
    AllSeps(x, j, c);
    SplitSeps(s + x[..j], x[j..c]);
    PrefixInTwo(s, x, j, c);
  }

  lemma PrefixInTwo(s: Bytes, x: Bytes, j: nat, c: nat)
    requires j <= c <= |x|
    ensures s + x[..c] == (s + x[..j]) + x[j..c]
  {
  }

  lemma AllSeps(x: Bytes, j: nat, c: nat)
    requires j < c <= |x| && forall k :: j <= k < c ==> IsSep(x[k])
    ensures x[j..c] != [] && forall b <- x[j..c] :: IsSep(b)
  {
  }

  /** One pass over the buffer, seen against the one-shot split of the whole stream. */
  lemma {:induction false} DrainRenders(s: Bytes, p: Bytes, x: Bytes, bound: nat)
    requires p == LastBytes(Split(s).1, MAX_PENDING) && |p| + |x| <= bound + 1
    ensures var (lines, rest) := Drained(p + x);
      var (runs, open) := Split(s + x);
      && Split(s).0 <= runs
      && RendersAll(NonEmpty(lines), runs[|Split(s).0|..], bound)
      && LastBytes(rest, MAX_PENDING) == LastBytes(open, MAX_PENDING)
    decreases |x|
  {
    hide Drained, FirstSep, PastSeps, Split;
    var tail := Split(s).1;
    OpenIsSepFree(s);
    var j := FirstSep(x);
    if j == |x| {
      assert x[..j] == x;
      DrainedNothing(p, x);
      SplitOpen(s, x);
      LastOfLast(tail, x, MAX_PENDING);
      assert NonEmpty([]) == [];
    } else {
      var c := PastSeps(x, j + 1);
      var s2, x2 := s + x[..c], x[c..];
      assert s2 + x2 == s + x && [] + x2 == x2;
      DrainedFirst(p, x);
      SplitFirst(s, x);
      DrainRenders(s2, [], x2, bound);
      FirstLineRenders(tail, x[..j], Drained(x2).0, bound);
      Combine(Split(s).0, Kept(tail + x[..j]), Split(s2 + x2).0, Kept(p + x[..j]),
              NonEmpty(Drained(x2).0), bound);
    }
  }

  lemma FirstLineRenders(tail: Bytes, x: Bytes, lines: seq<Bytes>, bound: nat)
    requires |LastBytes(tail, MAX_PENDING)| + |x| <= bound
    ensures var line := LastBytes(tail, MAX_PENDING) + x;
      && NonEmpty([line] + lines) == Kept(line) + NonEmpty(lines)
      && RendersAll(Kept(line), Kept(tail + x), bound)
  {
    var line := LastBytes(tail, MAX_PENDING) + x;
    TailRenders(tail, x, bound);
    NonBlankAppends([line], lines, l => l == []);
    assert NonEmpty([line]) == Kept(line);
  }

  lemma Combine(done: seq<Bytes>, kept: seq<Bytes>, runs: seq<Bytes>, first: seq<Bytes>,
                later: seq<Bytes>, bound: nat)
    requires done + kept <= runs && RendersAll(first, kept, bound)
    requires RendersAll(later, runs[|done + kept|..], bound)
    ensures done <= runs && RendersAll(first + later, runs[|done|..], bound)
  {
    assert runs[|done|..] == kept + runs[|done + kept|..];
  }

  /* ---- Whole streams ---- */

  predicate Chunked(chunks: seq<Bytes>, size: nat) {
    forall chunk <- chunks :: chunk != [] && |chunk| <= size
  }

  /** All lines handed on by the rounds of the outer loop. */
  function LinesOf(chunks: seq<Bytes>): seq<Bytes> {
    if chunks == [] then []
    else LinesOf(chunks[..|chunks| - 1]) + Drained(Buffered(chunks)).0
  }

  /** After every read the buffer holds the last 64 KiB of the run that is still open, and the
      lines so far stand one to one for the finished runs. */
  lemma {:induction false} StreamRenders(chunks: seq<Bytes>, size: nat)
    requires Chunked(chunks, size) && 1 <= size
    ensures Pending(chunks) == LastBytes(Split(Flat(chunks)).1, MAX_PENDING)
    ensures RendersAll(NonEmpty(LinesOf(chunks)), Split(Flat(chunks)).0, MAX_PENDING + size - 1)
  {
    if chunks != [] {
      var before, chunk := chunks[..|chunks| - 1], chunks[|chunks| - 1];
      var bound := MAX_PENDING + size - 1;
      assert chunk in chunks && forall c <- before :: c in chunks;
      StreamRenders(before, size);
      hide Drained, Split;
      DrainRenders(Flat(before), Pending(before), chunk, bound);
      NonBlankAppends(LinesOf(before), Drained(Buffered(chunks)).0, l => l == []);
      Joins(NonEmpty(LinesOf(before)), NonEmpty(Drained(Buffered(chunks)).0),
            Split(Flat(before)).0, Split(Flat(chunks)).0, bound);
    }
  }

  lemma Joins(a: seq<Bytes>, b: seq<Bytes>, done: seq<Bytes>, runs: seq<Bytes>, bound: nat)
    requires done <= runs && RendersAll(a, done, bound) && RendersAll(b, runs[|done|..], bound)
    ensures RendersAll(a + b, runs, bound)
  {
    hide Renders;
    forall i | 0 <= i < |runs| ensures Renders((a + b)[i], runs[i], bound) {
      if i < |done| {
        assert (a + b)[i] == a[i] && runs[i] == done[i];
      } else {
        assert (a + b)[i] == b[i - |done|] && runs[i] == runs[|done|..][i - |done|];
      }
    }
  }

  /** The buffer kept between reads never exceeds 64 KiB. */
  lemma PendingIsBounded(chunks: seq<Bytes>)
    ensures |Pending(chunks)| <= 65536
  {
  }

  /** The lines that a stream read to its end has handed on, with the final flush. */
  function Handed(chunks: seq<Bytes>): seq<Bytes> {
    LinesOf(chunks) + [Pending(chunks)]
  }

  /** Line by line: what is handed on are suffixes of the runs of the stream, in order and one
      for one, whole up to 64 KiB, never shorter than 64 KiB when cut, and with 32 KiB reads
      never longer than 98303 bytes. */
  lemma HandedRendersRuns(chunks: seq<Bytes>, size: nat)
    requires Chunked(chunks, size) && 1 <= size
    ensures RendersAll(NonEmpty(Handed(chunks)), Runs(Flat(chunks)), MAX_PENDING + size - 1)
    ensures size <= 32768 ==>
      forall i :: 0 <= i < |Runs(Flat(chunks))| ==>
        var line, run := NonEmpty(Handed(chunks))[i], Runs(Flat(chunks))[i];
        && |line| <= 98303 && |line| <= |run| && line == run[|run| - |line|..]
        && (if |run| <= 65536 then line == run else |line| >= 65536)
  {
    hide Pending, LinesOf, Split;
    StreamRenders(chunks, size);
    var open := Split(Flat(chunks)).1;
    FirstLineRenders(open, [], [], MAX_PENDING + size - 1);
    assert LastBytes(open, MAX_PENDING) + [] == LastBytes(open, MAX_PENDING) && open + [] == open;
    NonBlankAppends(LinesOf(chunks), [Pending(chunks)], l => l == []);
    var runs := Runs(Flat(chunks));
    assert runs[|Split(Flat(chunks)).0|..] == Kept(open);
    assert [Pending(chunks)] + [] == [Pending(chunks)];
    assert NonEmpty([]) == [] && Kept(Pending(chunks)) + [] == Kept(Pending(chunks));
    Joins(NonEmpty(LinesOf(chunks)), Kept(Pending(chunks)), Split(Flat(chunks)).0, runs,
          MAX_PENDING + size - 1);
  }

  ghost predicate ShortRuns(s: Bytes) {
    forall run <- Runs(s) :: |run| <= MAX_PENDING
  }

  /** One run of 64 KiB and one byte is too long. */
  lemma LongRunsExist()
    ensures var s := seq(65537, _ => 0 as Byte); !ShortRuns(s)
  {
    var s := seq(MAX_PENDING + 1, _ => 0 as Byte);
    assert forall b <- s :: b == 0;
    SplitOpen([], s);
    assert [] + s == s && Split([]) == ([], []);
    assert Runs(s) == [s] && s in [s];
  }

  lemma ShortRunsAreWhole(lines: seq<Bytes>, runs: seq<Bytes>, bound: nat)
    requires RendersAll(lines, runs, bound) && forall run <- runs :: |run| <= MAX_PENDING
    ensures lines == runs
  {
    forall i | 0 <= i < |runs| ensures lines[i] == runs[i] {
      assert runs[i] in runs && Renders(lines[i], runs[i], bound);
    }
  }

  function Bytewise(s: Bytes): seq<Bytes> {
    seq(|s|, i requires 0 <= i < |s| => [s[i]])
  }

  lemma {:induction false} BytewiseIsFlat(s: Bytes)
    ensures Flat(Bytewise(s)) == s
  {
    if s != [] {
      BytewiseIsFlat(s[..|s| - 1]);
      assert Bytewise(s)[..|Bytewise(s)| - 1] == Bytewise(s[..|s| - 1]);
    }
  }

  /** Every way of cutting the stream into 32 KiB reads hands on exactly its runs, if and only
      if no run is longer than 64 KiB. */
  lemma ChunkingDoesNotMatter(s: Bytes)
    ensures (forall chunks: seq<Bytes> :: Flat(chunks) == s && Chunked(chunks, 32768) ==>
               NonEmpty(Handed(chunks)) == Runs(s))
        <==> forall run <- Runs(s) :: |run| <= 65536
  {
    if ShortRuns(s) {
      forall chunks: seq<Bytes> | Flat(chunks) == s && Chunked(chunks, READ_SIZE)
        ensures NonEmpty(Handed(chunks)) == Runs(s)
      {
        ShortStreamIsWhole(chunks);
      }
    } else {
      LongRunIsCut(s);
    }
  }

  lemma ShortStreamIsWhole(chunks: seq<Bytes>)
    requires Chunked(chunks, READ_SIZE) && ShortRuns(Flat(chunks))
    ensures NonEmpty(Handed(chunks)) == Runs(Flat(chunks))
  {
    hide Handed, Runs, RendersAll;
    HandedRendersRuns(chunks, READ_SIZE);
    ShortRunsAreWhole(NonEmpty(Handed(chunks)), Runs(Flat(chunks)), MAX_PENDING + READ_SIZE - 1);
  }

  /** One byte at a time, a run longer than 64 KiB loses its beginning. */
  lemma LongRunIsCut(s: Bytes)
    requires !ShortRuns(s)
    ensures Chunked(Bytewise(s), READ_SIZE) && Flat(Bytewise(s)) == s
    ensures NonEmpty(Handed(Bytewise(s))) != Runs(s)
  {
    hide Handed, Runs;
    BytewiseIsFlat(s);
    assert Chunked(Bytewise(s), 1);
    HandedRendersRuns(Bytewise(s), 1);
    var runs := Runs(s);
    var run :| run in runs && |run| > MAX_PENDING;
    var i :| 0 <= i < |runs| && runs[i] == run;
    assert Renders(NonEmpty(Handed(Bytewise(s)))[i], runs[i], MAX_PENDING);
  }

  /* ---- What the handlers see ---- */

  lemma {:induction false} ShownAppends(a: seq<Event>, b: seq<Event>, blank: Bytes -> bool)
    ensures Shown(a + b, blank) == Shown(a, blank) + Shown(b, blank)
    ensures Partials(a + b) == Partials(a) + Partials(b)
  {
    if b == [] {
      assert a + b == a;
    } else {
      var n := |b| - 1;
      assert (a + b)[..|a + b| - 1] == a + b[..n];
      ShownAppends(a, b[..n], blank);
    }
  }

  lemma {:induction false} ShownLines(lines: seq<Bytes>, blank: Bytes -> bool)
    ensures Shown(AsLines(lines), blank) == NonBlank(lines, blank)
    ensures Partials(AsLines(lines)) == []
  {
    if lines != [] {
      var n := |lines| - 1;
      assert AsLines(lines)[..|AsLines(lines)| - 1] == AsLines(lines[..n]);
      ShownLines(lines[..n], blank);
    }
  }

  lemma PartialShown(pending: Bytes, blank: Bytes -> bool)
    ensures Shown(Partial(pending, blank), blank) == []
    ensures Partials(Partial(pending, blank)) == NonBlank([pending], blank)
  {
    assert [pending][..0] == [];
  }

  /** What is pending after each of the reads. */
  function Tails(chunks: seq<Bytes>): seq<Bytes> {
    if chunks == [] then [] else Tails(chunks[..|chunks| - 1]) + [Pending(chunks)]
  }

  lemma {:induction false} EventsShown(chunks: seq<Bytes>, blank: Bytes -> bool)
    ensures Shown(EventsOf(chunks, blank), blank) == NonBlank(LinesOf(chunks), blank)
    ensures Partials(EventsOf(chunks, blank)) == NonBlank(Tails(chunks), blank)
  {
    if chunks != [] {
      var before := chunks[..|chunks| - 1];
      var lines := Drained(Buffered(chunks)).0;
      EventsShown(before, blank);
      EventsAreThese(chunks, blank);
      hide Shown, Partials, EventsOf, Drained, Pending, AsLines, Partial, NonBlank;
      var partial := Partial(Pending(chunks), blank);
      ShownAppends(EventsOf(before, blank), AsLines(lines) + partial, blank);
      ShownAppends(AsLines(lines), partial, blank);
      ShownLines(lines, blank);
      PartialShown(Pending(chunks), blank);
      NonBlankAppends(LinesOf(before), lines, blank);
      NonBlankAppends(Tails(before), [Pending(chunks)], blank);
      assert NonBlank(lines, blank) + [] == NonBlank(lines, blank);
      assert [] + NonBlank([Pending(chunks)], blank) == NonBlank([Pending(chunks)], blank);
    }
  }

  lemma EventsAreThese(chunks: seq<Bytes>, blank: Bytes -> bool)
    requires chunks != []
    ensures EventsOf(chunks, blank) == EventsOf(chunks[..|chunks| - 1], blank)
      + (AsLines(Drained(Buffered(chunks)).0) + Partial(Pending(chunks), blank))
  {
  }

  lemma {:induction false} NonBlankOfNonEmpty(lines: seq<Bytes>, blank: Bytes -> bool)
    requires blank([])
    ensures NonBlank(NonEmpty(lines), blank) == NonBlank(lines, blank)
  {
    if lines != [] {
      var l := lines[|lines| - 1];
      NonBlankOfNonEmpty(lines[..|lines| - 1], blank);
      NonBlankAppends(NonEmpty(lines[..|lines| - 1]), Kept(l), blank);
      assert NonEmpty(lines) == NonEmpty(lines[..|lines| - 1]) + Kept(l);
      assert NonBlank(Kept(l), blank) == if blank(l) then [] else [l];
    }
  }

  /** The non-blank lines that the handler sees are those of the one-shot split, however the
      stream is cut into reads, even between a CR and its LF. */
  lemma HandlerSeesTheRuns(chunks: seq<Bytes>, blank: Bytes -> bool)
    requires blank([]) && Chunked(chunks, READ_SIZE) && ShortRuns(Flat(chunks))
    ensures Shown(Trace(chunks, Eof, blank), blank) == NonBlank(Runs(Flat(chunks)), blank)
  {
    hide Chunked, ShortRuns, Pending, LinesOf, EventsOf, Runs, Flat;
    ShortStreamIsWhole(chunks);
    NonBlankOfNonEmpty(Handed(chunks), blank);
    NonBlankAppends(LinesOf(chunks), [Pending(chunks)], blank);
    EventsShown(chunks, blank);
    FlushShown(chunks, blank);
  }

  lemma FlushShown(chunks: seq<Bytes>, blank: Bytes -> bool)
    ensures Shown(Trace(chunks, Eof, blank), blank)
      == Shown(EventsOf(chunks, blank), blank) + NonBlank([Pending(chunks)], blank)
    ensures Partials(Trace(chunks, Eof, blank)) == Partials(EventsOf(chunks, blank))
  {
    hide Pending, EventsOf;
    var pending := Pending(chunks);
    var flush := if !blank(pending) then [OnLine(pending)] else [];
    ShownAppends(EventsOf(chunks, blank), flush, blank);
    ShownLines([pending], blank);
    assert AsLines([pending]) == [OnLine(pending)];
    assert [pending][..0] == [];
  }

  /** After each read exactly the current open run is passed on as a partial line, or its last
      64 KiB, unless it is blank; a read error changes nothing about that. */
  lemma HandlerSeesTheTails(chunks: seq<Bytes>, end: End, blank: Bytes -> bool, k: nat)
    requires Chunked(chunks, READ_SIZE) && k < |chunks|
    ensures Partials(Trace(chunks, end, blank)) == NonBlank(Tails(chunks), blank)
    ensures |Tails(chunks)| == |chunks|
    ensures Tails(chunks)[k] == LastBytes(Split(Flat(chunks[..k + 1])).1, MAX_PENDING)
  {
    hide Pending, EventsOf, Split, Flat;
    EventsShown(chunks, blank);
    FlushShown(chunks, blank);
    assert EventsOf(chunks, blank) + [] == EventsOf(chunks, blank);
    TailAt(chunks, k);
    StreamRenders(chunks[..k + 1], READ_SIZE);
  }

  lemma {:induction false} TailAt(chunks: seq<Bytes>, k: nat)
    requires k < |chunks|
    ensures |Tails(chunks)| == |chunks| && Tails(chunks)[k] == Pending(chunks[..k + 1])
  {
    if k == |chunks| - 1 {
      assert chunks[..k + 1] == chunks;
      if k > 0 {
        TailAt(chunks[..k], k - 1);
      }
    } else {
      TailAt(chunks[..|chunks| - 1], k);
      assert chunks[..|chunks| - 1][..k + 1] == chunks[..k + 1];
    }
  }

  /** A read error flushes nothing: what is pending is handed on only at the end of the file. */
  lemma ErrorFlushesNothing(chunks: seq<Bytes>, blank: Bytes -> bool)
    requires Chunked(chunks, 32768)
    ensures Shown(Trace(chunks, ReadError, blank), blank) == NonBlank(LinesOf(chunks), blank)
    ensures Shown(Trace(chunks, Eof, blank), blank)
      == NonBlank(LinesOf(chunks), blank) + NonBlank([Pending(chunks)], blank)
    ensures Pending(chunks) == LastBytes(Split(Flat(chunks)).1, 65536)
  {
    hide Pending, EventsOf, Split, Flat, LinesOf;
    StreamRenders(chunks, 32768);
    EventsShown(chunks, blank);
    FlushShown(chunks, blank);
    assert EventsOf(chunks, blank) + [] == EventsOf(chunks, blank);
  }
}
