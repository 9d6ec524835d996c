/**
  The stdin pipe of a child: what the forwarder has written is the accepted values, each
  closed by one newline, in order (level L1).
*/
module StdinFraming {
  import opened Wrappers
  import opened Text
  import opened Sessions
  import opened Protocol
  import opened TaskFrames

  function Lines(values: seq<string>): Bytes {
    if values == [] then []
    else Lines(values[..|values| - 1]) + (Utf8(values[|values| - 1]) + [LF])
  }

  function Encoded(values: seq<string>): seq<Bytes> {
    seq(|values|, i requires 0 <= i < |values| => Utf8(values[i]))
  }

  /** What the child reads: the finished lines and the unfinished rest. */
  function SplitOnLf(b: Bytes): (seq<Bytes>, Bytes) {
    if b == [] then ([], [])
    else
      var (lines, rest) := SplitOnLf(b[..|b| - 1]);
      var last := b[|b| - 1];
      if last == LF then (lines + [rest], []) else (lines, rest + [last])
  }

  lemma {:induction false} SplitExtends(b: Bytes, x: Bytes)
    requires LF !in x
    ensures SplitOnLf(b + x) == (SplitOnLf(b).0, SplitOnLf(b).1 + x)
  {
    if x == [] {
      assert b + x == b && SplitOnLf(b).1 + x == SplitOnLf(b).1;
    } else {
      var n := |x| - 1;
      assert x == x[..n] + [x[n]];
      assert (b + x)[..|b + x| - 1] == b + x[..n];
      SplitExtends(b, x[..n]);
      assert SplitOnLf(b).1 + x == (SplitOnLf(b).1 + x[..n]) + [x[n]];
    }
  }

  lemma SplitAddsLine(b: Bytes, line: Bytes)
    requires LF !in line && SplitOnLf(b).1 == []
    ensures SplitOnLf(b + (line + [LF])) == (SplitOnLf(b).0 + [line], [])
  {
    SplitExtends(b, line);
    var whole := b + (line + [LF]);
    assert [] + line == line;
    assert whole[..|whole| - 1] == b + line;
  }

  /** Splitting on newlines undoes the framing. */
  lemma {:induction false} SplitUndoesLines(values: seq<string>)
    requires forall v <- values :: '\n' !in v
    ensures SplitOnLf(Lines(values)) == (Encoded(values), [])
  {
    hide SplitOnLf, Utf8;
    if values == [] {
      SplitOfNothing();
    } else {
      var n := |values| - 1;
      SplitUndoesLines(values[..n]);
      SplitAddsLine(Lines(values[..n]), Utf8(values[n]));
      assert Encoded(values) == Encoded(values[..n]) + [Utf8(values[n])];
    }
  }

  lemma SplitOfNothing()
    ensures SplitOnLf([]) == ([], [])
  {
  }

  ghost predicate Framed(p: Pipe) {
    && p.delivered <= |p.accepted|
    && p.queue == p.accepted[p.delivered..]
    && (forall v <- p.accepted :: '\n' !in v)
    && if p.open then p.written == Lines(p.accepted[..p.delivered])
       else p.delivered < |p.accepted|
            && exists cut :: 0 <= cut <= |Utf8(p.accepted[p.delivered])|
                 && p.written == Lines(p.accepted[..p.delivered]) + Utf8(p.accepted[p.delivered])[..cut]
  }

  ghost predicate AllFramed(pipes: map<TaskId, Pipe>) {
    forall c :: c in pipes ==> Framed(pipes[c])
  }

  ghost predicate PipesFramed(y: System) {
    AllFramed(y.pipes)
  }

  lemma AcceptKeepsFrame(p: Pipe, v: string)
    requires Framed(p) && p.open && '\n' !in v
    ensures Framed(p.(accepted := p.accepted + [v], queue := p.queue + [v]))
  {
    assert (p.accepted + [v])[..p.delivered] == p.accepted[..p.delivered];
  }

  lemma ForwardKeepsFrame(p: Pipe)
    requires Framed(p) && p.open && p.queue != []
    ensures Framed(p.(queue := p.queue[1..], delivered := p.delivered + 1,
                      written := p.written + (Utf8(p.queue[0]) + [LF])))
  {
    var sent := p.accepted[..p.delivered + 1];
    assert sent[..|sent| - 1] == p.accepted[..p.delivered] && sent[|sent| - 1] == p.queue[0];
  }

  lemma BreakKeepsFrame(p: Pipe, cut: nat)
    requires Framed(p) && p.open && p.queue != [] && cut <= |Utf8(p.queue[0])|
    ensures Framed(p.(written := p.written + Utf8(p.queue[0])[..cut], open := false))
  {
  }

  lemma SubmitKeepsFrames(y: System, raw: string, kind: Option<string>)
    requires PipesFramed(y)
    ensures AllFramed(PipesAfter(y, Submit(raw, kind)))
  {
    hide Framed, SpawnGuardViolated, Utf8;
    if Submission(y.s, raw, kind, Listening(y)).Success? {
      AcceptKeepsFrame(y.pipes[y.s.stdinTx.value], CheckedValue(raw).value);
    }
  }

  lemma PipesStayFramed(y: System, st: Step)
    requires PipesFramed(y) && Enabled(y, st)
    ensures AllFramed(PipesAfter(y, st))
  {
    hide Framed, Submission, Poised, Utf8, Listening;
    match st
    case Submit(raw, kind) => SubmitKeepsFrames(y, raw, kind);
    case Forward(c) => ForwardKeepsFrame(y.pipes[c]);
    case BreakPipe(c, cut) => BreakKeepsFrame(y.pipes[c], cut);
    case Register(_) => NewPipeFramed();
    case _ =>
      hide PipesAfter, Enabled;
      OthersKeepPipes(y, st);
  }

  lemma PipesFramedKept(y: System, st: Step)
    requires PipesFramed(y) && Enabled(y, st)
    ensures PipesFramed(Next(y, st))
  {
    hide SessionAfter, ChangeOf, Changed, PipesAfter, HistoryAfter, AllFramed, Fresh, Enabled;
    PipesStayFramed(y, st);
  }

  lemma NewPipeFramed()
    ensures Framed(NEW_PIPE)
  {
  }

  /** The lines a child has read are a prefix of the values accepted for it, and an
      unfinished line is the beginning of the next one. */
  lemma FramedReadsBack(p: Pipe)
    requires Framed(p)
    ensures var (lines, rest) := SplitOnLf(p.written);
      && lines == Encoded(p.accepted[..p.delivered])
      && (if p.delivered < |p.accepted| then rest <= Utf8(p.accepted[p.delivered]) else rest == [])
  {
    SplitUndoesLines(p.accepted[..p.delivered]);
    if !p.open {
      var next := Utf8(p.accepted[p.delivered]);
      var cut :| 0 <= cut <= |next|
        && p.written == Lines(p.accepted[..p.delivered]) + next[..cut];
      SplitExtends(Lines(p.accepted[..p.delivered]), next[..cut]);
    }
  }
}
