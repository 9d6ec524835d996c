/**
  Windows argument quoting. `EscapeArg` prints one argument; its inverse is the tokenizer of
  the Microsoft C runtime and of CommandLineToArgvW (Microsoft Learn, "Parsing C command-line
  arguments"), written here as the specification.
*/
module ArgvQuoting {

  /** The backslash counter is a u32; a release build lets it wrap. */
  const WRAP: nat := 0x1_0000_0000
  const HALF: nat := 0x8000_0000

  function Slashes(n: nat): (s: string)
    ensures |s| == n
  {
    if n == 0 then "" else "\\" + Slashes(n - 1)
  }

  lemma {:induction false} SlashesAdd(m: nat, n: nat)
    ensures Slashes(m) + Slashes(n) == Slashes(m + n)
  {
    if m > 0 {
      SlashesAdd(m - 1, n);
      assert Slashes(m) + Slashes(n) == "\\" + (Slashes(m - 1) + Slashes(n));
    }
  }

  /* ---- The printer ---- */

  predicate NeedsQuotes(s: string) {
    exists c <- s :: c == ' ' || c == '\t' || c == '"' || c == '\\'
  }

  /** The quoted form of `s` and its closing quote, after `n` backslashes held back. */
  function Quoted(s: string, n: nat): string
    decreases |s|
  {
    if s == "" then Slashes(2 * n % WRAP) + "\""
    else if s[0] == '\\' then Quoted(s[1..], (n + 1) % WRAP)
    else if s[0] == '"' then (Slashes((2 * n + 1) % WRAP) + "\"") + Quoted(s[1..], 0)
    else (Slashes(n) + [s[0]]) + Quoted(s[1..], 0)
  }

  function Escaped(s: string): string {
    if s == "" then "\"\""
    else if !NeedsQuotes(s) then s
    else "\"" + Quoted(s, 0)
  }

  method PushSlashes(out: string, n: nat) returns (r: string)
    ensures r == out + Slashes(n)
  {
    r := out;
    for j := 0 to n
      invariant r == out + Slashes(j)
    {
      SlashesAdd(j, 1);
      assert Slashes(1) == "\\";
      r := r + "\\";
    }
  }

  lemma {:induction false} QuotedCloses(s: string, n: nat)
    ensures Quoted(s, n) != "" && Quoted(s, n)[|Quoted(s, n)| - 1] == '"'
    decreases |s|
  {
    if s != "" {
      QuotedCloses(s[1..], if s[0] == '\\' then (n + 1) % WRAP else 0);
    }
  }

  /** Only what needs quotes is quoted. */
  lemma EscapedShape(s: string)
    ensures s == "" ==> Escaped(s) == "\"\""
    ensures s != "" && ' ' !in s && '\t' !in s && '"' !in s && '\\' !in s ==> Escaped(s) == s
    ensures ' ' in s || '\t' in s || '"' in s || '\\' in s ==>
      var e := Escaped(s); |e| >= 2 && e[0] == '"' && e[|e| - 1] == '"'
  {
    hide Quoted;
    QuotedCloses(s, 0);
  }

  method EscapeArg(s: string) returns (out: string)
    ensures out == Escaped(s)
  {
    if s == "" {
      return "\"\"";
    }
    if !NeedsQuotes(s) {
      return s;
    }
    out := "\"";
    var backslashes: nat := 0;
    for i := 0 to |s|
      invariant out + Quoted(s[i..], backslashes) == "\"" + Quoted(s, 0)
    {
      ghost var before, held := out, backslashes;
      assert s[i..][0] == s[i] && s[i..][1..] == s[i + 1..];
      if s[i] == '\\' {
        backslashes := (backslashes + 1) % WRAP;
      } else if s[i] == '"' {
        out := PushSlashes(out, (2 * backslashes + 1) % WRAP);
        out := out + "\"";
        backslashes := 0;
        assert out == before + (Slashes((2 * held + 1) % WRAP) + "\"");
      } else {
        out := PushSlashes(out, backslashes);
        backslashes := 0;
        out := out + [s[i]];
        assert out == before + (Slashes(held) + [s[i]]);
      }
    }
    out := PushSlashes(out, 2 * backslashes % WRAP);
    out := out + "\"";
  }

  function Joined(args: seq<string>): string {
    if args == [] then ""
    else if |args| == 1 then Escaped(args[0])
    else Escaped(args[0]) + (" " + Joined(args[1..]))
  }

  /* ---- The tokenizer ---- */

  /** What a doubled quote inside quotes means: nothing special; a literal quote that leaves
      the quotes open (C runtime since 2008); or a literal quote that closes them (before
      2008, and CommandLineToArgvW). */
  datatype PairRule = Toggles | LiteralStaysOpen | LiteralCloses

  datatype Scan = Between | Within(arg: string, quoted: bool, slashes: nat)

  predicate IsBlank(c: char) {
    c == ' ' || c == '\t'
  }

  function Tokens(s: string, at: Scan, rule: PairRule): seq<string>
    decreases |s|, at.Between?
  {
    match at
    case Between =>
      if s == "" then []
      else if IsBlank(s[0]) then Tokens(s[1..], Between, rule)
      else Tokens(s, Within("", false, 0), rule)
    case Within(arg, quoted, n) =>
      if s == "" then [arg + Slashes(n)]
      else if s[0] == '\\' then Tokens(s[1..], Within(arg, quoted, n + 1), rule)
      else if s[0] == '"' then
        if n % 2 == 1 then
          Tokens(s[1..], Within(arg + (Slashes(n / 2) + "\""), quoted, 0), rule)
        else if quoted && !rule.Toggles? && |s| > 1 && s[1] == '"' then
          Tokens(s[2..], Within(arg + (Slashes(n / 2) + "\""), rule.LiteralStaysOpen?, 0), rule)
        else Tokens(s[1..], Within(arg + Slashes(n / 2), !quoted, 0), rule)
      else if IsBlank(s[0]) && !quoted then [arg + Slashes(n)] + Tokens(s[1..], Between, rule)
      else Tokens(s[1..], Within(arg + (Slashes(n) + [s[0]]), quoted, 0), rule)
  }

  /** The command line is handed over as a NUL-terminated wide string. */
  function UpToNul(s: string): string {
    if s == "" || s[0] == '\0' then "" else [s[0]] + UpToNul(s[1..])
  }

  function Received(args: seq<string>, rule: PairRule): seq<string> {
    Tokens(UpToNul(Joined(args)), Between, rule)
  }

  /* ---- What is read back ---- */

  /** What comes back for `s` after `n` backslashes held back: runs before a quote or at the
      end come back modulo 2^31, other runs modulo 2^32. */
  function ReadBack(s: string, n: nat): string
    decreases |s|
  {
    if s == "" then Slashes(n % HALF)
    else if s[0] == '\\' then ReadBack(s[1..], (n + 1) % WRAP)
    else if s[0] == '"' then (Slashes(n % HALF) + "\"") + ReadBack(s[1..], 0)
    else (Slashes(n) + [s[0]]) + ReadBack(s[1..], 0)
  }

  /** No run of backslashes is too long for the counter. */
  predicate Fits(s: string, n: nat)
    decreases |s|
  {
    if s == "" then n < HALF
    else if s[0] == '\\' then n + 1 < WRAP && Fits(s[1..], n + 1)
    else if s[0] == '"' then n < HALF && Fits(s[1..], 0)
    else Fits(s[1..], 0)
  }

  lemma {:induction false} ScanSlashes(k: nat, x: string, arg: string, quoted: bool, n: nat,
                                      rule: PairRule)
    ensures Tokens(Slashes(k) + x, Within(arg, quoted, n), rule)
         == Tokens(x, Within(arg, quoted, n + k), rule)
  {
    if k == 0 {
      assert Slashes(0) + x == x;
    } else {
      assert (Slashes(k) + x)[1..] == Slashes(k - 1) + x;
      ScanSlashes(k - 1, x, arg, quoted, n + 1, rule);
    }
  }

  /** Held-back backslashes and one further piece are read in one go. */
  lemma ScanPiece(k: nat, c: char, x: string, arg: string, rule: PairRule)
    requires c != '\\' && c != '"'
    ensures Tokens((Slashes(k) + [c]) + x, Within(arg, true, 0), rule)
         == Tokens(x, Within(arg + (Slashes(k) + [c]), true, 0), rule)
  {
    assert (Slashes(k) + [c]) + x == Slashes(k) + ([c] + x);
    ScanSlashes(k, [c] + x, arg, true, 0, rule);
    assert ([c] + x)[1..] == x;
  }

  lemma ScanInnerQuote(k: nat, x: string, arg: string, rule: PairRule)
    requires k % 2 == 1
    ensures Tokens((Slashes(k) + "\"") + x, Within(arg, true, 0), rule)
         == Tokens(x, Within(arg + (Slashes(k / 2) + "\""), true, 0), rule)
  {
    assert (Slashes(k) + "\"") + x == Slashes(k) + ("\"" + x);
    ScanSlashes(k, "\"" + x, arg, true, 0, rule);
    assert ("\"" + x)[1..] == x;
  }

  lemma ScanClosingQuote(k: nat, x: string, arg: string, rule: PairRule)
    requires k % 2 == 0 && (x == "" || x[0] != '"')
    ensures Tokens((Slashes(k) + "\"") + x, Within(arg, true, 0), rule)
         == Tokens(x, Within(arg + Slashes(k / 2), false, 0), rule)
  {
    assert (Slashes(k) + "\"") + x == Slashes(k) + ("\"" + x);
    ScanSlashes(k, "\"" + x, arg, true, 0, rule);
    assert ("\"" + x)[1..] == x;
  }

  lemma HalvesOfWrapped(n: nat)
    ensures 2 * n % WRAP == 2 * (n % HALF)
    ensures (2 * n + 1) % WRAP == 2 * (n % HALF) + 1
  {
  }

  /** The piece printed for a character that is no backslash, and what comes back for it. */
  function Piece(c: char, n: nat): string {
    if c == '"' then Slashes((2 * n + 1) % WRAP) + "\"" else Slashes(n) + [c]
  }

  function PieceBack(c: char, n: nat): string {
    if c == '"' then Slashes(n % HALF) + "\"" else Slashes(n) + [c]
  }

  lemma ScanPieces(c: char, n: nat, x: string, arg: string, rule: PairRule)
    requires c != '\\'
    ensures Tokens(Piece(c, n) + x, Within(arg, true, 0), rule)
         == Tokens(x, Within(arg + PieceBack(c, n), true, 0), rule)
  {
    hide Tokens, Slashes;
    HalvesOfWrapped(n);
    if c == '"' {
      ScanInnerQuote((2 * n + 1) % WRAP, x, arg, rule);
    } else {
      ScanPiece(n, c, x, arg, rule);
    }
  }

  lemma {:induction false} ScanQuoted(s: string, n: nat, x: string, arg: string, rule: PairRule)
    requires x == "" || x[0] != '"'
    ensures Tokens(Quoted(s, n) + x, Within(arg, true, 0), rule)
         == Tokens(x, Within(arg + ReadBack(s, n), false, 0), rule)
    decreases |s|
  {
    hide Tokens, Slashes, Piece, PieceBack, Quoted, ReadBack;
    if s == "" {
      QuotesClose(n);
      ScanClosingQuote(2 * (n % HALF), x, arg, rule);
    } else if s[0] == '\\' {
      HoldsBack(s, n);
      ScanQuoted(s[1..], (n + 1) % WRAP, x, arg, rule);
    } else {
      OnePiece(s, n);
      var rest := Quoted(s[1..], 0) + x;
      assert Quoted(s, n) + x == Piece(s[0], n) + rest;
      ScanPieces(s[0], n, rest, arg, rule);
      ScanQuoted(s[1..], 0, x, arg + PieceBack(s[0], n), rule);
      assert (arg + PieceBack(s[0], n)) + ReadBack(s[1..], 0) == arg + ReadBack(s, n);
    }
  }

  lemma QuotesClose(n: nat)
    ensures Quoted("", n) == Slashes(2 * (n % HALF)) + "\"" && ReadBack("", n) == Slashes(n % HALF)
  {
    HalvesOfWrapped(n);
  }

  lemma HoldsBack(s: string, n: nat)
    requires s != "" && s[0] == '\\'
    ensures Quoted(s, n) == Quoted(s[1..], (n + 1) % WRAP)
    ensures ReadBack(s, n) == ReadBack(s[1..], (n + 1) % WRAP)
  {
  }

  lemma OnePiece(s: string, n: nat)
    requires s != "" && s[0] != '\\'
    ensures Quoted(s, n) == Piece(s[0], n) + Quoted(s[1..], 0)
    ensures ReadBack(s, n) == PieceBack(s[0], n) + ReadBack(s[1..], 0)
  {
  }

  lemma {:induction false} ScanPlain(s: string, x: string, arg: string, rule: PairRule)
    requires !NeedsQuotes(s)
    ensures Tokens(s + x, Within(arg, false, 0), rule) == Tokens(x, Within(arg + s, false, 0), rule)
    decreases |s|
  {
    if s == "" {
      assert s + x == x && arg + s == arg;
    } else {
      assert s[0] in s && (s + x)[1..] == s[1..] + x;
      assert forall c <- s[1..] :: c in s;
      ScanPlain(s[1..], x, arg + [s[0]], rule);
      assert (arg + [s[0]]) + s[1..] == arg + s;
      assert Slashes(0) + [s[0]] == [s[0]];
    }
  }

  /** What the tokenizer makes of one printed argument. */
  function Returned(s: string): string {
    if NeedsQuotes(s) then ReadBack(s, 0) else s
  }

  lemma ScanEscaped(s: string, x: string, rule: PairRule)
    requires x == "" || x[0] == ' '
    ensures Tokens(Escaped(s) + x, Between, rule) == Tokens(x, Within(Returned(s), false, 0), rule)
  {
    hide ReadBack, Quoted, Tokens;
    if s == "" {
      EmptyArgument(x, rule);
    } else if !NeedsQuotes(s) {
      assert s[0] in s;
      BeginsArgument(s + x, rule);
      ScanPlain(s, x, "", rule);
      assert "" + s == s;
    } else {
      OpensQuotes(Quoted(s, 0) + x, rule);
      assert Escaped(s) + x == "\"" + (Quoted(s, 0) + x);
      ScanQuoted(s, 0, x, "", rule);
      assert "" + ReadBack(s, 0) == ReadBack(s, 0);
    }
  }

  lemma BeginsArgument(x: string, rule: PairRule)
    requires x != "" && !IsBlank(x[0])
    ensures Tokens(x, Between, rule) == Tokens(x, Within("", false, 0), rule)
  {
  }

  lemma OpensQuotes(x: string, rule: PairRule)
    ensures Tokens("\"" + x, Between, rule) == Tokens(x, Within("", true, 0), rule)
  {
    var line := "\"" + x;
    assert line[1..] == x;
    assert Tokens(line, Between, rule) == Tokens(line, Within("", false, 0), rule);
    assert "" + Slashes(0) == "";
  }

  lemma EmptyArgument(x: string, rule: PairRule)
    requires x == "" || x[0] == ' '
    ensures Tokens("\"\"" + x, Between, rule) == Tokens(x, Within("", false, 0), rule)
  {
    var line := "\"\"" + x;
    assert line == "\"" + ("\"" + x);
    OpensQuotes("\"" + x, rule);
    assert ("\"" + x)[1..] == x;
    assert "" + Slashes(0) == "";
  }

  function AllReturned(args: seq<string>): seq<string> {
    if args == [] then [] else [Returned(args[0])] + AllReturned(args[1..])
  }

  /** Tokenizing the joined line gives back the arguments one by one. */
  lemma {:induction false} TokensOfJoined(args: seq<string>, rule: PairRule)
    ensures Tokens(Joined(args), Between, rule) == AllReturned(args)
  {
    if args != [] {
      var rest := if |args| == 1 then "" else " " + Joined(args[1..]);
      assert Joined(args) == Escaped(args[0]) + rest;
      ScanEscaped(args[0], rest, rule);
      EndsToken(Returned(args[0]), rest, rule);
      if |args| > 1 {
        TokensOfJoined(args[1..], rule);
        assert rest[1..] == Joined(args[1..]);
      } else {
        assert args[1..] == [];
      }
    }
  }

  lemma EndsToken(arg: string, x: string, rule: PairRule)
    requires x == "" || x[0] == ' '
    ensures Tokens(x, Within(arg, false, 0), rule)
      == [arg] + if x == "" then [] else Tokens(x[1..], Between, rule)
  {
    assert arg + Slashes(0) == arg;
  }

  /* ---- When the trip is the identity ---- */

  /** Nothing is added on the way, and something is lost exactly when a run overflows. */
  lemma {:induction false} ReadBackLoses(s: string, n: nat)
    requires n < WRAP
    ensures |ReadBack(s, n)| <= n + |s|
    ensures |ReadBack(s, n)| == n + |s| <==> Fits(s, n)
    decreases |s|
  {
    hide Slashes;
    if s != "" {
      ReadBackLoses(s[1..], if s[0] == '\\' then (n + 1) % WRAP else 0);
    }
  }

  lemma {:induction false} ReadBackIsExact(s: string, n: nat)
    requires n < WRAP && Fits(s, n)
    ensures ReadBack(s, n) == Slashes(n) + s
    decreases |s|
  {
    hide Slashes;
    if s == "" {
      assert Slashes(n) + s == Slashes(n);
    } else if s[0] == '\\' {
      ReadBackIsExact(s[1..], n + 1);
      OneMoreSlash(s, n);
    } else {
      ReadBackIsExact(s[1..], 0);
      NoSlashes(s[1..]);
      assert Slashes(n) + s == (Slashes(n) + [s[0]]) + s[1..];
    }
  }

  lemma OneMoreSlash(s: string, n: nat)
    requires s != "" && s[0] == '\\'
    ensures Slashes(n + 1) + s[1..] == Slashes(n) + s
  {
    SlashesAdd(n, 1);
    assert Slashes(1) == "\\";
    assert Slashes(n) + s == (Slashes(n) + "\\") + s[1..];
  }

  lemma NoSlashes(s: string)
    ensures Slashes(0) + s == s
  {
  }

  predicate NulFree(s: string) {
    '\0' !in s
  }

  /** Arguments that survive: no NUL, and no run of backslashes too long for the counter. */
  predicate Transportable(s: string) {
    NulFree(s) && (NeedsQuotes(s) ==> Fits(s, 0))
  }

  lemma {:induction false} ShortArgumentsFit(s: string, n: nat)
    requires n + |s| < HALF
    ensures Fits(s, n)
    decreases |s|
  {
    if s != "" {
      ShortArgumentsFit(s[1..], if s[0] == '\\' then n + 1 else 0);
    }
  }

  lemma {:induction false} AllReturnedAt(args: seq<string>, i: nat)
    requires i < |args|
    ensures |AllReturned(args)| == |args| && AllReturned(args)[i] == Returned(args[i])
  {
    if |args| > 1 {
      AllReturnedAt(args[1..], if i == 0 then 0 else i - 1);
    }
  }

  lemma ReturnedExactly(s: string)
    ensures Returned(s) == s <==> (NeedsQuotes(s) ==> Fits(s, 0))
  {
    if NeedsQuotes(s) {
      ReadBackLoses(s, 0);
      if Fits(s, 0) {
        ReadBackIsExact(s, 0);
        NoSlashes(s);
      }
    }
  }

  lemma {:induction false} UpToNulKeeps(s: string)
    ensures NulFree(UpToNul(s))
    ensures NulFree(s) ==> UpToNul(s) == s
  {
    if s != "" {
      UpToNulKeeps(s[1..]);
      assert NulFree(s) ==> NulFree(s[1..]) && s[0] in s;
    }
  }

  lemma {:induction false} SlashesNulFree(n: nat)
    ensures NulFree(Slashes(n))
  {
    if n > 0 {
      SlashesNulFree(n - 1);
    }
  }

  lemma {:induction false} QuotedNulFree(s: string, n: nat)
    requires NulFree(s)
    ensures NulFree(Quoted(s, n))
    decreases |s|
  {
    SlashesNulFree(n);
    SlashesNulFree(2 * n % WRAP);
    SlashesNulFree((2 * n + 1) % WRAP);
    if s != "" {
      assert s[0] in s && NulFree(s[1..]);
      QuotedNulFree(s[1..], if s[0] == '\\' then (n + 1) % WRAP else 0);
    }
  }

  lemma {:induction false} JoinedNulFree(args: seq<string>)
    requires forall a <- args :: NulFree(a)
    ensures NulFree(Joined(args))
  {
    if args != [] {
      if NeedsQuotes(args[0]) {
        QuotedNulFree(args[0], 0);
      }
      JoinedNulFree(args[1..]);
    }
  }

  predicate Clean(tokens: seq<string>) {
    forall t <- tokens :: NulFree(t)
  }

  lemma {:induction false} TokensAreClean(s: string, at: Scan, rule: PairRule)
    requires NulFree(s) && (at.Within? ==> NulFree(at.arg))
    ensures Clean(Tokens(s, at, rule))
    decreases |s|, at.Between?
  {
    if at.Within? {
      SlashesNulFree(at.slashes);
      SlashesNulFree(at.slashes / 2);
    }
    if s != "" {
      assert s[0] in s && NulFree(s[1..]);
      match at
      case Between =>
        TokensAreClean(s[1..], Between, rule);
        if !IsBlank(s[0]) {
          TokensAreClean(s, Within("", false, 0), rule);
        }
      case Within(arg, quoted, n) =>
        WithinIsClean(s, arg, quoted, n, rule);
    }
  }

  lemma {:induction false} WithinIsClean(s: string, arg: string, quoted: bool, n: nat, rule: PairRule)
    requires s != "" && NulFree(s) && NulFree(s[1..]) && NulFree(arg)
    requires NulFree(Slashes(n)) && NulFree(Slashes(n / 2))
    ensures Clean(Tokens(s, Within(arg, quoted, n), rule))
    decreases |s|, false, 0
  {
    var next, half := s[1..], Slashes(n / 2);
    if s[0] == '\\' {
      TokensAreClean(next, Within(arg, quoted, n + 1), rule);
    } else if s[0] == '"' {
      if n % 2 == 1 {
        TokensAreClean(next, Within(arg + (half + "\""), quoted, 0), rule);
      } else if quoted && !rule.Toggles? && |s| > 1 && s[1] == '"' {
        TokensAreClean(s[2..], Within(arg + (half + "\""), rule.LiteralStaysOpen?, 0), rule);
      } else {
        TokensAreClean(next, Within(arg + half, !quoted, 0), rule);
      }
    } else if IsBlank(s[0]) && !quoted {
      TokensAreClean(next, Between, rule);
    } else {
      assert s[0] in s;
      TokensAreClean(next, Within(arg + (Slashes(n) + [s[0]]), quoted, 0), rule);
    }
  }

  /** Escape, join, hand over and tokenize is the identity, under each documented rule for
      doubled quotes, on exactly the lists whose arguments hold no NUL and no run of 2^31
      backslashes before a quote or at the end (2^32 elsewhere). */
  lemma RoundTrip(args: seq<string>, rule: PairRule)
    ensures Received(args, rule) == args <==> forall a <- args :: Transportable(a)
  {
    UpToNulKeeps(Joined(args));
    TokensAreClean(UpToNul(Joined(args)), Between, rule);
    hide Tokens, Joined, UpToNul, Returned, Fits, NeedsQuotes;
    if forall a <- args :: NulFree(a) {
      JoinedNulFree(args);
      TokensOfJoined(args, rule);
      NulFreeTrip(args);
    } else {
      assert Clean(Received(args, rule));
    }
  }

  lemma NulFreeTrip(args: seq<string>)
    requires forall a <- args :: NulFree(a)
    ensures AllReturned(args) == args <==> forall a <- args :: Transportable(a)
  {
    hide Returned, Fits, NeedsQuotes, AllReturned;
    if args == [] {
      NothingReturned();
    } else {
      AllReturnedAt(args, 0);
      forall i | 0 <= i < |args|
        ensures AllReturned(args)[i] == args[i] <==> Transportable(args[i])
      {
        AllReturnedAt(args, i);
        ReturnedExactly(args[i]);
      }
      if AllReturned(args) != args {
        var i :| 0 <= i < |args| && AllReturned(args)[i] != args[i];
        assert !Transportable(args[i]);
      }
    }
  }

  lemma NothingReturned()
    ensures AllReturned([]) == []
  {
  }

  /** A caller's check: arguments without NUL and shorter than 2^31 characters all survive. */
  lemma OrdinaryArgumentsSurvive(args: seq<string>, rule: PairRule)
    requires forall a <- args :: '\0' !in a && |a| < 0x8000_0000
    ensures Received(args, rule) == args
  {
    forall a | a in args ensures Transportable(a) {
      ShortArgumentsFit(a, 0);
    }
    RoundTrip(args, rule);
  }

  /** 2^31 backslashes are lost: the doubled count wraps to zero. */
  lemma OverflowLosesBackslashes(rule: PairRule)
    ensures Received([Slashes(0x8000_0000)], rule) != [Slashes(0x8000_0000)]
  {
    var s := Slashes(HALF);
    SlashesAreSlashes(HALF);
    assert s[0] in s && NeedsQuotes(s);
    LongRunOverflows(HALF, 0);
    RoundTrip([s], rule);
    assert !Transportable(s);
  }

  lemma {:induction false} SlashesAreSlashes(n: nat)
    ensures forall c <- Slashes(n) :: c == '\\'
  {
    if n > 0 {
      SlashesAreSlashes(n - 1);
    }
  }

  lemma {:induction false} LongRunOverflows(k: nat, n: nat)
    requires n + k >= HALF
    ensures !Fits(Slashes(k), n)
    decreases k
  {
    if k > 0 {
      LongRunOverflows(k - 1, n + 1);
    }
  }

  /* ---- Which runs of backslashes are too long ---- */

  predicate Backslashes(s: string) {
    forall c <- s :: c == '\\'
  }

  /** A run of 2^32 backslashes, or one of 2^31 before a quote or at the end. */
  ghost predicate Overflows(s: string) {
    exists i: nat, k: nat :: i + k <= |s| && IsLongRun(s, i, k)
  }

  predicate IsLongRun(s: string, i: nat, k: nat)
    requires i + k <= |s|
  {
    && Backslashes(s[i..i + k])
    && (k >= 0x1_0000_0000 || (k >= 0x8000_0000 && (i + k == |s| || s[i + k] == '"')))
  }

  lemma SlashAt(n: nat, x: string, j: nat)
    requires j < n
    ensures (Slashes(n) + x)[j] == '\\'
  {
    SlashesAreSlashes(n);
    assert Slashes(n)[j] in Slashes(n);
  }

  lemma HeldRunIsLong(n: nat, x: string)
    requires n >= 0x1_0000_0000 || (n >= 0x8000_0000 && (x == "" || x[0] == '"'))
    ensures Overflows(Slashes(n) + x)
  {
    SlashesAreSlashes(n);
    var s := Slashes(n) + x;
    assert s[0..0 + n] == Slashes(n);
    assert IsLongRun(s, 0, n);
  }

  lemma LaterRunIsLong(n: nat, c: char, r: string)
    requires Overflows(r)
    ensures Overflows(Slashes(n) + ([c] + r))
  {
    var s := Slashes(n) + ([c] + r);
    var i: nat, k: nat :| i + k <= |r| && IsLongRun(r, i, k);
    assert s[n + 1..] == r;
    assert s[n + 1 + i..n + 1 + i + k] == r[i..i + k];
    assert IsLongRun(s, n + 1 + i, k);
  }

  /** A run does not go past a character that is no backslash. */
  lemma LongRunIsEitherSide(n: nat, c: char, r: string, i: nat, k: nat)
    requires c != '\\' && n < 0x1_0000_0000
    requires i + k <= n + 1 + |r| && IsLongRun(Slashes(n) + ([c] + r), i, k)
    ensures (c == '"' && n >= 0x8000_0000) || Overflows(r)
  {
    var s := Slashes(n) + ([c] + r);
    assert s[n] == c && s[n + 1..] == r;
    assert forall j :: i <= j < i + k ==> s[j] in s[i..i + k];
    if i + k <= n {
      if i + k < n {
        SlashAt(n, [c] + r, i + k);
      }
    } else if i > n {
      assert s[i..i + k] == r[i - n - 1..i - n - 1 + k];
      assert IsLongRun(r, i - n - 1, k);
    } else {
      assert false;
    }
  }

  lemma OverflowsPast(n: nat, c: char, r: string)
    requires c != '\\' && n < 0x1_0000_0000
    ensures Overflows(Slashes(n) + ([c] + r)) <==> (c == '"' && n >= 0x8000_0000) || Overflows(r)
  {
    hide IsLongRun, Slashes;
    var s := Slashes(n) + ([c] + r);
    if c == '"' && n >= 0x8000_0000 {
      HeldRunIsLong(n, [c] + r);
    }
    if Overflows(r) {
      LaterRunIsLong(n, c, r);
    }
    if Overflows(s) {
      var i: nat, k: nat :| i + k <= |s| && IsLongRun(s, i, k);
      LongRunIsEitherSide(n, c, r, i, k);
    }
  }

  lemma HeldAloneOverflows(n: nat)
    requires n < 0x1_0000_0000
    ensures Overflows(Slashes(n) + "") <==> n >= 0x8000_0000
  {
    if n >= 0x8000_0000 {
      HeldRunIsLong(n, "");
    }
  }

  lemma {:induction false} FitsHeld(s: string, n: nat)
    requires n < 0x1_0000_0000
    ensures Fits(s, n) <==> !Overflows(Slashes(n) + s)
    decreases |s|
  {
    hide Overflows, Slashes;
    if s == "" {
      HeldAloneOverflows(n);
    } else if s[0] == '\\' {
      OneMoreSlash(s, n);
      if n + 1 < 0x1_0000_0000 {
        FitsHeld(s[1..], n + 1);
      } else {
        HeldRunIsLong(n + 1, s[1..]);
      }
    } else {
      FitsHeld(s[1..], 0);
      NoSlashes(s[1..]);
      OverflowsPast(n, s[0], s[1..]);
      assert s == [s[0]] + s[1..];
    }
  }

  /** The arguments that fit the counter are those without too long a run of backslashes. */
  lemma FitsExactly(s: string)
    ensures Fits(s, 0) <==> !Overflows(s)
  {
    hide Overflows, Slashes, Fits;
    FitsHeld(s, 0);
    NoSlashes(s);
  }

  /** What comes back, in terms of the arguments alone. */
  lemma RoundTripExactly(args: seq<string>, rule: PairRule)
    ensures Received(args, rule) == args <==>
      forall a <- args :: '\0' !in a
        && (' ' in a || '\t' in a || '"' in a || '\\' in a ==> !Overflows(a))
  {
    hide Received, Overflows, Fits;
    RoundTrip(args, rule);
    forall a | a in args
      ensures Transportable(a) <==>
        ('\0' !in a && (' ' in a || '\t' in a || '"' in a || '\\' in a ==> !Overflows(a)))
    {
      FitsExactly(a);
    }
  }

  /** One space between two lists of parameters. */
  lemma {:induction false} JoinedOverSpace(xs: seq<string>, ys: seq<string>)
    requires xs != [] && ys != []
    ensures Joined(xs + ys) == Joined(xs) + (" " + Joined(ys))
    decreases |xs|
  {
    hide Escaped;
    if |xs| == 1 {
      assert xs + ys == [xs[0]] + ys && (xs + ys)[1..] == ys;
    } else {
      JoinedOverSpace(xs[1..], ys);
      assert (xs + ys)[1..] == xs[1..] + ys;
      assert Escaped(xs[0]) + (" " + (Joined(xs[1..]) + (" " + Joined(ys))))
        == (Escaped(xs[0]) + (" " + Joined(xs[1..]))) + (" " + Joined(ys));
    }
  }

  /* ---- Examples of the published rules ---- */

  lemma {:induction false} ScanPlainQuoted(s: string, x: string, arg: string, rule: PairRule)
    requires '"' !in s && '\\' !in s
    ensures Tokens(s + x, Within(arg, true, 0), rule) == Tokens(x, Within(arg + s, true, 0), rule)
    decreases |s|
  {
    if s == "" {
      assert s + x == x && arg + s == arg;
    } else {
      assert (s + x)[1..] == s[1..] + x && [s[0]] + s[1..] == s;
      assert arg + (Slashes(0) + [s[0]]) == arg + [s[0]];
      ScanPlainQuoted(s[1..], x, arg + [s[0]], rule);
      assert (arg + [s[0]]) + s[1..] == arg + s;
    }
  }

  lemma Separates(arg: string, x: string, rule: PairRule)
    requires !NeedsQuotes(arg) && arg != ""
    ensures Tokens(arg + x, Between, rule) == Tokens(x, Within(arg, false, 0), rule)
    ensures Tokens(" " + x, Within(arg, false, 0), rule) == [arg] + Tokens(x, Between, rule)
    ensures Tokens("\t" + x, Within(arg, false, 0), rule) == [arg] + Tokens(x, Between, rule)
  {
    assert arg[0] in arg && (arg + x)[0] == arg[0];
    ScanPlain(arg, x, "", rule);
    assert "" + arg == arg && arg + Slashes(0) == arg;
    assert (" " + x)[1..] == x && ("\t" + x)[1..] == x;
  }

  lemma LastOne(arg: string, rule: PairRule)
    requires !NeedsQuotes(arg) && arg != ""
    ensures Tokens(arg, Between, rule) == [arg]
  {
    Separates(arg, "", rule);
    assert arg + "" == arg && arg + Slashes(0) == arg;
  }

  lemma TwoMore(rule: PairRule)
    ensures Tokens("d e", Between, rule) == ["d", "e"]
  {
    hide Tokens;
    Separates("d", " e", rule);
    Separates("d", "e", rule);
    LastOne("e", rule);
    assert "d" + " e" == "d e" && " " + "e" == " e";
  }

  /** The line `"a b c" d e` holds the arguments `a b c`, `d` and `e`. */
  lemma QuotedBlanksExample(rule: PairRule)
    ensures Tokens("\"a b c\" d e", Between, rule) == ["a b c", "d", "e"]
  {
    hide Tokens;
    OpensQuotes("a b c\" d e", rule);
    assert "\"" + "a b c\" d e" == "\"a b c\" d e";
    ScanPlainQuoted("a b c", "\" d e", "", rule);
    assert "a b c" + "\" d e" == "a b c\" d e" && "" + "a b c" == "a b c";
    ScanClosingQuote(0, " d e", "a b c", rule);
    NoSlashes("\"");
    assert (Slashes(0) + "\"") + " d e" == "\" d e" && "a b c" + Slashes(0 / 2) == "a b c";
    BlankEnds("a b c", "d e", rule);
    assert " " + "d e" == " d e";
    TwoMore(rule);
  }

  lemma BlankEnds(arg: string, x: string, rule: PairRule)
    ensures Tokens(" " + x, Within(arg, false, 0), rule) == [arg] + Tokens(x, Between, rule)
  {
    assert arg + Slashes(0) == arg && (" " + x)[1..] == x;
  }

  lemma EatSlash(x: string, arg: string, n: nat, rule: PairRule)
    ensures Tokens("\\" + x, Within(arg, false, n), rule) == Tokens(x, Within(arg, false, n + 1), rule)
  {
    assert ("\\" + x)[1..] == x;
  }

  lemma EatEscapedQuote(x: string, arg: string, rule: PairRule)
    ensures Tokens("\"" + x, Within(arg, false, 3), rule) == Tokens(x, Within(arg + "\\\"", false, 0), rule)
  {
    assert ("\"" + x)[1..] == x;
    assert Slashes(1) == "\\" && arg + (Slashes(1) + "\"") == arg + "\\\"";
  }

  /** In the line `a\\\"b d e` three backslashes before a quote stand for one and the quote. */
  lemma OddBackslashesExample(rule: PairRule)
    ensures Tokens("a\\\\\\\"b d e", Between, rule) == ["a\\\"b", "d", "e"]
  {
    hide Tokens;
    Separates("a", "\\\\\\\"b d e", rule);
    assert "a" + "\\\\\\\"b d e" == "a\\\\\\\"b d e";
    EatSlash("\\\\\"b d e", "a", 0, rule);
    EatSlash("\\\"b d e", "a", 1, rule);
    EatSlash("\"b d e", "a", 2, rule);
    assert "\\" + "\\\\\"b d e" == "\\\\\\\"b d e" && "\\" + "\\\"b d e" == "\\\\\"b d e";
    assert "\\" + "\"b d e" == "\\\"b d e";
    EatEscapedQuote("b d e", "a", rule);
    assert "\"" + "b d e" == "\"b d e" && "a" + "\\\"" == "a\\\"";
    ScanPlain("b", " d e", "a\\\"", rule);
    assert "b" + " d e" == "b d e" && "a\\\"" + "b" == "a\\\"b";
    BlankEnds("a\\\"b", "d e", rule);
    assert " " + "d e" == " d e";
    TwoMore(rule);
  }

  lemma EatDoubledQuote(x: string, arg: string, rule: PairRule)
    ensures Tokens("\"\"" + x, Within(arg, true, 0), rule) ==
      match rule
      case Toggles => Tokens(x, Within(arg, true, 0), rule)
      case LiteralStaysOpen => Tokens(x, Within(arg + "\"", true, 0), rule)
      case LiteralCloses => Tokens(x, Within(arg + "\"", false, 0), rule)
  {
    var s := "\"\"" + x;
    assert s[1..] == "\"" + x && s[2..] == x && s[1..][1..] == x;
    assert arg + Slashes(0) == arg && arg + (Slashes(0) + "\"") == arg + "\"";
  }

  lemma QuotedToTheEnd(arg: string, rule: PairRule)
    ensures Tokens("", Within(arg, true, 0), rule) == [arg]
  {
    assert arg + Slashes(0) == arg;
  }

  /** What the three rules make of the line `"b"" d e`. */
  lemma DoubledQuoteExample(rule: PairRule)
    ensures Tokens("\"b\"\" d e", Between, rule) ==
      match rule
      case Toggles => ["b d e"]
      case LiteralStaysOpen => ["b\" d e"]
      case LiteralCloses => ["b\"", "d", "e"]
  {
    hide Tokens;
    OpensQuotes("b\"\" d e", rule);
    assert "\"" + "b\"\" d e" == "\"b\"\" d e";
    ScanPlainQuoted("b", "\"\" d e", "", rule);
    assert "b" + "\"\" d e" == "b\"\" d e" && "" + "b" == "b";
    EatDoubledQuote(" d e", "b", rule);
    assert "\"\"" + " d e" == "\"\" d e" && "b" + "\"" == "b\"";
    match rule
    case Toggles =>
      ScanPlainQuoted(" d e", "", "b", rule);
      assert " d e" + "" == " d e" && "b" + " d e" == "b d e";
      QuotedToTheEnd("b d e", rule);
    case LiteralStaysOpen =>
      ScanPlainQuoted(" d e", "", "b\"", rule);
      assert " d e" + "" == " d e" && "b\"" + " d e" == "b\" d e";
      QuotedToTheEnd("b\" d e", rule);
    case LiteralCloses =>
      BlankEnds("b\"", "d e", rule);
      assert " " + "d e" == " d e";
      TwoMore(rule);
  }
}
