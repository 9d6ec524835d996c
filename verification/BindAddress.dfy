/**
  Bind addresses: the two host:port parsers, which were written separately, and the address
  that the readiness check dials (bracketed hosts as in section 3.2.2 of RFC 3986).
*/
module BindAddress {
  import opened Wrappers
  import opened Text
  import opened Decimal

  const U16_MAX: nat := 0xFFFF
  const DEFAULT_PORT: nat := 1080

  /** The position of the first `c`, or the length. */
  function Find(s: string, c: char): (i: nat)
    ensures i <= |s| && c !in s[..i] && (i < |s| ==> s[i] == c)
  {
    if s == "" || s[0] == c then 0
    else
      var i := Find(s[1..], c);
      assert s[..i + 1] == [s[0]] + s[1..][..i];
      i + 1
  }

  /** The position of the last `c`, or the length. */
  function RFind(s: string, c: char): (i: nat)
    ensures i <= |s| && (i < |s| ==> s[i] == c && c !in s[i + 1..])
    ensures i == |s| <==> c !in s
    decreases |s|
  {
    if s == "" then 0
    else if s[|s| - 1] == c then |s| - 1
    else
      var i := RFind(s[..|s| - 1], c);
      assert s == s[..|s| - 1] + [s[|s| - 1]];
      if i == |s| - 1 then |s|
      else
        assert s[i + 1..] == s[..|s| - 1][i + 1..] + [s[|s| - 1]];
        i
  }

  datatype HostPort = HostPort(host: string, port: string)

  function SplitHostPort(s: string): Option<HostPort> {
    if s != "" && s[0] == '[' then
      var rest := s[1..];
      var end := Find(rest, ']');
      if end == |rest| then None
      else
        var after := rest[end + 1..];
        if after == "" || after[0] != ':' then None
        else Some(HostPort(rest[..end], after[1..]))
    else
      var idx := RFind(s, ':');
      if idx == |s| then None
      else if ':' in s[..idx] then None
      else Some(HostPort(s[..idx], s[idx + 1..]))
  }

  function Unbracketed(host: string): string {
    if |host| >= 2 && host[0] == '[' && host[|host| - 1] == ']' then host[1..|host| - 1]
    else host
  }

  function ExtractHostPort(bind: string): (string, nat) {
    var idx := RFind(bind, ':');
    if idx == |bind| then (bind, DEFAULT_PORT)
    else
      var port := Parsed(bind[idx + 1..], U16_MAX);
      if port.None? then (bind, DEFAULT_PORT) else (Unbracketed(bind[..idx]), port.value)
  }

  function Reachable(host: string): string {
    if host == "" || host == "0.0.0.0" then "127.0.0.1"
    else if host == "::" then "::1"
    else host
  }

  function Formatted(host: string, port: string): string {
    if ':' in host then "[" + host + "]:" + port else host + ":" + port
  }

  function DialAddress(bind: string): string {
    var trimmed := Trim(bind);
    if trimmed == "" then ""
    else
      match SplitHostPort(trimmed)
      case Some(hp) => Formatted(Reachable(hp.host), hp.port)
      case None => trimmed
  }

  /* ---- What is accepted ---- */

  lemma FindAt(s: string, c: char, i: nat)
    requires i < |s| && s[i] == c && c !in s[..i]
    ensures Find(s, c) == i
  {
    var f := Find(s, c);
    assert forall k :: 0 <= k < i ==> s[k] in s[..i];
    assert forall k :: 0 <= k < f ==> s[k] in s[..f];
  }

  lemma RFindAt(s: string, c: char, i: nat)
    requires i < |s| && s[i] == c && c !in s[i + 1..]
    ensures RFind(s, c) == i
  {
    var f := RFind(s, c);
    assert s[i] in s;
    assert forall k :: i < k < |s| ==> s[k] in s[i + 1..];
    assert forall k :: f < k < |s| ==> s[k] in s[f + 1..];
  }

  /** The shapes that `split_host_port` accepts, and the only way it reads each. */
  predicate Plain(s: string, hp: HostPort) {
    && s == hp.host + ":" + hp.port && ':' !in hp.host && ':' !in hp.port
    && (hp.host == "" || hp.host[0] != '[')
  }

  predicate Bracketed(s: string, hp: HostPort) {
    s == "[" + hp.host + "]:" + hp.port && ']' !in hp.host
  }

  lemma PlainSplits(s: string, hp: HostPort)
    requires Plain(s, hp)
    ensures SplitHostPort(s) == Some(hp)
  {
    hide Find;
    var i := |hp.host|;
    assert s[i] == ':' && s[i + 1..] == hp.port && s[..i] == hp.host;
    RFindAt(s, ':', i);
  }

  lemma BracketedSplits(s: string, hp: HostPort)
    requires Bracketed(s, hp)
    ensures SplitHostPort(s) == Some(hp)
  {
    hide RFind, Find;
    var rest, i := s[1..], |hp.host|;
    assert s == ("[" + hp.host) + ("]:" + hp.port);
    assert rest == hp.host + ("]:" + hp.port);
    assert rest[..i] == hp.host && rest[i] == ']';
    assert rest[i + 1..] == ":" + hp.port && (":" + hp.port)[1..] == hp.port;
    FindAt(rest, ']', i);
  }

  lemma SplitIsShaped(s: string, hp: HostPort)
    requires SplitHostPort(s) == Some(hp)
    ensures if s[0] == '[' then Bracketed(s, hp) else Plain(s, hp)
  {
    hide RFind, Find;
    if s[0] == '[' {
      var rest := s[1..];
      var end := Find(rest, ']');
      var after := rest[end + 1..];
      assert after == ":" + hp.port;
      assert rest == hp.host + ("]" + after);
      assert s == "[" + rest;
    } else {
      var idx := RFind(s, ':');
      assert s == s[..idx] + ":" + s[idx + 1..];
    }
  }

  /** `host:port` with one colon and no leading bracket, or `[host]:port`; nothing else splits. */
  lemma SplitsExactly(s: string, hp: HostPort)
    ensures SplitHostPort(s) == Some(hp) <==>
      || (s == "[" + hp.host + "]:" + hp.port && ']' !in hp.host)
      || (s == hp.host + ":" + hp.port && ':' !in hp.host && ':' !in hp.port
          && (hp.host == "" || hp.host[0] != '['))
  {
    hide SplitHostPort;
    if SplitHostPort(s) == Some(hp) {
      SplitIsShaped(s, hp);
    } else if Plain(s, hp) {
      PlainSplits(s, hp);
    } else if Bracketed(s, hp) {
      BracketedSplits(s, hp);
    }
  }

  /* ---- The two parsers agree ---- */

  /** Whenever the readiness parser accepts a string with a u16 port, the interception parser
      reads the same host and that port. */
  lemma ParsersAgree(s: string, hp: HostPort, port: nat)
    requires SplitHostPort(s) == Some(hp) && Parsed(hp.port, U16_MAX) == Some(port)
    ensures ExtractHostPort(s) == (hp.host, port)
  {
    ParsedHasNoColon(hp.port, U16_MAX);
    SplitIsShaped(s, hp);
    hide SplitHostPort, ExtractHostPort, Unbracketed, Parsed, RFind, Plain, Bracketed;
    if s[0] == '[' {
      BracketedParts(s, hp);
      ExtractsAt(s, "[" + hp.host + "]", hp.port, port);
      UnbracketsHost(hp.host);
    } else {
      PlainParts(s, hp);
      ExtractsAt(s, hp.host, hp.port, port);
      NotBracketed(hp.host);
    }
  }

  lemma BracketedParts(s: string, hp: HostPort)
    requires Bracketed(s, hp)
    ensures s == ("[" + hp.host + "]") + (":" + hp.port)
  {
  }

  lemma PlainParts(s: string, hp: HostPort)
    requires Plain(s, hp)
    ensures s == hp.host + (":" + hp.port) && (hp.host == "" || hp.host[0] != '[')
  {
  }

  lemma ExtractsAt(s: string, host: string, text: string, port: nat)
    requires s == host + (":" + text) && ':' !in text && Parsed(text, U16_MAX) == Some(port)
    ensures ExtractHostPort(s) == (Unbracketed(host), port)
  {
    hide Parsed;
    var i := |host|;
    assert s[i] == ':' && s[i + 1..] == text && s[..i] == host;
    RFindAt(s, ':', i);
  }

  lemma UnbracketsHost(host: string)
    ensures Unbracketed("[" + host + "]") == host
  {
  }

  lemma NotBracketed(host: string)
    requires host == "" || host[0] != '['
    ensures Unbracketed(host) == host
  {
  }

  /** What the interception parser makes of every bind: without a colon, or without a u16 after
      the last one, it is the host itself and port 1080; else the port is that u16, and the host
      is what stands before, without enclosing brackets. */
  lemma ExtractsExactly(bind: string)
    ensures ':' !in bind ==> ExtractHostPort(bind) == (bind, 1080)
    ensures forall host, text :: bind == host + ":" + text && ':' !in text ==>
      match Parsed(text, 65535)
      case None => ExtractHostPort(bind) == (bind, 1080)
      case Some(port) =>
        if |host| >= 2 && host[0] == '[' && host[|host| - 1] == ']' then
          ExtractHostPort(bind) == (host[1..|host| - 1], port)
        else ExtractHostPort(bind) == (host, port)
  {
    hide Parsed, RFind, ExtractHostPort;
    forall host, text | bind == host + ":" + text && ':' !in text
      ensures match Parsed(text, 65535)
              case None => ExtractHostPort(bind) == (bind, 1080)
              case Some(port) => ExtractHostPort(bind) == (Unbracketed(host), port)
    {
      ExtractsAfterColon(bind, host, text);
    }
    if ':' !in bind {
      ExtractsWithoutColon(bind);
    }
  }

  lemma ExtractsWithoutColon(bind: string)
    requires ':' !in bind
    ensures ExtractHostPort(bind) == (bind, 1080)
  {
  }

  lemma ExtractsAfterColon(bind: string, host: string, text: string)
    requires bind == host + ":" + text && ':' !in text
    ensures match Parsed(text, 65535)
            case None => ExtractHostPort(bind) == (bind, 1080)
            case Some(port) => ExtractHostPort(bind) == (Unbracketed(host), port)
  {
    hide Parsed;
    var i := |host|;
    assert bind[i] == ':' && bind[i + 1..] == text && bind[..i] == host;
    RFindAt(bind, ':', i);
  }

  /* ---- Dialing ---- */

  predicate Wildcard(host: string) {
    host == "" || host == "0.0.0.0" || host == "::"
  }

  lemma ReachableIsNoWildcard(host: string)
    ensures !Wildcard(Reachable(host))
    ensures Reachable(host) == host <==> !Wildcard(host)
  {
  }

  lemma DialOfSplit(bind: string, hp: HostPort)
    requires SplitHostPort(Trim(bind)) == Some(hp)
    ensures DialAddress(bind) == Formatted(Reachable(hp.host), hp.port)
  {
    hide Find, RFind;
  }

  lemma DialOfUnsplit(bind: string)
    requires SplitHostPort(Trim(bind)).None?
    ensures DialAddress(bind) == Trim(bind)
  {
    hide Find, RFind;
  }

  /** What is dialed, for every bind: the local host for a wildcard, else the host as it is, in
      brackets if it holds a colon; and what does not split is dialed as it stands, trimmed. */
  lemma DialsExactly(bind: string)
    ensures SplitHostPort(Trim(bind)) == None ==> DialAddress(bind) == Trim(bind)
    ensures forall h, p :: SplitHostPort(Trim(bind)) == Some(HostPort(h, p)) ==>
      DialAddress(bind) ==
        if h == "" || h == "0.0.0.0" then "127.0.0.1:" + p
        else if h == "::" then "[::1]:" + p
        else if ':' in h then "[" + h + "]:" + p
        else h + ":" + p
  {
    hide Trim, SplitHostPort, DialAddress;
    match SplitHostPort(Trim(bind))
    case None => DialOfUnsplit(bind);
    case Some(hp) =>
      DialOfSplit(bind, hp);
      FormatsExactly(hp.host, hp.port);
  }

  lemma FormatsExactly(h: string, p: string)
    ensures Formatted(Reachable(h), p) ==
      if h == "" || h == "0.0.0.0" then "127.0.0.1:" + p
      else if h == "::" then "[::1]:" + p
      else if ':' in h then "[" + h + "]:" + p
      else h + ":" + p
  {
    assert "127.0.0.1" + ":" + p == "127.0.0.1:" + p;
    assert "[" + "::1" + "]:" + p == "[::1]:" + p;
  }

  /** The dialed address reads back as the same port on the same host, which is never a
      wildcard, exactly when the host is written with colons or neither part upsets the plain
      form. */
  lemma DialReadsBack(bind: string, hp: HostPort)
    requires SplitHostPort(Trim(bind)) == Some(hp)
    ensures !Wildcard(Reachable(hp.host))
    ensures SplitHostPort(DialAddress(bind)) == Some(HostPort(Reachable(hp.host), hp.port))
      <==> (':' in hp.host || (':' !in hp.port && (hp.host == "" || hp.host[0] != '[')))
  {
    SplitIsShaped(Trim(bind), hp);
    DialOfSplit(bind, hp);
    ReachableIsNoWildcard(hp.host);
    ReachableKeepsStart(hp.host);
    hide Trim, SplitHostPort, DialAddress, Formatted, Reachable;
    var host := Reachable(hp.host);
    if ':' in host {
      FormattedSplits(host, hp.port);
    } else {
      PlainReadsBack(host, hp.port);
    }
  }

  lemma FormattedSplits(host: string, port: string)
    requires ':' in host && ']' !in host
    ensures SplitHostPort(Formatted(host, port)) == Some(HostPort(host, port))
  {
    hide SplitHostPort;
    BracketedSplits(Formatted(host, port), HostPort(host, port));
  }

  lemma PlainReadsBack(host: string, port: string)
    requires host != "" && ':' !in host
    ensures SplitHostPort(Formatted(host, port)) == Some(HostPort(host, port))
      <==> ':' !in port && host[0] != '['
  {
    hide SplitHostPort;
    var s, hp := Formatted(host, port), HostPort(host, port);
    if ':' !in port && host[0] != '[' {
      PlainSplits(s, hp);
    } else if SplitHostPort(s) == Some(hp) {
      SplitIsShaped(s, hp);
      if s[0] == '[' {
        LengthsDiffer(s, hp);
      }
    }
  }

  lemma LengthsDiffer(s: string, hp: HostPort)
    requires s == hp.host + ":" + hp.port
    ensures !Bracketed(s, hp)
  {
    assert |s| == |hp.host| + 1 + |hp.port|;
    assert |"[" + hp.host + "]:" + hp.port| == |hp.host| + 3 + |hp.port|;
  }

  /** The bind strings whose dial address would itself be dialed differently: a bracketed host
      without colon that begins with white space, and the host `[` before a port `:]:...`. */
  predicate Unstable(s: string) {
    match SplitHostPort(s)
    case None => false
    case Some(hp) =>
      hp.host != "" && ':' !in hp.host
      && (IsWhite(hp.host[0]) || (hp.host == "[" && ":]:" <= hp.port))
  }

  /** Dialing twice is dialing once, except for exactly those. */
  lemma DialIsStable(bind: string)
    ensures DialAddress(DialAddress(bind)) == DialAddress(bind) <==> !Unstable(Trim(bind))
  {
    var t := Trim(bind);
    hide SplitHostPort, DialAddress, Trim, Formatted, Reachable;
    match SplitHostPort(t)
    case None =>
      DialOfUnsplit(bind);
      DialOfUnsplit(t);
    case Some(hp) =>
      DialOfSplit(bind, hp);
      SplitIsShaped(t, hp);
      ReachableIsNoWildcard(hp.host);
      ReachableKeepsStart(hp.host);
      PortEndsTrimmed(t, hp);
      FormattedDial(Reachable(hp.host), hp.port);
  }

  lemma ReachableKeepsStart(host: string)
    ensures var r := Reachable(host);
      && (':' in r <==> ':' in host)
      && (r == "[" <==> host == "[")
      && (r[0] == '[' <==> host != "" && host[0] == '[')
      && (']' in r <==> ']' in host)
      && (IsWhite(r[0]) <==> host != "" && IsWhite(host[0]))
  {
  }

  lemma PortEndsTrimmed(t: string, hp: HostPort)
    requires Trimmed(t) && (Bracketed(t, hp) || Plain(t, hp))
    ensures hp.port == "" || !IsWhite(hp.port[|hp.port| - 1])
  {
    if hp.port != "" {
      assert t[|t| - 1] == hp.port[|hp.port| - 1];
    }
  }

  /** Dialing a formatted address of a host that is no wildcard. */
  lemma FormattedDial(host: string, port: string)
    requires !Wildcard(host) && (':' in host ==> ']' !in host)
    requires host[0] == '[' ==> ']' !in host
    requires port == "" || !IsWhite(port[|port| - 1])
    ensures DialAddress(Formatted(host, port)) == Formatted(host, port)
      <==> ':' in host || !(IsWhite(host[0]) || (host == "[" && ":]:" <= port))
  {
    hide DialAddress, SplitHostPort, Trim;
    var d := Formatted(host, port);
    if ':' in host {
      assert Trimmed(d);
      FormattedSplits(host, port);
      DialOfSplit(d, HostPort(host, port));
    } else if IsWhite(host[0]) {
      UntrimmedDial(d);
    } else {
      FormattedIsTrimmed(host, port);
      if host[0] == '[' {
        BracketDial(d, host, port);
      } else {
        PlainDial(d, host, port);
      }
    }
  }

  lemma FormattedIsTrimmed(host: string, port: string)
    requires host != "" && !IsWhite(host[0])
    requires port == "" || !IsWhite(port[|port| - 1])
    ensures Trimmed(host + ":" + port)
  {
    var d := host + ":" + port;
    assert d[0] == host[0] && d[|d| - 1] == if port == "" then ':' else port[|port| - 1];
  }

  lemma PlainDial(d: string, host: string, port: string)
    requires d == host + ":" + port && Trimmed(d)
    requires !Wildcard(host) && ':' !in host && host[0] != '['
    ensures DialAddress(d) == d
  {
    hide DialAddress, SplitHostPort, Trim;
    if ':' !in port {
      var hp := HostPort(host, port);
      PlainSplits(d, hp);
      DialOfSplit(d, hp);
    } else {
      if SplitHostPort(d).Some? {
        var hp := SplitHostPort(d).value;
        SplitIsShaped(d, hp);
        assert d[0] == host[0];
        OneColon(d, hp, host, port);
        assert false;
      }
      DialOfUnsplit(d);
    }
  }

  lemma OneColon(s: string, hp: HostPort, host: string, port: string)
    requires Plain(s, hp) && s == host + ":" + port
    ensures ':' !in port
  {
    assert forall n :: 0 <= n < |hp.host| ==> s[n] == hp.host[n];
    assert forall n :: |hp.host| < n < |s| ==> s[n] == hp.port[n - |hp.host| - 1];
    assert s[|host|] == ':';
    assert |host| == |hp.host|;
    assert port == s[|host| + 1..] == hp.port;
  }

  lemma BracketDial(d: string, host: string, port: string)
    requires d == host + ":" + port && Trimmed(d)
    requires host != "" && host[0] == '[' && ':' !in host && ']' !in host
    ensures DialAddress(d) == d <==> !(host == "[" && ":]:" <= port)
  {
    hide DialAddress, SplitHostPort, Trim;
    if host == "[" && ":]:" <= port {
      var hp := HostPort("::", port[3..]);
      assert port == ":]:" + hp.port;
      BracketedSplits(d, hp);
      DialOfSplit(d, hp);
      assert |Formatted("::1", hp.port)| == |d| + 1;
    } else {
      match SplitHostPort(d)
      case None => DialOfUnsplit(d);
      case Some(hp) =>
        SplitIsShaped(d, hp);
        ColonIsInside(d, hp, host, port);
        DialOfSplit(d, hp);
    }
  }

  /** What is read as bracketed goes past the host that was written, so it holds a colon. */
  lemma ColonIsInside(d: string, hp: HostPort, host: string, port: string)
    requires d == host + ":" + port && Bracketed(d, hp)
    requires host != "" && ':' !in host && ']' !in host
    requires !(host == "[" && ":]:" <= port)
    ensures ':' in hp.host && hp.host != "::"
  {
    var end := |hp.host| + 1;
    assert d[end] == ']' && d[|host|] == ':';
    assert forall k :: 0 <= k < |host| ==> d[k] == host[k];
    assert forall k :: 0 <= k < |hp.host| ==> d[k + 1] == hp.host[k];
    assert |host| < end;
    assert hp.host[|host| - 1] == ':';
    if hp.host == "::" {
      NotTwoColons(d, hp, host, port);
    }
  }

  lemma NotTwoColons(d: string, hp: HostPort, host: string, port: string)
    requires d == host + ":" + port && d == "[" + hp.host + "]:" + hp.port && hp.host == "::"
    requires host != "" && ':' !in host
    ensures host == "[" && port == ":]:" + hp.port
  {
    assert d == "[::]:" + hp.port;
    assert forall k :: 0 <= k < |host| ==> d[k] == host[k];
    assert d[1] == ':' && |host| == 1;
    assert port == d[2..] && d[2..] == ":]:" + hp.port;
  }

  /** Only the trimmed string is read, and every rewriting begins with a digit or a bracket. */
  lemma UntrimmedDial(d: string)
    requires d != "" && IsWhite(d[0])
    ensures DialAddress(d) != d
  {
    hide DialAddress, SplitHostPort, Trim, RFind, Find;
    var t := Trim(d);
    assert |t| < |d|;
    match SplitHostPort(t)
    case None => DialOfUnsplit(d);
    case Some(hp) =>
      SplitIsShaped(t, hp);
      DialOfSplit(d, hp);
  }

  /* ---- Addresses that are not stable ---- */

  /** A bracketed host that begins with white space: the space is lost on the second reading. */
  lemma BracketedSpaceIsLost()
    ensures DialAddress("[ h]:80") == " h:80" && DialAddress(" h:80") == "h:80"
    ensures Unstable(Trim("[ h]:80"))
  {
    hide SplitHostPort, DialAddress, Trim;
    BracketedSplits("[ h]:80", HostPort(" h", "80"));
    DialOfSplit("[ h]:80", HostPort(" h", "80"));
    TrimsLeadingSpace();
    PlainSplits("h:80", HostPort("h", "80"));
    DialOfSplit(" h:80", HostPort("h", "80"));
  }

  lemma TrimsLeadingSpace()
    ensures Trim(" h:80") == "h:80"
  {
    assert " h:80"[1..] == "h:80";
  }

  /** The host `[` before a port `:]:...`: the first address reads as the wildcard `::`. */
  lemma LoneBracketIsReread()
    ensures DialAddress("[[]::]:80") == "[::]:80" && DialAddress("[::]:80") == "[::1]:80"
    ensures Unstable(Trim("[[]::]:80"))
  {
    hide SplitHostPort, DialAddress, Trim;
    BracketedSplits("[[]::]:80", HostPort("[", ":]:80"));
    DialOfSplit("[[]::]:80", HostPort("[", ":]:80"));
    BracketedSplits("[::]:80", HostPort("::", "80"));
    DialOfSplit("[::]:80", HostPort("::", "80"));
  }

  /** A port with a colon is dialed as written, and does not read back. */
  lemma ColonInPortIsUnread()
    ensures SplitHostPort("[h]:1:2") == Some(HostPort("h", "1:2"))
    ensures DialAddress("[h]:1:2") == "h:1:2" && SplitHostPort("h:1:2").None?
  {
    hide SplitHostPort, DialAddress, Trim;
    var hp := HostPort("h", "1:2");
    BracketedSplits("[h]:1:2", hp);
    DialOfSplit("[h]:1:2", hp);
    assert "1:2"[1] == ':';
    if SplitHostPort("h:1:2").Some? {
      var other := SplitHostPort("h:1:2").value;
      SplitIsShaped("h:1:2", other);
      OneColon("h:1:2", other, "h", "1:2");
    }
  }
}
