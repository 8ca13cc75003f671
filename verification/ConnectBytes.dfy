/** The bytes of a CONNECT request and what becomes of them (src/proxy_runtime/rama/connect.rs:28-94 and 175-274). */
module ConnectBytes {
  import opened Basics
  import opened Config
  import opened Text
  import opened Policy
  import opened Connect
  import opened Authorization

  const CRLF: string := "\r\n"

  predicate HasBreak(s: string) { exists i :: 0 <= i < |s| - 1 && s[i] == '\r' && s[i + 1] == '\n' }

  // ----- lines -----

  /** The first line and the others, each after a line break. */
  function Broken(first: string, lines: seq<string>): string
    decreases |lines|
  {
    if lines == [] then first else Broken(first, lines[..|lines| - 1]) + CRLF + lines[|lines| - 1]
  }

  lemma LinesBreak(b: string)
    ensures Lines(CRLF + b) == [[]] + Lines(b)
  {
    assert (CRLF + b)[..2] == CRLF && (CRLF + b)[2..] == b;
  }

  lemma LinesChar(c: char, s: string)
    requires !(c == '\r' && s != [] && s[0] == '\n')
    ensures Lines([c] + s) == [[c] + Lines(s)[0]] + Lines(s)[1..]
  {
    var all := [c] + s;
    assert all[1..] == s && (s != [] ==> all[1] == s[0]);
    assert |all| >= 2 ==> (all[..2] == CRLF <==> all[0] == '\r' && all[1] == '\n');
  }

  lemma {:induction false} LinesAppend(a: string, b: string)
    ensures Lines(a + CRLF + b) == Lines(a) + Lines(b)
    decreases |a|
  {
    assert Lines([]) == [[]];
    hide Lines;
    if a == [] {
      LinesBreak(b);
      assert a + CRLF + b == CRLF + b;
    } else if |a| >= 2 && a[0] == '\r' && a[1] == '\n' {
      var rest := a[2..];
      assert a == CRLF + rest && a + CRLF + b == CRLF + (rest + CRLF + b);
      LinesBreak(rest);
      LinesBreak(rest + CRLF + b);
      LinesAppend(rest, b);
    } else {
      var rest, tail := a[1..], a[1..] + CRLF + b;
      assert a == [a[0]] + rest && a + CRLF + b == [a[0]] + tail;
      assert tail[0] == if rest == [] then '\r' else rest[0];
      LinesChar(a[0], rest);
      LinesChar(a[0], tail);
      LinesAppend(rest, b);
      FirstJoined([a[0]], Lines(rest), Lines(b));
    }
  }

  lemma FirstJoined(c: string, p: seq<string>, q: seq<string>)
    requires p != []
    ensures [c + (p + q)[0]] + (p + q)[1..] == ([c + p[0]] + p[1..]) + q
  {
    assert (p + q)[1..] == p[1..] + q;
  }

  lemma {:induction false} OneLine(s: string)
    requires !HasBreak(s)
    ensures Lines(s) == [s]
  {
    if s != [] {
      assert |s| >= 2 ==> (s[..2] == CRLF <==> s[0] == '\r' && s[1] == '\n');
      forall i | 0 <= i < |s| - 2 ensures !(s[1..][i] == '\r' && s[1..][i + 1] == '\n') { assert s[i + 1] == s[1..][i]; }
      OneLine(s[1..]);
      assert [s[0]] + s[1..] == s;
    }
  }

  predicate Unbroken(lines: seq<string>) { forall k :: 0 <= k < |lines| ==> !HasBreak(lines[k]) }

  lemma {:induction false} LinesOfBroken(first: string, lines: seq<string>)
    requires !HasBreak(first) && Unbroken(lines)
    ensures Lines(Broken(first, lines)) == [first] + lines
    decreases |lines|
  {
    hide Lines; hide HasBreak;
    if lines == [] {
      OneLine(first);
    } else {
      var front, last := lines[..|lines| - 1], lines[|lines| - 1];
      LinesOfBroken(first, front);
      LinesAppend(Broken(first, front), last);
      OneLine(last);
      assert [first] + front + [last] == [first] + lines;
    }
  }

  lemma {:induction false} BrokenShift(c: string, first: string, lines: seq<string>)
    ensures c + Broken(first, lines) == Broken(c + first, lines)
    decreases |lines|
  {
    if lines != [] { BrokenShift(c, first, lines[..|lines| - 1]); }
  }

  lemma {:induction false} BrokenFirst(first: string, second: string, lines: seq<string>)
    ensures Broken(first, [second] + lines) == first + CRLF + Broken(second, lines)
    decreases |lines|
  {
    var all := [second] + lines;
    if lines == [] {
      assert all[..0] == [] && all[0] == second;
    } else {
      assert all[..|all| - 1] == [second] + lines[..|lines| - 1] && all[|all| - 1] == lines[|lines| - 1];
      BrokenFirst(first, second, lines[..|lines| - 1]);
    }
  }

  /** The lines of a text have no break in them, and joined by breaks they are the text. */
  lemma {:induction false} LinesJoin(s: string)
    ensures Unbroken(Lines(s)) && Broken(Lines(s)[0], Lines(s)[1..]) == s
    ensures s != [] && !(|s| >= 2 && s[..2] == CRLF) && Lines(s)[0] != [] ==> Lines(s)[0][0] == s[0]
    ensures s != [] && s[0] == '\n' ==> Lines(s)[0] != [] && Lines(s)[0][0] == '\n'
    decreases |s|
  {
    if s == [] {
    } else if |s| >= 2 && s[..2] == CRLF {
      var rest := Lines(s[2..]);
      LinesJoin(s[2..]);
      assert Lines(s) == [[]] + rest && Lines(s)[1..] == [rest[0]] + rest[1..];
      BrokenFirst([], rest[0], rest[1..]);
      assert [] + CRLF + s[2..] == s;
      assert s[0] == '\r';
    } else {
      var rest := Lines(s[1..]);
      LinesJoin(s[1..]);
      assert Lines(s) == [[s[0]] + rest[0]] + rest[1..] && Lines(s)[1..] == rest[1..];
      BrokenShift([s[0]], rest[0], rest[1..]);
      assert [s[0]] + s[1..] == s;
      FirstUnbroken(s[0], rest[0], s);
      assert Unbroken(Lines(s)) by {
        forall k | 0 <= k < |Lines(s)| ensures !HasBreak(Lines(s)[k]) { if k > 0 { assert Lines(s)[k] == rest[k]; } }
      }
    }
  }

  lemma FirstUnbroken(c: char, line: string, s: string)
    requires s != [] && s[0] == c && !(|s| >= 2 && s[..2] == CRLF) && !HasBreak(line)
    requires line != [] ==> |s| >= 2 && (line[0] == s[1] || line[0] != '\n')
    ensures !HasBreak([c] + line)
  {
    var all := [c] + line;
    assert |s| >= 2 ==> (s[..2] == CRLF <==> s[0] == '\r' && s[1] == '\n');
    forall i | 0 <= i < |all| - 1 ensures !(all[i] == '\r' && all[i + 1] == '\n') {
      if i > 0 { assert all[i] == line[i - 1] && all[i + 1] == line[i]; }
    }
  }

  // ----- words -----

  /** The bytes that separate words. */
  predicate Separates(c: char) { IsSpace(c) && c != 11 as char }

  predicate IsWord(s: string) { s != [] && forall i :: 0 <= i < |s| ==> !Separates(s[i]) }

  lemma {:induction false} WordAlone(w: string, rest: string)
    requires (forall i :: 0 <= i < |w| ==> !Separates(w[i])) && (rest == [] || Separates(rest[0]))
    ensures WordLength(w + rest) == |w|
  {
    if w == [] { assert w + rest == rest; }
    else { WordAlone(w[1..], rest); assert (w + rest)[1..] == w[1..] + rest; }
  }

  lemma WordThen(w: string, rest: string)
    requires IsWord(w)
    ensures Words(w + " " + rest) == [w] + Words(rest) && Words(w) == [w]
  {
    var tail := " " + rest;
    assert w + " " + rest == w + tail;
    WordAlone(w, tail);
    assert (w + tail)[..|w|] == w && (w + tail)[|w|..] == tail && tail[1..] == rest;
    WordAlone(w, []);
    assert w + [] == w && w[..|w|] == w && w[|w|..] == [];
  }

  function RequestLine(authority: string): string { "CONNECT " + authority + " HTTP/1.1" }

  lemma RequestWords(authority: string)
    requires IsWord(authority)
    ensures Words(RequestLine(authority)) == ["CONNECT", authority, "HTTP/1.1"]
  {
    hide Words;
    var rest := authority + " " + "HTTP/1.1";
    assert RequestLine(authority) == "CONNECT" + " " + rest;
    WordThen("CONNECT", rest);
    WordThen(authority, "HTTP/1.1");
    WordThen("HTTP/1.1", "");
  }

  // ----- the request -----

  /** The bytes of a CONNECT request. */
  function Bytes(authority: string, lines: seq<string>): string { Broken(RequestLine(authority), lines) + TERMINATOR }

  predicate AllAscii(lines: seq<string>) { forall k :: 0 <= k < |lines| ==> IsAscii(lines[k]) }

  lemma {:induction false} BrokenAscii(first: string, lines: seq<string>)
    requires IsAscii(first) && AllAscii(lines)
    ensures IsAscii(Broken(first, lines))
    decreases |lines|
  {
    if lines != [] { BrokenAscii(first, lines[..|lines| - 1]); }
  }

  /**
   A header line is a Host line by its name alone, and announces a body by its name or by a length other than zero; names
   are compared without regard to case.
   */
  lemma LineMeaning(name: string, value: string)
    requires ':' !in name
    ensures var line := name + ":" + value;
            && (IsHost(line) <==> Lower(name) == "host")
            && (Announces(line) <==> Lower(name) in ["transfer-encoding", "expect"] || (Lower(name) == "content-length" && Trim(value) != "0"))
  {
    hide Trim;
    SplitsAtColon(name, value);
    assert Lower("host") == "host" && Lower("transfer-encoding") == "transfer-encoding";
    assert Lower("expect") == "expect" && Lower("content-length") == "content-length";
    hide Lower; hide SplitOnce;
    assert |"expect"| != |"content-length"| && |"transfer-encoding"| != |"content-length"|;
  }

  /** What the lines say about the host. */
  ghost predicate SaysHost(lines: seq<string>, host: Option<string>) {
    && (!HasHost(lines) ==> host.None?)
    && forall k :: 0 <= k < |lines| && IsHost(lines[k]) ==> host == Some(Trim(SplitOnce(lines[k], ':').value.1))
  }

  lemma HeadersSay(lines: seq<string>)
    ensures var h := Headers(lines, None, false);
            && (h.Ok? <==> WellFormed(lines))
            && (h.Ok? ==> SaysHost(lines, h.value.0) && (h.value.1 <==> HasBody(lines)))
  {
    hide Headers; hide HasHost; hide HasBody; hide WellFormed; hide Trim; hide IndexOf; hide EqualFold;
    HeadersMeaning(lines, None, false);
    var h := Headers(lines, None, false);
    if h.Ok? {
      forall k | 0 <= k < |lines| && IsHost(lines[k]) ensures h.value.0 == Some(Trim(SplitOnce(lines[k], ':').value.1)) {
        HostMeaning(lines, None, false, k);
      }
    }
  }

  /**
   The bytes of a CONNECT request are accepted exactly if their header lines are well formed; the request is then the
   authority, what the Host line says, and whether a line announces a body.
   */
  lemma ParsesBytes(authority: string, lines: seq<string>)
    requires IsWord(authority) && IsAscii(authority) && AllAscii(lines) && Unbroken(lines)
    ensures var r := ParseRequest(Bytes(authority, lines));
            && (r.Ok? <==> WellFormed(lines))
            && (r.Ok? ==> r.value.authority == authority && SaysHost(lines, r.value.host) && (r.value.hasBody <==> HasBody(lines)))
  {
    hide Lines; hide Words; hide Headers; hide SaysHost; hide WellFormed; hide HasBody; hide Broken;
    var first, all := RequestLine(authority), Bytes(authority, lines);
    BrokenAscii(first, lines);
    assert IsAscii(all);
    assert all[..|all| - 4] == Broken(first, lines);
    assert !HasBreak(first) by { LineUnbroken(authority); }
    LinesOfBroken(first, lines);
    assert ([first] + lines)[1..] == lines;
    RequestWords(authority);
    HeadersSay(lines);
  }

  lemma LineUnbroken(authority: string)
    requires IsWord(authority)
    ensures !HasBreak(RequestLine(authority))
  {
    var first := RequestLine(authority);
    forall i | 0 <= i < |first| ensures first[i] != '\r' {
      if 8 <= i < 8 + |authority| { assert first[i] == authority[i - 8]; }
    }
  }

  predicate AllSpaces(s: string) { forall i :: 0 <= i < |s| ==> IsSpace(s[i]) }

  lemma {:induction false} TrimLeft(left: string, s: string)
    requires AllSpaces(left)
    ensures Trim(left + s) == Trim(s)
    decreases |left|
  {
    var all := left + s;
    if left == [] {
      assert all == s;
    } else {
      assert all[0] == left[0] && all[1..] == left[1..] + s;
      TrimLeft(left[1..], s);
    }
  }

  lemma {:induction false} TrimRight(v: string, right: string)
    requires AllSpaces(right) && v != [] && !IsSpace(v[0]) && !IsSpace(v[|v| - 1])
    ensures Trim(v + right) == v
    decreases |right|
  {
    var all := v + right;
    if right == [] {
      assert all == v;
    } else {
      var front := right[..|right| - 1];
      assert all[0] == v[0] && all[|all| - 1] == right[|right| - 1] && all[..|all| - 1] == v + front;
      TrimRight(v, front);
    }
  }

  /** A header value is read without the spaces around it. */
  lemma TrimsSpaces(left: string, v: string, right: string)
    requires AllSpaces(left) && AllSpaces(right) && (v != [] ==> !IsSpace(v[0]) && !IsSpace(v[|v| - 1]))
    ensures Trim(left + v + right) == v
  {
    assert left + v + right == left + (v + right);
    TrimLeft(left, v + right);
    if v == [] {
      assert v + right == right + [];
      TrimLeft(right, []);
    } else {
      TrimRight(v, right);
    }
  }

  // ----- where the header ends -----

  predicate NoneEmpty(lines: seq<string>) { forall k :: 0 <= k < |lines| ==> lines[k] != [] }

  lemma {:induction false} EmptyText(y: string)
    requires Lines(y) == [[]]
    ensures y == []
  {
    hide Lines;
    LinesJoin(y);
  }

  /** The first terminator of a request without empty lines is the last thing in it. */
  lemma EndsWithHeader(first: string, lines: seq<string>, x: string, y: string)
    requires first != [] && NoneEmpty(lines) && !HasBreak(first) && Unbroken(lines)
    requires Broken(first, lines) + TERMINATOR == x + TERMINATOR + y
    ensures y == []
  {
    assert Lines([]) == [[]];
    hide Lines; hide Broken; hide HasBreak;
    var text := Broken(first, lines);
    assert text + TERMINATOR == text + CRLF + (CRLF + []) && x + TERMINATOR + y == x + CRLF + (CRLF + y);
    LinesBreak([]);
    LinesBreak(y);
    LinesAppend(text, CRLF + []);
    LinesAppend(x, CRLF + y);
    LinesOfBroken(first, lines);
    var left, right := [first] + lines + ([[]] + [[]]), Lines(x) + ([[]] + Lines(y));
    assert left == right;
    var n := |Lines(x)|;
    assert right[n] == [];
    forall k | 0 <= k <= |lines| ensures left[k] != [] {
      assert left[k] == if k == 0 then first else lines[k - 1];
    }
    assert n > |lines|;
    assert |Lines(y)| == 1 && right[n + 1] == Lines(y)[0];
    assert left[n + 1] == [];
    assert Lines(y) == [[]];
    EmptyText(y);
  }

  lemma HeaderEndsThere(authority: string, lines: seq<string>, rest: string)
    requires IsWord(authority) && NoneEmpty(lines) && Unbroken(lines)
    ensures HeaderEnd(Bytes(authority, lines) + rest) == Some(|Bytes(authority, lines)|)
  {
    hide HeaderEnd; hide Broken; hide HasBreak;
    var bytes := Bytes(authority, lines);
    var all := bytes + rest;
    HeaderEndIsFirst(all);
    assert EndsAt(all, |bytes|) by { assert all[|bytes| - 4..|bytes|] == TERMINATOR; }
    var e := HeaderEnd(all).value;
    var x, y := all[..e - 4], all[e..|bytes|];
    assert bytes == x + TERMINATOR + y by {
      assert all[e - 4..e] == TERMINATOR;
      assert bytes == all[..|bytes|] == all[..e - 4] + all[e - 4..e] + all[e..|bytes|];
    }
    LineUnbroken(authority);
    EndsWithHeader(RequestLine(authority), lines, x, y);
  }

  // ----- clients -----

  /** The Host lines name the destination. */
  ghost predicate HostsName(f: Foreign, lines: seq<string>, d: Destination) {
    forall k :: 0 <= k < |lines| && IsHost(lines[k]) ==> Names(f, Trim(SplitOnce(lines[k], ':').value.1), d)
  }

  ghost predicate Admits(f: Foreign, config: SessionConfig, authority: string, lines: seq<string>, mode: RuleMode, d: Destination) {
    Names(f, authority, d) && HostsName(f, lines, d) && Grants(config, d, mode)
  }

  lemma AdmitsExactly(
    f: Foreign, config: SessionConfig, seed: Seed, authority: string, lines: seq<string>, host: Option<string>, mode: RuleMode, d: Destination)
    requires SaysHost(lines, host)
    ensures AuthorizeConnect(f, Compile(f, config, seed), authority, if host.Some? then [host.value] else []) == Ok((mode, d)) <==>
            Admits(f, config, authority, lines, mode, d)
  {
    hide AuthorizeConnect; hide Compile; hide Names; hide Grants; hide Trim; hide EqualFold; hide IndexOf;
    ConnectsExactly(f, config, seed, authority, if host.Some? then [host.value] else [], mode, d);
    if host.Some? {
      var k :| 0 <= k < |lines| && IsHost(lines[k]);
      assert host == Some(Trim(SplitOnce(lines[k], ':').value.1));
    }
  }

  /**
   What becomes of a client that sends a CONNECT request: refused as malformed, forbidden, or served in the mode that
   the rules grant to the destination which its authority and its Host line both name, provided no line announces a body.
   */
  lemma ClientExactly(
    f: Foreign, config: SessionConfig, seed: Seed, authority: string, lines: seq<string>, rest: string, fails: bool)
    requires IsWord(authority) && IsAscii(authority) && AllAscii(lines) && Unbroken(lines) && NoneEmpty(lines)
    requires |Bytes(authority, lines)| <= MAX_HEADER_BYTES
    ensures var outcome := ClientOutcome(f, Compile(f, config, seed), Bytes(authority, lines) + rest, fails);
            && (outcome == Forbidden <==> WellFormed(lines) && forall mode, d :: !Admits(f, config, authority, lines, mode, d))
            && (outcome == Tunnelled <==>
                WellFormed(lines) && !HasBody(lines) && exists d :: Admits(f, config, authority, lines, Tunnel, d))
            && (outcome == Intercepted <==>
                WellFormed(lines) && !HasBody(lines) && exists d :: Admits(f, config, authority, lines, Intercept, d))
  {
    hide ParseRequest; hide AuthorizeConnect; hide Compile; hide WellFormed; hide HasBody; hide Admits; hide SaysHost; hide Broken;
    hide HeaderEnd;
    var bytes := Bytes(authority, lines);
    HeaderEndsThere(authority, lines, rest);
    assert (bytes + rest)[..|bytes|] == bytes;
    ParsesBytes(authority, lines);
    var r := ParseRequest(bytes);
    if r.Ok? {
      var host := r.value.host;
      var a := AuthorizeConnect(f, Compile(f, config, seed), authority, if host.Some? then [host.value] else []);
      forall mode, d ensures a == Ok((mode, d)) <==> Admits(f, config, authority, lines, mode, d) {
        AdmitsExactly(f, config, seed, authority, lines, host, mode, d);
      }
      if a.Ok? { assert Admits(f, config, authority, lines, a.value.0, a.value.1); }
    }
  }

  /** A header block of which these are the words of the first line and the other lines. */
  ghost predicate IsBlock(header: string, words: seq<string>, lines: seq<string>) {
    exists first :: header == Broken(first, lines) + TERMINATOR && !HasBreak(first) && Unbroken(lines) && Words(first) == words
  }

  /**
   Whatever a client sends, it is served only if its stream starts with a header block of a CONNECT request whose
   authority and Host line name one destination that the rules grant, and no line of which announces a body.
   */
  lemma ServedOnlyIf(f: Foreign, config: SessionConfig, seed: Seed, all: string, fails: bool) returns (authority: string, lines: seq<string>, d: Destination)
    requires ClientOutcome(f, Compile(f, config, seed), all, fails) in [Tunnelled, Intercepted]
    ensures HeaderBlock(all, fails).Ok?
    ensures IsBlock(all[..HeaderBlock(all, fails).value], ["CONNECT", authority, "HTTP/1.1"], lines)
    ensures WellFormed(lines) && !HasBody(lines)
    ensures Admits(f, config, authority, lines, if ClientOutcome(f, Compile(f, config, seed), all, fails) == Tunnelled then Tunnel else Intercept, d)
  {
    hide Lines; hide Words; hide Headers; hide AuthorizeConnect; hide Compile; hide WellFormed; hide HasBody; hide Admits;
    hide SaysHost; hide Broken; hide HeaderEnd; hide HasBreak;
    var end := HeaderBlock(all, fails).value;
    var header := all[..end];
    BlockEnds(all, fails);
    var text := header[..end - 4];
    var pieces := Lines(text);
    LinesJoin(text);
    var words := Words(pieces[0]);
    authority, lines := words[1], pieces[1..];
    HeadersSay(lines);
    var host := ParseRequest(header).value.host;
    var a := AuthorizeConnect(f, Compile(f, config, seed), authority, if host.Some? then [host.value] else []).value;
    d := a.1;
    AdmitsExactly(f, config, seed, authority, lines, host, a.0, d);
    assert header == Broken(pieces[0], lines) + TERMINATOR;
    assert words == ["CONNECT", authority, "HTTP/1.1"];
    assert !HasBreak(pieces[0]) && Unbroken(lines);
  }

  lemma BlockEnds(all: string, fails: bool)
    requires HeaderBlock(all, fails).Ok?
    ensures var end := HeaderBlock(all, fails).value; all[..end] == all[..end][..end - 4] + TERMINATOR
  {
    hide HeaderEnd;
    HeaderEndIsFirst(all);
    var end := HeaderBlock(all, fails).value;
    assert all[end - 4..end] == TERMINATOR;
  }
}
