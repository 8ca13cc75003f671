/**
 The path language of interception rules (crates/baffle-client/src/policy.rs:355-486, src/policy.rs:226-249):
 percent-encoding normalisation after sections 6.2.2.1 and 6.2.2.2 of RFC 3986, and recursive patterns.
 */
module Paths {
  import opened Basics
  import opened Text

  datatype PathError = NotAbsolute | Malformed | EncodedSeparator | BadCharacter | RepeatedSlash | DotSegment | BadStar

  type PathResult = Result<string, PathError>

  function HexValue(c: char): (v: Option<nat>)
    ensures v.Some? ==> v.value < 16
  {
    if '0' <= c <= '9' then Some(c as int - '0' as int)
    else if 'a' <= c <= 'f' then Some(c as int - 'a' as int + 10)
    else if 'A' <= c <= 'F' then Some(c as int - 'A' as int + 10)
    else None
  }

  predicate IsUnreserved(c: char) { IsAlphanumeric(c) || c in "-._~" }

  predicate IsPathCharacter(c: char) { IsAlphanumeric(c) || c in "/-._~!$&'()+,;=:@" }

  /** Separators that must not hide behind an escape, and the escape character itself. */
  predicate IsAmbiguous(c: char) { c in "/\\%" }

  // ----- tokens -----

  /** `p` starts with a complete escape `%HH`. */
  predicate IsEscape(p: string) { |p| >= 3 && p[0] == '%' && HexValue(p[1]).Some? && HexValue(p[2]).Some? }

  function Escaped(p: string): char
    requires IsEscape(p)
  {
    (HexValue(p[1]).value * 16 + HexValue(p[2]).value) as char
  }

  /** Every escape replaced by the byte it stands for; a `%` that starts no escape is kept. */
  function Decode(p: string): string {
    if p == [] then []
    else if IsEscape(p) then [Escaped(p)] + Decode(p[3..])
    else [p[0]] + Decode(p[1..])
  }

  /** Escapes of unreserved characters are decoded, the other escapes get upper-case digits. */
  function NormalEscape(p: string): string
    requires IsEscape(p)
  {
    if IsUnreserved(Escaped(p)) then [Escaped(p)] else ['%', UpperChar(p[1]), UpperChar(p[2])]
  }

  function Prepend(head: string, rest: PathResult): PathResult {
    if rest.Ok? then Ok(head + rest.value) else rest
  }

  /** The text with every token normalised, or the error of the first bad token. */
  function Normalize(p: string): PathResult {
    if p == [] then Ok([])
    else if p[0] == '%' then
      if !IsEscape(p) then Err(Malformed)
      else if IsAmbiguous(Escaped(p)) then Err(EncodedSeparator)
      else Prepend(NormalEscape(p), Normalize(p[3..]))
    else if !IsPathCharacter(p[0]) then Err(BadCharacter)
    else Prepend([p[0]], Normalize(p[1..]))
  }

  predicate HasDotSegment(p: string) {
    exists k :: 0 <= k < |Split(p, '/')| && Split(p, '/')[k] in [".", ".."]
  }

  predicate IsAbsolute(p: string) { StartsWith(p, "/") && !ContainsAny(p, "?#\\") }

  /** canonicalize_path as one expression; `CanonicalizePath` is its loop. */
  function Canonical(p: string): PathResult {
    if !IsAbsolute(p) then Err(NotAbsolute)
    else
      var n := Normalize(p);
      if n.Err? then n
      else if HasDouble(n.value, '/') then Err(RepeatedSlash)
      else if HasDotSegment(n.value) then Err(DotSegment)
      else n
  }

  lemma {:induction false} NormalizeExtends(done: string, p: string, rest: string, token: string)
    requires p != [] && Normalize(p) == Prepend(token, Normalize(rest))
    ensures Prepend(done, Normalize(p)) == Prepend(done + token, Normalize(rest))
  {
    if Normalize(rest).Ok? {
      assert done + (token + Normalize(rest).value) == (done + token) + Normalize(rest).value;
    }
  }

  method CanonicalizePath(path: string) returns (r: PathResult)
    ensures r == Canonical(path)
  {
    if !IsAbsolute(path) { return Err(NotAbsolute); }
    var canonical := "";
    var index := 0;
    assert path[0..] == path && (Normalize(path).Ok? ==> canonical + Normalize(path).value == Normalize(path).value);
    while index < |path|
      invariant index <= |path|
      invariant Normalize(path) == Prepend(canonical, Normalize(path[index..]))
    {
      ghost var rest := path[index..];
      var byte := path[index];
      if byte == '%' {
        if index + 2 >= |path| { return Err(Malformed); }
        var high, low := HexValue(path[index + 1]), HexValue(path[index + 2]);
        if high.None? || low.None? { return Err(Malformed); }
        var decoded := (high.value * 16 + low.value) as char;
        assert IsEscape(rest) && Escaped(rest) == decoded && rest[3..] == path[index + 3..];
        if IsAmbiguous(decoded) { return Err(EncodedSeparator); }
        NormalizeExtends(canonical, rest, rest[3..], NormalEscape(rest));
        if IsUnreserved(decoded) {
          canonical := canonical + [decoded];
        } else {
          canonical := canonical + ['%', UpperChar(path[index + 1]), UpperChar(path[index + 2])];
        }
        index := index + 3;
        continue;
      }
      if !IsPathCharacter(byte) { return Err(BadCharacter); }
      assert rest[1..] == path[index + 1..];
      NormalizeExtends(canonical, rest, rest[1..], [byte]);
      canonical := canonical + [byte];
      index := index + 1;
    }
    assert path[index..] == [] && canonical + [] == canonical;
    if HasDouble(canonical, '/') { return Err(RepeatedSlash); }
    if HasDotSegment(canonical) { return Err(DotSegment); }
    return Ok(canonical);
  }

  // ----- normal texts -----

  /** A text that normalisation leaves alone. */
  predicate IsNormal(c: string) {
    if c == [] then true
    else if c[0] == '%' then
      && IsEscape(c) && !IsAmbiguous(Escaped(c)) && !IsUnreserved(Escaped(c))
      && UpperChar(c[1]) == c[1] && UpperChar(c[2]) == c[2] && IsNormal(c[3..])
    else IsPathCharacter(c[0]) && IsNormal(c[1..])
  }

  lemma UpperHex(c: char)
    requires HexValue(c).Some?
    ensures HexValue(UpperChar(c)) == HexValue(c) && UpperChar(UpperChar(c)) == UpperChar(c)
  {
  }

  lemma {:induction false} NormalizeIsNormal(p: string)
    requires Normalize(p).Ok?
    ensures IsNormal(Normalize(p).value) && Decode(Normalize(p).value) == Decode(p)
  {
    if p != [] {
      if p[0] == '%' {
        NormalizeIsNormal(p[3..]);
        UpperHex(p[1]); UpperHex(p[2]);
        var rest := Normalize(p[3..]).value;
        assert (NormalEscape(p) + rest)[|NormalEscape(p)|..] == rest;
      } else {
        NormalizeIsNormal(p[1..]);
        assert ([p[0]] + Normalize(p[1..]).value)[1..] == Normalize(p[1..]).value;
      }
    }
  }

  lemma {:induction false} NormalIsFixed(c: string)
    requires IsNormal(c)
    ensures Normalize(c) == Ok(c)
  {
    if c != [] {
      if c[0] == '%' {
        NormalIsFixed(c[3..]);
        assert c == NormalEscape(c) + c[3..];
      } else {
        NormalIsFixed(c[1..]);
        assert c == [c[0]] + c[1..];
      }
    }
  }

  /** A normal text holds no forbidden character, so it can be canonicalised again. */
  lemma {:induction false} NormalCharacters(c: string)
    requires IsNormal(c)
    ensures forall i :: 0 <= i < |c| ==> c[i] == '%' || IsPathCharacter(c[i])
    ensures '%' !in Decode(c)
  {
    if c != [] {
      if c[0] == '%' { NormalCharacters(c[3..]); assert c == c[..3] + c[3..]; }
      else { NormalCharacters(c[1..]); }
    }
  }

  lemma KeepsFirstSlash(p: string)
    requires Normalize(p).Ok? && StartsWith(p, "/")
    ensures StartsWith(Normalize(p).value, "/")
  {
    hide IsPathCharacter;
  }

  lemma NormalIsAbsolute(c: string)
    requires IsNormal(c) && StartsWith(c, "/")
    ensures IsAbsolute(c) && '*' !in c
  {
    hide IsNormal;
    NormalCharacters(c);
    assert forall i :: 0 <= i < |c| ==> c[i] !in "?#\\*" by {
      forall i | 0 <= i < |c| ensures c[i] !in "?#\\*" { PlainCharacter(c[i]); }
    }
  }

  lemma PlainCharacter(c: char)
    requires c == '%' || IsPathCharacter(c)
    ensures c !in "?#\\*"
  {
  }

  /** Canonicalisation is idempotent, and it preserves the decoded bytes. */
  lemma CanonicalIdempotent(p: string)
    requires Canonical(p).Ok?
    ensures Canonical(Canonical(p).value) == Canonical(p)
    ensures Decode(Canonical(p).value) == Decode(p)
  {
    var c := Canonical(p).value;
    NormalizeIsNormal(p);
    NormalIsFixed(c);
    KeepsFirstSlash(p);
    NormalIsAbsolute(c);
    hide Normalize; hide IsNormal; hide Decode; hide HasDotSegment;
  }

  // ----- segments -----

  function DecodeAll(pieces: seq<string>): seq<string> {
    seq(|pieces|, i requires 0 <= i < |pieces| => Decode(pieces[i]))
  }

  lemma SplitChar(c: char, rest: string)
    requires c != '/'
    ensures Split([c] + rest, '/') == [[c] + Split(rest, '/')[0]] + Split(rest, '/')[1..]
  {
    assert ([c] + rest)[1..] == rest;
  }

  lemma SplitSlash(rest: string)
    ensures Split(['/'] + rest, '/') == [[]] + Split(rest, '/')
  {
    assert (['/'] + rest)[1..] == rest;
  }

  lemma {:induction false} SplitToken(token: string, rest: string)
    requires '/' !in token
    ensures Split(token + rest, '/') == [token + Split(rest, '/')[0]] + Split(rest, '/')[1..]
  {
    hide Split;
    var pieces := Split(rest, '/');
    if token == [] {
      assert token + rest == rest && token + pieces[0] == pieces[0];
    } else {
      var tail := token[1..];
      SplitToken(tail, rest);
      SplitChar(token[0], tail + rest);
      assert [token[0]] + (tail + rest) == token + rest;
      assert [token[0]] + (tail + pieces[0]) == token + pieces[0];
    }
  }

  /** The length of the first token. */
  function TokenLength(c: string): nat
    requires c != []
  {
    if c[0] == '%' then 3 else 1
  }

  /** The byte that the first token stands for. */
  function FirstByte(c: string): char
    requires c != []
  {
    if IsEscape(c) then Escaped(c) else c[0]
  }

  lemma DecodeToken(c: string, t: string)
    requires c != [] && IsNormal(c)
    ensures var n := TokenLength(c);
            && |c| >= n && IsNormal(c[n..])
            && Decode(c[..n] + t) == [FirstByte(c)] + Decode(t)
            && (FirstByte(c) == '/' <==> c[0] == '/')
  {
    hide IsPathCharacter; hide IsUnreserved;
    assert (c[..TokenLength(c)] + t)[TokenLength(c)..] == t;
  }

  lemma NormalToken(c: string)
    requires c != [] && IsNormal(c)
    ensures var n := TokenLength(c); |c| >= n && (c[0] != '/' ==> '/' !in c[..n])
  {
    hide IsPathCharacter; hide IsUnreserved;
  }

  lemma SplitFirst(c: string)
    requires c != [] && IsNormal(c) && c[0] != '/'
    ensures var n := TokenLength(c);
            |c| >= n && Split(c, '/') == [c[..n] + Split(c[n..], '/')[0]] + Split(c[n..], '/')[1..]
  {
    NormalToken(c);
    hide *;
    var n := TokenLength(c);
    assert c[..n] + c[n..] == c;
    SplitToken(c[..n], c[n..]);
  }

  lemma DecodeAllFirst(first: string, pieces: seq<string>)
    ensures DecodeAll([first] + pieces) == [Decode(first)] + DecodeAll(pieces)
    ensures |DecodeAll(pieces)| == |pieces|
    ensures pieces != [] ==> DecodeAll(pieces) == [Decode(pieces[0])] + DecodeAll(pieces[1..])
  {
    hide Decode;
  }

  /** Splitting and decoding commute: no escape hides a separator. */
  lemma {:induction false} DecodedSegments(c: string)
    requires IsNormal(c)
    ensures Split(Decode(c), '/') == DecodeAll(Split(c, '/'))
  {
    if c != [] {
      hide Split;
      var n := TokenLength(c);
      var rest := c[n..];
      DecodeToken(c, rest);
      assert c[..n] + rest == c;
      DecodedSegments(rest);
      var pieces := Split(rest, '/');
      if c[0] == '/' {
        assert Decode([]) == [];
        hide *;
        SplitSlash(rest);
        SplitSlash(Decode(rest));
        DecodeAllFirst([], pieces);
      } else {
        SplitFirst(c);
        DecodeToken(c, pieces[0]);
        hide *;
        SplitChar(FirstByte(c), Decode(rest));
        DecodeAllFirst(c[..n] + pieces[0], pieces[1..]);
        DecodeAllFirst([], pieces);
      }
    } else {
      assert DecodeAll([[]]) == [[]];
    }
  }

  /** A piece of a normal text that decodes to dots was dots. */
  lemma {:induction false} DotsAreLiteral(c: string)
    requires IsNormal(c) && forall i :: 0 <= i < |Decode(c)| ==> Decode(c)[i] == '.'
    ensures Decode(c) == c
  {
    if c != [] {
      assert Decode(c)[0] == '.';
      assert Decode(c)[1..] == Decode(c[1..]);
      DotsAreLiteral(c[1..]);
    }
  }

  lemma {:induction false} PiecesNormal(c: string, k: nat)
    requires IsNormal(c) && k < |Split(c, '/')|
    ensures IsNormal(Split(c, '/')[k])
  {
    if c != [] {
      var n := TokenLength(c);
      if c[0] == '/' {
        if k > 0 { PiecesNormal(c[n..], k - 1); }
      } else {
        SplitFirst(c);
        PiecesNormal(c[n..], k);
        if k == 0 { assert (c[..n] + Split(c[n..], '/')[0])[n..] == Split(c[n..], '/')[0]; }
      }
    }
  }

  lemma {:induction false} DoubleSlash(c: string)
    requires IsNormal(c) && HasDouble(Decode(c), '/')
    ensures HasDouble(c, '/')
  {
    var i :| 0 <= i < |Decode(c)| - 1 && Decode(c)[i] == '/' == Decode(c)[i + 1];
    var n := TokenLength(c);
    assert Decode(c)[1..] == Decode(c[n..]);
    if i == 0 {
      assert c[0] == '/' && c[1] == '/';
    } else {
      assert Decode(c[n..])[i - 1] == '/' == Decode(c[n..])[i];
      DoubleSlash(c[n..]);
      var j :| 0 <= j < |c[n..]| - 1 && c[n..][j] == '/' == c[n..][j + 1];
      assert c[n + j] == '/' == c[n + j + 1];
    }
  }

  /**
   An accepted path, fully decoded, has the segments of its canonical form decoded one by one, no dot segment,
   no repeated slash, and nothing left to decode.
   */
  lemma DecodedIsSafe(p: string)
    requires Canonical(p).Ok?
    ensures Split(Decode(p), '/') == DecodeAll(Split(Canonical(p).value, '/'))
    ensures !HasDotSegment(Decode(p)) && !HasDouble(Decode(p), '/')
    ensures Decode(Decode(p)) == Decode(p)
  {
    var c := Canonical(p).value;
    CanonicalIdempotent(p);
    NormalizeIsNormal(p);
    DecodedSegments(c);
    if HasDouble(Decode(p), '/') { DoubleSlash(c); }
    hide Normalize; hide Decode; hide IsNormal; hide Split;
    if HasDotSegment(Decode(p)) {
      var k :| 0 <= k < |Split(Decode(p), '/')| && Split(Decode(p), '/')[k] in [".", ".."];
      PiecesNormal(c, k);
      DotsAreLiteral(Split(c, '/')[k]);
    }
    NormalCharacters(c);
    DecodePlain(Decode(p));
  }

  lemma {:induction false} DecodePlain(s: string)
    requires '%' !in s
    ensures Decode(s) == s
  {
    if s != [] { DecodePlain(s[1..]); }
  }

  // ----- patterns -----

  /** The path of a recursive pattern keeps the slash before its stars. */
  function StripRecursive(input: string): (string, bool) {
    if EndsWith(input, "/**") then (if |input| == 3 then "/" else input[..|input| - 2], true) else (input, false)
  }

  function ValidatePath(input: string): PathResult {
    if !IsAbsolute(input) then Err(NotAbsolute)
    else
      var (path, recursive) := StripRecursive(input);
      if '*' in path then Err(BadStar)
      else
        var c := Canonical(path);
        if c.Ok? && recursive then Ok(c.value + "**") else c
  }

  function PatternParts(pattern: string): (string, bool) {
    if EndsWith(pattern, "**") then (pattern[..|pattern| - 2], true) else (pattern, false)
  }

  predicate PathsOverlap(left: string, right: string) {
    var (l, lr) := PatternParts(left);
    var (r, rr) := PatternParts(right);
    match (lr, rr)
    case (false, false) => l == r
    case (true, false) => StartsWith(r, l)
    case (false, true) => StartsWith(l, r)
    case (true, true) => StartsWith(l, r) || StartsWith(r, l)
  }

  predicate MatchesPattern(pattern: string, path: string) {
    if EndsWith(pattern, "**") then StartsWith(path, pattern[..|pattern| - 2]) else pattern == path
  }

  predicate IsCanonical(c: string) { Canonical(c) == Ok(c) }

  /** A pattern as validation returns it: a canonical path, `**` only after a final slash. */
  predicate IsPattern(p: string) {
    var (path, recursive) := PatternParts(p);
    IsCanonical(path) && (recursive ==> EndsWith(path, "/"))
  }

  lemma CanonicalHasNoStar(c: string)
    requires IsCanonical(c)
    ensures '*' !in c && |c| > 0
  {
    NormalizeIsNormal(c);
    NormalIsAbsolute(c);
    hide Normalize; hide IsNormal; hide Decode; hide HasDotSegment;
  }

  lemma {:induction false} FinalSlash(p: string)
    requires Normalize(p).Ok? && EndsWith(p, "/")
    ensures EndsWith(Normalize(p).value, "/")
  {
    var n := TokenLength(p);
    NormalizeFirst(p);
    hide Normalize;
    if |p| > n {
      assert p[n..][|p| - n - 1] == p[|p| - 1] == '/';
      FinalSlash(p[n..]);
    } else {
      assert p == [p[0]] && p[0] == '/';
    }
  }

  lemma NormalizeFirst(p: string)
    requires p != [] && Normalize(p).Ok?
    ensures var n := TokenLength(p);
            && |p| >= n && Normalize(p[n..]).Ok?
            && (exists head :: Normalize(p).value == head + Normalize(p[n..]).value)
            && (p == [p[0]] ==> Normalize(p).value == p)
            && (n == 3 ==> IsEscape(p))
  {
    var n := TokenLength(p);
    hide IsPathCharacter; hide IsUnreserved; hide IsAmbiguous;
    var head := if n == 3 then NormalEscape(p) else [p[0]];
    assert Normalize(p).value == head + Normalize(p[n..]).value;
  }

  lemma ValidatedIsPattern(input: string)
    requires ValidatePath(input).Ok?
    ensures IsPattern(ValidatePath(input).value)
  {
    var (path, recursive) := StripRecursive(input);
    var c := Canonical(path).value;
    CanonicalIdempotent(path);
    CanonicalHasNoStar(c);
    if recursive {
      assert path[|path| - 1] == '/';
      FinalSlash(path);
      assert PatternParts(c + "**") == (c, true);
    } else {
      assert PatternParts(c) == (c, false) by { assert c[|c| - 1] != '*'; }
    }
    hide Canonical; hide Normalize;
  }

  lemma PatternIsValid(p: string)
    requires IsPattern(p)
    ensures ValidatePath(p) == Ok(p)
  {
    var (path, recursive) := PatternParts(p);
    CanonicalHasNoStar(path);
    if recursive {
      assert p == path + "**";
      assert path[|path| - 1] == '/';
      assert p[|p| - 3..] == "/**";
      assert StripRecursive(p) == (path, true);
      assert IsAbsolute(p) by {
        assert p[0] == path[0];
        assert forall i :: 0 <= i < |p| ==> p[i] == '*' || p[i] in path;
      }
    } else {
      assert p[|p| - 1] != '*';
    }
  }

  /** Validation accepts exactly the patterns as they stand, so it is idempotent. */
  lemma ValidatePathIdempotent(input: string)
    requires ValidatePath(input).Ok?
    ensures ValidatePath(ValidatePath(input).value) == ValidatePath(input)
  {
    ValidatedIsPattern(input);
    PatternIsValid(ValidatePath(input).value);
  }

  /** Two patterns overlap exactly when some canonical path matches both. */
  lemma OverlapIsSharedPath(left: string, right: string)
    requires IsPattern(left) && IsPattern(right)
    ensures PathsOverlap(left, right) <==>
            exists c :: IsCanonical(c) && MatchesPattern(left, c) && MatchesPattern(right, c)
  {
    var (l, lr) := PatternParts(left);
    var (r, rr) := PatternParts(right);
    if PathsOverlap(left, right) {
      var c := if lr && (!rr || StartsWith(r, l)) then r else l;
      assert IsCanonical(c) && MatchesPattern(left, c) && MatchesPattern(right, c);
    }
    if c :| IsCanonical(c) && MatchesPattern(left, c) && MatchesPattern(right, c) {
      if lr && rr {
        assert |l| <= |r| ==> l == c[..|l|] == r[..|l|];
        assert |r| <= |l| ==> r == c[..|r|] == l[..|r|];
      }
    }
  }

  /** All segments but the last. */
  function Directory(p: string): seq<string> {
    var pieces := Split(p, '/');
    pieces[..|pieces| - 1]
  }

  lemma FrontHead(first: string, p: seq<string>, tail: seq<string>)
    requires |p| > 1
    ensures var u := p[..|p| - 1] + tail;
            [first] + u[1..] == ([first] + p[1..])[..|p| - 1] + tail && u[0] == p[0]
  {
    var u := p[..|p| - 1] + tail;
    assert u[1..] == p[1..|p| - 1] + tail;
    assert ([first] + p[1..])[..|p| - 1] == [first] + p[1..|p| - 1];
  }

  lemma DirectoryOf(s: string, p: seq<string>)
    requires Split(s, '/') == p
    ensures |p| > 0 && Directory(s) == p[..|p| - 1]
  {
  }

  lemma SplitHead(c: char, s: string, u: string, tail: seq<string>)
    requires |Split(s, '/')| > 1 && Split(u, '/') == Directory(s) + tail
    ensures |Split([c] + s, '/')| > 1 && Split([c] + u, '/') == Directory([c] + s) + tail
  {
    hide *;
    var p := Split(s, '/');
    DirectoryOf(s, p);
    if c == '/' {
      SplitSlash(s); SplitSlash(u);
      DirectoryOf([c] + s, [[]] + p);
      assert ([[]] + p)[..|p|] == [[]] + p[..|p| - 1];
    } else {
      SplitChar(c, s); SplitChar(c, u);
      DirectoryOf([c] + s, [[c] + p[0]] + p[1..]);
      FrontHead([c] + p[0], p, tail);
    }
  }

  lemma BelowRoot(t: string)
    ensures Split(['/'] + t, '/') == Directory(['/'] + []) + Split(t, '/') && |Split(['/'] + [], '/')| > 1
  {
    assert Split([], '/') == [[]];
    hide *;
    SplitSlash(t);
    SplitSlash([]);
    DirectoryOf(['/'] + [], [[]] + [[]]);
  }

  lemma FirstOfDirectory(base: string)
    requires IsNormal(base) && EndsWith(base, "/")
    ensures base != [] && TokenLength(base) <= |base|
    ensures TokenLength(base) == |base| ==> base == "/"
    ensures TokenLength(base) < |base| ==> EndsWith(base[TokenLength(base)..], "/")
  {
    assert base[|base| - 1] == '/';
  }

  lemma DecodeStep(c: string, t: string)
    requires c != [] && IsNormal(c)
    ensures var n := TokenLength(c);
            |c| >= n && IsNormal(c[n..]) && Decode(c + t) == [FirstByte(c)] + Decode(c[n..] + t)
  {
    hide Decode; hide IsNormal;
    var n := TokenLength(c);
    DecodeToken(c, []);
    DecodeToken(c, c[n..] + t);
    assert c[..n] + (c[n..] + t) == c + t;
  }

  /** Decoding a text below a directory splits at the directory. */
  lemma {:induction false} DecodedBelow(base: string, t: string)
    requires IsNormal(base) && EndsWith(base, "/")
    ensures Split(Decode(base + t), '/') == Directory(Decode(base)) + Split(Decode(t), '/')
    ensures |Split(Decode(base), '/')| > 1
    decreases |base|
  {
    assert Decode([]) == [] && (base != [] ==> TokenLength(base) > 0);
    hide *;
    FirstOfDirectory(base);
    var n := TokenLength(base);
    var rest := base[n..];
    DecodeStep(base, t);
    DecodeStep(base, []);
    assert base + [] == base && rest + [] == rest;
    if rest == [] {
      assert rest + t == t;
      BelowRoot(Decode(t));
    } else {
      DecodedBelow(rest, t);
      SplitHead(FirstByte(base), Decode(rest), Decode(rest + t), Split(Decode(t), '/'));
    }
  }

  /** A path that matches a recursive pattern lies below its directory also when decoded. */
  lemma RecursiveMatchStaysBelow(pattern: string, path: string)
    requires IsPattern(pattern) && EndsWith(pattern, "**") && IsCanonical(path) && MatchesPattern(pattern, path)
    ensures Directory(Decode(pattern[..|pattern| - 2])) <= Split(Decode(path), '/')
  {
    var base := pattern[..|pattern| - 2];
    var rest := path[|base|..];
    NormalizeIsNormal(base);
    assert path == base + rest;
    DecodedBelow(base, rest);
    hide *;
  }
}
