/** Which paths are accepted, and what their escapes stand for (crates/baffle-client/src/policy.rs:401-486). */
module PathAcceptance {
  import opened Basics
  import opened Text
  import opened Paths

  // ----- escapes -----

  const LOWER_HEX: string := "0123456789abcdef"
  const UPPER_HEX: string := "0123456789ABCDEF"

  /** A hexadecimal digit has the value of its place in the row of digits. */
  lemma HexTable(c: char, v: nat)
    ensures HexValue(c) == Some(v) <==> v < 16 && (c == LOWER_HEX[v] || c == UPPER_HEX[v])
  {
    if v < 16 {
      assert LOWER_HEX[v] == if v < 10 then '0' + v as char else 'a' + (v - 10) as char;
      assert UPPER_HEX[v] == if v < 10 then '0' + v as char else 'A' + (v - 10) as char;
    }
  }

  predicate IsBytes(s: string) { forall i :: 0 <= i < |s| ==> s[i] < 256 as char }

  /** Every byte as an escape. */
  function Escapes(s: string): string
    requires IsBytes(s)
  {
    if s == [] then []
    else
      var b := s[0] as int;
      ['%', UPPER_HEX[b / 16], UPPER_HEX[b % 16]] + Escapes(s[1..])
  }

  lemma {:induction false} DecodeEscapes(s: string)
    requires IsBytes(s)
    ensures Decode(Escapes(s)) == s
  {
    if s != [] {
      var b, e := s[0] as int, Escapes(s);
      HexTable(e[1], b / 16);
      HexTable(e[2], b % 16);
      assert e[3..] == Escapes(s[1..]);
      hide HexValue;
      DecodeEscapes(s[1..]);
      assert Escaped(e) == s[0] by { assert b / 16 * 16 + b % 16 == b; }
    }
  }

  // ----- acceptance -----

  /** Path characters, and escapes of bytes that are neither a separator nor the escape character. */
  predicate TokensOk(p: string) {
    if p == [] then true
    else if p[0] == '%' then IsEscape(p) && !IsAmbiguous(Escaped(p)) && TokensOk(p[3..])
    else IsPathCharacter(p[0]) && TokensOk(p[1..])
  }

  lemma {:induction false} TokensNormalize(p: string)
    ensures Normalize(p).Ok? <==> TokensOk(p)
    ensures TokensOk(p) ==> !ContainsAny(p, "?#\\")
  {
    if p != [] {
      if p[0] == '%' {
        if IsEscape(p) { TokensNormalize(p[3..]); if TokensOk(p) { EscapeIsPlain(p); } }
      } else {
        TokensNormalize(p[1..]);
      }
    }
  }

  lemma EscapeIsPlain(p: string)
    requires IsEscape(p) && !ContainsAny(p[3..], "?#\\")
    ensures !ContainsAny(p, "?#\\")
  {
    assert forall i :: 3 <= i < |p| ==> p[i] == p[3..][i - 3];
  }

  lemma {:induction false} SlashesDecode(c: string)
    requires IsNormal(c) && HasDouble(c, '/')
    ensures HasDouble(Decode(c), '/')
  {
    var n := TokenLength(c);
    var i :| 0 <= i < |c| - 1 && c[i] == '/' == c[i + 1];
    assert Decode(c)[1..] == Decode(c[n..]);
    if i == 0 {
      assert c[1..][0] == '/';
      assert Decode(c)[0] == '/' && Decode(c[1..])[0] == '/';
    } else {
      assert i >= n by { NoSlashInToken(c); }
      assert c[n..][i - n] == '/' == c[n..][i - n + 1];
      SlashesDecode(c[n..]);
      var j :| 0 <= j < |Decode(c[n..])| - 1 && Decode(c[n..])[j] == '/' == Decode(c[n..])[j + 1];
      assert Decode(c)[j + 1] == '/' == Decode(c)[j + 2];
    }
  }

  lemma NoSlashInToken(c: string)
    requires c != [] && IsNormal(c)
    ensures var n := TokenLength(c); |c| >= n && forall i :: 0 < i < n ==> c[i] != '/'
  {
    hide IsPathCharacter; hide IsUnreserved; hide IsAmbiguous; hide HexValue;
    if c[0] == '%' {
      SlashIsNoDigit(c[1]);
      SlashIsNoDigit(c[2]);
    }
  }

  lemma SlashIsNoDigit(c: char)
    requires HexValue(c).Some?
    ensures c != '/'
  {
  }

  lemma DotsDecode(c: string)
    requires IsNormal(c) && HasDotSegment(c)
    ensures HasDotSegment(Decode(c))
  {
    DecodedSegments(c);
    hide Split; hide IsNormal;
    var k :| 0 <= k < |Split(c, '/')| && Split(c, '/')[k] in [".", ".."];
    DecodePlain(Split(c, '/')[k]);
    hide Decode;
    assert Split(Decode(c), '/')[k] == Split(c, '/')[k];
  }

  /**
   A path is accepted exactly if it starts with a slash, consists of path characters and escapes that hide no
   separator, and has, decoded, neither a repeated slash nor a dot segment.
   */
  lemma AcceptsExactly(p: string)
    ensures Canonical(p).Ok? <==>
            StartsWith(p, "/") && TokensOk(p) && !HasDouble(Decode(p), '/') && !HasDotSegment(Decode(p))
  {
    TokensNormalize(p);
    if Canonical(p).Ok? { DecodedIsSafe(p); }
    if TokensOk(p) {
      NormalizeIsNormal(p);
      var n := Normalize(p).value;
      hide Normalize; hide IsNormal; hide Decode; hide TokensOk;
      if HasDouble(n, '/') { SlashesDecode(n); }
      if HasDotSegment(n) { DotsDecode(n); }
    }
  }
}
