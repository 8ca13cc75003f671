/** Base64 after section 4 of RFC 4648, with padding required and no stray trailing bits. */
module Base64 {
  import opened Basics

  predicate IsByte(c: char) { c < 256 as char }

  /** Every character stands for one byte. */
  predicate IsBytes(s: string) { forall i :: 0 <= i < |s| ==> IsByte(s[i]) }

  type Sextet = n: nat | n < 64

  function Digit(v: Sextet): char {
    if v < 26 then 'A' + v as char
    else if v < 52 then 'a' + (v - 26) as char
    else if v < 62 then '0' + (v - 52) as char
    else if v == 62 then '+' else '/'
  }

  function Value(c: char): Option<Sextet> {
    if 'A' <= c <= 'Z' then Some(c as int - 'A' as int)
    else if 'a' <= c <= 'z' then Some(c as int - 'a' as int + 26)
    else if '0' <= c <= '9' then Some(c as int - '0' as int + 52)
    else if c == '+' then Some(62) else if c == '/' then Some(63) else None
  }

  lemma DigitValue(v: Sextet)
    ensures Value(Digit(v)) == Some(v) && Digit(v) != '=' && ' ' < Digit(v) <= '~'
  {
  }

  lemma ValueDigit(c: char)
    requires Value(c).Some?
    ensures Digit(Value(c).value) == c
  {
  }

  type Octet = n: nat | n < 256

  // The four sextets of three octets, and back. A missing octet counts as 0.

  function S0(a: Octet): Sextet { a / 4 }

  function S1(a: Octet, b: Octet): Sextet { a % 4 * 16 + b / 16 }

  function S2(b: Octet, c: Octet): Sextet { b % 16 * 4 + c / 64 }

  function S3(c: Octet): Sextet { c % 64 }

  function O0(p: Sextet, q: Sextet): Octet { p * 4 + q / 16 }

  function O1(q: Sextet, r: Sextet): Octet { q % 16 * 16 + r / 4 }

  function O2(r: Sextet, u: Sextet): Octet { r % 4 * 64 + u }

  lemma Regroup(a: Octet, b: Octet, c: Octet)
    ensures O0(S0(a), S1(a, b)) == a && O1(S1(a, b), S2(b, c)) == b && O2(S2(b, c), S3(c)) == c
    ensures S1(a, 0) % 16 == 0 && S2(b, 0) % 4 == 0
  {
  }

  lemma RegroupBack(p: Sextet, q: Sextet, r: Sextet, u: Sextet)
    ensures S0(O0(p, q)) == p && S1(O0(p, q), O1(q, r)) == q && S2(O1(q, r), O2(r, u)) == r && S3(O2(r, u)) == u
    ensures q % 16 == 0 ==> S1(O0(p, q), 0) == q
    ensures r % 4 == 0 ==> S2(O1(q, r), 0) == r
  {
  }

  /** The byte that a character stands for; byte strings hold no other characters. */
  function ByteOf(c: char): Octet { if IsByte(c) then c as int else 0 }

  function Encode(s: string): string
  {
    if s == [] then []
    else
      var a := ByteOf(s[0]);
      if |s| == 1 then [Digit(S0(a)), Digit(S1(a, 0)), '=', '=']
      else
        var b := ByteOf(s[1]);
        if |s| == 2 then [Digit(S0(a)), Digit(S1(a, b)), Digit(S2(b, 0)), '=']
        else
          var c := ByteOf(s[2]);
          [Digit(S0(a)), Digit(S1(a, b)), Digit(S2(b, c)), Digit(S3(c))] + Encode(s[3..])
  }

  function Decode(t: string): (r: Option<string>)
    ensures r.Some? ==> IsBytes(r.value)
  {
    if t == [] then Some([])
    else if |t| < 4 || Value(t[0]).None? || Value(t[1]).None? then None
    else
      var p, q := Value(t[0]).value, Value(t[1]).value;
      if |t| == 4 && t[2] == '=' && t[3] == '=' then
        if q % 16 == 0 then Some([O0(p, q) as char]) else None
      else if Value(t[2]).None? then None
      else
        var r := Value(t[2]).value;
        if |t| == 4 && t[3] == '=' then
          if r % 4 == 0 then Some([O0(p, q) as char, O1(q, r) as char]) else None
        else if Value(t[3]).None? then None
        else
          var rest := Decode(t[4..]);
          if rest.None? then None
          else Some([O0(p, q) as char, O1(q, r) as char, O2(r, Value(t[3]).value) as char] + rest.value)
  }

  lemma {:induction false} DecodeEncode(s: string)
    requires IsBytes(s)
    ensures Decode(Encode(s)) == Some(s)
  {
    hide S0; hide S1; hide S2; hide S3; hide O0; hide O1; hide O2; hide Digit; hide Value;
    if s != [] {
      var a := ByteOf(s[0]);
      var b := if |s| > 1 then ByteOf(s[1]) else 0;
      var c := if |s| > 2 then ByteOf(s[2]) else 0;
      Regroup(a, b, c);
      DigitValue(S0(a)); DigitValue(S1(a, b)); DigitValue(S2(b, c)); DigitValue(S3(c));
      if |s| > 2 {
        DecodeEncode(s[3..]);
        assert Encode(s)[4..] == Encode(s[3..]);
        assert s == [s[0], s[1], s[2]] + s[3..];
      } else if |s| == 2 {
        assert s == [s[0], s[1]];
      } else {
        assert s == [s[0]];
      }
    }
  }

  /** Every text that decodes is the encoding of what it decodes to. */
  lemma {:induction false} EncodeDecode(t: string)
    requires Decode(t).Some?
    ensures Encode(Decode(t).value) == t
  {
    hide S0; hide S1; hide S2; hide S3; hide O0; hide O1; hide O2; hide Digit; hide Value;
    if t != [] {
      var p, q := Value(t[0]).value, Value(t[1]).value;
      var r := if Value(t[2]).Some? then Value(t[2]).value else 0;
      var u := if Value(t[3]).Some? then Value(t[3]).value else 0;
      RegroupBack(p, q, r, u);
      ValueDigit(t[0]); ValueDigit(t[1]);
      if Value(t[2]).Some? { ValueDigit(t[2]); }
      if Value(t[2]).Some? && Value(t[3]).Some? {
        ValueDigit(t[3]);
        NotPadding(t[3]);
        EncodeDecode(t[4..]);
        assert Decode(t).value[3..] == Decode(t[4..]).value;
        assert t == [t[0], t[1], t[2], t[3]] + t[4..];
      }
    }
  }

  lemma NotPadding(c: char)
    requires Value(c).Some?
    ensures c != '='
  {
  }

  lemma {:induction false} EncodeIsPrintable(s: string)
    ensures forall i :: 0 <= i < |Encode(s)| ==> ' ' < Encode(s)[i] <= '~'
  {
    hide Digit; hide S0; hide S1; hide S2; hide S3;
    if s != [] {
      var a := ByteOf(s[0]);
      var b := if |s| > 1 then ByteOf(s[1]) else 0;
      var c := if |s| > 2 then ByteOf(s[2]) else 0;
      DigitValue(S0(a)); DigitValue(S1(a, b)); DigitValue(S2(b, c)); DigitValue(S3(c));
      if |s| > 2 { EncodeIsPrintable(s[3..]); }
    }
  }

  // ----- against the standard -----

  const CAPITALS: string := "ABCDEFGHIJKLMNOPQRSTUVWXYZ"
  const LETTERS: string := "abcdefghijklmnopqrstuvwxyz"

  /** Table 1 in section 4 of RFC 4648. */
  const ALPHABET: string := CAPITALS + LETTERS + "0123456789" + "+/"

  lemma CapitalAt(v: nat)
    requires v < 26
    ensures |CAPITALS| == 26 && CAPITALS[v] == 'A' + v as char
  {
    assert CAPITALS[v] as int == 'A' as int + v;
  }

  lemma LetterAt(v: nat)
    requires v < 26
    ensures |LETTERS| == 26 && LETTERS[v] == 'a' + v as char
  {
    assert LETTERS[v] as int == 'a' as int + v;
  }

  lemma NumeralAt(v: nat)
    requires v < 10
    ensures "0123456789"[v] == '0' + v as char
  {
  }

  lemma DigitIsListed(v: Sextet)
    ensures |ALPHABET| == 64 && Digit(v) == ALPHABET[v]
  {
    if v < 26 { CapitalAt(v); LetterAt(0); }
    else if v < 52 { CapitalAt(0); LetterAt(v - 26); }
    else {
      CapitalAt(0); LetterAt(0);
      NumeralAt(if v < 62 then v - 52 else 0);
    }
  }

  /** The number that four digits write to the base 64, and three bytes to the base 256. */
  function FromSextets(p: Sextet, q: Sextet, r: Sextet, u: Sextet): nat { ((p * 64 + q) * 64 + r) * 64 + u }

  function FromOctets(a: Octet, b: Octet, c: Octet): nat { (a * 256 + b) * 256 + c }

  lemma SameNumber(a: Octet, b: Octet, c: Octet)
    ensures FromSextets(S0(a), S1(a, b), S2(b, c), S3(c)) == FromOctets(a, b, c)
  {
  }

  /** A digit and the sextet it is listed for. */
  predicate Writes(c: char, v: Sextet) { |ALPHABET| == 64 && c == ALPHABET[v] }

  /**
   Three bytes are written as four digits of the alphabet with the same number; one or two bytes at the end as if zero
   bytes followed, with padding for the digits that say nothing.
   */
  lemma EncodesGroup(s: string) returns (p: Sextet, q: Sextet, r: Sextet, u: Sextet)
    requires s != []
    ensures FromSextets(p, q, r, u) ==
            FromOctets(ByteOf(s[0]), if |s| > 1 then ByteOf(s[1]) else 0, if |s| > 2 then ByteOf(s[2]) else 0)
    ensures var t := Encode(s);
            && |t| >= 4 && Writes(t[0], p) && Writes(t[1], q)
            && (if |s| > 1 then Writes(t[2], r) else t[2] == '=') && (if |s| > 2 then Writes(t[3], u) else t[3] == '=')
            && t[4..] == if |s| > 2 then Encode(s[3..]) else []
  {
    hide S0; hide S1; hide S2; hide S3; hide FromSextets; hide FromOctets; hide Digit; hide Writes; hide ByteOf;
    var a, b, c := ByteOf(s[0]), if |s| > 1 then ByteOf(s[1]) else 0, if |s| > 2 then ByteOf(s[2]) else 0;
    p, q, r, u := S0(a), S1(a, b), S2(b, c), S3(c);
    SameNumber(a, b, c);
    DigitWrites(p); DigitWrites(q); DigitWrites(r); DigitWrites(u);
    if |s| > 2 { assert Encode(s)[4..] == Encode(s[3..]); }
  }

  lemma DigitWrites(v: Sextet)
    ensures Writes(Digit(v), v)
  {
    DigitIsListed(v);
  }
}
