/** Exact DNS host names (crates/baffle-client/src/policy.rs:92-123). */
module Dns {
  import opened Basics
  import opened Text

  /**
   `Host::parse` and the IP address test belong to foreign libraries. They appear as an acceptance test on the
   lower-case name, which a domain keeps unchanged.
   */
  type Acceptance = string -> bool

  predicate IsLabel(s: string) {
    && 0 < |s| <= 63 && s[0] != '-' && s[|s| - 1] != '-'
    && forall i :: 0 <= i < |s| ==> IsAlphanumeric(s[i]) || s[i] == '-'
  }

  function StripDot(s: string): string { if EndsWith(s, ".") then s[..|s| - 1] else s }

  predicate IsHost(accept: Acceptance, host: string) {
    && 0 < |host| <= 253
    && (forall k :: 0 <= k < |Split(host, '.')| ==> IsLabel(Split(host, '.')[k]))
    && accept(host)
  }

  function NormalizeDns(accept: Acceptance, input: string): Option<string> {
    if input == [] || '*' in input then None
    else
      var host := StripDot(Lower(input));
      if IsHost(accept, host) then Some(host) else None
  }

  lemma {:induction false} LastPiece(s: string, c: char)
    requires s != [] && s[|s| - 1] == c
    ensures |Split(s, c)| > 1 && Split(s, c)[|Split(s, c)| - 1] == []
  {
    if |s| > 1 { assert s[1..][|s| - 2] == c; LastPiece(s[1..], c); }
  }

  lemma {:induction false} CharInPiece(s: string, sep: char, i: nat)
    requires i < |s| && s[i] != sep
    ensures exists k :: 0 <= k < |Split(s, sep)| && s[i] in Split(s, sep)[k]
  {
    var pieces := Split(s, sep);
    if i == 0 {
      assert s[0] in pieces[0];
    } else {
      CharInPiece(s[1..], sep, i - 1);
      var rest := Split(s[1..], sep);
      var k :| 0 <= k < |rest| && s[1..][i - 1] in rest[k];
      if s[0] == sep { assert pieces[k + 1] == rest[k]; }
      else if k > 0 { assert pieces[k] == rest[k]; }
      else { assert pieces[0] == [s[0]] + rest[0]; }
    }
  }

  /** A normal host is lower-case letters, digits, hyphens and dots, and does not end in a dot. */
  lemma HostCharacters(accept: Acceptance, host: string)
    requires IsHost(accept, host)
    ensures forall i :: 0 <= i < |host| ==> IsAlphanumeric(host[i]) || host[i] in "-."
    ensures !EndsWith(host, ".")
  {
    forall i | 0 <= i < |host| && host[i] != '.' ensures IsAlphanumeric(host[i]) || host[i] == '-' {
      CharInPiece(host, '.', i);
    }
    if host[|host| - 1] == '.' { LastPiece(host, '.'); }
  }

  lemma StripLower(s: string)
    ensures Lower(StripDot(Lower(s))) == StripDot(Lower(s))
  {
    LowerTwice(s);
  }

  /** Normalisation is idempotent: a normal host is its own normal form. */
  lemma NormalizeDnsIdempotent(accept: Acceptance, input: string)
    requires NormalizeDns(accept, input).Some?
    ensures var host := NormalizeDns(accept, input).value;
            NormalizeDns(accept, host) == Some(host) && Lower(host) == host && ':' !in host
  {
    var host := NormalizeDns(accept, input).value;
    StripLower(input);
    HostCharacters(accept, host);
  }
}
