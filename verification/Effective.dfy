/** When a reload counts as "unchanged" (src/control/reload.rs:155-173 and 354-374). */
module Effective {
  import opened Config
  import opened Text
  import opened Sorting

  predicate NatLe(a: nat, b: nat) { a <= b }

  predicate HeaderLe(a: HeaderInjection, b: HeaderInjection) { LexLe(a.header, b.header) }

  predicate HostLe(a: HostRule, b: HostRule) { LexLe(a.host, b.host) }

  function LowerHeader(i: HeaderInjection): HeaderInjection { i.(header := Lower(i.header)) }

  function CanonicalRule(r: HostRule): HostRule {
    r.(ports := Sort(NatLe, r.ports), paths := Sort(LexLe, r.paths),
    inject := Sort(HeaderLe, Map(LowerHeader, r.inject)))
  }

  function CanonicalRules(rules: seq<HostRule>): seq<HostRule> {
    Sort(HostLe, Map(CanonicalRule, rules))
  }

  predicate SameRules(left: seq<HostRule>, right: seq<HostRule>) { CanonicalRules(left) == CanonicalRules(right) }

  predicate SameConfiguration(a: SessionConfig, b: SessionConfig) {
    && a.unmatched == b.unmatched && SameRules(a.rules, b.rules)
    && a.defaultMode == b.defaultMode && a.modes == b.modes
  }

  /** Sorts local copies of the rules, of their lists and of their lower-cased injections. */
  method Canonicalize(rules: seq<HostRule>) returns (sorted: seq<HostRule>)
    ensures sorted == CanonicalRules(rules)
  {
    sorted := rules;
    for k := 0 to |rules|
      invariant |sorted| == |rules|
      invariant forall i :: 0 <= i < k ==> sorted[i] == CanonicalRule(rules[i])
      invariant forall i :: k <= i < |rules| ==> sorted[i] == rules[i]
    {
      var rule := sorted[k];
      rule := rule.(ports := Sort(NatLe, rule.ports), paths := Sort(LexLe, rule.paths));
      var inject := rule.inject;
      for j := 0 to |inject|
        invariant |inject| == |rule.inject|
        invariant forall i :: 0 <= i < j ==> inject[i] == LowerHeader(rule.inject[i])
        invariant forall i :: j <= i < |inject| ==> inject[i] == rule.inject[i]
      {
        inject := inject[j := LowerHeader(inject[j])];
      }
      assert inject == Map(LowerHeader, rules[k].inject);
      sorted := sorted[k := rule.(inject := Sort(HeaderLe, inject))];
    }
    assert sorted == Map(CanonicalRule, rules);
    sorted := Sort(HostLe, sorted);
  }

  method SameEffectiveRules(left: seq<HostRule>, right: seq<HostRule>) returns (same: bool)
    ensures same == SameRules(left, right)
  {
    var l := Canonicalize(left);
    var r := Canonicalize(right);
    same := l == r;
  }

  // ----- what the comparison decides -----

  /** A rule up to the order of its lists and the case of its header names. */
  datatype Meaning = Meaning(
    host: string, mode: RuleMode, ports: multiset<nat>, paths: multiset<string>, inject: multiset<HeaderInjection>)

  function MeaningOf(r: HostRule): Meaning {
    Meaning(r.host, r.mode, multiset(r.ports), multiset(r.paths), multiset(Map(LowerHeader, r.inject)))
  }

  /** No two elements share a key. */
  ghost predicate DistinctBy<T, K>(key: T -> K, s: seq<T>) {
    forall i, j :: 0 <= i < j < |s| ==> key(s[i]) != key(s[j])
  }

  function HeaderKey(i: HeaderInjection): string { Lower(i.header) }

  function HostKey(r: HostRule): string { r.host }

  /** What validation promises about duplicates (crates/baffle-client/src/policy.rs:207-310). */
  ghost predicate NoDuplicates(rules: seq<HostRule>) {
    DistinctBy(HostKey, rules) && forall k :: 0 <= k < |rules| ==> DistinctBy(HeaderKey, rules[k].inject)
  }

  lemma Orders()
    ensures TotalPreorder(NatLe) && TotalPreorder(LexLe) && TotalPreorder(HeaderLe) && TotalPreorder(HostLe)
  {
    forall a, b ensures LexLe(a, b) || LexLe(b, a) { LexTotal(a, b); }
    forall a, b, c | LexLe(a, b) && LexLe(b, c) ensures LexLe(a, c) { LexTransitive(a, b, c); }
    hide LexLe;
  }

  lemma PathsSeparate(s: seq<string>)
    ensures Separates(LexLe, s)
  {
    forall i, j | 0 <= i < |s| && 0 <= j < |s| && LexLe(s[i], s[j]) && LexLe(s[j], s[i]) ensures s[i] == s[j] {
      LexTotal(s[i], s[j]);
    }
  }

  lemma HeadersSeparate(s: seq<HeaderInjection>)
    requires DistinctBy(HeaderKey, s)
    ensures Separates(HeaderLe, Map(LowerHeader, s))
  {
    var l := Map(LowerHeader, s);
    forall i, j | 0 <= i < |l| && 0 <= j < |l| && HeaderLe(l[i], l[j]) && HeaderLe(l[j], l[i]) ensures l[i] == l[j] {
      LexTotal(l[i].header, l[j].header);
      assert HeaderKey(s[i]) == HeaderKey(s[j]);
    }
  }

  lemma HostsSeparate(rules: seq<HostRule>)
    requires DistinctBy(HostKey, rules)
    ensures Separates(HostLe, Map(CanonicalRule, rules))
  {
    hide CanonicalRule;
    var l := Map(CanonicalRule, rules);
    forall i, j | 0 <= i < |l| && 0 <= j < |l| && HostLe(l[i], l[j]) && HostLe(l[j], l[i]) ensures l[i] == l[j] {
      LexTotal(l[i].host, l[j].host);
      CanonicalHost(rules[i]);
      CanonicalHost(rules[j]);
      assert HostKey(rules[i]) == HostKey(rules[j]);
    }
  }

  lemma CanonicalHost(r: HostRule)
    ensures CanonicalRule(r).host == r.host
  {
  }

  /** The canonical form of a rule decides its meaning; without duplicate headers it is decided by it. */
  lemma RuleMeaning(r: HostRule, q: HostRule)
    ensures CanonicalRule(r) == CanonicalRule(q) ==> MeaningOf(r) == MeaningOf(q)
    ensures MeaningOf(r) == MeaningOf(q) && DistinctBy(HeaderKey, r.inject) ==> CanonicalRule(r) == CanonicalRule(q)
  {
    Orders();
    SortCanonical(NatLe, r.ports, q.ports);
    PathsSeparate(r.paths);
    SortCanonical(LexLe, r.paths, q.paths);
    if DistinctBy(HeaderKey, r.inject) { HeadersSeparate(r.inject); }
    SortCanonical(HeaderLe, Map(LowerHeader, r.inject), Map(LowerHeader, q.inject));
  }

  /**
   The comparison holds exactly when the two lists hold the same rules, whatever the order of rules, ports, paths
   and injections and the case of header names.
   */
  lemma SameRulesIffSameMeaning(left: seq<HostRule>, right: seq<HostRule>)
    ensures SameRules(left, right) ==> multiset(Map(MeaningOf, left)) == multiset(Map(MeaningOf, right))
    ensures NoDuplicates(left) && multiset(Map(MeaningOf, left)) == multiset(Map(MeaningOf, right)) ==>
              SameRules(left, right)
  {
    hide MeaningOf; hide CanonicalRule;
    Orders();
    SortCanonical(HostLe, Map(CanonicalRule, left), Map(CanonicalRule, right));
    if SameRules(left, right) {
      forall r, q | r in left && q in right && CanonicalRule(r) == CanonicalRule(q)
        ensures MeaningOf(r) == MeaningOf(q) { RuleMeaning(r, q); }
      ImageDetermined(CanonicalRule, MeaningOf, left, right);
    }
    if NoDuplicates(left) && multiset(Map(MeaningOf, left)) == multiset(Map(MeaningOf, right)) {
      forall r, q | r in left && q in right && MeaningOf(r) == MeaningOf(q)
        ensures CanonicalRule(r) == CanonicalRule(q) { RuleMeaning(r, q); }
      ImageDetermined(MeaningOf, CanonicalRule, left, right);
      HostsSeparate(left);
    }
  }

  // ----- rearranged rules -----

  lemma DistinctRearranged(s: seq<HostRule>, t: seq<HostRule>)
    requires multiset(s) == multiset(t) && DistinctBy(HostKey, s)
    ensures DistinctBy(HostKey, t)
  {
    if i, j :| 0 <= i < j < |t| && HostKey(t[i]) == HostKey(t[j]) {
      Rearranged(t, s, t[i]);
      Rearranged(t, s, t[j]);
      var a :| 0 <= a < |s| && s[a] == t[i];
      var b :| 0 <= b < |s| && s[b] == t[j];
      assert HostKey(s[a]) == HostKey(s[b]);
      assert a == b;
      TwiceInMultiset(t, i, j);
      OnceInMultiset(s, a);
    }
  }

  lemma TwiceInMultiset<T>(t: seq<T>, i: nat, j: nat)
    requires i < j < |t| && t[i] == t[j]
    ensures multiset(t)[t[i]] >= 2
  {
    assert t == t[..j] + [t[j]] + t[j + 1..];
    assert t[i] in t[..j] by { assert t[..j][i] == t[i]; }
  }

  lemma OnceInMultiset(s: seq<HostRule>, a: nat)
    requires a < |s| && DistinctBy(HostKey, s)
    ensures multiset(s)[s[a]] == 1
  {
    assert s == s[..a] + [s[a]] + s[a + 1..];
    forall i | 0 <= i < |s| && i != a ensures s[i] != s[a] {
      assert HostKey(s[if i < a then i else a]) != HostKey(s[if i < a then a else i]);
    }
  }
}
