/** Stable sorting (`slice::sort_by`) and what makes its result independent of the order of the input. */
module Sorting {

  function Insert<T>(le: (T, T) -> bool, x: T, s: seq<T>): seq<T> {
    if s == [] || le(x, s[0]) then [x] + s else [s[0]] + Insert(le, x, s[1..])
  }

  function Sort<T>(le: (T, T) -> bool, s: seq<T>): seq<T> {
    if s == [] then [] else Insert(le, s[0], Sort(le, s[1..]))
  }

  ghost predicate TotalPreorder<T(!new)>(le: (T, T) -> bool) {
    && (forall a, b :: le(a, b) || le(b, a))
    && (forall a, b, c :: le(a, b) && le(b, c) ==> le(a, c))
  }

  ghost predicate Sorted<T>(le: (T, T) -> bool, s: seq<T>) {
    forall i, j :: 0 <= i < j < |s| ==> le(s[i], s[j])
  }

  /** No two different elements of `s` compare equal. */
  ghost predicate Separates<T>(le: (T, T) -> bool, s: seq<T>) {
    forall i, j :: 0 <= i < |s| && 0 <= j < |s| && le(s[i], s[j]) && le(s[j], s[i]) ==> s[i] == s[j]
  }

  lemma {:induction false} InsertPermutes<T>(le: (T, T) -> bool, x: T, s: seq<T>)
    ensures multiset(Insert(le, x, s)) == multiset{x} + multiset(s)
  {
    if s != [] && !le(x, s[0]) {
      InsertPermutes(le, x, s[1..]);
      assert s == [s[0]] + s[1..];
    }
  }

  lemma {:induction false} SortPermutes<T>(le: (T, T) -> bool, s: seq<T>)
    ensures multiset(Sort(le, s)) == multiset(s)
  {
    if s != [] {
      SortPermutes(le, s[1..]);
      InsertPermutes(le, s[0], Sort(le, s[1..]));
      assert s == [s[0]] + s[1..];
    }
  }

  lemma {:induction false} InsertSorts<T(!new)>(le: (T, T) -> bool, x: T, s: seq<T>)
    requires TotalPreorder(le) && Sorted(le, s)
    ensures Sorted(le, Insert(le, x, s))
  {
    if s != [] && !le(x, s[0]) {
      InsertSorts(le, x, s[1..]);
      InsertPermutes(le, x, s[1..]);
      var r := Insert(le, x, s[1..]);
      forall j | 0 <= j < |r| ensures le(s[0], r[j]) {
        assert r[j] in multiset(r);
        if r[j] != x { assert r[j] in multiset(s[1..]); var k :| 0 <= k < |s[1..]| && s[1..][k] == r[j]; }
      }
    }
  }

  lemma {:induction false} SortSorts<T(!new)>(le: (T, T) -> bool, s: seq<T>)
    requires TotalPreorder(le)
    ensures Sorted(le, Sort(le, s))
  {
    if s != [] {
      SortSorts(le, s[1..]);
      InsertSorts(le, s[0], Sort(le, s[1..]));
    }
  }

  lemma Rearranged<T>(s: seq<T>, t: seq<T>, x: T)
    requires multiset(s) == multiset(t) && x in s
    ensures x in t
  {
    assert x in multiset(s);
  }

  lemma SameLeast<T(!new)>(le: (T, T) -> bool, s: seq<T>, t: seq<T>)
    requires TotalPreorder(le) && Sorted(le, s) && Sorted(le, t) && multiset(s) == multiset(t) && Separates(le, s)
    requires s != [] && t != []
    ensures s[0] == t[0]
  {
    Rearranged(s, t, s[0]);
    Rearranged(t, s, t[0]);
  }

  lemma TailMultiset<T>(s: seq<T>)
    requires s != []
    ensures multiset(s[1..]) == multiset(s) - multiset{s[0]}
  {
    assert s == [s[0]] + s[1..];
  }

  lemma {:induction false} SortedUnique<T(!new)>(le: (T, T) -> bool, s: seq<T>, t: seq<T>)
    requires TotalPreorder(le) && Sorted(le, s) && Sorted(le, t) && multiset(s) == multiset(t) && Separates(le, s)
    ensures s == t
  {
    assert |s| == |multiset(s)| == |multiset(t)| == |t|;
    if s != [] {
      SameLeast(le, s, t);
      TailMultiset(s);
      TailMultiset(t);
      var s', t' := s[1..], t[1..];
      assert s == [s[0]] + s' && t == [t[0]] + t';
      hide TotalPreorder;
      SortedUnique(le, s', t');
    }
  }

  lemma SeparatesRearranged<T>(le: (T, T) -> bool, s: seq<T>, t: seq<T>)
    requires multiset(s) == multiset(t) && Separates(le, s)
    ensures Separates(le, t)
  {
    forall i, j | 0 <= i < |t| && 0 <= j < |t| && le(t[i], t[j]) && le(t[j], t[i]) ensures t[i] == t[j] {
      Rearranged(t, s, t[i]);
      Rearranged(t, s, t[j]);
    }
  }

  /** Equal sorted forms hold the same elements; with separated elements the converse holds too. */
  lemma SortCanonical<T(!new)>(le: (T, T) -> bool, s: seq<T>, t: seq<T>)
    requires TotalPreorder(le)
    ensures Sort(le, s) == Sort(le, t) ==> multiset(s) == multiset(t)
    ensures multiset(s) == multiset(t) && Separates(le, s) ==> Sort(le, s) == Sort(le, t)
  {
    SortPermutes(le, s);
    SortPermutes(le, t);
    if multiset(s) == multiset(t) && Separates(le, s) {
      SeparatesRearranged(le, s, Sort(le, s));
      SortSorts(le, s);
      SortSorts(le, t);
      SortedUnique(le, Sort(le, s), Sort(le, t));
    }
  }

  // ----- elementwise images -----

  function Map<A, B>(f: A -> B, s: seq<A>): (r: seq<B>)
    ensures |r| == |s| && forall i :: 0 <= i < |s| ==> r[i] == f(s[i])
  {
    seq(|s|, i requires 0 <= i < |s| => f(s[i]))
  }

  lemma MapRemove<A, B>(f: A -> B, s: seq<A>, k: nat)
    requires k < |s|
    ensures multiset(Map(f, s)) == multiset{f(s[k])} + multiset(Map(f, Without(s, k)))
  {
    assert Map(f, s) == Map(f, s[..k]) + [f(s[k])] + Map(f, s[k + 1..]);
    assert Map(f, s[..k] + s[k + 1..]) == Map(f, s[..k]) + Map(f, s[k + 1..]);
  }

  ghost predicate Decides<A(!new), B, C>(f: A -> B, g: A -> C, s: seq<A>, t: seq<A>) {
    forall a, b :: a in s && b in t && f(a) == f(b) ==> g(a) == g(b)
  }

  function Without<A>(s: seq<A>, k: nat): (r: seq<A>)
    requires k < |s|
    ensures |r| == |s| - 1 && forall a :: a in r ==> a in s
  {
    s[..k] + s[k + 1..]
  }

  lemma FindImage<A, B>(f: A -> B, s: seq<A>, t: seq<A>) returns (k: nat)
    requires multiset(Map(f, s)) == multiset(Map(f, t)) && s != []
    ensures |s| == |t| && k < |t| && f(t[k]) == f(s[0])
    ensures multiset(Map(f, Without(s, 0))) == multiset(Map(f, Without(t, k)))
  {
    assert |s| == |multiset(Map(f, s))| == |multiset(Map(f, t))| == |t|;
    Rearranged(Map(f, s), Map(f, t), Map(f, s)[0]);
    k :| 0 <= k < |Map(f, t)| && Map(f, t)[k] == Map(f, s)[0];
    MapRemove(f, t, k);
    MapRemove(f, s, 0);
    hide Map;
    assert multiset(Map(f, Without(s, 0))) == multiset(Map(f, s)) - multiset{f(s[0])};
  }

  /** If `f` decides `g` on the two lists, equal `f`-images give equal `g`-images. */
  lemma {:induction false} ImageDetermined<A(!new), B, C>(f: A -> B, g: A -> C, s: seq<A>, t: seq<A>)
    requires multiset(Map(f, s)) == multiset(Map(f, t)) && Decides(f, g, s, t)
    ensures multiset(Map(g, s)) == multiset(Map(g, t))
  {
    if s == [] {
      assert |multiset(Map(f, s))| == |multiset(Map(f, t))|;
    } else {
      var k := FindImage(f, s, t);
      MapRemove(g, t, k);
      MapRemove(g, s, 0);
      ImageDetermined(f, g, Without(s, 0), Without(t, k));
      assert s[0] in s && t[k] in t;
    }
  }

  lemma MapRearranged<A(!new), B>(f: A -> B, s: seq<A>, t: seq<A>)
    requires multiset(s) == multiset(t)
    ensures multiset(Map(f, s)) == multiset(Map(f, t))
  {
    var same := (a: A) => a;
    assert Map(same, s) == s && Map(same, t) == t;
    ImageDetermined(same, f, s, t);
  }

  lemma RemoveMatching<A(!new)>(s: seq<A>, t: seq<A>) returns (k: nat)
    requires multiset(s) == multiset(t) && s != []
    ensures |s| == |t| && k < |t| && t[k] == s[0] && multiset(Without(s, 0)) == multiset(Without(t, k))
  {
    var same := (a: A) => a;
    assert Map(same, s) == s && Map(same, t) == t;
    k := FindImage(same, s, t);
    assert Map(same, Without(s, 0)) == Without(s, 0) && Map(same, Without(t, k)) == Without(t, k);
  }
}
