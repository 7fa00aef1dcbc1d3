/** Permutations of [0, n) as sequences, and what moving elements along one does to a multiset. */
module Perm {

  ghost predicate Injective(w: seq<nat>) {
    forall i, j :: 0 <= i < j < |w| ==> w[i] != w[j]
  }

  ghost predicate IsPerm(w: seq<nat>) {
    && (forall i :: 0 <= i < |w| ==> w[i] < |w|)
    && Injective(w)
  }

  function Gather<T>(a: seq<T>, w: seq<nat>): (r: seq<T>)
    requires forall i :: 0 <= i < |w| ==> w[i] < |a|
    ensures |r| == |w|
    ensures forall i :: 0 <= i < |w| ==> r[i] == a[w[i]]
  {
    seq(|w|, i requires 0 <= i < |w| => a[w[i]])
  }

  function Elements(w: seq<nat>): set<nat> {
    set x | x in w
  }

  function Below(n: nat): (r: set<nat>)
    ensures forall x: nat :: x in r <==> x < n
  {
    if n == 0 then {} else Below(n - 1) + {n - 1}
  }

  lemma {:induction false} BelowSize(n: nat)
    ensures |Below(n)| == n
  {
    if n == 0 {
    } else {
      BelowSize(n - 1);
    }
  }

  lemma {:induction false} ElementsSize(w: seq<nat>)
    requires Injective(w)
    ensures |Elements(w)| == |w|
  {
    if |w| == 0 {
      assert Elements(w) == {};
    } else {
      var m := |w| - 1;
      ElementsSize(w[..m]);
      assert Elements(w) == Elements(w[..m]) + {w[m]};
      assert w[m] !in Elements(w[..m]);
    }
  }

  lemma {:induction false} SubsetSize(a: set<nat>, b: set<nat>)
    requires a <= b
    ensures |a| <= |b|
  {
    if a != {} {
      var x :| x in a;
      SubsetSize(a - {x}, b - {x});
    }
  }

  /** Pigeonhole: an injection of [0, n) into itself reaches every element. */
  lemma Surjective(w: seq<nat>, k: nat)
    requires IsPerm(w)
    requires k < |w|
    ensures k in w
  {
    if k !in w {
      ElementsSize(w);
      BelowSize(|w|);
      assert Elements(w) <= Below(|w|) - {k};
      SubsetSize(Elements(w), Below(|w|) - {k});
      assert false;
    }
  }

  /** Distinct numbers below n that include them all are n of them. */
  lemma CoverCount(w: seq<nat>, n: nat)
    requires Injective(w) && (forall e :: 0 <= e < |w| ==> w[e] < n) && forall p :: 0 <= p < n ==> p in w
    ensures |w| == n
  {
    assert Elements(w) == Below(n);
    ElementsSize(w);
    BelowSize(n);
  }

  /** Dropping the position of the largest element leaves a permutation of [0, n-1). */
  lemma RemoveLast(w: seq<nat>, j: nat)
    requires IsPerm(w)
    requires j < |w| && w[j] == |w| - 1
    ensures IsPerm(w[..j] + w[j + 1..])
  {
    var v := w[..j] + w[j + 1..];
    forall i | 0 <= i < |v|
      ensures v[i] < |v|
    {
      var k := if i < j then i else i + 1;
      assert v[i] == w[k] && w[k] != w[j];
    }
  }

  lemma MultisetAround<T>(s: seq<T>, j: nat)
    requires j < |s|
    ensures multiset(s) == multiset(s[..j] + s[j + 1..]) + multiset{s[j]}
  {
    assert s == s[..j] + [s[j]] + s[j + 1..];
  }

  /** Rearranging along a permutation keeps the multiset of elements. */
  lemma {:induction false} GatherKeepsMultiset<T>(a: seq<T>, w: seq<nat>)
    requires IsPerm(w)
    requires |a| == |w|
    ensures multiset(Gather(a, w)) == multiset(a)
    decreases |w|
  {
    if |w| == 0 {
      assert Gather(a, w) == a;
    } else {
      var n := |w| - 1;
      Surjective(w, n);
      var j :| 0 <= j < |w| && w[j] == n;
      RemoveLast(w, j);
      var v := w[..j] + w[j + 1..];
      var g := Gather(a, w);
      calc {
        multiset(g);
        { MultisetAround(g, j); }
        multiset(g[..j] + g[j + 1..]) + multiset{a[n]};
        { GatherDrop(a, w, j); }
        multiset(Gather(a[..n], v)) + multiset{a[n]};
        { GatherKeepsMultiset(a[..n], v); }
        multiset(a[..n]) + multiset{a[n]};
        { assert a == a[..n] + [a[n]]; }
        multiset(a);
      }
    }
  }

  lemma GatherDrop<T>(a: seq<T>, w: seq<nat>, j: nat)
    requires IsPerm(w) && |a| == |w|
    requires j < |w| && w[j] == |w| - 1
    ensures IsPerm(w[..j] + w[j + 1..])
    ensures Gather(a[..|w| - 1], w[..j] + w[j + 1..]) == Gather(a, w)[..j] + Gather(a, w)[j + 1..]
  {
    RemoveLast(w, j);
  }

  ghost predicate Distinct<T>(s: seq<T>) {
    forall i, j :: 0 <= i < j < |s| ==> s[i] != s[j]
  }

  lemma {:induction false} DistinctOnce<T>(s: seq<T>, x: T)
    requires Distinct(s)
    ensures multiset(s)[x] <= 1
  {
    if s != [] {
      var m := |s| - 1;
      DistinctOnce(s[..m], x);
      assert s == s[..m] + [s[m]];
      if s[m] == x {
        assert x !in s[..m];
      }
    }
  }

  lemma TwiceCounted<T>(t: seq<T>, i: nat, j: nat)
    requires i < j < |t| && t[i] == t[j]
    ensures 2 <= multiset(t)[t[j]]
  {
    MultisetAround(t, j);
    var rest := t[..j] + t[j + 1..];
    assert rest[i] == t[j];
    assert t[j] in multiset(rest);
  }

  /** A rearrangement of distinct elements has distinct elements. */
  lemma RearrangedDistinct<T>(s: seq<T>, t: seq<T>)
    requires Distinct(s) && multiset(s) == multiset(t)
    ensures Distinct(t)
  {
    forall i, j | 0 <= i < j < |t|
      ensures t[i] != t[j]
    {
      if t[i] == t[j] {
        TwiceCounted(t, i, j);
        DistinctOnce(s, t[j]);
      }
    }
  }

  function Map<T, U>(f: T -> U, s: seq<T>): (r: seq<U>)
    ensures |r| == |s|
    ensures forall i :: 0 <= i < |s| ==> r[i] == f(s[i])
  {
    seq(|s|, i requires 0 <= i < |s| => f(s[i]))
  }

  lemma MapDrop<T, U>(f: T -> U, s: seq<T>, j: nat)
    requires j < |s|
    ensures multiset(Map(f, s)) == multiset(Map(f, s[..j] + s[j + 1..])) + multiset{f(s[j])}
  {
    var m := Map(f, s);
    MultisetAround(m, j);
    assert m[..j] + m[j + 1..] == Map(f, s[..j] + s[j + 1..]);
  }

  /** Mapping respects rearrangement. */
  lemma {:induction false} MapKeepsMultiset<T, U>(f: T -> U, s: seq<T>, t: seq<T>)
    requires multiset(s) == multiset(t)
    ensures multiset(Map(f, s)) == multiset(Map(f, t))
    decreases |s|
  {
    if s == [] {
      assert |t| == |multiset(t)| == |multiset(s)| == 0;
    } else {
      var m := |s| - 1;
      assert s[m] in multiset(t);
      var j :| 0 <= j < |t| && t[j] == s[m];
      MultisetAround(s, m);
      MultisetAround(t, j);
      assert s[..m] + s[m + 1..] == s[..m];
      assert multiset(s[..m]) == multiset(s) - multiset{s[m]};
      assert multiset(t[..j] + t[j + 1..]) == multiset(t) - multiset{s[m]};
      MapKeepsMultiset(f, s[..m], t[..j] + t[j + 1..]);
      MapDrop(f, s, m);
      MapDrop(f, t, j);
    }
  }
}
