/** Graph::counting_sort of src/core/graph.hpp: vertices by falling degree, in place. */
module DegreeSort {
  import opened Arith
  import opened Buckets
  import opened Perm

  datatype VertexUnit = VertexUnit(vertex: nat, degree: nat)

  ghost function Degrees(s: seq<VertexUnit>): (d: seq<nat>)
    ensures |d| == |s|
    ensures forall i :: 0 <= i < |s| ==> d[i] == s[i].degree
  {
    seq<nat>(|s|, i requires 0 <= i < |s| => s[i].degree)
  }

  /** t is s sorted by the source's rule: unit i goes to the mirror image of its counting-sort slot. */
  ghost predicate SortedFrom(s: seq<VertexUnit>, t: seq<VertexUnit>) {
    && |t| == |s|
    && forall i :: 0 <= i < |s| ==> Pos(Degrees(s), i) < |s| && t[|s| - 1 - Pos(Degrees(s), i)] == s[i]
  }

  method MaxDegree(data: array<VertexUnit>) returns (high: nat)
    ensures forall i :: 0 <= i < data.Length ==> data[i].degree <= high
  {
    high := 0;
    for v := 0 to data.Length
      invariant forall i :: 0 <= i < v ==> data[i].degree <= high
    {
      high := Max(high, data[v].degree);
    }
  }

  /** The counting loops: counters[d] becomes the number of units of degree d or less. */
  method Counters(data: array<VertexUnit>, high: nat) returns (counters: array<nat>)
    requires forall i :: 0 <= i < data.Length ==> 0 < data[i].degree <= high
    ensures fresh(counters) && counters.Length == high + 1
    ensures forall d :: 0 <= d <= high ==> counters[d] == Start(Degrees(data[..]), d + 1)
  {
    hide Less, Count;
    ghost var ids := Degrees(data[..]);
    CountFacts(ids, high + 1);
    counters := new nat[high + 1](_ => 0);
    for v := 0 to data.Length
      invariant forall d :: 0 <= d <= high ==> counters[d] == Count(ids, d, v)
    {
      counters[data[v].degree] := counters[data[v].degree] + 1;
      CountStep(ids, high + 1, v);
    }
    NoneBelowOne(ids);
    for d := 1 to high + 1
      invariant forall c :: 0 <= c < d ==> counters[c] == Start(ids, c + 1)
      invariant forall c :: d <= c <= high ==> counters[c] == Count(ids, c, |ids|)
    {
      LessNext(ids, d, |ids|);
      counters[d] := counters[d] + counters[d - 1];
    }
  }

  lemma CountFacts(ids: seq<nat>, n: nat)
    ensures forall d :: 0 <= d < n ==> Count(ids, d, 0) == 0
  {
  }

  lemma CountStep(ids: seq<nat>, n: nat, k: nat)
    requires k < |ids|
    ensures forall d :: 0 <= d < n ==> Count(ids, d, k + 1) == Count(ids, d, k) + (if ids[k] == d then 1 else 0)
  {
  }

  lemma NoneBelowOne(ids: seq<nat>)
    ensures Start(ids, 1) == Count(ids, 0, |ids|)
  {
    LessNext(ids, 0, |ids|);
    LessZero(ids, |ids|);
  }

  lemma {:induction false} LessZero(ids: seq<nat>, k: nat)
    requires k <= |ids|
    ensures Less(ids, 0, k) == 0
  {
    if k != 0 {
      LessZero(ids, k - 1);
    }
  }

  /** The write cursor of degree c + 1 once the first k units are placed. */
  ghost function Cursor(ids: seq<nat>, c: nat, k: nat): nat
    requires k <= |ids|
  {
    Start(ids, c + 1) + Count(ids, c + 1, k)
  }

  lemma CursorStarts(ids: seq<nat>, high: nat)
    ensures forall c :: 0 <= c < high ==> Cursor(ids, c, 0) == Start(ids, c + 1)
  {
  }

  lemma CursorStep(ids: seq<nat>, high: nat, k: nat)
    requires k < |ids| && 0 < ids[k]
    ensures Cursor(ids, ids[k] - 1, k) == Pos(ids, k)
    ensures forall c :: 0 <= c < high ==>
      Cursor(ids, c, k + 1) == Cursor(ids, c, k) + (if ids[k] - 1 == c then 1 else 0)
  {
  }

  /** Where each unit is written: the mirror image of its slot. */
  ghost function Places(ids: seq<nat>, high: nat): (w: seq<nat>)
    requires AllBelow(ids, high + 1)
    ensures |w| == |ids| && IsPerm(w)
    ensures forall i :: 0 <= i < |ids| ==> w[i] == |ids| - 1 - Pos(ids, i)
  {
    hide Less, Count, Pos;
    SlotFacts(ids, high + 1);
    seq<nat>(|ids|, i requires 0 <= i < |ids| => |ids| - 1 - Pos(ids, i))
  }

  method CountingSort(data: array<VertexUnit>)
    requires forall i :: 0 <= i < data.Length ==> data[i].degree != 0
    modifies data
    ensures SortedFrom(old(data[..]), data[..])
  {
    hide Less, Count, Cursor, Pos;
    ghost var s := data[..];
    var high := MaxDegree(data);
    var temp := new VertexUnit[data.Length](i requires 0 <= i < data.Length reads data => data[i]);
    assert temp[..] == s;
    var counters := Counters(data, high);
    CursorStarts(Degrees(s), high);
    PlaceUnits(data, temp, counters, high);
  }

  /** The writing loop. */
  method PlaceUnits(data: array<VertexUnit>, temp: array<VertexUnit>, counters: array<nat>, ghost high: nat)
    requires data != temp && data.Length == temp.Length && counters.Length == high + 1
    requires forall i :: 0 <= i < temp.Length ==> 0 < temp[i].degree <= high
    requires forall c :: 0 <= c < high ==> counters[c] == Cursor(Degrees(temp[..]), c, 0)
    modifies data, counters
    ensures SortedFrom(old(temp[..]), data[..])
  {
    hide Less, Count, Cursor, Pos;
    ghost var ids := Degrees(temp[..]);
    ghost var w := Places(ids, high);
    for v := 0 to data.Length
      invariant forall c :: 0 <= c < high ==> counters[c] == Cursor(ids, c, v)
      invariant forall i :: 0 <= i < v ==> data[w[i]] == temp[i]
    {
      var c := temp[v].degree - 1;
      CursorStep(ids, high, v);
      var pos := counters[c];
      counters[c] := pos + 1;
      data[data.Length - pos - 1] := temp[v];
    }
  }

  // ----- What the rule amounts to -----

  ghost predicate FallingDegrees(t: seq<VertexUnit>) {
    forall i, j :: 0 <= i <= j < |t| ==> t[j].degree <= t[i].degree
  }

  ghost function Mirror(s: seq<VertexUnit>): (w: seq<nat>)
    requires IsPerm(Slots(Degrees(s)))
    ensures |w| == |s|
    ensures forall i :: 0 <= i < |s| ==> Pos(Degrees(s), i) < |s| && w[i] == |s| - 1 - Pos(Degrees(s), i)
  {
    var slots := Slots(Degrees(s));
    seq<nat>(|s|, i requires 0 <= i < |s| => |s| - 1 - slots[i])
  }

  /** The write positions are distinct, in range and all used. */
  lemma MirrorIsPerm(s: seq<VertexUnit>, high: nat)
    requires AllBelow(Degrees(s), high)
    ensures IsPerm(Slots(Degrees(s))) && IsPerm(Mirror(s))
  {
    hide Less, Count;
    SlotsArePerm(Degrees(s), high);
    var slots := Slots(Degrees(s));
    forall i, j | 0 <= i < j < |s|
      ensures Mirror(s)[i] != Mirror(s)[j]
    {
      assert slots[i] != slots[j];
    }
  }

  lemma SourceOf(s: seq<VertexUnit>, t: seq<VertexUnit>, high: nat, k: nat) returns (i: nat)
    requires AllBelow(Degrees(s), high) && SortedFrom(s, t) && k < |t|
    ensures i < |s| && Pos(Degrees(s), i) == |s| - 1 - k && t[k] == s[i]
  {
    hide Less, Count;
    MirrorIsPerm(s, high);
    Surjective(Mirror(s), k);
    i :| 0 <= i < |s| && Mirror(s)[i] == k;
  }

  lemma HasBound(d: seq<nat>) returns (high: nat)
    ensures AllBelow(d, high)
  {
    high := 0;
    for i := 0 to |d|
      invariant forall j :: 0 <= j < i ==> d[j] < high
    {
      high := Max(high, d[i] + 1);
    }
  }

  /** The result is a rearrangement of the input. */
  lemma SortPermutes(s: seq<VertexUnit>, t: seq<VertexUnit>)
    requires SortedFrom(s, t)
    ensures multiset(t) == multiset(s)
  {
    hide Less, Count;
    var high := HasBound(Degrees(s));
    MirrorIsPerm(s, high);
    assert Gather(t, Mirror(s)) == s;
    GatherKeepsMultiset(t, Mirror(s));
  }

  /** Degrees never rise along the result, and equal degrees come out in reversed input order. */
  lemma SortOrders(s: seq<VertexUnit>, t: seq<VertexUnit>, k: nat, l: nat)
    requires SortedFrom(s, t) && k < l < |t|
    ensures t[l].degree <= t[k].degree
    ensures t[k].degree == t[l].degree ==>
      exists i, j :: 0 <= j < i < |s| && t[k] == s[i] && t[l] == s[j]
  {
    hide Less, Count;
    var ids := Degrees(s);
    var high := HasBound(ids);
    var i := SourceOf(s, t, high, k);
    var j := SourceOf(s, t, high, l);
    PosInBucket(ids, i);
    PosInBucket(ids, j);
    if ids[i] < ids[j] {
      LessMono(ids, ids[i] + 1, ids[j], |ids|);
    } else if ids[i] == ids[j] && i < j {
      Stable(ids, i, j);
    }
  }

  lemma SortFalls(s: seq<VertexUnit>, t: seq<VertexUnit>)
    requires SortedFrom(s, t)
    ensures FallingDegrees(t)
  {
    hide SortedFrom;
    forall i, j | 0 <= i <= j < |t|
      ensures t[j].degree <= t[i].degree
    {
      if i < j {
        SortOrders(s, t, i, j);
      }
    }
  }
}
