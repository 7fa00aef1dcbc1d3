/**
 * Graph::load of src/core/graph.hpp: vertex names are replaced by consecutive ids, degrees are counted
 * and the vertices sorted by degree.
 */
module Relabel {
  import opened Buckets
  import opened Perm
  import opened DegreeSort
  import opened EdgeFill
  import opened Options

  // ----- Arcs and degrees -----

  /** The directed arcs an edge list stands for: its edges, and their reverses when undirected. */
  ghost function Arcs(raw: seq<Arc>, undirected: bool): seq<Arc> {
    if raw == [] then []
    else
      var e := raw[|raw| - 1];
      Arcs(raw[..|raw| - 1], undirected) + (if undirected then [e, Arc(e.dst, e.src)] else [e])
  }

  /** Every edge gives the arc it names and, when undirected, the one that runs back. */
  lemma {:induction false} ArcsCount(raw: seq<Arc>, undirected: bool, a: Arc)
    ensures multiset(Arcs(raw, undirected))[a] ==
      multiset(raw)[a] + (if undirected then multiset(raw)[Arc(a.dst, a.src)] else 0)
  {
    if raw != [] {
      var m := |raw| - 1;
      ArcsCount(raw[..m], undirected, a);
      var e, before := raw[m], Arcs(raw[..m], undirected);
      assert raw == raw[..m] + [e];
      assert multiset(raw) == multiset(raw[..m]) + multiset{e};
      if undirected {
        assert Arcs(raw, undirected) == before + [e, Arc(e.dst, e.src)];
        assert multiset(Arcs(raw, undirected)) == multiset(before) + multiset{e, Arc(e.dst, e.src)};
      } else {
        assert Arcs(raw, undirected) == before + [e];
      }
    }
  }

  ghost function OutDegree(raw: seq<Arc>, undirected: bool, v: nat): nat {
    Count(Sources(Arcs(raw, undirected)), v, |Arcs(raw, undirected)|)
  }

  lemma {:induction false} CountPrefix(a: seq<nat>, b: seq<nat>, v: nat, n: nat)
    requires n <= |a| && n <= |b| && forall i :: 0 <= i < n ==> a[i] == b[i]
    ensures Count(a, v, n) == Count(b, v, n)
  {
    if n != 0 {
      CountPrefix(a, b, v, n - 1);
    }
  }

  /** One more edge adds one to its source's degree, and to its target's when undirected. */
  lemma OutDegreeStep(raw: seq<Arc>, undirected: bool, e: Arc, v: nat)
    ensures OutDegree(raw + [e], undirected, v)
         == OutDegree(raw, undirected, v) + (if e.src == v then 1 else 0) + (if undirected && e.dst == v then 1 else 0)
  {
    var all := raw + [e];
    assert all[..|all| - 1] == raw;
    var old_, new_ := Arcs(raw, undirected), Arcs(all, undirected);
    CountPrefix(Sources(old_), Sources(new_), v, |old_|);
    if undirected {
      assert new_ == old_ + [e, Arc(e.dst, e.src)];
      assert Count(Sources(new_), v, |old_| + 1) == Count(Sources(new_), v, |old_|) + (if e.src == v then 1 else 0);
    } else {
      assert new_ == old_ + [e];
    }
  }

  lemma {:induction false} OutDegreePositive(raw: seq<Arc>, undirected: bool, k: nat)
    requires k < |raw|
    ensures 0 < OutDegree(raw, undirected, raw[k].src)
    ensures undirected ==> 0 < OutDegree(raw, undirected, raw[k].dst)
    decreases |raw|
  {
    hide OutDegree;
    var m := |raw| - 1;
    assert raw == raw[..m] + [raw[m]];
    OutDegreeStep(raw[..m], undirected, raw[m], raw[k].src);
    OutDegreeStep(raw[..m], undirected, raw[m], raw[k].dst);
    if k < m {
      OutDegreePositive(raw[..m], undirected, k);
    }
  }

  /** Renaming the vertices by an injection carries degrees along. */
  lemma {:induction false} OutDegreeRenamed(raw: seq<Arc>, raw': seq<Arc>, undirected: bool, f: seq<nat>, v: nat)
    requires |raw| == |raw'| && Injective(f) && v < |f|
    requires forall k :: 0 <= k < |raw| ==> raw[k].src < |f| && raw[k].dst < |f|
    requires forall k :: 0 <= k < |raw| ==> raw'[k] == Arc(f[raw[k].src], f[raw[k].dst])
    ensures OutDegree(raw', undirected, f[v]) == OutDegree(raw, undirected, v)
    decreases |raw|
  {
    if raw != [] {
      hide OutDegree;
      var m := |raw| - 1;
      assert raw == raw[..m] + [raw[m]] && raw' == raw'[..m] + [raw'[m]];
      OutDegreeStep(raw[..m], undirected, raw[m], v);
      OutDegreeStep(raw'[..m], undirected, raw'[m], f[v]);
      OutDegreeRenamed(raw[..m], raw'[..m], undirected, f, v);
    }
  }

  // ----- Relabelling -----

  /** name2id and names are inverse to each other on the ids handed out so far. */
  ghost predicate Naming(name2id: seq<Option<nat>>, names: seq<nat>) {
    && (forall i :: 0 <= i < |names| ==> names[i] < |name2id| && name2id[names[i]] == Some(i))
    && (forall n :: 0 <= n < |name2id| && name2id[n].Some? ==>
          name2id[n].value < |names| && names[name2id[n].value] == n)
  }

  /** Looks a name up, growing the table and handing out the next id when the name is new. */
  method Intern(name2id0: seq<Option<nat>>, ghost names0: seq<nat>, vNum0: nat, name: nat)
    returns (name2id: seq<Option<nat>>, ghost names: seq<nat>, vNum: nat, id: nat)
    requires Naming(name2id0, names0) && |names0| == vNum0
    ensures Naming(name2id, names) && |names| == vNum
    ensures names0 <= names && id < vNum && names[id] == name
    ensures vNum0 <= vNum <= vNum0 + 1 && (vNum0 < vNum ==> id == vNum0)
  {
    name2id, names, vNum := name2id0, names0, vNum0;
    while |name2id| <= name
      invariant Naming(name2id, names)
      decreases name - |name2id|
    {
      name2id := name2id + [None];
    }
    if name2id[name] == None {
      name2id := name2id[name := Some(vNum)];
      names := names + [name];
      vNum := vNum + 1;
    }
    id := name2id[name].value;
  }

  /** The edge's ends are ids, and name the edge that was read. */
  ghost predicate Relabelled(names: seq<nat>, e: Arc, e': Arc) {
    && e'.src < |names| && e'.dst < |names|
    && names[e'.src] == e.src && names[e'.dst] == e.dst
  }

  ghost predicate UsedBy(raw: seq<Arc>, n: nat, id: nat) {
    exists k :: 0 <= k < n <= |raw| && (raw[k].src == id || raw[k].dst == id)
  }

  /** Each of the first n ids is an end of one of the first e edges. */
  ghost predicate AllUsed(raw: seq<Arc>, e: nat, n: nat) {
    forall id :: 0 <= id < n ==> UsedBy(raw, e, id)
  }

  /** New names do not disturb the edges already relabelled. */
  lemma NamesGrow(names0: seq<nat>, names: seq<nat>, input: seq<Arc>, rs: seq<Arc>, e: nat, last: Arc)
    requires names0 <= names && e < |input| == |rs|
    requires forall k :: 0 <= k < e ==> Relabelled(names0, input[k], rs[k])
    requires last.src < |names| && last.dst < |names|
    requires names[last.src] == input[e].src && names[last.dst] == input[e].dst
    ensures forall k :: 0 <= k < e ==> Relabelled(names, input[k], rs[k])
    ensures Relabelled(names, input[e], last)
  {
  }

  method RelabelEdges(raw: array<Arc>)
    returns (name2id: seq<Option<nat>>, ghost names: seq<nat>, vNum: nat)
    modifies raw
    ensures Naming(name2id, names) && |names| == vNum
    ensures forall k :: 0 <= k < raw.Length ==> Relabelled(names, old(raw[k]), raw[k])
    ensures AllUsed(raw[..], raw.Length, vNum)
  {
    name2id, names, vNum := [], [], 0;
    for e := 0 to raw.Length
      invariant Naming(name2id, names) && |names| == vNum
      invariant forall k :: 0 <= k < e ==> Relabelled(names, old(raw[k]), raw[k])
      invariant forall k :: e <= k < raw.Length ==> raw[k] == old(raw[k])
      invariant AllUsed(raw[..], e, vNum)
    {
      hide Naming, Relabelled, AllUsed;
      ghost var rs, n0, names0 := raw[..], vNum, names;
      var a, b;
      name2id, names, vNum, a := Intern(name2id, names, vNum, raw[e].src);
      name2id, names, vNum, b := Intern(name2id, names, vNum, raw[e].dst);
      raw[e] := Arc(a, b);
      NamesGrow(names0, names, old(raw[..]), rs, e, raw[e]);
      assert raw[..] == rs[e := Arc(a, b)];
      UsedGrows(rs, e, n0, vNum, a, b);
    }
  }

  lemma UsedGrows(rs: seq<Arc>, e: nat, n0: nat, n: nat, a: nat, b: nat)
    requires e < |rs| && AllUsed(rs, e, n0)
    requires n0 <= n <= n0 + 2 && (n == n0 + 1 ==> a == n0 || b == n0) && (n == n0 + 2 ==> a == n0 && b == n0 + 1)
    ensures AllUsed(rs[e := Arc(a, b)], e + 1, n)
  {
    var rs', done := rs[e := Arc(a, b)], e + 1;
    forall id | 0 <= id < n
      ensures UsedBy(rs', done, id)
    {
      if id < n0 {
        assert UsedBy(rs, e, id);
        var k :| 0 <= k < e && (rs[k].src == id || rs[k].dst == id);
        assert rs'[k] == rs[k];
      } else {
        assert rs'[e] == Arc(a, b);
      }
    }
  }

  method CountDegrees(raw: array<Arc>, undirected: bool, vNum: nat) returns (units: array<VertexUnit>)
    requires forall k :: 0 <= k < raw.Length ==> raw[k].src < vNum && raw[k].dst < vNum
    ensures fresh(units) && units.Length == vNum
    ensures forall v :: 0 <= v < vNum ==> units[v] == VertexUnit(v, OutDegree(raw[..], undirected, v))
  {
    hide OutDegree;
    NoEdges(undirected, vNum);
    units := new VertexUnit[vNum](v => VertexUnit(v, 0));
    for e := 0 to raw.Length
      invariant forall v :: 0 <= v < vNum ==> units[v] == VertexUnit(v, OutDegree(raw[..e], undirected, v))
    {
      assert raw[..e + 1] == raw[..e] + [raw[e]];
      forall v | 0 <= v < vNum
        ensures OutDegree(raw[..e + 1], undirected, v) == OutDegree(raw[..e], undirected, v)
          + (if raw[e].src == v then 1 else 0) + (if undirected && raw[e].dst == v then 1 else 0)
      {
        OutDegreeStep(raw[..e], undirected, raw[e], v);
      }
      var u, v := raw[e].src, raw[e].dst;
      units[u] := units[u].(degree := units[u].degree + 1);
      if undirected {
        units[v] := units[v].(degree := units[v].degree + 1);
      }
    }
    assert raw[..raw.Length] == raw[..];
  }

  lemma NoEdges(undirected: bool, vNum: nat)
    ensures forall v :: 0 <= v < vNum ==> OutDegree([], undirected, v) == 0
  {
  }

  /** units lists every id once, with its degree. */
  ghost predicate UnitsOf(units: seq<VertexUnit>, raw: seq<Arc>, undirected: bool) {
    && (forall i :: 0 <= i < |units| ==> UnitOk(units, raw, undirected, i))
    && (forall i, j :: 0 <= i < j < |units| ==> units[i].vertex != units[j].vertex)
  }

  ghost predicate UnitOk(units: seq<VertexUnit>, raw: seq<Arc>, undirected: bool, i: nat)
    requires i < |units|
  {
    units[i].vertex < |units| && units[i].degree == OutDegree(raw, undirected, units[i].vertex)
  }

  /** Any rearrangement of the units still lists every id once, with its degree. */
  lemma UnitsRearranged(s: seq<VertexUnit>, t: seq<VertexUnit>, raw: seq<Arc>, undirected: bool)
    requires UnitsOf(s, raw, undirected) && multiset(s) == multiset(t)
    ensures UnitsOf(t, raw, undirected)
  {
    hide OutDegree;
    assert |s| == |multiset(s)| == |multiset(t)| == |t|;
    forall i | 0 <= i < |t|
      ensures UnitOk(t, raw, undirected, i)
    {
      var k := Find(s, t, i);
      assert UnitOk(s, raw, undirected, k);
    }
    RearrangedDistinct(s, t);
    forall i, j | 0 <= i < j < |t|
      ensures t[i].vertex != t[j].vertex
    {
      var k := Find(s, t, i);
      var l := Find(s, t, j);
      assert s[k] != s[l];
      assert if k < l then s[k].vertex != s[l].vertex else s[l].vertex != s[k].vertex;
    }
  }

  lemma Find(s: seq<VertexUnit>, t: seq<VertexUnit>, i: nat) returns (k: nat)
    requires multiset(s) == multiset(t) && i < |t|
    ensures k < |s| && s[k] == t[i]
  {
    assert t[i] in multiset(s);
    k :| 0 <= k < |s| && s[k] == t[i];
  }

  /** Some edge leaves the vertex. */
  ghost predicate SourceAt(raw: seq<Arc>, v: nat) {
    exists j :: 0 <= j < |raw| && raw[j].src == v
  }

  ghost predicate TargetsAreSources(raw: seq<Arc>) {
    forall k :: 0 <= k < |raw| ==> SourceAt(raw, raw[k].dst)
  }

  /** The assertion of the sort: every vertex has an out-edge. */
  method AllPositive(units: array<VertexUnit>) returns (ok: bool)
    ensures ok <==> forall i :: 0 <= i < units.Length ==> 0 < units[i].degree
  {
    for i := 0 to units.Length
      invariant forall j :: 0 <= j < i ==> 0 < units[j].degree
    {
      if units[i].degree == 0 {
        return false;
      }
    }
    ok := true;
  }

  /** The names that occur in the edges. */
  ghost function NamesIn(input: seq<Arc>): set<nat> {
    (set k | 0 <= k < |input| :: input[k].src) + (set k | 0 <= k < |input| :: input[k].dst)
  }

  /** There is an id for every name that occurs, and for no other. */
  lemma VertexCount(name2id: seq<Option<nat>>, names: seq<nat>, input: seq<Arc>, raw: seq<Arc>)
    requires Naming(name2id, names) && |input| == |raw| && AllUsed(raw, |raw|, |names|)
    requires forall k :: 0 <= k < |raw| ==> Relabelled(names, input[k], raw[k])
    ensures |NamesIn(input)| == |names|
  {
    forall x | x in names
      ensures x in NamesIn(input)
    {
      var id :| 0 <= id < |names| && names[id] == x;
      assert UsedBy(raw, |raw|, id);
      var k :| 0 <= k < |raw| && (raw[k].src == id || raw[k].dst == id);
      assert Relabelled(names, input[k], raw[k]);
    }
    forall x | x in NamesIn(input)
      ensures x in names
    {
      var k :| 0 <= k < |input| && (input[k].src == x || input[k].dst == x);
      assert Relabelled(names, input[k], raw[k]);
    }
    assert NamesIn(input) == Elements(names);
    forall i, j | 0 <= i < j < |names|
      ensures names[i] != names[j]
    {
      assert name2id[names[i]] == Some(i) && name2id[names[j]] == Some(j);
    }
    ElementsSize(names);
  }

  /**
   * load, up to the file it reads. Sorting asserts an out-edge at every vertex: an undirected input always
   * has one, a directed one exactly when every target is a source.
   */
  method Load(raw: array<Arc>, undirected: bool)
    returns (ok: bool, name2id: seq<Option<nat>>, ghost names: seq<nat>, vNum: nat, units: array<VertexUnit>)
    modifies raw
    ensures fresh(units) && units.Length == vNum == |names| && Naming(name2id, names)
    ensures vNum == |NamesIn(old(raw[..]))| && (0 < raw.Length ==> 0 < vNum)
    ensures ok <==> undirected || TargetsAreSources(old(raw[..]))
    ensures forall k :: 0 <= k < raw.Length ==> Relabelled(names, old(raw[k]), raw[k])
    ensures ok ==> UnitsOf(units[..], raw[..], undirected) && FallingDegrees(units[..])
    ensures ok ==> forall i :: 0 <= i < vNum ==> 0 < units[i].degree
  {
    ghost var input := raw[..];
    name2id, names, vNum := RelabelEdges(raw);
    VertexCount(name2id, names, input, raw[..]);
    EveryDegreePositive(name2id, names, input, raw[..], undirected);
    assert 0 < raw.Length ==> Relabelled(names, input[0], raw[0]);
    hide OutDegree, FallingDegrees, UnitsOf, Naming, Relabelled, NamesIn, TargetsAreSources;
    RelabelledInRange(names, input, raw[..]);
    units := CountDegrees(raw, undirected, vNum);
    ok := AllPositive(units);
    if ok {
      SortUnits(units, raw[..], undirected);
    }
  }

  lemma RelabelledInRange(names: seq<nat>, input: seq<Arc>, raw: seq<Arc>)
    requires |input| == |raw| && forall k :: 0 <= k < |raw| ==> Relabelled(names, input[k], raw[k])
    ensures forall k :: 0 <= k < |raw| ==> raw[k].src < |names| && raw[k].dst < |names|
  {
  }

  method SortUnits(units: array<VertexUnit>, ghost raw: seq<Arc>, ghost undirected: bool)
    requires forall v :: 0 <= v < units.Length ==> units[v] == VertexUnit(v, OutDegree(raw, undirected, v))
    requires forall v :: 0 <= v < units.Length ==> 0 < OutDegree(raw, undirected, v)
    modifies units
    ensures UnitsOf(units[..], raw, undirected) && FallingDegrees(units[..])
    ensures forall i :: 0 <= i < units.Length ==> 0 < units[i].degree
  {
    hide OutDegree, FallingDegrees;
    ghost var before := units[..];
    forall i | 0 <= i < |before|
      ensures UnitOk(before, raw, undirected, i)
    {
      assert before[i] == VertexUnit(i, OutDegree(raw, undirected, i));
    }
    CountingSort(units);
    SortPermutes(before, units[..]);
    SortFalls(before, units[..]);
    UnitsRearranged(before, units[..], raw, undirected);
    forall i | 0 <= i < units.Length
      ensures 0 < units[i].degree
    {
      assert UnitOk(units[..], raw, undirected, i);
    }
  }

  /** A vertex with a degree is the source of an edge. */
  lemma {:induction false} DegreeHasSource(raw: seq<Arc>, v: nat)
    requires 0 < OutDegree(raw, false, v)
    ensures SourceAt(raw, v)
    decreases |raw|
  {
    hide OutDegree;
    if raw == [] {
      NoEdges(false, v + 1);
      assert false;
    } else {
      var m := |raw| - 1;
      assert raw == raw[..m] + [raw[m]];
      OutDegreeStep(raw[..m], false, raw[m], v);
      if raw[m].src != v {
        DegreeHasSource(raw[..m], v);
        var j :| 0 <= j < m && raw[..m][j].src == v;
        assert raw[j].src == v;
      }
    }
  }

  /** Every id is an end of some edge, so every id has an arc exactly when every target of the input has one. */
  lemma EveryDegreePositive(name2id: seq<Option<nat>>, names: seq<nat>, input: seq<Arc>, raw: seq<Arc>,
                            undirected: bool)
    requires Naming(name2id, names) && |input| == |raw|
    requires forall k :: 0 <= k < |raw| ==> Relabelled(names, input[k], raw[k])
    requires AllUsed(raw, |raw|, |names|)
    ensures (forall v :: 0 <= v < |names| ==> 0 < OutDegree(raw, undirected, v)) <==>
      undirected || TargetsAreSources(input)
  {
    if undirected || TargetsAreSources(input) {
      SourcesHaveDegrees(name2id, names, input, raw, undirected);
    } else if forall v :: 0 <= v < |names| ==> 0 < OutDegree(raw, undirected, v) {
      hide OutDegree, Naming;
      forall k | 0 <= k < |input|
        ensures SourceAt(input, input[k].dst)
      {
        assert Relabelled(names, input[k], raw[k]);
        DegreeHasSource(raw, raw[k].dst);
        var j :| 0 <= j < |raw| && raw[j].src == raw[k].dst;
        assert Relabelled(names, input[j], raw[j]);
        assert input[j].src == input[k].dst;
      }
      assert false;
    }
  }

  lemma SourcesHaveDegrees(name2id: seq<Option<nat>>, names: seq<nat>, input: seq<Arc>, raw: seq<Arc>, undirected: bool)
    requires Naming(name2id, names) && |input| == |raw|
    requires forall k :: 0 <= k < |raw| ==> Relabelled(names, input[k], raw[k])
    requires AllUsed(raw, |raw|, |names|)
    requires undirected || TargetsAreSources(input)
    ensures forall v :: 0 <= v < |names| ==> 0 < OutDegree(raw, undirected, v)
  {
    hide OutDegree, Naming, Relabelled;
    forall v | 0 <= v < |names|
      ensures 0 < OutDegree(raw, undirected, v)
    {
      assert UsedBy(raw, |raw|, v);
      var k :| 0 <= k < |raw| && (raw[k].src == v || raw[k].dst == v);
      OutDegreePositive(raw, undirected, k);
      if !undirected && raw[k].src != v {
        assert SourceAt(input, input[k].dst);
        var j :| 0 <= j < |input| && input[j].src == input[k].dst;
        SameName(name2id, names, input, raw, j, k);
        OutDegreePositive(raw, undirected, j);
      }
    }
  }

  lemma SameName(name2id: seq<Option<nat>>, names: seq<nat>, input: seq<Arc>, raw: seq<Arc>, j: nat, k: nat)
    requires Naming(name2id, names)
    requires j < |raw| == |input| && k < |raw|
    requires Relabelled(names, input[j], raw[j]) && Relabelled(names, input[k], raw[k])
    requires input[j].src == input[k].dst
    ensures raw[j].src == raw[k].dst
  {
  }
}
