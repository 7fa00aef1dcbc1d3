/**
 * ExclusiveBufferSampler of src/core/sampler.hpp: every vertex of the partition owns a stretch of one
 * array, filled with neighbours drawn ahead of time and emptied from its head.
 */
module BufferSampler {
  import opened Arith
  import opened Bits
  import opened Csr

  // ----- Buffer lengths -----

  /** (n & (n - 1)) == 0, for a positive n. */
  function IsPow2(n: nat): bool {
    n == 1 || (n != 0 && n % 2 == 0 && IsPow2(n / 2))
  }

  lemma {:induction false} ShlIsPow2(k: nat)
    ensures IsPow2(Shl(1, k))
  {
    if k != 0 {
      ShlIsPow2(k - 1);
    }
  }

  lemma {:induction false} Pow2IsShl(n: nat) returns (k: nat)
    requires IsPow2(n)
    ensures n == Shl(1, k)
  {
    if n == 1 {
      k := 0;
    } else {
      k := Pow2IsShl(n / 2);
      k := k + 1;
    }
  }

  /** get_edge_buffer_length: the least one from 8 and the degree up that is 8 or no power of two. */
  function BufferLength(degree: nat): (len: nat)
    ensures 8 <= len && degree <= len
  {
    var len := if degree < 8 then 8 else degree;
    if 8 < len && IsPow2(len) then len + 1 else len
  }

  lemma BufferLengthLeast(degree: nat, l: nat)
    requires 8 <= l && degree <= l && (l == 8 || !IsPow2(l))
    ensures BufferLength(degree) <= l && (BufferLength(degree) == 8 || !IsPow2(BufferLength(degree)))
  {
    BufferLengthPow2Iff(degree);
  }

  /** Up to 8 it is 8, and one more than the degree at powers of two above; everywhere else the degree is kept. */
  lemma BufferLengthIs(degree: nat)
    ensures degree <= 8 ==> BufferLength(degree) == 8
    ensures 8 < degree && (forall k: nat :: degree != Shl(1, k)) ==> BufferLength(degree) == degree
    ensures 8 < degree && (exists k: nat :: degree == Shl(1, k)) ==> BufferLength(degree) == degree + 1
  {
    hide Shl;
    assert IsPow2(8);
    if k: nat :| degree == Shl(1, k) {
      ShlIsPow2(k);
    } else if IsPow2(degree) {
      var k := Pow2IsShl(degree);
      assert degree == Shl(1, k);
    }
  }

  /** The length is a power of two, which the source's comment rules out, exactly for degrees up to 8. */
  lemma BufferLengthPow2Iff(degree: nat)
    ensures IsPow2(BufferLength(degree)) <==> degree <= 8
  {
    assert IsPow2(8);
    if 8 < degree && IsPow2(degree) {
      assert degree % 2 == 0 && (degree + 1) % 2 == 1;
    }
  }

  /** Where the buffer of the k-th vertex from b on begins. */
  ghost function Begin(g: Graph, b: nat, k: nat): nat
    requires b + k <= |g.adj|
  {
    if k == 0 then 0 else Begin(g, b, k - 1) + BufferLength(g.adj[b + k - 1].degree)
  }

  lemma {:induction false} BeginMono(g: Graph, b: nat, j: nat, k: nat)
    requires j <= k && b + k <= |g.adj|
    ensures Begin(g, b, j) <= Begin(g, b, k)
    decreases k
  {
    if j < k {
      BeginMono(g, b, j, k - 1);
    }
  }

  /** The 32-bit running sums are the true ones, for all n vertices, exactly when the total fits. */
  lemma {:induction false} SumsExactIff(g: Graph, b: nat, n: nat)
    requires b + n <= |g.adj|
    ensures (forall k :: 0 <= k <= n ==> Begin(g, b, k) % TWO32 == Begin(g, b, k)) <==> Begin(g, b, n) < TWO32
  {
    if Begin(g, b, n) < TWO32 {
      forall k | 0 <= k <= n
        ensures Begin(g, b, k) % TWO32 == Begin(g, b, k)
      {
        BeginMono(g, b, k, n);
      }
    } else {
      assert Begin(g, b, n) % TWO32 < TWO32;
    }
  }

  /** The neighbours that n successive draws for v select. */
  ghost function Draws(g: Graph, v: nat, rd: Rand, at: nat, n: nat): (ds: seq<nat>)
    requires v < |g.adj| && g.ListOk(g.adj[v])
    ensures |ds| == n
    ensures forall i :: 0 <= i < n ==> ds[i] == g.Neighbors(v)[rd.Draw(at + i, |g.Neighbors(v)|)]
  {
    seq<nat>(n, i requires 0 <= i < n => g.Neighbors(v)[rd.Draw(at + i, |g.Neighbors(v)|)])
  }

  /** What a sampler has drawn and handed out, vertex by vertex from the partition's first one on. */
  datatype Account = Account(drawn: seq<seq<nat>>, served: seq<seq<nat>>) {

    /** The k-th vertex's part of it after so much more was drawn and handed out. */
    function With(k: nat, more: seq<nat>, answers: seq<nat>): Account
      requires k < |drawn| == |served|
    {
      Account(drawn[k := drawn[k] + more], served[k := served[k] + answers])
    }
  }

  /** The answer for v was entered, and the neighbours that the draws [from, to) picked for v. */
  ghost predicate Entered(g: Graph, rd: Rand, lo: nat, v: nat, from: nat, to: nat, ret: nat, acc: Account,
                          acc': Account) {
    && lo <= v < |g.adj| && g.ListOk(g.adj[v]) && from <= to && v - lo < |acc.drawn| == |acc.served|
    && acc' == acc.With(v - lo, Draws(g, v, rd, from, to - from), [ret])
  }

  lemma IsEntered(g: Graph, rd: Rand, lo: nat, v: nat, from: nat, n: nat, ret: nat, acc: Account, acc': Account)
    requires lo <= v < |g.adj| && g.ListOk(g.adj[v]) && v - lo < |acc.drawn| == |acc.served|
    requires acc'.served == acc.served[v - lo := acc.served[v - lo] + [ret]]
    requires acc'.drawn == if n == 0 then acc.drawn
                           else acc.drawn[v - lo := acc.drawn[v - lo] + Draws(g, v, rd, from, n)]
    ensures Entered(g, rd, lo, v, from, from + n, ret, acc, acc')
  {
    if n == 0 {
      assert acc.drawn[v - lo] + Draws(g, v, rd, from, 0) == acc.drawn[v - lo];
    }
  }

  datatype Header = Header(head: nat, end: nat)

  class ExclusiveBufferSampler {
    const g: Graph
    const vertexBegin: nat
    const vertexEnd: nat
    const units: array<nat>
    const headers: array<Header>
    ghost var drawn: seq<seq<nat>>   // per vertex, the neighbours drawn since the last clear
    ghost var served: seq<seq<nat>>  // per vertex, the neighbours handed out since the last clear

    ghost predicate Shape()
      reads this
    {
      && g.Valid() && vertexBegin <= vertexEnd <= |g.adj|
      && headers.Length == |drawn| == |served| == vertexEnd - vertexBegin
      && units.Length == Begin(g, vertexBegin, vertexEnd - vertexBegin) < TWO32
    }

    /** The k-th vertex's stretch, its cursors and the neighbours still to be read. */
    ghost predicate Slot(k: nat)
      requires Shape() && k < headers.Length
      reads this, units, headers
    {
      var h := headers[k];
      && h.end == Begin(g, vertexBegin, k + 1) <= units.Length
      && Begin(g, vertexBegin, k) <= h.head <= h.end
      && (forall j :: h.head <= j < h.end ==> units[j] in g.Neighbors(vertexBegin + k))
      && drawn[k] == served[k] + units[h.head..h.end]
    }

    ghost predicate Valid()
      reads this, units, headers
    {
      Shape() && forall k :: 0 <= k < headers.Length ==> Slot(k)
    }

    ghost function Books(): Account
      reads this
    {
      Account(drawn, served)
    }

    /** What is left to read for the k-th vertex. */
    ghost function Queue(k: nat): seq<nat>
      requires Shape() && k < headers.Length && Slot(k)
      reads this, units, headers
    {
      units[headers[k].head..headers[k].end]
    }

    constructor (b: nat, e: nat, g: Graph)
      requires g.Valid() && b <= e <= |g.adj|
      requires Begin(g, b, e - b) < TWO32
      ensures Valid() && vertexBegin == b && vertexEnd == e && this.g == g
      ensures fresh(units) && fresh(headers)
      ensures forall k :: 0 <= k < e - b ==> Queue(k) == drawn[k] == served[k] == []
    {
      vertexBegin, vertexEnd, this.g := b, e, g;
      var total := 0;
      for v := b to e
        invariant total == Begin(g, b, v - b)
      {
        total := total + BufferLength(g.adj[v].degree);
      }
      units := new nat[total];
      headers := new Header[e - b](_ => Header(0, 0));
      drawn, served := seq(e - b, _ => []), seq(e - b, _ => []);
      new;
      hide Begin, BufferLength, Graph.Valid;
      InitHeaders();
    }

    /** Cuts the unit array into the vertices' stretches; every one starts out empty. */
    method InitHeaders()
      requires Shape()
      requires forall k :: 0 <= k < headers.Length ==> drawn[k] == served[k] == []
      modifies headers
      ensures Valid()
      ensures forall k :: 0 <= k < headers.Length ==> Queue(k) == []
    {
      hide Graph.Valid, BufferLength;
      var p := 0;
      for k := 0 to headers.Length
        invariant p == Begin(g, vertexBegin, k)
        invariant forall i :: 0 <= i < k ==> Slot(i) && headers[i].head == headers[i].end
      {
        BeginMono(g, vertexBegin, k, k + 1);
        BeginMono(g, vertexBegin, k + 1, headers.Length);
        var end := (p + BufferLength(g.adj[vertexBegin + k].degree)) % TWO32;
        headers[k] := Header(end, end);
        p := end;
      }
    }

    /** Throws away what is left to read. */
    method Clear()
      requires Valid()
      modifies headers, `drawn, `served
      ensures Valid()
      ensures forall k :: 0 <= k < headers.Length ==> Queue(k) == drawn[k] == served[k] == []
    {
      hide Begin, Graph.Valid;
      drawn, served := seq(headers.Length, _ => []), seq(headers.Length, _ => []);
      for k := 0 to headers.Length
        invariant Shape()
        invariant forall i :: 0 <= i < headers.Length ==> drawn[i] == served[i] == []
        invariant forall i :: 0 <= i < k ==> Slot(i) && headers[i].head == headers[i].end
        invariant forall i :: k <= i < headers.Length ==> headers[i] == old(headers[i])
      {
        assert old(Slot(k));
        headers[k] := headers[k].(head := headers[k].end);
      }
    }

    /** Two vertices' stretches do not overlap. */
    lemma Apart(k: nat, i: nat)
      requires Shape() && k < headers.Length && i < headers.Length && i != k
      ensures Begin(g, vertexBegin, i + 1) <= Begin(g, vertexBegin, k)
        || Begin(g, vertexBegin, k + 1) <= Begin(g, vertexBegin, i)
    {
      if i < k {
        BeginMono(g, vertexBegin, i + 1, k);
      } else {
        BeginMono(g, vertexBegin, k + 1, i);
      }
    }

    /** Writing only inside the k-th stretch leaves the i-th vertex's slot as it was. */
    twostate lemma StretchKept(new k: nat, new i: nat)
      requires Shape() && k < headers.Length && i < headers.Length && i != k
      requires old(Shape() && Slot(i))
      requires unchanged(headers) && unchanged(this)
      requires forall j :: 0 <= j < units.Length && !(Begin(g, vertexBegin, k) <= j < Begin(g, vertexBegin, k + 1)) ==>
        units[j] == old(units[j])
      ensures Slot(i) && Queue(i) == old(Queue(i))
    {
      hide Begin, Graph.Valid, Graph.Neighbors;
      Apart(k, i);
      KeepSlice(old(units[..]), units[..], headers[i].head, headers[i].end);
    }

    /** The drawing loop: n neighbours of v go to units[begin..begin + n). */
    method DrawUnits(v: nat, rd: Rand, begin: nat, n: nat)
      requires g.Valid() && v < |g.adj|
      requires g.ListOk(g.adj[v])
      requires begin + n <= units.Length
      modifies units, rd
      ensures units[begin..begin + n] == Draws(g, v, rd, old(rd.pos), n)
      ensures forall j :: 0 <= j < units.Length && !(begin <= j < begin + n) ==> units[j] == old(units[j])
      ensures rd.pos == old(rd.pos) + n && rd.realAt == old(rd.realAt)
    {
      hide Graph.Valid;
      var a := g.adj[v];
      ghost var ds := Draws(g, v, rd, rd.pos, n);
      for i := 0 to n
        invariant forall j :: 0 <= j < i ==> units[begin + j] == ds[j]
        invariant forall j :: 0 <= j < units.Length && !(begin <= j < begin + i) ==> units[j] == old(units[j])
        invariant rd.pos == old(rd.pos) + i && rd.realAt == old(rd.realAt)
      {
        var r := rd.Gen(a.degree);
        units[begin + i] := g.edges[a.socket][a.begin + r];
      }
    }

    /** Fills the k-th vertex's empty stretch; until its head moves nothing can be read there. */
    method DrawStretch(k: nat, rd: Rand)
      requires Valid() && k < headers.Length && Queue(k) == []
      modifies units, rd
      ensures Valid()
      ensures units[Begin(g, vertexBegin, k)..headers[k].end]
           == Draws(g, vertexBegin + k, rd, old(rd.pos), BufferLength(g.adj[vertexBegin + k].degree))
      ensures rd.pos == old(rd.pos) + BufferLength(g.adj[vertexBegin + k].degree) && rd.realAt == old(rd.realAt)
      ensures forall i :: 0 <= i < headers.Length ==> Queue(i) == old(Queue(i))
    {
      var v := vertexBegin + k;
      assert g.ListOk(g.adj[v]);
      hide Begin, BufferLength, Graph.Valid, Draws, Graph.Neighbors, Graph.ListOk;
      assert Slot(k);
      NextBegin(g, vertexBegin, k);
      var begin := headers[k].end - BufferLength(g.adj[v].degree);
      var fill := headers[k].head - begin;
      DrawUnits(v, rd, begin, fill);
      assert Slot(k) && units[headers[k].head..headers[k].end] == [];
      forall i | 0 <= i < headers.Length && i != k
        ensures Slot(i) && Queue(i) == old(Queue(i))
      {
        StretchKept(k, i);
      }
    }

    /** Draws a whole buffer for the k-th vertex, whose buffer is empty. */
    method Fill(k: nat, rd: Rand)
      requires Valid() && k < headers.Length && Queue(k) == []
      modifies units, headers, `drawn, rd
      ensures Valid() && served == old(served)
      ensures Queue(k) == Draws(g, vertexBegin + k, rd, old(rd.pos), BufferLength(g.adj[vertexBegin + k].degree))
      ensures drawn == old(drawn)[k := old(drawn[k]) + Queue(k)]
      ensures rd.pos == old(rd.pos) + BufferLength(g.adj[vertexBegin + k].degree) && rd.realAt == old(rd.realAt)
      ensures forall i :: 0 <= i < headers.Length && i != k ==> Queue(i) == old(Queue(i))
    {
      hide Begin, BufferLength, Graph.Valid, Graph.Neighbors;
      assert g.ListOk(g.adj[vertexBegin + k]) by { Listed(k); }
      assert Slot(k);
      NextBegin(g, vertexBegin, k);
      DrawStretch(k, rd);
      label before:
      ghost var ds := units[Begin(g, vertexBegin, k)..headers[k].end];
      assert Slot(k);
      headers[k] := headers[k].(head := headers[k].end - BufferLength(g.adj[vertexBegin + k].degree));
      drawn := drawn[k := drawn[k] + ds];
      forall i | 0 <= i < headers.Length && i != k
        ensures Slot(i)
      {
        assert old@before(Slot(i));
      }
    }

    lemma Listed(k: nat)
      requires Shape() && k < headers.Length
      ensures g.ListOk(g.adj[vertexBegin + k])
    {
    }

    /** Hands out the neighbour at the head of the k-th vertex's buffer. */
    method Take(k: nat) returns (ret: nat)
      requires Valid() && k < headers.Length && Queue(k) != []
      modifies headers, `served
      ensures Valid()
      ensures ret in g.Neighbors(vertexBegin + k)
      ensures old(Queue(k)) == [ret] + Queue(k)
      ensures served == old(served)[k := old(served[k]) + [ret]]
      ensures forall i :: 0 <= i < headers.Length && i != k ==> Queue(i) == old(Queue(i))
    {
      hide Begin, BufferLength, Graph.Valid, Graph.Neighbors;
      assert Slot(k);
      var idx := headers[k].head;
      ret := units[idx];
      headers[k] := headers[k].(head := idx + 1);
      served := served[k := served[k] + [ret]];
      assert units[idx..headers[k].end] == [ret] + units[idx + 1..headers[k].end];
      forall i | 0 <= i < headers.Length && i != k
        ensures Slot(i)
      {
        assert old(Slot(i));
      }
    }

    /**
     * Hands out the next neighbour of v, drawing a new buffer first when the old one is used up. The
     * neighbours handed out, followed by those left to read, are the ones drawn, in order.
     */
    method Sample(v: nat, rd: Rand) returns (ret: nat)
      requires Valid() && vertexBegin <= v < vertexEnd
      modifies units, headers, `drawn, `served, rd
      ensures Valid()
      ensures ret in g.Neighbors(v)
      ensures var k := v - vertexBegin;
              var len := BufferLength(g.adj[v].degree);
              var had := old(Queue(k)) != [];
              var queue := if had then old(Queue(k)) else Draws(g, v, rd, old(rd.pos), len);
              && queue == [ret] + Queue(k)
              && rd.pos == old(rd.pos) + (if had then 0 else len) && rd.realAt == old(rd.realAt)
      ensures rd.pos == old(rd.pos) || ret == g.Neighbors(v)[rd.Draw(old(rd.pos), |g.Neighbors(v)|)]
      ensures Entered(g, rd, vertexBegin, v, old(rd.pos), rd.pos, ret, old(Books()), Books())
      ensures forall i :: 0 <= i < headers.Length && i != v - vertexBegin ==> Queue(i) == old(Queue(i))
    {
      var k := v - vertexBegin;
      ghost var from := rd.pos;
      hide Begin, Graph.Valid, Graph.Neighbors, BufferLength, Entered;
      assert Slot(k);
      Listed(k);
      if headers[k].head == headers[k].end {
        assert Queue(k) == [];
        Fill(k, rd);
      }
      ghost var queue := Queue(k);
      ret := Take(k);
      assert ret == queue[0];
      IsEntered(g, rd, vertexBegin, v, from, rd.pos - from, ret, old(Books()), Books());
    }
  }

  lemma KeepSlice(a: seq<nat>, b: seq<nat>, lo: nat, hi: nat)
    requires |a| == |b| && lo <= hi <= |a|
    requires forall j :: lo <= j < hi ==> a[j] == b[j]
    ensures a[lo..hi] == b[lo..hi]
  {
  }

  lemma NextBegin(g: Graph, b: nat, k: nat)
    requires b + k < |g.adj|
    ensures Begin(g, b, k + 1) == Begin(g, b, k) + BufferLength(g.adj[b + k].degree)
  {
  }
}
