/** The built graph (AdjList, AdjUnit of src/core/graph.hpp) and the random draws walkers make on it. */
module Csr {

  /** A vertex's degree, and where its neighbours start: an offset into one socket's edge array. */
  datatype AdjList = AdjList(degree: nat, socket: nat, begin: nat)

  // sizeof(AdjList) and sizeof(AdjUnit).
  const ADJ_LIST_BYTES: nat := 12
  const ADJ_UNIT_BYTES: nat := 4

  datatype Graph = Graph(adj: seq<AdjList>, edges: seq<seq<nat>>) {

    ghost predicate Valid() {
      && (forall v :: 0 <= v < |adj| ==> ListOk(adj[v]))
      && (forall v :: 0 <= v < |adj| ==> NeighborsOk(v))
    }

    /** Every neighbour of v is a vertex. */
    ghost predicate NeighborsOk(v: nat)
      requires v < |adj| && ListOk(adj[v])
    {
      forall i :: 0 <= i < |Neighbors(v)| ==> Neighbors(v)[i] < |adj|
    }

    ghost predicate ListOk(a: AdjList) {
      0 < a.degree && a.socket < |edges| && a.begin + a.degree <= |edges[a.socket]|
    }

    ghost function Neighbors(v: nat): (r: seq<nat>)
      requires v < |adj| && ListOk(adj[v])
      ensures |r| == adj[v].degree
    {
      edges[adj[v].socket][adj[v].begin..adj[v].begin + adj[v].degree]
    }

    ghost predicate Edge(u: nat, v: nat) {
      u < |adj| && ListOk(adj[u]) && v in Neighbors(u)
    }
  }

  /** No edge slot belongs to two vertices' lists. */
  ghost predicate ListsApart(adj: seq<AdjList>) {
    forall u, v :: 0 <= u < v < |adj| && adj[u].socket == adj[v].socket ==> Apart(adj[u], adj[v])
  }

  ghost predicate Apart(a: AdjList, b: AdjList) {
    a.begin + a.degree <= b.begin || b.begin + b.degree <= a.begin
  }

  /** The numbers a generator will produce. */
  datatype Stream = Stream(ints: nat -> nat, reals: nat -> real)

  /**
   * A random generator as the arbitrary streams it will produce. Nothing is known of the streams, so
   * what holds for every Rand holds for every generator, seed and thread.
   */
  class Rand {
    const ints: nat -> nat
    const reals: nat -> real
    var pos: nat
    ghost var realAt: set<nat>   // the positions real numbers were drawn from

    constructor (ints: nat -> nat, reals: nat -> real)
      ensures pos == 0 && realAt == {} && this.ints == ints && this.reals == reals
    {
      this.ints, this.reals := ints, reals;
      pos, realAt := 0, {};
    }

    /** The draw at stream position `at` from [0, bound). */
    function Draw(at: nat, bound: nat): (r: nat)
      requires 0 < bound
      ensures r < bound
    {
      if ints(at) < bound then ints(at) else 0
    }

    /** The real draw at position `at` from [0, bound). */
    function DrawReal(at: nat, bound: real): (r: real)
      requires 0.0 < bound
      ensures 0.0 <= r < bound
    {
      if 0.0 <= reals(at) < bound then reals(at) else 0.0
    }

    method Gen(bound: nat) returns (r: nat)
      requires 0 < bound
      modifies this
      ensures r == Draw(old(pos), bound) && pos == old(pos) + 1 && realAt == old(realAt)
    {
      r := Draw(pos, bound);
      pos := pos + 1;
    }

    method GenFloat(bound: real) returns (r: real)
      requires 0.0 < bound
      modifies this
      ensures r == DrawReal(old(pos), bound) && pos == old(pos) + 1 && realAt == old(realAt) + {old(pos)}
    {
      r := DrawReal(pos, bound);
      realAt := realAt + {pos};
      pos := pos + 1;
    }
  }
}
