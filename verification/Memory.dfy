/**
 * The bump allocator of include/memory.hpp: a MemoryCounter adds up the requests, and a Memory of that
 * size replays them.
 */
module Memory {
  import opened Options

  // CacheLineSize.
  const ALIGNMENT: nat := 64

  /** get_aligned_size: up to the next multiple of the alignment. */
  function RoundUp(size: nat): (r: nat)
    ensures size <= r < size + 64 && r % 64 == 0
  {
    if size % ALIGNMENT != 0 then size + (ALIGNMENT - size % ALIGNMENT) else size
  }

  /** A request, with its size in bytes: na_alloc, al_alloc, or just align. */
  datatype Request = Plain(size: nat) | Aligned(size: nat) | Pad

  datatype Block = Block(offset: nat, size: nat)

  class MemoryCounter {
    var dataSize: nat
    var aligned: bool

    ghost predicate Valid()
      reads this
    {
      aligned ==> dataSize % ALIGNMENT == 0
    }

    constructor ()
      ensures Valid() && dataSize == 0 && aligned
    {
      dataSize, aligned := 0, true;
    }

    method NaAlloc(size: nat)
      requires Valid()
      modifies this
      ensures Valid() && dataSize == old(dataSize) + size && !aligned
    {
      dataSize, aligned := dataSize + size, false;
    }

    method Align()
      requires Valid()
      modifies this
      ensures Valid() && dataSize == RoundUp(old(dataSize)) && aligned
    {
      dataSize, aligned := RoundUp(dataSize), true;
    }

    method AlAlloc(size: nat)
      requires Valid()
      modifies this
      ensures Valid() && dataSize == RoundUp(old(dataSize) + size) && aligned
    {
      NaAlloc(size);
      Align();
    }

    method Count(r: Request)
      requires Valid()
      modifies this
      ensures Valid() && dataSize == Next(old(dataSize), r) && aligned == !r.Plain?
    {
      match r
      case Plain(size) => NaAlloc(size);
      case Aligned(size) => AlAlloc(size);
      case Pad => Align();
    }
  }

  /** Where the counter stands after a request. */
  function Next(at: nat, r: Request): (n: nat)
    ensures at <= n
  {
    match r
    case Plain(size) => at + size
    case Aligned(size) => RoundUp(at + size)
    case Pad => RoundUp(at)
  }

  /** Where it stands after all of them. */
  function EndOf(rs: seq<Request>): nat {
    if rs == [] then 0 else Next(EndOf(rs[..|rs| - 1]), rs[|rs| - 1])
  }

  /** What a request gets when the counter stands at `at`. */
  function BlockAt(at: nat, r: Request): Block {
    Block(at, if r.Pad? then 0 else r.size)
  }

  lemma {:induction false} EndGrows(rs: seq<Request>, i: nat, j: nat)
    requires i <= j <= |rs|
    ensures EndOf(rs[..i]) <= EndOf(rs[..j])
    decreases j
  {
    if i < j {
      EndGrows(rs, i, j - 1);
      assert rs[..j][..j - 1] == rs[..j - 1];
    }
  }

  lemma EndStep(rs: seq<Request>, k: nat)
    requires k < |rs|
    ensures EndOf(rs[..k + 1]) == Next(EndOf(rs[..k]), rs[k])
  {
    assert rs[..k + 1][..k] == rs[..k];
  }

  /** The first pass. */
  method CountAll(rs: seq<Request>) returns (c: MemoryCounter)
    ensures fresh(c) && c.Valid() && c.dataSize == EndOf(rs)
    ensures c.aligned <==> rs == [] || !rs[|rs| - 1].Plain?
  {
    c := new MemoryCounter();
    for k := 0 to |rs|
      invariant fresh(c) && c.Valid() && c.dataSize == EndOf(rs[..k])
      invariant c.aligned <==> k == 0 || !rs[k - 1].Plain?
    {
      EndStep(rs, k);
      c.Count(rs[k]);
    }
    assert rs[..|rs|] == rs;
  }

  class Memory {
    const dataSize: nat
    const counter: MemoryCounter

    ghost predicate Valid()
      reads this, counter
    {
      counter.Valid()
    }

    constructor (counted: MemoryCounter)
      requires counted.Valid()
      ensures Valid() && fresh(counter) && counter.dataSize == 0 && counter.aligned
      ensures dataSize == counted.dataSize
    {
      dataSize := counted.dataSize;
      counter := new MemoryCounter();
    }

    /** The block's offset; `ok` is the source's check that the memory is large enough. */
    method Alloc(r: Request) returns (b: Block, ok: bool)
      requires Valid()
      modifies counter
      ensures Valid()
      ensures b == BlockAt(old(counter.dataSize), r)
      ensures counter.dataSize == Next(old(counter.dataSize), r)
      ensures ok <==> counter.dataSize <= dataSize
    {
      b := BlockAt(counter.dataSize, r);
      counter.Count(r);
      ok := counter.dataSize <= dataSize;
    }
  }

  /** get_memory: the counted size must be aligned. */
  method GetMemory(counted: MemoryCounter) returns (m: Option<Memory>)
    requires counted.Valid()
    ensures m.Some? <==> counted.aligned
    ensures m.Some? ==> fresh(m.value) && fresh(m.value.counter) && m.value.Valid()
    ensures m.Some? ==> m.value.counter.dataSize == 0 && m.value.dataSize == counted.dataSize
  {
    if !counted.aligned {
      return None;
    }
    var memory := new Memory(counted);
    m := Some(memory);
  }

  /** Block k of a replay. */
  ghost predicate Placed(rs: seq<Request>, blocks: seq<Block>, k: nat)
    requires k < |rs| && k < |blocks|
  {
    && blocks[k].offset == EndOf(rs[..k]) && blocks[k].size == (if rs[k].Pad? then 0 else rs[k].size)
    && blocks[k].offset + blocks[k].size <= EndOf(rs[..k + 1])
  }

  /** The second pass: no check fails, and the memory is used up exactly. */
  method Replay(m: Memory, rs: seq<Request>) returns (blocks: seq<Block>, ok: bool)
    requires m.Valid() && m.counter.dataSize == 0 && m.dataSize == EndOf(rs)
    modifies m.counter
    ensures ok && |blocks| == |rs| && m.counter.dataSize == m.dataSize
    ensures forall k :: 0 <= k < |blocks| ==> Placed(rs, blocks, k)
  {
    blocks, ok := [], true;
    for k := 0 to |rs|
      invariant ok && m.Valid() && |blocks| == k && m.counter.dataSize == EndOf(rs[..k])
      invariant forall i :: 0 <= i < k ==> Placed(rs, blocks, i)
    {
      EndStep(rs, k);
      EndGrows(rs, k + 1, |rs|);
      assert rs[..|rs|] == rs;
      var b;
      b, ok := m.Alloc(rs[k]);
      ghost var before := blocks;
      blocks := blocks + [b];
      forall i | 0 <= i < k + 1
        ensures Placed(rs, blocks, i)
      {
        assert i < k ==> Placed(rs, before, i);
      }
    }
    assert rs[..|rs|] == rs;
  }

  /** The blocks of a replay lie within the memory and never overlap. */
  lemma BlocksDisjoint(rs: seq<Request>, blocks: seq<Block>, i: nat, j: nat)
    requires |blocks| == |rs| && i < j < |rs|
    requires Placed(rs, blocks, i) && Placed(rs, blocks, j)
    ensures blocks[i].offset + blocks[i].size <= blocks[j].offset
    ensures blocks[j].offset + blocks[j].size <= EndOf(rs)
  {
    EndGrows(rs, i + 1, j);
    EndGrows(rs, j + 1, |rs|);
    assert rs[..|rs|] == rs;
  }

  /** The bytes requested by na_alloc since the counter was last aligned. */
  function Loose(rs: seq<Request>): nat {
    if rs == [] || !rs[|rs| - 1].Plain? then 0 else Loose(rs[..|rs| - 1]) + rs[|rs| - 1].size
  }

  lemma SameRemainder(a: nat, b: nat, s: nat)
    requires a % ALIGNMENT == b % ALIGNMENT
    ensures (a + s) % ALIGNMENT == (b + s) % ALIGNMENT
  {
    var r := (b + s) % ALIGNMENT;
    var q := a / ALIGNMENT - b / ALIGNMENT + (b + s) / ALIGNMENT;
    assert a + s == q * ALIGNMENT + r;
  }

  lemma {:induction false} EndRemainder(rs: seq<Request>)
    ensures EndOf(rs) % ALIGNMENT == Loose(rs) % ALIGNMENT
  {
    if rs != [] && rs[|rs| - 1].Plain? {
      var m := |rs| - 1;
      EndRemainder(rs[..m]);
      SameRemainder(EndOf(rs[..m]), Loose(rs[..m]), rs[m].size);
    }
  }

  /**
   * A block starts at a multiple of the alignment exactly when the unaligned requests since the last
   * alignment add up to one; an al_alloc only aligns what comes after it.
   */
  lemma BlockAlignedIff(rs: seq<Request>, blocks: seq<Block>, k: nat)
    requires |blocks| == |rs| && k < |rs| && Placed(rs, blocks, k)
    ensures blocks[k].offset % 64 == 0 <==> Loose(rs[..k]) % 64 == 0
  {
    EndRemainder(rs[..k]);
  }

  /** One byte by na_alloc, then an al_alloc: the aligned request gets offset 1. */
  lemma AlAllocMayBeUnaligned()
    ensures forall blocks: seq<Block> ::
      |blocks| == 2 && Placed([Plain(1), Aligned(8)], blocks, 1) ==> blocks[1].offset == 1
  {
    var rs := [Plain(1), Aligned(8)];
    assert rs[..1] == [Plain(1)];
    assert EndOf([Plain(1)]) == 1 by {
      assert [Plain(1)][..0] == [];
    }
  }

  /** Where every request but padding is aligned, as everywhere in the walker's set-up, so is every block. */
  lemma {:induction false} AllAligned(rs: seq<Request>, blocks: seq<Block>, k: nat)
    requires |blocks| == |rs| && k < |rs| && Placed(rs, blocks, k)
    requires forall i :: 0 <= i < |rs| ==> !rs[i].Plain?
    ensures blocks[k].offset % 64 == 0
  {
    BlockAlignedIff(rs, blocks, k);
  }
}
