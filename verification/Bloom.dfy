/** The Bloom filter of include/hash.hpp. A 64-bit table word is the set of its one-bits. */
module Bloom {
  import opened Arith
  import opened Bits

  /** The mixing steps of get_hash, before the mask. */
  function Mix(x: bv64): bv64 {
    var a := (x ^ (x >> 30)) * 0xbf58476d1ce4e5b9;
    var b := (a ^ (a >> 27)) * 0x94d049bb133111eb;
    b ^ (b >> 31)
  }

  /** get_value: both orders of a vertex pair give one 64-bit key. */
  function Key(v1: nat, v2: nat): nat {
    if v1 <= v2 then v1 * TWO32 + v2 else v2 * TWO32 + v1
  }

  lemma KeyFits(v1: nat, v2: nat)
    requires v1 < TWO32 && v2 < TWO32
    ensures Key(v1, v2) < TWO32 * TWO32
    ensures Key(v1, v2) == Key(v2, v1)
  {
  }

  /** The key names the unordered pair. */
  lemma KeyInjective(a: nat, b: nat, c: nat, d: nat)
    requires a < TWO32 && b < TWO32 && c < TWO32 && d < TWO32
    ensures Key(a, b) == Key(c, d) <==> (a == c && b == d) || (a == d && b == c)
  {
  }

  /** get_hash: a table slot among 2^bits. */
  function Hash(bits: nat, key: nat): (h: nat)
    requires key < TWO32 * TWO32
    ensures h < Shl(1, bits)
  {
    Low(Mix(key as bv64) as nat, bits)
  }

  /** The i-th 16-bit word of a key. */
  function Word(key: nat, i: nat): nat {
    if i == 0 then key % 0x1_0000 else Word(key / 0x1_0000, i - 1)
  }

  ghost function Sum1(key: nat, i: nat): nat {
    if i == 0 then 0 else (Sum1(key, i - 1) + Word(key, i - 1)) % 65535
  }

  ghost function Sum2(key: nat, i: nat): nat {
    if i == 0 then 0 else (Sum2(key, i - 1) + Sum1(key, i)) % 65535
  }

  /** The signature bits the first n words set, one per word, from the running Fletcher sums. */
  ghost function SignatureBits(key: nat, n: nat): (s: set<nat>)
    ensures forall x :: x in s ==> x < 64
    ensures 0 < n ==> s != {}
  {
    if n == 0 then {} else SignatureBits(key, n - 1) + {Sum2(key, n) % 64}
  }

  ghost function Signature(key: nat): set<nat> {
    SignatureBits(key, 4)
  }

  method GetBloom(key: nat) returns (res: set<nat>)
    ensures res == Signature(key)
  {
    res := {};
    var sum1, sum2, i := 0, 0, 0;
    while i < 4
      invariant 0 <= i <= 4
      invariant sum1 == Sum1(key, i) && sum2 == Sum2(key, i)
      invariant res == SignatureBits(key, i)
    {
      sum1 := (sum1 + Word(key, i)) % 65535;
      sum2 := (sum2 + sum1) % 65535;
      res := res + {sum2 % 64};
      i := i + 1;
    }
  }

  /** The least power of two, from 4 up, above a quarter of the items. */
  ghost predicate CapacityFor(itemNum: nat, bits: nat, capacity: nat) {
    capacity == Shl(1, bits) && 2 <= bits && itemNum / 4 < capacity && (capacity == 4 || capacity / 2 <= itemNum / 4)
  }

  /** cal_hash_table_capacity. */
  method Capacity(itemNum: nat) returns (bits: nat, capacity: nat)
    ensures CapacityFor(itemNum, bits, capacity)
    ensures capacity == Shl(1, bits) && 4 <= capacity && itemNum / 4 < capacity
    ensures 4 < capacity ==> capacity / 2 <= itemNum / 4
  {
    bits, capacity := 2, 4;
    while capacity <= itemNum / 4
      invariant capacity == Shl(1, bits) && 2 <= bits
      invariant capacity == 4 || capacity / 2 <= itemNum / 4
      decreases itemNum - capacity
    {
      bits, capacity := bits + 1, capacity * 2;
    }
  }

  class BloomFilter {
    const bits: nat
    const table: array<set<nat>>
    ghost var keys: set<nat>  // the keys inserted so far

    /** A bit of a word is set exactly when some inserted key hashes to the word and has the bit. */
    ghost predicate WordOk(h: nat)
      requires h < table.Length
      requires forall k :: k in keys ==> k < TWO32 * TWO32
      reads this, table
    {
      forall x :: x in table[h] <==> exists k :: k in keys && Hash(bits, k) == h && x in Signature(k)
    }

    ghost predicate Valid()
      reads this, table
    {
      && table.Length == Shl(1, bits)
      && (forall k :: k in keys ==> k < TWO32 * TWO32)
      && forall h :: 0 <= h < table.Length ==> WordOk(h)
    }

    constructor (itemNum: nat)
      ensures Valid() && keys == {} && fresh(table) && CapacityFor(itemNum, bits, table.Length)
    {
      var b, capacity := Capacity(itemNum);
      bits := b;
      table := new set<nat>[capacity](_ => {});
      keys := {};
    }

    method Insert(v1: nat, v2: nat)
      requires Valid() && v1 < TWO32 && v2 < TWO32
      modifies this, table
      ensures Valid() && keys == old(keys) + {Key(v1, v2)}
    {
      hide Hash, Signature, Key, Shl;
      KeyFits(v1, v2);
      var key := Key(v1, v2);
      var bloom := GetBloom(key);
      var slot := Hash(bits, key);
      table[slot] := table[slot] + bloom;
      keys := keys + {key};
      forall h | 0 <= h < table.Length
        ensures WordOk(h)
      {
        assert old(WordOk(h));
        forall x
          ensures x in table[h] <==> exists k :: k in keys && Hash(bits, k) == h && x in Signature(k)
        {
          if x in table[h] {
            if x in old(table[h]) {
              var k :| k in old(keys) && Hash(bits, k) == h && x in Signature(k);
              assert k in keys;
            } else {
              assert key in keys && Hash(bits, key) == h && x in Signature(key);
            }
          }
        }
      }
    }

    /** Never false for a pair that was inserted, in either order. */
    method Exist(v1: nat, v2: nat) returns (r: bool)
      requires Valid() && v1 < TWO32 && v2 < TWO32
      ensures r <==> Signature(Key(v1, v2)) <= table[Hash(bits, Key(v1, v2))]
      ensures Key(v1, v2) in keys ==> r
    {
      hide Hash, Signature, Key, Shl;
      KeyFits(v1, v2);
      var key := Key(v1, v2);
      var bloom := GetBloom(key);
      r := bloom <= table[Hash(bits, key)];
      assert WordOk(Hash(bits, key));
    }
  }

  /** A filter denies a pair as long as no inserted one shares its word; so an empty one denies every pair. */
  lemma DeniesUnlessShared(bf: BloomFilter, v1: nat, v2: nat)
    requires bf.Valid() && v1 < TWO32 && v2 < TWO32
    requires forall k :: k in bf.keys ==> k < TWO32 * TWO32 && Hash(bf.bits, k) != Hash(bf.bits, Key(v1, v2))
    ensures Key(v1, v2) < TWO32 * TWO32 && !(Signature(Key(v1, v2)) <= bf.table[Hash(bf.bits, Key(v1, v2))])
  {
    hide Hash, Key, Shl;
    KeyFits(v1, v2);
    var key := Key(v1, v2);
    assert bf.WordOk(Hash(bf.bits, key));
    var x :| x in Signature(key);
  }

  /** The hash of 1 and the signature of the pair (1, 2): splitmix64's finaliser, and Fletcher's sums 2, 4, 7, 10. */
  lemma KnownValues()
    ensures Mix(1) == 0x5692_161d_100b_05e5
    ensures Signature(Key(1, 2)) == {2, 4, 7, 10}
  {
    var k := Key(1, 2);
    assert Word(k, 0) == 2 && Word(k, 1) == 0 && Word(k, 2) == 1 && Word(k, 3) == 0;
    assert Sum1(k, 1) == 2 && Sum1(k, 2) == 2 && Sum1(k, 3) == 3 && Sum1(k, 4) == 3;
    assert Sum2(k, 1) == 2 && Sum2(k, 2) == 4 && Sum2(k, 3) == 7 && Sum2(k, 4) == 10;
    assert SignatureBits(k, 2) == {2, 4};
  }

  /** The table depends only on which keys were inserted, not on their order. */
  lemma OrderIrrelevant(a: BloomFilter, b: BloomFilter)
    requires a.Valid() && b.Valid()
    requires a.bits == b.bits && a.keys == b.keys
    ensures a.table[..] == b.table[..]
  {
    forall h | 0 <= h < a.table.Length
      ensures a.table[h] == b.table[h]
    {
      assert a.WordOk(h) && b.WordOk(h);
      assert forall x :: x in a.table[h] <==> x in b.table[h];
    }
  }
}
