/**
 * How walkers are divided among sockets and threads: WalkerManager::init of src/core/walker.hpp, and
 * the clamping of the ranges to a smaller walker count in MessageManager::shuffle (src/core/message.hpp).
 */
module WalkerRanges {
  import opened Arith
  import opened Message
  import opened Shuffling

  // PageSize and MemoryDataAlignment over the two bytes of partition_id_t.
  const PAGE_WALKERS: nat := 2048
  const CHUNK_WALKERS: nat := 32

  /** The ranges [b[k], e[k]) follow one another from `from` to n. Some may be empty. */
  ghost predicate Chain(b: seq<nat>, e: seq<nat>, from: nat, n: nat) {
    && |b| == |e| && (if |b| == 0 then from == n else b[0] == from && e[|e| - 1] == n)
    && (forall k :: 0 <= k < |b| ==> b[k] <= e[k])
    && (forall k :: 0 < k < |b| ==> Meets(b, e, k))
  }

  ghost predicate Meets(b: seq<nat>, e: seq<nat>, k: nat)
    requires 0 < k < |b| == |e|
  {
    b[k] == e[k - 1]
  }

  lemma Extend(b: seq<nat>, e: seq<nat>, from: nat, n: nat, m: nat)
    requires Chain(b, e, from, n) && n <= m
    ensures Chain(b + [n], e + [m], from, m)
  {
    forall k | 0 < k < |b| + 1
      ensures Meets(b + [n], e + [m], k)
    {
      if k < |b| {
        assert Meets(b, e, k);
      }
    }
  }

  lemma Append(b: seq<nat>, e: seq<nat>, b': seq<nat>, e': seq<nat>, from: nat, mid: nat, n: nat)
    requires Chain(b, e, from, mid) && Chain(b', e', mid, n)
    ensures Chain(b + b', e + e', from, n)
  {
    forall k | 0 < k < |b| + |b'|
      ensures Meets(b + b', e + e', k)
    {
      if k < |b| {
        assert Meets(b, e, k);
      } else if |b| < k {
        assert Meets(b', e', k - |b|);
      }
    }
  }

  ghost function Sizes(b: seq<nat>, e: seq<nat>): (r: seq<nat>)
    requires |b| == |e| && forall k :: 0 <= k < |b| ==> b[k] <= e[k]
    ensures |r| == |b| && forall k :: 0 <= k < |b| ==> r[k] == e[k] - b[k]
  {
    seq<nat>(|b|, k requires 0 <= k < |b| => e[k] - b[k])
  }

  /** The ranges together are as long as what they tile. */
  lemma {:induction false} ChainTotal(b: seq<nat>, e: seq<nat>, from: nat, n: nat, k: nat)
    requires Chain(b, e, from, n) && k <= |b|
    ensures Total(Sizes(b, e)[..k]) + from == if k == 0 then from else e[k - 1]
    decreases k
  {
    if k != 0 {
      ChainTotal(b, e, from, n, k - 1);
      assert Sizes(b, e)[..k][..k - 1] == Sizes(b, e)[..k - 1];
      assert 1 < k ==> Meets(b, e, k - 1);
    }
  }

  /** The begin of the range is a multiple of u, or the range is empty. */
  ghost predicate Aligned(u: nat, b: seq<nat>, e: seq<nat>)
    requires 0 < u && |b| == |e|
  {
    forall k :: 0 <= k < |b| ==> b[k] % u == 0 || b[k] == e[k]
  }

  /** n / parts, rounded down to a multiple of u. */
  function Hint(n: nat, parts: nat, u: nat): (h: nat)
    requires 0 < parts && 0 < u
    ensures h % u == 0 && parts * h <= n < parts * (h + u)
  {
    var h := n / parts / u * u;
    HintBounds(n, parts, u, h);
    h
  }

  lemma HintBounds(n: nat, parts: nat, u: nat, h: nat)
    requires 0 < parts && 0 < u && h == n / parts / u * u
    ensures h % u == 0 && parts * h <= n < parts * (h + u)
  {
    var d := n / parts;
    MultipleOf(d / u, u);
    DivBounds(n, parts);
    DivBounds(d, u);
    MulMono(h, d, parts);
    assert (d / u + 1) * u == h + u;
    MulMono(d + 1, h + u, parts);
  }

  lemma MultipleOf(q: nat, u: nat)
    requires 0 < u
    ensures q * u % u == 0
  {
    DivBounds(q * u, u);
    DivUnique(q * u, u, q);
  }

  lemma AddMultiple(a: nat, b: nat, u: nat)
    requires 0 < u && a % u == 0 && b % u == 0
    ensures (a + b) % u == 0
  {
    var qa, qb := a / u, b / u;
    assert a == qa * u && b == qb * u;
    assert a + b == (qa + qb) * u;
    MultipleOf(qa + qb, u);
  }

  /** The k-th of equal shares starts k shares in, at a multiple of u. */
  lemma ShareStart(from: nat, hint: nat, k: nat, u: nat)
    requires 0 < u && from % u == 0 && hint % u == 0
    ensures (from + k * hint) % u == 0
  {
    var q := hint / u;
    assert hint == q * u;
    assert k * hint == (k * q) * u;
    MultipleOf(k * q, u);
    AddMultiple(from, k * hint, u);
  }

  /** The k-th of `parts` ranges starts k hints into [from, from + size), as far as that lasts. */
  ghost predicate Share(b: seq<nat>, e: seq<nat>, k: nat, from: nat, size: nat, parts: nat, hint: nat)
    requires k < |b| == |e|
  {
    && b[k] == from + Min(k * hint, size)
    && e[k] == (if k + 1 == parts then from + size else from + Min((k + 1) * hint, size))
  }

  /**
   * The dealing loop of both levels: `parts` ranges of `hint` walkers from `from` on, as far as they
   * last, the rest to the last one. The subtraction from `remain` never wraps.
   */
  method Deal(from: nat, size: nat, parts: nat, hint: nat, ghost u: nat) returns (b: seq<nat>, e: seq<nat>)
    requires 0 < parts && 0 < u && from % u == 0 && hint % u == 0
    ensures |b| == parts && Chain(b, e, from, from + size) && Aligned(u, b, e)
    ensures forall k :: 0 <= k < parts ==> Share(b, e, k, from, size, parts, hint)
    ensures parts * hint <= size ==> forall k :: 0 <= k < parts ==> b[k] % u == 0
  {
    b, e := [], [];
    var remain: nat := size;
    for k := 0 to parts
      invariant remain <= size && (k == parts ==> remain == 0)
      invariant |b| == k && Chain(b, e, from, from + size - remain) && Aligned(u, b, e)
      invariant k == parts || remain == Max(0, size - k * hint)
      invariant forall i :: 0 <= i < k ==> Share(b, e, i, from, size, parts, hint)
      invariant parts * hint <= size ==> forall i :: 0 <= i < k ==> b[i] % u == 0
    {
      var num: nat := if k + 1 == parts then remain else Min(hint, remain);
      var begin: nat := if k == 0 then from else e[k - 1];
      ShareStart(from, hint, k, u);
      MulMono(k, parts, hint);
      assert (k + 1) * hint == k * hint + hint;
      Extend(b, e, from, begin, begin + num);
      ghost var b0, e0 := b, e;
      remain := remain - num;
      b, e := b + [begin], e + [begin + num];
      forall i | 0 <= i < k + 1
        ensures Share(b, e, i, from, size, parts, hint)
      {
        assert i < k ==> Share(b0, e0, i, from, size, parts, hint);
      }
    }
  }

  /** Thread i of socket s starts where its socket's walkers, dealt in hints, have come to. */
  ghost predicate ThreadStart(tb: seq<nat>, i: nat, first: nat, b: nat, e: nat, hint: nat)
    requires first <= i < |tb|
  {
    tb[i] == b + Min((i - first) * hint, e - b)
  }

  ghost predicate SocketDealt(tb: seq<nat>, s: nat, perSocket: nat, b: nat, e: nat, hint: nat) {
    && (s + 1) * perSocket <= |tb| && b <= e
    && forall i :: s * perSocket <= i < (s + 1) * perSocket ==> ThreadStart(tb, i, s * perSocket, b, e, hint)
  }

  /** Where thread i's range begins. */
  function ThreadBegin(n: nat, socketNum: nat, perSocket: nat, i: nat): nat
    requires 0 < socketNum && 0 < perSocket
  {
    var s, hint := i / perSocket, Hint(n, socketNum, PAGE_WALKERS);
    var b: nat, e := s * hint, if s + 1 == socketNum then n else (s + 1) * hint;
    var dealt: nat := i % perSocket * Hint(n, socketNum * perSocket, CHUNK_WALKERS);
    b + Min(dealt, Max(0, e - b))
  }

  function ThreadBegins(n: nat, socketNum: nat, perSocket: nat): (tb: seq<nat>)
    requires 0 < socketNum && 0 < perSocket
    ensures |tb| == socketNum * perSocket
    ensures forall i :: 0 <= i < |tb| ==> tb[i] == ThreadBegin(n, socketNum, perSocket, i)
  {
    seq(socketNum * perSocket, i requires 0 <= i < socketNum * perSocket => ThreadBegin(n, socketNum, perSocket, i))
  }

  /** Every range ends where the next one begins. */
  function ThreadEnds(n: nat, socketNum: nat, perSocket: nat): (te: seq<nat>)
    requires 0 < socketNum && 0 < perSocket
    ensures |te| == socketNum * perSocket
  {
    assert 0 < socketNum * perSocket;
    ThreadBegins(n, socketNum, perSocket)[1..] + [n]
  }

  /** What init deals are these ranges. */
  lemma DealtAre(n: nat, socketNum: nat, perSocket: nat, sb: seq<nat>, se: seq<nat>, tb: seq<nat>, te: seq<nat>)
    requires 0 < socketNum && 0 < perSocket && |sb| == |se| == socketNum && |tb| == |te| == socketNum * perSocket
    requires Chain(sb, se, 0, n) && Chain(tb, te, 0, n)
    requires forall s :: 0 <= s < socketNum ==> sb[s] == s * Hint(n, socketNum, PAGE_WALKERS)
    requires forall s :: 0 <= s < socketNum ==>
      SocketDealt(tb, s, perSocket, sb[s], se[s], Hint(n, socketNum * perSocket, CHUNK_WALKERS))
    ensures tb == ThreadBegins(n, socketNum, perSocket) && te == ThreadEnds(n, socketNum, perSocket)
  {
    hide Hint;
    forall i | 0 <= i < |tb|
      ensures tb[i] == ThreadBegin(n, socketNum, perSocket, i)
    {
      SocketOfThread(i, socketNum, perSocket);
      var s := i / perSocket;
      assert SocketDealt(tb, s, perSocket, sb[s], se[s], Hint(n, socketNum * perSocket, CHUNK_WALKERS));
      assert ThreadStart(tb, i, s * perSocket, sb[s], se[s], Hint(n, socketNum * perSocket, CHUNK_WALKERS));
      assert s + 1 < socketNum ==> Meets(sb, se, s + 1);
    }
    forall i | 0 <= i < |te|
      ensures te[i] == ThreadEnds(n, socketNum, perSocket)[i]
    {
      assert i + 1 < |te| ==> Meets(tb, te, i + 1);
    }
  }

  lemma SocketOfThread(i: nat, socketNum: nat, perSocket: nat)
    requires 0 < perSocket && i < socketNum * perSocket
    ensures 0 <= i / perSocket < socketNum && i / perSocket * perSocket <= i < (i / perSocket + 1) * perSocket
    ensures i - i / perSocket * perSocket == i % perSocket
  {
    DivBounds(i, perSocket);
    DivUnique(0, perSocket, 0);
    DivMono(0, i, perSocket);
    if socketNum <= i / perSocket {
      MulMono(socketNum, i / perSocket, perSocket);
    }
  }

  /** The thread's begin lies in its socket's share. */
  lemma BeginInShare(n: nat, socketNum: nat, perSocket: nat, i: nat)
    requires 0 < socketNum && 0 < perSocket && i < socketNum * perSocket
    ensures var s, hint := i / perSocket, Hint(n, socketNum, PAGE_WALKERS);
            && 0 <= s * hint <= ThreadBegin(n, socketNum, perSocket, i)
            && ThreadBegin(n, socketNum, perSocket, i) <= (if s + 1 == socketNum then n else (s + 1) * hint) <= n
  {
    hide Hint;
    var s, hint := i / perSocket, Hint(n, socketNum, PAGE_WALKERS);
    SocketOfThread(i, socketNum, perSocket);
    MulMono(s, s + 1, hint);
    MulMono(s + 1, socketNum, hint);
  }

  lemma BeginsRise(n: nat, socketNum: nat, perSocket: nat, i: nat)
    requires 0 < socketNum && 0 < perSocket && i + 1 < socketNum * perSocket
    ensures ThreadBegin(n, socketNum, perSocket, i) <= ThreadBegin(n, socketNum, perSocket, i + 1)
  {
    var s, r := i / perSocket, i % perSocket;
    SocketOfThread(i, socketNum, perSocket);
    SocketOfThread(i + 1, socketNum, perSocket);
    assert (s + 1) * perSocket == s * perSocket + perSocket;
    if r + 1 < perSocket {
      DivUnique(i + 1, perSocket, s);
      MulMono(r, r + 1, Hint(n, socketNum * perSocket, CHUNK_WALKERS));
    } else {
      assert (s + 2) * perSocket == s * perSocket + perSocket + perSocket;
      DivUnique(i + 1, perSocket, s + 1);
      hide Hint, ThreadBegin;
      BeginInShare(n, socketNum, perSocket, i);
      BeginInShare(n, socketNum, perSocket, i + 1);
    }
  }

  /** The ranges tile the walkers. */
  lemma RangesChain(n: nat, socketNum: nat, perSocket: nat)
    requires 0 < socketNum && 0 < perSocket
    ensures Chain(ThreadBegins(n, socketNum, perSocket), ThreadEnds(n, socketNum, perSocket), 0, n)
  {
    var b, e := ThreadBegins(n, socketNum, perSocket), ThreadEnds(n, socketNum, perSocket);
    assert 0 < |b| by { MulMono(1, socketNum, perSocket); }
    assert b[0] == 0 by {
      DivUnique(0, perSocket, 0);
      DivBounds(0, perSocket);
      BeginInShare(n, socketNum, perSocket, 0);
    }
    hide ThreadBegin;
    forall k | 0 <= k < |b|
      ensures b[k] <= e[k]
    {
      if k + 1 < |b| {
        BeginsRise(n, socketNum, perSocket, k);
      } else {
        BeginInShare(n, socketNum, perSocket, k);
      }
    }
  }

  /**
   * init: the sockets share [0, n), every one from a page boundary on, and each socket's threads share
   * its range. The thread ranges, in thread order, again tile [0, n).
   */
  method InitRanges(n: nat, socketNum: nat, threadNum: nat)
    returns (sb: seq<nat>, se: seq<nat>, tb: seq<nat>, te: seq<nat>)
    requires 0 < socketNum && 0 < threadNum && threadNum % socketNum == 0
    ensures |sb| == socketNum && Chain(sb, se, 0, n) && forall s :: 0 <= s < socketNum ==> sb[s] % 2048 == 0
    ensures forall s :: 0 <= s < socketNum ==> sb[s] == s * Hint(n, socketNum, 2048)
    ensures |tb| == threadNum && Chain(tb, te, 0, n) && Aligned(32, tb, te)
    ensures forall s :: 0 <= s < socketNum ==>
      SocketDealt(tb, s, threadNum / socketNum, sb[s], se[s], Hint(n, threadNum, 32))
    ensures 0 < threadNum / socketNum && tb == ThreadBegins(n, socketNum, threadNum / socketNum)
    ensures te == ThreadEnds(n, socketNum, threadNum / socketNum)
  {
    hide Hint, Aligned;
    sb, se := Deal(0, n, socketNum, Hint(n, socketNum, PAGE_WALKERS), PAGE_WALKERS);
    SocketStarts(sb, se, n, socketNum, Hint(n, socketNum, PAGE_WALKERS));
    PerSocket(threadNum, socketNum);
    tb, te := [], [];
    NoneAligned(CHUNK_WALKERS);
    ghost var filled := 0;
    hide SocketDealt, Share, Chain;
    ChainStart();
    for s := 0 to socketNum
      invariant |tb| == filled == s * (threadNum / socketNum)
      invariant Chain(tb, te, 0, if s == 0 then 0 else se[s - 1]) && Aligned(CHUNK_WALKERS, tb, te)
      invariant forall r :: 0 <= r < s ==>
        SocketDealt(tb, r, threadNum / socketNum, sb[r], se[r], Hint(n, threadNum, CHUNK_WALKERS))
    {
      ghost var before := tb;
      tb, te := DealSocket(n, sb, se, threadNum / socketNum, Hint(n, threadNum, CHUNK_WALKERS), s, tb, te);
      assert (s + 1) * (threadNum / socketNum) == filled + threadNum / socketNum;
      forall r | 0 <= r < s
        ensures SocketDealt(tb, r, threadNum / socketNum, sb[r], se[r], Hint(n, threadNum, CHUNK_WALKERS))
      {
        DealtStays(before, tb, r, threadNum / socketNum, sb[r], se[r], Hint(n, threadNum, CHUNK_WALKERS));
      }
      filled := |tb|;
    }
    ChainEnd(sb, se, n);
    DealtAre(n, socketNum, threadNum / socketNum, sb, se, tb, te);
  }

  lemma ChainStart()
    ensures Chain([], [], 0, 0)
  {
  }

  lemma ChainEnd(b: seq<nat>, e: seq<nat>, n: nat)
    requires Chain(b, e, 0, n) && 0 < |b|
    ensures e[|e| - 1] == n
  {
  }

  lemma DealtStays(before: seq<nat>, tb: seq<nat>, s: nat, perSocket: nat, b: nat, e: nat, hint: nat)
    requires SocketDealt(before, s, perSocket, b, e, hint) && before <= tb
    ensures SocketDealt(tb, s, perSocket, b, e, hint)
  {
    forall i | s * perSocket <= i < (s + 1) * perSocket
      ensures ThreadStart(tb, i, s * perSocket, b, e, hint)
    {
      assert ThreadStart(before, i, s * perSocket, b, e, hint);
    }
  }

  lemma SocketStarts(sb: seq<nat>, se: seq<nat>, n: nat, socketNum: nat, hint: nat)
    requires |sb| == |se| == socketNum && socketNum * hint <= n
    requires forall k :: 0 <= k < socketNum ==> Share(sb, se, k, 0, n, socketNum, hint)
    ensures forall s :: 0 <= s < socketNum ==> sb[s] == s * hint
  {
    forall s | 0 <= s < socketNum
      ensures sb[s] == s * hint
    {
      assert Share(sb, se, s, 0, n, socketNum, hint);
      MulMono(s, socketNum, hint);
    }
  }

  lemma NoneAligned(u: nat)
    requires 0 < u
    ensures Aligned(u, [], [])
  {
  }

  lemma PerSocket(threadNum: nat, socketNum: nat)
    requires 0 < socketNum && 0 < threadNum && threadNum % socketNum == 0
    ensures 0 < threadNum / socketNum && socketNum * (threadNum / socketNum) == threadNum
  {
    DivBounds(threadNum, socketNum);
  }

  /** One socket's threads. */
  method DealSocket(n: nat, sb: seq<nat>, se: seq<nat>, perSocket: nat, hint: nat, s: nat, tb0: seq<nat>, te0: seq<nat>)
    returns (tb: seq<nat>, te: seq<nat>)
    requires 0 < perSocket && s < |sb| == |se| && sb[s] % PAGE_WALKERS == 0 && hint % CHUNK_WALKERS == 0
    requires Chain(sb, se, 0, n) && Chain(tb0, te0, 0, if s == 0 then 0 else se[s - 1])
    requires Aligned(CHUNK_WALKERS, tb0, te0)
    requires |tb0| == s * perSocket
    ensures tb0 <= tb && |tb| == |tb0| + perSocket
    ensures Chain(tb, te, 0, se[s]) && Aligned(CHUNK_WALKERS, tb, te)
    ensures SocketDealt(tb, s, perSocket, sb[s], se[s], hint)
  {
    assert 0 < s ==> Meets(sb, se, s);
    PageIsChunk(sb[s]);
    var b, e := Deal(sb[s], se[s] - sb[s], perSocket, hint, CHUNK_WALKERS);
    Append(tb0, te0, b, e, 0, sb[s], se[s]);
    tb, te := tb0 + b, te0 + e;
    assert (s + 1) * perSocket == |tb0| + perSocket;
    forall i | s * perSocket <= i < (s + 1) * perSocket
      ensures ThreadStart(tb, i, s * perSocket, sb[s], se[s], hint)
    {
      assert Share(b, e, i - |tb0|, sb[s], se[s] - sb[s], perSocket, hint);
    }
  }

  lemma PageIsChunk(x: nat)
    requires x % PAGE_WALKERS == 0
    ensures x % CHUNK_WALKERS == 0
  {
    MultipleOf(x / PAGE_WALKERS * 64, CHUNK_WALKERS);
  }

  /** With every socket starting at a page boundary, so does its share of an array of 2-byte multiples. */
  lemma PageStart(begin: nat, halfSize: nat)
    requires begin % PAGE_WALKERS == 0
    ensures 2 * halfSize * begin % 4096 == 0
  {
    var q := begin / PAGE_WALKERS;
    assert begin == q * PAGE_WALKERS;
    assert 2 * halfSize * begin == (halfSize * q) * 4096;
    MultipleOf(halfSize * q, 4096);
  }

  // ----- Clamping -----

  lemma {:induction false} ChainOrdered(b: seq<nat>, e: seq<nat>, from: nat, n: nat, j: nat, k: nat)
    requires Chain(b, e, from, n) && j <= k < |b|
    ensures e[j] <= e[k] <= n && b[j] <= b[k]
    decreases |b| - j
  {
    if j < k {
      assert Meets(b, e, j + 1);
      ChainOrdered(b, e, from, n, j + 1, k);
    } else if k + 1 < |b| {
      assert Meets(b, e, k + 1);
      ChainOrdered(b, e, from, n, k + 1, |b| - 1);
    }
  }

  /** Task k's range cut to the walkers below `active`. */
  ghost predicate Cut(t: MessageTask, b: nat, e: nat, active: nat)
    reads t
  {
    t.originBegin == Min(b, active) && t.originEnd == Min(e, active)
  }

  ghost predicate Whole(t: MessageTask, b: nat, e: nat)
    reads t
  {
    t.originBegin == b && t.originEnd == e
  }

  /** The clamping loop of one socket: from its last thread down, up to the first range that needs no cut. */
  method ClampSocket(tasks: seq<MessageTask>, base: nat, perSocket: nat, active: nat, ghost b: seq<nat>,
                     ghost e: seq<nat>, ghost n: nat)
    requires base + perSocket <= |tasks| == |b| && Chain(b, e, 0, n)
    requires forall j, k :: 0 <= j < k < |tasks| ==> tasks[j] != tasks[k]
    requires forall k :: 0 <= k < base ==> Cut(tasks[k], b[k], e[k], active)
    requires forall k :: base <= k < |tasks| ==> Whole(tasks[k], b[k], e[k])
    modifies tasks
    ensures forall k :: 0 <= k < base + perSocket ==> Cut(tasks[k], b[k], e[k], active)
    ensures forall k :: base + perSocket <= k < |tasks| ==> Whole(tasks[k], b[k], e[k])
  {
    var t := perSocket;
    while 0 < t
      invariant 0 <= t <= perSocket
      invariant forall k :: 0 <= k < base || base + t <= k < base + perSocket ==> Cut(tasks[k], b[k], e[k], active)
      invariant forall k :: base <= k < base + t || base + perSocket <= k < |tasks| ==> Whole(tasks[k], b[k], e[k])
    {
      t := t - 1;
      var mt := tasks[base + t];
      assert Whole(mt, b[base + t], e[base + t]);
      if mt.originEnd > active {
        mt.originEnd := active;
        mt.originBegin := Min(mt.originBegin, active);
      } else {
        forall k | base <= k <= base + t
          ensures Cut(tasks[k], b[k], e[k], active)
        {
          ChainOrdered(b, e, 0, n, k, base + t);
        }
        return;
      }
    }
  }

  /** Cutting a chain leaves a chain, of what is left. */
  lemma CutTeam(tasks: seq<MessageTask>, partitionNum: nat, n: nat, active: nat, b: seq<nat>, e: seq<nat>)
    requires 0 < |tasks| == |b| && Chain(b, e, 0, n) && active <= n
    requires forall k :: 0 <= k < |tasks| ==>
      Cut(tasks[k], b[k], e[k], active) && tasks[k].partitionNum == partitionNum && tasks[k].Holds(b[k], e[k])
    requires forall j, k :: 0 <= j < k < |tasks| ==> Strangers(tasks[j], tasks[k])
    ensures Team(tasks, partitionNum, active)
  {
    forall k | 0 < k < |tasks|
      ensures Joined(tasks, k)
    {
      assert Meets(b, e, k);
    }
  }

  ghost function Begins(tasks: seq<MessageTask>): (b: seq<nat>)
    reads tasks
    ensures |b| == |tasks| && forall k :: 0 <= k < |b| ==> b[k] == tasks[k].originBegin
  {
    if tasks == [] then [] else Begins(tasks[..|tasks| - 1]) + [tasks[|tasks| - 1].originBegin]
  }

  ghost function Ends(tasks: seq<MessageTask>): (e: seq<nat>)
    reads tasks
    ensures |e| == |tasks| && forall k :: 0 <= k < |e| ==> e[k] == tasks[k].originEnd
  {
    if tasks == [] then [] else Ends(tasks[..|tasks| - 1]) + [tasks[|tasks| - 1].originEnd]
  }

  lemma TeamChain(tasks: seq<MessageTask>, partitionNum: nat, n: nat)
    requires Team(tasks, partitionNum, n)
    ensures Chain(Begins(tasks), Ends(tasks), 0, n)
  {
    hide Begins, Ends;
    var b, e := Begins(tasks), Ends(tasks);
    forall k | 0 < k < |b|
      ensures Meets(b, e, k)
    {
      assert Joined(tasks, k);
    }
    assert forall k :: 0 <= k < |b| ==> tasks[k].Valid();
  }

  /** The clamping loops of all sockets. */
  method ClampRanges(tasks: seq<MessageTask>, socketNum: nat, perSocket: nat, active: nat, ghost b: seq<nat>,
                     ghost e: seq<nat>, ghost n: nat)
    requires |b| == |e| == |tasks| == socketNum * perSocket && Chain(b, e, 0, n)
    requires forall j, k :: 0 <= j < k < |tasks| ==> tasks[j] != tasks[k]
    requires forall k :: 0 <= k < |tasks| ==> Whole(tasks[k], b[k], e[k])
    modifies tasks
    ensures forall k :: 0 <= k < |tasks| ==> Cut(tasks[k], b[k], e[k], active)
  {
    hide Chain, Cut, Whole;
    var base := 0;
    for s := 0 to socketNum
      invariant base == s * perSocket <= |tasks|
      invariant forall k :: 0 <= k < base ==> Cut(tasks[k], b[k], e[k], active)
      invariant forall k :: base <= k < |tasks| ==> Whole(tasks[k], b[k], e[k])
    {
      MulMono(s + 1, socketNum, perSocket);
      assert (s + 1) * perSocket == s * perSocket + perSocket;
      ClampSocket(tasks, base, perSocket, active, b, e, n);
      base := base + perSocket;
    }
  }

  /**
   * Despite the early exits, every range is cut to the active walkers, so the ranges tile exactly those.
   */
  method ClampAll(tasks: seq<MessageTask>, socketNum: nat, perSocket: nat, active: nat, ghost partitionNum: nat,
                  ghost n: nat)
    requires Team(tasks, partitionNum, n) && |tasks| == socketNum * perSocket && active <= n
    modifies tasks
    ensures Team(tasks, partitionNum, active)
    ensures forall k :: 0 <= k < |tasks| ==>
      Cut(tasks[k], old(tasks[k].originBegin), old(tasks[k].originEnd), active)
  {
    ghost var b, e := Begins(tasks), Ends(tasks);
    TeamChain(tasks, partitionNum, n);
    assert forall k :: 0 <= k < |tasks| ==>
      tasks[k].Valid() && tasks[k].Holds(b[k], e[k]) && Whole(tasks[k], b[k], e[k]);
    assert forall j, k :: 0 <= j < k < |tasks| ==> Strangers(tasks[j], tasks[k]);
    hide Begins, Ends, Chain, MessageTask.Holds, Team, MessageTask.Own, Cut, Whole;
    ClampRanges(tasks, socketNum, perSocket, active, b, e, n);
    CutTeam(tasks, partitionNum, n, active, b, e);
  }
}
