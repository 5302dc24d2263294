/** `ThreadSafeMemoryPool`: block geometry, the regions that move blocks between a thread's
    cache and the global list, and the class that performs them in place.
    A block is its address. */
module MemoryPools {

  /** `alignof(std::max_align_t)` */
  const MAX_ALIGN: nat := 16

  function AlignBlockSize(s: nat): (r: nat)
    ensures r % MAX_ALIGN == 0 && s <= r < s + MAX_ALIGN
  {
    ((s + MAX_ALIGN - 1) / MAX_ALIGN) * MAX_ALIGN
  }

  /** The blocks of one chunk, in carving order. */
  function ChunkBlocks(base: int, blockSize: nat, n: nat): (r: seq<int>)
    ensures |r| == n
  {
    if n == 0 then [] else ChunkBlocks(base, blockSize, n - 1) + [base + (n - 1) * blockSize]
  }

  lemma {:induction false} ChunkBlockAt(base: int, blockSize: nat, n: nat, i: nat)
    requires i < n
    ensures ChunkBlocks(base, blockSize, n)[i] == base + i * blockSize
  {
    if i < n - 1 {
      ChunkBlockAt(base, blockSize, n - 1, i);
    }
  }

  function Min(a: nat, b: nat): nat {
    if a <= b then a else b
  }

  /** Repeated `to.push_back(from.back()); from.pop_back()`. */
  function Move(n: nat, from: seq<int>, to: seq<int>): (r: (seq<int>, seq<int>))
    requires n <= |from|
    ensures r.0 == from[..|from| - n]
    ensures |r.1| == |to| + n
  {
    if n == 0 then (from, to)
    else Move(n - 1, from[..|from| - 1], to + [from[|from| - 1]])
  }

  /** `taken` are the last blocks of `from`, last first. */
  predicate LastFirst(from: seq<int>, taken: seq<int>) {
    |taken| <= |from| && forall i | 0 <= i < |taken| :: taken[i] == from[|from| - 1 - i]
  }

  /** Exactly the last `n` blocks move, and they arrive last first. */
  lemma {:induction false} MoveIs(n: nat, from: seq<int>, to: seq<int>)
    requires n <= |from|
    ensures var r := Move(n, from, to);
            r.0 == from[..|from| - n] && |r.1| == |to| + n && r.1[..|to|] == to && LastFirst(from, r.1[|to|..])
  {
    if n > 0 {
      var last := from[|from| - 1];
      MoveIs(n - 1, from[..|from| - 1], to + [last]);
      var r := Move(n, from, to).1;
      assert r[..|to| + 1] == to + [last];
      assert r[..|to|] == r[..|to| + 1][..|to|];
      forall i | 0 <= i < n ensures r[|to|..][i] == from[|from| - 1 - i] {
        if i == 0 {
          assert r[|to|] == r[..|to| + 1][|to|];
        } else {
          assert r[|to|..][i] == r[|to| + 1..][i - 1];
        }
      }
    }
  }

  lemma {:induction false} MoveConserves(n: nat, from: seq<int>, to: seq<int>)
    requires n <= |from|
    ensures multiset(Move(n, from, to).0) + multiset(Move(n, from, to).1) == multiset(from) + multiset(to)
  {
    if n > 0 {
      var last := from[|from| - 1];
      assert from == from[..|from| - 1] + [last];
      MoveConserves(n - 1, from[..|from| - 1], to + [last]);
    }
  }

  /** (global list, cache) after `refillLocalFromGlobal`. */
  function RefillRegion(limit: nat, free: seq<int>, cache: seq<int>): (seq<int>, seq<int>) {
    Move(Min(limit, |free|), free, cache)
  }

  /** (cache, global list) after `flushLocalToGlobal`. */
  function FlushRegion(limit: nat, cache: seq<int>, free: seq<int>): (seq<int>, seq<int>) {
    if |cache| > limit then Move(|cache| - limit, cache, free) else (cache, free)
  }

  lemma {:induction false} MoveOneMore(n: nat, from: seq<int>, to: seq<int>)
    requires n < |from|
    ensures var (f, t) := Move(n, from, to);
            Move(n + 1, from, to) == (f[..|f| - 1], t + [f[|f| - 1]])
  {
    if n > 0 {
      MoveOneMore(n - 1, from[..|from| - 1], to + [from[|from| - 1]]);
    }
  }

  /** The calling thread's `thread_local` vector. */
  class Cache {
    var blocks: seq<int>
  }

  class ThreadSafeMemoryPool {
    const blockSize: nat
    const blocksPerChunk: nat
    const localCacheLimit: nat
    var globalFreeList: seq<int>
    var chunks: seq<int>

    constructor (size: nat, perChunk: nat, limit: nat)
      requires size > 0
      ensures blockSize == AlignBlockSize(size) && blocksPerChunk == perChunk && localCacheLimit == limit
      ensures globalFreeList == [] && chunks == []
    {
      blockSize, blocksPerChunk, localCacheLimit := AlignBlockSize(size), perChunk, limit;
      globalFreeList, chunks := [], [];
    }

    method RefillLocalFromGlobal(local: Cache)
      modifies this, local
      ensures (globalFreeList, local.blocks) ==
              RefillRegion(localCacheLimit, old(globalFreeList), old(local.blocks))
      ensures chunks == old(chunks)
      ensures var n := if |old(globalFreeList)| < localCacheLimit then |old(globalFreeList)| else localCacheLimit;
              && globalFreeList == old(globalFreeList)[..|old(globalFreeList)| - n]
              && |local.blocks| == |old(local.blocks)| + n && old(local.blocks) <= local.blocks
              && LastFirst(old(globalFreeList), local.blocks[|old(local.blocks)|..])
    {
      MoveIs(Min(localCacheLimit, |globalFreeList|), globalFreeList, local.blocks);
      var toMove := Min(localCacheLimit, |globalFreeList|);
      for i := 0 to toMove
        invariant (globalFreeList, local.blocks) == Move(i, old(globalFreeList), old(local.blocks))
        invariant chunks == old(chunks)
      {
        MoveOneMore(i, old(globalFreeList), old(local.blocks));
        local.blocks := local.blocks + [globalFreeList[|globalFreeList| - 1]];
        globalFreeList := globalFreeList[..|globalFreeList| - 1];
      }
    }

    method FlushLocalToGlobal(local: Cache)
      modifies this, local
      ensures (local.blocks, globalFreeList) ==
              FlushRegion(localCacheLimit, old(local.blocks), old(globalFreeList))
      ensures chunks == old(chunks)
      ensures |old(local.blocks)| <= localCacheLimit ==>
                local.blocks == old(local.blocks) && globalFreeList == old(globalFreeList)
      ensures |old(local.blocks)| > localCacheLimit ==>
                && local.blocks == old(local.blocks)[..localCacheLimit] && old(globalFreeList) <= globalFreeList
                && |globalFreeList| + localCacheLimit == |old(globalFreeList)| + |old(local.blocks)|
                && LastFirst(old(local.blocks), globalFreeList[|old(globalFreeList)|..])
    {
      if |local.blocks| > localCacheLimit {
        MoveIs(|local.blocks| - localCacheLimit, local.blocks, globalFreeList);
      }
      ghost var n := 0;
      while |local.blocks| > localCacheLimit
        invariant n <= |old(local.blocks)|
        invariant |old(local.blocks)| <= localCacheLimit ==> n == 0
        invariant |old(local.blocks)| > localCacheLimit ==> |local.blocks| >= localCacheLimit
        invariant (local.blocks, globalFreeList) == Move(n, old(local.blocks), old(globalFreeList))
        invariant chunks == old(chunks)
        decreases |local.blocks|
      {
        MoveOneMore(n, old(local.blocks), old(globalFreeList));
        globalFreeList := globalFreeList + [local.blocks[|local.blocks| - 1]];
        local.blocks := local.blocks[..|local.blocks| - 1];
        n := n + 1;
      }
    }

    /** `chunk` is the address that `operator new` returned. */
    method AllocateChunkToLocal(local: Cache, chunk: int)
      modifies this, local
      ensures local.blocks == old(local.blocks) + ChunkBlocks(chunk, blockSize, blocksPerChunk)
      ensures chunks == old(chunks) + [chunk]
      ensures globalFreeList == old(globalFreeList)
    {
      chunks := chunks + [chunk];
      for i := 0 to blocksPerChunk
        invariant local.blocks == old(local.blocks) + ChunkBlocks(chunk, blockSize, i)
        invariant chunks == old(chunks) + [chunk]
        invariant globalFreeList == old(globalFreeList)
      {
        local.blocks := local.blocks + [chunk + i * blockSize];
      }
    }

    /** Without interference: the newest block of the cache; if there is none, of those the
        refill brings; if there is none, of a new chunk. */
    method Allocate(local: Cache, chunk: int) returns (p: int)
      requires blocksPerChunk > 0
      modifies this, local
      ensures old(local.blocks) != [] ==>
                local.blocks + [p] == old(local.blocks) && globalFreeList == old(globalFreeList) && chunks == old(chunks)
      ensures old(local.blocks) == [] && Min(localCacheLimit, |old(globalFreeList)|) > 0 ==>
                var n := Min(localCacheLimit, |old(globalFreeList)|);
                && globalFreeList == old(globalFreeList)[..|old(globalFreeList)| - n] && chunks == old(chunks)
                && |local.blocks| == n - 1 && LastFirst(old(globalFreeList), local.blocks + [p])
      ensures old(local.blocks) == [] && Min(localCacheLimit, |old(globalFreeList)|) == 0 ==>
                && chunks == old(chunks) + [chunk] && globalFreeList == old(globalFreeList)
                && local.blocks + [p] == ChunkBlocks(chunk, blockSize, blocksPerChunk)
    {
      if |local.blocks| == 0 {
        RefillLocalFromGlobal(local);
        if |local.blocks| == 0 {
          AllocateChunkToLocal(local, chunk);
        }
      }
      p := local.blocks[|local.blocks| - 1];
      ghost var full := local.blocks;
      local.blocks := local.blocks[..|local.blocks| - 1];
      assert full == local.blocks + [p];
    }

    /** Without interference: the block becomes the newest of the cache; a cache past twice its
        limit keeps its oldest blocks, up to the limit.  A null pointer is ignored. */
    method Deallocate(local: Cache, p: int, isNull: bool)
      modifies this, local
      ensures chunks == old(chunks)
      ensures isNull ==> local.blocks == old(local.blocks) && globalFreeList == old(globalFreeList)
      ensures !isNull && |old(local.blocks)| + 1 <= 2 * localCacheLimit ==>
                local.blocks == old(local.blocks) + [p] && globalFreeList == old(globalFreeList)
      ensures !isNull && |old(local.blocks)| + 1 > 2 * localCacheLimit ==>
                var full := old(local.blocks) + [p];
                && local.blocks == full[..localCacheLimit] && old(globalFreeList) <= globalFreeList
                && |globalFreeList| + localCacheLimit == |old(globalFreeList)| + |full|
                && LastFirst(full, globalFreeList[|old(globalFreeList)|..])
    {
      if isNull { return; }
      local.blocks := local.blocks + [p];
      if |local.blocks| > localCacheLimit * 2 {
        FlushLocalToGlobal(local);
      }
    }
  }
}
