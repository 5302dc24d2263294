/** Exactly which sets of pools always hand out blocks that are large enough, although a thread
    has one cache for all of them. */
module MemoryPoolSizes {
  import opened MemoryPools
  import opened MemoryPoolRuns
  import opened MemoryPoolSharing

  /** Block `b` was carved with at least `size` bytes. */
  ghost predicate CarvedWith(cs: seq<Config>, chunks: seq<Chunk>, b: int, size: nat)
    requires ChunksKnown(cs, chunks)
  {
    exists k | 0 <= k < |Addresses(cs, chunks)| :: Addresses(cs, chunks)[k] == b && Sizes(cs, chunks)[k] >= size
  }

  ghost predicate AlwaysLargeEnough(cs: seq<Config>) {
    forall states: seq<World>, moves: seq<Turn>, i: nat, p: nat, b: int |
      IsPlay(cs, states, moves) && i < |moves| && HandsOut(cs, states[i].threads[moves[i].t], moves[i].a, p, b) ::
      p < |cs| && ChunksKnown(cs, states[i + 1].sh.chunks) && CarvedWith(cs, states[i + 1].sh.chunks, b, cs[p].blockSize)
  }

  /** Some pool has larger blocks than `p`, and a block of `p` can get into a cache. */
  ghost predicate Strays(cs: seq<Config>, p: nat, q: nat)
    requires p < |cs| && q < |cs|
  {
    cs[p].blockSize < cs[q].blockSize && (cs[p].perChunk >= 2 || exists x | 0 <= x < |cs| :: cs[x].limit >= 1)
  }

  ghost predicate SomeStray(cs: seq<Config>) {
    exists p, q | 0 <= p < |cs| && 0 <= q < |cs| :: Strays(cs, p, q)
  }

  // ---------------------------------------------------------------- pools of one size

  lemma CarvedSizeIs(cs: seq<Config>, s: World, b: int, size: nat)
    requires Conserved(cs, s) && b in s.sh.live && forall p | 0 <= p < |cs| :: cs[p].blockSize >= size
    ensures CarvedWith(cs, s.sh.chunks, b, size)
  {
    var k := LiveIsCarved(cs, s, b);
    var chunk := LiesInChunk(cs, s.sh.chunks, k);
  }

  lemma EqualSizesSuffice(cs: seq<Config>, states: seq<World>, moves: seq<Turn>, i: nat, p: nat, b: int)
    requires forall p, q | 0 <= p < |cs| && 0 <= q < |cs| :: cs[p].blockSize >= cs[q].blockSize
    requires IsPlay(cs, states, moves) && i < |moves| && HandsOut(cs, states[i].threads[moves[i].t], moves[i].a, p, b)
    ensures p < |cs| && ChunksKnown(cs, states[i + 1].sh.chunks)
    ensures CarvedWith(cs, states[i + 1].sh.chunks, b, cs[p].blockSize)
  {
    ConservedPlay(cs, states, moves, i);
    ConservedPlay(cs, states, moves, i + 1);
    HandedOut(cs, states[i], moves[i], p, b);
    CarvedSizeIs(cs, states[i + 1], b, cs[p].blockSize);
  }

  // ---------------------------------------------------------------- pools without caching

  /** Nothing freed stays in a cache, and what carving leaves there is of the largest size. */
  ghost predicate KeepsOnlyLargest(cs: seq<Config>) {
    && (forall x | 0 <= x < |cs| :: cs[x].limit == 0)
    && (forall p, q | 0 <= p < |cs| && 0 <= q < |cs| && cs[p].perChunk >= 2 :: cs[q].blockSize <= cs[p].blockSize)
  }

  ghost predicate LargestFor(cs: seq<Config>, chunks: seq<Chunk>, b: int)
    requires ChunksKnown(cs, chunks)
  {
    forall q | 0 <= q < |cs| :: CarvedWith(cs, chunks, b, cs[q].blockSize)
  }

  ghost predicate CacheIsLargest(cs: seq<Config>, chunks: seq<Chunk>, th: Thread)
    requires ChunksKnown(cs, chunks)
  {
    && (!th.at.Bursting? ==> forall i | 0 <= i < |th.cache| :: LargestFor(cs, chunks, th.cache[i]))
    && (th.at.Supplied? ==> th.cache == [])
  }

  lemma StaysCarved(cs: seq<Config>, chunks: seq<Chunk>, chunk: Chunk, b: int, size: nat)
    requires ChunksKnown(cs, chunks) && chunk.p < |cs| && CarvedWith(cs, chunks, b, size)
    ensures CarvedWith(cs, chunks + [chunk], b, size)
  {
    AddressesAppend(cs, chunks, chunk);
    var k :| 0 <= k < |Addresses(cs, chunks)| && Addresses(cs, chunks)[k] == b && Sizes(cs, chunks)[k] >= size;
    assert Addresses(cs, chunks + [chunk])[k] == b && Sizes(cs, chunks + [chunk])[k] >= size;
  }

  lemma FreshIsCarved(cs: seq<Config>, chunks: seq<Chunk>, chunk: Chunk, i: nat)
    requires ChunksKnown(cs, chunks) && chunk.p < |cs| && i < cs[chunk.p].perChunk
    ensures CarvedWith(cs, chunks + [chunk], BlocksOf(cs[chunk.p], chunk.base)[i], cs[chunk.p].blockSize)
  {
    AddressesAppend(cs, chunks, chunk);
    var k := |Addresses(cs, chunks)| + i;
    assert Addresses(cs, chunks + [chunk])[k] == BlocksOf(cs[chunk.p], chunk.base)[i];
    assert Sizes(cs, chunks + [chunk])[k] == cs[chunk.p].blockSize;
  }

  lemma StaysLargest(cs: seq<Config>, chunks: seq<Chunk>, chunk: Chunk, b: int)
    requires ChunksKnown(cs, chunks) && chunk.p < |cs| && LargestFor(cs, chunks, b)
    ensures LargestFor(cs, chunks + [chunk], b)
  {
    forall q | 0 <= q < |cs| ensures CarvedWith(cs, chunks + [chunk], b, cs[q].blockSize) {
      StaysCarved(cs, chunks, chunk, b, cs[q].blockSize);
    }
  }

  lemma SmallerCarved(cs: seq<Config>, chunks: seq<Chunk>, b: int, size: nat, size': nat)
    requires ChunksKnown(cs, chunks) && CarvedWith(cs, chunks, b, size) && size' <= size
    ensures CarvedWith(cs, chunks, b, size')
  {
    var k :| 0 <= k < |Addresses(cs, chunks)| && Addresses(cs, chunks)[k] == b && Sizes(cs, chunks)[k] >= size;
  }

  /** What carving leaves in the cache. */
  lemma RemainderIsLargest(cs: seq<Config>, sh: Pools, th: Thread, base: int)
    requires KeepsOnlyLargest(cs) && ChunksKnown(cs, sh.chunks) && CanDo(cs, sh, th, Cut(base)) && th.cache == []
    ensures CacheIsLargest(cs, sh.chunks + [Chunk(th.at.p, base)], DoThread(cs, sh, th, Cut(base)))
  {
    var p := th.at.p;
    var chunk := Chunk(p, base);
    var blocks := BlocksOf(cs[p], base);
    assert th.cache + blocks == blocks;
    forall i, q | 0 <= i < |ButLast(blocks)| && 0 <= q < |cs|
      ensures CarvedWith(cs, sh.chunks + [chunk], ButLast(blocks)[i], cs[q].blockSize)
    {
      FreshIsCarved(cs, sh.chunks, chunk, i);
      SmallerCarved(cs, sh.chunks + [chunk], blocks[i], cs[p].blockSize, cs[q].blockSize);
    }
  }

  lemma OwnCache(cs: seq<Config>, sh: Pools, th: Thread, a: Act)
    requires KeepsOnlyLargest(cs) && ChunksKnown(cs, sh.chunks) && CanDo(cs, sh, th, a) && AtOk(cs, th)
    requires CacheIsLargest(cs, sh.chunks, th) && !a.Cut?
    ensures DoShared(cs, sh, th, a).chunks == sh.chunks && CacheIsLargest(cs, sh.chunks, DoThread(cs, sh, th, a))
  {
    var th' := DoThread(cs, sh, th, a);
    assert a.Fetch? || a.Spill? ==> th'.cache == [];
    assert a.Pop? || a.PopFetched? ==> forall i | 0 <= i < |th'.cache| :: th'.cache[i] == th.cache[i];
  }

  ghost predicate AllLargest(cs: seq<Config>, s: World) {
    && Conserved(cs, s)
    && forall t | 0 <= t < |s.threads| :: CacheIsLargest(cs, s.sh.chunks, s.threads[t])
  }

  lemma OtherCache(cs: seq<Config>, chunks: seq<Chunk>, chunk: Chunk, th: Thread)
    requires ChunksKnown(cs, chunks) && chunk.p < |cs| && CacheIsLargest(cs, chunks, th)
    ensures CacheIsLargest(cs, chunks + [chunk], th)
  {
    if !th.at.Bursting? {
      forall i | 0 <= i < |th.cache| ensures LargestFor(cs, chunks + [chunk], th.cache[i]) {
        StaysLargest(cs, chunks, chunk, th.cache[i]);
      }
    }
  }

  lemma LargestStep(cs: seq<Config>, s: World, m: Turn)
    requires KeepsOnlyLargest(cs) && AllLargest(cs, s) && CanMove(cs, s, m)
    ensures AllLargest(cs, Moved(cs, s, m))
  {
    ConservedStep(cs, s, m);
    var s' := Moved(cs, s, m);
    var th := s.threads[m.t];
    assert AtOk(cs, th);
    forall t | 0 <= t < |s.threads| ensures CacheIsLargest(cs, s'.sh.chunks, s'.threads[t]) {
      assert CacheIsLargest(cs, s.sh.chunks, s.threads[t]);
      if m.a.Cut? {
        if t == m.t {
          RemainderIsLargest(cs, s.sh, th, m.a.base);
        } else {
          OtherCache(cs, s.sh.chunks, Chunk(th.at.p, m.a.base), s.threads[t]);
        }
      } else {
        OwnCache(cs, s.sh, th, m.a);
      }
    }
  }

  lemma {:induction false} LargestPlay(cs: seq<Config>, states: seq<World>, moves: seq<Turn>, i: nat)
    requires KeepsOnlyLargest(cs) && IsPlay(cs, states, moves) && i < |states|
    ensures AllLargest(cs, states[i])
  {
    if i == 0 {
      ConservedStart(cs, states[0]);
    } else {
      LargestPlay(cs, states, moves, i - 1);
      LargestStep(cs, states[i - 1], moves[i - 1]);
    }
  }

  lemma UncachedSuffices(cs: seq<Config>, states: seq<World>, moves: seq<Turn>, i: nat, p: nat, b: int)
    requires KeepsOnlyLargest(cs)
    requires IsPlay(cs, states, moves) && i < |moves| && HandsOut(cs, states[i].threads[moves[i].t], moves[i].a, p, b)
    ensures p < |cs| && ChunksKnown(cs, states[i + 1].sh.chunks)
    ensures CarvedWith(cs, states[i + 1].sh.chunks, b, cs[p].blockSize)
  {
    LargestPlay(cs, states, moves, i);
    ConservedPlay(cs, states, moves, i + 1);
    var s, m := states[i], moves[i];
    var th := s.threads[m.t];
    HandedOut(cs, s, m, p, b);
    assert AtOk(cs, th) && CacheIsLargest(cs, s.sh.chunks, th);
    if m.a.Cut? {
      assert th.cache + BlocksOf(cs[p], m.a.base) == BlocksOf(cs[p], m.a.base);
      FreshIsCarved(cs, s.sh.chunks, Chunk(p, m.a.base), cs[p].perChunk - 1);
    } else {
      assert th.cache[|th.cache| - 1] == b;
      assert LargestFor(cs, s.sh.chunks, b);
    }
  }

  // ---------------------------------------------------------------- a block too small

  lemma Continued(cs: seq<Config>, states: seq<World>, moves: seq<Turn>, m: Turn, next: World)
    requires IsPlay(cs, states, moves) && CanMove(cs, states[|moves|], m) && next == Moved(cs, states[|moves|], m)
    ensures IsPlay(cs, states + [next], moves + [m])
  {
    var states', moves' := states + [next], moves + [m];
    forall i | 0 <= i < |moves'| ensures CanMove(cs, states'[i], moves'[i]) && states'[i + 1] == Moved(cs, states'[i], moves'[i]) {
      if i < |moves| {
        assert states'[i] == states[i] && states'[i + 1] == states[i + 1] && moves'[i] == moves[i];
      }
    }
  }

  ghost function Nothing(cs: seq<Config>): Pools {
    Pools(seq(|cs|, _ => []), [], {})
  }

  /** One thread carves a chunk of pool `p`. */
  ghost function OneChunk(cs: seq<Config>, p: nat): World
    requires AllProper(cs) && p < |cs|
  {
    var blocks := BlocksOf(cs[p], 0);
    World(Nothing(cs).(chunks := [Chunk(p, 0)], live := {Last(blocks)}), [Thread(ButLast(blocks), AtRest)])
  }

  lemma CarvesOne(cs: seq<Config>, p: nat) returns (states: seq<World>, moves: seq<Turn>)
    requires AllProper(cs) && p < |cs|
    ensures IsPlay(cs, states, moves) && states[|moves|] == OneChunk(cs, p)
  {
    var sh := Nothing(cs);
    var blocks := BlocksOf(cs[p], 0);
    assert [] + blocks == blocks;
    states, moves := [World(sh, [Thread([], AtRest)])], [];
    Continued(cs, states, moves, Turn(0, Lack(p)), World(sh, [Thread([], Lacking(p))]));
    states, moves := states + [World(sh, [Thread([], Lacking(p))])], moves + [Turn(0, Lack(p))];
    assert sh.frees[p := []] == sh.frees;
    Continued(cs, states, moves, Turn(0, Fetch), World(sh, [Thread([], Supplied(p))]));
    states, moves := states + [World(sh, [Thread([], Supplied(p))])], moves + [Turn(0, Fetch)];
    Continued(cs, states, moves, Turn(0, Resign), World(sh, [Thread([], Carves(p))]));
    states, moves := states + [World(sh, [Thread([], Carves(p))])], moves + [Turn(0, Resign)];
    Continued(cs, states, moves, Turn(0, Cut(0)), OneChunk(cs, p));
    states, moves := states + [OneChunk(cs, p)], moves + [Turn(0, Cut(0))];
  }

  lemma OnlyChunkSizes(cs: seq<Config>, p: nat, b: int, size: nat)
    requires p < |cs| && cs[p].blockSize < size
    ensures ChunksKnown(cs, [Chunk(p, 0)]) && !CarvedWith(cs, [Chunk(p, 0)], b, size)
  {
    AddressesAppend(cs, [], Chunk(p, 0));
    assert [] + [Chunk(p, 0)] == [Chunk(p, 0)];
  }

  /** The next request, to a pool of larger blocks, gets what is left in the cache. */
  lemma StrayFromCarving(cs: seq<Config>, p: nat, q: nat)
    requires AllProper(cs) && p < |cs| && q < |cs| && cs[p].blockSize < cs[q].blockSize && cs[p].perChunk >= 2
    ensures !AlwaysLargeEnough(cs)
  {
    var states, moves := CarvesOne(cs, p);
    var s, m := OneChunk(cs, p), Turn(0, Pop(q));
    var b := Last(s.threads[0].cache);
    Continued(cs, states, moves, m, Moved(cs, s, m));
    var all, ms := states + [Moved(cs, s, m)], moves + [m];
    var i := |moves|;
    assert HandsOut(cs, all[i].threads[ms[i].t], ms[i].a, q, b);
    OnlyChunkSizes(cs, p, b, cs[q].blockSize);
    assert all[i + 1].sh.chunks == [Chunk(p, 0)];
  }

  /** A block freed by its client waits in the cache for a request of any pool. */
  lemma StrayFromFreeing(cs: seq<Config>, p: nat, q: nat, x: nat)
    requires AllProper(cs) && p < |cs| && q < |cs| && cs[p].blockSize < cs[q].blockSize
    requires cs[p].perChunk == 1 && x < |cs| && cs[x].limit >= 1
    ensures !AlwaysLargeEnough(cs)
  {
    var states, moves := CarvesOne(cs, p);
    var s, f := OneChunk(cs, p), Turn(0, Free(x, Last(BlocksOf(cs[p], 0))));
    var freed := Moved(cs, s, f);
    Continued(cs, states, moves, f, freed);
    states, moves := states + [freed], moves + [f];
    var m := Turn(0, Pop(q));
    var b := Last(freed.threads[0].cache);
    Continued(cs, states, moves, m, Moved(cs, freed, m));
    var all, ms := states + [Moved(cs, freed, m)], moves + [m];
    var i := |moves|;
    assert HandsOut(cs, all[i].threads[ms[i].t], ms[i].a, q, b);
    OnlyChunkSizes(cs, p, b, cs[q].blockSize);
    assert all[i + 1].sh.chunks == [Chunk(p, 0)];
  }

  // ---------------------------------------------------------------- exactly

  /** Pools that share thread caches always hand out blocks at least as large as promised, if and
      only if no pool's blocks can get into a cache while another pool has larger ones. */
  lemma LargeEnoughIff(cs: seq<Config>)
    requires AllProper(cs)
    ensures AlwaysLargeEnough(cs) <==> !SomeStray(cs)
  {
    if SomeStray(cs) {
      var p, q :| 0 <= p < |cs| && 0 <= q < |cs| && Strays(cs, p, q);
      if cs[p].perChunk >= 2 {
        StrayFromCarving(cs, p, q);
      } else {
        var x :| 0 <= x < |cs| && cs[x].limit >= 1;
        assert Proper(cs[p]);
        StrayFromFreeing(cs, p, q, x);
      }
    } else {
      NoStrayMeans(cs);
      forall states: seq<World>, moves: seq<Turn>, i: nat, p: nat, b: int |
        IsPlay(cs, states, moves) && i < |moves| && HandsOut(cs, states[i].threads[moves[i].t], moves[i].a, p, b)
        ensures p < |cs| && ChunksKnown(cs, states[i + 1].sh.chunks)
        ensures CarvedWith(cs, states[i + 1].sh.chunks, b, cs[p].blockSize)
      {
        if KeepsOnlyLargest(cs) {
          UncachedSuffices(cs, states, moves, i, p, b);
        } else {
          EqualSizesSuffice(cs, states, moves, i, p, b);
        }
      }
    }
  }

  lemma NoStrayMeans(cs: seq<Config>)
    requires !SomeStray(cs)
    ensures KeepsOnlyLargest(cs) || forall p, q | 0 <= p < |cs| && 0 <= q < |cs| :: cs[p].blockSize >= cs[q].blockSize
  {
    if p, q :| 0 <= p < |cs| && 0 <= q < |cs| && cs[p].blockSize < cs[q].blockSize {
      assert !Strays(cs, p, q);
      forall p, q | 0 <= p < |cs| && 0 <= q < |cs| && cs[p].perChunk >= 2 ensures cs[q].blockSize <= cs[p].blockSize {
        assert !Strays(cs, p, q);
      }
    }
  }

  // ---------------------------------------------------------------- the manager

  const ALIGN := 8
  const NUM_CLASSES := 512

  /** The pools that `GlobalPoolManager` creates. */
  function ManagerPools(): (cs: seq<Config>)
    ensures |cs| == NUM_CLASSES
    ensures forall i | 0 <= i < NUM_CLASSES :: cs[i] == Config(AlignBlockSize((i + 1) * ALIGN), 1024, 64)
  {
    seq(NUM_CLASSES, i requires 0 <= i < NUM_CLASSES => Config(AlignBlockSize((i + 1) * ALIGN), 1024, 64))
  }

  /** They are mixed: a request may be served with a block that is too small. */
  lemma ManagerBlocksCanBeTooSmall()
    ensures AllProper(ManagerPools()) && !AlwaysLargeEnough(ManagerPools())
  {
    var cs := ManagerPools();
    forall p | 0 <= p < |cs| ensures Proper(cs[p]) {
      assert cs[p].blockSize >= (p + 1) * ALIGN;
    }
    assert cs[0].blockSize == 16 && cs[2].blockSize == 32;
    StrayFromCarving(cs, 0, 2);
  }
}
