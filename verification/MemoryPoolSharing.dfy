/** Any number of pools and threads: a thread has one cache for all pools, because
    `localCache` is static, so blocks wander from pool to pool. */
module MemoryPoolSharing {
  import opened MemoryPools
  import opened MemoryPoolRuns
  import opened MemoryPoolTheorems
  import opened Sums

  /** The pool a thread is serving is part of where it is. */
  datatype At = AtRest | Lacking(p: nat) | Supplied(p: nat) | Carves(p: nat) | Bursting(p: nat)

  datatype Thread = Thread(cache: seq<int>, at: At)

  datatype Chunk = Chunk(p: nat, base: int)

  /** One global list per pool; `live` is what clients hold. */
  datatype Pools = Pools(frees: seq<seq<int>>, chunks: seq<Chunk>, live: set<int>)

  datatype World = World(sh: Pools, threads: seq<Thread>)

  datatype Act =
    | Pop(p: nat)
    | Lack(p: nat)
    | Fetch
    | PopFetched
    | Resign
    | Cut(base: int)
    | Free(p: nat, b: int)   // a client may free through any pool
    | Spill

  ghost predicate AllProper(cs: seq<Config>) {
    forall p | 0 <= p < |cs| :: Proper(cs[p])
  }

  ghost predicate Started(cs: seq<Config>, s: World) {
    && s.sh == Pools(seq(|cs|, _ => []), [], {})
    && forall t | 0 <= t < |s.threads| :: s.threads[t] == Thread([], AtRest)
  }

  /** Storage from `operator new` is aligned and overlaps no chunk of any pool. */
  ghost predicate FreshBase(cs: seq<Config>, chunks: seq<Chunk>, p: nat, base: int)
    requires p < |cs|
  {
    && base % MAX_ALIGN == 0
    && forall k | 0 <= k < |chunks| ::
         chunks[k].p < |cs| &&
         (base + ChunkBytes(cs[p]) <= chunks[k].base || chunks[k].base + ChunkBytes(cs[chunks[k].p]) <= base)
  }

  ghost predicate CanDo(cs: seq<Config>, sh: Pools, th: Thread, a: Act) {
    && |sh.frees| == |cs|
    && match a
       case Pop(p) => th.at.AtRest? && p < |cs| && th.cache != []
       case Lack(p) => th.at.AtRest? && p < |cs| && th.cache == []
       case Fetch => th.at.Lacking? && th.at.p < |cs|
       case PopFetched => th.at.Supplied? && th.at.p < |cs| && th.cache != []
       case Resign => th.at.Supplied? && th.cache == []
       case Cut(base) =>
         th.at.Carves? && th.at.p < |cs| && cs[th.at.p].perChunk > 0 && FreshBase(cs, sh.chunks, th.at.p, base)
       case Free(p, b) => th.at.AtRest? && p < |cs| && b in sh.live
       case Spill => th.at.Bursting? && th.at.p < |cs|
  }

  function BlocksOf(c: Config, base: int): seq<int> {
    ChunkBlocks(base, c.blockSize, c.perChunk)
  }

  ghost function DoThread(cs: seq<Config>, sh: Pools, th: Thread, a: Act): Thread
    requires CanDo(cs, sh, th, a)
  {
    match a
    case Pop(_) => th.(cache := ButLast(th.cache))
    case Lack(p) => th.(at := Lacking(p))
    case Fetch => Thread(RefillRegion(cs[th.at.p].limit, sh.frees[th.at.p], th.cache).1, Supplied(th.at.p))
    case PopFetched => Thread(ButLast(th.cache), AtRest)
    case Resign => th.(at := Carves(th.at.p))
    case Cut(base) => Thread(ButLast(th.cache + BlocksOf(cs[th.at.p], base)), AtRest)
    case Free(p, b) => Thread(th.cache + [b], if |th.cache + [b]| > 2 * cs[p].limit then Bursting(p) else AtRest)
    case Spill => Thread(FlushRegion(cs[th.at.p].limit, th.cache, sh.frees[th.at.p]).0, AtRest)
  }

  ghost function DoShared(cs: seq<Config>, sh: Pools, th: Thread, a: Act): Pools
    requires CanDo(cs, sh, th, a)
  {
    match a
    case Pop(_) => sh.(live := sh.live + {Last(th.cache)})
    case PopFetched => sh.(live := sh.live + {Last(th.cache)})
    case Fetch => sh.(frees := sh.frees[th.at.p := RefillRegion(cs[th.at.p].limit, sh.frees[th.at.p], th.cache).0])
    case Cut(base) =>
      sh.(chunks := sh.chunks + [Chunk(th.at.p, base)], live := sh.live + {Last(th.cache + BlocksOf(cs[th.at.p], base))})
    case Free(_, b) => sh.(live := sh.live - {b})
    case Spill => sh.(frees := sh.frees[th.at.p := FlushRegion(cs[th.at.p].limit, th.cache, sh.frees[th.at.p]).1])
    case _ => sh
  }

  /** The block an action hands to the client, and the pool that was asked. */
  ghost predicate HandsOut(cs: seq<Config>, th: Thread, a: Act, p: nat, b: int) {
    match a
    case Pop(q) => p == q && th.cache != [] && b == Last(th.cache)
    case PopFetched => th.at.Supplied? && p == th.at.p && th.cache != [] && b == Last(th.cache)
    case Cut(base) =>
      th.at.Carves? && p == th.at.p < |cs| && cs[p].perChunk > 0 && b == Last(th.cache + BlocksOf(cs[p], base))
    case _ => false
  }

  // ---------------------------------------------------------------- one pool at a time

  function PcOf(at: At): Pc {
    match at
    case AtRest => Idle
    case Lacking(_) => Missed
    case Supplied(_) => Refilled
    case Carves(_) => Carving
    case Bursting(_) => Overfull
  }

  function ActionOf(a: Act): Action {
    match a
    case Pop(_) => PopCache
    case Lack(_) => Miss
    case Fetch => Refill
    case PopFetched => PopRefilled
    case Resign => GiveUp
    case Cut(base) => Carve(base)
    case Free(_, b) => PushCache(b)
    case Spill => Flush
  }

  /** The pool that is asked, or that the thread is serving. */
  function PoolOf(th: Thread, a: Act): nat {
    match a
    case Pop(p) => p
    case Lack(p) => p
    case Free(p, _) => p
    case _ => if th.at.AtRest? then 0 else th.at.p
  }

  /** Each action is the same action of the single-pool system on the pool asked and on the
      thread's one cache; every other pool's list stays, and the thread stays with its pool. */
  lemma ActsAsItsPool(cs: seq<Config>, sh: Pools, th: Thread, a: Act)
    requires AllProper(cs) && CanDo(cs, sh, th, a) && (th.at.AtRest? || th.at.p < |cs|)
    ensures var p := PoolOf(th, a);
            && p < |cs|
            && var one, local := Shared(sh.frees[p], [], sh.live, 0), Local(th.cache, PcOf(th.at), 0, 0, 0, 0, 0);
               && Can(cs[p], one, local, ActionOf(a))
               && var (one', local') := (ActShared(cs[p], one, local, ActionOf(a)), ActLocal(cs[p], one, local, ActionOf(a)));
                  var (sh', th') := (DoShared(cs, sh, th, a), DoThread(cs, sh, th, a));
                  && th'.cache == local'.cache && PcOf(th'.at) == local'.pc && (!th'.at.AtRest? ==> th'.at.p == p)
                  && sh'.frees == sh.frees[p := one'.free] && sh'.live == one'.live
                  && forall q, b :: HandsOut(cs, th, a, q, b) <==> q == p && Allocated(cs[p], local, ActionOf(a)) == [b]
  {
    var p := PoolOf(th, a);
    assert Proper(cs[p]);
  }

  datatype Turn = Turn(t: nat, a: Act)

  ghost predicate CanMove(cs: seq<Config>, s: World, m: Turn) {
    m.t < |s.threads| && CanDo(cs, s.sh, s.threads[m.t], m.a)
  }

  ghost function Moved(cs: seq<Config>, s: World, m: Turn): World
    requires CanMove(cs, s, m)
  {
    var th := s.threads[m.t];
    World(DoShared(cs, s.sh, th, m.a), s.threads[m.t := DoThread(cs, s.sh, th, m.a)])
  }

  ghost predicate IsPlay(cs: seq<Config>, states: seq<World>, moves: seq<Turn>) {
    && AllProper(cs)
    && |states| == |moves| + 1
    && Started(cs, states[0])
    && forall i | 0 <= i < |moves| :: CanMove(cs, states[i], moves[i]) && states[i + 1] == Moved(cs, states[i], moves[i])
  }

  // ---------------------------------------------------------------- geometry

  ghost predicate ChunksKnown(cs: seq<Config>, chunks: seq<Chunk>) {
    forall k | 0 <= k < |chunks| :: chunks[k].p < |cs|
  }

  /** Every block ever carved, by any pool. */
  ghost function Addresses(cs: seq<Config>, chunks: seq<Chunk>): seq<int>
    requires ChunksKnown(cs, chunks)
  {
    if chunks == [] then []
    else
      var last := chunks[|chunks| - 1];
      Addresses(cs, chunks[..|chunks| - 1]) + BlocksOf(cs[last.p], last.base)
  }

  /** And the size it was carved with. */
  ghost function Sizes(cs: seq<Config>, chunks: seq<Chunk>): (r: seq<nat>)
    requires ChunksKnown(cs, chunks)
    ensures |r| == |Addresses(cs, chunks)|
  {
    if chunks == [] then []
    else
      var c := cs[chunks[|chunks| - 1].p];
      Sizes(cs, chunks[..|chunks| - 1]) + seq(c.perChunk, _ => c.blockSize)
  }

  ghost predicate ChunksApart(cs: seq<Config>, chunks: seq<Chunk>) {
    && ChunksKnown(cs, chunks)
    && (forall k | 0 <= k < |chunks| :: chunks[k].base % MAX_ALIGN == 0)
    && (forall j, k | 0 <= j < k < |chunks| ::
          || chunks[k].base + ChunkBytes(cs[chunks[k].p]) <= chunks[j].base
          || chunks[j].base + ChunkBytes(cs[chunks[j].p]) <= chunks[k].base)
  }

  predicate DisjointBytes(a: int, m: nat, b: int, n: nat) {
    a + m <= b || b + n <= a
  }

  lemma {:induction false} AddressesAppend(cs: seq<Config>, chunks: seq<Chunk>, chunk: Chunk)
    requires ChunksKnown(cs, chunks) && chunk.p < |cs|
    ensures Addresses(cs, chunks + [chunk]) == Addresses(cs, chunks) + BlocksOf(cs[chunk.p], chunk.base)
    ensures Sizes(cs, chunks + [chunk]) == Sizes(cs, chunks) + seq(cs[chunk.p].perChunk, _ => cs[chunk.p].blockSize)
  {
    assert (chunks + [chunk])[..|chunks|] == chunks;
  }

  /** A carved block lies inside a chunk, with the block size of that chunk's pool. */
  lemma {:induction false} LiesInChunk(cs: seq<Config>, chunks: seq<Chunk>, i: nat) returns (k: nat)
    requires AllProper(cs) && ChunksKnown(cs, chunks) && i < |Addresses(cs, chunks)|
    ensures k < |chunks| && Sizes(cs, chunks)[i] == cs[chunks[k].p].blockSize
    ensures chunks[k].base <= Addresses(cs, chunks)[i]
    ensures Addresses(cs, chunks)[i] + Sizes(cs, chunks)[i] <= chunks[k].base + ChunkBytes(cs[chunks[k].p])
  {
    var front, last := chunks[..|chunks| - 1], chunks[|chunks| - 1];
    if i < |Addresses(cs, front)| {
      k := LiesInChunk(cs, front, i);
    } else {
      k := |chunks| - 1;
      BlockInChunk(cs[last.p], last.base, i - |Addresses(cs, front)|);
    }
  }

  lemma {:induction false} CarvedApart(cs: seq<Config>, chunks: seq<Chunk>, i: nat, j: nat)
    requires AllProper(cs) && ChunksApart(cs, chunks) && i < j < |Addresses(cs, chunks)|
    ensures DisjointBytes(Addresses(cs, chunks)[i], Sizes(cs, chunks)[i], Addresses(cs, chunks)[j], Sizes(cs, chunks)[j])
  {
    var front, last := chunks[..|chunks| - 1], chunks[|chunks| - 1];
    var n := |Addresses(cs, front)|;
    var c := cs[last.p];
    if j < n {
      CarvedApart(cs, front, i, j);
    } else if i < n {
      var k := LiesInChunk(cs, front, i);
      BlockInChunk(c, last.base, j - n);
    } else {
      MulBound(i - n, j - n, c.blockSize);
      ChunkBlockAt(last.base, c.blockSize, c.perChunk, i - n);
      ChunkBlockAt(last.base, c.blockSize, c.perChunk, j - n);
    }
  }

  lemma {:induction false} CarvedAligned(cs: seq<Config>, chunks: seq<Chunk>, i: nat)
    requires AllProper(cs) && ChunksApart(cs, chunks) && i < |Addresses(cs, chunks)|
    ensures Addresses(cs, chunks)[i] % MAX_ALIGN == 0
  {
    var front, last := chunks[..|chunks| - 1], chunks[|chunks| - 1];
    var n := |Addresses(cs, front)|;
    if i < n {
      CarvedAligned(cs, front, i);
    } else {
      AlignedMultiple(last.base, i - n, cs[last.p].blockSize);
      ChunkBlockAt(last.base, cs[last.p].blockSize, cs[last.p].perChunk, i - n);
    }
  }

  lemma CarvedOnceEver(cs: seq<Config>, chunks: seq<Chunk>, b: int)
    requires AllProper(cs) && ChunksApart(cs, chunks)
    ensures multiset(Addresses(cs, chunks))[b] <= 1
  {
    var xs := Addresses(cs, chunks);
    forall i, j | 0 <= i < j < |xs| ensures xs[i] != xs[j] {
      var k := LiesInChunk(cs, chunks, i);
      var l := LiesInChunk(cs, chunks, j);
      CarvedApart(cs, chunks, i, j);
    }
    CountAtMostOne(xs, b);
  }

  // ---------------------------------------------------------------- conservation

  ghost function Cached(b: int): Thread -> nat {
    (th: Thread) => multiset(th.cache)[b]
  }

  ghost function Listed(b: int): seq<int> -> nat {
    (free: seq<int>) => multiset(free)[b]
  }

  /** In how many places block `b` is: client hands, caches, global lists. */
  ghost function Places(s: World, b: int): nat {
    One(b in s.sh.live) + Sum(s.threads, Cached(b)) + Sum(s.sh.frees, Listed(b))
  }

  ghost predicate AtOk(cs: seq<Config>, th: Thread) {
    && (th.at.AtRest? || th.at.p < |cs|)
    && (th.at.Lacking? || th.at.Carves? ==> th.cache == [])
  }

  ghost predicate Conserved(cs: seq<Config>, s: World) {
    && AllProper(cs) && |s.sh.frees| == |cs| && ChunksApart(cs, s.sh.chunks)
    && (forall t | 0 <= t < |s.threads| :: AtOk(cs, s.threads[t]))
    && (forall b: int :: Places(s, b) == multiset(Addresses(cs, s.sh.chunks))[b])
  }

  /** What one thread, client hands and the global lists hold of `b`, against what was carved. */
  ghost predicate Kept(cs: seq<Config>, sh: Pools, th: Thread, sh': Pools, th': Thread, b: int)
    requires ChunksKnown(cs, sh.chunks) && ChunksKnown(cs, sh'.chunks)
  {
    One(b in sh'.live) + multiset(th'.cache)[b] + Sum(sh'.frees, Listed(b)) + multiset(Addresses(cs, sh.chunks))[b]
    == One(b in sh.live) + multiset(th.cache)[b] + Sum(sh.frees, Listed(b)) + multiset(Addresses(cs, sh'.chunks))[b]
  }

  /** Blocks move between a cache and the list of pool `p`. */
  lemma ListKeeps(cs: seq<Config>, sh: Pools, th: Thread, p: nat, free: seq<int>, th': Thread, b: int)
    requires ChunksKnown(cs, sh.chunks) && p < |sh.frees|
    requires multiset(free)[b] + multiset(th'.cache)[b] == multiset(sh.frees[p])[b] + multiset(th.cache)[b]
    ensures Kept(cs, sh, th, sh.(frees := sh.frees[p := free]), th', b)
  {
    SumUpdate(sh.frees, p, free, Listed(b));
  }

  lemma RefillKeeps(cs: seq<Config>, sh: Pools, th: Thread, b: int)
    requires CanDo(cs, sh, th, Fetch) && ChunksKnown(cs, sh.chunks)
    ensures Kept(cs, sh, th, DoShared(cs, sh, th, Fetch), DoThread(cs, sh, th, Fetch), b)
  {
    var p := th.at.p;
    MoveCount(Min(cs[p].limit, |sh.frees[p]|), sh.frees[p], th.cache, b);
    ListKeeps(cs, sh, th, p, RefillRegion(cs[p].limit, sh.frees[p], th.cache).0, DoThread(cs, sh, th, Fetch), b);
  }

  lemma FlushCount(limit: nat, cache: seq<int>, free: seq<int>, b: int)
    ensures var r := FlushRegion(limit, cache, free);
            multiset(r.1)[b] + multiset(r.0)[b] == multiset(free)[b] + multiset(cache)[b]
  {
    if |cache| > limit {
      MoveCount(|cache| - limit, cache, free, b);
    }
  }

  lemma FlushKeeps(cs: seq<Config>, sh: Pools, th: Thread, b: int)
    requires CanDo(cs, sh, th, Spill) && ChunksKnown(cs, sh.chunks)
    ensures Kept(cs, sh, th, DoShared(cs, sh, th, Spill), DoThread(cs, sh, th, Spill), b)
  {
    var p := th.at.p;
    FlushCount(cs[p].limit, th.cache, sh.frees[p], b);
    ListKeeps(cs, sh, th, p, FlushRegion(cs[p].limit, th.cache, sh.frees[p]).1, DoThread(cs, sh, th, Spill), b);
  }

  /** A chunk of new blocks, all but the last of which stay in the cache. */
  lemma NewBlocksKept(cs: seq<Config>, sh: Pools, th: Thread, chunk: Chunk, b: int)
    requires ChunksKnown(cs, sh.chunks) && chunk.p < |cs| && th.cache == [] && cs[chunk.p].perChunk > 0
    requires b == Last(BlocksOf(cs[chunk.p], chunk.base)) ==> b !in sh.live
    ensures var blocks := BlocksOf(cs[chunk.p], chunk.base);
            Kept(cs, sh, th, sh.(chunks := sh.chunks + [chunk], live := sh.live + {Last(blocks)}),
                 Thread(ButLast(blocks), AtRest), b)
  {
    var blocks := BlocksOf(cs[chunk.p], chunk.base);
    PopCount(blocks, b);
    AddressesAppend(cs, sh.chunks, chunk);
    ConcatCount(Addresses(cs, sh.chunks), blocks, b);
  }

  lemma CarveKeeps(cs: seq<Config>, sh: Pools, th: Thread, base: int, b: int)
    requires CanDo(cs, sh, th, Cut(base)) && ChunksKnown(cs, sh.chunks) && th.cache == []
    requires b == Last(BlocksOf(cs[th.at.p], base)) ==> b !in sh.live
    ensures ChunksKnown(cs, DoShared(cs, sh, th, Cut(base)).chunks)
    ensures Kept(cs, sh, th, DoShared(cs, sh, th, Cut(base)), DoThread(cs, sh, th, Cut(base)), b)
  {
    assert th.cache + BlocksOf(cs[th.at.p], base) == BlocksOf(cs[th.at.p], base);
    NewBlocksKept(cs, sh, th, Chunk(th.at.p, base), b);
  }

  lemma ClientKeeps(cs: seq<Config>, sh: Pools, th: Thread, a: Act, b: int)
    requires CanDo(cs, sh, th, a) && ChunksKnown(cs, sh.chunks) && (a.Pop? || a.PopFetched? || a.Free?)
    requires !a.Free? && b == Last(th.cache) ==> b !in sh.live
    ensures Kept(cs, sh, th, DoShared(cs, sh, th, a), DoThread(cs, sh, th, a), b)
  {
    if !a.Free? {
      PopCount(th.cache, b);
    }
  }

  /** What an action hands out was not in client hands. */
  lemma CachedIsNotLive(cs: seq<Config>, s: World, t: nat)
    requires Conserved(cs, s) && t < |s.threads| && s.threads[t].cache != []
    ensures Last(s.threads[t].cache) !in s.sh.live
  {
    var b := Last(s.threads[t].cache);
    CarvedOnceEver(cs, s.sh.chunks, b);
    assert Places(s, b) <= 1;
    PopCount(s.threads[t].cache, b);
    SumMember(s.threads, t, Cached(b));
  }

  lemma FreshIsNotLive(cs: seq<Config>, s: World, t: nat, base: int)
    requires Conserved(cs, s) && CanMove(cs, s, Turn(t, Cut(base)))
    ensures Last(BlocksOf(cs[s.threads[t].at.p], base)) !in s.sh.live
  {
    var c := cs[s.threads[t].at.p];
    var b := Last(BlocksOf(c, base));
    var xs := Addresses(cs, s.sh.chunks);
    forall i | 0 <= i < |xs| ensures xs[i] != b {
      var k := LiesInChunk(cs, s.sh.chunks, i);
      BlockInChunk(c, base, c.perChunk - 1);
    }
    assert b !in multiset(xs);
    assert Places(s, b) == 0;
  }

  lemma ActKeeps(cs: seq<Config>, s: World, m: Turn, b: int)
    requires Conserved(cs, s) && CanMove(cs, s, m)
    ensures var th := s.threads[m.t];
            && ChunksKnown(cs, DoShared(cs, s.sh, th, m.a).chunks)
            && Kept(cs, s.sh, th, DoShared(cs, s.sh, th, m.a), DoThread(cs, s.sh, th, m.a), b)
  {
    var th := s.threads[m.t];
    assert AtOk(cs, th);
    match m.a
    case Fetch => RefillKeeps(cs, s.sh, th, b);
    case Spill => FlushKeeps(cs, s.sh, th, b);
    case Cut(base) =>
      FreshIsNotLive(cs, s, m.t, base);
      CarveKeeps(cs, s.sh, th, base, b);
    case Lack(_) =>
    case Resign =>
    case Free(_, _) => ClientKeeps(cs, s.sh, th, m.a, b);
    case _ =>
      CachedIsNotLive(cs, s, m.t);
      ClientKeeps(cs, s.sh, th, m.a, b);
  }

  lemma ChunksStayApart(cs: seq<Config>, sh: Pools, th: Thread, a: Act)
    requires CanDo(cs, sh, th, a) && ChunksApart(cs, sh.chunks)
    ensures ChunksApart(cs, DoShared(cs, sh, th, a).chunks) && |DoShared(cs, sh, th, a).frees| == |sh.frees|
  {
  }

  lemma AtOkStep(cs: seq<Config>, sh: Pools, th: Thread, a: Act)
    requires CanDo(cs, sh, th, a) && AtOk(cs, th)
    ensures AtOk(cs, DoThread(cs, sh, th, a))
  {
  }

  lemma ConservedMove(cs: seq<Config>, s: World, t: nat, sh': Pools, th': Thread)
    requires Conserved(cs, s) && t < |s.threads| && ChunksApart(cs, sh'.chunks) && |sh'.frees| == |cs| && AtOk(cs, th')
    requires forall b: int :: Kept(cs, s.sh, s.threads[t], sh', th', b)
    ensures Conserved(cs, World(sh', s.threads[t := th']))
  {
    var s' := World(sh', s.threads[t := th']);
    forall b: int ensures Places(s', b) == multiset(Addresses(cs, sh'.chunks))[b] {
      SumUpdate(s.threads, t, th', Cached(b));
      assert Places(s, b) == multiset(Addresses(cs, s.sh.chunks))[b];
      assert Kept(cs, s.sh, s.threads[t], sh', th', b);
    }
  }

  lemma ConservedStep(cs: seq<Config>, s: World, m: Turn)
    requires Conserved(cs, s) && CanMove(cs, s, m)
    ensures Conserved(cs, Moved(cs, s, m))
  {
    var th := s.threads[m.t];
    assert AtOk(cs, th);
    ChunksStayApart(cs, s.sh, th, m.a);
    AtOkStep(cs, s.sh, th, m.a);
    forall b: int ensures Kept(cs, s.sh, th, DoShared(cs, s.sh, th, m.a), DoThread(cs, s.sh, th, m.a), b) {
      ActKeeps(cs, s, m, b);
    }
    ConservedMove(cs, s, m.t, DoShared(cs, s.sh, th, m.a), DoThread(cs, s.sh, th, m.a));
  }

  lemma ConservedStart(cs: seq<Config>, s: World)
    requires AllProper(cs) && Started(cs, s)
    ensures Conserved(cs, s)
  {
    forall b: int ensures Places(s, b) == 0 {
      SumZero(s.threads, Cached(b));
      SumZero(s.sh.frees, Listed(b));
    }
  }

  lemma {:induction false} ConservedPlay(cs: seq<Config>, states: seq<World>, moves: seq<Turn>, i: nat)
    requires IsPlay(cs, states, moves) && i < |states|
    ensures Conserved(cs, states[i])
  {
    if i == 0 {
      ConservedStart(cs, states[0]);
    } else {
      ConservedPlay(cs, states, moves, i - 1);
      ConservedStep(cs, states[i - 1], moves[i - 1]);
    }
  }

  // ---------------------------------------------------------------- theorems

  /** However many pools share the caches: every block carved is in exactly one of client hands,
      one cache (once) or one pool's list (once), and nothing else is anywhere; blocks are aligned,
      and disjoint by the sizes they were carved with. */
  lemma BlocksArePartitionedAcrossPools(cs: seq<Config>, states: seq<World>, moves: seq<Turn>, i: nat)
    requires IsPlay(cs, states, moves) && i < |states|
    ensures ChunksKnown(cs, states[i].sh.chunks)
    ensures var blocks, sizes := Addresses(cs, states[i].sh.chunks), Sizes(cs, states[i].sh.chunks);
            && (forall b: int :: Places(states[i], b) == if b in blocks then 1 else 0)
            && (forall k | 0 <= k < |blocks| :: blocks[k] % MAX_ALIGN == 0)
            && (forall j, k | 0 <= j < k < |blocks| :: DisjointBytes(blocks[j], sizes[j], blocks[k], sizes[k]))
  {
    ConservedPlay(cs, states, moves, i);
    var chunks := states[i].sh.chunks;
    var blocks, sizes := Addresses(cs, chunks), Sizes(cs, chunks);
    forall b: int ensures Places(states[i], b) == if b in blocks then 1 else 0 {
      CarvedOnceEver(cs, chunks, b);
      assert b in multiset(blocks) <==> b in blocks;
    }
    forall k | 0 <= k < |blocks| ensures blocks[k] % MAX_ALIGN == 0 {
      CarvedAligned(cs, chunks, k);
    }
    forall j, k | 0 <= j < k < |blocks| ensures DisjointBytes(blocks[j], sizes[j], blocks[k], sizes[k]) {
      CarvedApart(cs, chunks, j, k);
    }
  }

  lemma LiveIsCarved(cs: seq<Config>, s: World, b: int) returns (k: nat)
    requires Conserved(cs, s) && b in s.sh.live
    ensures k < |Addresses(cs, s.sh.chunks)| && Addresses(cs, s.sh.chunks)[k] == b
  {
    assert Places(s, b) > 0;
    assert b in multiset(Addresses(cs, s.sh.chunks));
    k :| 0 <= k < |Addresses(cs, s.sh.chunks)| && Addresses(cs, s.sh.chunks)[k] == b;
  }

  lemma HandedOut(cs: seq<Config>, s: World, m: Turn, p: nat, b: int)
    requires Conserved(cs, s) && CanMove(cs, s, m) && HandsOut(cs, s.threads[m.t], m.a, p, b)
    ensures b !in s.sh.live && Moved(cs, s, m).sh.live == s.sh.live + {b} && p < |cs|
  {
    var th := s.threads[m.t];
    assert AtOk(cs, th);
    if m.a.Cut? {
      assert th.cache + BlocksOf(cs[p], m.a.base) == BlocksOf(cs[p], m.a.base);
      FreshIsNotLive(cs, s, m.t, m.a.base);
    } else {
      CachedIsNotLive(cs, s, m.t);
    }
  }

  /** Whichever pool is asked, the block handed out overlaps no block a client holds, by the
      sizes both were carved with. */
  lemma SharedAllocateIsUnused(cs: seq<Config>, states: seq<World>, moves: seq<Turn>, i: nat, p: nat, b: int, held: int)
    returns (j: nat, k: nat)
    requires IsPlay(cs, states, moves) && i < |moves|
    requires HandsOut(cs, states[i].threads[moves[i].t], moves[i].a, p, b) && held in states[i].sh.live
    ensures ChunksKnown(cs, states[i + 1].sh.chunks)
    ensures var blocks, sizes := Addresses(cs, states[i + 1].sh.chunks), Sizes(cs, states[i + 1].sh.chunks);
            && j < |blocks| && k < |blocks| && blocks[j] == b && blocks[k] == held
            && DisjointBytes(b, sizes[j], held, sizes[k])
  {
    ConservedPlay(cs, states, moves, i);
    ConservedPlay(cs, states, moves, i + 1);
    HandedOut(cs, states[i], moves[i], p, b);
    j := LiveIsCarved(cs, states[i + 1], b);
    k := LiveIsCarved(cs, states[i + 1], held);
    if j < k {
      CarvedApart(cs, states[i + 1].sh.chunks, j, k);
    } else {
      CarvedApart(cs, states[i + 1].sh.chunks, k, j);
    }
  }
}
