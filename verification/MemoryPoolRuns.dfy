/** Any number of threads using one `ThreadSafeMemoryPool`.  A step is one thread-local
    stretch of `allocate` or `deallocate`, one region under `globalMutex_`, or the carving
    of one chunk; threads interleave freely between steps. */
module MemoryPoolRuns {
  import opened MemoryPools

  datatype Config = Config(blockSize: nat, perChunk: nat, limit: nat)

  /** What the constructor establishes and `allocate` relies on. */
  predicate Proper(c: Config) {
    c.blockSize > 0 && c.blockSize % MAX_ALIGN == 0 && c.perChunk > 0
  }

  datatype Pc =
    | Idle
    | Missed      // `allocate` found the cache empty, `globalMutex_` not yet taken
    | Refilled    // `refillLocalFromGlobal` returned
    | Carving     // the cache was still empty
    | Overfull    // `deallocate` found the cache past twice its limit

  /** `flushes`, `carves`, `frees` and `allocs` count what the thread has done; `fulls` counts
      the refills that found at least `limit` blocks in the global list. */
  datatype Local = Local(cache: seq<int>, pc: Pc, flushes: nat, carves: nat, frees: nat, allocs: nat, fulls: nat)

  /** `live` is what clients hold, `peak` the largest number they ever held. */
  datatype Shared = Shared(free: seq<int>, chunks: seq<int>, live: set<int>, peak: nat)

  datatype State = State(sh: Shared, locals: seq<Local>)

  datatype Action =
    | PopCache                 // `allocate` with a non-empty cache
    | Miss
    | Refill
    | PopRefilled
    | GiveUp
    | Carve(chunk: int)
    | PushCache(block: int)    // `deallocate`
    | Flush

  predicate Init(s: State) {
    && s.sh == Shared([], [], {}, 0)
    && forall i | 0 <= i < |s.locals| :: s.locals[i] == Local([], Idle, 0, 0, 0, 0, 0)
  }

  function ChunkBytes(c: Config): nat {
    c.blockSize * c.perChunk
  }

  /** What `operator new` promises: aligned storage that overlaps no chunk handed out before. */
  predicate FreshChunk(c: Config, chunks: seq<int>, chunk: int) {
    && chunk % MAX_ALIGN == 0
    && forall i | 0 <= i < |chunks| ::
         chunk + ChunkBytes(c) <= chunks[i] || chunks[i] + ChunkBytes(c) <= chunk
  }

  predicate Can(c: Config, sh: Shared, th: Local, a: Action) {
    match a
    case PopCache => th.pc.Idle? && th.cache != []
    case Miss => th.pc.Idle? && th.cache == []
    case Refill => th.pc.Missed?
    case PopRefilled => th.pc.Refilled? && th.cache != []
    case GiveUp => th.pc.Refilled? && th.cache == []
    case Carve(chunk) => th.pc.Carving? && FreshChunk(c, sh.chunks, chunk)
    case PushCache(b) => th.pc.Idle? && b in sh.live
    case Flush => th.pc.Overfull?
  }

  function Last(xs: seq<int>): int
    requires xs != []
  {
    xs[|xs| - 1]
  }

  function ButLast(xs: seq<int>): seq<int>
    requires xs != []
  {
    xs[..|xs| - 1]
  }

  function Max(a: nat, b: nat): nat {
    if a <= b then b else a
  }

  function HandOut(sh: Shared, b: int): Shared {
    sh.(live := sh.live + {b}, peak := Max(sh.peak, |sh.live + {b}|))
  }

  /** The block an action hands to the client, if any. */
  function Allocated(c: Config, th: Local, a: Action): seq<int> {
    match a
    case PopCache | PopRefilled => if th.cache == [] then [] else [Last(th.cache)]
    case Carve(chunk) =>
      if c.perChunk == 0 then [] else [Last(ChunkBlocks(chunk, c.blockSize, c.perChunk))]
    case _ => []
  }

  function ActLocal(c: Config, sh: Shared, th: Local, a: Action): Local
    requires Proper(c) && Can(c, sh, th, a)
  {
    match a
    case PopCache => th.(cache := ButLast(th.cache), allocs := th.allocs + 1)
    case Miss => th.(pc := Missed)
    case Refill =>
      th.(cache := RefillRegion(c.limit, sh.free, th.cache).1, pc := Refilled,
          fulls := th.fulls + if |sh.free| >= c.limit then 1 else 0)
    case PopRefilled => th.(cache := ButLast(th.cache), pc := Idle, allocs := th.allocs + 1)
    case GiveUp => th.(pc := Carving)
    case Carve(chunk) =>
      th.(cache := ButLast(th.cache + ChunkBlocks(chunk, c.blockSize, c.perChunk)),
          pc := Idle, carves := th.carves + 1, allocs := th.allocs + 1)
    case PushCache(b) =>
      th.(cache := th.cache + [b],
          pc := if |th.cache + [b]| > 2 * c.limit then Overfull else Idle,
          frees := th.frees + 1)
    case Flush =>
      th.(cache := FlushRegion(c.limit, th.cache, sh.free).0, pc := Idle, flushes := th.flushes + 1)
  }

  function ActShared(c: Config, sh: Shared, th: Local, a: Action): Shared
    requires Proper(c) && Can(c, sh, th, a)
  {
    match a
    case PopCache | PopRefilled => HandOut(sh, Last(th.cache))
    case Miss | GiveUp => sh
    case Refill => sh.(free := RefillRegion(c.limit, sh.free, th.cache).0)
    case Carve(chunk) =>
      HandOut(sh.(chunks := sh.chunks + [chunk]), Last(th.cache + ChunkBlocks(chunk, c.blockSize, c.perChunk)))
    case PushCache(b) => sh.(live := sh.live - {b})
    case Flush => sh.(free := FlushRegion(c.limit, th.cache, sh.free).1)
  }

  /** Blocks leave a cache in the order opposite to that in which they came. */
  lemma CacheIsStack(c: Config, sh: Shared, th: Local, a: Action)
    requires Proper(c) && Can(c, sh, th, a)
    ensures a.PopCache? || a.PopRefilled? ==> ActLocal(c, sh, th, a).cache + Allocated(c, th, a) == th.cache
    ensures a.Carve? && th.cache == [] ==>
              ActLocal(c, sh, th, a).cache + Allocated(c, th, a) == ChunkBlocks(a.chunk, c.blockSize, c.perChunk)
    ensures a.PushCache? ==> ActLocal(c, sh, th, a).cache == th.cache + [a.block]
  {
    if a.Carve? && th.cache == [] {
      assert th.cache + ChunkBlocks(a.chunk, c.blockSize, c.perChunk) == ChunkBlocks(a.chunk, c.blockSize, c.perChunk);
    }
  }

  /** A thread left alone in `allocate` with an empty cache gets through it: with the last block
      that the refill brings, or of a new chunk if the refill brings none. */
  lemma AllocateIsItsSteps(c: Config, sh: Shared, th: Local, chunk: int)
    requires Proper(c) && th.pc.Idle? && th.cache == [] && FreshChunk(c, sh.chunks, chunk)
    ensures Can(c, sh, th, Miss)
    ensures var missed := ActLocal(c, sh, th, Miss);
            && Can(c, sh, missed, Refill)
            && var (sh2, th2) := (ActShared(c, sh, missed, Refill), ActLocal(c, sh, missed, Refill));
               if Min(c.limit, |sh.free|) > 0 then
                 && Can(c, sh2, th2, PopRefilled)
                 && var done := ActLocal(c, sh2, th2, PopRefilled);
                    && done.pc.Idle? && |done.cache| == Min(c.limit, |sh.free|) - 1
                    && LastFirst(sh.free, done.cache + Allocated(c, th2, PopRefilled))
               else
                 && Can(c, sh2, th2, GiveUp)
                 && var given := ActLocal(c, sh2, th2, GiveUp);
                    && Can(c, sh2, given, Carve(chunk))
                    && var done := ActLocal(c, sh2, given, Carve(chunk));
                       && done.pc.Idle?
                       && done.cache + Allocated(c, given, Carve(chunk)) == ChunkBlocks(chunk, c.blockSize, c.perChunk)
  {
    var missed := ActLocal(c, sh, th, Miss);
    MoveIs(Min(c.limit, |sh.free|), sh.free, []);
    var (sh2, th2) := (ActShared(c, sh, missed, Refill), ActLocal(c, sh, missed, Refill));
    if Min(c.limit, |sh.free|) > 0 {
      assert th2.cache[|missed.cache|..] == th2.cache;
      CacheIsStack(c, sh2, th2, PopRefilled);
    } else {
      CacheIsStack(c, sh2, ActLocal(c, sh2, th2, GiveUp), Carve(chunk));
    }
  }

  /** And one left alone in `deallocate`. */
  lemma DeallocateIsItsSteps(c: Config, sh: Shared, th: Local, b: int)
    requires Proper(c) && th.pc.Idle? && b in sh.live
    ensures Can(c, sh, th, PushCache(b))
    ensures var (sh1, th1) := (ActShared(c, sh, th, PushCache(b)), ActLocal(c, sh, th, PushCache(b)));
            if |th.cache| + 1 <= 2 * c.limit then th1.pc.Idle? && th1.cache == th.cache + [b]
            else
              && Can(c, sh1, th1, Flush)
              && var (sh2, th2) := (ActShared(c, sh1, th1, Flush), ActLocal(c, sh1, th1, Flush));
                 && th2.pc.Idle? && th2.cache == (th.cache + [b])[..c.limit]
                 && sh.free <= sh2.free && |sh2.free| + c.limit == |sh.free| + |th.cache| + 1
                 && LastFirst(th.cache + [b], sh2.free[|sh.free|..])
  {
    if |th.cache| + 1 > 2 * c.limit {
      MoveIs(|th.cache| + 1 - c.limit, th.cache + [b], sh.free);
    }
  }

  predicate Enabled(c: Config, s: State, t: nat, a: Action) {
    Proper(c) && t < |s.locals| && Can(c, s.sh, s.locals[t], a)
  }

  function Apply(c: Config, s: State, t: nat, a: Action): State
    requires Enabled(c, s, t, a)
  {
    State(ActShared(c, s.sh, s.locals[t], a), s.locals[t := ActLocal(c, s.sh, s.locals[t], a)])
  }

  datatype Step = Step(t: nat, action: Action)

  predicate IsRun(c: Config, states: seq<State>, steps: seq<Step>) {
    && Proper(c)
    && |states| == |steps| + 1
    && Init(states[0])
    && forall i | 0 <= i < |steps| ::
         Enabled(c, states[i], steps[i].t, steps[i].action) &&
         states[i + 1] == Apply(c, states[i], steps[i].t, steps[i].action)
  }

  // ---------------------------------------------------------------- geometry

  /** Every block ever carved, in carving order. */
  function Carved(c: Config, chunks: seq<int>): seq<int> {
    if chunks == [] then []
    else Carved(c, chunks[..|chunks| - 1]) + ChunkBlocks(chunks[|chunks| - 1], c.blockSize, c.perChunk)
  }

  lemma CarvedAppend(c: Config, chunks: seq<int>, chunk: int)
    ensures Carved(c, chunks + [chunk]) == Carved(c, chunks) + ChunkBlocks(chunk, c.blockSize, c.perChunk)
  {
    assert (chunks + [chunk])[..|chunks|] == chunks;
  }

  lemma {:induction false} CarvedSize(c: Config, chunks: seq<int>)
    ensures |Carved(c, chunks)| == c.perChunk * |chunks|
  {
    if chunks != [] {
      CarvedSize(c, chunks[..|chunks| - 1]);
      assert c.perChunk * |chunks| == c.perChunk * (|chunks| - 1) + c.perChunk;
    }
  }

  /** Chunks are aligned and do not overlap. */
  predicate ChunksOk(c: Config, chunks: seq<int>) {
    && (forall i | 0 <= i < |chunks| :: chunks[i] % MAX_ALIGN == 0)
    && (forall i, j | 0 <= i < j < |chunks| ::
          chunks[j] + ChunkBytes(c) <= chunks[i] || chunks[i] + ChunkBytes(c) <= chunks[j])
  }

  predicate Apart(c: Config, a: int, b: int) {
    a + c.blockSize <= b || b + c.blockSize <= a
  }

  lemma MulBound(i: nat, n: nat, k: nat)
    requires i < n
    ensures i * k + k <= n * k
  {
    assert (i + 1) * k <= n * k;
  }

  lemma AlignedMultiple(base: int, i: nat, k: nat)
    requires base % MAX_ALIGN == 0 && k % MAX_ALIGN == 0
    ensures (base + i * k) % MAX_ALIGN == 0
  {
    var q := k / MAX_ALIGN;
    assert i * k == (i * q) * MAX_ALIGN;
  }

  lemma BlockInChunk(c: Config, chunk: int, i: nat)
    requires Proper(c) && i < c.perChunk
    ensures var b := ChunkBlocks(chunk, c.blockSize, c.perChunk)[i];
            chunk <= b && b + c.blockSize <= chunk + ChunkBytes(c)
  {
    MulBound(i, c.perChunk, c.blockSize);
    ChunkBlockAt(chunk, c.blockSize, c.perChunk, i);
  }

  lemma {:induction false} BlockHasChunk(c: Config, chunks: seq<int>, i: nat) returns (k: nat)
    requires Proper(c) && i < |Carved(c, chunks)|
    ensures k < |chunks|
    ensures chunks[k] <= Carved(c, chunks)[i]
    ensures Carved(c, chunks)[i] + c.blockSize <= chunks[k] + ChunkBytes(c)
  {
    var front := chunks[..|chunks| - 1];
    if i < |Carved(c, front)| {
      k := BlockHasChunk(c, front, i);
    } else {
      k := |chunks| - 1;
      BlockInChunk(c, chunks[k], i - |Carved(c, front)|);
    }
  }

  /** Carved blocks are aligned and pairwise byte-disjoint. */
  lemma {:induction false} BlocksAreDisjoint(c: Config, chunks: seq<int>, i: nat, j: nat)
    requires Proper(c) && ChunksOk(c, chunks) && i < j < |Carved(c, chunks)|
    ensures Apart(c, Carved(c, chunks)[i], Carved(c, chunks)[j])
  {
    var front := chunks[..|chunks| - 1];
    var n := |Carved(c, front)|;
    var last := chunks[|chunks| - 1];
    if j < n {
      BlocksAreDisjoint(c, front, i, j);
    } else if i < n {
      var k := BlockHasChunk(c, front, i);
      BlockInChunk(c, last, j - n);
    } else {
      MulBound(i - n, j - n, c.blockSize);
      ChunkBlockAt(last, c.blockSize, c.perChunk, i - n);
      ChunkBlockAt(last, c.blockSize, c.perChunk, j - n);
    }
  }

  lemma {:induction false} BlocksAreAligned(c: Config, chunks: seq<int>, i: nat)
    requires Proper(c) && ChunksOk(c, chunks) && i < |Carved(c, chunks)|
    ensures Carved(c, chunks)[i] % MAX_ALIGN == 0
  {
    var front := chunks[..|chunks| - 1];
    var n := |Carved(c, front)|;
    if i < n {
      BlocksAreAligned(c, front, i);
    } else {
      AlignedMultiple(chunks[|chunks| - 1], i - n, c.blockSize);
      ChunkBlockAt(chunks[|chunks| - 1], c.blockSize, c.perChunk, i - n);
    }
  }
}
