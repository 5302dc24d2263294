/** Conservation, the memory bound and the amortised flush bound, for every run. */
module MemoryPoolTheorems {
  import opened MemoryPools
  import opened MemoryPoolRuns
  import opened Sums

  // ---------------------------------------------------------------- partition

  ghost function CopiesIn(b: int): Local -> nat {
    (th: Local) => multiset(th.cache)[b]
  }

  function One(p: bool): nat {
    if p then 1 else 0
  }

  /** In how many places block `b` is: client hands, caches, global list. */
  ghost function Copies(s: State, b: int): nat {
    One(b in s.sh.live) + Sum(s.locals, CopiesIn(b)) + multiset(s.sh.free)[b]
  }

  function CacheSize(th: Local): nat {
    |th.cache|
  }

  ghost predicate Partition(c: Config, s: State) {
    && Proper(c) && ChunksOk(c, s.sh.chunks)
    && (forall b: int :: Copies(s, b) == multiset(Carved(c, s.sh.chunks))[b])
    && |s.sh.live| + Sum(s.locals, CacheSize) + |s.sh.free| == |Carved(c, s.sh.chunks)|
  }

  lemma {:induction false} CountAtMostOne(xs: seq<int>, b: int)
    requires forall i, j | 0 <= i < j < |xs| :: xs[i] != xs[j]
    ensures multiset(xs)[b] <= 1
  {
    if xs != [] {
      var front := xs[..|xs| - 1];
      CountAtMostOne(front, b);
      assert xs == front + [xs[|xs| - 1]];
      if b == xs[|xs| - 1] {
        assert b !in front;
        assert b !in multiset(front);
      }
    }
  }

  lemma CarvedOnce(c: Config, chunks: seq<int>, b: int)
    requires Proper(c) && ChunksOk(c, chunks)
    ensures multiset(Carved(c, chunks))[b] <= 1
  {
    var xs := Carved(c, chunks);
    forall i, j | 0 <= i < j < |xs| ensures xs[i] != xs[j] {
      BlocksAreDisjoint(c, chunks, i, j);
    }
    CountAtMostOne(xs, b);
  }

  lemma ConcatCount(xs: seq<int>, ys: seq<int>, b: int)
    ensures multiset(xs + ys)[b] == multiset(xs)[b] + multiset(ys)[b]
  {
  }

  lemma PopCount(xs: seq<int>, b: int)
    requires xs != []
    ensures multiset(xs)[b] == multiset(ButLast(xs))[b] + One(b == Last(xs))
  {
    assert xs == ButLast(xs) + [Last(xs)];
  }

  lemma CarvedIsNew(c: Config, chunks: seq<int>, chunk: int)
    requires Proper(c) && FreshChunk(c, chunks, chunk)
    ensures multiset(Carved(c, chunks))[Last(ChunkBlocks(chunk, c.blockSize, c.perChunk))] == 0
  {
    var b := Last(ChunkBlocks(chunk, c.blockSize, c.perChunk));
    BlockInChunk(c, chunk, c.perChunk - 1);
    forall i | 0 <= i < |Carved(c, chunks)| ensures Carved(c, chunks)[i] != b {
      var k := BlockHasChunk(c, chunks, i);
    }
    assert b !in multiset(Carved(c, chunks));
  }

  lemma CachedIsNotLive(c: Config, s: State, t: nat)
    requires Partition(c, s) && t < |s.locals| && s.locals[t].cache != []
    ensures Last(s.locals[t].cache) !in s.sh.live
  {
    var b := Last(s.locals[t].cache);
    CarvedOnce(c, s.sh.chunks, b);
    assert Copies(s, b) <= 1;
    PopCount(s.locals[t].cache, b);
    SumMember(s.locals, t, CopiesIn(b));
  }

  /** The block an action hands out was not in client hands. */
  lemma AllocatedIsNotLive(c: Config, s: State, t: nat, a: Action, b: int)
    requires Partition(c, s) && Enabled(c, s, t, a) && Allocated(c, s.locals[t], a) == [b]
    ensures b !in s.sh.live
  {
    if a.Carve? {
      CarvedIsNew(c, s.sh.chunks, a.chunk);
      assert Copies(s, b) == 0;
    } else {
      CachedIsNotLive(c, s, t);
    }
  }

  lemma MoveCount(n: nat, from: seq<int>, to: seq<int>, b: int)
    requires n <= |from|
    ensures var r := Move(n, from, to);
            multiset(r.0)[b] + multiset(r.1)[b] == multiset(from)[b] + multiset(to)[b]
  {
    var r := Move(n, from, to);
    MoveConserves(n, from, to);
    assert (multiset(r.0) + multiset(r.1))[b] == (multiset(from) + multiset(to))[b];
  }

  /** An action moves copies of `b` between places and loses none. */
  ghost predicate Balanced(c: Config, sh: Shared, th: Local, sh': Shared, th': Local, b: int) {
    One(b in sh'.live) + multiset(th'.cache)[b] + multiset(sh'.free)[b] + multiset(Carved(c, sh.chunks))[b]
    == One(b in sh.live) + multiset(th.cache)[b] + multiset(sh.free)[b] + multiset(Carved(c, sh'.chunks))[b]
  }

  /** Moving within the pool: only the counts in the cache and the global list matter. */
  lemma MoveBalance(c: Config, sh: Shared, th: Local, free: seq<int>, th': Local, b: int)
    requires multiset(free)[b] + multiset(th'.cache)[b] == multiset(sh.free)[b] + multiset(th.cache)[b]
    ensures Balanced(c, sh, th, sh.(free := free), th', b)
  {
  }

  lemma RefillBalance(c: Config, sh: Shared, th: Local, b: int)
    requires Proper(c) && Can(c, sh, th, Refill)
    ensures Balanced(c, sh, th, ActShared(c, sh, th, Refill), ActLocal(c, sh, th, Refill), b)
  {
    var n := Min(c.limit, |sh.free|);
    MoveCount(n, sh.free, th.cache, b);
    MoveBalance(c, sh, th, Move(n, sh.free, th.cache).0, ActLocal(c, sh, th, Refill), b);
  }

  lemma FlushBalance(c: Config, sh: Shared, th: Local, b: int)
    requires Proper(c) && Can(c, sh, th, Flush)
    ensures Balanced(c, sh, th, ActShared(c, sh, th, Flush), ActLocal(c, sh, th, Flush), b)
  {
    var r := FlushRegion(c.limit, th.cache, sh.free);
    if |th.cache| > c.limit {
      MoveCount(|th.cache| - c.limit, th.cache, sh.free, b);
    }
    MoveBalance(c, sh, th, r.1, ActLocal(c, sh, th, Flush), b);
  }

  lemma NewBlocksBalance(c: Config, sh: Shared, th: Local, chunk: int, sh': Shared, th': Local, b: int)
    requires Proper(c) && th.cache == [] && sh'.free == sh.free && sh'.chunks == sh.chunks + [chunk]
    requires var blocks := ChunkBlocks(chunk, c.blockSize, c.perChunk);
             && th'.cache == ButLast(blocks) && sh'.live == sh.live + {Last(blocks)}
             && (b == Last(blocks) ==> b !in sh.live)
    ensures Balanced(c, sh, th, sh', th', b)
  {
    var blocks := ChunkBlocks(chunk, c.blockSize, c.perChunk);
    PopCount(blocks, b);
    CarvedAppend(c, sh.chunks, chunk);
    ConcatCount(Carved(c, sh.chunks), blocks, b);
  }

  lemma CarveBalance(c: Config, sh: Shared, th: Local, chunk: int, b: int)
    requires Proper(c) && Can(c, sh, th, Carve(chunk)) && th.cache == []
    requires Allocated(c, th, Carve(chunk)) == [b] ==> b !in sh.live
    ensures Balanced(c, sh, th, ActShared(c, sh, th, Carve(chunk)), ActLocal(c, sh, th, Carve(chunk)), b)
  {
    var blocks := ChunkBlocks(chunk, c.blockSize, c.perChunk);
    assert th.cache + blocks == blocks;
    NewBlocksBalance(c, sh, th, chunk, ActShared(c, sh, th, Carve(chunk)), ActLocal(c, sh, th, Carve(chunk)), b);
  }

  lemma ClientBalance(c: Config, sh: Shared, th: Local, a: Action, b: int)
    requires Proper(c) && Can(c, sh, th, a) && (a.PopCache? || a.PopRefilled? || a.PushCache?)
    requires Allocated(c, th, a) == [b] ==> b !in sh.live
    ensures Balanced(c, sh, th, ActShared(c, sh, th, a), ActLocal(c, sh, th, a), b)
  {
    if !a.PushCache? {
      PopCount(th.cache, b);
    }
  }

  lemma ActionBalance(c: Config, sh: Shared, th: Local, a: Action, b: int)
    requires Proper(c) && Can(c, sh, th, a)
    requires th.pc.Carving? ==> th.cache == []
    requires Allocated(c, th, a) == [b] ==> b !in sh.live
    ensures Balanced(c, sh, th, ActShared(c, sh, th, a), ActLocal(c, sh, th, a), b)
  {
    match a
    case Refill => RefillBalance(c, sh, th, b);
    case Flush => FlushBalance(c, sh, th, b);
    case Carve(chunk) => CarveBalance(c, sh, th, chunk, b);
    case Miss | GiveUp =>
    case _ => ClientBalance(c, sh, th, a, b);
  }

  function Held(sh: Shared, th: Local): nat {
    |sh.live| + |th.cache| + |sh.free|
  }

  lemma CarveSizes(c: Config, sh: Shared, th: Local, a: Action)
    requires Proper(c) && Can(c, sh, th, a) && a.Carve? && th.cache == []
    requires forall b :: Allocated(c, th, a) == [b] ==> b !in sh.live
    ensures var sh', th' := ActShared(c, sh, th, a), ActLocal(c, sh, th, a);
            Held(sh', th') + |Carved(c, sh.chunks)| == Held(sh, th) + |Carved(c, sh'.chunks)|
  {
    var blocks := ChunkBlocks(a.chunk, c.blockSize, c.perChunk);
    assert th.cache + blocks == blocks;
    assert Allocated(c, th, a) == [Last(blocks)];
    CarvedAppend(c, sh.chunks, a.chunk);
  }

  lemma OtherSizes(c: Config, sh: Shared, th: Local, a: Action)
    requires Proper(c) && Can(c, sh, th, a) && !a.Carve?
    requires forall b :: Allocated(c, th, a) == [b] ==> b !in sh.live
    ensures var sh', th' := ActShared(c, sh, th, a), ActLocal(c, sh, th, a);
            Held(sh', th') == Held(sh, th) && sh'.chunks == sh.chunks
  {
    if a.PopCache? || a.PopRefilled? {
      assert Allocated(c, th, a) == [Last(th.cache)];
    }
  }

  // ---------------------------------------------------------------- cache sizes

  function Cap(c: Config): nat {
    Max(2 * c.limit + 1, c.perChunk)
  }

  ghost predicate CacheOk(c: Config, th: Local) {
    match th.pc
    case Idle => |th.cache| <= 2 * c.limit || |th.cache| < c.perChunk
    case Missed => th.cache == []
    case Refilled => |th.cache| <= c.limit
    case Carving => th.cache == []
    case Overfull => 2 * c.limit < |th.cache| <= Cap(c)
  }

  ghost predicate CachesOk(c: Config, s: State) {
    forall i | 0 <= i < |s.locals| :: CacheOk(c, s.locals[i])
  }

  lemma CacheOkStep(c: Config, sh: Shared, th: Local, a: Action)
    requires Proper(c) && CacheOk(c, th) && Can(c, sh, th, a)
    ensures CacheOk(c, ActLocal(c, sh, th, a))
  {
  }

  // ---------------------------------------------------------------- memory bound

  /** The thread has seen the global list empty and will carve. */
  predicate Committed(th: Local) {
    th.pc.Carving? || (th.pc.Refilled? && th.cache == [])
  }

  ghost function Claim(c: Config): Local -> nat {
    (th: Local) => if Committed(th) then c.perChunk else 0
  }

  ghost function Share(c: Config): Local -> nat {
    (th: Local) => |th.cache| + if Committed(th) then c.perChunk else 0
  }

  ghost predicate MemoryBounded(c: Config, s: State) {
    && |s.sh.live| <= s.sh.peak
    && (c.limit > 0 ==>
          |Carved(c, s.sh.chunks)| + Sum(s.locals, Claim(c)) <= s.sh.peak + |s.locals| * Cap(c))
  }

  lemma {:induction false} SumAtMost<A>(xs: seq<A>, f: A -> nat, k: nat)
    requires forall i | 0 <= i < |xs| :: f(xs[i]) <= k
    ensures Sum(xs, f) <= |xs| * k
  {
    if xs != [] {
      SumAtMost(xs[1..], f, k);
      assert |xs| * k == k + (|xs| - 1) * k;
    }
  }

  lemma {:induction false} SumSplits<A>(xs: seq<A>, f: A -> nat, g: A -> nat, h: A -> nat)
    requires forall i | 0 <= i < |xs| :: h(xs[i]) == f(xs[i]) + g(xs[i])
    ensures Sum(xs, h) == Sum(xs, f) + Sum(xs, g)
  {
    if xs != [] {
      SumSplits(xs[1..], f, g, h);
    }
  }

  /** With the global list empty, caches and claims together fit the per-thread caps. */
  lemma BoundWhenGlobalEmpty(c: Config, s: State)
    requires Partition(c, s) && CachesOk(c, s) && s.sh.free == [] && |s.sh.live| <= s.sh.peak
    ensures MemoryBounded(c, s)
  {
    forall i | 0 <= i < |s.locals| ensures Share(c)(s.locals[i]) <= Cap(c) {
      assert CacheOk(c, s.locals[i]);
    }
    SumAtMost(s.locals, Share(c), Cap(c));
    SumSplits(s.locals, CacheSize, Claim(c), Share(c));
  }

  /** What an action does to the two sides of the bound, unless it finds the global list empty. */
  lemma BoundTransfer(c: Config, sh: Shared, th: Local, a: Action)
    requires Proper(c) && CacheOk(c, th) && Can(c, sh, th, a)
    requires !(a.Refill? && sh.free == []) && c.limit > 0
    ensures var sh', th' := ActShared(c, sh, th, a), ActLocal(c, sh, th, a);
            |Carved(c, sh'.chunks)| + Claim(c)(th') <= |Carved(c, sh.chunks)| + Claim(c)(th)
  {
    if a.Carve? {
      CarvedAppend(c, sh.chunks, a.chunk);
    }
  }

  lemma PeakCovers(c: Config, sh: Shared, th: Local, a: Action)
    requires Proper(c) && Can(c, sh, th, a) && |sh.live| <= sh.peak
    ensures var sh' := ActShared(c, sh, th, a);
            sh.peak <= sh'.peak && |sh'.live| <= sh'.peak
  {
  }

  lemma BoundStep(c: Config, s: State, t: nat, a: Action)
    requires Partition(c, s) && CachesOk(c, s) && MemoryBounded(c, s) && Enabled(c, s, t, a)
    requires Partition(c, Apply(c, s, t, a)) && CachesOk(c, Apply(c, s, t, a))
    ensures MemoryBounded(c, Apply(c, s, t, a))
  {
    assert CacheOk(c, s.locals[t]);
    PeakCovers(c, s.sh, s.locals[t], a);
    if a.Refill? && s.sh.free == [] {
      BoundWhenGlobalEmpty(c, Apply(c, s, t, a));
    } else if c.limit > 0 {
      BoundTransfer(c, s.sh, s.locals[t], a);
      BoundMove(c, s, t, ActShared(c, s.sh, s.locals[t], a), ActLocal(c, s.sh, s.locals[t], a));
    }
  }

  lemma BoundMove(c: Config, s: State, t: nat, sh': Shared, th': Local)
    requires MemoryBounded(c, s) && t < |s.locals| && c.limit > 0
    requires |Carved(c, sh'.chunks)| + Claim(c)(th') <= |Carved(c, s.sh.chunks)| + Claim(c)(s.locals[t])
    requires s.sh.peak <= sh'.peak && |sh'.live| <= sh'.peak
    ensures MemoryBounded(c, State(sh', s.locals[t := th']))
  {
    SumUpdate(s.locals, t, th', Claim(c));
  }

  // ---------------------------------------------------------------- amortised flushes

  /** Credit a cache has gathered towards its next flush. */
  function Credit(c: Config, th: Local): nat {
    if |th.cache| <= c.limit then 0
    else if |th.cache| > 2 * c.limit then c.limit + 1
    else |th.cache| - c.limit
  }

  ghost predicate FlushesPaid(c: Config, th: Local) {
    (c.limit + 1) * (th.flushes - th.carves) + Credit(c, th) <= th.frees
  }

  lemma MulSucc(k: int, d: int)
    ensures k * (d + 1) == k * d + k
  {
  }

  /** Only carving and flushing change the balance of the account. */
  lemma CreditStep(c: Config, sh: Shared, th: Local, a: Action)
    requires Proper(c) && CacheOk(c, th) && Can(c, sh, th, a)
    ensures var th' := ActLocal(c, sh, th, a);
            && th'.flushes - th'.carves == th.flushes - th.carves + One(a.Flush?) - One(a.Carve?)
            && Credit(c, th') + (c.limit + 1) * One(a.Flush?)
               <= Credit(c, th) + (th'.frees - th.frees) + (c.limit + 1) * One(a.Carve?)
  {
  }

  lemma FlushesPaidStep(c: Config, sh: Shared, th: Local, a: Action)
    requires Proper(c) && CacheOk(c, th) && FlushesPaid(c, th) && Can(c, sh, th, a)
    ensures FlushesPaid(c, ActLocal(c, sh, th, a))
  {
    CreditStep(c, sh, th, a);
    MulSucc(c.limit + 1, th.flushes - th.carves);
    MulSucc(c.limit + 1, th.flushes - th.carves - 1);
  }

  // ---------------------------------------------------------------- amortised refills

  /** A full refill is paid for by the allocations that used up the one before. */
  ghost predicate RefillsPaid(c: Config, th: Local) {
    c.limit * th.fulls <= th.allocs + Min(|th.cache|, c.limit)
  }

  lemma RefillsPaidStep(c: Config, sh: Shared, th: Local, a: Action)
    requires Proper(c) && CacheOk(c, th) && RefillsPaid(c, th) && Can(c, sh, th, a)
    ensures RefillsPaid(c, ActLocal(c, sh, th, a))
  {
    MulSucc(c.limit, th.fulls);
  }

  // ---------------------------------------------------------------- every run

  ghost predicate Inv(c: Config, s: State) {
    && Partition(c, s) && CachesOk(c, s) && MemoryBounded(c, s)
    && forall i | 0 <= i < |s.locals| :: FlushesPaid(c, s.locals[i]) && RefillsPaid(c, s.locals[i])
  }

  /** One thread moves blocks in balance, so the whole stays in balance. */
  lemma PartitionMove(c: Config, s: State, t: nat, sh': Shared, th': Local)
    requires Partition(c, s) && t < |s.locals| && ChunksOk(c, sh'.chunks)
    requires forall b: int :: Balanced(c, s.sh, s.locals[t], sh', th', b)
    requires Held(sh', th') + |Carved(c, s.sh.chunks)| == Held(s.sh, s.locals[t]) + |Carved(c, sh'.chunks)|
    ensures Partition(c, State(sh', s.locals[t := th']))
  {
    var s' := State(sh', s.locals[t := th']);
    forall b: int ensures Copies(s', b) == multiset(Carved(c, sh'.chunks))[b] {
      SumUpdate(s.locals, t, th', CopiesIn(b));
      assert Copies(s, b) == multiset(Carved(c, s.sh.chunks))[b];
      assert Balanced(c, s.sh, s.locals[t], sh', th', b);
    }
    SumUpdate(s.locals, t, th', CacheSize);
  }

  lemma ChunksStayOk(c: Config, sh: Shared, th: Local, a: Action)
    requires Proper(c) && ChunksOk(c, sh.chunks) && Can(c, sh, th, a)
    ensures ChunksOk(c, ActShared(c, sh, th, a).chunks)
  {
  }

  lemma PartitionStep(c: Config, s: State, t: nat, a: Action)
    requires Partition(c, s) && CachesOk(c, s) && Enabled(c, s, t, a)
    ensures Partition(c, Apply(c, s, t, a))
  {
    var th := s.locals[t];
    var sh', th' := ActShared(c, s.sh, th, a), ActLocal(c, s.sh, th, a);
    assert CacheOk(c, th);
    ChunksStayOk(c, s.sh, th, a);
    forall b | Allocated(c, th, a) == [b] ensures b !in s.sh.live {
      AllocatedIsNotLive(c, s, t, a, b);
    }
    forall b: int ensures Balanced(c, s.sh, th, sh', th', b) {
      ActionBalance(c, s.sh, th, a, b);
    }
    if a.Carve? {
      CarveSizes(c, s.sh, th, a);
    } else {
      OtherSizes(c, s.sh, th, a);
    }
    PartitionMove(c, s, t, sh', th');
  }

  lemma InvStep(c: Config, s: State, t: nat, a: Action)
    requires Inv(c, s) && Enabled(c, s, t, a)
    ensures Inv(c, Apply(c, s, t, a))
  {
    PartitionStep(c, s, t, a);
    assert CacheOk(c, s.locals[t]);
    CacheOkStep(c, s.sh, s.locals[t], a);
    FlushesPaidStep(c, s.sh, s.locals[t], a);
    RefillsPaidStep(c, s.sh, s.locals[t], a);
    BoundStep(c, s, t, a);
  }

  lemma InvInit(c: Config, s: State)
    requires Proper(c) && Init(s)
    ensures Inv(c, s)
  {
    forall b: int ensures Copies(s, b) == 0 {
      SumZero(s.locals, CopiesIn(b));
    }
    SumZero(s.locals, CacheSize);
    SumZero(s.locals, Claim(c));
  }

  lemma {:induction false} InvRun(c: Config, states: seq<State>, steps: seq<Step>, i: nat)
    requires IsRun(c, states, steps) && i < |states|
    ensures Inv(c, states[i])
  {
    if i == 0 {
      InvInit(c, states[0]);
    } else {
      InvRun(c, states, steps, i - 1);
      InvStep(c, states[i - 1], steps[i - 1].t, steps[i - 1].action);
    }
  }

  lemma {:induction false} SameThreads(c: Config, states: seq<State>, steps: seq<Step>, i: nat)
    requires IsRun(c, states, steps) && i < |states|
    ensures |states[i].locals| == |states[0].locals|
  {
    if i > 0 {
      SameThreads(c, states, steps, i - 1);
    }
  }

  /** Every carved block is in exactly one of: client hands, one cache (once), the global
      list (once); nothing else is anywhere.  Blocks are aligned and pairwise disjoint. */
  lemma BlocksArePartitioned(c: Config, states: seq<State>, steps: seq<Step>, i: nat)
    requires IsRun(c, states, steps) && i < |states|
    ensures var blocks := Carved(c, states[i].sh.chunks);
            && (forall b: int :: Copies(states[i], b) == if b in blocks then 1 else 0)
            && (forall k | 0 <= k < |blocks| :: blocks[k] % MAX_ALIGN == 0)
            && (forall j, k | 0 <= j < k < |blocks| :: Apart(c, blocks[j], blocks[k]))
  {
    InvRun(c, states, steps, i);
    var chunks := states[i].sh.chunks;
    var blocks := Carved(c, chunks);
    forall b: int ensures Copies(states[i], b) == if b in blocks then 1 else 0 {
      CarvedOnce(c, chunks, b);
      assert b in multiset(blocks) <==> b in blocks;
    }
    forall k | 0 <= k < |blocks| ensures blocks[k] % MAX_ALIGN == 0 {
      BlocksAreAligned(c, chunks, k);
    }
    forall j, k | 0 <= j < k < |blocks| ensures Apart(c, blocks[j], blocks[k]) {
      BlocksAreDisjoint(c, chunks, j, k);
    }
  }

  lemma LiveBlocksAreApart(c: Config, s: State, b: int, held: int)
    requires Partition(c, s) && b in s.sh.live && held in s.sh.live && b != held
    ensures Apart(c, b, held)
  {
    var blocks := Carved(c, s.sh.chunks);
    assert Copies(s, b) > 0 && Copies(s, held) > 0;
    assert b in multiset(blocks) && held in multiset(blocks);
    var j :| 0 <= j < |blocks| && blocks[j] == b;
    var k :| 0 <= k < |blocks| && blocks[k] == held;
    if j < k {
      BlocksAreDisjoint(c, s.sh.chunks, j, k);
    } else {
      BlocksAreDisjoint(c, s.sh.chunks, k, j);
    }
  }

  lemma AllocatedBecomesLive(c: Config, sh: Shared, th: Local, a: Action, b: int)
    requires Proper(c) && CacheOk(c, th) && Can(c, sh, th, a) && Allocated(c, th, a) == [b]
    ensures ActShared(c, sh, th, a).live == sh.live + {b}
  {
    if a.Carve? {
      var blocks := ChunkBlocks(a.chunk, c.blockSize, c.perChunk);
      assert th.cache + blocks == blocks;
    }
  }

  /** `allocate` never returns a block that a client still holds, nor one overlapping it. */
  lemma AllocateReturnsUnusedBlock(c: Config, states: seq<State>, steps: seq<Step>, i: nat, b: int, held: int)
    requires IsRun(c, states, steps) && i < |steps|
    requires Allocated(c, states[i].locals[steps[i].t], steps[i].action) == [b]
    requires held in states[i].sh.live
    ensures Apart(c, b, held) && b in states[i + 1].sh.live
  {
    InvRun(c, states, steps, i);
    InvRun(c, states, steps, i + 1);
    var s, t, a := states[i], steps[i].t, steps[i].action;
    assert CacheOk(c, s.locals[t]);
    AllocatedIsNotLive(c, s, t, a, b);
    AllocatedBecomesLive(c, s.sh, s.locals[t], a, b);
    LiveBlocksAreApart(c, states[i + 1], b, held);
  }

  /** Memory never exceeds the peak demand by more than a fixed amount per thread, even when
      several threads see an empty global list and all carve. */
  lemma MemoryBound(c: Config, states: seq<State>, steps: seq<Step>, i: nat)
    requires IsRun(c, states, steps) && i < |states| && c.limit >= 1
    ensures c.perChunk * |states[i].sh.chunks|
            <= states[i].sh.peak + |states[0].locals| * Max(2 * c.limit + 1, c.perChunk)
  {
    InvRun(c, states, steps, i);
    SameThreads(c, states, steps, i);
    CarvedSize(c, states[i].sh.chunks);
  }

  /** Apart from one per carved chunk, a thread flushes at most once per `limit + 1` frees. */
  lemma FlushBound(c: Config, states: seq<State>, steps: seq<Step>, i: nat, t: nat)
    requires IsRun(c, states, steps) && i < |states| && t < |states[i].locals|
    ensures var th := states[i].locals[t];
            (c.limit + 1) * (th.flushes - th.carves) <= th.frees
  {
    InvRun(c, states, steps, i);
    assert FlushesPaid(c, states[i].locals[t]);
  }

  /** A thread finds at least `limit` blocks in the global list at most once per `limit`
      allocations, and once more. */
  lemma RefillBound(c: Config, states: seq<State>, steps: seq<Step>, i: nat, t: nat)
    requires IsRun(c, states, steps) && i < |states| && t < |states[i].locals|
    ensures var th := states[i].locals[t];
            c.limit * (th.fulls - 1) <= th.allocs
  {
    InvRun(c, states, steps, i);
    var th := states[i].locals[t];
    assert RefillsPaid(c, th);
    MulSucc(c.limit, th.fulls - 1);
  }
}
