/** Any sequence of buffer operations: the readable bytes are a byte queue's, and the
    storage stays bounded. */
module BufferRuns {
  import opened Buffers

  datatype Op =
    | Append(data: string)
    | Retrieve(len: nat)
    | RetrieveAll
    | ReadFd(n: int, bytes: string)
    | WriteFd(count: int)

  predicate Allowed(b: Buf, op: Op) {
    && Valid(b)
    && match op
       case ReadFd(n, bytes) => MayRead(b, n, bytes)
       case WriteFd(n) => MayWrite(b, n)
       case _ => true
  }

  function Apply(b: Buf, op: Op): Buf
    requires Allowed(b, op)
  {
    match op
    case Append(data) => Appended(b, data)
    case Retrieve(len) => Retrieved(b, len)
    case RetrieveAll => Retrieved(b, |Content(b)|)
    case ReadFd(n, bytes) => FdRead(b, n, bytes)
    case WriteFd(n) => FdWritten(b, n)
  }

  ghost predicate IsRun(states: seq<Buf>, ops: seq<Op>, initialSize: nat) {
    && |states| == |ops| + 1
    && states[0] == Fresh(initialSize)
    && forall i | 0 <= i < |ops| :: Allowed(states[i], ops[i]) && states[i + 1] == Apply(states[i], ops[i])
  }

  // ---------------------------------------------------------------- the byte queue

  /** The bytes an operation puts in. */
  function Given(op: Op): string {
    match op
    case Append(data) => data
    case ReadFd(n, bytes) => if n < 0 then "" else bytes
    case _ => ""
  }

  /** How many of the `available` bytes an operation takes out. */
  function Wanted(op: Op, available: nat): nat {
    match op
    case Retrieve(len) => if len < available then len else available
    case RetrieveAll => available
    case WriteFd(n) => if n < 0 then 0 else if n < available then n else available
    case _ => 0
  }

  /** All bytes put in by the first `n` operations. */
  function Supplied(ops: seq<Op>, n: nat): string
    requires n <= |ops|
  {
    if n == 0 then "" else Supplied(ops, n - 1) + Given(ops[n - 1])
  }

  /** How many of them a queue would have handed out. */
  function Taken(ops: seq<Op>, n: nat): (k: nat)
    requires n <= |ops|
    ensures k <= |Supplied(ops, n)|
  {
    if n == 0 then 0
    else Taken(ops, n - 1) + Wanted(ops[n - 1], |Supplied(ops, n - 1)| - Taken(ops, n - 1))
  }

  lemma FilledIs(b: Buf, data: string)
    requires Valid(b) && |data| <= Writable(b)
    ensures Valid(Filled(b, data)) && Content(Filled(b, data)) == Content(b) + data
    ensures |Filled(b, data).storage| == |b.storage|
  {
  }

  lemma AppendedIs(b: Buf, data: string)
    requires Valid(b)
    ensures Valid(Appended(b, data)) && Content(Appended(b, data)) == Content(b) + data
    ensures |Appended(b, data).storage|
         == if |data| > Writable(b) && Grows(b, |data|) then b.writeIndex + |data| else |b.storage|
  {
    if |data| > Writable(b) {
      CompactionMovesDown(b, |data|);
      FilledIs(Spaced(b, |data|), data);
    } else {
      FilledIs(b, data);
    }
  }

  lemma ReadIs(b: Buf, n: nat, bytes: string)
    requires MayRead(b, n, bytes)
    ensures Valid(FdRead(b, n, bytes)) && Content(FdRead(b, n, bytes)) == Content(b) + bytes
  {
    if n <= Writable(b) {
      FilledIs(b, bytes);
    } else {
      var (first, rest) := (bytes[..Writable(b)], bytes[Writable(b)..]);
      FilledIs(b, first);
      AppendedIs(Filled(b, first), rest);
      assert Content(b) + bytes == Content(b) + first + rest;
    }
  }

  /** One operation on the readable bytes. */
  lemma StepIs(b: Buf, op: Op)
    requires Allowed(b, op)
    ensures Valid(Apply(b, op))
    ensures Content(Apply(b, op)) == Content(b)[Wanted(op, |Content(b)|)..] + Given(op)
  {
    match op
    case Append(data) => AppendedIs(b, data);
    case ReadFd(n, bytes) =>
      if n >= 0 {
        ReadIs(b, n, bytes);
      }
    case _ =>
  }

  lemma Shift(all: string, taken: nat, more: nat, given: string)
    requires taken <= |all| && more <= |all| - taken
    ensures all[taken..][more..] + given == (all + given)[taken + more..]
  {
  }

  /** The bytes a queue would hold. */
  function Queued(ops: seq<Op>, n: nat): string
    requires n <= |ops|
  {
    Supplied(ops, n)[Taken(ops, n)..]
  }

  lemma {:induction false} HistoryStep(ops: seq<Op>, n: nat)
    requires n < |ops|
    ensures Supplied(ops, n + 1) == Supplied(ops, n) + Given(ops[n])
    ensures Taken(ops, n + 1) == Taken(ops, n) + Wanted(ops[n], |Supplied(ops, n)| - Taken(ops, n))
  {
  }

  lemma {:induction false} QueuedStep(ops: seq<Op>, n: nat)
    requires n < |ops|
    ensures Queued(ops, n + 1) == Queued(ops, n)[Wanted(ops[n], |Queued(ops, n)|)..] + Given(ops[n])
  {
    var all, taken, op := Supplied(ops, n), Taken(ops, n), ops[n];
    HistoryStep(ops, n);
    calc {
      Queued(ops, n + 1);
      (all + Given(op))[taken + Wanted(op, |all| - taken)..];
      { Shift(all, taken, Wanted(op, |all| - taken), Given(op)); }
      all[taken..][Wanted(op, |all| - taken)..] + Given(op);
    }
  }

  /** The readable bytes are those put in and not yet taken out, in order. */
  lemma {:induction false} BufferIsByteQueue(states: seq<Buf>, ops: seq<Op>, initialSize: nat, i: nat)
    requires IsRun(states, ops, initialSize) && i < |states|
    ensures Valid(states[i]) && Content(states[i]) == Queued(ops, i)
  {
    if i > 0 {
      BufferIsByteQueue(states, ops, initialSize, i - 1);
      StepIs(states[i - 1], ops[i - 1]);
      QueuedStep(ops, i - 1);
    }
  }

  /** The bytes the first `n` operations took out, one after the other. */
  ghost function Delivered(states: seq<Buf>, ops: seq<Op>, n: nat): string
    requires n <= |ops| < |states| && forall j | 0 <= j < n :: Valid(states[j])
  {
    if n == 0 then ""
    else Delivered(states, ops, n - 1) + Content(states[n - 1])[..Wanted(ops[n - 1], |Content(states[n - 1])|)]
  }

  lemma Split(before: string, content: string, n: nat, given: string)
    requires n <= |content|
    ensures before + content + given == before + content[..n] + (content[n..] + given)
  {
    assert content == content[..n] + content[n..];
  }

  /** What has been delivered, followed by what is readable, is all that was put in. */
  lemma {:induction false} DeliveredInOrder(states: seq<Buf>, ops: seq<Op>, initialSize: nat, i: nat)
    requires IsRun(states, ops, initialSize) && i < |states|
    ensures forall j | 0 <= j <= i :: Valid(states[j])
    ensures Delivered(states, ops, i) + Content(states[i]) == Supplied(ops, i)
  {
    if i > 0 {
      DeliveredInOrder(states, ops, initialSize, i - 1);
      var b, op := states[i - 1], ops[i - 1];
      StepIs(b, op);
      Split(Delivered(states, ops, i - 1), Content(b), Wanted(op, |Content(b)|), Given(op));
    }
  }

  // ---------------------------------------------------------------- capacity

  /** Storage grows exactly if the readable bytes and the new ones do not fit behind the
      prepend area, however far the read index has advanced. */
  lemma GrowsIff(b: Buf, data: string)
    requires Valid(b)
    ensures |Appended(b, data).storage| > |b.storage| <==> CHEAP_PREPEND + |Content(b)| + |data| > |b.storage|
    ensures |Appended(b, data).storage| >= |b.storage|
  {
    AppendedIs(b, data);
  }

  /** A drained buffer has all of its storage to write to again. */
  lemma DrainingReclaims(b: Buf, len: nat)
    requires Valid(b)
    ensures |b.storage| == |Retrieved(b, len).storage|
    ensures len >= |Content(b)| ==> Writable(Retrieved(b, len)) == |b.storage| - CHEAP_PREPEND
    ensures len < |Content(b)| ==> Writable(Retrieved(b, len)) == Writable(b)
  {
  }

  /** What an operation hands to `append`: for `readFd`, the part that overflowed. */
  function Overflow(b: Buf, op: Op): nat
    requires Allowed(b, op)
  {
    match op
    case Append(data) => |data|
    case ReadFd(n, bytes) => if n > Writable(b) then n - Writable(b) else 0
    case _ => 0
  }

  lemma AppendedSize(b: Buf, data: string, most: nat, longest: nat)
    requires Valid(b) && |data| <= longest && |Content(b)| + |data| <= most
    ensures |Appended(b, data).storage| == |b.storage| || |Appended(b, data).storage| <= 7 + most + longest
  {
    AppendedIs(b, data);
  }

  lemma StepSize(b: Buf, op: Op, most: nat, longest: nat)
    requires Allowed(b, op) && Overflow(b, op) <= longest && |Content(b)| + |Given(op)| <= most
    ensures |Apply(b, op).storage| == |b.storage| || |Apply(b, op).storage| <= 7 + most + longest
  {
    match op
    case Append(data) => AppendedSize(b, data, most, longest);
    case ReadFd(n, bytes) =>
      if n > Writable(b) {
        FilledIs(b, bytes[..Writable(b)]);
        AppendedSize(Filled(b, bytes[..Writable(b)]), bytes[Writable(b)..], most, longest);
      }
    case _ =>
  }

  /** If nothing longer than `longest` is appended and there are never more than `most` readable
      bytes, storage never exceeds its initial size or `7 + most + longest`, whichever is larger. */
  lemma {:induction false} CapacityBound(states: seq<Buf>, ops: seq<Op>, initialSize: nat, most: nat, longest: nat, i: nat)
    requires IsRun(states, ops, initialSize) && i < |states|
    requires forall j | 0 <= j < |states| :: Valid(states[j]) && |Content(states[j])| <= most
    requires forall j | 0 <= j < |ops| :: Overflow(states[j], ops[j]) <= longest
    ensures |states[i].storage| <= CHEAP_PREPEND + initialSize || |states[i].storage| <= 7 + most + longest
  {
    if i > 0 {
      CapacityBound(states, ops, initialSize, most, longest, i - 1);
      var b, op := states[i - 1], ops[i - 1];
      StepIs(b, op);
      assert |Content(states[i])| <= most;
      assert Given(op) == "" || Wanted(op, |Content(b)|) == 0;
      StepSize(b, op, most, longest);
    }
  }

  ghost predicate Within(states: seq<Buf>, ops: seq<Op>, initialSize: nat, most: nat, longest: nat) {
    && IsRun(states, ops, initialSize)
    && (forall j | 0 <= j < |states| :: Valid(states[j]) && |Content(states[j])| <= most)
    && (forall j | 0 <= j < |ops| :: Overflow(states[j], ops[j]) <= longest)
  }

  lemma Extended(states: seq<Buf>, ops: seq<Op>, initialSize: nat, most: nat, longest: nat, op: Op, next: Buf)
    requires Within(states, ops, initialSize, most, longest)
    requires Allowed(states[|ops|], op) && next == Apply(states[|ops|], op)
    requires Valid(next) && |Content(next)| <= most && Overflow(states[|ops|], op) <= longest
    ensures Within(states + [next], ops + [op], initialSize, most, longest)
  {
    var states', ops' := states + [next], ops + [op];
    forall i | 0 <= i < |ops'|
      ensures Allowed(states'[i], ops'[i]) && states'[i + 1] == Apply(states'[i], ops'[i])
      ensures Overflow(states'[i], ops'[i]) <= longest
    {
      if i < |ops| {
        assert states'[i] == states[i] && states'[i + 1] == states[i + 1] && ops'[i] == ops[i];
      }
    }
    forall j | 0 <= j < |states'| ensures Valid(states'[j]) && |Content(states'[j])| <= most {
      assert j < |states| ==> states'[j] == states[j];
    }
  }

  /** Storage filled one byte at a time. */
  lemma {:induction false} FilledUp(size: nat, n: nat, most: nat, longest: nat) returns (states: seq<Buf>, ops: seq<Op>)
    requires n <= size <= most && longest > 0
    ensures Within(states, ops, size, most, longest)
    ensures var b := states[|ops|];
            |b.storage| == CHEAP_PREPEND + size && b.readIndex == CHEAP_PREPEND && b.writeIndex == CHEAP_PREPEND + n
  {
    if n == 0 {
      states, ops := [Fresh(size)], [];
    } else {
      states, ops := FilledUp(size, n - 1, most, longest);
      var b := states[|ops|];
      AppendedIs(b, Zeros(1));
      Extended(states, ops, size, most, longest, Append(Zeros(1)), Appended(b, Zeros(1)));
      states, ops := states + [Appended(b, Zeros(1))], ops + [Append(Zeros(1))];
    }
  }

  /** The bound is met for all limits: a run that keeps within them and ends with that much
      storage. */
  lemma CapacityIsReached(most: nat, longest: nat) returns (states: seq<Buf>, ops: seq<Op>)
    requires 0 < longest < most
    ensures Within(states, ops, most - 1, most, longest)
    ensures |states[|ops|].storage| == 7 + most + longest > CHEAP_PREPEND + (most - 1)
  {
    states, ops := FilledUp(most - 1, most - 1, most, longest);
    var full := states[|ops|];
    var part := Retrieved(full, longest - 1);
    Extended(states, ops, most - 1, most, longest, Retrieve(longest - 1), part);
    states, ops := states + [part], ops + [Retrieve(longest - 1)];
    var bytes := Zeros(longest);
    AppendedIs(part, bytes);
    Extended(states, ops, most - 1, most, longest, Append(bytes), Appended(part, bytes));
    states, ops := states + [Appended(part, bytes)], ops + [Append(bytes)];
  }
}
