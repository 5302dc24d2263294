/** The gap buffer of `Buffer.hpp`: bytes are appended after `writeIndex`, taken from
    `readIndex`, and moved down or into larger storage when they no longer fit. */
module Buffers {

  const CHEAP_PREPEND := 8
  const EXTRA := 65536

  datatype Buf = Buf(storage: seq<char>, readIndex: nat, writeIndex: nat)

  predicate Valid(b: Buf) {
    CHEAP_PREPEND <= b.readIndex <= b.writeIndex <= |b.storage|
  }

  function Content(b: Buf): string
    requires Valid(b)
  {
    b.storage[b.readIndex..b.writeIndex]
  }

  function Writable(b: Buf): nat
    requires Valid(b)
  {
    |b.storage| - b.writeIndex
  }

  function Zeros(n: nat): string {
    seq(n, _ => '\0')
  }

  function Fresh(initialSize: nat): Buf {
    Buf(Zeros(CHEAP_PREPEND + initialSize), CHEAP_PREPEND, CHEAP_PREPEND)
  }

  function Retrieved(b: Buf, len: nat): Buf
    requires Valid(b)
  {
    if len < b.writeIndex - b.readIndex then b.(readIndex := b.readIndex + len)
    else b.(readIndex := CHEAP_PREPEND, writeIndex := CHEAP_PREPEND)
  }

  predicate Grows(b: Buf, len: nat)
    requires Valid(b)
  {
    Writable(b) + b.readIndex < len + CHEAP_PREPEND
  }

  function Spaced(b: Buf, len: nat): Buf
    requires Valid(b) && len > Writable(b)
  {
    if Grows(b, len) then b.(storage := b.storage + Zeros(b.writeIndex + len - |b.storage|))
    else
      var end := CHEAP_PREPEND + (b.writeIndex - b.readIndex);
      Buf(b.storage[..CHEAP_PREPEND] + Content(b) + b.storage[end..], CHEAP_PREPEND, end)
  }

  /** Bytes put after `writeIndex`, where there is room for them. */
  function Filled(b: Buf, data: string): Buf
    requires Valid(b) && |data| <= Writable(b)
  {
    b.(storage := b.storage[..b.writeIndex] + data + b.storage[b.writeIndex + |data|..],
       writeIndex := b.writeIndex + |data|)
  }

  /** The move is only ever downwards, so copying front to back reads each byte before
      it is overwritten. */
  lemma CompactionMovesDown(b: Buf, len: nat)
    requires Valid(b) && len > Writable(b)
    ensures !Grows(b, len) ==> CHEAP_PREPEND < b.readIndex
    ensures Valid(Spaced(b, len)) && Content(Spaced(b, len)) == Content(b) && len <= Writable(Spaced(b, len))
    ensures |Spaced(b, len).storage| == if Grows(b, len) then b.writeIndex + len else |b.storage|
  {
  }

  function Appended(b: Buf, data: string): Buf
    requires Valid(b)
  {
    if |data| > Writable(b) then CompactionMovesDown(b, |data|); Filled(Spaced(b, |data|), data)
    else Filled(b, data)
  }

  /** How much `readv` may deliver. */
  predicate MayRead(b: Buf, n: int, bytes: string) {
    Valid(b) && n <= Writable(b) + (if Writable(b) < EXTRA then EXTRA else 0) && (n >= 0 ==> |bytes| == n)
  }

  function FdRead(b: Buf, n: int, bytes: string): Buf
    requires MayRead(b, n, bytes)
  {
    if n < 0 then b
    else if n <= Writable(b) then Filled(b, bytes)
    else Appended(Filled(b, bytes[..Writable(b)]), bytes[Writable(b)..])
  }

  predicate MayWrite(b: Buf, n: int) {
    Valid(b) && n <= b.writeIndex - b.readIndex
  }

  function FdWritten(b: Buf, n: int): Buf
    requires MayWrite(b, n)
  {
    if n < 0 then b else Retrieved(b, n)
  }

  /** Storage after the first `i` bytes from `from` on have been copied down. */
  ghost function Moved(storage: string, from: nat, i: nat): string
    requires CHEAP_PREPEND <= from && from + i <= |storage|
  {
    storage[..CHEAP_PREPEND] + storage[from..from + i] + storage[CHEAP_PREPEND + i..]
  }

  lemma MovedOneMore(storage: string, from: nat, i: nat)
    requires CHEAP_PREPEND < from && from + i < |storage|
    ensures Moved(storage, from, i)[from + i] == storage[from + i]
    ensures Moved(storage, from, i + 1) == Moved(storage, from, i)[CHEAP_PREPEND + i := storage[from + i]]
  {
  }

  // ---------------------------------------------------------------- the object

  class Buffer {
    var storage: array<char>
    var readIndex: nat
    var writeIndex: nat

    ghost predicate Inv()
      reads this
    {
      CHEAP_PREPEND <= readIndex <= writeIndex <= storage.Length
    }

    ghost function View(): Buf
      reads this, storage
    {
      Buf(storage[..], readIndex, writeIndex)
    }

    constructor (initialSize: nat)
      ensures Inv() && fresh(storage) && View() == Fresh(initialSize)
    {
      storage := new char[CHEAP_PREPEND + initialSize](_ => '\0');
      readIndex, writeIndex := CHEAP_PREPEND, CHEAP_PREPEND;
    }

    method Retrieve(len: nat)
      requires Inv()
      modifies this`readIndex, this`writeIndex
      ensures Inv() && View() == Retrieved(old(View()), len)
    {
      if len < writeIndex - readIndex {
        readIndex := readIndex + len;
      } else {
        RetrieveAll();
      }
    }

    method RetrieveAll()
      requires Inv()
      modifies this`readIndex, this`writeIndex
      ensures Inv() && View() == old(View()).(readIndex := CHEAP_PREPEND, writeIndex := CHEAP_PREPEND)
    {
      readIndex, writeIndex := CHEAP_PREPEND, CHEAP_PREPEND;
    }

    method RetrieveAsString(len: nat) returns (result: string)
      requires Inv()
      modifies this`readIndex, this`writeIndex
      ensures Inv() && View() == Retrieved(old(View()), len)
      ensures result + Content(View()) == old(Content(View()))
      ensures |result| == if len < old(writeIndex - readIndex) then len else old(writeIndex - readIndex)
    {
      var n := if len < writeIndex - readIndex then len else writeIndex - readIndex;
      result := storage[readIndex..readIndex + n];
      Retrieve(n);
    }

    method Append(data: string)
      requires Inv()
      modifies this, storage
      ensures Inv() && (storage == old(storage) || fresh(storage)) && View() == Appended(old(View()), data)
    {
      if |data| > storage.Length - writeIndex {
        MakeSpace(|data|);
      }
      Fill(data);
    }

    /** The copy to `beginWrite()`. */
    method Fill(data: string)
      requires Inv() && |data| <= storage.Length - writeIndex
      modifies this`writeIndex, storage
      ensures Inv() && View() == Filled(old(View()), data)
    {
      var i := 0;
      while i < |data|
        invariant i <= |data|
        invariant storage[writeIndex..writeIndex + i] == data[..i]
        invariant storage[..writeIndex] == old(storage[..writeIndex])
        invariant storage[writeIndex + i..] == old(storage[..])[writeIndex + i..]
        modifies storage
      {
        storage[writeIndex + i] := data[i];
        i := i + 1;
      }
      writeIndex := writeIndex + |data|;
    }

    method MakeSpace(len: nat)
      requires Inv() && len > storage.Length - writeIndex
      modifies this, storage
      ensures Inv() && (storage == old(storage) || fresh(storage))
      ensures View() == Spaced(old(View()), len) && len <= storage.Length - writeIndex
    {
      if storage.Length - writeIndex + readIndex < len + CHEAP_PREPEND {
        Resize(writeIndex + len);
      } else {
        CompactionMovesDown(View(), len);
        MoveDown();
      }
    }

    method Resize(size: nat)
      requires Inv() && size >= storage.Length
      modifies this`storage
      ensures Inv() && fresh(storage)
      ensures storage[..] == old(storage[..]) + Zeros(size - old(storage.Length))
    {
      var was := storage;
      var bigger := new char[size](i requires 0 <= i reads was => if i < was.Length then was[i] else '\0');
      storage := bigger;
    }

    method MoveDown()
      requires Inv() && CHEAP_PREPEND < readIndex
      modifies this`readIndex, this`writeIndex, storage
      ensures Inv()
      ensures var b := old(View());
              var end := CHEAP_PREPEND + (b.writeIndex - b.readIndex);
              View() == Buf(b.storage[..CHEAP_PREPEND] + Content(b) + b.storage[end..], CHEAP_PREPEND, end)
    {
      var readable := writeIndex - readIndex;
      ghost var was := storage[..];
      var i := 0;
      while i < readable
        invariant i <= readable
        invariant storage[..] == Moved(was, readIndex, i)
        modifies storage
      {
        MovedOneMore(was, readIndex, i);
        ghost var before := storage[..];
        var c := storage[readIndex + i];
        assert c == before[readIndex + i];
        storage[CHEAP_PREPEND + i] := c;
        assert storage[..] == before[CHEAP_PREPEND + i := c];
        i := i + 1;
      }
      readIndex := CHEAP_PREPEND;
      writeIndex := readIndex + readable;
    }

    /** `n` and `bytes` are what `readv` returned and delivered. */
    method ReadFd(n: int, bytes: string) returns (r: int)
      requires Inv() && MayRead(View(), n, bytes)
      modifies this, storage
      ensures Inv() && (storage == old(storage) || fresh(storage))
      ensures r == n && View() == FdRead(old(View()), n, bytes)
    {
      var writable := storage.Length - writeIndex;
      if n < 0 {
      } else if n <= writable {
        Fill(bytes);
      } else {
        Fill(bytes[..writable]);
        Append(bytes[writable..]);
      }
      r := n;
    }

    /** `n` is what `write` returned for the readable bytes. */
    method WriteFd(n: int) returns (r: int)
      requires Inv() && MayWrite(View(), n)
      modifies this`readIndex, this`writeIndex
      ensures Inv() && r == n && View() == FdWritten(old(View()), n)
    {
      if n >= 0 {
        Retrieve(n);
      }
      r := n;
    }
  }
}
