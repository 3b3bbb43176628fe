// internal/block/block.go and internal/block/prefetch_block.go.
// The contents of a block as a value, with one function for each operation.
module Blocks {
  import opened Bytes
  import opened Options

  datatype Fallible<+T> = Ok(value: T) | Err(error: BlockError)

  datatype BlockError = NoRoom | OutOfBounds | NegativeOffset | AlreadySet | InvalidWhence

  /** The buffer of a block: `capacity` mapped bytes, of which `buffer` are in use. */
  datatype MemoryBlock = MemoryBlock(buffer: seq<byte>, capacity: nat, readSeek: int) {

    ghost predicate Valid() {
      |buffer| <= capacity && 0 <= readSeek <= |buffer|
    }

    function Size(): int {
      |buffer|
    }

    function Reuse(): MemoryBlock {
      this.(buffer := [], readSeek := 0)
    }

    function Write(data: seq<byte>): Fallible<MemoryBlock> {
      if |data| > capacity - |buffer| then Err(NoRoom) else Ok(this.(buffer := buffer + data))
    }

    /** Up to `n` bytes from the read position on; the flag is io.EOF. */
    function Read(n: nat): Fallible<(seq<byte>, bool)> {
      if readSeek < 0 then Err(OutOfBounds)
      else if readSeek >= |buffer| then Ok(([], true))
      else Ok((buffer[readSeek..Min(readSeek + n, |buffer|)], readSeek + n >= |buffer|))
    }

    function AfterRead(n: nat): MemoryBlock {
      match Read(n)
      case Ok(got) => this.(readSeek := readSeek + |got.0|)
      case Err(_) => this
    }

    /** `whence`: 0 from the start, 1 from the read position, 2 from the end. */
    function Seek(offset: int, whence: int): Fallible<MemoryBlock> {
      if whence !in {0, 1, 2} then Err(InvalidWhence)
      else
        var target := offset + if whence == 0 then 0 else if whence == 1 then readSeek else |buffer|;
        if target < 0 || target > |buffer| then Err(OutOfBounds) else Ok(this.(readSeek := target))
    }
  }

  function NewMemoryBlock(blockSize: nat): MemoryBlock {
    MemoryBlock([], blockSize, 0)
  }

  /** What is read by calls with these sizes, one after the other. */
  function ReadInTurn(m: MemoryBlock, sizes: seq<nat>): (seq<byte>, MemoryBlock)
    decreases |sizes|
  {
    if sizes == [] then ([], m)
    else match m.Read(sizes[0])
      case Err(_) => ([], m)
      case Ok(got) =>
        var (rest, after) := ReadInTurn(m.AfterRead(sizes[0]), sizes[1..]);
        (got.0 + rest, after)
  }

  function Total(sizes: seq<nat>): nat {
    if sizes == [] then 0 else sizes[0] + Total(sizes[1..])
  }

  /** However a reader cuts up its calls, it gets the bytes once, in order, up to the end. */
  lemma {:induction false} ReadsAreContiguous(m: MemoryBlock, sizes: seq<nat>)
    requires m.Valid()
    ensures var end := Min(m.readSeek + Total(sizes), |m.buffer|);
      ReadInTurn(m, sizes) == (m.buffer[m.readSeek..end], m.(readSeek := end))
    decreases |sizes|
  {
    if sizes == [] {
      assert m.buffer[m.readSeek..m.readSeek] == [];
    } else {
      var next := m.AfterRead(sizes[0]);
      assert m.Read(sizes[0]).value.0 == m.buffer[m.readSeek..next.readSeek];
      ReadsAreContiguous(next, sizes[1..]);
      var mid, end := next.readSeek, Min(m.readSeek + Total(sizes), |m.buffer|);
      assert m.buffer[m.readSeek..mid] + m.buffer[mid..end] == m.buffer[m.readSeek..end];
    }
  }

  /** The end is reported by the read that reaches it, and by every later one. */
  lemma EndIsReported(m: MemoryBlock, n: nat)
    requires m.Valid()
    ensures m.Read(n).Ok? && (m.Read(n).value.1 <==> m.AfterRead(n).readSeek == |m.buffer|)
  {
  }

  /** Where a seek counts from. */
  function Origin(m: MemoryBlock, whence: int): Option<int> {
    match whence
    case 0 => Some(0)
    case 1 => Some(m.readSeek)
    case 2 => Some(|m.buffer|)
    case _ => None
  }

  /** A seek succeeds exactly if it leads into the data or to its end, and reads go on from there. */
  lemma SeekThenRead(m: MemoryBlock, offset: int, whence: int, sizes: seq<nat>)
    requires m.Valid()
    ensures m.Seek(offset, whence).Ok? <==>
      Origin(m, whence).Some? && 0 <= Origin(m, whence).value + offset <= |m.buffer|
    ensures m.Seek(offset, whence).Ok? ==>
      var start := Origin(m, whence).value + offset;
      ReadInTurn(m.Seek(offset, whence).value, sizes).0 == m.buffer[start..Min(start + Total(sizes), |m.buffer|)]
  {
    if m.Seek(offset, whence).Ok? {
      ReadsAreContiguous(m.Seek(offset, whence).value, sizes);
    }
  }

  function WriteInTurn(m: MemoryBlock, chunks: seq<seq<byte>>): Fallible<MemoryBlock>
    decreases |chunks|
  {
    if chunks == [] then Ok(m)
    else match m.Write(chunks[0])
      case Err(e) => Err(e)
      case Ok(after) => WriteInTurn(after, chunks[1..])
  }

  function Flat(chunks: seq<seq<byte>>): seq<byte> {
    if chunks == [] then [] else chunks[0] + Flat(chunks[1..])
  }

  /** Writes are all accepted exactly if they fit together, and then stand one after the other. */
  lemma {:induction false} WritesAppend(m: MemoryBlock, chunks: seq<seq<byte>>)
    requires m.Valid()
    ensures WriteInTurn(m, chunks).Ok? <==> |m.buffer| + |Flat(chunks)| <= m.capacity
    ensures WriteInTurn(m, chunks).Ok? ==> WriteInTurn(m, chunks).value == m.(buffer := m.buffer + Flat(chunks))
    decreases |chunks|
  {
    if chunks == [] {
      assert m.buffer + Flat(chunks) == m.buffer;
    } else if m.Write(chunks[0]).Ok? {
      WritesAppend(m.Write(chunks[0]).value, chunks[1..]);
      assert m.buffer + chunks[0] + Flat(chunks[1..]) == m.buffer + Flat(chunks);
    }
  }

  lemma {:induction false} FlatMore(chunks: seq<seq<byte>>, last: seq<byte>)
    ensures Flat(chunks + [last]) == Flat(chunks) + last
  {
    if chunks == [] {
      assert [last][1..] == [];
    } else {
      assert (chunks + [last])[1..] == chunks[1..] + [last];
      FlatMore(chunks[1..], last);
    }
  }

  /** A block reused, written in any pieces that fit and read in any that reach the end gives back what was written. */
  lemma WritesReadBack(m: MemoryBlock, chunks: seq<seq<byte>>, sizes: seq<nat>)
    requires |Flat(chunks)| <= Min(m.capacity, Total(sizes))
    ensures var filled := WriteInTurn(m.Reuse(), chunks);
      filled.Ok? && ReadInTurn(filled.value, sizes).0 == Flat(chunks)
  {
    WritesAppend(m.Reuse(), chunks);
    ReadsAreContiguous(WriteInTurn(m.Reuse(), chunks).value, sizes);
  }

  datatype BlockState = InProgress | Downloaded | DownloadFailed

  /** The one-slot notification channel of a block. */
  datatype Notification = Empty | Full(value: BlockState) | Closed

  datatype PrefetchBlock =
    PrefetchBlock(mem: MemoryBlock, status: BlockState, notification: Notification,
                  absStartOff: int, refCount: int)
  {
    function Reuse(): PrefetchBlock {
      PrefetchBlock(mem.Reuse(), InProgress, Empty, -1, 0)
    }

    function SetAbsStartOff(startOff: int): Fallible<PrefetchBlock> {
      if startOff < 0 then Err(NegativeOffset)
      else if absStartOff >= 0 then Err(AlreadySet)
      else Ok(this.(absStartOff := startOff))
    }

    /** The bounds of the slice that `ReadAtSlice` hands out; the flag says it is short. */
    function ReadAtSlice(off: int, size: int): Fallible<(int, int, bool)> {
      if off < 0 || off >= mem.Size() then Err(OutOfBounds)
      else if off + size > mem.Size() then Ok((off, mem.Size(), true))
      else Ok((off, off + size, false))
    }

    /** The producer has notified, so it no longer touches the block. */
    predicate Settled() {
      !notification.Empty?
    }

    /** The status a consumer sees, or will see on its next wait. */
    function Outcome(): BlockState {
      if notification.Full? then notification.value else status
    }

    /** Panics in the source when the slot is taken or closed. */
    function NotifyReady(value: BlockState): PrefetchBlock
      requires notification.Empty?
    {
      this.(notification := Full(value))
    }

    /** What a wait that succeeds leaves behind: the status is kept and the channel closed. */
    function AwaitReady(): PrefetchBlock
      requires Settled()
    {
      if notification.Full? then this.(status := notification.value, notification := Closed) else this
    }
  }

  function NewPrefetchBlock(blockSize: nat): PrefetchBlock {
    PrefetchBlock(NewMemoryBlock(blockSize), InProgress, Empty, -1, 0)
  }

  /** A block is placed once, and again only after it was reused. */
  lemma PlacedOnce(b: PrefetchBlock, start: int, other: int)
    ensures b.Reuse().SetAbsStartOff(start).Ok? <==> start >= 0
    ensures b.SetAbsStartOff(start).Ok? ==>
      && b.SetAbsStartOff(start).value.absStartOff == start
      && !b.SetAbsStartOff(start).value.SetAbsStartOff(other).Ok?
  {
  }
}
