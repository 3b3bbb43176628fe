// internal/block/block.go and internal/block/prefetch_block.go in place: a block owns a
// mapped array, and each method is proved against the function of the same name in Blocks.
module MemoryBlocks {
  import opened Bytes
  import Blocks

  lemma CopiedSlice(copied: seq<byte>, buffer: seq<byte>, at: nat)
    requires at + |copied| <= |buffer| && forall i :: 0 <= i < |copied| ==> copied[i] == buffer[at + i]
    ensures copied == buffer[at..at + |copied|]
  {
    var slice := buffer[at..at + |copied|];
    assert forall i :: 0 <= i < |copied| ==> slice[i] == buffer[at + i];
  }

  class MemoryBlock {
    const mapped: array<byte>
    var len: nat
    var readSeek: int

    ghost predicate Valid()
      reads this
    {
      len <= mapped.Length
    }

    ghost function View(): Blocks.MemoryBlock
      reads this, mapped
      requires Valid()
    {
      Blocks.MemoryBlock(mapped[..len], mapped.Length, readSeek)
    }

    constructor (mapped: array<byte>)
      ensures this.mapped == mapped
      ensures Valid() && View() == Blocks.NewMemoryBlock(mapped.Length)
    {
      this.mapped, len, readSeek := mapped, 0, 0;
    }

    method Reuse()
      requires Valid()
      modifies this
      ensures Valid() && View() == old(View()).Reuse()
    {
      len, readSeek := 0, 0;
    }

    method Write(bytes: array<byte>) returns (n: nat, ok: bool)
      requires Valid() && bytes != mapped
      modifies this`len, mapped
      ensures Valid() && ok == old(View()).Write(bytes[..]).Ok?
      ensures View() == if ok then old(View()).Write(bytes[..]).value else old(View())
      ensures n == if ok then bytes.Length else 0
    {
      if bytes.Length > mapped.Length - len {
        return 0, false;
      }
      forall i | 0 <= i < bytes.Length {
        mapped[len + i] := bytes[i];
      }
      assert mapped[..len + bytes.Length] == old(mapped[..len]) + bytes[..];
      len := len + bytes.Length;
      return bytes.Length, true;
    }

    /** Fills the caller's buffer from its start and leaves the rest of it alone. */
    method Read(bytes: array<byte>) returns (n: nat, eof: bool, ok: bool)
      requires Valid() && bytes != mapped
      modifies this`readSeek, bytes
      ensures Valid() && View() == old(View()).AfterRead(bytes.Length)
      ensures ok == old(View()).Read(bytes.Length).Ok? && n <= bytes.Length
      ensures ok ==> (bytes[..n], eof) == old(View()).Read(bytes.Length).value
      ensures bytes[n..] == old(bytes[n..]) && (!ok ==> n == 0)
    {
      if readSeek < 0 {
        return 0, false, false;
      }
      if readSeek >= len {
        return 0, true, true;
      }
      n := Min(bytes.Length, len - readSeek);
      forall i | 0 <= i < n {
        bytes[i] := mapped[readSeek + i];
      }
      CopiedSlice(bytes[..n], mapped[..len], readSeek);
      readSeek := readSeek + n;
      return n, readSeek >= len, true;
    }

    method Seek(offset: int, whence: int) returns (position: int, ok: bool)
      requires Valid()
      modifies this`readSeek
      ensures Valid() && ok == old(View()).Seek(offset, whence).Ok?
      ensures View() == if ok then old(View()).Seek(offset, whence).value else old(View())
      ensures position == if ok then readSeek else 0
    {
      var newReadSeek := readSeek;
      match whence {
        case 0 => newReadSeek := offset;
        case 1 => newReadSeek := newReadSeek + offset;
        case 2 => newReadSeek := len + offset;
        case _ => return 0, false;
      }
      if newReadSeek < 0 || newReadSeek > len {
        return 0, false;
      }
      readSeek := newReadSeek;
      return readSeek, true;
    }
  }

  class PrefetchMemoryBlock {
    const memory: MemoryBlock
    var status: Blocks.BlockState
    var notification: Blocks.Notification
    var absStartOff: int
    var refCount: int

    ghost predicate Valid()
      reads this, memory
    {
      memory.Valid()
    }

    ghost function View(): Blocks.PrefetchBlock
      reads this, memory, memory.mapped
      requires Valid()
    {
      Blocks.PrefetchBlock(memory.View(), status, notification, absStartOff, refCount)
    }

    constructor (mapped: array<byte>)
      ensures fresh(memory) && memory.mapped == mapped
      ensures Valid() && View() == Blocks.NewPrefetchBlock(mapped.Length)
    {
      memory := new MemoryBlock(mapped);
      status, notification, absStartOff, refCount := Blocks.InProgress, Blocks.Empty, -1, 0;
    }

    method Reuse()
      requires Valid()
      modifies this, memory
      ensures Valid() && View() == old(View()).Reuse()
    {
      memory.Reuse();
      notification := Blocks.Empty;
      status := Blocks.InProgress;
      absStartOff := -1;
      refCount := 0;
    }

    method SetAbsStartOff(startOff: int) returns (ok: bool)
      requires Valid()
      modifies this`absStartOff
      ensures Valid() && ok == old(View()).SetAbsStartOff(startOff).Ok?
      ensures View() == if ok then old(View()).SetAbsStartOff(startOff).value else old(View())
    {
      if startOff < 0 || absStartOff >= 0 {
        return false;
      }
      absStartOff := startOff;
      return true;
    }

    /** The slice `mapped[start..end]`, without a copy. */
    method ReadAtSlice(off: int, size: nat) returns (start: nat, end: nat, eof: bool, ok: bool)
      requires Valid()
      ensures ok == View().ReadAtSlice(off, size).Ok?
      ensures ok ==> (start, end, eof) == View().ReadAtSlice(off, size).value
      ensures ok ==> start < memory.len && start <= end <= memory.len && (eof <==> end - start < size)
    {
      if off < 0 || off >= memory.len {
        return 0, 0, false, false;
      }
      var dataEnd := off + size;
      if dataEnd > memory.len {
        return off, memory.len, true, true;
      }
      return off, dataEnd, false, true;
    }

    /** One pass through the select; false if it is the cancellation that was chosen. */
    method AwaitReady(cancelled: bool) returns (state: Blocks.BlockState, ok: bool)
      requires Valid() && (cancelled || !notification.Empty?)
      modifies this`status, this`notification
      ensures Valid() && (!ok ==> cancelled && View() == old(View()) && state == Blocks.InProgress)
      ensures ok ==> old(View()).Settled() && View() == old(View()).AwaitReady()
      ensures ok ==> state == old(View()).Outcome() == View().Outcome()
    {
      var chooseReady: bool := *;
      if cancelled && (notification.Empty? || !chooseReady) {
        return Blocks.InProgress, false;
      }
      if notification.Closed? {
        return status, true;
      }
      status := notification.value;
      notification := Blocks.Closed;
      return status, true;
    }

    /** Panics in the source if the block was notified before. */
    method NotifyReady(val: Blocks.BlockState)
      requires Valid() && notification.Empty?
      modifies this`notification
      ensures Valid() && View() == old(View()).NotifyReady(val)
    {
      notification := Blocks.Full(val);
    }

    method IncRef()
      requires Valid()
      modifies this`refCount
      ensures Valid() && View() == old(View()).(refCount := old(refCount) + 1)
    {
      refCount := refCount + 1;
    }

    /** Panics in the source if there is no reference left to give back. */
    method DecRef() returns (last: bool)
      requires Valid() && refCount > 0
      modifies this`refCount
      ensures Valid() && View() == old(View()).(refCount := old(refCount) - 1)
      ensures last <==> old(refCount) == 1
    {
      refCount := refCount - 1;
      return refCount == 0;
    }
  }
}
