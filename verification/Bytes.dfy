// Byte strings and the block arithmetic shared by the readers and the writers.
module Bytes {

  type byte = x: int | 0 <= x < 256

  function Min(a: int, b: int): int {
    if a <= b then a else b
  }

  function Max(a: int, b: int): int {
    if a >= b then a else b
  }

  /** `n` zero bytes; none when `n` is not positive. */
  function Zeros(n: int): (z: seq<byte>)
    ensures |z| == Max(n, 0)
  {
    seq(Max(n, 0), _ => 0 as byte)
  }

  /** Absolute offset at which block `index` starts: `index * blockSize`, as a sum. */
  function StartOf(index: nat, blockSize: nat): (start: nat)
  {
    if index == 0 then 0 else StartOf(index - 1, blockSize) + blockSize
  }

  lemma StartIsProduct(index: nat, blockSize: nat)
    ensures StartOf(index, blockSize) == index * blockSize
  {
  }

  /** Number of blocks of size `blockSize` needed for `size` bytes. */
  function BlockCount(size: nat, blockSize: nat): nat
    requires blockSize > 0
  {
    (size + blockSize - 1) / blockSize
  }

  lemma StartsAreMonotone(i: nat, j: nat, blockSize: nat)
    requires i < j
    ensures StartOf(i, blockSize) + blockSize <= StartOf(j, blockSize)
  {
  }

  /** The block of index `offset / blockSize` is the only one that covers `offset`. */
  lemma Covering(offset: nat, index: nat, blockSize: nat)
    requires blockSize > 0
    ensures offset / blockSize == index
       <==> StartOf(index, blockSize) <= offset < StartOf(index, blockSize) + blockSize
  {
    var q := offset / blockSize;
    StartIsProduct(q, blockSize);
    if q < index {
      StartsAreMonotone(q, index, blockSize);
    } else if index < q {
      StartsAreMonotone(index, q, blockSize);
    }
  }

  /** A block starts inside the data exactly when its index is below the block count. */
  lemma InsideData(index: nat, size: nat, blockSize: nat)
    requires blockSize > 0
    ensures index < BlockCount(size, blockSize) <==> StartOf(index, blockSize) < size
  {
    var n := BlockCount(size, blockSize);
    Covering(size + blockSize - 1, n, blockSize);
    if index < n {
      StartsAreMonotone(index, n, blockSize);
    } else if n < index {
      StartsAreMonotone(n, index, blockSize);
    }
  }

  /** Blocks `first` up to `last` cover one stretch of `(last - first) * blockSize` bytes. */
  lemma Stretch(first: nat, last: nat, offset: nat, blockSize: nat)
    requires blockSize > 0 && first <= last
    ensures first <= offset / blockSize < last
       <==> StartOf(first, blockSize) <= offset < StartOf(first, blockSize) + (last - first) * blockSize
  {
    var q := offset / blockSize;
    Covering(offset, q, blockSize);
    StartIsProduct(first, blockSize);
    StartIsProduct(last, blockSize);
    assert StartOf(last, blockSize) == StartOf(first, blockSize) + (last - first) * blockSize;
    if q < first { StartsAreMonotone(q, first, blockSize); }
    if first < q { StartsAreMonotone(first, q, blockSize); }
    if q < last { StartsAreMonotone(q, last, blockSize); }
    if last < q { StartsAreMonotone(last, q, blockSize); }
  }
}
