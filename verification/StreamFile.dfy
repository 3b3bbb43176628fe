// internal/bufferedwrites/buffered_write_handler.go as seen by its callers: a file that is
// written in order and extended lazily, against plain pwrite and ftruncate on a byte string.
module StreamFile {
  import opened Bytes
  import opened Options

  /** The handler's two sizes beside what was there before (`base`) and what was appended. */
  datatype Handler = Handler(base: seq<byte>, stream: seq<byte>, totalSize: int, truncatedSize: int) {
    /** Holds as long as no append was cut short. */
    predicate Whole() {
      totalSize == |base| + |stream|
    }

    /** The file the handler stands for: what it took in, and the zeros still to be added. */
    function Contents(): seq<byte> {
      base + stream + Zeros(truncatedSize - totalSize)
    }

    function Append(data: seq<byte>): Handler {
      this.(stream := stream + data, totalSize := totalSize + |data|)
    }

    /** writeDataForTruncatedSize */
    function FillUp(): Handler {
      Append(Zeros(truncatedSize - totalSize))
    }

    predicate InOrder(offset: int) {
      offset == totalSize || offset == truncatedSize
    }

    /** A Write that passes the order check and does not fail. */
    function Write(data: seq<byte>, offset: int): Handler {
      if offset == truncatedSize then FillUp().Append(data) else Append(data)
    }

    function Truncate(size: int): Handler {
      if size < totalSize then this else this.(truncatedSize := size)
    }

    function FileSize(): int {
      Max(totalSize, truncatedSize)
    }
  }

  function NewHandler(base: seq<byte>): Handler {
    Handler(base, [], |base|, -1)
  }

  // ------------------------------------------------- the reference

  /** A negative offset is an error and leaves the file alone. */
  function Pwrite(file: seq<byte>, data: seq<byte>, offset: int): seq<byte> {
    if data == [] || offset < 0 then file
    else
      var padded := file + Zeros(offset - |file|);
      padded[..offset] + data + (if offset + |data| < |file| then file[offset + |data|..] else [])
  }

  function Ftruncate(file: seq<byte>, size: nat): seq<byte> {
    if size <= |file| then file[..size] else file + Zeros(size - |file|)
  }

  // ------------------------------------------------- one call

  /**
   * An accepted write is a pwrite, except at a truncation offset that the file has since
   * outgrown, where it is one only if it writes nothing.
   */
  lemma WriteIsPwrite(h: Handler, data: seq<byte>, offset: int)
    requires h.Whole() && h.InOrder(offset)
    ensures h.Write(data, offset).Whole()
    ensures h.Write(data, offset).Contents() == Pwrite(h.Contents(), data, offset)
       <==> data == [] || !(offset == h.truncatedSize < h.totalSize)
  {
    var h' := h.Write(data, offset);
    if offset == h.truncatedSize < h.totalSize {
      if data != [] {
        assert |h'.Contents()| == h.totalSize + |data|;
        assert |Pwrite(h.Contents(), data, offset)| < h.totalSize + |data|;
      }
    } else if offset == h.truncatedSize {
      assert h'.Contents() == h.Contents() + data;
    } else {
      var f := h.Contents();
      assert f[..offset] == h.base + h.stream;
      assert h'.Contents()[..offset + |data|] == h.base + h.stream + data;
    }
  }

  lemma TruncateIsFtruncate(h: Handler, size: int)
    requires h.Whole() && size >= h.totalSize
    ensures h.Truncate(size).Whole() && h.Truncate(size).Contents() == Ftruncate(h.Contents(), size)
  {
  }

  lemma FileSizeIsLength(h: Handler)
    requires h.Whole()
    ensures h.FileSize() == |h.Contents()|
  {
  }

  lemma FillUpKeepsFile(h: Handler)
    requires h.Whole()
    ensures h.FillUp().Whole() && h.FillUp().Contents() == h.Contents() == h.FillUp().base + h.FillUp().stream
  {
  }

  /**
   * After an append that got only `part` of its data in, a retry of the write at the same
   * offset is accepted and repeats that part: the bytes are then more than the size tells.
   */
  lemma RetryRepeatsPart(h: Handler, part: seq<byte>, data: seq<byte>)
    requires h.Whole() && h.truncatedSize < h.totalSize && 0 < |part| && part <= data
    ensures var cut := h.(stream := h.stream + part);
      && cut.InOrder(h.totalSize) && !cut.Whole()
      && var again := cut.Write(data, h.totalSize);
         && again.base + again.stream == h.base + h.stream + part + data
         && |again.base + again.stream| == again.FileSize() + |part|
  {
  }

  // ------------------------------------------------- whole sessions

  /** `Fill` is what a call that runs out of memory may leave behind: some of the lazy zeros written out. */
  datatype Call = Write(data: seq<byte>, offset: int) | Truncate(size: int) | Sync | Flush | Fill(count: nat)

  /** A call and whether it took effect; the handler may refuse any call, e.g. after an upload error. */
  datatype Request = Request(call: Call, accepted: bool)

  predicate Acceptable(h: Handler, c: Call) {
    match c
    case Write(_, offset) => h.InOrder(offset)
    case Truncate(size) => size >= h.totalSize
    case Fill(count) => count <= Max(h.truncatedSize - h.totalSize, 0)
    case _ => true
  }

  /** A write at a truncation offset below the current size. */
  predicate Stale(h: Handler, c: Call) {
    c.Write? && c.data != [] && c.offset == h.truncatedSize < h.totalSize
  }

  function Do(h: Handler, c: Call): Handler {
    match c
    case Write(data, offset) => h.Write(data, offset)
    case Truncate(size) => h.Truncate(size)
    case Sync => h
    case Flush => h.FillUp()
    case Fill(count) => h.Append(Zeros(count))
  }

  function Play(h: Handler, requests: seq<Request>): Handler {
    if requests == [] then h
    else
      var h' := Play(h, requests[..|requests| - 1]);
      var r := requests[|requests| - 1];
      if r.accepted then Do(h', r.call) else h'
  }

  /** Only acceptable calls take effect. */
  ghost predicate Session(h: Handler, requests: seq<Request>) {
    requests != [] ==>
      && Session(h, requests[..|requests| - 1])
      && var r := requests[|requests| - 1];
         r.accepted ==> Acceptable(Play(h, requests[..|requests| - 1]), r.call)
  }

  /** No write that took effect was stale. */
  ghost predicate NeverStale(h: Handler, requests: seq<Request>) {
    requests != [] ==>
      && NeverStale(h, requests[..|requests| - 1])
      && var r := requests[|requests| - 1];
         r.accepted ==> !Stale(Play(h, requests[..|requests| - 1]), r.call)
  }

  function Reference(file: seq<byte>, requests: seq<Request>): seq<byte> {
    if requests == [] then file
    else
      var f, r := Reference(file, requests[..|requests| - 1]), requests[|requests| - 1];
      if !r.accepted then f
      else
        match r.call
        case Write(data, offset) => Pwrite(f, data, offset)
        case Truncate(size) => if size < 0 then f else Ftruncate(f, size)
        case _ => f
  }

  lemma OneMoreRequest(h: Handler, requests: seq<Request>, r: Request)
    requires Session(h, requests) && (r.accepted ==> Acceptable(Play(h, requests), r.call))
    ensures Session(h, requests + [r])
    ensures Play(h, requests + [r]) == if r.accepted then Do(Play(h, requests), r.call) else Play(h, requests)
    ensures NeverStale(h, requests + [r]) ==> NeverStale(h, requests)
  {
    assert (requests + [r])[..|requests|] == requests;
  }

  lemma FillKeepsFile(h: Handler, count: nat)
    requires h.Whole() && count <= Max(h.truncatedSize - h.totalSize, 0)
    ensures h.Append(Zeros(count)).Whole() && h.Append(Zeros(count)).Contents() == h.Contents()
  {
    assert Zeros(count) + Zeros(h.truncatedSize - h.totalSize - count) == Zeros(h.truncatedSize - h.totalSize);
  }

  /** In every session the handler stands for the file that pwrite and ftruncate would give. */
  lemma {:induction false} SessionRefinesFile(base: seq<byte>, requests: seq<Request>)
    requires Session(NewHandler(base), requests) && NeverStale(NewHandler(base), requests)
    ensures var h := Play(NewHandler(base), requests);
      && h.Whole() && h.Contents() == Reference(base, requests)
      && h.FileSize() == |Reference(base, requests)|
  {
    var h := Play(NewHandler(base), requests);
    if requests != [] {
      var front, r := requests[..|requests| - 1], requests[|requests| - 1];
      SessionRefinesFile(base, front);
      var h' := Play(NewHandler(base), front);
      if r.accepted {
        match r.call
        case Write(data, offset) => WriteIsPwrite(h', data, offset);
        case Truncate(size) => TruncateIsFtruncate(h', size);
        case Sync =>
        case Flush => FillUpKeepsFile(h');
        case Fill(count) => FillKeepsFile(h', count);
      }
    }
    FileSizeIsLength(h);
  }

  /** No truncate took effect, and no write at a negative offset. */
  ghost predicate OnlyAppends(requests: seq<Request>) {
    forall i :: 0 <= i < |requests| && requests[i].accepted ==>
      !requests[i].call.Truncate? && (requests[i].call.Write? ==> requests[i].call.offset >= 0)
  }

  lemma {:induction false} AppendsLeaveNoTruncation(base: seq<byte>, requests: seq<Request>)
    requires Session(NewHandler(base), requests) && OnlyAppends(requests)
    ensures NeverStale(NewHandler(base), requests)
    ensures var h := Play(NewHandler(base), requests); h.truncatedSize < 0 <= h.totalSize
  {
    if requests != [] {
      var front := requests[..|requests| - 1];
      assert forall i :: 0 <= i < |front| ==> front[i] == requests[i];
      AppendsLeaveNoTruncation(base, front);
    }
  }

  /** As long as nothing was truncated, every write is a pwrite, and only the end of the file is accepted. */
  lemma AppendsInOrder(base: seq<byte>, requests: seq<Request>, offset: nat)
    requires Session(NewHandler(base), requests) && OnlyAppends(requests)
    ensures NeverStale(NewHandler(base), requests)
    ensures Play(NewHandler(base), requests).InOrder(offset) <==> offset == |Reference(base, requests)|
  {
    AppendsLeaveNoTruncation(base, requests);
    SessionRefinesFile(base, requests);
  }

  /** The size of the last truncate that took effect. */
  function LastTruncate(requests: seq<Request>): Option<int> {
    if requests == [] then None
    else
      var r := requests[|requests| - 1];
      if r.accepted && r.call.Truncate? then Some(r.call.size) else LastTruncate(requests[..|requests| - 1])
  }

  lemma {:induction false} TruncatedByLast(base: seq<byte>, requests: seq<Request>)
    requires Session(NewHandler(base), requests)
    ensures Play(NewHandler(base), requests).truncatedSize ==
      match LastTruncate(requests) case None => -1 case Some(size) => size
  {
    if requests != [] {
      TruncatedByLast(base, requests[..|requests| - 1]);
    }
  }

  /** In general the offset of the last truncate is accepted too. */
  lemma AcceptedOffsets(base: seq<byte>, requests: seq<Request>, offset: nat)
    requires Session(NewHandler(base), requests)
    ensures var h := Play(NewHandler(base), requests);
      h.InOrder(offset) <==> offset == h.totalSize || LastTruncate(requests) == Some(offset)
  {
    TruncatedByLast(base, requests);
  }

  /** A stale write is accepted and appended: "ab", truncate to 2, append "c", write "d" at 2. */
  lemma StaleWriteBreaksFile()
    ensures var h := NewHandler([]).Write([97, 98], 0).Truncate(2).Write([99], 2);
      && h.InOrder(2) && Stale(h, Write([100], 2))
      && h.Write([100], 2).Contents() == [97, 98, 99, 100]
      && Pwrite(h.Contents(), [100], 2) == [97, 98, 100]
  {
    var h := NewHandler([]).Write([97, 98], 0).Truncate(2).Write([99], 2);
    assert h.stream == [97, 98, 99];
  }
}
