/**
 Bounded capture of bodies (metering/request_body_handler.go): reading a request body under two limits,
 however the reads come in, and the response writer that keeps a capped copy.
 */
module BodyCapture {
  import opened Wrappers

  /** One byte, held as the texts hold it. */
  type byte = char

  const MB := 1024 * 1024
  const CHUNK := 4096   // capacity of the pooled read buffer

  function Flatten(chunks: seq<seq<byte>>): seq<byte> {
    if chunks == [] then [] else chunks[0] + Flatten(chunks[1..])
  }

  lemma {:induction false} FlattenFirst(chunks: seq<seq<byte>>, n: nat)
    requires chunks != [] && n <= |chunks[0]|
    ensures Flatten(chunks) == chunks[0][..n] + Flatten(Unread(chunks, n))
  {
    var first, rest := chunks[0], Flatten(chunks[1..]);
    if n < |first| {
      assert Unread(chunks, n)[1..] == chunks[1..];
      assert Flatten(Unread(chunks, n)) == first[n..] + rest;
      assert first + rest == first[..n] + (first[n..] + rest);
    } else {
      assert first[..n] == first;
    }
  }

  lemma Associates(a: seq<byte>, b: seq<byte>, c: seq<byte>)
    ensures a + (b + c) == (a + b) + c
  {
  }

  function Min(a: int, b: int): int {
    if a < b then a else b
  }

  /** What is left when `n` bytes of the first chunk have been read. */
  function Unread(chunks: seq<seq<byte>>, n: nat): seq<seq<byte>>
    requires chunks != [] && n <= |chunks[0]|
  {
    if n == |chunks[0]| then chunks[1..] else [chunks[0][n..]] + chunks[1..]
  }

  datatype ReadStatus = Ok | Eof | Err

  /**
     An `io.Reader` with a script: each chunk is what becomes available at once, possibly nothing; a
     read takes at most what it asked for. After the last chunk comes the end, or an error. The end
     may be reported together with the last bytes.
   */
  class Source {
    var chunks: seq<seq<byte>>
    const fails: bool

    constructor (chunks: seq<seq<byte>>, fails: bool)
      ensures this.chunks == chunks && this.fails == fails
    {
      this.chunks, this.fails := chunks, fails;
    }

    /** Bounds the reads left to make. */
    ghost function Work(): nat
      reads this
    {
      |Flatten(chunks)| + |chunks|
    }

    method Read(capacity: nat) returns (data: seq<byte>, status: ReadStatus)
      requires capacity > 0
      modifies this
      ensures |data| <= capacity && old(Flatten(chunks)) == data + Flatten(chunks)
      ensures old(chunks) == [] ==> chunks == [] && status != Ok
      ensures old(chunks) != [] ==> |data| == Min(capacity, |old(chunks)[0]|) && chunks == Unread(old(chunks), |data|)
      ensures status == Ok ==> Work() < old(Work())
      ensures status != Ok ==> chunks == []
      ensures status == Err ==> fails && data == []
      ensures status == Eof ==> !fails
    {
      if chunks == [] {
        return [], if fails then Err else Eof;
      }
      var first := chunks[0];
      assert Flatten(chunks) == first + Flatten(chunks[1..]);
      if |first| <= capacity {
        data, chunks := first, chunks[1..];
        var together: bool := *;
        status := if chunks == [] && !fails && together then Eof else Ok;
      } else {
        FlattenFirst(chunks, capacity);
        data, chunks := first[..capacity], Unread(chunks, capacity);
        status := Ok;
      }
    }
  }

  /** `io.LimitReader`. */
  class LimitedReader {
    const source: Source
    var left: nat

    constructor (source: Source, left: nat)
      ensures this.source == source && this.left == left
    {
      this.source, this.left := source, left;
    }

    method Read(capacity: nat) returns (data: seq<byte>, status: ReadStatus)
      requires capacity > 0
      modifies this, source
      ensures |data| <= capacity && left == old(left) - |data|
          && old(Flatten(source.chunks)) == data + Flatten(source.chunks)
      ensures old(left) > 0 && old(source.chunks) == [] ==> source.chunks == [] && status != Ok
      ensures old(left) > 0 && old(source.chunks) != [] ==>
        |data| == Min(Min(capacity, old(left)), |old(source.chunks)[0]|)
            && source.chunks == Unread(old(source.chunks), |data|)
      ensures status == Ok ==> source.Work() < old(source.Work())
      ensures status != Ok && old(left) > 0 ==> source.chunks == []
      ensures status == Err ==> source.fails && data == []
      ensures status == Eof && old(left) > 0 ==> !source.fails
    {
      if left == 0 {
        return [], Eof;
      }
      data, status := source.Read(if capacity > left then left else capacity);
      left := left - |data|;
    }
  }

  datatype RequestBodyInfo = RequestBodyInfo(
    content: seq<byte>, size: nat, isComplete: bool, isTruncated: bool, failed: bool)

  /** The sizes of a handler; the buffer limit never exceeds the body limit. */
  type Limits = l: (nat, nat) | 0 < l.0 <= l.1 witness (1, 1)

  /** The bytes captured when `taken` have been, and `chunks` is still to come: up to the read that passes the limit. */
  function Kept(l: Limits, taken: nat, chunks: seq<seq<byte>>): nat
    requires taken <= l.0
    decreases |Flatten(chunks)| + |chunks|
  {
    if chunks == [] then taken
    else
      var n: nat := Min(Min(CHUNK, l.1 + 1 - taken), |chunks[0]|);
      FlattenFirst(chunks, n);
      if taken + n > l.0 then taken + n else Kept(l, taken + n, Unread(chunks, n))
  }

  lemma {:induction false} KeptBounds(l: Limits, taken: nat, chunks: seq<seq<byte>>)
    requires taken <= l.0
    ensures var size := Kept(l, taken, chunks);
      && taken <= size <= taken + |Flatten(chunks)|
      && (size > l.0 ==> size <= Min(l.0 + CHUNK, l.1 + 1))
      && (size <= l.0 ==> size == taken + |Flatten(chunks)|)
    decreases |Flatten(chunks)| + |chunks|
  {
    if chunks != [] {
      var n: nat := Min(Min(CHUNK, l.1 + 1 - taken), |chunks[0]|);
      FlattenFirst(chunks, n);
      if taken + n <= l.0 {
        KeptBounds(l, taken + n, Unread(chunks, n));
      }
    }
  }

  class BodyHandler {
    const maxBodySize: nat
    const maxBufferSize: nat

    ghost predicate Valid() {
      0 < maxBufferSize <= maxBodySize && maxBufferSize <= 5 * MB
    }

    ghost function Sizes(): Limits
      requires Valid()
    {
      (maxBufferSize, maxBodySize)
    }

    constructor (maxBodySize: int)
      ensures Valid()
      ensures this.maxBodySize == (if maxBodySize <= 0 then 10_485_760 else maxBodySize)
      ensures this.maxBufferSize == if this.maxBodySize > 5_242_880 then 5_242_880 else this.maxBodySize
    {
      var size := if maxBodySize <= 0 then 10 * MB else maxBodySize;
      this.maxBodySize := size;
      this.maxBufferSize := if size > 5 * MB then 5 * MB else size;
    }

    /** With `taken` bytes captured and `chunks` to come, the capture will end at `kept` bytes. */
    ghost predicate WillKeep(taken: nat, chunks: seq<seq<byte>>, kept: nat)
      requires Valid()
    {
      kept == if taken > maxBufferSize then taken else Kept(Sizes(), taken, chunks)
    }

    /** One read, and how far it gets. */
    method ReadOn(limited: LimitedReader, totalRead: nat, ghost kept: nat) returns (data: seq<byte>, status: ReadStatus)
      requires Valid() && totalRead <= maxBufferSize && limited.left == maxBodySize + 1 - totalRead
      requires WillKeep(totalRead, limited.source.chunks, kept)
      modifies limited, limited.source
      ensures limited.left == old(limited.left) - |data|
      ensures old(Flatten(limited.source.chunks)) == data + Flatten(limited.source.chunks)
      ensures WillKeep(totalRead + |data|, limited.source.chunks, kept)
      ensures status == Ok ==> limited.source.Work() < old(limited.source.Work())
      ensures status != Ok ==> limited.source.chunks == [] && (status == Err <==> limited.source.fails)
      ensures status == Err ==> data == []
    {
      data, status := limited.Read(CHUNK);
    }

    /** The read loop: up to the end of the body, an error, or the read that passes the buffer limit. */
    method ReadBounded(body: Source) returns (buffer: seq<byte>, cut: bool, failed: bool)
      requires Valid()
      modifies body
      ensures old(Flatten(body.chunks)) == buffer + Flatten(body.chunks)
      ensures |buffer| == Kept(Sizes(), 0, old(body.chunks))
      ensures cut <==> |buffer| > maxBufferSize
      ensures failed <==> body.fails && !cut
    {
      var limited := new LimitedReader(body, maxBodySize + 1);
      ghost var whole, kept := Flatten(body.chunks), Kept(Sizes(), 0, body.chunks);
      buffer, cut, failed := [], false, false;
      var totalRead, done := 0, false;
      while !done
        invariant limited.source == body && fresh(limited)
        invariant totalRead == |buffer| && limited.left == maxBodySize + 1 - totalRead
        invariant whole == buffer + Flatten(body.chunks)
        invariant WillKeep(totalRead, body.chunks, kept)
        invariant (cut <==> totalRead > maxBufferSize) && (cut ==> done)
        invariant if done && !cut then body.chunks == [] && failed == body.fails else !failed
        decreases !done, body.Work()
      {
        var data, status := ReadOn(limited, totalRead, kept);
        Associates(buffer, data, Flatten(body.chunks));
        buffer := buffer + data;
        totalRead := totalRead + |data|;
        if totalRead > maxBufferSize {
          cut, done := true, true;
        } else if status == Eof {
          done := true;
        } else if status == Err {
          failed, done := true, true;
        } else if totalRead > maxBodySize {
          assert false;
        }
      }
    }

    /**
       The body is captured whole, and flagged complete, exactly when it fits the buffer limit, whatever
       the fragmentation. A larger one is cut after the read that passed the limit, and what downstream
       will read is the same cut. The check of the body limit after a read never fires.
     */
    method SafeReadRequestBody(body: Source?) returns (info: RequestBodyInfo, downstream: seq<byte>)
      requires Valid()
      modifies body
      ensures body == null ==> info == RequestBodyInfo([], 0, true, false, false) && downstream == []
      ensures body != null ==>
        var whole := old(Flatten(body.chunks));
        && info.content == downstream && info.size == |info.content| && info.content <= whole
        && info.size == Kept(Sizes(), 0, old(body.chunks))
        && info.isTruncated == !info.isComplete
        && (info.isComplete <==> |whole| <= maxBufferSize)
        && (info.isComplete ==> info.content == whole)
        && (!info.isComplete ==> maxBufferSize < info.size <= maxBufferSize + 4096 && info.size <= maxBodySize + 1)
        && (info.failed <==> body.fails && info.isComplete)
    {
      if body == null {
        return RequestBodyInfo([], 0, true, false, false), [];
      }
      KeptBounds(Sizes(), 0, body.chunks);
      var buffer, cut, failed := ReadBounded(body);
      info := RequestBodyInfo(buffer, |buffer|, !cut, cut, failed);
      downstream := buffer;
    }
  }

  // ----- what the truncation flag is worth --------------------------------------------------------

  /** A way for the reads to come in. */
  predicate Fragments(chunks: seq<seq<byte>>, whole: seq<byte>) {
    Flatten(chunks) == whole
  }

  predicate Flagged(l: Limits, chunks: seq<seq<byte>>) {
    Kept(l, 0, chunks) > l.0
  }

  /** A first chunk within the buffer limit is read to its end. */
  lemma {:induction false} FirstChunkFits(l: Limits, taken: nat, first: seq<byte>, rest: seq<seq<byte>>)
    requires taken + |first| <= l.0
    ensures Kept(l, taken, [first] + rest) == Kept(l, taken + |first|, rest)
    decreases |first|
  {
    var chunks := [first] + rest;
    var n: nat := Min(Min(CHUNK, l.1 + 1 - taken), |first|);
    assert chunks[1..] == rest;
    if n < |first| {
      FirstChunkFits(l, taken + n, first[n..], rest);
    }
  }

  /** A first chunk that passes it is as far as the capture goes. */
  lemma {:induction false} FirstChunkPasses(l: Limits, taken: nat, first: seq<byte>, rest: seq<seq<byte>>)
    requires taken <= l.0 < taken + |first|
    ensures l.0 < Kept(l, taken, [first] + rest) <= taken + |first|
    decreases |first|
  {
    var chunks := [first] + rest;
    var n: nat := Min(Min(CHUNK, l.1 + 1 - taken), |first|);
    assert chunks[1..] == rest;
    if taken + n <= l.0 {
      FirstChunkPasses(l, taken + n, first[n..], rest);
    }
  }

  lemma TwoChunks(whole: seq<byte>, n: nat)
    requires n <= |whole|
    ensures Fragments([whole[..n], whole[n..]], whole)
  {
    var chunks := [whole[..n], whole[n..]];
    assert chunks[1..] == [whole[n..]] && chunks[1..][1..] == [];
    assert Flatten([whole[n..]]) == whole[n..] + Flatten([]);
    assert whole[..n] + whole[n..] == whole;
  }

  /**
     The flag is right for a body, however it comes in, exactly when the body fits the buffer or is too
     large for any one read to reach its end. In between, a last read from within the limit can catch
     the whole of a body that is then flagged as cut.
   */
  lemma FlagIsRightIff(l: Limits, whole: seq<byte>)
    ensures (forall chunks :: Fragments(chunks, whole) && Flagged(l, chunks) ==> Kept(l, 0, chunks) < |whole|)
      <==> |whole| <= l.0 || |whole| > l.0 + 4096 || |whole| > l.1 + 1
  {
    forall chunks | Fragments(chunks, whole) && Flagged(l, chunks)
      ensures l.0 < Kept(l, 0, chunks) <= |whole| && Kept(l, 0, chunks) <= Min(l.0 + CHUNK, l.1 + 1)
    {
      KeptBounds(l, 0, chunks);
    }
    if l.0 < |whole| <= Min(l.0 + CHUNK, l.1 + 1) {
      TwoChunks(whole, l.0);
      var chunks := [whole[..l.0], whole[l.0..]];
      assert chunks == [whole[..l.0]] + [whole[l.0..]];
      FirstChunkFits(l, 0, whole[..l.0], [whole[l.0..]]);
      assert Flagged(l, chunks) && Kept(l, 0, chunks) == |whole|;
    }
  }

  /** A body is caught whole however it comes in exactly when it is at most one byte over the buffer limit. */
  lemma AlwaysWholeIff(l: Limits, whole: seq<byte>)
    ensures (forall chunks :: Fragments(chunks, whole) ==> Kept(l, 0, chunks) == |whole|) <==> |whole| <= l.0 + 1
  {
    forall chunks | Fragments(chunks, whole)
      ensures |whole| <= l.0 + 1 ==> Kept(l, 0, chunks) == |whole|
    {
      KeptBounds(l, 0, chunks);
    }
    if |whole| > l.0 + 1 {
      TwoChunks(whole, l.0 + 1);
      var chunks := [whole[..l.0 + 1], whole[l.0 + 1..]];
      assert chunks == [whole[..l.0 + 1]] + [whole[l.0 + 1..]];
      FirstChunkPasses(l, 0, whole[..l.0 + 1], [whole[l.0 + 1..]]);
    }
  }

  /** The flag is the limit's, not the content's: a body caught whole by its last read can still be flagged cut. */
  method CaughtWholeYetFlagged() returns (info: RequestBodyInfo, downstream: seq<byte>)
    ensures info.isTruncated && info.content == downstream == "ab"
  {
    var handler := new BodyHandler(1);
    var body := new Source(["ab"], false);
    assert body.chunks[1..] == [];
    assert Flatten(body.chunks) == "ab" + Flatten([]);
    info, downstream := handler.SafeReadRequestBody(body);
    assert |info.content| == 2;
  }

  // ----- the capped response writer ---------------------------------------------------------------

  /** The first `max` bytes, or all if there are fewer. */
  function Capped(s: seq<byte>, max: nat): seq<byte> {
    if |s| < max then s else s[..max]
  }

  /** Capping what has been appended is appending what there is room for. */
  lemma CappedAppend(s: seq<byte>, b: seq<byte>, max: nat)
    ensures Capped(s + b, max) == Capped(s, max) + Capped(b, max - |Capped(s, max)|)
  {
  }

  class StreamingTokenMeteringResponseWriter {
    var bodyBuffer: seq<byte>
    const maxBufferSize: nat
    var status: int
    var wroteHeader: bool
    var contentLength: int
    var totalWritten: nat
    var declaredLength: Option<int>   // the Content-Length header of the wrapped writer, when it is a number
    ghost var accepted: seq<byte>     // everything the wrapped writer has taken

    ghost predicate Valid()
      reads this
    {
      && maxBufferSize > 0 && totalWritten == |accepted|
      && bodyBuffer == Capped(accepted, maxBufferSize)
    }

    constructor (maxBufferSize: int, declaredLength: Option<int>)
      ensures Valid() && accepted == [] && !wroteHeader && contentLength == 0 && this.declaredLength == declaredLength
      ensures this.maxBufferSize == if maxBufferSize <= 0 then 5_242_880 else maxBufferSize
    {
      this.maxBufferSize := if maxBufferSize <= 0 then 5 * MB else maxBufferSize;
      bodyBuffer, totalWritten, accepted := [], 0, [];
      status, wroteHeader, contentLength, this.declaredLength := 0, false, 0, declaredLength;
    }

    /** Only the first call has an effect; it also fixes the length the response was announced with. */
    method WriteHeader(statusCode: int)
      requires Valid()
      modifies this`status, this`wroteHeader, this`contentLength
      ensures Valid() && wroteHeader
      ensures old(wroteHeader) ==> status == old(status) && contentLength == old(contentLength)
      ensures !old(wroteHeader) ==> status == statusCode
      ensures !old(wroteHeader) ==>
        contentLength == if declaredLength.Some? then declaredLength.value else old(contentLength)
    {
      if wroteHeader {
        return;
      }
      status, wroteHeader := statusCode, true;
      if declaredLength.Some? {
        contentLength := declaredLength.value;
      }
    }

    /** The wrapped writer accepts some first part of `b`; that part is copied while there is room. */
    method Write(b: seq<byte>) returns (n: nat, failed: bool)
      requires Valid()
      modifies this`bodyBuffer, this`status, this`wroteHeader, this`contentLength, this`totalWritten, this`accepted
      ensures Valid() && n <= |b| && accepted == old(accepted) + b[..n]
      ensures wroteHeader && (old(wroteHeader) ==> status == old(status) && contentLength == old(contentLength))
      ensures !old(wroteHeader) ==> status == 200
    {
      if !wroteHeader {
        WriteHeader(200);
      }
      n :| 0 <= n <= |b|;
      failed := *;
      totalWritten := totalWritten + n;
      CappedAppend(accepted, b[..n], maxBufferSize);
      if |bodyBuffer| < maxBufferSize {
        var remainingBuffer := maxBufferSize - |bodyBuffer|;
        var toBuffer := n;
        if toBuffer > remainingBuffer {
          toBuffer := remainingBuffer;
        }
        if toBuffer > 0 {
          assert b[..toBuffer] == Capped(b[..n], remainingBuffer);
          bodyBuffer := bodyBuffer + b[..toBuffer];
        }
      }
      accepted := accepted + b[..n];
    }

    predicate IsComplete()
      reads this
    {
      if contentLength > 0 then |bodyBuffer| >= contentLength else |bodyBuffer| < maxBufferSize
    }

    /**
       What the flag is worth. With no length announced it holds exactly when the cap was not reached.
       With one, it misleads exactly when the backend writes past an announced length that fits the
       cap; otherwise it holds exactly when that length has been captured, and then nothing is lost.
     */
    lemma CompleteMeansNothingLost()
      requires Valid()
      ensures contentLength <= 0 ==>
        (IsComplete() <==> |accepted| < maxBufferSize) && (IsComplete() ==> bodyBuffer == accepted)
      ensures contentLength > 0 && |accepted| <= contentLength ==>
        && (IsComplete() <==> |accepted| == contentLength && contentLength <= maxBufferSize)
        && (IsComplete() ==> bodyBuffer == accepted)
      ensures IsComplete() && bodyBuffer != accepted <==> 0 < contentLength <= maxBufferSize < |accepted|
    {
      assert |accepted| <= maxBufferSize ==> accepted[..|accepted|] == accepted;
    }
  }
}
