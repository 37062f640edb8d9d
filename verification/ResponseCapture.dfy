/**
 The response writer that captures what it forwards (token_writer.go), and what the readers of
 `ResponseParsing` make of the capture.
 */
module ResponseCapture {
  import opened Wrappers
  import opened Json
  import opened ResponseParsing

  function Flatten(fragments: seq<string>): string {
    if fragments == [] then "" else Flatten(fragments[..|fragments| - 1]) + fragments[|fragments| - 1]
  }

  class TokenMeteringResponseWriter {
    var body: string
    var downstream: string      // what the wrapped writer has accepted
    var status: int
    var wroteHeader: bool

    constructor ()
      ensures body == "" && downstream == "" && !wroteHeader && Status() == 200
    {
      body, downstream, status, wroteHeader := "", "", 0, false;
    }

    /** Buffers all of `b`, then forwards it; the wrapped writer may accept less. */
    method Write(b: string) returns (n: nat, failed: bool)
      modifies this`body, this`downstream
      ensures body == old(body) + b
      ensures n <= |b| && downstream == old(downstream) + b[..n]
    {
      body := body + b;
      n :| 0 <= n <= |b|;
      failed := *;
      downstream := downstream + b[..n];
    }

    method WriteHeader(statusCode: int)
      modifies this`status, this`wroteHeader
      ensures Status() == statusCode
    {
      status, wroteHeader := statusCode, true;
    }

    function Status(): int
      reads this
    {
      if wroteHeader then status else 200
    }

    /** However the upstream cuts its output into writes, the capture is their concatenation. */
    method WriteAll(fragments: seq<string>)
      modifies this`body, this`downstream
      ensures body == old(body) + Flatten(fragments)
    {
      for i := 0 to |fragments|
        invariant body == old(body) + Flatten(fragments[..i])
      {
        var _, _ := Write(fragments[i]);
        assert fragments[..i + 1][..i] == fragments[..i];
      }
      assert fragments[..|fragments|] == fragments;
    }
  }

  /**
     From the backend's chunks to the three readings, through the writer: nothing depends on where
     the fragments were cut, nor on what the client's connection accepted.
   */
  method CaptureAndRead(c: Codec, fragments: seq<string>, ghost lines: seq<StreamLine>)
    returns (content: string, usage: Option<Usage>, model: string)
    requires Lawful(c) && WellFormed(lines) && Flatten(fragments) == Body(c, lines)
    ensures content == AllText(Objects(lines))
    ensures usage == UsageAmong(Objects(lines))
    ensures model == if ModelAmong(Objects(lines)).Some? then ModelAmong(Objects(lines)).value else "unknown"
  {
    var writer := new TokenMeteringResponseWriter();
    writer.WriteAll(fragments);
    StreamContentReadBack(c, lines);
    StreamUsageReadBack(c, lines);
    StreamModelReadBack(c, lines);
    assert writer.body == Body(c, lines);
    content := ExtractResponseContent(c, writer.body);
    usage := ExtractUsageFromResponse(c, writer.body);
    model := DetectModelFromResponseBody(c, writer.body);
  }
}
