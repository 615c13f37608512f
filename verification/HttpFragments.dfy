/** How the parse of a byte stream depends on the way TCP cut it into fragments: not at
    all, except for bodies that run until the connection closes. */
module HttpFragments {
  import opened Text
  import opened HttpRequests
  import opened HttpContexts

  function Extend(c: Context, bytes: string): Context {
    c.(buffer := c.buffer + bytes)
  }

  /** The request is complete, or a call refused it. */
  predicate Done(p: Parse) {
    p.verdict != Accepted || p.context.completeRequest
  }

  /** What further bytes do to a parse: they are parsed while the request is open, and left
      untouched once it is decided. */
  function Resume(p: Parse, bytes: string): Parse {
    if Done(p) then Parse(Extend(p.context, bytes), p.verdict) else Receive(p.context, bytes)
  }

  // ------------------------------------------------------------------ the bodies

  /** Decoding chunks changes only the body, the buffer and the completion flag. */
  lemma {:induction false} ChunkedKeepsHead(c: Context)
    ensures var d := ChunkedBody(c).context;
      d.request == c.request.(body := d.request.body) && d.contentLength == c.contentLength
      && d.completeHeaders == c.completeHeaders
    decreases |c.buffer|
  {
    hide Find, OccursAt, Stoul;
    var end := Find(c.buffer, CRLF, 0);
    if end.Some? {
      var size := Stoul(c.buffer[..end.value], Sixteen);
      if size.Some? && |c.buffer| >= ChunkSpan(end.value, size.value) && size.value != 0 {
        ChunkedKeepsHead(AfterChunk(c));
      }
    }
  }

  /** The first chunk is complete in the buffer and is not the last one. */
  predicate HasChunk(c: Context) {
    var end := Find(c.buffer, CRLF, 0);
    end.Some? &&
    var size := Stoul(c.buffer[..end.value], Sixteen);
    size.Some? && size.value != 0 && |c.buffer| >= ChunkSpan(end.value, size.value)
  }

  function AfterChunk(c: Context): Context
    requires HasChunk(c)
    ensures |AfterChunk(c).buffer| < |c.buffer|
  {
    var end := Find(c.buffer, CRLF, 0).value;
    var size := Stoul(c.buffer[..end], Sixteen).value;
    c.(request := c.request.(body := c.request.body + c.buffer[end + 2..end + 2 + size]),
       buffer := c.buffer[ChunkSpan(end, size)..])
  }

  lemma {:induction false} ChunkedSplit(c: Context, b: string)
    requires !c.completeRequest
    ensures var p := ChunkedBody(c);
      ChunkedBody(Extend(c, b)) ==
        if Done(p) then Parse(Extend(p.context, b), p.verdict) else ChunkedBody(Extend(p.context, b))
    decreases |c.buffer|
  {
    hide Find, OccursAt, Stoul;
    var end := Find(c.buffer, CRLF, 0);
    if end.Some? {
      FindInPrefix(c.buffer, b, CRLF);
      CutPrefix(c.buffer, b, 0, end.value);
      var size := Stoul(c.buffer[..end.value], Sixteen);
      if HasChunk(c) {
        CutPrefix(c.buffer, b, end.value + 2, end.value + 2 + size.value);
        CutPrefix(c.buffer, b, 0, ChunkSpan(end.value, size.value));
        assert AfterChunk(Extend(c, b)) == Extend(AfterChunk(c), b);
        ChunkedSplit(AfterChunk(c), b);
      } else if |c.buffer| >= end.value + 4 {
        CutPrefix(c.buffer, b, 0, end.value + 4);
      }
    }
  }

  // ------------------------------------------------------------- the whole stream

  /** States between calls: a content length is remembered only for a request that has one. */
  predicate Between(c: Context) {
    !c.completeRequest && (c.contentLength != 0 ==> c.completeHeaders && "Content-Length" in c.request.headers)
  }

  /** The head is there and says that the body is whatever arrives, and something follows it. */
  predicate CutMatters(c: Context) {
    var start := if c.completeHeaders then Parse(c, Accepted)
                 else if HeadEnd(c.buffer).None? then Parse(c, Rejected) else AfterHead(c);
    start.verdict == Accepted && UntilClose(start.context.request) && start.context.buffer != ""
  }

  lemma BodySplit(c: Context, b: string)
    requires Between(c) && c.completeHeaders
    requires !(UntilClose(c.request) && c.buffer + b != "")
    ensures Body(Extend(c, b)) == Resume(Body(c), b)
    ensures !Done(Body(c)) ==> Between(Body(c).context)
  {
    hide Find, OccursAt, Stoul, ChunkedBody;
    var p := Body(c);
    if IsChunked(c.request) {
      ChunkedKeepsHead(c);
      ChunkedSplit(c, b);
    } else if UntilClose(c.request) {
      assert c.buffer == "" && b == "";
    } else if "Content-Length" in c.request.headers {
      var length := Stoul(c.request.headers["Content-Length"], Ten);
      if length.Some? && length.value <= |c.buffer| {
        CutPrefix(c.buffer, b, 0, length.value);
      }
    }
  }

  /** A call on `bytes` and then on `b` is one call on both. */
  lemma StepSplit(c: Context, b: string)
    requires Between(c) && !CutMatters(Extend(c, b))
    ensures Step(Extend(c, b)) == Resume(Step(c), b)
    ensures !Done(Step(c)) ==> Between(Step(c).context)
  {
    hide Find, OccursAt, Body, RequestHead;
    if c.completeHeaders {
      BodySplit(c, b);
    } else if HeadEnd(c.buffer).Some? {
      var end := HeadEnd(c.buffer).value;
      FindInPrefix(c.buffer, b, BLANK_LINE);
      CutPrefix(c.buffer, b, 0, end + 2);
      CutPrefix(c.buffer, b, 0, end + 4);
      var start := AfterHead(c);
      assert AfterHead(Extend(c, b)) == Parse(Extend(start.context, b), start.verdict);
      if start.verdict == Accepted {
        BodySplit(start.context, b);
      }
    }
  }

  /** Bytes fed fragment by fragment until the request is decided; what is left unread. */
  datatype Fed = Fed(parse: Parse, unread: string)

  function Feed(c: Context, fragments: seq<string>): Fed
    requires fragments != []
    decreases |fragments|
  {
    hide Receive;
    var p := Receive(c, fragments[0]);
    if Done(p) || |fragments| == 1 then Fed(p, Concat(fragments[1..]))
    else Feed(p.context, fragments[1..])
  }

  /** Same verdict, same request and flags, and the same bytes left over. */
  predicate Agrees(fed: Fed, whole: Parse) {
    Parse(Extend(fed.parse.context, fed.unread), fed.parse.verdict) == whole
  }

  lemma CutStaysHarmless(c: Context, b: string)
    requires Between(c) && !CutMatters(Extend(c, b)) && !Done(Step(c))
    ensures !CutMatters(Extend(Step(c).context, b))
  {
    hide Find, OccursAt, RequestHead, ChunkedBody;
    if c.completeHeaders {
      ChunkedKeepsHead(c);
    } else if HeadEnd(c.buffer).Some? {
      FindInPrefix(c.buffer, b, BLANK_LINE);
      ChunkedKeepsHead(AfterHead(c).context);
    }
  }

  /** However a stream is cut, feeding the pieces gives what one call on all of it gives. */
  lemma {:induction false} FragmentationIndependence(c: Context, fragments: seq<string>)
    requires fragments != [] && Between(c)
    requires !CutMatters(Extend(c, Concat(fragments)))
    ensures Agrees(Feed(c, fragments), Receive(c, Concat(fragments)))
    decreases |fragments|
  {
    hide Step, CutMatters;
    var first, rest := fragments[0], Concat(fragments[1..]);
    var p := Receive(c, first);
    assert Extend(Extend(c, first), rest) == Extend(c, Concat(fragments)) by {
      assert (c.buffer + first) + rest == c.buffer + (first + rest);
    }
    StepSplit(Extend(c, first), rest);
    if !Done(p) && |fragments| > 1 {
      CutStaysHarmless(Extend(c, first), rest);
      FragmentationIndependence(p.context, fragments[1..]);
    } else if !Done(p) {
      assert Concat(fragments[1..]) == "" && Concat(fragments) == first;
      assert Extend(p.context, "") == p.context;
    }
  }

  ghost predicate CutsAgree(stream: string) {
    forall fragments: seq<string> :: fragments != [] && Concat(fragments) == stream ==>
      Agrees(Feed(Fresh(""), fragments), Receive(Fresh(""), stream))
  }

  /** The head alone already completes such a request, with an empty body. */
  lemma HeadCompletes(stream: string)
    requires CutMatters(Fresh(stream))
    ensures var cut := HeadEnd(stream).value + 4; var p := Step(Fresh(stream[..cut]));
      Done(p) && p.verdict == Accepted && p.context.buffer == ""
  {
    hide OccursAt, RequestHead, Find;
    var cut := HeadEnd(stream).value + 4;
    var head, rest := stream[..cut], stream[cut..];
    assert stream == head + rest;
    HeadPrefix(stream, cut);
    FindInPrefix(head, rest, BLANK_LINE);
    CutPrefix(head, rest, 0, cut - 2);
    assert head[cut..] == "";
  }

  /** A cut right after the head of a request whose body runs until the connection closes
      loses the body that the uncut stream has. */
  lemma CutLosesBody(stream: string)
    requires CutMatters(Fresh(stream))
    ensures !CutsAgree(stream)
  {
    hide HeadEnd, Step, CutMatters, CutsAgree, Done;
    HeadIsThere(stream);
    HeadCompletes(stream);
    WholeIsTaken(stream);
    var cut := HeadEnd(stream).value + 4;
    var head, rest := stream[..cut], stream[cut..];
    assert head + rest == stream;
    LeftOverDiffers(head, rest);
  }

  lemma HeadIsThere(stream: string)
    requires CutMatters(Fresh(stream))
    ensures HeadEnd(stream).Some? && HeadEnd(stream).value + 4 <= |stream|
  {
    hide Find, RequestHead;
  }

  /** Two fragments that leave bytes unread refute a stream that is taken whole. */
  lemma LeftOverDiffers(head: string, rest: string)
    requires Done(Step(Fresh(head))) && rest != "" && Step(Fresh(head + rest)).context.buffer == ""
    ensures !CutsAgree(head + rest)
  {
    hide Step, Feed, Concat;
    FedInTwo(head, rest);
    var stream := head + rest;
    assert "" + stream == stream;
    assert !Agrees(Feed(Fresh(""), [head, rest]), Receive(Fresh(""), stream));
  }

  lemma FedInTwo(head: string, rest: string)
    requires Done(Step(Fresh(head)))
    ensures Feed(Fresh(""), [head, rest]) == Fed(Step(Fresh(head)), rest)
    ensures Concat([head, rest]) == head + rest
  {
    hide Step;
    ConcatPair(head, rest);
    assert "" + head == head;
    assert [head, rest][1..] == [rest];
  }

  /** One call on the whole stream leaves nothing, and something does follow the head. */
  lemma WholeIsTaken(stream: string)
    requires CutMatters(Fresh(stream))
    ensures Step(Fresh(stream)).context.buffer == "" && stream[HeadEnd(stream).value + 4..] != ""
  {
    hide OccursAt, RequestHead, Find, ChunkedBody;
  }

  lemma HeadPrefix(stream: string, cut: nat)
    requires 4 <= cut <= |stream| && OccursAt(stream, BLANK_LINE, cut - 4)
    ensures OccursAt(stream[..cut], BLANK_LINE, cut - 4)
    ensures Find(stream[..cut], BLANK_LINE, 0).Some?
  {
    hide Find;
    assert stream[..cut][cut - 4..cut] == stream[cut - 4..cut];
  }

  /** The parse is independent of the fragmentation exactly when no body that runs until the
      connection closes follows the head. */
  lemma FragmentationIndependenceIff(stream: string)
    ensures CutsAgree(stream) <==> !CutMatters(Fresh(stream))
  {
    hide CutMatters;
    if CutMatters(Fresh(stream)) {
      CutLosesBody(stream);
    } else {
      assert "" + stream == stream;
      forall fragments: seq<string> | fragments != [] && Concat(fragments) == stream
        ensures Agrees(Feed(Fresh(""), fragments), Receive(Fresh(""), stream))
      {
        FragmentationIndependence(Fresh(""), fragments);
      }
    }
  }
}
