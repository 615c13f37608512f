/** The incremental HTTP/1.1 parser. The first half says what one call of the parser does
    to its state, as a function; the class below is the parser itself, which works on its
    fields in place and is proved to do exactly that. */
module HttpContexts {
  import opened Text
  import opened HttpRequests

  /** What a call of the parser reports: it returns true, it returns false, or an
      exception leaves it. */
  datatype Verdict = Accepted | Rejected | Thrown

  datatype Context = Context(
    request: Request,
    contentLength: nat,
    completeHeaders: bool,
    completeRequest: bool,
    buffer: string)

  datatype Parse = Parse(context: Context, verdict: Verdict)

  /** The state `Reset` leaves, given what is still buffered. */
  function Fresh(buffer: string): Context {
    Context(BLANK, 0, false, false, buffer)
  }

  // -------------------------------------------------------------- request head

  datatype Head = Head(request: Request, verdict: Verdict)

  function RequestLine(r: Request, line: string): Head {
    var first := Find(line, " ", 0);
    if first.None? then Head(r, Rejected)
    else
      var second := Find(line, " ", first.value + 1);
      if second.None? then Head(r, Rejected)
      else
        var r' := r.(verb := MethodOf(line[..first.value]),
                     url := line[first.value + 1..second.value],
                     version := VersionOf(line[second.value + 1..]));
        Head(r', if r'.url == "" then Rejected else Accepted)
  }

  /** Field lines in order; text after the last line end is ignored. The value starts two
      characters after the colon, so a line that ends with its colon throws. */
  function FieldLines(r: Request, text: string): Head
    decreases |text|
  {
    var end := Find(text, CRLF, 0);
    if end.None? then Head(r, Accepted)
    else
      var line := text[..end.value];
      var colon := Find(line, ":", 0);
      if colon.None? then Head(r, Rejected)
      else if colon.value + 2 > |line| then Head(r, Thrown)
      else
        var r' := r.(headers := r.headers[line[..colon.value] := line[colon.value + 2..]]);
        FieldLines(r', text[end.value + 2..])
  }

  function RequestHead(r: Request, head: string): Head {
    var pos := Find(head, CRLF, 0);
    if pos.None? || pos.value == 0 then Head(r, Rejected)
    else
      var line := RequestLine(r, head[..pos.value]);
      if line.verdict != Accepted then line
      else FieldLines(line.request, head[pos.value + 2..])
  }

  // -------------------------------------------------------------- request body

  predicate HasField(r: Request, key: string, value: string) {
    key in r.headers && r.headers[key] == value
  }

  predicate IsChunked(r: Request) { HasField(r, "Transfer-Encoding", "chunked") }

  /** The body is whatever has arrived: `Connection: close`, or not HTTP/1.1. */
  predicate UntilClose(r: Request) {
    !IsChunked(r) && (HasField(r, "Connection", "close") || r.version == Http10)
  }

  /** Length of a chunk and its framing: size line, data, two trailing characters. */
  function ChunkSpan(sizeEnd: nat, size: nat): nat { sizeEnd + 2 + size + 2 }

  function ChunkedBody(c: Context): Parse
    decreases |c.buffer|
  {
    var end := Find(c.buffer, CRLF, 0);
    if end.None? then Parse(c, Accepted)
    else
      var size := Stoul(c.buffer[..end.value], Sixteen);
      if size.None? then Parse(c, Thrown)
      else if |c.buffer| < ChunkSpan(end.value, size.value) then Parse(c, Accepted)
      else if size.value == 0 then
        Parse(c.(completeRequest := true, buffer := c.buffer[end.value + 4..]), Accepted)
      else
        ChunkedBody(c.(request := c.request.(body := c.request.body + c.buffer[end.value + 2..end.value + 2 + size.value]),
                       buffer := c.buffer[ChunkSpan(end.value, size.value)..]))
  }

  /** Takes `length` bytes of the buffer, or all of it when there are fewer. */
  function TakeBody(c: Context, length: nat): Context {
    var n := if length <= |c.buffer| then length else |c.buffer|;
    if length == 0 then c.(contentLength := 0, completeRequest := true)
    else c.(request := c.request.(body := c.buffer[..n]), contentLength := length,
            completeRequest := true, buffer := c.buffer[n..])
  }

  function Body(c: Context): Parse {
    if IsChunked(c.request) then ChunkedBody(c)
    else if UntilClose(c.request) then Parse(TakeBody(c, |c.buffer|), Accepted)
    else if "Content-Length" in c.request.headers then
      var length := Stoul(c.request.headers["Content-Length"], Ten);
      if length.None? then Parse(c, Rejected)
      else if |c.buffer| < length.value then Parse(c.(contentLength := length.value), Accepted)
      else Parse(TakeBody(c, length.value), Accepted)
    else Parse(TakeBody(c, c.contentLength), Accepted)
  }

  // ------------------------------------------------------------- the whole call

  /** Where the blank line that ends the head starts, if it has arrived. */
  function HeadEnd(buffer: string): Option<nat> { Find(buffer, BLANK_LINE, 0) }

  /** The state when body parsing starts, or the state in which the head stopped the call. */
  function AfterHead(c: Context): Parse
    requires !c.completeHeaders && HeadEnd(c.buffer).Some?
  {
    var end := HeadEnd(c.buffer).value;
    var head := RequestHead(c.request, c.buffer[..end + 2]);
    Parse(c.(request := head.request, completeHeaders := head.verdict == Accepted, buffer := c.buffer[end + 4..]),
          head.verdict)
  }

  /** One call, on the bytes already buffered. */
  function Step(c: Context): Parse {
    if c.completeHeaders then Body(c)
    else if HeadEnd(c.buffer).None? then Parse(c, Accepted)
    else
      var start := AfterHead(c);
      if start.verdict != Accepted then start else Body(start.context)
  }

  /** One call of `ParseRequest(bytes)`. */
  function Receive(c: Context, bytes: string): Parse {
    Step(c.(buffer := c.buffer + bytes))
  }

  // ------------------------------------------------------------------ the parser

  class HttpContext {
    var request: HttpRequest
    var contentLength: nat
    var completeHeaders: bool
    var completeRequest: bool
    var buffer: string

    ghost function View(): Context
      reads this, request
    {
      Context(request.View(), contentLength, completeHeaders, completeRequest, buffer)
    }

    /** `completeHeaders` is not set here: it starts with whatever value it finds. */
    constructor (headersFlag: bool)
      ensures fresh(request)
      ensures View() == Context(BLANK, 0, headersFlag, false, "")
    {
      request := new HttpRequest();
      contentLength, completeHeaders, completeRequest, buffer := 0, headersFlag, false, "";
    }

    method Reset()
      modifies this
      ensures fresh(request)
      ensures View() == Fresh(old(buffer))
    {
      request := new HttpRequest();
      contentLength := 0;
      completeRequest := false;
      completeHeaders := false;
    }

    method ClearBuffer()
      modifies this`buffer
      ensures buffer == ""
    {
      buffer := "";
    }

    predicate IsComplete()
      reads this
    {
      completeRequest
    }

    method ParseRequestLine(line: string) returns (ok: bool)
      modifies request
      ensures request == old(request)
      ensures Head(request.View(), if ok then Accepted else Rejected) == RequestLine(old(request.View()), line)
    {
      var pos1 := Find(line, " ", 0);
      if pos1.None? { return false; }
      var pos2 := Find(line, " ", pos1.value + 1);
      if pos2.None? { return false; }
      request.SetMethod(line[..pos1.value]);
      request.SetUrl(line[pos1.value + 1..pos2.value]);
      request.SetVersion(line[pos2.value + 1..]);
      ok := request.url != "";
    }

    method ParseRequestHeaders(data: string) returns (verdict: Verdict)
      modifies request
      ensures Head(request.View(), verdict) == FieldLines(old(request.View()), data)
    {
      hide Find, OccursAt;
      var pos := 0;
      assert data[0..] == data;
      var end := Find(data, CRLF, pos);
      while end.Some?
        invariant pos <= |data| && end == Find(data, CRLF, pos)
        invariant FieldLines(request.View(), data[pos..]) == FieldLines(old(request.View()), data)
        decreases |data| - pos
      {
        FindInSuffix(data, CRLF, pos);
        var line := data[pos..end.value];
        assert line == data[pos..][..end.value - pos];
        assert data[pos..][end.value - pos + 2..] == data[end.value + 2..];
        pos := end.value + 2;
        var colon := Find(line, ":", 0);
        if colon.None? { return Rejected; }
        if colon.value + 2 > |line| { return Thrown; }
        request.SetHeader(line[..colon.value], line[colon.value + 2..]);
        end := Find(data, CRLF, pos);
      }
      FindInSuffix(data, CRLF, pos);
      verdict := Accepted;
    }

    method ParseChunkedBody() returns (verdict: Verdict)
      modifies this`buffer, this`completeRequest, request`body
      ensures Parse(View(), verdict) == ChunkedBody(old(View()))
    {
      hide Find, OccursAt, Stoul;
      while true
        invariant request == old(request)
        invariant ChunkedBody(View()) == ChunkedBody(old(View()))
        decreases |buffer|
      {
        var sizeEnd := Find(buffer, CRLF, 0);
        if sizeEnd.None? { return Accepted; }
        var size := Stoul(buffer[..sizeEnd.value], Sixteen);
        if size.None? { return Thrown; }
        if |buffer| < sizeEnd.value + 2 + size.value + 2 { return Accepted; }
        ghost var before := buffer;
        buffer := buffer[sizeEnd.value + 2..];
        if size.value == 0 {
          completeRequest := true;
          buffer := buffer[2..];
          assert buffer == before[sizeEnd.value + 4..];
          return Accepted;
        }
        request.AddBody(buffer[..size.value]);
        assert buffer[..size.value] == before[sizeEnd.value + 2..sizeEnd.value + 2 + size.value];
        buffer := buffer[size.value + 2..];
        assert buffer == before[ChunkSpan(sizeEnd.value, size.value)..];
      }
    }

    /** The part of `ParseRequest` after the head. */
    method ParseBody() returns (verdict: Verdict)
      modifies this, request
      ensures request == old(request)
      ensures Parse(View(), verdict) == Body(old(View()))
    {
      hide Stoul, ChunkedBody;
      if request.HeaderString("Transfer-Encoding") == "chunked" {
        verdict := ParseChunkedBody();
        return;
      }
      if request.HeaderString("Connection") == "close" || request.version == Http10 {
        contentLength := |buffer|;
      } else if "Content-Length" in request.headers {
        var length := Stoul(request.HeaderString("Content-Length"), Ten);
        if length.None? { return Rejected; }
        contentLength := length.value;
        if |buffer| < contentLength { return Accepted; }
      }
      if contentLength > 0 {
        var n := if contentLength <= |buffer| then contentLength else |buffer|;
        request.SetBody(buffer[..n]);
        buffer := buffer[n..];
      }
      completeRequest := true;
      verdict := Accepted;
    }

    method ParseRequest(str: string) returns (verdict: Verdict)
      modifies this, request
      ensures request == old(request)
      ensures Parse(View(), verdict) == Receive(old(View()), str)
    {
      hide Find, OccursAt, FieldLines, RequestLine, Body;
      buffer := buffer + str;
      if !completeHeaders {
        var headerEnd := Find(buffer, BLANK_LINE, 0);
        if headerEnd.None? { return Accepted; }
        var header := buffer[..headerEnd.value + 2];
        buffer := buffer[headerEnd.value + 4..];
        var pos := Find(header, CRLF, 0);
        if pos.None? || pos.value == 0 { return Rejected; }
        var ok := ParseRequestLine(header[..pos.value]);
        if !ok { return Rejected; }
        verdict := ParseRequestHeaders(header[pos.value + 2..]);
        if verdict != Accepted { return; }
        completeHeaders := true;
      }
      verdict := ParseBody();
    }
  }
}
