/** What a client gets back for one request: whether the connection is kept, by default and with
    an application that follows the default, and how bad requests end. */
module HttpAnswers {
  import opened Text
  import opened HttpRequests
  import opened HttpContexts
  import opened HttpErrors
  import opened HttpRoundTrip
  import opened HttpHeads
  import opened TcpConnections
  import opened HttpServers
  import opened HttpPipeline

  // ------------------------------------------------------------------ the decision

  /** A well-formed request, which asks for nothing, is handed over as one to keep open. */
  lemma KeptByDefault(m: Message, handler: Handler)
    requires WellFormed(m)
    ensures Answer(Meaning(m), handler) == handler(Meaning(m), false)
  {
    hide FieldMap, WellFormedField, ContentBody;
    FieldMapHolds(m.fields, "Connection", "close");
  }

  /** The head asks for the connection to be closed: by its field, or by another version without
      the field that asks to keep it. */
  predicate AsksToClose(h: HeadParts) {
    || Field("Connection", "close") in h.fields
    || (h.version != "HTTP/1.1" && Field("Connection", "Keep-Alive") !in h.fields)
  }

  /** Whatever the body: the application is told to close exactly when the head asks for it. For
      another version this means: exactly when the field that asks to keep it is absent. */
  lemma DecisionOnHead(h: HeadParts, body: string, handler: Handler)
    requires ProperHead(h)
    ensures Answer(RequestOf(h, body), handler) == handler(RequestOf(h, body), AsksToClose(h))
    ensures h.version != "HTTP/1.1" ==> (AsksToClose(h) <==> Field("Connection", "Keep-Alive") !in h.fields)
  {
    hide FieldMap, WellFormedField, MethodOf, StartOf, NoCRLF;
    FieldMapHolds(h.fields, "Connection", "close");
    FieldMapHolds(h.fields, "Connection", "Keep-Alive");
    VersionsByName(h.version);
    hide VersionOf;
    var r := RequestOf(h, body);
    assert "close" != "Keep-Alive";
    assert "Connection" in r.headers ==> Field("Connection", r.headers["Connection"]) in h.fields by {
      if "Connection" in r.headers { FieldMapHolds(h.fields, "Connection", r.headers["Connection"]); }
    }
  }

  // ----------------------------------------------------------------- one reading

  /** The application leaves the decision as it finds it. */
  ghost predicate FollowsDefault(handler: Handler) {
    forall r, close :: handler(r, close).close == close
  }

  /** A well-formed request that arrives in one reading is answered, and the connection stays. */
  lemma WellFormedIsKept(m: Message, reading: Reading, handler: Handler)
    requires WellFormed(m) && BytesRead(reading) == Render(m) && !ReadingCloses(reading) && FollowsDefault(handler)
    ensures var s := Run([reading], handler);
      s.served == [Meaning(m)] && s.endpoint.connected && s.endpoint.output == handler(Meaning(m), false).text
  {
    hide WellFormed, Render, Meaning, Answer, Step, BytesRead, ReadingCloses;
    RenderThenParse(m, "");
    RenderNonEmpty(m);
    KeptByDefault(m, handler);
    OneReading(reading, handler);
    assert "" + Render(m) == Render(m) == Render(m) + "";
    assert "" + handler(Meaning(m), false).text == handler(Meaning(m), false).text;
  }

  /** A request whose body ends with the connection is served with what came in the reading, and
      the connection is kept exactly when its head does not ask for closing. */
  lemma UntilCloseIsAnswered(h: HeadParts, rest: string, reading: Reading, handler: Handler)
    requires ProperHead(h) && EndsWithConnection(h)
    requires BytesRead(reading) == HeadText(h) + rest && !ReadingCloses(reading) && FollowsDefault(handler)
    ensures var s := Run([reading], handler);
      && s.served == [RequestOf(h, rest)]
      && s.endpoint.output == handler(RequestOf(h, rest), AsksToClose(h)).text
      && (s.endpoint.connected <==> !AsksToClose(h))
  {
    hide ProperHead, EndsWithConnection, HeadText, RequestOf, AsksToClose, Answer, Receive, BytesRead, ReadingCloses;
    RestIsBody(h, rest);
    DecisionOnHead(h, rest, handler);
    HeadTextNotEmpty(h, rest);
    OneReading(reading, handler);
    var text := HeadText(h) + rest;
    assert "" + text == text;
    var reply := handler(RequestOf(h, rest), AsksToClose(h));
    assert "" + reply.text == reply.text;
  }

  lemma HeadTextNotEmpty(h: HeadParts, rest: string)
    ensures HeadText(h) + rest != ""
  {
  }

  // ------------------------------------------------------------------ bad requests

  /** A request with a bad start line, field line or length, in one reading, is answered with the
      400 line and nothing else, nothing is handed on, and the connection is closed. */
  lemma BadRequestIsRefused(ls: seq<string>, rest: string, reading: Reading, handler: Handler)
    requires IsBlock(ls) && BytesRead(reading) == Lines(ls) + CRLF + rest && !ReadingCloses(reading)
    requires HeadEnd(Lines(ls) + CRLF + rest).Some?
    requires HeadVerdict(ls) == Rejected
          || (HeadVerdict(ls) == Accepted && BadLength(AfterHead(Fresh(Lines(ls) + CRLF + rest)).context.request))
    ensures var s := Run([reading], handler);
      s.served == [] && s.refused && !s.endpoint.connected && s.endpoint.output == "HTTP/1.1 400 Bad Request\r\n\r\n"
  {
    hide IsBlock, Lines, HeadEnd, AfterHead, HeadVerdict, BadLength, BadChunk, Step, BytesRead, ReadingCloses;
    RequestVerdict(ls, rest);
    OneReading(reading, handler);
    var text := Lines(ls) + CRLF + rest;
    assert "" + text == text && text != "";
  }

  /** One that makes the parser throw is not answered at all. */
  lemma ThrowIsNotAnswered(ls: seq<string>, rest: string, reading: Reading, handler: Handler)
    requires IsBlock(ls) && BytesRead(reading) == Lines(ls) + CRLF + rest && !ReadingCloses(reading)
    requires HeadEnd(Lines(ls) + CRLF + rest).Some?
    requires HeadVerdict(ls) == Thrown
          || (HeadVerdict(ls) == Accepted && BadChunk(AfterHead(Fresh(Lines(ls) + CRLF + rest)).context))
    ensures var s := Run([reading], handler); s.served == [] && s.threw && s.endpoint.output == ""
  {
    hide IsBlock, Lines, HeadEnd, AfterHead, HeadVerdict, BadLength, BadChunk, Step, BytesRead, ReadingCloses;
    RequestVerdict(ls, rest);
    OneReading(reading, handler);
    var text := Lines(ls) + CRLF + rest;
    assert "" + text == text && text != "";
  }
}
