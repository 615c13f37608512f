/** Pipelined requests on one connection, read in any pieces. */
module HttpPipeline {
  import opened Text
  import opened HttpRequests
  import opened HttpContexts
  import opened HttpFragments
  import opened HttpRoundTrip
  import opened HttpServers
  import opened TcpConnections

  /** A connection together with what the server has done for it. */
  datatype Session = Session(endpoint: Endpoint, served: seq<Request>, refused: bool, threw: bool)

  const START := Session(Endpoint(true, "", Fresh(""), ""), [], false, false)

  /** What the kernel answers while one read event is handled. */
  type Reading = seq<ReadResult>

  /** A read event: the loop reads until an answer ends the reading, and runs the message
      callback. An answer other than that there is nothing more for now closes the connection
      before the callback runs. An exception ends the server. */
  function Deliver(s: Session, reading: Reading, handler: Handler): Session {
    if s.threw then s
    else
      var e := s.endpoint;
      var h := Handled(e.(unread := e.unread + BytesRead(reading), connected := e.connected && !ReadingCloses(reading)), handler);
      Session(h.endpoint,
              s.served + (if h.outcome.Served? then [h.outcome.request] else []),
              s.refused || h.outcome.Refused?,
              h.outcome.Threw?)
  }

  function Run(readings: seq<Reading>, handler: Handler): Session {
    if readings == [] then START
    else Deliver(Run(readings[..|readings| - 1], handler), readings[|readings| - 1], handler)
  }

  /** All bytes that a run of read events brings. */
  function Received(readings: seq<Reading>): string {
    if readings == [] then "" else Received(readings[..|readings| - 1]) + BytesRead(readings[|readings| - 1])
  }

  function RenderAll(ms: seq<Message>): string {
    if ms == [] then "" else Render(ms[0]) + RenderAll(ms[1..])
  }

  function Meanings(ms: seq<Message>): (rs: seq<Request>)
    ensures |rs| == |ms|
    ensures forall i :: 0 <= i < |ms| ==> rs[i] == Meaning(ms[i])
  {
    seq(|ms|, i requires 0 <= i < |ms| => Meaning(ms[i]))
  }

  function Replies(rs: seq<Request>, handler: Handler): string {
    if rs == [] then "" else Replies(rs[..|rs| - 1], handler) + Answer(rs[|rs| - 1], handler).text
  }

  /** The parser state after the bytes of an undecided request: either they are all still
      buffered, or one call has parsed what it could of them. */
  predicate Represents(c: Context, part: string) {
    c == Fresh(part) || (c == Step(Fresh(part)).context && !Done(Step(Fresh(part))))
  }

  /** The bytes delivered so far are those of the served requests and then `part`, which is
      what the parser and its buffer stand for. No request was refused, and the answers
      were sent in order. */
  predicate Accounts(s: Session, ms: seq<Message>, fed: string, handler: Handler) {
    && !s.threw && !s.refused && |s.served| <= |ms|
    && s.served == Meanings(ms[..|s.served|])
    && s.endpoint.output == Replies(s.served, handler)
    && (s.endpoint.connected ==>
          var done := |RenderAll(ms[..|s.served|])|;
          && s.endpoint.unread == ""
          && done <= |fed| && fed[..done] == RenderAll(ms[..|s.served|])
          && Represents(s.endpoint.context, fed[done..]))
  }

  lemma {:induction false} RenderAllSplit(ms: seq<Message>, k: nat)
    requires k <= |ms|
    ensures RenderAll(ms) == RenderAll(ms[..k]) + RenderAll(ms[k..])
  {
    hide Render;
    if k == 0 {
      assert ms[..0] == [] && ms[0..] == ms;
    } else {
      RenderAllSplit(ms[1..], k - 1);
      assert ms[..k][1..] == ms[1..][..k - 1] && ms[1..][k - 1..] == ms[k..];
      var a, b, c := Render(ms[0]), RenderAll(ms[1..][..k - 1]), RenderAll(ms[k..]);
      assert a + (b + c) == (a + b) + c;
    }
  }

  lemma CutMattersGrows(q: string, rest: string)
    requires !CutMatters(Fresh(q + rest))
    ensures !CutMatters(Fresh(q))
  {
    hide Find, OccursAt, RequestHead;
    if HeadEnd(q).Some? {
      FindInPrefix(q, rest, BLANK_LINE);
      CutPrefix(q, rest, 0, HeadEnd(q).value + 2);
      CutPrefix(q, rest, 0, HeadEnd(q).value + 4);
    }
  }

  /** Resuming from a represented state is parsing all its bytes at once. */
  lemma Resumes(c: Context, part: string, bytes: string)
    requires Represents(c, part) && !CutMatters(Fresh(part + bytes))
    ensures Receive(c, bytes) == Step(Fresh(part + bytes))
  {
    hide Step, CutMatters;
    assert Extend(Fresh(part), bytes) == Fresh(part + bytes);
    StepSplit(Fresh(part), bytes);
  }

  /** The bytes of one message followed by more: undecided until the message is complete,
      then exactly that message, with the surplus left in the buffer. */
  lemma FrontMessage(m: Message, tail: string, q: string, rest: string)
    requires WellFormed(m) && q + rest == Render(m) + tail
    ensures var p := Step(Fresh(q));
      && !CutMatters(Fresh(q))
      && (Done(p) <==> |q| >= |Render(m)|)
      && (Done(p) ==> p.verdict == Accepted && p.context.completeRequest && p.context.request == Meaning(m)
                      && q == Render(m) + p.context.buffer)
  {
    hide Step, CutMatters, Render, WellFormed;
    RenderThenParse(m, tail);
    assert "" + (Render(m) + tail) == q + rest;
    CutMattersGrows(q, rest);
    assert Extend(Fresh(q), rest) == Fresh(q + rest);
    StepSplit(Fresh(q), rest);
    var p := Step(Fresh(q));
    if Done(p) {
      assert p.context.buffer + rest == tail;
      CancelSuffix(q, Render(m) + p.context.buffer, rest);
    }
    if |q| >= |Render(m)| {
      var surplus := q[|Render(m)|..];
      assert q[..|Render(m)|] == (q + rest)[..|Render(m)|] == Render(m);
      assert q == Render(m) + surplus && "" + q == q;
      RenderThenParse(m, surplus);
    }
  }

  lemma CancelSuffix(a: string, b: string, suffix: string)
    requires a + suffix == b + suffix
    ensures a == b
  {
    assert |a + suffix| == |b + suffix|;
    assert a == (a + suffix)[..|a|] && b == (b + suffix)[..|b|];
  }

  /** The bytes after the served requests start with the next message. */
  lemma NextMessage(ms: seq<Message>, k: nat, fed: string, m: string, rest: string)
    requires k <= |ms| && m != "" && fed + m + rest == RenderAll(ms)
    requires |RenderAll(ms[..k])| <= |fed| && fed[..|RenderAll(ms[..k])|] == RenderAll(ms[..k])
    ensures k < |ms|
    ensures var done := |RenderAll(ms[..k])|;
      (fed[done..] + m) + rest == Render(ms[k]) + RenderAll(ms[k + 1..])
      && RenderAll(ms[..k + 1]) == RenderAll(ms[..k]) + Render(ms[k])
  {
    hide Render;
    var before := RenderAll(ms[..k]);
    var part := fed[|before|..];
    RenderAllSplit(ms, k);
    assert fed == before + part;
    assert before + (part + m + rest) == before + RenderAll(ms[k..]);
    CancelPrefix(before, part + m + rest, RenderAll(ms[k..]));
    assert ms[k..] != [];
    assert ms[k..][1..] == ms[k + 1..];
    RenderAllSplit(ms[..k + 1], k);
    assert ms[..k + 1][..k] == ms[..k] && ms[..k + 1][k..] == [ms[k]];
    assert RenderAll([ms[k]]) == Render(ms[k]) + RenderAll([]);
    assert Render(ms[k]) + "" == Render(ms[k]);
  }

  lemma Associate(a: string, b: string, c: string)
    ensures a + (b + c) == a + b + c
  {
  }

  lemma CancelPrefix(prefix: string, a: string, b: string)
    requires prefix + a == prefix + b
    ensures a == b
  {
    assert a == (prefix + a)[|prefix|..] && b == (prefix + b)[|prefix|..];
  }

  lemma ServedOneMore(ms: seq<Message>, served: seq<Request>, handler: Handler)
    requires |served| < |ms| && served == Meanings(ms[..|served|])
    ensures var more := served + [Meaning(ms[|served|])];
      more == Meanings(ms[..|more|])
      && Replies(more, handler) == Replies(served, handler) + Answer(Meaning(ms[|served|]), handler).text
  {
    hide Meaning, Answer;
    var more := served + [Meaning(ms[|served|])];
    assert more[..|more| - 1] == served;
  }

  /** One more reading of the stream keeps the account. */
  lemma AccountsKept(s: Session, ms: seq<Message>, fed: string, reading: Reading, rest: string, handler: Handler)
    requires forall r :: r in ms ==> WellFormed(r)
    requires Accounts(s, ms, fed, handler) && fed + BytesRead(reading) + rest == RenderAll(ms)
    ensures Accounts(Deliver(s, reading, handler), ms, fed + BytesRead(reading), handler)
  {
    hide WellFormed, Render, Meaning, Meanings, Replies, CutMatters, Receive, Step, Answer, RenderAll;
    hide ReadingCloses, BytesRead;
    var m := BytesRead(reading);
    if !s.endpoint.connected || ReadingCloses(reading) {
      assert s.served + [] == s.served;
    } else if m == "" {
      assert fed + m == fed && s.endpoint.unread + m == "";
      assert s.served + [] == s.served;
    } else {
      var k := |s.served|;
      NextMessage(ms, k, fed, m, rest);
      var done := |RenderAll(ms[..k])|;
      var q := fed[done..] + m;
      FrontMessage(ms[k], RenderAll(ms[k + 1..]), q, rest);
      Resumes(s.endpoint.context, fed[done..], m);
      assert s.endpoint.unread + m == m;
      ServedOneMore(ms, s.served, handler);
      assert s.served + [] == s.served;
      assert (fed + m)[..done] == fed[..done] && (fed + m)[done..] == q;
      var p := Step(Fresh(q));
      if Done(p) {
        Regroup(RenderAll(ms[..k]), Render(ms[k]), p.context.buffer, fed + m);
      }
    }
  }

  lemma Regroup(a: string, b: string, c: string, all: string)
    requires |all| >= |a| && all[..|a|] == a && all[|a|..] == b + c
    ensures |all| >= |a + b| && all[..|a + b|] == a + b && all[|a + b|..] == c
  {
    assert all == a + b + c;
  }

  /** However a stream of well-formed requests is read, and whether or not a reading meets its
      end or an error, the requests handed to the application are always a prefix of those sent,
      each answered once and in order; while the connection is open every other byte read is
      accounted for by the parser. */
  lemma {:induction false} PipelineSafety(ms: seq<Message>, readings: seq<Reading>, rest: string, handler: Handler)
    requires forall r :: r in ms ==> WellFormed(r)
    requires Received(readings) + rest == RenderAll(ms)
    ensures Accounts(Run(readings, handler), ms, Received(readings), handler)
    decreases |readings|
  {
    hide WellFormed, Render, RenderAll, Deliver, Accounts, BytesRead;
    if readings == [] {
      StartAccounts(ms, handler);
    } else {
      var before, last := readings[..|readings| - 1], readings[|readings| - 1];
      Associate(Received(before), BytesRead(last), rest);
      PipelineSafety(ms, before, BytesRead(last) + rest, handler);
      AccountsKept(Run(before, handler), ms, Received(before), last, rest, handler);
    }
  }

  /** The kernel's answers do end the reading. */
  predicate ReadingEnds(reading: Reading) {
    exists i :: 0 <= i < |reading| && Ends(reading[i])
  }

  /** One read event on the objects is one delivery to the session. */
  method ServeOne(server: HttpServer, conn: TcpConnection, reading: Reading, ghost s: Session)
    returns (served: seq<Request>, threw: bool)
    requires conn.Valid() && conn.Flushing() && ReadingEnds(reading)
    requires server.View(conn) == s.endpoint && !s.threw
    modifies conn.Repr()
    ensures conn.Valid() && conn.Flushing() && fresh(conn.Repr() - old(conn.Repr()))
    ensures var t := Deliver(s, reading, server.handler);
      server.View(conn) == t.endpoint && t.served == s.served + served && t.threw == threw
  {
    hide Handled, BytesRead, ReadingCloses;
    var outcome := server.HandleMessage(conn, reading, 0);
    served := if outcome.Served? then [outcome.request] else [];
    threw := outcome.Threw?;
  }

  method Opened(server: HttpServer) returns (conn: TcpConnection)
    ensures fresh(conn.Repr()) && conn.Valid() && conn.Flushing() && server.View(conn) == START.endpoint
  {
    conn := new TcpConnection(false);
  }

  /** The objects, driven by read events, behave as the session: so what is proved of its runs
      holds of the server. It starts from a parser that has been reset. */
  method ServeConnection(server: HttpServer, readings: seq<Reading>) returns (conn: TcpConnection, served: seq<Request>)
    requires forall reading :: reading in readings ==> ReadingEnds(reading)
    ensures fresh(conn.Repr()) && conn.Valid() && conn.Flushing()
    ensures var s := Run(readings, server.handler); server.View(conn) == s.endpoint && served == s.served
  {
    hide ReadingEnds, Deliver, Run;
    hide TcpConnection.Valid, TcpConnection.Flushing, HttpServer.View;
    conn := Opened(server);
    served := [];
    ghost var s := START;
    NothingDelivered(server.handler);
    assert readings[..0] == [];
    for i := 0 to |readings|
      invariant fresh(conn.Repr()) && conn.Valid() && conn.Flushing()
      invariant s == Run(readings[..i], server.handler)
      invariant server.View(conn) == s.endpoint && served == s.served && !s.threw
    {
      assert readings[i] in readings;
      OneMoreDelivered(readings, i, server.handler);
      var more, threw := ServeOne(server, conn, readings[i], s);
      served := served + more;
      s := Deliver(s, readings[i], server.handler);
      if threw {
        RunThrown(readings, i + 1, server.handler);
        return;
      }
    }
    assert readings[..|readings|] == readings;
  }

  lemma NothingDelivered(handler: Handler)
    ensures Run([], handler) == START
  {
  }

  lemma OneMoreDelivered(readings: seq<Reading>, i: nat, handler: Handler)
    requires i < |readings|
    ensures Run(readings[..i + 1], handler) == Deliver(Run(readings[..i], handler), readings[i], handler)
  {
    hide Deliver;
    assert readings[..i + 1][..i] == readings[..i];
  }

  /** After an exception nothing more is handled. */
  lemma {:induction false} RunThrown(readings: seq<Reading>, k: nat, handler: Handler)
    requires k <= |readings| && Run(readings[..k], handler).threw
    ensures Run(readings, handler) == Run(readings[..k], handler)
    decreases |readings|
  {
    hide Handled, BytesRead;
    if k < |readings| {
      var front := readings[..|readings| - 1];
      assert front[..k] == readings[..k];
      RunThrown(front, k, handler);
    } else {
      assert readings[..k] == readings;
    }
  }

  lemma StartAccounts(ms: seq<Message>, handler: Handler)
    ensures Accounts(START, ms, "", handler)
  {
    hide Step;
    assert ms[..0] == [];
    assert Meanings([]) == [];
  }

  lemma DeliverServes(s: Session, ms: seq<Message>, fed: string, reading: Reading, rest: string, handler: Handler)
    requires forall r :: r in ms ==> WellFormed(r)
    requires Accounts(s, ms, fed, handler) && fed + BytesRead(reading) + rest == RenderAll(ms)
    requires s.endpoint.connected && BytesRead(reading) != ""
    ensures var k := |s.served|;
      && k < |ms|
      && (|Deliver(s, reading, handler).served|
          == if !ReadingCloses(reading) && |fed + BytesRead(reading)| >= |RenderAll(ms[..k + 1])| then k + 1 else k)
  {
    hide WellFormed, Render, RenderAll, Meaning, Meanings, Replies, CutMatters, Receive, Step, Answer;
    hide BytesRead, ReadingCloses;
    var k, bytes := |s.served|, BytesRead(reading);
    NextMessage(ms, k, fed, bytes, rest);
    var done := |RenderAll(ms[..k])|;
    var q := fed[done..] + bytes;
    FrontMessage(ms[k], RenderAll(ms[k + 1..]), q, rest);
    Resumes(s.endpoint.context, fed[done..], bytes);
    assert s.endpoint.unread + bytes == bytes;
    assert |q| == |fed + bytes| - done;
  }

  /** A request is served by the reading that completes it, never earlier and never later,
      unless complete requests before it are still waiting; and a reading that closes the
      connection serves none, whatever it completes. */
  lemma ServedOnCompletion(ms: seq<Message>, readings: seq<Reading>, reading: Reading, rest: string, handler: Handler)
    requires forall r :: r in ms ==> WellFormed(r)
    requires Received(readings) + BytesRead(reading) + rest == RenderAll(ms) && BytesRead(reading) != ""
    requires Run(readings, handler).endpoint.connected
    ensures var before := Run(readings, handler); var k := |before.served|;
      && k < |ms|
      && (|Deliver(before, reading, handler).served|
          == if !ReadingCloses(reading) && |Received(readings) + BytesRead(reading)| >= |RenderAll(ms[..k + 1])|
             then k + 1 else k)
  {
    hide WellFormed, RenderAll, Run, Deliver, Accounts, Received, Render, BytesRead, ReadingCloses;
    Associate(Received(readings), BytesRead(reading), rest);
    PipelineSafety(ms, readings, BytesRead(reading) + rest, handler);
    DeliverServes(Run(readings, handler), ms, Received(readings), reading, rest, handler);
  }

  lemma OneReading(reading: Reading, handler: Handler)
    ensures Run([reading], handler) == Deliver(START, reading, handler)
  {
    hide Deliver;
    assert [reading][..0] == [];
  }

  /** A whole request that arrives in one reading is answered if and only if this reading does
      not meet the end of the stream or an error; otherwise nothing at all is sent. */
  lemma AnsweredUnlessReadingCloses(m: Message, reading: Reading, handler: Handler)
    requires WellFormed(m) && BytesRead(reading) == Render(m)
    ensures var s := Run([reading], handler);
      && (s.served == [Meaning(m)] <==> !ReadingCloses(reading))
      && (ReadingCloses(reading) ==> s.served == [] && s.endpoint.output == "" && !s.endpoint.connected)
  {
    hide WellFormed, Render, Meaning, Answer, Step, BytesRead, ReadingCloses;
    RenderThenParse(m, "");
    RenderNonEmpty(m);
    OneReading(reading, handler);
    assert "" + Render(m) == Render(m) == Render(m) + "";
  }

  const SHORTEST := Message(GET, "/", [], Nothing)

  const SHORTEST_TEXT := "GET / HTTP/1.1\r\n\r\n"

  lemma ShortestRenders()
    ensures WellFormed(SHORTEST) && Render(SHORTEST) == SHORTEST_TEXT
  {
    var line := StartLine(SHORTEST);
    assert line == "GET / HTTP/1.1";
    assert HeadLines(SHORTEST) == [line] && Lines([line]) == line + CRLF + Lines([]);
  }

  /** One such request: a client that sends it and shuts down its side at once, so that both
      are met by the same reading, gets no answer; one that waits is served. */
  lemma RequestBeforeEndOfFileIsDropped(handler: Handler)
    ensures Run([[Bytes(SHORTEST_TEXT), EndOfFile]], handler).served == []
    ensures Run([[Bytes(SHORTEST_TEXT), EndOfFile]], handler).endpoint.output == ""
    ensures Run([[Bytes(SHORTEST_TEXT), WouldBlock]], handler).served == [Meaning(SHORTEST)]
  {
    hide WellFormed, Render, Meaning, Run;
    ShortestRenders();
    TwoAnswers(SHORTEST_TEXT, EndOfFile);
    TwoAnswers(SHORTEST_TEXT, WouldBlock);
    AnsweredUnlessReadingCloses(SHORTEST, [Bytes(SHORTEST_TEXT), EndOfFile], handler);
    AnsweredUnlessReadingCloses(SHORTEST, [Bytes(SHORTEST_TEXT), WouldBlock], handler);
  }

  lemma TwoAnswers(data: string, last: ReadResult)
    requires Ends(last)
    ensures BytesRead([Bytes(data), last]) == data
    ensures ReadingCloses([Bytes(data), last]) <==> !last.WouldBlock?
  {
    assert [Bytes(data), last][1..] == [last];
    assert data + "" == data;
  }

  /** One reading serves one request at most: of two requests that arrive together the second
      stays in the buffer, complete and unanswered, until more bytes come. */
  lemma SecondRequestWaits(a: Message, b: Message, reading: Reading, handler: Handler)
    requires WellFormed(a) && WellFormed(b) && !Answer(Meaning(a), handler).close
    requires BytesRead(reading) == Render(a) + Render(b) && !ReadingCloses(reading)
    ensures var s := Run([reading], handler);
      s.served == [Meaning(a)] && s.endpoint.context == Fresh(Render(b)) && s.endpoint.connected
  {
    hide WellFormed, Render, Meaning, Answer, Step, BytesRead, ReadingCloses;
    var bytes := Render(a) + Render(b);
    RenderThenParse(a, Render(b));
    assert "" + bytes == bytes;
    OneReading(reading, handler);
    if bytes == "" {
      assert Render(a) == "";
      RenderNonEmpty(a);
    }
  }
}
