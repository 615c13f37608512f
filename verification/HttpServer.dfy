/** What the HTTP server does with the messages of one connection. */
module HttpServers {
  import opened Text
  import opened Times
  import opened Buffers
  import opened HttpRequests
  import opened HttpContexts
  import opened TcpConnections

  const BAD_REQUEST := "HTTP/1.1 400 Bad Request\r\n\r\n"

  /** What the application answers: the response text, and whether the connection closes. */
  datatype Reply = Reply(text: string, close: bool)

  type Handler = (Request, bool) -> Reply

  /** The connection as the message callback finds it. */
  datatype Endpoint = Endpoint(connected: bool, unread: string, context: Context, output: string)

  datatype Outcome = Ignored | Waiting | Refused | Served(request: Request) | Threw

  datatype Handling = Handling(endpoint: Endpoint, outcome: Outcome)

  /** Whether the response starts out closing the connection. */
  predicate ClosesByDefault(r: Request) {
    var connection := if "Connection" in r.headers then r.headers["Connection"] else "";
    connection == "close" || (r.version == Http10 && connection != "Keep-Alive")
  }

  function Answer(r: Request, handler: Handler): Reply { handler(r, ClosesByDefault(r)) }

  /** What follows a call of the parser that ended with `verdict`. */
  function Concluded(e: Endpoint, verdict: Verdict, handler: Handler): Handling {
    match verdict
    case Thrown => Handling(e, Threw)
    case Rejected => Handling(e.(output := e.output + BAD_REQUEST, connected := false), Refused)
    case Accepted =>
      if !e.context.completeRequest then Handling(e, Waiting)
      else
        var r := e.context.request;
        var reply := Answer(r, handler);
        Handling(e.(output := e.output + reply.text, connected := e.connected && !reply.close, context := Fresh(e.context.buffer)),
                 Served(r))
  }

  /** One call of the message callback. */
  function Handled(e: Endpoint, handler: Handler): Handling {
    if !e.connected || e.unread == "" then Handling(e, Ignored)
    else
      var p := Receive(e.context, e.unread);
      Concluded(e.(unread := "", context := p.context), p.verdict, handler)
  }

  class HttpServer {
    const handler: Handler
    const timeout: real

    constructor (handler: Handler, timeout: real)
      ensures this.handler == handler && this.timeout == timeout
    {
      this.handler := handler;
      this.timeout := timeout;
    }

    predicate AutoClose() { timeout > 0.0 }

    ghost function View(conn: TcpConnection): Endpoint
      requires conn.Valid()
      reads conn.Repr(), conn, conn.readBuf, conn.sendBuf, conn.context, conn.channel
    {
      Endpoint(conn.state.Connected?, conn.readBuf.Contents(), conn.context.View(), conn.Output())
    }

    /** Answers a complete request: the response is sent before the connection is closed. */
    method OnRequest(conn: TcpConnection) returns (request: Request)
      requires conn.Valid() && conn.Flushing()
      modifies conn`state, conn`closeCalls, conn`wire, conn.sendBuf, conn.sendBuf.buf, conn.channel
      ensures conn.Valid() && conn.Flushing() && (conn.sendBuf.buf == old(conn.sendBuf.buf) || fresh(conn.sendBuf.buf))
      ensures request == old(conn.context.View()).request
      ensures var reply := Answer(request, handler);
        && conn.Output() == old(conn.Output()) + reply.text
        && conn.state == if reply.close then Disconnected else old(conn.state)
    {
      var r := conn.context.request;
      request := Request(r.verb, r.version, r.url, r.headers, r.body);
      var connection := r.HeaderString("Connection");
      var close := connection == "close" || (r.version == Http10 && connection != "Keep-Alive");
      var reply := handler(request, close);
      conn.Send(reply.text);
      if reply.close {
        conn.HandleClose();
      }
    }

    method Refuse(conn: TcpConnection)
      requires conn.Valid() && conn.Flushing()
      modifies conn`state, conn`closeCalls, conn`wire, conn.sendBuf, conn.sendBuf.buf, conn.channel
      ensures conn.Valid() && conn.Flushing() && (conn.sendBuf.buf == old(conn.sendBuf.buf) || fresh(conn.sendBuf.buf))
      ensures conn.Output() == old(conn.Output()) + "HTTP/1.1 400 Bad Request\r\n\r\n" && conn.state.Disconnected?
    {
      conn.Send(BAD_REQUEST);
      conn.HandleClose();
    }

    /** The part of the callback after the parse. */
    method Conclude(conn: TcpConnection, verdict: Verdict) returns (outcome: Outcome)
      requires conn.Valid() && conn.Flushing()
      modifies conn.Repr()
      ensures conn.Valid() && conn.Flushing()
      ensures fresh(conn.Repr() - old(conn.Repr()))
      ensures Handling(View(conn), outcome) == Concluded(old(View(conn)), verdict, handler)
      ensures conn.actTime == old(conn.actTime)
    {
      hide Answer;
      if verdict.Thrown? { return Threw; }
      if verdict.Rejected? {
        Refuse(conn);
        return Refused;
      }
      if !conn.context.IsComplete() { return Waiting; }
      var request := OnRequest(conn);
      conn.context.Reset();
      outcome := Served(request);
    }

    method OnMessage(conn: TcpConnection, now: int) returns (outcome: Outcome)
      requires conn.Valid() && conn.Flushing()
      modifies conn.Repr()
      ensures conn.Valid() && conn.Flushing()
      ensures fresh(conn.Repr() - old(conn.Repr()))
      ensures Handling(View(conn), outcome) == Handled(old(View(conn)), handler)
      ensures conn.actTime == if old(conn.state).Connected? && timeout > 0.0 then now else old(conn.actTime)
    {
      hide Receive, Concluded;
      if conn.state != Connected { return Ignored; }
      if AutoClose() {
        conn.actTime := now;
      }
      if conn.readBuf.IsEmpty() { return Ignored; }
      var inBuffer := conn.readBuf.RetrieveAllAsString();
      var verdict := conn.context.ParseRequest(inBuffer);
      outcome := Conclude(conn, verdict);
    }

    /** The channel reported that it can be read: everything there is to read is read, and the
        message callback runs. When the reading met the end of the stream, the connection is
        closed by then, and whatever came with it is ignored. */
    method HandleMessage(conn: TcpConnection, answers: seq<ReadResult>, now: int) returns (outcome: Outcome)
      requires conn.Valid() && conn.Flushing()
      requires exists i :: 0 <= i < |answers| && Ends(answers[i])
      modifies conn.Repr()
      ensures conn.Valid() && conn.Flushing()
      ensures fresh(conn.Repr() - old(conn.Repr()))
      ensures var e := old(View(conn));
        Handling(View(conn), outcome)
        == Handled(e.(unread := e.unread + BytesRead(answers), connected := e.connected && !ReadingCloses(answers)), handler)
      ensures conn.actTime == if old(conn.state).Connected? && !ReadingCloses(answers) && timeout > 0.0 then now else old(conn.actTime)
    {
      hide Handled, BytesRead, ReadingCloses;
      ghost var e := View(conn);
      conn.ReadNonBlocking(answers);
      assert conn.Output() == e.output && conn.context.View() == e.context;
      assert View(conn) == e.(unread := e.unread + BytesRead(answers), connected := e.connected && !ReadingCloses(answers));
      outcome := OnMessage(conn, now);
    }

    /** A connection has been established at the time `now`: when its first idle check is due. */
    method OnConnection(now: int) returns (check: Option<int>)
      ensures check == if timeout > 0.0 then Some(AddSec(now, timeout)) else None
    {
      if AutoClose() {
        check := Some(AddSec(now, timeout));
      } else {
        check := None;
      }
    }

    /** The idle check: closes a connection whose last activity is older than the timeout,
        and otherwise asks to be run again. */
    method HandleActiveClose(conn: TcpConnection, now: int) returns (again: bool)
      requires conn.Valid()
      modifies conn`state, conn`closeCalls
      ensures conn.Valid()
      ensures again == (now <= AddSec(conn.actTime, timeout))
      ensures conn.state == if again then old(conn.state) else Disconnected
    {
      if AddSec(conn.actTime, timeout) < now {
        conn.HandleClose();
        again := false;
      } else {
        again := true;
      }
    }
  }
}
