/** The server's methods behave as the machine of idle checks. */
module HttpIdle {
  import opened Text
  import opened Times
  import opened TcpConnections
  import opened HttpServers
  import opened HttpPipeline
  import opened IdleClose

  /** A connection object, whether it still exists, and the checks started and not yet run. */
  class Watched {
    const server: HttpServer
    const conn: TcpConnection
    var alive: bool
    var pending: multiset<int>

    /** The object and the machine agree, and nothing has been received that waits. */
    ghost predicate Shows(s: IdleClose.State)
      reads this, conn, server, conn.Repr(), conn.readBuf, conn.sendBuf, conn.channel, conn.context
    {
      && conn.Valid() && conn.Flushing() && this !in conn.Repr() && conn.readBuf.Contents() == ""
      && alive == s.alive && conn.state.Connected? == s.connected && conn.actTime == s.act && pending == s.pending
    }

    constructor (server: HttpServer, start: int)
      requires server.timeout > 0.0
      ensures this.server == server && fresh(conn) && fresh(conn.Repr()) && Shows(Accepted(start, server.timeout))
    {
      this.server := server;
      alive := true;
      var c := new TcpConnection(false);
      conn := c;
      var check := server.OnConnection(start);
      pending := multiset{check.value};
    }

    method Receive(ghost s: IdleClose.State, at: int)
      requires Shows(s) && Possible(s, Message(at)) && OneCheck(s) && server.timeout > 0.0
      modifies this, conn.Repr()
      ensures Shows(Next(s, server.timeout, Message(at))) && fresh(conn.Repr() - old(conn.Repr()))
    {
      if alive {
        QuietReading();
        hide BytesRead, ReadingCloses;
        var _ := server.HandleMessage(conn, [WouldBlock], at);
      }
    }

    method RunCheck(ghost s: IdleClose.State, deadline: int, at: int, again: int)
      requires Shows(s) && Possible(s, Check(deadline, at, again)) && server.timeout > 0.0
      modifies this, conn.Repr()
      ensures Shows(Next(s, server.timeout, Check(deadline, at, again))) && fresh(conn.Repr() - old(conn.Repr()))
    {
      pending := pending - multiset{deadline};
      if alive {
        var once := server.HandleActiveClose(conn, at);
        if once {
          pending := pending + multiset{AddSec(again, server.timeout)};
        }
      }
    }

    method Close(ghost s: IdleClose.State, at: int)
      requires Shows(s) && Possible(s, OtherClose(at)) && OneCheck(s)
      modifies this, conn.Repr()
      ensures Shows(Next(s, server.timeout, OtherClose(at))) && fresh(conn.Repr() - old(conn.Repr()))
    {
      if alive {
        conn.HandleClose();
      }
    }

    method Disappear(ghost s: IdleClose.State, at: int)
      requires Shows(s) && Possible(s, Gone(at))
      modifies this, conn.Repr()
      ensures Shows(Next(s, server.timeout, Gone(at))) && fresh(conn.Repr() - old(conn.Repr()))
    {
      alive := false;
    }

    /** One event of the machine, by the methods of the server and of the connection. */
    method Handle(ghost s: IdleClose.State, e: Event)
      requires Shows(s) && Possible(s, e) && OneCheck(s) && server.timeout > 0.0
      modifies this, conn.Repr()
      ensures Shows(Next(s, server.timeout, e)) && fresh(conn.Repr() - old(conn.Repr()))
    {
      hide Shows, Next, Possible, OneCheck;
      match e {
        case Message(at) => Receive(s, at);
        case OtherClose(at) => Close(s, at);
        case Gone(at) => Disappear(s, at);
        case Check(deadline, at, again) => RunCheck(s, deadline, at, again);
      }
    }
  }

  lemma QuietReading()
    ensures Ends(WouldBlock) && BytesRead([WouldBlock]) == "" && !ReadingCloses([WouldBlock])
    ensures exists i :: 0 <= i < |[WouldBlock]| && Ends([WouldBlock][i])
  {
    assert Ends([WouldBlock][0]);
  }

  lemma NextEvent(s: IdleClose.State, timeout: real, run: seq<Event>, i: nat)
    requires i < |run| && OneCheck(s) && Legal(s, timeout, run[i..])
    ensures Possible(s, run[i]) && OneCheck(Next(s, timeout, run[i]))
    ensures Legal(Next(s, timeout, run[i]), timeout, run[i + 1..])
    ensures After(s, timeout, run[i..]) == After(Next(s, timeout, run[i]), timeout, run[i + 1..])
  {
    assert run[i..][0] == run[i] && run[i..][1..] == run[i + 1..];
    OneCheckAlways(s, timeout, [run[i]]) by {
      assert [run[i]][1..] == [];
    }
  }

  /** Over any run of messages, closes and checks, the objects end where the machine ends: so
      what is proved of the machine holds of the server. */
  method WatchConnection(server: HttpServer, start: int, run: seq<Event>) returns (w: Watched)
    requires server.timeout > 0.0 && Legal(Accepted(start, server.timeout), server.timeout, run)
    ensures fresh(w) && w.server == server && w.Shows(After(Accepted(start, server.timeout), server.timeout, run))
  {
    hide Legal, After, Next, Possible, Watched.Shows;
    w := new Watched(server, start);
    ghost var s := Accepted(start, server.timeout);
    assert run[0..] == run;
    for i := 0 to |run|
      invariant fresh(w) && fresh(w.conn.Repr()) && w.server == server && w.Shows(s) && OneCheck(s)
      invariant Legal(s, server.timeout, run[i..])
      invariant After(s, server.timeout, run[i..]) == After(Accepted(start, server.timeout), server.timeout, run)
    {
      NextEvent(s, server.timeout, run, i);
      w.Handle(s, run[i]);
      s := Next(s, server.timeout, run[i]);
    }
    assert run[|run|..] == [];
    NoEvents(s, server.timeout);
  }

  lemma NoEvents(s: IdleClose.State, timeout: real)
    ensures Legal(s, timeout, []) && After(s, timeout, []) == s
  {
  }
}
