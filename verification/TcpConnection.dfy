/** A connection as its own event loop sees it: the two buffers, the interest set of its
    channel, and the read, send and close paths. */
module TcpConnections {
  import opened Text
  import opened Buffers
  import opened HttpRequests
  import opened HttpContexts

  datatype Interest = ReadInterest | WriteInterest | EdgeTriggered

  /** The interest set of one descriptor and the copy the kernel holds. */
  class Channel {
    var listen: set<Interest>
    var inEpoll: bool
    var kernel: Option<set<Interest>>

    /** The kernel watches exactly what the channel asks for. */
    ghost predicate Valid()
      reads this
    {
      kernel == if inEpoll then Some(listen) else None
    }

    constructor ()
      ensures Valid() && listen == {} && !inEpoll
    {
      listen, inEpoll, kernel := {}, false, None;
    }

    /** `EPOLL_CTL_ADD` for a channel that is not registered yet, `EPOLL_CTL_MOD` otherwise. */
    method Update()
      requires kernel.Some? == inEpoll
      modifies this`kernel, this`inEpoll
      ensures Valid() && inEpoll
    {
      kernel := Some(listen);
      if !inEpoll {
        inEpoll := true;
      }
    }

    method Enable(i: Interest)
      requires Valid()
      modifies this
      ensures Valid() && inEpoll && listen == old(listen) + {i}
    {
      listen := listen + {i};
      Update();
    }

    method DisableWrite()
      requires Valid()
      modifies this
      ensures Valid() && inEpoll && listen == old(listen) - {WriteInterest}
    {
      listen := listen - {WriteInterest};
      Update();
    }

    method Delete()
      requires Valid()
      modifies this`kernel, this`inEpoll
      ensures Valid() && !inEpoll
    {
      kernel := None;
      inEpoll := false;
    }
  }

  datatype ConnectionState = Connected | Disconnected

  /** One answer of `read`: bytes, an interruption, nothing for now, end of file, an error. */
  datatype ReadResult = Bytes(data: string) | Interrupted | WouldBlock | EndOfFile | Failed

  predicate Ends(r: ReadResult) { r.WouldBlock? || r.EndOfFile? || r.Failed? }

  /** The bytes of the answers before the one that ends the reading. */
  function BytesRead(rs: seq<ReadResult>): string {
    if rs == [] || Ends(rs[0]) then ""
    else (if rs[0].Bytes? then rs[0].data else "") + BytesRead(rs[1..])
  }

  predicate ReadingCloses(rs: seq<ReadResult>) {
    rs != [] && (if Ends(rs[0]) then !rs[0].WouldBlock? else ReadingCloses(rs[1..]))
  }

  class TcpConnection {
    var state: ConnectionState
    const readBuf: Buffer
    const sendBuf: Buffer
    const channel: Channel
    const context: HttpContext
    /** Bytes the kernel has accepted for the peer. */
    var wire: string
    /** How often the close callback has been invoked. */
    var closeCalls: nat
    /** Time of the last recorded activity. */
    var actTime: int

    ghost predicate Valid()
      reads this, readBuf, sendBuf, channel, context
    {
      && readBuf.Valid() && sendBuf.Valid() && channel.Valid()
      && readBuf != sendBuf && readBuf.buf != sendBuf.buf
      && closeCalls == (if state.Connected? then 0 else 1)
    }

    ghost function Repr(): set<object>
      reads this, readBuf, sendBuf, context
    {
      {this, readBuf, readBuf.buf, sendBuf, sendBuf.buf, channel, context, context.request}
    }

    /** Unsent bytes are watched for: the loop will be told when they can be written. */
    ghost predicate Flushing()
      requires Valid()
      reads this, readBuf, sendBuf, sendBuf.buf, channel, context
    {
      sendBuf.Contents() != "" ==> WriteInterest in channel.listen
    }

    /** Everything handed over for sending: on the wire, then still buffered. */
    ghost function Output(): string
      requires Valid()
      reads this, readBuf, sendBuf, sendBuf.buf, channel, context
    {
      wire + sendBuf.Contents()
    }

    /** A connection right after `ConnectionEstablished`. */
    constructor (headersFlag: bool)
      ensures Valid() && fresh(Repr()) && Flushing()
      ensures state.Connected? && Output() == "" && readBuf.Contents() == ""
      ensures context.View() == Context(BLANK, 0, headersFlag, false, "")
      ensures channel.listen == {EdgeTriggered, ReadInterest} && actTime == 0
    {
      state, wire, closeCalls, actTime := Connected, "", 0, 0;
      readBuf := new Buffer();
      sendBuf := new Buffer();
      context := new HttpContext(headersFlag);
      var ch := new Channel();
      ch.Enable(EdgeTriggered);
      ch.Enable(ReadInterest);
      channel := ch;
      new;
      assert wire + sendBuf.Contents() == "";
    }

    method HandleClose()
      requires Valid()
      modifies this`state, this`closeCalls
      ensures Valid() && state.Disconnected? && closeCalls == 1
    {
      if state != Disconnected {
        state := Disconnected;
        closeCalls := closeCalls + 1;
      }
    }

    /** One `write` of all pending bytes: the kernel takes any number of them, or none. */
    method WriteNonBlocking()
      requires Valid()
      modifies this`wire, sendBuf
      ensures Valid() && sendBuf.buf == old(sendBuf.buf)
      ensures Output() == old(Output()) && old(wire) <= wire
    {
      var size := sendBuf.ReadableBytes();
      var accepted: nat :| accepted <= size;
      ghost var pending := sendBuf.Contents();
      assert pending == pending[..accepted] + pending[accepted..];
      var s := sendBuf.RetrieveAsString(accepted);
      assert wire + pending == (wire + s) + sendBuf.Contents();
      wire := wire + s;
    }

    /** The message joins the pending bytes behind all earlier ones, one write is tried, and
        if anything is left the loop is asked to tell when more can be written. */
    method Send(msg: string)
      requires Valid() && Flushing()
      modifies this`wire, sendBuf, sendBuf.buf, channel
      ensures Valid() && Flushing() && (sendBuf.buf == old(sendBuf.buf) || fresh(sendBuf.buf))
      ensures Output() == old(Output()) + msg && old(wire) <= wire
      ensures channel.listen - {WriteInterest} == old(channel.listen) - {WriteInterest}
    {
      sendBuf.Append(msg);
      assert wire + (old(sendBuf.Contents()) + msg) == old(Output()) + msg;
      WriteNonBlocking();
      if sendBuf.ReadableBytes() > 0 {
        channel.Enable(WriteInterest);
      }
    }

    /** The channel reported that it can be written. */
    method HandleWrite()
      requires Valid() && Flushing()
      modifies this`wire, sendBuf, channel
      ensures Valid() && Flushing() && sendBuf.buf == old(sendBuf.buf)
      ensures Output() == old(Output()) && old(wire) <= wire
      ensures channel.listen - {WriteInterest} == old(channel.listen) - {WriteInterest}
      ensures sendBuf.Contents() == "" ==> WriteInterest !in channel.listen
    {
      WriteNonBlocking();
      if sendBuf.ReadableBytes() == 0 {
        channel.DisableWrite();
      }
    }

    /** Reads until the kernel has nothing more; end of file and errors close the connection. */
    method ReadNonBlocking(answers: seq<ReadResult>)
      requires Valid()
      requires exists i :: 0 <= i < |answers| && Ends(answers[i])
      modifies this`state, this`closeCalls, readBuf, readBuf.buf
      ensures Valid() && (readBuf.buf == old(readBuf.buf) || fresh(readBuf.buf))
      ensures readBuf.Contents() == old(readBuf.Contents()) + BytesRead(answers)
      ensures state == if ReadingCloses(answers) then Disconnected else old(state)
    {
      hide ReadingCloses, BytesRead;
      var i := 0;
      assert answers[0..] == answers;
      ghost var total := readBuf.Contents() + BytesRead(answers);
      while !Ends(answers[i])
        invariant 0 <= i < |answers| && exists j :: i <= j < |answers| && Ends(answers[j])
        invariant Valid() && (readBuf.buf == old(readBuf.buf) || fresh(readBuf.buf))
        invariant readBuf.Contents() + BytesRead(answers[i..]) == total
        invariant ReadingCloses(answers[i..]) == ReadingCloses(answers)
        modifies readBuf, readBuf.buf
        decreases |answers| - i
      {
        ReadOn(readBuf.Contents(), answers, i);
        if answers[i].Bytes? {
          readBuf.Append(answers[i].data);
        }
        i := i + 1;
      }
      ReadOn(readBuf.Contents(), answers, i);
      if !answers[i].WouldBlock? {
        HandleClose();
      }
    }
  }

  /** One answer of the kernel, from the point of view of the bytes still to be read. */
  lemma ReadOn(held: string, rs: seq<ReadResult>, i: nat)
    requires i < |rs|
    ensures Ends(rs[i]) ==> held + BytesRead(rs[i..]) == held && ReadingCloses(rs[i..]) == !rs[i].WouldBlock?
    ensures !Ends(rs[i]) ==>
      ReadingCloses(rs[i..]) == ReadingCloses(rs[i + 1..])
      && held + BytesRead(rs[i..]) == (if rs[i].Bytes? then held + rs[i].data else held) + BytesRead(rs[i + 1..])
  {
    assert rs[i..][1..] == rs[i + 1..];
    var later := BytesRead(rs[i + 1..]);
    if Ends(rs[i]) {
      assert held + "" == held;
    } else if rs[i].Bytes? {
      assert held + (rs[i].data + later) == (held + rs[i].data) + later;
    } else {
      assert "" + later == later;
    }
  }

  /** The bytes of some answers, whichever they are. */
  function BytesOf(rs: seq<ReadResult>): string {
    if rs == [] then "" else BytesOf(rs[..|rs| - 1]) + (if rs[|rs| - 1].Bytes? then rs[|rs| - 1].data else "")
  }

  /** A reading goes on over bytes and interruptions; the first other answer ends it, and closes
      the connection unless it only says that there is nothing for now. What comes after it is
      not looked at. */
  lemma {:induction false} ReadingMeans(rs: seq<ReadResult>, n: nat)
    requires n < |rs| && forall j :: 0 <= j < n ==> rs[j].Bytes? || rs[j] == Interrupted
    requires rs[n] == WouldBlock || rs[n] == EndOfFile || rs[n] == Failed
    ensures BytesRead(rs) == BytesOf(rs[..n])
    ensures ReadingCloses(rs) <==> rs[n] == EndOfFile || rs[n] == Failed
    decreases n
  {
    if n == 0 {
      assert rs[..0] == [];
    } else {
      ReadingMeans(rs[1..], n - 1);
      assert rs[1..][..n - 1] == rs[..n][1..];
      BytesOfCons(rs[..n]);
    }
  }

  lemma {:induction false} BytesOfCons(rs: seq<ReadResult>)
    requires rs != []
    ensures BytesOf(rs) == (if rs[0].Bytes? then rs[0].data else "") + BytesOf(rs[1..])
    decreases |rs|
  {
    var n := |rs| - 1;
    if n == 0 {
      assert rs[..0] == [] && rs[1..] == [];
    } else {
      BytesOfCons(rs[..n]);
      assert rs[..n][1..] == rs[1..][..n - 1] && rs[1..][n - 1] == rs[n];
      var first := if rs[0].Bytes? then rs[0].data else "";
      var middle := BytesOf(rs[1..][..n - 1]);
      var last := if rs[n].Bytes? then rs[n].data else "";
      assert first + middle + last == first + (middle + last);
    }
  }

  // ------------------------------------------------------------ runs of the send path

  datatype SendEvent = SendCall(msg: string) | Writable

  function AllSent(events: seq<SendEvent>): string {
    if events == [] then ""
    else AllSent(events[..|events| - 1]) + (if events[|events| - 1].SendCall? then events[|events| - 1].msg else "")
  }

  /** Over any run of sends and write events, whatever the kernel accepts, the bytes on the
      wire followed by the pending ones are the sent messages in order, and pending bytes
      are always watched for. */
  method RunSendPath(events: seq<SendEvent>) returns (conn: TcpConnection)
    ensures fresh(conn.Repr()) && conn.Valid() && conn.Flushing()
    ensures conn.wire + conn.sendBuf.Contents() == AllSent(events)
  {
    conn := new TcpConnection(false);
    for i := 0 to |events|
      invariant fresh(conn.Repr()) && conn.Valid() && conn.Flushing()
      invariant conn.Output() == AllSent(events[..i])
    {
      assert events[..i + 1][..i] == events[..i];
      match events[i] {
        case SendCall(msg) => conn.Send(msg);
        case Writable => conn.HandleWrite();
      }
    }
    assert events[..|events|] == events;
  }
}
