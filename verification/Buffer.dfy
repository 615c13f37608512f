/** The growing byte buffer of a connection and the fixed buffer of the log: arrays with
    moving indices, proved to behave as plain byte queues. */
module Buffers {
  import opened Text

  const PREPEND := 8

  /** A byte queue: bytes are added at the end and taken from the front. */
  datatype Op = Append(bytes: string) | Retrieve(count: nat)

  function Enqueued(queue: string, op: Op): string
    requires op.Retrieve? ==> op.count <= |queue|
  {
    match op
    case Append(bytes) => queue + bytes
    case Retrieve(count) => queue[count..]
  }

  /** A text with part of it replaced by another text of the same length. */
  function Overwritten(s: string, at: nat, part: string): string
    requires at + |part| <= |s|
  {
    s[..at] + part + s[at + |part|..]
  }

  lemma OverwriteMore(s: string, at: nat, part: string, c: char)
    requires at + |part| < |s|
    ensures Overwritten(s, at, part)[at + |part| := c] == Overwritten(s, at, part + [c])
  {
  }

  /** `std::copy` within an array, to a place not after the source. */
  method CopyDown(a: array<char>, from: nat, to: nat, target: nat)
    requires target <= from <= to <= a.Length
    modifies a
    ensures a[target..target + to - from] == old(a[from..to])
  {
    ghost var was := a[..];
    var n := to - from;
    for i := 0 to n
      invariant a[..] == Overwritten(was, target, was[from..from + i])
    {
      OverwriteMore(was, target, was[from..from + i], was[from + i]);
      assert a[..][from + i] == was[from + i];
      assert was[from..from + i + 1] == was[from..from + i] + [was[from + i]];
      a[target + i] := a[from + i];
    }
    assert a[..][target..target + n] == was[from..to];
  }

  /** Copies a text into an array. */
  method CopyIn(a: array<char>, at: nat, str: string)
    requires at + |str| <= a.Length
    modifies a
    ensures a[..] == Overwritten(old(a[..]), at, str)
  {
    ghost var was := a[..];
    for i := 0 to |str|
      invariant a[..] == Overwritten(was, at, str[..i])
    {
      OverwriteMore(was, at, str[..i], str[i]);
      assert str[..i + 1] == str[..i] + [str[i]];
      a[at + i] := str[i];
    }
    assert str[..|str|] == str;
  }

  /** What follows a kept part is what has been written there. */
  lemma OverwrittenEnd(s: string, lo: nat, at: nat, part: string)
    requires lo <= at && at + |part| <= |s|
    ensures Overwritten(s, at, part)[lo..at + |part|] == s[lo..at] + part
  {
  }

  class Buffer {
    var buf: array<char>
    var readIndex: nat
    var writeIndex: nat

    ghost predicate Valid()
      reads this
    {
      PREPEND <= readIndex <= writeIndex <= buf.Length && (readIndex == writeIndex ==> readIndex == PREPEND)
    }

    /** The readable bytes, oldest first. */
    function Contents(): string
      requires Valid()
      reads this, buf
    {
      buf[readIndex..writeIndex]
    }

    constructor ()
      ensures Valid() && fresh(buf)
      ensures Contents() == "" && buf.Length == PREPEND
    {
      buf := new char[PREPEND](_ => '\0');
      readIndex, writeIndex := PREPEND, PREPEND;
    }

    function ReadableBytes(): (n: nat)
      requires Valid()
      reads this, buf
      ensures n == |Contents()|
    {
      writeIndex - readIndex
    }

    function WritableBytes(): nat
      requires Valid()
      reads this
    {
      buf.Length - writeIndex
    }

    predicate IsEmpty()
      requires Valid()
      reads this, buf
      ensures IsEmpty() <==> Contents() == ""
    {
      readIndex == writeIndex
    }

    /** Room for `len` more bytes: nothing to do, or the readable bytes move to the front, or
        the array grows to end right after them. */
    method EnsureWritableBytes(len: nat)
      requires Valid()
      modifies this, buf
      ensures Valid() && (buf == old(buf) || fresh(buf))
      ensures Contents() == old(Contents())
      ensures writeIndex + len <= buf.Length
      ensures buf.Length == old(buf.Length) || buf.Length <= PREPEND + 2 * (|Contents()| + len)
      ensures buf.Length >= old(buf.Length)
    {
      if WritableBytes() >= len { return; }
      if WritableBytes() + readIndex >= PREPEND + len {
        MoveToFront();
      } else {
        Resize(writeIndex + len);
      }
    }

    /** The readable bytes move to the start of the array, over themselves. */
    method MoveToFront()
      requires Valid()
      modifies this`readIndex, this`writeIndex, buf
      ensures Valid()
      ensures Contents() == old(Contents())
      ensures readIndex == PREPEND && writeIndex == PREPEND + |Contents()|
    {
      CopyDown(buf, readIndex, writeIndex, PREPEND);
      writeIndex := PREPEND + ReadableBytes();
      readIndex := PREPEND;
    }

    method Resize(size: nat)
      requires Valid() && buf.Length <= size
      modifies this`buf
      ensures Valid() && fresh(buf) && buf.Length == size
      ensures Contents() == old(Contents())
    {
      var bigger := new char[size](_ => '\0');
      for i := 0 to buf.Length
        invariant bigger[..i] == buf[..i]
        modifies bigger
      {
        bigger[i] := buf[i];
      }
      assert bigger[..buf.Length] == buf[..];
      assert bigger[readIndex..writeIndex] == bigger[..buf.Length][readIndex..writeIndex];
      buf := bigger;
    }

    method Append(str: string)
      requires Valid()
      modifies this, buf
      ensures Valid() && (buf == old(buf) || fresh(buf))
      ensures Contents() == Enqueued(old(Contents()), Op.Append(str))
      ensures buf.Length == old(buf.Length) || buf.Length <= PREPEND + 2 * |Contents()|
      ensures buf.Length >= old(buf.Length)
    {
      EnsureWritableBytes(|str|);
      ghost var was := buf[..];
      OverwrittenEnd(was, readIndex, writeIndex, str);
      CopyIn(buf, writeIndex, str);
      assert was[readIndex..writeIndex] == old(Contents());
      writeIndex := writeIndex + |str|;
      assert buf[readIndex..writeIndex] == buf[..][readIndex..writeIndex];
    }

    method RetrieveAll()
      requires Valid()
      modifies this`readIndex, this`writeIndex
      ensures Valid() && Contents() == ""
    {
      writeIndex := PREPEND;
      readIndex := writeIndex;
    }

    method Retrieve(len: nat)
      requires Valid() && len <= |Contents()|
      modifies this`readIndex, this`writeIndex
      ensures Valid()
      ensures Contents() == Enqueued(old(Contents()), Op.Retrieve(len))
    {
      if len + readIndex < writeIndex {
        readIndex := readIndex + len;
      } else {
        RetrieveAll();
      }
    }

    method RetrieveAsString(len: nat) returns (s: string)
      requires Valid() && len <= |Contents()|
      modifies this`readIndex, this`writeIndex
      ensures Valid()
      ensures s == old(Contents())[..len] && Contents() == old(Contents())[len..]
    {
      s := buf[readIndex..readIndex + len];
      Retrieve(len);
    }

    /** Takes everything before an index of the array. */
    method RetrieveUtil(end: nat)
      requires Valid() && readIndex <= end <= writeIndex
      modifies this`readIndex, this`writeIndex
      ensures Valid()
      ensures Contents() == old(buf[end..writeIndex])
    {
      assert Contents()[end - readIndex..] == buf[end..writeIndex];
      Retrieve(end - readIndex);
    }

    method RetrieveAllAsString() returns (s: string)
      requires Valid()
      modifies this`readIndex, this`writeIndex
      ensures Valid()
      ensures s == old(Contents()) && Contents() == ""
    {
      s := buf[readIndex..writeIndex];
      RetrieveAll();
    }
  }

  // ----------------------------------------------------------------- whole runs

  /** Every retrieval takes no more than is there. */
  predicate Legal(queue: string, ops: seq<Op>)
    decreases |ops|
  {
    ops == [] ||
    ((ops[0].Retrieve? ==> ops[0].count <= |queue|) && Legal(Enqueued(queue, ops[0]), ops[1..]))
  }

  function QueueAfter(queue: string, ops: seq<Op>): string
    requires Legal(queue, ops)
    decreases |ops|
  {
    if ops == [] then queue else QueueAfter(Enqueued(queue, ops[0]), ops[1..])
  }

  /** All bytes taken out, in order. */
  function TakenOut(queue: string, ops: seq<Op>): string
    requires Legal(queue, ops)
    decreases |ops|
  {
    if ops == [] then ""
    else (if ops[0].Retrieve? then queue[..ops[0].count] else "") + TakenOut(Enqueued(queue, ops[0]), ops[1..])
  }

  /** All bytes put in, in order. */
  function PutIn(ops: seq<Op>): string {
    if ops == [] then "" else (if ops[0].Append? then ops[0].bytes else "") + PutIn(ops[1..])
  }

  /** The largest number of bytes held at any point of a run. */
  function Peak(queue: string, ops: seq<Op>): nat
    requires Legal(queue, ops)
    decreases |ops|
  {
    if ops == [] then |queue|
    else
      var later := Peak(Enqueued(queue, ops[0]), ops[1..]);
      if |queue| > later then |queue| else later
  }

  /** First in, first out, nothing lost: what went in is what came out followed by what is
      still held. */
  lemma {:induction false} QueueConserves(queue: string, ops: seq<Op>)
    requires Legal(queue, ops)
    ensures TakenOut(queue, ops) + QueueAfter(queue, ops) == queue + PutIn(ops)
    decreases |ops|
  {
    if ops == [] {
      assert queue + "" == queue;
    } else {
      var op, rest := ops[0], ops[1..];
      var next := Enqueued(queue, op);
      QueueConserves(next, rest);
      OpConserves(queue, op, TakenOut(next, rest), QueueAfter(next, rest), PutIn(rest));
    }
  }

  lemma OpConserves(queue: string, op: Op, taken: string, held: string, put: string)
    requires op.Retrieve? ==> op.count <= |queue|
    requires taken + held == Enqueued(queue, op) + put
    ensures ((if op.Retrieve? then queue[..op.count] else "") + taken) + held
         == queue + ((if op.Append? then op.bytes else "") + put)
  {
    match op {
      case Append(bytes) =>
        assert "" + taken == taken;
        assert queue + (bytes + put) == (queue + bytes) + put;
      case Retrieve(count) =>
        assert (queue[..count] + taken) + held == queue[..count] + (queue[count..] + put);
        assert "" + put == put;
    }
  }

  /** The peak is the number of bytes held at some point of the run, and at none are there more. */
  lemma {:induction false} PeakIsReached(queue: string, ops: seq<Op>) returns (at: nat)
    requires Legal(queue, ops)
    ensures at <= |ops| && Legal(queue, ops[..at]) && |QueueAfter(queue, ops[..at])| == Peak(queue, ops)
    decreases |ops|
  {
    if ops == [] || Peak(queue, ops) == |queue| {
      at := 0;
      assert ops[..0] == [];
    } else {
      var later := PeakIsReached(Enqueued(queue, ops[0]), ops[1..]);
      at := later + 1;
      assert ops[..at][0] == ops[0] && ops[..at][1..] == ops[1..][..later];
    }
  }

  lemma {:induction false} PeakIsLargest(queue: string, ops: seq<Op>, at: nat)
    requires Legal(queue, ops) && at <= |ops|
    ensures Legal(queue, ops[..at]) && |QueueAfter(queue, ops[..at])| <= Peak(queue, ops)
    decreases |ops|
  {
    if at == 0 {
      assert ops[..0] == [];
      PeakCoversStart(queue, ops);
    } else {
      PeakIsLargest(Enqueued(queue, ops[0]), ops[1..], at - 1);
      assert ops[..at][0] == ops[0] && ops[..at][1..] == ops[1..][..at - 1];
    }
  }

  lemma PeakCoversStart(queue: string, ops: seq<Op>)
    requires Legal(queue, ops)
    ensures Peak(queue, ops) >= |queue|
  {
  }

  /** The rest of a run, from what is held now, completes what the whole run does. */
  predicate Completes(held: string, taken: string, rest: seq<Op>, ops: seq<Op>) {
    && Legal("", ops) && Legal(held, rest)
    && QueueAfter(held, rest) == QueueAfter("", ops)
    && taken + TakenOut(held, rest) == TakenOut("", ops)
    && |held| <= Peak(held, rest) <= Peak("", ops)
  }

  lemma StartsRun(ops: seq<Op>)
    requires Legal("", ops)
    ensures Completes("", "", ops[0..], ops)
  {
    assert ops[0..] == ops && "" + TakenOut("", ops) == TakenOut("", ops);
    PeakCoversStart("", ops);
  }

  lemma NextInRun(held: string, taken: string, i: nat, ops: seq<Op>)
    requires i < |ops| && Completes(held, taken, ops[i..], ops)
    ensures ops[i].Retrieve? ==> ops[i].count <= |held|
    ensures var s := if ops[i].Retrieve? then held[..ops[i].count] else "";
      Completes(Enqueued(held, ops[i]), taken + s, ops[i + 1..], ops)
  {
    hide Enqueued, Legal, QueueAfter, TakenOut, Peak;
    UnfoldRun(held, ops[i..]);
    assert ops[i..][0] == ops[i] && ops[i..][1..] == ops[i + 1..];
    var s := if ops[i].Retrieve? then held[..ops[i].count] else "";
    var later := TakenOut(Enqueued(held, ops[i]), ops[i + 1..]);
    assert taken + (s + later) == taken + s + later;
    PeakCoversStart(Enqueued(held, ops[i]), ops[i + 1..]);
  }

  lemma EndsRun(held: string, taken: string, ops: seq<Op>)
    requires Completes(held, taken, [], ops)
    ensures held == QueueAfter("", ops) && taken == TakenOut("", ops)
  {
    assert taken + "" == taken;
  }

  lemma PeakBounds(held: string, taken: string, rest: seq<Op>, ops: seq<Op>)
    requires Completes(held, taken, rest, ops)
    ensures Legal("", ops) && |held| <= Peak("", ops)
  {
  }

  /** A new buffer under any legal run of operations is the byte queue, and its array never
      exceeds the prepended bytes plus twice the most it ever held. */
  method Run(ops: seq<Op>) returns (b: Buffer, taken: string)
    requires Legal("", ops)
    ensures fresh(b) && b.Valid()
    ensures b.Contents() == QueueAfter("", ops)
    ensures taken == TakenOut("", ops)
    ensures b.buf.Length <= 8 + 2 * Peak("", ops)
  {
    hide Legal, QueueAfter, TakenOut, Peak, Enqueued, Completes;
    b := new Buffer();
    taken := "";
    StartsRun(ops);
    for i := 0 to |ops|
      invariant fresh(b) && fresh(b.buf) && b.Valid() && Completes(b.Contents(), taken, ops[i..], ops)
      invariant b.buf.Length <= PREPEND + 2 * Peak("", ops)
    {
      NextInRun(b.Contents(), taken, i, ops);
      var s := Apply(b, ops[i]);
      taken := taken + s;
      PeakBounds(b.Contents(), taken, ops[i + 1..], ops);
    }
    assert ops[|ops|..] == [];
    EndsRun(b.Contents(), taken, ops);
  }

  /** One operation on the buffer object. */
  method Apply(b: Buffer, op: Op) returns (s: string)
    requires b.Valid() && (op.Retrieve? ==> op.count <= |b.Contents()|)
    modifies b, b.buf
    ensures b.Valid() && (b.buf == old(b.buf) || fresh(b.buf))
    ensures b.Contents() == Enqueued(old(b.Contents()), op)
    ensures s == if op.Retrieve? then old(b.Contents())[..op.count] else ""
    ensures b.buf.Length == old(b.buf.Length) || b.buf.Length <= PREPEND + 2 * |b.Contents()|
  {
    match op {
      case Append(bytes) =>
        b.Append(bytes);
        s := "";
      case Retrieve(count) =>
        s := b.RetrieveAsString(count);
    }
  }

  lemma UnfoldRun(queue: string, ops: seq<Op>)
    requires Legal(queue, ops) && ops != []
    ensures ops[0].Retrieve? ==> ops[0].count <= |queue|
    ensures var next := Enqueued(queue, ops[0]);
      && Legal(next, ops[1..])
      && QueueAfter(queue, ops) == QueueAfter(next, ops[1..])
      && TakenOut(queue, ops) == (if ops[0].Retrieve? then queue[..ops[0].count] else "") + TakenOut(next, ops[1..])
      && Peak(queue, ops) >= Peak(next, ops[1..])
  {
  }

  // ---------------------------------------------------------------- fixed buffer

  class FixedBuffer {
    const data: array<char>
    var cur: nat

    ghost predicate Valid()
      reads this
    {
      cur <= data.Length
    }

    /** What has been written so far. */
    function Text(): string
      requires Valid()
      reads this, data
    {
      data[..cur]
    }

    constructor (size: nat)
      ensures Valid() && fresh(data) && data.Length == size && Text() == ""
    {
      data := new char[size](_ => '\0');
      cur := 0;
    }

    function Avail(): nat
      requires Valid()
      reads this
    {
      data.Length - cur
    }

    /** Text that does not leave at least one byte free is dropped. */
    method Append(s: string)
      requires Valid()
      modifies this`cur, data
      ensures Valid()
      ensures Text() == if |old(Text())| + |s| < data.Length then old(Text()) + s else old(Text())
    {
      if Avail() > |s| {
        ghost var was := data[..];
        OverwrittenEnd(was, 0, cur, s);
        CopyIn(data, cur, s);
        cur := cur + |s|;
        assert data[..cur] == data[..][0..cur];
      }
    }

    method Add(len: nat)
      requires Valid() && cur + len <= data.Length
      modifies this`cur
      ensures Valid() && cur == old(cur) + len
    {
      cur := cur + len;
    }

    method Reset()
      modifies this`cur, data
      ensures Valid() && Text() == ""
      ensures forall i :: 0 <= i < data.Length ==> data[i] == '\0'
    {
      for i := 0 to data.Length
        invariant forall k :: 0 <= k < i ==> data[k] == '\0'
      {
        data[i] := '\0';
      }
      cur := 0;
    }
  }
}
