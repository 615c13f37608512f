/** What the chunk decoder takes out of its buffer, in terms of the framed chunks. */
module HttpChunks {
  import opened Text
  import opened HttpRequests
  import opened HttpContexts
  import opened HttpFragments

  /** A chunk as it travels: size text, CRLF, data, and two characters nobody looks at. */
  datatype Frame = Frame(sizeText: string, data: string, trailer: string)

  function FrameText(f: Frame): string { f.sizeText + CRLF + f.data + f.trailer }

  predicate WellFramed(f: Frame) {
    Find(f.sizeText + CRLF, CRLF, 0) == Some(|f.sizeText|)
    && Stoul(f.sizeText, Sixteen) == Some(|f.data|) && |f.trailer| == 2
  }

  function FramesText(fs: seq<Frame>): string {
    if fs == [] then "" else FrameText(fs[0]) + FramesText(fs[1..])
  }

  function Payload(fs: seq<Frame>): string {
    if fs == [] then "" else fs[0].data + Payload(fs[1..])
  }

  /** The frame at the front of the buffer, when it has arrived completely. */
  function FirstFrame(buffer: string): Option<Frame> {
    var end := Find(buffer, CRLF, 0);
    if end.None? then None
    else
      var size := Stoul(buffer[..end.value], Sixteen);
      if size.None? || |buffer| < ChunkSpan(end.value, size.value) then None
      else Some(Frame(buffer[..end.value], buffer[end.value + 2..end.value + 2 + size.value],
                      buffer[end.value + 2 + size.value..end.value + 4 + size.value]))
  }

  /** All complete frames at the front of the buffer, up to and including an empty one. */
  function Frames(buffer: string): seq<Frame>
    decreases |buffer|
  {
    hide Find, OccursAt, Stoul;
    var f := FirstFrame(buffer);
    if f.None? then []
    else if f.value.data == "" then [f.value]
    else [f.value] + Frames(buffer[|FrameText(f.value)|..])
  }

  /** A line taken up to its first CRLF has no earlier one. */
  lemma FirstLine(s: string, pat: string, end: nat)
    requires Find(s, pat, 0) == Some(end)
    ensures Find(s[..end] + pat, pat, 0) == Some(end)
  {
    hide Find;
    var line := s[..end] + pat;
    assert line[end..end + |pat|] == pat;
    assert s == line + s[end + |pat|..];
    assert OccursAt(line, pat, end);
    FindInPrefix(line, s[end + |pat|..], pat);
  }

  lemma FirstFrameIsPrefix(buffer: string)
    requires FirstFrame(buffer).Some?
    ensures var f := FirstFrame(buffer).value;
      WellFramed(f) && |FrameText(f)| <= |buffer| && buffer == FrameText(f) + buffer[|FrameText(f)|..]
  {
    hide Find, OccursAt, Stoul;
    var end := Find(buffer, CRLF, 0).value;
    FirstLine(buffer, CRLF, end);
    assert buffer[end..end + 2] == CRLF by { CRLFAt(buffer, end); }
    var f := FirstFrame(buffer).value;
    assert FrameText(f) == buffer[..end + 4 + |f.data|];
  }

  lemma CRLFAt(s: string, i: nat)
    requires OccursAt(s, CRLF, i)
    ensures i + 2 <= |s| && s[i..i + 2] == CRLF
  {
  }

  /** A zero chunk was among the frames: it is the last one, and nothing follows it. */
  predicate Terminated(fs: seq<Frame>) {
    fs != [] && fs[|fs| - 1].data == ""
  }

  predicate BadSize(buffer: string) {
    var end := Find(buffer, CRLF, 0);
    end.Some? && Stoul(buffer[..end.value], Sixteen).None?
  }

  /** From `c` to `p`, the frames `fs` left the buffer and their data went to the body. The
      remainder starts no complete frame unless the zero chunk ended the body, and the parse
      throws exactly at a size line that is not a number. */
  predicate TookFrames(c: Context, p: Parse, fs: seq<Frame>) {
    && c.buffer == FramesText(fs) + p.context.buffer
    && p.context.request == c.request.(body := c.request.body + Payload(fs))
    && (forall i :: 0 <= i < |fs| ==> WellFramed(fs[i]) && (i < |fs| - 1 ==> fs[i].data != ""))
    && (p.context.completeRequest <==> Terminated(fs))
    && (!p.context.completeRequest ==> FirstFrame(p.context.buffer).None?)
    && (p.verdict == Thrown <==> !Terminated(fs) && BadSize(p.context.buffer))
    && p.verdict != Rejected
  }

  lemma TookOneMore(c: Context, f: Frame, next: Context, p: Parse, fs: seq<Frame>)
    requires WellFramed(f) && f.data != "" && c.buffer == FrameText(f) + next.buffer
    requires next.request == c.request.(body := c.request.body + f.data)
    requires TookFrames(next, p, fs)
    ensures TookFrames(c, p, [f] + fs)
  {
    hide FrameText, WellFramed, FirstFrame, BadSize;
    var all := [f] + fs;
    assert all[1..] == fs;
    assert FramesText(all) + p.context.buffer == FrameText(f) + (FramesText(fs) + p.context.buffer);
    assert c.request.body + Payload(all) == (c.request.body + f.data) + Payload(fs);
    assert Terminated(fs) ==> Terminated(all);
  }

  lemma TookNone(c: Context, p: Parse)
    requires !c.completeRequest && FirstFrame(c.buffer).None? && p == ChunkedBody(c)
    ensures TookFrames(c, p, [])
  {
    hide Find, OccursAt, Stoul;
    assert c.request.body + "" == c.request.body;
  }

  lemma TookLast(c: Context, p: Parse, f: Frame)
    requires FirstFrame(c.buffer) == Some(f) && f.data == "" && p == ChunkedBody(c)
    ensures TookFrames(c, p, [f])
  {
    hide Find, OccursAt, Stoul;
    FirstFrameIsPrefix(c.buffer);
    assert FramesText([f]) == FrameText(f) + "";
    assert Payload([f]) == f.data + "";
    assert c.request.body + "" == c.request.body;
  }

  lemma TakesChunk(c: Context, f: Frame)
    requires FirstFrame(c.buffer) == Some(f) && f.data != ""
    ensures HasChunk(c) && ChunkedBody(c) == ChunkedBody(AfterChunk(c))
    ensures AfterChunk(c).buffer == c.buffer[|FrameText(f)|..]
    ensures AfterChunk(c).request == c.request.(body := c.request.body + f.data)
    ensures AfterChunk(c).completeRequest == c.completeRequest
  {
    hide Find, OccursAt, Stoul;
  }

  /** The decoder takes exactly the complete frames at the front of its buffer. */
  lemma {:induction false} DecoderTakesFrames(c: Context)
    requires !c.completeRequest
    ensures TookFrames(c, ChunkedBody(c), Frames(c.buffer))
    decreases |c.buffer|
  {
    hide Find, OccursAt, Stoul, FirstFrame, TookFrames, ChunkedBody, AfterChunk, WellFramed;
    var first := FirstFrame(c.buffer);
    if first.None? {
      TookNone(c, ChunkedBody(c));
    } else {
      var f := first.value;
      FirstFrameIsPrefix(c.buffer);
      if f.data == "" {
        TookLast(c, ChunkedBody(c), f);
      } else {
        TakesChunk(c, f);
        DecoderTakesFrames(AfterChunk(c));
        TookOneMore(c, f, AfterChunk(c), ChunkedBody(c), Frames(c.buffer[|FrameText(f)|..]));
      }
    }
  }
}
