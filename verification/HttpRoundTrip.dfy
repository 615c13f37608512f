/** Well-formed requests as clients write them, and the proof that the parser reads them
    back, whatever follows them and however they are cut. */
module HttpRoundTrip {
  import opened Text
  import opened HttpRequests
  import opened HttpContexts
  import opened HttpFragments

  datatype Field = Field(key: string, value: string)

  /** A chunk of data and the letter case of its hexadecimal size. */
  datatype Chunk = Chunk(data: string, upper: bool)

  datatype Content = Nothing | Sized(body: string) | Chunked(chunks: seq<Chunk>)

  datatype Message = Message(verb: Method, url: string, fields: seq<Field>, content: Content)

  // ------------------------------------------------------------------ rendering

  function FieldLine(f: Field): string { f.key + ": " + f.value }

  function FieldTexts(fs: seq<Field>): (ls: seq<string>)
    ensures |ls| == |fs|
    ensures forall i :: 0 <= i < |fs| ==> ls[i] == FieldLine(fs[i])
  {
    if fs == [] then [] else [FieldLine(fs[0])] + FieldTexts(fs[1..])
  }

  function StartLine(m: Message): string {
    MethodText(m.verb) + " " + m.url + " HTTP/1.1"
  }

  function ChunkText(c: Chunk): string {
    Hex(|c.data|, c.upper) + CRLF + c.data + CRLF
  }

  function ChunkTexts(cs: seq<Chunk>): string {
    if cs == [] then "0" + BLANK_LINE else ChunkText(cs[0]) + ChunkTexts(cs[1..])
  }

  function ContentText(content: Content): string {
    match content
    case Nothing => ""
    case Sized(body) => body
    case Chunked(chunks) => ChunkTexts(chunks)
  }

  function HeadLines(m: Message): seq<string> { [StartLine(m)] + FieldTexts(m.fields) }

  function Render(m: Message): string {
    Lines(HeadLines(m)) + CRLF + ContentText(m.content)
  }

  // -------------------------------------------------------------- well-formedness

  predicate WellFormedField(f: Field) {
    NoCR(f.key) && ':' !in f.key && NoCR(f.value)
  }

  predicate DistinctKeys(fs: seq<Field>) {
    forall i, j :: 0 <= i < j < |fs| ==> fs[i].key != fs[j].key
  }

  /** The fields announce the content, and nothing asks for the connection to be closed. */
  predicate Announces(fs: seq<Field>, content: Content) {
    && Field("Connection", "close") !in fs
    && match content
       case Nothing =>
         Field("Transfer-Encoding", "chunked") !in fs && (forall f :: f in fs ==> f.key != "Content-Length")
       case Sized(body) =>
         Field("Transfer-Encoding", "chunked") !in fs && |body| < ULONG_LIMIT
         && Field("Content-Length", Decimal(|body|)) in fs
       case Chunked(chunks) =>
         Field("Transfer-Encoding", "chunked") in fs
         && (forall c :: c in chunks ==> c.data != "" && |c.data| < ULONG_LIMIT)
  }

  predicate WellFormed(m: Message) {
    && m.url != "" && ' ' !in m.url && NoCR(m.url)
    && (forall f :: f in m.fields ==> WellFormedField(f))
    && DistinctKeys(m.fields)
    && Announces(m.fields, m.content)
  }

  // --------------------------------------------------------- what should be read

  function FieldMap(fs: seq<Field>): map<string, string> {
    if fs == [] then map[] else FieldMap(fs[..|fs| - 1])[fs[|fs| - 1].key := fs[|fs| - 1].value]
  }

  function Data(cs: seq<Chunk>): string {
    if cs == [] then "" else cs[0].data + Data(cs[1..])
  }

  function ContentBody(content: Content): string {
    match content
    case Nothing => ""
    case Sized(body) => body
    case Chunked(chunks) => Data(chunks)
  }

  /** The request a server should see. */
  function Meaning(m: Message): Request {
    Request(m.verb, Http11, m.url, FieldMap(m.fields), ContentBody(m.content))
  }

  /** With distinct keys the map holds exactly the fields, in whatever order they came. */
  lemma {:induction false} FieldMapHolds(fs: seq<Field>, key: string, value: string)
    requires DistinctKeys(fs)
    ensures key in FieldMap(fs) && FieldMap(fs)[key] == value <==> Field(key, value) in fs
    ensures key in FieldMap(fs) <==> exists f :: f in fs && f.key == key
  {
    if fs != [] {
      var front, last := fs[..|fs| - 1], fs[|fs| - 1];
      FieldMapHolds(front, key, value);
      assert fs == front + [last];
      assert forall f :: f in front ==> f.key != last.key;
    }
  }

  /** When a key comes more than once, the last field with it counts. */
  lemma {:induction false} LastFieldCounts(fs: seq<Field>, i: nat)
    requires i < |fs| && forall j :: i < j < |fs| ==> fs[j].key != fs[i].key
    ensures fs[i].key in FieldMap(fs) && FieldMap(fs)[fs[i].key] == fs[i].value
    decreases |fs|
  {
    if i < |fs| - 1 {
      LastFieldCounts(fs[..|fs| - 1], i);
    }
  }

  // ------------------------------------------------------------------- the head

  lemma StartLineParses(m: Message, r: Request)
    requires m.url != "" && ' ' !in m.url
    ensures RequestLine(r, StartLine(m)) == Head(r.(verb := m.verb, version := Http11, url := m.url), Accepted)
  {
    hide Find, OccursAt, MethodText, MethodOf;
    var line, name := StartLine(m), MethodText(m.verb);
    MethodRoundTrip(m.verb);
    FindAfter(name, " ", m.url + " HTTP/1.1");
    assert line == name + " " + (m.url + " HTTP/1.1");
    assert line[|name| + 1..] == m.url + " " + "HTTP/1.1";
    FindAfter(m.url, " ", "HTTP/1.1");
    FindInSuffix(line, " ", |name| + 1);
    var second := |name| + 1 + |m.url|;
    assert line[..|name|] == name;
    assert line[|name| + 1..second] == m.url;
    assert line[second + 1..] == "HTTP/1.1";
  }

  lemma FieldLineParses(r: Request, f: Field, rest: string)
    requires WellFormedField(f)
    ensures FieldLines(r, FieldLine(f) + CRLF + rest) == FieldLines(r.(headers := r.headers[f.key := f.value]), rest)
  {
    hide Find, OccursAt;
    var line := FieldLine(f);
    var text := line + CRLF + rest;
    FindAfter(line, CRLF, rest);
    FindAfter(f.key, ":", " " + f.value);
    assert line == f.key + ":" + (" " + f.value);
    assert text[..|line|] == line && text[|line| + 2..] == rest;
    assert line[..|f.key|] == f.key && line[|f.key| + 2..] == f.value;
  }

  /** Any character may stand behind the first colon: it is skipped unread, whatever it is. */
  lemma CharBehindColonSkipped(r: Request, key: string, skipped: char, value: string, rest: string)
    requires ':' !in key && NoCRLF(key + ":" + [skipped] + value)
    ensures FieldLines(r, key + ":" + [skipped] + value + CRLF + rest)
         == FieldLines(r.(headers := r.headers[key := value]), rest)
  {
    hide Find, OccursAt, NoCRLF;
    var line := key + ":" + [skipped] + value;
    var text := line + CRLF + rest;
    FirstLineEnds(line, rest);
    FindAfter(key, ":", [skipped] + value);
    assert line == key + ":" + ([skipped] + value);
    assert text[..|line|] == line && text[|line| + 2..] == rest;
    assert line[..|key|] == key && line[|key| + 2..] == value;
  }

  function WithFields(r: Request, fs: seq<Field>): Request {
    r.(headers := r.headers + FieldMap(fs))
  }

  /** Field lines are read into the map in order. */
  lemma {:induction false} FieldLinesParse(r: Request, fs: seq<Field>)
    requires forall f :: f in fs ==> WellFormedField(f)
    ensures FieldLines(r, Lines(FieldTexts(fs))) == Head(WithFields(r, fs), Accepted)
    decreases |fs|
  {
    hide WellFormedField, FieldLine;
    if fs == [] {
      assert Find("", CRLF, 0).None?;
      assert r.headers + map[] == r.headers;
    } else {
      hide Find, FieldLines;
      var texts := FieldTexts(fs);
      assert texts[1..] == FieldTexts(fs[1..]);
      FieldLineParses(r, fs[0], Lines(texts[1..]));
      var r' := r.(headers := r.headers[fs[0].key := fs[0].value]);
      FieldLinesParse(r', fs[1..]);
      FieldMapCons(r.headers, fs);
    }
  }

  lemma {:induction false} FieldMapCons(base: map<string, string>, fs: seq<Field>)
    requires fs != []
    ensures base[fs[0].key := fs[0].value] + FieldMap(fs[1..]) == base + FieldMap(fs)
  {
    var n := |fs| - 1;
    var k, v := fs[n].key, fs[n].value;
    var base' := base[fs[0].key := fs[0].value];
    MergePut(base, FieldMap(fs[..n]), k, v);
    if n == 0 {
      assert fs[..0] == [];
      assert base' + map[] == base' && base + map[] == base;
    } else {
      var tail := fs[1..];
      assert tail[..n - 1] == fs[..n][1..] && tail[n - 1] == fs[n];
      FieldMapCons(base, fs[..n]);
      MergePut(base', FieldMap(fs[..n][1..]), k, v);
    }
  }

  lemma MergePut(base: map<string, string>, m: map<string, string>, k: string, v: string)
    ensures base + m[k := v] == (base + m)[k := v]
  {
  }

  lemma HeadLinesPlain(m: Message)
    requires WellFormed(m)
    ensures IsBlock(HeadLines(m)) && HeadLines(m)[0] != ""
  {
    hide IsBlock;
    forall i | 0 <= i < |HeadLines(m)| ensures HeadLines(m)[i] != "" && NoCR(HeadLines(m)[i]) {
      if i > 0 {
        var f := m.fields[i - 1];
        assert f in m.fields && WellFormedField(f);
        assert HeadLines(m)[i] == FieldLine(f);
      }
    }
    PlainLinesAreBlock(HeadLines(m));
  }

  /** The head of a rendered message ends where the renderer ended it, and is read back. */
  lemma HeadParses(m: Message, rest: string)
    requires WellFormed(m)
    ensures var c := Fresh(Lines(HeadLines(m)) + CRLF + rest);
      HeadEnd(c.buffer).Some?
      && AfterHead(c) == Parse(Context(Meaning(m).(body := ""), 0, true, false, rest), Accepted)
  {
    hide Find, OccursAt, RequestLine, FieldLines, StartLine, WellFormedField, Announces, FieldMap, NoCRLF;
    var ls := HeadLines(m);
    var block := Lines(ls);
    var text := block + CRLF + rest;
    HeadLinesPlain(m);
    BlankLineEndsBlock(ls, rest);
    LastLineEnd(ls);
    assert text[..|block|] == block && text[|block| + 2..] == rest;
    var start, fields := StartLine(m), FieldTexts(m.fields);
    assert ls[0] == start && ls[1..] == fields;
    assert block == start + CRLF + Lines(fields);
    FirstLineEnds(start, Lines(fields));
    assert block[..|start|] == start && block[|start| + 2..] == Lines(fields);
    StartLineParses(m, BLANK);
    var r := BLANK.(verb := m.verb, version := Http11, url := m.url);
    FieldLinesParse(r, m.fields);
    assert map[] + FieldMap(m.fields) == FieldMap(m.fields);
  }

  // ----------------------------------------------------------------- the content

  /** The state after a message has been read, with `rest` still to come. */
  function ReadState(m: Message, rest: string): Context {
    Context(Meaning(m), if m.content.Sized? then |m.content.body| else 0, true, true, rest)
  }

  lemma ZeroChunkParses(c: Context, rest: string)
    requires c.buffer == "0" + BLANK_LINE + rest
    ensures ChunkedBody(c) == Parse(c.(completeRequest := true, buffer := rest), Accepted)
  {
    hide Find, OccursAt, Stoul;
    assert Numeral(0, Sixteen, false) == "0";
    StoulNumeral(0, Sixteen, false);
    assert c.buffer == "0" + CRLF + (CRLF + rest);
    NoCRIsNoCRLF("0");
    FirstLineEnds("0", CRLF + rest);
    assert c.buffer[..1] == "0";
    assert c.buffer[5..] == rest;
  }

  lemma OneChunkParses(c: Context, k: Chunk, rest: string)
    requires k.data != "" && |k.data| < ULONG_LIMIT
    requires c.buffer == ChunkText(k) + rest
    ensures ChunkedBody(c) == ChunkedBody(c.(request := c.request.(body := c.request.body + k.data), buffer := rest))
  {
    hide Find, OccursAt, Stoul, Numeral;
    var size := Hex(|k.data|, k.upper);
    StoulNumeral(|k.data|, Sixteen, k.upper);
    var line := size + CRLF;
    assert c.buffer == line + (k.data + CRLF + rest);
    assert c.buffer == line + k.data + (CRLF + rest);
    assert c.buffer == (line + k.data) + CRLF + rest;
    NoCRIsNoCRLF(size);
    FirstLineEnds(size, k.data + CRLF + rest);
    Slices(size, CRLF, k.data + CRLF + rest);
    Slices(line, k.data, CRLF + rest);
    Slices(line + k.data, CRLF, rest);
  }

  lemma {:induction false} ChunksParse(c: Context, cs: seq<Chunk>, rest: string)
    requires forall k :: k in cs ==> k.data != "" && |k.data| < ULONG_LIMIT
    requires c.buffer == ChunkTexts(cs) + rest
    ensures ChunkedBody(c) == Parse(c.(request := c.request.(body := c.request.body + Data(cs)),
                                       completeRequest := true, buffer := rest), Accepted)
    decreases |cs|
  {
    hide ChunkedBody, ChunkText;
    if cs == [] {
      assert c.request.body + "" == c.request.body;
      ZeroChunkParses(c, rest);
    } else {
      var tail := ChunkTexts(cs[1..]) + rest;
      assert c.buffer == ChunkText(cs[0]) + tail;
      OneChunkParses(c, cs[0], tail);
      var next := c.(request := c.request.(body := c.request.body + cs[0].data), buffer := tail);
      ChunksParse(next, cs[1..], rest);
      assert c.request.body + cs[0].data + Data(cs[1..]) == c.request.body + Data(cs);
    }
  }

  lemma FramingIsRead(m: Message)
    requires WellFormed(m)
    ensures var r := Meaning(m);
      && !UntilClose(r)
      && (IsChunked(r) <==> m.content.Chunked?)
      && (m.content.Nothing? ==> "Content-Length" !in r.headers)
      && (m.content.Sized? ==> HasField(r, "Content-Length", Decimal(|m.content.body|)))
  {
    hide FieldMap, WellFormedField, Numeral;
    FieldMapHolds(m.fields, "Connection", "close");
    FieldMapHolds(m.fields, "Transfer-Encoding", "chunked");
    FieldMapHolds(m.fields, "Content-Length", if m.content.Sized? then Decimal(|m.content.body|) else "");
  }

  lemma ContentParses(m: Message, rest: string)
    requires WellFormed(m)
    ensures Body(Context(Meaning(m).(body := ""), 0, true, false, ContentText(m.content) + rest))
         == Parse(ReadState(m, rest), Accepted)
  {
    hide ChunkedBody, FieldMap, Numeral, Stoul, MethodText;
    var c := Context(Meaning(m).(body := ""), 0, true, false, ContentText(m.content) + rest);
    FramingIsRead(m);
    assert UntilClose(c.request) == UntilClose(Meaning(m)) && IsChunked(c.request) == IsChunked(Meaning(m));
    match m.content {
      case Nothing => assert "" + rest == rest;
      case Sized(body) =>
        StoulNumeral(|body|, Ten, false);
        assert (body + rest)[..|body|] == body && (body + rest)[|body|..] == rest;
      case Chunked(chunks) =>
        ChunksParse(c, chunks, rest);
        assert "" + Data(chunks) == Data(chunks);
    }
  }

  // ------------------------------------------------------------------- round trips

  /** Reading a rendered message gives its meaning and leaves exactly what follows it. */
  lemma RenderThenParse(m: Message, rest: string)
    requires WellFormed(m)
    ensures Receive(Fresh(""), Render(m) + rest) == Parse(ReadState(m, rest), Accepted)
    ensures !CutMatters(Fresh(Render(m) + rest))
  {
    hide WellFormed, Lines, HeadLines, HeadEnd, AfterHead, Body, Meaning, ContentText;
    HeadParses(m, ContentText(m.content) + rest);
    ContentParses(m, rest);
    FramingIsRead(m);
    var block := Lines(HeadLines(m)) + CRLF;
    assert "" + (Render(m) + rest) == block + (ContentText(m.content) + rest);
    assert Render(m) + rest == block + (ContentText(m.content) + rest);
    assert UntilClose(Meaning(m).(body := "")) == UntilClose(Meaning(m));
  }

  /** However a rendered message is cut, the pieces are read back as the message, with
      nothing left over. */
  lemma FragmentsRoundTrip(m: Message, fragments: seq<string>)
    requires WellFormed(m) && fragments != [] && Concat(fragments) == Render(m)
    ensures var fed := Feed(Fresh(""), fragments);
      && fed.parse.verdict == Accepted && fed.parse.context.completeRequest
      && fed.parse.context.request == Meaning(m)
      && fed.parse.context.buffer + fed.unread == ""
  {
    hide Feed, CutMatters, WellFormed, Render;
    RenderThenParse(m, "");
    assert Render(m) + "" == Render(m) && "" + Render(m) == Render(m);
    FragmentationIndependence(Fresh(""), fragments);
  }

  /** The constructor leaves the head flag unset. A parser used before any `Reset` reads a
      message if and only if it happened to find the flag false; otherwise it takes the whole
      message for the body of a blank request. */
  lemma ConstructedParserNeedsFlag(m: Message, flag: bool)
    requires WellFormed(m)
    ensures var p := Receive(Context(BLANK, 0, flag, false, ""), Render(m));
      && (p.context.request == Meaning(m) <==> !flag)
      && (flag ==> p == Parse(Context(BLANK.(body := Render(m)), |Render(m)|, true, true, ""), Accepted))
  {
    hide WellFormed, Render;
    assert "" + Render(m) == Render(m) && Render(m) + "" == Render(m);
    if flag {
      var text := Render(m);
      RenderNonEmpty(m);
      assert text[..|text|] == text && text[|text|..] == "";
    } else {
      RenderThenParse(m, "");
    }
  }

  lemma RenderNonEmpty(m: Message)
    ensures Render(m) != ""
  {
  }
}
