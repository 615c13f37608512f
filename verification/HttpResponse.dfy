/** Responses: the printed header block, and what a reader of that block sees. */
module HttpResponses {
  import opened Text
  import opened HttpRequests
  import opened HttpContexts
  import opened HttpRoundTrip

  const CACHE_POLICY := Field("Cache-Control", "no-cache, no-store, must-revalidate")

  function ConnectionField(close: bool): Field {
    Field("Connection", if close then "close" else "Keep-Alive")
  }

  /** An iteration order of a hash map: each key exactly once. */
  ghost predicate IterationOrder(order: seq<string>, headers: map<string, string>) {
    (forall i, j :: 0 <= i < j < |order| ==> order[i] != order[j])
    && (forall k :: k in order <==> k in headers)
  }

  function FieldsIn(order: seq<string>, headers: map<string, string>): (fs: seq<Field>)
    requires forall k :: k in order ==> k in headers
    ensures |fs| == |order|
    ensures forall i :: 0 <= i < |fs| ==> fs[i] == Field(order[i], headers[order[i]])
  {
    seq(|order|, i requires 0 <= i < |order| => Field(order[i], headers[order[i]]))
  }

  function StatusLine(code: nat, message: string): string {
    "HTTP/1.1 " + Decimal(code) + " " + message
  }

  function AllFields(close: bool, headers: map<string, string>, order: seq<string>): seq<Field>
    requires forall k :: k in order ==> k in headers
  {
    [ConnectionField(close)] + FieldsIn(order, headers) + [CACHE_POLICY]
  }

  /** The lines of a header block, before the blank line that ends it. */
  function BlockLines(code: nat, message: string, fs: seq<Field>): seq<string> {
    [StatusLine(code, message)] + FieldTexts(fs)
  }

  class HttpResponse {
    var closeConnection: bool
    var headers: map<string, string>
    var statusMessage: string
    var body: string
    var statusCode: nat

    constructor (close: bool)
      ensures closeConnection == close && headers == map[] && statusMessage == "" && body == "" && statusCode == 1
    {
      closeConnection, headers, statusMessage, body, statusCode := close, map[], "", "", 1;
    }

    method AddHeader(key: string, value: string)
      modifies this`headers
      ensures headers == old(headers)[key := value]
    {
      headers := headers[key := value];
    }

    method SetContentLength(length: nat)
      modifies this`headers
      ensures headers == old(headers)["Content-Length" := Decimal(length)]
    {
      AddHeader("Content-Length", Decimal(length));
    }

    /** The header block, for any order in which the map may be walked. */
    method GetHeaderString(order: seq<string>) returns (s: string)
      requires IterationOrder(order, headers)
      ensures s == Lines(BlockLines(statusCode, statusMessage, AllFields(closeConnection, headers, order))) + CRLF
    {
      hide Numeral, Lines, FieldTexts, StatusLine, FieldLine;
      ghost var start := StatusLine(statusCode, statusMessage);
      s := "HTTP/1.1 " + Decimal(statusCode) + " " + statusMessage + CRLF;
      StatusText(statusCode, statusMessage);
      if closeConnection {
        s := s + FieldLine(Field("Connection", "close")) + CRLF;
      } else {
        s := s + FieldLine(Field("Connection", "Keep-Alive")) + CRLF;
      }
      ghost var printed: seq<Field> := [ConnectionField(closeConnection)];
      FirstField([start], ConnectionField(closeConnection));
      for i := 0 to |order|
        invariant printed == [ConnectionField(closeConnection)] + FieldsIn(order, headers)[..i]
        invariant s == Lines([start] + FieldTexts(printed))
      {
        var f := Field(order[i], headers[order[i]]);
        s := s + FieldLine(f) + CRLF;
        OneMoreField([start], printed, f);
        printed := printed + [f];
      }
      s := s + FieldLine(CACHE_POLICY) + CRLF;
      OneMoreField([start], printed, CACHE_POLICY);
      assert printed + [CACHE_POLICY] == AllFields(closeConnection, headers, order);
      s := s + CRLF;
    }

    /** The whole response: the header block and then the body. */
    method Message(order: seq<string>) returns (s: string)
      requires IterationOrder(order, headers)
      ensures s == Lines(BlockLines(statusCode, statusMessage, AllFields(closeConnection, headers, order))) + CRLF + body
      ensures WellFormedHeaders(headers) && NoCR(statusMessage) ==>
        |s| >= 4 + |body| && HeadEnd(s) == Some(|s| - |body| - 4) && s[|s| - |body|..] == body
    {
      hide Lines, BlockLines, AllFields, HeadEnd;
      s := GetHeaderString(order);
      if WellFormedHeaders(headers) && NoCR(statusMessage) {
        MessageSplits(statusCode, statusMessage, closeConnection, headers, order, body);
      }
      s := s + body;
    }
  }

  lemma StatusText(code: nat, message: string)
    ensures Lines([StatusLine(code, message)]) == "HTTP/1.1 " + Decimal(code) + " " + message + CRLF
  {
    hide Numeral;
    LineBlock([StatusLine(code, message)]);
  }

  lemma LineBlock(ls: seq<string>)
    requires |ls| == 1
    ensures Lines(ls) == ls[0] + CRLF
  {
    assert ls[1..] == [];
  }

  lemma {:induction false} LinesAppend(a: seq<string>, b: seq<string>)
    ensures Lines(a + b) == Lines(a) + Lines(b)
  {
    if a == [] {
      assert a + b == b;
    } else {
      assert (a + b)[1..] == a[1..] + b;
      LinesAppend(a[1..], b);
    }
  }

  lemma OneMoreField(before: seq<string>, fs: seq<Field>, f: Field)
    ensures Lines(before + FieldTexts(fs + [f])) == Lines(before + FieldTexts(fs)) + FieldLine(f) + CRLF
  {
    hide Lines, FieldLine;
    assert before + FieldTexts(fs + [f]) == before + FieldTexts(fs) + [FieldLine(f)];
    LinesAppend(before + FieldTexts(fs), [FieldLine(f)]);
    LineBlock([FieldLine(f)]);
  }

  lemma FirstField(before: seq<string>, f: Field)
    ensures Lines(before + FieldTexts([f])) == Lines(before) + FieldLine(f) + CRLF
  {
    hide Lines, FieldLine;
    assert before + FieldTexts([]) == before;
    assert [] + [f] == [f];
    OneMoreField(before, [], f);
  }

  // -------------------------------------------------------------- reading it back

  predicate WellFormedHeaders(headers: map<string, string>) {
    forall k :: k in headers ==> WellFormedField(Field(k, headers[k]))
  }

  lemma OrderIrrelevant(order: seq<string>, headers: map<string, string>)
    requires IterationOrder(order, headers)
    ensures FieldMap(FieldsIn(order, headers)) == headers
  {
    hide FieldMap;
    var fs := FieldsIn(order, headers);
    forall k ensures k in FieldMap(fs) <==> k in headers {
      FieldMapHolds(fs, k, "");
      if k in headers {
        var i :| 0 <= i < |order| && order[i] == k;
        assert fs[i] in fs;
      }
    }
    forall k | k in headers ensures FieldMap(fs)[k] == headers[k] {
      FieldMapHolds(fs, k, headers[k]);
      var i :| 0 <= i < |order| && order[i] == k;
      assert fs[i] == Field(k, headers[k]);
    }
  }

  /** For every iteration order a reader sees the same map: the connection field, overridden
      by the response's own headers, overridden by the cache policy. */
  lemma HeadersReadBack(r: Request, close: bool, headers: map<string, string>, order: seq<string>)
    requires IterationOrder(order, headers) && WellFormedHeaders(headers)
    ensures FieldLines(r, Lines(FieldTexts(AllFields(close, headers, order))))
         == Head(r.(headers := r.headers["Connection" := if close then "close" else "Keep-Alive"]
                                + headers["Cache-Control" := "no-cache, no-store, must-revalidate"]), Accepted)
  {
    hide FieldLines, Lines, FieldTexts, FieldMap, WellFormedField;
    var first, own := ConnectionField(close), FieldsIn(order, headers);
    var fs := AllFields(close, headers, order);
    OwnFieldsWellFormed(close, headers, order);
    FieldLinesParse(r, fs);
    OrderIrrelevant(order, headers);
    ThreeLayers(r.headers, first, own, CACHE_POLICY);
  }

  /** Unless the response has its own field, a reader sees what the response decided: `close` if
      it closes the connection and `Keep-Alive` if it keeps it. The cache policy is always there. */
  lemma ConnectionReadsBack(r: Request, close: bool, headers: map<string, string>, order: seq<string>)
    requires IterationOrder(order, headers) && WellFormedHeaders(headers)
    ensures var read := FieldLines(r, Lines(FieldTexts(AllFields(close, headers, order)))).request.headers;
      && "Connection" in read && "Cache-Control" in read
      && read["Cache-Control"] == "no-cache, no-store, must-revalidate"
      && ("Connection" !in headers ==> read["Connection"] == if close then "close" else "Keep-Alive")
      && ("Connection" in headers ==> read["Connection"] == headers["Connection"])
  {
    hide FieldLines, Lines, FieldTexts, AllFields, WellFormedHeaders, IterationOrder;
    HeadersReadBack(r, close, headers, order);
    assert "Connection" != "Cache-Control";
  }

  /** The block starts with the protocol version, a space, a number that converts back to the
      status code, a space and the message. */
  lemma StatusReadsBack(code: nat, message: string, fs: seq<Field>)
    requires code < ULONG_LIMIT && NoCR(message)
    ensures var line := StatusLine(code, message);
      && Find(line, " ", 0) == Some(8) && line[..8] == "HTTP/1.1"
      && Stoul(line[9..], Ten) == Some(code)
      && |line| >= 1 + |message| && line[|line| - |message| - 1..] == " " + message
    ensures Find(Lines(BlockLines(code, message, fs)), CRLF, 0) == Some(|StatusLine(code, message)|)
    ensures StatusLine(code, message) <= Lines(BlockLines(code, message, fs))
  {
    hide Find, OccursAt, Stoul, Numeral, Lines, NoCR, NoCRLF;
    var line, number := StatusLine(code, message), Decimal(code);
    assert line == "HTTP/1.1" + " " + (number + " " + message);
    FindAfter("HTTP/1.1", " ", number + " " + message);
    assert line[9..] == "" + (number + (" " + message));
    StoulReads("", code, Ten, false, " " + message);
    PlainStatus(code, message);
    NoCRIsNoCRLF(line);
    var ls := BlockLines(code, message, fs);
    UnfoldBlock(ls);
    FirstLineEnds(line, Lines(ls[1..]));
  }

  lemma UnfoldBlock(ls: seq<string>)
    requires ls != []
    ensures Lines(ls) == ls[0] + CRLF + Lines(ls[1..])
  {
  }

  lemma PlainStatus(code: nat, message: string)
    requires NoCR(message)
    ensures NoCR(StatusLine(code, message))
  {
    hide Numeral;
    assert NoCR(Decimal(code));
  }

  /** After `SetContentLength` a reader of the block converts the field back to the length,
      whatever other headers there are and in whatever order they are walked. */
  lemma LengthReadsBack(r: Request, close: bool, others: map<string, string>, length: nat, order: seq<string>)
    requires length < ULONG_LIMIT && WellFormedHeaders(others)
    requires IterationOrder(order, others["Content-Length" := Decimal(length)])
    ensures var headers := others["Content-Length" := Decimal(length)];
      var head := FieldLines(r, Lines(FieldTexts(AllFields(close, headers, order))));
      && head.verdict == Accepted && "Content-Length" in head.request.headers
      && Stoul(head.request.headers["Content-Length"], Ten) == Some(length)
  {
    hide FieldLines, Lines, FieldTexts, AllFields, Stoul, Numeral, WellFormedField;
    LengthWellFormed(length);
    HeadersReadBack(r, close, others["Content-Length" := Decimal(length)], order);
    StoulNumeral(length, Ten, false);
  }

  lemma LengthWellFormed(length: nat)
    ensures WellFormedField(Field("Content-Length", Decimal(length)))
  {
    hide Numeral;
    assert NoCR(Decimal(length));
  }

  lemma ThreeLayers(base: map<string, string>, first: Field, own: seq<Field>, last: Field)
    ensures base + FieldMap([first] + own + [last])
         == base[first.key := first.value] + FieldMap(own)[last.key := last.value]
  {
    var fs := [first] + own + [last];
    assert fs[..|fs| - 1] == [first] + own;
    assert ([first] + own)[1..] == own;
    FieldMapCons(base, [first] + own);
    hide FieldMap;
    var k, v := last.key, last.value;
    assert base + FieldMap([first] + own)[k := v] == (base + FieldMap([first] + own))[k := v];
  }

  lemma ConnectionWellFormed(close: bool)
    ensures WellFormedField(ConnectionField(close))
  {
  }

  lemma PolicyWellFormed()
    ensures WellFormedField(CACHE_POLICY)
  {
    var value := CACHE_POLICY.value;
    assert |value| == 35;
    assert forall i :: 0 <= i < |value| ==> value[i] != '\r';
  }

  lemma OwnFieldsWellFormed(close: bool, headers: map<string, string>, order: seq<string>)
    requires IterationOrder(order, headers) && WellFormedHeaders(headers)
    ensures forall f :: f in AllFields(close, headers, order) ==> WellFormedField(f)
  {
    ConnectionWellFormed(close);
    PolicyWellFormed();
    hide WellFormedField, ConnectionField;
    var own := FieldsIn(order, headers);
    forall f | f in AllFields(close, headers, order) ensures WellFormedField(f) {
      if f in own {
        assert f.key in headers;
      } else {
        assert f == ConnectionField(close) || f == CACHE_POLICY;
      }
    }
  }

  lemma ResponseLinesPlain(code: nat, message: string, fs: seq<Field>)
    requires NoCR(message) && forall f :: f in fs ==> WellFormedField(f)
    ensures var ls := BlockLines(code, message, fs);
      IsBlock(ls)
  {
    hide Numeral, IsBlock;
    assert NoCR(Decimal(code));
    var ls := BlockLines(code, message, fs);
    forall i | 0 <= i < |ls| ensures ls[i] != "" && NoCR(ls[i]) {
      if i > 0 {
        assert fs[i - 1] in fs;
        assert WellFormedField(fs[i - 1]);
        assert ls[i] == FieldLine(fs[i - 1]);
      }
    }
    PlainLinesAreBlock(ls);
  }

  /** The blank line that ends the header block is the first one in the message, so a reader
      finds the body untouched right after it. */
  lemma MessageSplits(code: nat, message: string, close: bool, headers: map<string, string>, order: seq<string>, body: string)
    requires IterationOrder(order, headers) && WellFormedHeaders(headers) && NoCR(message)
    ensures var block := Lines(BlockLines(code, message, AllFields(close, headers, order))) + CRLF;
      |block| >= 4 && HeadEnd(block + body) == Some(|block| - 4) && (block + body)[|block|..] == body
  {
    hide Find, OccursAt, Lines, BlockLines, WellFormedField, NoCR, IsBlock;
    var fs := AllFields(close, headers, order);
    OwnFieldsWellFormed(close, headers, order);
    ResponseLinesPlain(code, message, fs);
    BlankLineEndsBlock(BlockLines(code, message, fs), body);
  }
}
