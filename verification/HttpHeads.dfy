/** Requests as text, with any method, version and fields: what the parser makes of the head, and
    how the version and the fields decide where the body ends. */
module HttpHeads {
  import opened Text
  import opened HttpRequests
  import opened HttpContexts
  import opened HttpFragments
  import opened HttpErrors
  import opened HttpRoundTrip

  /** A start line of three parts and its well-formed fields, no key twice. */
  datatype HeadParts = HeadParts(name: string, url: string, version: string, fields: seq<Field>)

  function StartOf(h: HeadParts): string { h.name + " " + h.url + " " + h.version }

  function LinesOf(h: HeadParts): seq<string> { [StartOf(h)] + FieldTexts(h.fields) }

  /** The head as it travels, with the blank line. */
  function HeadText(h: HeadParts): string { Lines(LinesOf(h)) + CRLF }

  predicate ProperHead(h: HeadParts) {
    && ' ' !in h.name && ' ' !in h.url && h.url != "" && NoCRLF(StartOf(h))
    && (forall f :: f in h.fields ==> WellFormedField(f)) && DistinctKeys(h.fields)
  }

  function RequestOf(h: HeadParts, body: string): Request {
    Request(MethodOf(h.name), VersionOf(h.version), h.url, FieldMap(h.fields), body)
  }

  // --------------------------------------------------------------------- the names

  /** The five names; every other name is taken for GET. */
  lemma MethodsByName(name: string)
    ensures MethodOf("POST") == POST && MethodOf("HEAD") == HEAD && MethodOf("PUT") == PUT && MethodOf("DELETE") == DELETE
    ensures name !in ["POST", "HEAD", "PUT", "DELETE"] ==> MethodOf(name) == GET
  {
  }

  /** One version is known; every other text is taken for the older one. */
  lemma VersionsByName(version: string)
    ensures VersionOf(version) == Http11 <==> version == "HTTP/1.1"
  {
  }

  // ---------------------------------------------------------------------- the head

  lemma FieldLinesAreBlock(h: HeadParts)
    requires ProperHead(h)
    ensures IsBlock(LinesOf(h)) && StartParts(StartOf(h), h.name, h.url, h.version)
  {
    hide NoCRLF, NoCR;
    var ls := LinesOf(h);
    forall i | 0 <= i < |ls| ensures NoCRLF(ls[i]) && (i > 0 ==> ls[i] != "") {
      if i > 0 {
        var f := h.fields[i - 1];
        assert f in h.fields && WellFormedField(f);
        assert ls[i] == FieldLine(f);
        PlainFieldLine(f);
        NoCRIsNoCRLF(ls[i]);
      }
    }
  }

  lemma PlainFieldLine(f: Field)
    requires WellFormedField(f)
    ensures NoCR(FieldLine(f))
  {
  }

  /** The head is read into its parts, and what follows it is left for the body. */
  lemma HeadIsRead(h: HeadParts, rest: string)
    requires ProperHead(h)
    ensures var c := Fresh(HeadText(h) + rest);
      HeadEnd(c.buffer).Some?
      && AfterHead(c) == Parse(Context(RequestOf(h, ""), 0, true, false, rest), Accepted)
  {
    hide Find, OccursAt, RequestLine, FieldLines, Lines, StartOf, WellFormedField, NoCRLF, FieldMap, IsBlock;
    var ls := LinesOf(h);
    var text := HeadText(h) + rest;
    FieldLinesAreBlock(h);
    HeadIsCut(ls, rest);
    LinesUnfold(ls);
    assert ls[0] == StartOf(h) && ls[1..] == FieldTexts(h.fields);
    FirstLineEnds(StartOf(h), Lines(ls[1..]));
    StartPartsRead(BLANK, StartOf(h), h.name, h.url, h.version);
    StartIsNotEmpty(h);
    var r := BLANK.(verb := MethodOf(h.name), url := h.url, version := VersionOf(h.version));
    FieldLinesParse(r, h.fields);
    assert map[] + FieldMap(h.fields) == FieldMap(h.fields);
  }

  lemma StartIsNotEmpty(h: HeadParts)
    ensures StartOf(h) != ""
  {
  }

  // ---------------------------------------------------------------------- the framing

  /** The head leaves the end of the body to the end of the connection. */
  predicate EndsWithConnection(h: HeadParts) {
    && Field("Transfer-Encoding", "chunked") !in h.fields
    && (Field("Connection", "close") in h.fields || h.version != "HTTP/1.1")
  }

  lemma FramingOfHead(h: HeadParts, body: string)
    requires DistinctKeys(h.fields)
    ensures UntilClose(RequestOf(h, body)) <==> EndsWithConnection(h)
    ensures IsChunked(RequestOf(h, body)) <==> Field("Transfer-Encoding", "chunked") in h.fields
  {
    hide FieldMap, MethodOf;
    FieldMapHolds(h.fields, "Connection", "close");
    FieldMapHolds(h.fields, "Transfer-Encoding", "chunked");
    VersionsByName(h.version);
    hide VersionOf;
  }

  /** Such a request is complete as soon as its head is, and its body is whatever came with the
      head, whatever length is announced; nothing is left over. */
  lemma RestIsBody(h: HeadParts, rest: string)
    requires ProperHead(h) && EndsWithConnection(h)
    ensures Receive(Fresh(""), HeadText(h) + rest)
         == Parse(Context(RequestOf(h, rest), |rest|, true, true, ""), Accepted)
  {
    hide ProperHead, HeadText, HeadEnd, AfterHead, EndsWithConnection, MethodOf, VersionOf, FieldMap, UntilClose, IsChunked;
    HeadIsRead(h, rest);
    FramingOfHead(h, "") by { DistinctFields(h); }
    UntilCloseIsNotChunked(RequestOf(h, ""));
    assert "" + (HeadText(h) + rest) == HeadText(h) + rest;
    assert rest[..|rest|] == rest && rest[|rest|..] == "";
  }

  lemma DistinctFields(h: HeadParts)
    requires ProperHead(h)
    ensures DistinctKeys(h.fields)
  {
  }

  lemma UntilCloseIsNotChunked(r: Request)
    requires UntilClose(r)
    ensures !IsChunked(r)
  {
  }

  /** The parse of a request depends on the cuts if and only if its head leaves the end of the
      body to the end of the connection and something follows the head. */
  lemma CutsMatterIff(h: HeadParts, rest: string)
    requires ProperHead(h)
    ensures !CutsAgree(HeadText(h) + rest) <==> EndsWithConnection(h) && rest != ""
  {
    hide ProperHead, HeadText, HeadEnd, AfterHead, EndsWithConnection, MethodOf, VersionOf, FieldMap, UntilClose, CutsAgree;
    HeadIsRead(h, rest);
    DistinctFields(h);
    FramingOfHead(h, "");
    FragmentationIndependenceIff(HeadText(h) + rest);
  }
}
