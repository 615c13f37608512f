/** Which requests the parser refuses and which make it throw: an account of its verdicts in
    terms of the text, without its searches. */
module HttpErrors {
  import opened Text
  import opened HttpRequests
  import opened HttpContexts
  import opened HttpFragments
  import opened HttpChunks

  // ------------------------------------------------------------------ the start line

  /** A method, a non-empty target and the rest of the line, separated by single spaces. */
  predicate StartParts(line: string, name: string, url: string, version: string) {
    ' ' !in name && ' ' !in url && url != "" && line == name + " " + url + " " + version
  }

  ghost predicate ProperStart(line: string) {
    exists name, url, version :: StartParts(line, name, url, version)
  }

  /** A proper start line is read into its three parts. */
  lemma StartPartsRead(r: Request, line: string, name: string, url: string, version: string)
    requires StartParts(line, name, url, version)
    ensures RequestLine(r, line) == Head(r.(verb := MethodOf(name), url := url, version := VersionOf(version)), Accepted)
  {
    hide Find, OccursAt, MethodOf, VersionOf;
    assert line == name + " " + (url + " " + version);
    FindAfter(name, " ", url + " " + version);
    assert line[|name| + 1..] == url + " " + version;
    FindAfter(url, " ", version);
    FindInSuffix(line, " ", |name| + 1);
    var second := |name| + 1 + |url|;
    assert line[..|name|] == name && line[|name| + 1..second] == url && line[second + 1..] == version;
  }

  /** Up to the first occurrence of a character the text does not contain it. */
  lemma AbsentBefore(s: string, c: char, from: nat, end: nat)
    requires from <= end <= |s|
    requires forall j: nat :: from <= j < end ==> !OccursAt(s, [c], j)
    ensures c !in s[from..end]
  {
    forall i | 0 <= i < |s[from..end]| ensures s[from..end][i] != c {
      assert s[from + i..from + i + 1] == [s[from + i]];
      assert !OccursAt(s, [c], from + i);
    }
  }

  lemma CharAt(s: string, c: char, i: nat)
    requires OccursAt(s, [c], i)
    ensures i < |s| && s[i] == c
  {
    assert s[i..i + 1][0] == s[i];
  }

  /** A start line is accepted exactly when it is proper, and never makes the parser throw. */
  lemma StartLineVerdict(r: Request, line: string)
    ensures RequestLine(r, line).verdict == if ProperStart(line) then Accepted else Rejected
  {
    hide Find, OccursAt;
    if ProperStart(line) {
      var name, url, version :| StartParts(line, name, url, version);
      StartPartsRead(r, line, name, url, version);
    }
    if RequestLine(r, line).verdict == Accepted {
      AcceptedIsProper(r, line);
    }
  }

  lemma AcceptedIsProper(r: Request, line: string)
    requires RequestLine(r, line).verdict == Accepted
    ensures ProperStart(line)
  {
    hide Find, OccursAt;
    var first := Find(line, " ", 0).value;
    var second := Find(line, " ", first + 1).value;
    CharAt(line, ' ', first);
    CharAt(line, ' ', second);
    AbsentBefore(line, ' ', 0, first);
    AbsentBefore(line, ' ', first + 1, second);
    var name, url, version := line[..first], line[first + 1..second], line[second + 1..];
    assert line[0..first] == name;
    assert line == name + " " + url + " " + version;
    assert StartParts(line, name, url, version);
  }

  // ------------------------------------------------------------------ the field lines

  /** No colon is an error; a colon with nothing after it at all throws. */
  function LineVerdict(line: string): Verdict {
    if ':' !in line then Rejected
    else if ':' !in line[..|line| - 1] then Thrown
    else Accepted
  }

  /** The first line that is not accepted decides. */
  function LinesVerdict(ls: seq<string>): Verdict {
    if ls == [] then Accepted
    else if LineVerdict(ls[0]) != Accepted then LineVerdict(ls[0])
    else LinesVerdict(ls[1..])
  }

  lemma ColonFound(line: string)
    ensures Find(line, ":", 0).None? <==> ':' !in line
    ensures Find(line, ":", 0).Some? ==>
      var k := Find(line, ":", 0).value; k < |line| && (k + 2 > |line| <==> ':' !in line[..|line| - 1])
  {
    hide Find, OccursAt;
    var found := Find(line, ":", 0);
    if found.None? {
      assert forall j: nat :: 0 <= j < |line| ==> !OccursAt(line, [':'], j);
      AbsentBefore(line, ':', 0, |line|);
      assert line[0..|line|] == line;
    } else {
      var k := found.value;
      CharAt(line, ':', k);
      AbsentBefore(line, ':', 0, k);
      assert line[0..k] == line[..k];
      if k + 2 <= |line| {
        assert line[..|line| - 1][k] == ':';
      } else {
        assert k == |line| - 1;
      }
    }
  }

  lemma {:induction false} FieldLinesVerdict(r: Request, ls: seq<string>)
    requires forall i :: 0 <= i < |ls| ==> NoCRLF(ls[i])
    ensures FieldLines(r, Lines(ls)).verdict == LinesVerdict(ls)
    decreases |ls|
  {
    if ls == [] {
      assert Find("", CRLF, 0).None?;
    } else {
      hide Find, OccursAt, Lines, NoCRLF;
      var line, rest := ls[0], Lines(ls[1..]);
      assert NoCRLF(line);
      FirstLineEnds(line, rest);
      LinesUnfold(ls);
      ColonFound(line);
      if LineVerdict(line) == Accepted {
        var colon := Find(line, ":", 0).value;
        FieldLinesVerdict(r.(headers := r.headers[line[..colon] := line[colon + 2..]]), ls[1..]);
      }
    }
  }

  // ------------------------------------------------------------------- the whole head

  /** What a head of these lines leads to. */
  ghost function HeadVerdict(ls: seq<string>): Verdict
    requires ls != []
  {
    if !ProperStart(ls[0]) then Rejected else LinesVerdict(ls[1..])
  }

  /** The parser cuts the head off right where its lines end. */
  lemma HeadIsCut(ls: seq<string>, rest: string)
    requires IsBlock(ls)
    ensures var buffer := Lines(ls) + CRLF + rest; var end := HeadEnd(buffer);
      end.Some? && buffer[..end.value + 2] == Lines(ls) && buffer[end.value + 4..] == rest
  {
    hide Find, OccursAt, Lines, NoCRLF;
    BlankLineEndsBlock(ls, rest);
    LastLineEnd(ls);
    Slices(Lines(ls), CRLF, rest);
  }

  lemma LinesUnfold(ls: seq<string>)
    requires ls != []
    ensures Lines(ls) == ls[0] + CRLF + Lines(ls[1..])
    ensures Lines(ls)[..|ls[0]|] == ls[0] && Lines(ls)[|ls[0]| + 2..] == Lines(ls[1..])
  {
    var line, others := ls[0], Lines(ls[1..]);
    assert Lines(ls) == line + CRLF + others;
    Slices(line, CRLF, others);
  }

  lemma EmptyLineIsImproper()
    ensures !ProperStart("")
  {
  }

  /** The verdict on the lines of a head. */
  lemma LinesAreJudged(ls: seq<string>)
    requires IsBlock(ls)
    ensures RequestHead(BLANK, Lines(ls)).verdict == HeadVerdict(ls)
  {
    hide Find, OccursAt, RequestLine, FieldLines, NoCRLF, Lines, LinesVerdict, ProperStart;
    LinesUnfold(ls);
    assert NoCRLF(ls[0]);
    EmptyLineIsImproper();
    FirstLineEnds(ls[0], Lines(ls[1..]));
    StartLineVerdict(BLANK, ls[0]);
    FieldLinesVerdict(RequestLine(BLANK, ls[0]).request, ls[1..]);
  }

  /** The verdict on a head does not depend on what follows it. */
  lemma HeadIsJudged(ls: seq<string>, rest: string)
    requires IsBlock(ls)
    ensures var c := Fresh(Lines(ls) + CRLF + rest);
      HeadEnd(c.buffer).Some? && AfterHead(c).verdict == HeadVerdict(ls) && AfterHead(c).context.buffer == rest
  {
    hide HeadEnd, RequestHead, AfterHead, Lines, IsBlock, HeadVerdict;
    HeadIsCut(ls, rest);
    LinesAreJudged(ls);
    HeadAndRest(Fresh(Lines(ls) + CRLF + rest), Lines(ls), rest);
  }

  lemma HeadAndRest(c: Context, head: string, rest: string)
    requires !c.completeHeaders && HeadEnd(c.buffer).Some?
    requires c.buffer[..HeadEnd(c.buffer).value + 2] == head && c.buffer[HeadEnd(c.buffer).value + 4..] == rest
    ensures AfterHead(c).verdict == RequestHead(c.request, head).verdict && AfterHead(c).context.buffer == rest
    ensures AfterHead(c).context.request == RequestHead(c.request, head).request
  {
    hide RequestHead, Find;
  }

  // -------------------------------------------------------------------- whole requests

  /** The body is announced by a length, and this is not a number. */
  predicate BadLength(r: Request) {
    && !IsChunked(r) && !UntilClose(r)
    && "Content-Length" in r.headers && Stoul(r.headers["Content-Length"], Ten).None?
  }

  /** The body is chunked, and behind its complete chunks comes a size that is not a number. */
  ghost predicate BadChunk(c: Context) {
    var frames := Frames(c.buffer);
    IsChunked(c.request) && !Terminated(frames) && exists rest :: c.buffer == FramesText(frames) + rest && BadSize(rest)
  }

  lemma ThrowsAtBadChunk(c: Context)
    requires !c.completeRequest && IsChunked(c.request)
    ensures ChunkedBody(c).verdict == Thrown <==> BadChunk(c)
    ensures ChunkedBody(c).verdict != Rejected
  {
    hide Frames, FramesText, ChunkedBody, Terminated, BadSize;
    DecoderTakesFrames(c);
    var frames, left := Frames(c.buffer), ChunkedBody(c).context.buffer;
    assert c.buffer == FramesText(frames) + left;
    forall rest | c.buffer == FramesText(frames) + rest ensures rest == left {
      assert rest == c.buffer[|FramesText(frames)|..];
    }
  }

  lemma NotChunked(c: Context)
    requires !IsChunked(c.request)
    ensures !BadChunk(c)
  {
  }

  lemma BodyVerdict(c: Context)
    requires !c.completeRequest
    ensures Body(c).verdict == Rejected <==> BadLength(c.request)
    ensures Body(c).verdict == Thrown <==> BadChunk(c)
  {
    hide BadChunk, ChunkedBody, Stoul, UntilClose;
    if IsChunked(c.request) {
      ThrowsAtBadChunk(c);
    } else {
      NotChunked(c);
    }
  }

  /** A request is refused exactly for its start line, for a field line without a colon that
      comes before any that throws, or for a length that is not a number. The parser throws
      exactly at a field line that ends with its only colon, or at a bad chunk size. */
  lemma RequestVerdict(ls: seq<string>, rest: string)
    requires IsBlock(ls)
    ensures HeadEnd(Lines(ls) + CRLF + rest).Some?
    ensures var c := Fresh(Lines(ls) + CRLF + rest); var body := AfterHead(c).context; var v := Step(c).verdict;
      && (v == Rejected <==> HeadVerdict(ls) == Rejected || (HeadVerdict(ls) == Accepted && BadLength(body.request)))
      && (v == Thrown <==> HeadVerdict(ls) == Thrown || (HeadVerdict(ls) == Accepted && BadChunk(body)))
  {
    hide HeadEnd, AfterHead, Lines, IsBlock, HeadVerdict, Body, BadLength, BadChunk;
    var c := Fresh(Lines(ls) + CRLF + rest);
    HeadIsJudged(ls, rest);
    HeadOpensBody(c);
    BodyVerdict(AfterHead(c).context);
  }

  /** This covers every request whose head has arrived: any such bytes are the lines of a head,
      a blank line and what follows. */
  lemma HeadHasLines(buffer: string) returns (ls: seq<string>, rest: string)
    requires HeadEnd(buffer).Some?
    ensures IsBlock(ls) && buffer == Lines(ls) + CRLF + rest
  {
    hide Find, IsBlock, Lines;
    var end := HeadEnd(buffer).value;
    var head := buffer[..end + 2];
    rest := buffer[end + 4..];
    BlankIsTwoEnds(buffer, end);
    assert buffer[end..end + 2] == CRLF && buffer[end + 2..end + 4] == CRLF by {
      EndsAt(buffer, end);
      EndsAt(buffer, end + 2);
    }
    assert head[end..end + 2] == CRLF;
    forall j: nat ensures !OccursAt(head, BLANK_LINE, j) {
      OccursInPrefix(buffer, end + 2, BLANK_LINE, j);
    }
    ls := SplitHead(head);
    assert buffer == head + CRLF + rest;
  }

  lemma OccursInPrefix(s: string, n: nat, pat: string, j: nat)
    requires n <= |s|
    ensures OccursAt(s[..n], pat, j) ==> OccursAt(s, pat, j)
    ensures OccursAt(s[n..], pat, j) ==> OccursAt(s, pat, n + j)
  {
    if OccursAt(s[..n], pat, j) {
      assert s[j..j + |pat|] == s[..n][j..j + |pat|];
    }
    if OccursAt(s[n..], pat, j) {
      assert s[n + j..n + j + |pat|] == s[n..][j..j + |pat|];
    }
  }

  lemma EndsAt(s: string, i: nat)
    requires OccursAt(s, CRLF, i)
    ensures i + 2 <= |s| && s[i..i + 2] == CRLF
  {
  }

  /** A text that ends with a line end and has no blank line is a block of lines. */
  lemma {:induction false} SplitHead(text: string) returns (ls: seq<string>)
    requires |text| >= 2 && OccursAt(text, CRLF, |text| - 2)
    requires forall j: nat :: !OccursAt(text, BLANK_LINE, j)
    ensures IsBlock(ls) && Lines(ls) == text
    decreases |text|
  {
    hide Find, OccursAt;
    var k := Find(text, CRLF, 0).value;
    EndsAt(text, k);
    EndsAt(text, |text| - 2);
    var line, rest := text[..k], text[k + 2..];
    assert text == line + CRLF + rest;
    forall j: nat | j < |line| ensures !OccursAt(line, CRLF, j) {
      OccursInPrefix(text, k, CRLF, j);
    }
    if rest == "" {
      ls := [line];
      assert Lines(ls) == line + CRLF + Lines([]);
    } else {
      assert text[k..k + 2][1] == '\n' && text[|text| - 2..|text|][0] == '\r';
      assert k + 1 != |text| - 2;
      RestIsHead(text, k);
      var others := SplitHead(rest);
      ls := [line] + others;
      assert ls[1..] == others;
      BlankIsTwoEnds(text, k);
      OccursInPrefix(text, k + 2, CRLF, 0);
      assert others[0] != "" by {
        if others[0] == "" {
          assert rest == "" + CRLF + Lines(others[1..]);
          EmptyLine();
          OnlyAtLineEnd("", Lines(others[1..]), 0);
        }
      }
    }
  }

  lemma RestIsHead(text: string, k: nat)
    requires k + 2 <= |text| - 2 && OccursAt(text, CRLF, |text| - 2)
    requires forall j: nat :: !OccursAt(text, BLANK_LINE, j)
    ensures var rest := text[k + 2..]; OccursAt(rest, CRLF, |rest| - 2) && forall j: nat :: !OccursAt(rest, BLANK_LINE, j)
  {
    var rest := text[k + 2..];
    assert rest[|rest| - 2..] == text[|text| - 2..];
    forall j: nat ensures !OccursAt(rest, BLANK_LINE, j) {
      OccursInPrefix(text, k + 2, BLANK_LINE, j);
    }
  }

  lemma HeadOpensBody(c: Context)
    requires !c.completeHeaders && HeadEnd(c.buffer).Some?
    ensures AfterHead(c).context.completeRequest == c.completeRequest
  {
    hide Find, RequestHead;
  }

  // --------------------------------------------------------------- where cuts matter

  /** Every request with a start line of another version and nothing else in its head, if bytes
      follow, is read differently depending on the cuts. */
  lemma OtherVersionsDependOnCuts(line: string, name: string, url: string, version: string, rest: string)
    requires StartParts(line, name, url, version) && NoCRLF(line) && version != "HTTP/1.1" && rest != ""
    ensures !CutsAgree(Lines([line]) + CRLF + rest)
  {
    hide HeadEnd, AfterHead, RequestHead, Lines, NoCRLF, StartParts, CutMatters, CutsAgree;
    var ls := [line];
    var stream := Lines(ls) + CRLF + rest;
    assert line != "" by { PartsNonEmpty(line, name, url, version); }
    HeadIsCut(ls, rest);
    BareHead(line, name, url, version);
    HeadAndRest(Fresh(stream), Lines(ls), rest);
    BareHeadMatters(Fresh(stream));
    FragmentationIndependenceIff(stream);
  }

  lemma PartsNonEmpty(line: string, name: string, url: string, version: string)
    requires StartParts(line, name, url, version)
    ensures line != ""
  {
  }

  lemma BareHead(line: string, name: string, url: string, version: string)
    requires StartParts(line, name, url, version) && NoCRLF(line) && version != "HTTP/1.1"
    ensures var head := RequestHead(BLANK, Lines([line]));
      head.verdict == Accepted && head.request.headers == map[] && head.request.version == Http10
  {
    hide Find, OccursAt, RequestLine, Lines, NoCRLF, StartParts;
    assert [line][1..] == [];
    PartsNonEmpty(line, name, url, version);
    LinesUnfold([line]);
    FirstLineEnds(line, Lines([]));
    StartPartsRead(BLANK, line, name, url, version);
    NoLines();
  }

  lemma NoLines()
    ensures Lines([]) == "" && Find("", CRLF, 0).None?
  {
  }

  lemma BareHeadMatters(c: Context)
    requires !c.completeHeaders && HeadEnd(c.buffer).Some?
    requires var start := AfterHead(c);
      start.verdict == Accepted && start.context.request.headers == map[] && start.context.request.version == Http10
      && start.context.buffer != ""
    ensures CutMatters(c)
  {
    hide HeadEnd, AfterHead;
  }

  /** The shortest such request. */
  lemma OldRequestDependsOnCuts()
    ensures !CutsAgree("GET / HTTP/1.0\r\n\r\nx")
  {
    hide CutsAgree;
    var line := "GET / HTTP/1.0";
    assert StartParts(line, "GET", "/", "HTTP/1.0");
    NoCRIsNoCRLF(line);
    OtherVersionsDependOnCuts(line, "GET", "/", "HTTP/1.0", "x");
    LinesUnfold([line]);
    NoLines();
    assert Lines([line]) + CRLF + "x" == "GET / HTTP/1.0\r\n\r\nx";
  }
}
