/** Text primitives the server builds on: substring search as `std::string::find`
    does it, number printing, and the `std::stoul` conversion. */
module Text {

  datatype Option<+T> = None | Some(value: T)

  const CRLF := "\r\n"
  const BLANK_LINE := "\r\n\r\n"

  /** `std::stoul` yields an unsigned 64-bit value or throws. */
  const ULONG_LIMIT: int := 0x1_0000_0000_0000_0000

  // ---------------------------------------------------------------- searching

  predicate OccursAt(s: string, pat: string, i: nat) {
    i + |pat| <= |s| && s[i..i + |pat|] == pat
  }

  /** First occurrence of `pat` at or after `from`, like `s.find(pat, from)`. */
  function Find(s: string, pat: string, from: nat): (r: Option<nat>)
    ensures r.Some? ==> from <= r.value && r.value + |pat| <= |s| && OccursAt(s, pat, r.value)
    ensures r.Some? ==> forall j: nat :: from <= j < r.value ==> !OccursAt(s, pat, j)
    ensures r.None? ==> forall j: nat :: from <= j ==> !OccursAt(s, pat, j)
    decreases |s| - from
  {
    if from + |pat| > |s| then None
    else if OccursAt(s, pat, from) then Some(from)
    else if from == |s| then None
    else Find(s, pat, from + 1)
  }

  /** One differing character rules out an occurrence. */
  lemma NoOccurrence(s: string, pat: string, j: nat, i: nat)
    requires i < |pat|
    requires j + i < |s| ==> s[j + i] != pat[i]
    ensures !OccursAt(s, pat, j)
  {
    if j + |pat| <= |s| {
      assert s[j..j + |pat|][i] == s[j + i];
    }
  }

  /** Bytes that arrive later do not change an occurrence already found. */
  lemma FindInPrefix(a: string, b: string, pat: string)
    requires Find(a, pat, 0).Some?
    ensures Find(a + b, pat, 0) == Find(a, pat, 0)
  {
    var k := Find(a, pat, 0).value;
    forall j: nat | j + |pat| <= |a| ensures OccursAt(a + b, pat, j) == OccursAt(a, pat, j) {
      assert (a + b)[j..j + |pat|] == a[j..j + |pat|];
    }
    assert OccursAt(a + b, pat, k);
  }

  /** Searching from an index is searching the suffix. */
  lemma FindInSuffix(s: string, pat: string, from: nat)
    requires from <= |s|
    ensures Find(s[from..], pat, 0).None? <==> Find(s, pat, from).None?
    ensures Find(s, pat, from).Some? ==> Find(s, pat, from).value == from + Find(s[from..], pat, 0).value
  {
    forall j: nat ensures OccursAt(s[from..], pat, j) == OccursAt(s, pat, from + j) {
      if from + j + |pat| <= |s| {
        assert s[from..][j..j + |pat|] == s[from + j..from + j + |pat|];
      }
    }
    var inSuffix := Find(s[from..], pat, 0);
    var inWhole := Find(s, pat, from);
    if inSuffix.Some? {
      assert OccursAt(s, pat, from + inSuffix.value);
    }
    if inWhole.Some? {
      assert OccursAt(s[from..], pat, inWhole.value - from);
      assert OccursAt(s, pat, from + inSuffix.value);
    }
  }

  lemma FirstOccurrence(s: string, pat: string, from: nat, k: nat)
    requires from <= k && OccursAt(s, pat, k)
    requires forall j: nat :: from <= j < k ==> !OccursAt(s, pat, j)
    ensures Find(s, pat, from) == Some(k)
  {
  }

  lemma OccursPast(before: string, after: string, pat: string, j: nat)
    ensures OccursAt(before + after, pat, |before| + j) == OccursAt(after, pat, j)
  {
    if j + |pat| <= |after| {
      assert (before + after)[|before| + j..|before| + j + |pat|] == after[j..j + |pat|];
    }
  }

  lemma FindPast(before: string, after: string, pat: string)
    requires forall j: nat :: j < |before| ==> !OccursAt(before + after, pat, j)
    requires Find(after, pat, 0).Some?
    ensures Find(before + after, pat, 0) == Some(|before| + Find(after, pat, 0).value)
  {
    hide Find, OccursAt;
    var k := Find(after, pat, 0).value;
    OccursPast(before, after, pat, k);
    forall j: nat | j < |before| + k ensures !OccursAt(before + after, pat, j) {
      if j >= |before| { OccursPast(before, after, pat, j - |before|); }
    }
    FirstOccurrence(before + after, pat, 0, |before| + k);
  }

  /** The search stops at the first separator when the text before it cannot start one. */
  lemma FindAfter(line: string, pat: string, rest: string)
    requires pat != "" && pat[0] !in line
    ensures Find(line + pat + rest, pat, 0) == Some(|line|)
  {
    var s := line + pat + rest;
    assert s[|line|..|line| + |pat|] == pat;
    assert OccursAt(s, pat, |line|);
    forall j: nat | j < |line| ensures !OccursAt(s, pat, j) {
      assert s[j] == line[j];
      NoOccurrence(s, pat, j, 0);
    }
  }

  // ------------------------------------------------------- lines ended by CRLF

  predicate NoCR(s: string) { '\r' !in s }

  /** No line end inside; a carriage return alone is allowed. */
  predicate NoCRLF(s: string) {
    forall j: nat :: j < |s| ==> !OccursAt(s, CRLF, j)
  }

  lemma NoCRIsNoCRLF(line: string)
    requires NoCR(line)
    ensures NoCRLF(line)
  {
    forall j: nat | j < |line| ensures !OccursAt(line, CRLF, j) {
      NoOccurrence(line, CRLF, j, 0);
    }
  }

  /** Up to the end of the line end that follows it, a line has no other one. */
  lemma OnlyAtLineEnd(line: string, tail: string, j: nat)
    requires NoCRLF(line) && j < |line| + 2
    ensures OccursAt(line + CRLF + tail, CRLF, j) <==> j == |line|
  {
    var s, n := line + CRLF + tail, |line|;
    assert s[n] == '\r' && s[n + 1] == '\n';
    if j + 2 <= n {
      assert s[j..j + 2] == line[j..j + 2];
      assert !OccursAt(line, CRLF, j);
    } else if j == n {
      assert s[n..n + 2] == CRLF;
    } else {
      NoOccurrence(s, CRLF, j, if j < n then 1 else 0);
    }
  }

  lemma FirstLineEnds(line: string, rest: string)
    requires NoCRLF(line)
    ensures Find(line + CRLF + rest, CRLF, 0) == Some(|line|)
  {
    hide Find, OccursAt;
    forall j: nat | j <= |line| ensures OccursAt(line + CRLF + rest, CRLF, j) <==> j == |line| {
      OnlyAtLineEnd(line, rest, j);
    }
    FirstOccurrence(line + CRLF + rest, CRLF, 0, |line|);
  }

  /** Every line followed by CRLF. */
  function Lines(ls: seq<string>): string {
    if ls == [] then "" else ls[0] + CRLF + Lines(ls[1..])
  }

  lemma BlankIsTwoEnds(s: string, j: nat)
    ensures OccursAt(s, BLANK_LINE, j) <==> OccursAt(s, CRLF, j) && OccursAt(s, CRLF, j + 2)
  {
    if j + 4 <= |s| {
      assert s[j..j + 4] == s[j..j + 2] + s[j + 2..j + 4];
      assert BLANK_LINE == CRLF + CRLF;
      if s[j..j + 4] == BLANK_LINE {
        assert s[j..j + 2] == BLANK_LINE[..2] == CRLF && s[j + 2..j + 4] == BLANK_LINE[2..] == CRLF;
      }
    }
  }

  /** No blank line starts inside a line that is followed by one that is not empty. */
  lemma NoBlankLineInLine(line: string, tail: string)
    requires NoCRLF(line) && !OccursAt(tail, CRLF, 0)
    ensures forall j: nat :: j < |line + CRLF| ==> !OccursAt((line + CRLF) + tail, BLANK_LINE, j)
  {
    hide OccursAt;
    forall j: nat | j < |line + CRLF| ensures !OccursAt((line + CRLF) + tail, BLANK_LINE, j) {
      BlankIsTwoEnds((line + CRLF) + tail, j);
      OnlyAtLineEnd(line, tail, j);
      OccursPast(line + CRLF, tail, CRLF, 0);
    }
  }

  lemma SkipLine(line: string, tail: string, pat: string)
    requires pat == BLANK_LINE
    requires NoCRLF(line) && !OccursAt(tail, CRLF, 0)
    requires Find(tail, pat, 0).Some?
    ensures Find((line + CRLF) + tail, pat, 0) == Some(|line + CRLF| + Find(tail, pat, 0).value)
  {
    hide Find, OccursAt, NoCRLF;
    NoBlankLineInLine(line, tail);
    FindPast(line + CRLF, tail, pat);
  }

  lemma LineThenBlank(line: string, rest: string)
    requires NoCRLF(line)
    ensures Find(line + CRLF + CRLF + rest, BLANK_LINE, 0) == Some(|line|)
  {
    hide Find, OccursAt, NoCRLF;
    var s := line + CRLF + (CRLF + rest);
    assert line + CRLF + CRLF + rest == s;
    forall j: nat | j <= |line| ensures OccursAt(s, BLANK_LINE, j) <==> j == |line| {
      BlankIsTwoEnds(s, j);
      OnlyAtLineEnd(line, CRLF + rest, j);
      EmptyLine();
      OnlyAtLineEnd("", rest, 0);
      OccursPast(line + CRLF, CRLF + rest, CRLF, 0);
      assert "" + CRLF + rest == CRLF + rest && (line + CRLF) + (CRLF + rest) == s;
    }
    FirstOccurrence(s, BLANK_LINE, 0, |line|);
  }

  lemma EmptyLine()
    ensures NoCRLF("")
  {
  }

  /** A block of lines, none of them empty but perhaps the first. */
  predicate IsBlock(ls: seq<string>) {
    ls != [] && forall i :: 0 <= i < |ls| ==> NoCRLF(ls[i]) && (i > 0 ==> ls[i] != "")
  }

  /** The first blank line after a block of lines is the one that ends the block. */
  lemma {:induction false} BlankLineEndsBlock(ls: seq<string>, rest: string)
    requires IsBlock(ls)
    ensures |Lines(ls)| >= 2
    ensures Find(Lines(ls) + CRLF + rest, BLANK_LINE, 0) == Some(|Lines(ls)| - 2)
  {
    hide Find, OccursAt, NoCRLF;
    var line, others := ls[0], Lines(ls[1..]);
    if |ls| == 1 {
      assert others == "" && Lines(ls) == line + CRLF;
      LineThenBlank(line, rest);
    } else {
      BlankLineEndsBlock(ls[1..], rest);
      assert ls[1] == ls[1..][0];
      var tail := others + CRLF + rest;
      assert line + CRLF + others + CRLF + rest == line + CRLF + tail;
      assert tail == ls[1] + CRLF + (Lines(ls[2..]) + CRLF + rest) by { assert ls[1..][1..] == ls[2..]; }
      OnlyAtLineEnd(ls[1], Lines(ls[2..]) + CRLF + rest, 0);
      SkipLine(line, tail, BLANK_LINE);
    }
  }

  lemma PlainLinesAreBlock(ls: seq<string>)
    requires ls != [] && forall i :: 0 <= i < |ls| ==> ls[i] != "" && NoCR(ls[i])
    ensures IsBlock(ls)
  {
    forall i | 0 <= i < |ls| ensures NoCRLF(ls[i]) {
      assert NoCR(ls[i]);
      NoCRIsNoCRLF(ls[i]);
    }
  }

  lemma LastLineEnd(ls: seq<string>)
    requires ls != []
    ensures |Lines(ls)| >= 2 && Lines(ls)[|Lines(ls)| - 2..] == CRLF
  {
    if |ls| == 1 {
      assert Lines(ls[1..]) == "";
      assert Lines(ls) == ls[0] + CRLF;
    } else {
      LastLineEnd(ls[1..]);
      var t := Lines(ls[1..]);
      assert Lines(ls) == (ls[0] + CRLF) + t;
    }
  }

  // ----------------------------------------------------------------- numerals

  datatype Base = Ten | Sixteen

  function Radix(b: Base): nat { if b.Ten? then 10 else 16 }

  function DigitValue(c: char, b: Base): (r: Option<nat>)
    ensures r.Some? ==> r.value < Radix(b)
  {
    if '0' <= c <= '9' then Some(c as nat - '0' as nat)
    else if b.Sixteen? && 'a' <= c <= 'f' then Some(10 + (c as nat - 'a' as nat))
    else if b.Sixteen? && 'A' <= c <= 'F' then Some(10 + (c as nat - 'A' as nat))
    else None
  }

  function DigitChar(d: nat, upper: bool): (c: char)
    requires d < 16
    ensures DigitValue(c, Sixteen) == Some(d)
    ensures d < 10 ==> DigitValue(c, Ten) == Some(d)
    ensures c !in " \t\n\r+-xX"
  {
    if d < 10 then '0' + d as char
    else if upper then 'A' + (d - 10) as char
    else 'a' + (d - 10) as char
  }

  /** Positional text of `n`, without leading zeros. */
  function Numeral(n: nat, b: Base, upper: bool): (s: string)
    ensures s != ""
    ensures forall i :: 0 <= i < |s| ==> DigitValue(s[i], b).Some? && s[i] !in " \t\n\r+-xX"
    ensures |s| > 1 ==> DigitValue(s[0], b) != Some(0)
  {
    if n < Radix(b) then [DigitChar(n, upper)]
    else Numeral(n / Radix(b), b, upper) + [DigitChar(n % Radix(b), upper)]
  }

  function Decimal(n: nat): string { Numeral(n, Ten, false) }

  function Hex(n: nat, upper: bool): string { Numeral(n, Sixteen, upper) }

  /** Value of the longest digit prefix of `s`, read on from `acc`. */
  function Accumulate(s: string, b: Base, acc: nat): nat {
    if s == "" || DigitValue(s[0], b).None? then acc
    else Accumulate(s[1..], b, acc * Radix(b) + DigitValue(s[0], b).value)
  }

  lemma {:induction false} AccumulateNumeral(n: nat, b: Base, upper: bool, rest: string)
    ensures Accumulate(Numeral(n, b, upper) + rest, b, 0) == Accumulate(rest, b, n)
    decreases n
  {
    var r := Radix(b);
    if n < r {
      assert (Numeral(n, b, upper) + rest)[1..] == rest;
    } else {
      var last := DigitChar(n % r, upper);
      assert Numeral(n, b, upper) + rest == Numeral(n / r, b, upper) + ([last] + rest);
      AccumulateNumeral(n / r, b, upper, [last] + rest);
      assert ([last] + rest)[1..] == rest;
      assert n == n / r * r + n % r;
    }
  }

  predicate IsSpace(c: char) { c in " \t\n\r" || c as nat == 11 || c as nat == 12 }

  function SkipSpaces(s: string): string {
    if s != "" && IsSpace(s[0]) then SkipSpaces(s[1..]) else s
  }

  function SkipPrefix(s: string, b: Base): string {
    if b.Sixteen? && |s| > 2 && s[0] == '0' && s[1] in "xX" && DigitValue(s[2], b).Some? then s[2..] else s
  }

  /** `std::stoul(s, nullptr, base)`: leading white space, an optional sign, an optional
      `0x` for base sixteen, then the longest run of digits. `None` stands for the two
      exceptions: no digits, or a magnitude that does not fit 64 bits. A minus sign
      negates modulo 2^64. */
  function Stoul(s: string, b: Base): (r: Option<nat>)
    ensures r.Some? ==> r.value < ULONG_LIMIT
  {
    var t := SkipSpaces(s);
    var negative := t != "" && t[0] == '-';
    var u := SkipPrefix(if t != "" && t[0] in "+-" then t[1..] else t, b);
    if u == "" || DigitValue(u[0], b).None? then None
    else
      var v := Accumulate(u, b, 0);
      if v >= ULONG_LIMIT then None
      else if negative then Some((ULONG_LIMIT - v) % ULONG_LIMIT)
      else Some(v)
  }

  lemma {:induction false} SpacesSkipped(spaces: string, s: string)
    requires forall c :: c in spaces ==> IsSpace(c)
    requires s == "" || !IsSpace(s[0])
    ensures SkipSpaces(spaces + s) == s
  {
    if spaces == "" {
      assert spaces + s == s;
    } else {
      assert IsSpace(spaces[0]) && (spaces + s)[1..] == spaces[1..] + s;
      SpacesSkipped(spaces[1..], s);
    }
  }

  lemma NumeralStart(n: nat, b: Base, upper: bool, rest: string)
    requires rest != "" ==> rest[0] !in "xX"
    ensures var s := Numeral(n, b, upper) + rest;
      s != "" && !IsSpace(s[0]) && s[0] !in "+-" && DigitValue(s[0], b).Some? && SkipPrefix(s, b) == s
  {
    hide Numeral, DigitValue, IsSpace;
    var text := Numeral(n, b, upper);
    DigitIsPlain(text[0], b);
    if |text| > 1 { DigitIsPlain(text[1], b); }
  }

  lemma DigitIsPlain(c: char, b: Base)
    requires DigitValue(c, b).Some?
    ensures !IsSpace(c) && c !in "+-" && c !in "xX"
  {
  }

  /** A printed number is converted back to itself, between any white space and anything that
      does not go on with the number, if and only if it fits 64 bits. */
  lemma StoulReads(spaces: string, n: nat, b: Base, upper: bool, rest: string)
    requires forall c :: c in spaces ==> IsSpace(c)
    requires rest != "" ==> DigitValue(rest[0], b).None? && rest[0] !in "xX"
    ensures Stoul(spaces + (Numeral(n, b, upper) + rest), b) == if n < ULONG_LIMIT then Some(n) else None
  {
    hide Numeral, SkipSpaces, SkipPrefix, IsSpace;
    var s := Numeral(n, b, upper) + rest;
    NumeralStart(n, b, upper, rest);
    SpacesSkipped(spaces, s);
    AccumulateNumeral(n, b, upper, rest);
  }

  /** A sign may stand before the number, and `0x` in base sixteen: a plus sign and the prefix
      change nothing, and a minus sign negates modulo 2^64. */
  lemma StoulSigned(spaces: string, sign: string, prefix: string, n: nat, b: Base, upper: bool, rest: string)
    requires forall c :: c in spaces ==> IsSpace(c)
    requires sign in ["", "+", "-"] && (prefix == "" || (b == Sixteen && prefix in ["0x", "0X"]))
    requires rest != "" ==> DigitValue(rest[0], b).None? && rest[0] !in "xX"
    ensures Stoul(spaces + (sign + (prefix + (Numeral(n, b, upper) + rest))), b)
         == if n >= 18446744073709551616 then None
            else if sign == "-" then Some((18446744073709551616 - n) % 18446744073709551616)
            else Some(n)
  {
    hide Numeral, SkipSpaces, SkipPrefix, IsSpace;
    var digits := Numeral(n, b, upper) + rest;
    var s := prefix + digits;
    var signed := sign + s;
    NumeralStart(n, b, upper, rest);
    PrefixSkipped(prefix, digits, b);
    SignSplit(sign, s);
    SpacesSkipped(spaces, signed);
    AccumulateNumeral(n, b, upper, rest);
  }

  lemma PrefixSkipped(prefix: string, digits: string, b: Base)
    requires prefix == "" || (b == Sixteen && prefix in ["0x", "0X"])
    requires digits != "" && DigitValue(digits[0], b).Some? && SkipPrefix(digits, b) == digits
    ensures var s := prefix + digits; s != "" && !IsSpace(s[0]) && s[0] !in "+-" && SkipPrefix(s, b) == digits
  {
    hide DigitValue;
    DigitIsPlain(digits[0], b);
    if prefix == "" {
      assert prefix + digits == digits;
    } else {
      assert (prefix + digits)[2..] == digits && (prefix + digits)[2] == digits[0];
    }
  }

  lemma SignSplit(sign: string, s: string)
    requires sign in ["", "+", "-"] && s != "" && !IsSpace(s[0]) && s[0] !in "+-"
    ensures var t := sign + s;
      && t != "" && !IsSpace(t[0])
      && (t[0] == '-' <==> sign == "-") && (if t[0] in "+-" then t[1..] else t) == s
  {
    if sign == "" {
      assert sign + s == s;
    } else {
      assert (sign + s)[1..] == s;
    }
  }

  /** Without a digit in this place the conversion fails. */
  lemma StoulFails(spaces: string, sign: string, rest: string, b: Base)
    requires forall c :: c in spaces ==> IsSpace(c)
    requires sign in ["", "+", "-"]
    requires rest != "" ==> DigitValue(rest[0], b).None? && !IsSpace(rest[0]) && (sign == "" ==> rest[0] !in "+-")
    ensures Stoul(spaces + (sign + rest), b) == None
  {
    hide SkipSpaces, DigitValue;
    var t := sign + rest;
    assert t == "" || !IsSpace(t[0]);
    SpacesSkipped(spaces, t);
    if sign == "" {
      assert t == rest;
    } else {
      assert t[1..] == rest;
    }
    ZeroIsDigit(b);
  }

  lemma ZeroIsDigit(b: Base)
    ensures DigitValue('0', b) == Some(0)
  {
  }

  /** Reading back a printed number that fits gives the number. */
  lemma StoulNumeral(n: nat, b: Base, upper: bool)
    requires n < ULONG_LIMIT
    ensures Stoul(Numeral(n, b, upper), b) == Some(n)
  {
    hide Stoul;
    var s := Numeral(n, b, upper);
    assert "" + (s + "") == s;
    StoulReads("", n, b, upper, "");
  }

  // ------------------------------------------------------------- concatenation

  /** Cutting inside the first part of a concatenation. */
  lemma CutPrefix(a: string, b: string, i: nat, j: nat)
    requires i <= j <= |a|
    ensures (a + b)[i..j] == a[i..j] && (a + b)[j..] == a[j..] + b
  {
  }

  lemma Slices(a: string, b: string, c: string)
    ensures var s := a + b + c;
      s[..|a|] == a && s[|a|..|a| + |b|] == b && s[|a| + |b|..] == c
  {
  }

  function Concat(parts: seq<string>): string {
    if parts == [] then "" else parts[0] + Concat(parts[1..])
  }

  lemma {:induction false} ConcatAppend(a: seq<string>, b: seq<string>)
    ensures Concat(a + b) == Concat(a) + Concat(b)
  {
    if a == [] {
      assert a + b == b;
    } else {
      assert (a + b)[1..] == a[1..] + b;
      ConcatAppend(a[1..], b);
    }
  }

  lemma ConcatPair(a: string, b: string)
    ensures Concat([a, b]) == a + b
    ensures Concat([b]) == b
  {
    assert [b][1..] == [];
    assert Concat([b]) == b + "" == b;
    assert [a, b][1..] == [b];
  }

  lemma ConcatSnoc(a: seq<string>, x: string)
    ensures Concat(a + [x]) == Concat(a) + x
  {
    ConcatAppend(a, [x]);
    assert Concat([x]) == x + Concat([x][1..]) == x;
  }
}
