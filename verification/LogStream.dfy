/** Integers in the log: digits written low end first into the fixed buffer and reversed
    in place. */
module LogStreams {
  import opened Text
  import opened Buffers

  const LOG_BUFFER_SIZE := 4096
  const MAX_NUM_SIZE := 48

  // Division and remainder as the language of the source defines them: toward zero.
  function Quotient(v: int): int { if v >= 0 then v / 10 else -(-v / 10) }

  function Remainder(v: int): int { v - 10 * Quotient(v) }

  function Magnitude(v: int): nat { if v >= 0 then v else -v }

  function RemainderChar(v: int): char {
    (Remainder(v) + '0' as int) as char
  }

  /** The characters in the order the loop writes them. */
  function LowFirst(v: int): (s: string)
    ensures s != ""
    decreases Magnitude(v)
  {
    [RemainderChar(v)] + if Quotient(v) == 0 then "" else LowFirst(Quotient(v))
  }

  function Reversed(s: string): (r: string)
    ensures |r| == |s|
    ensures forall i :: 0 <= i < |s| ==> r[i] == s[|s| - 1 - i]
  {
    if s == "" then "" else Reversed(s[1..]) + [s[0]]
  }

  function Formatted(v: int): string { Reversed(LowFirst(v)) }

  /** The usual decimal text of an integer. */
  function SignedDecimal(v: int): string {
    if v >= 0 then Decimal(v) else "-" + Decimal(-v)
  }

  class LogStream {
    const buffer: FixedBuffer

    constructor ()
      ensures buffer.Valid() && fresh(buffer) && fresh(buffer.data)
      ensures buffer.data.Length == 4096 && buffer.Text() == ""
    {
      buffer := new FixedBuffer(LOG_BUFFER_SIZE);
    }

    /** `std::reverse` of a range of the array. */
    method ReverseRange(from: nat, to: nat)
      requires from <= to <= buffer.data.Length
      modifies buffer.data
      ensures buffer.data[from..to] == Reversed(old(buffer.data[from..to]))
      ensures buffer.data[..from] == old(buffer.data[..from])
    {
      hide Reversed;
      var a := buffer.data;
      ghost var was := a[from..to];
      var n := to - from;
      for i := 0 to n / 2
        invariant forall k :: from <= k < from + i ==> a[k] == was[to - 1 - k]
        invariant forall k :: from + i <= k < to - i ==> a[k] == was[k - from]
        invariant forall k :: to - i <= k < to ==> a[k] == was[to - 1 - k]
        invariant forall k :: 0 <= k < from ==> a[k] == old(a[k])
        modifies a
      {
        a[from + i], a[to - 1 - i] := a[to - 1 - i], a[from + i];
      }
    }

    /** The digit loop: low end first, from index `start`. */
    method WriteDigits(start: nat, value: int) returns (now: nat)
      requires start + |LowFirst(value)| <= buffer.data.Length
      modifies buffer.data
      ensures now == start + |LowFirst(value)|
      ensures buffer.data[start..now] == LowFirst(value)
      ensures buffer.data[..start] == old(buffer.data[..start])
    {
      hide LowFirst, RemainderChar, Quotient, LeftToWrite;
      var a, v := buffer.data, value;
      ghost var written := [RemainderChar(v)];
      a[start] := RemainderChar(v);
      now := start + 1;
      FirstDigit(v);
      v := Quotient(v);
      while v != 0
        invariant now == start + |written| && |written| + |LeftToWrite(v)| == |LowFirst(value)|
        invariant a[start..now] == written && written + LeftToWrite(v) == LowFirst(value)
        invariant a[..start] == old(a[..start])
        decreases Magnitude(v)
        modifies a
      {
        NextDigit(written, v);
        written := written + [RemainderChar(v)];
        a[now] := RemainderChar(v);
        now := now + 1;
        v := Quotient(v);
      }
      NothingLeft(written);
      // The source tests for a negative value here, when it is zero.
      if v < 0 { assert false; }
    }

    /** Appends the digits of an integer of any supported width, when the buffer has room
        for the longest number; otherwise nothing happens. */
    method FormatInteger(value: int)
      requires buffer.Valid() && -ULONG_LIMIT < value < ULONG_LIMIT
      modifies buffer`cur, buffer.data
      ensures buffer.Valid()
      ensures buffer.Text() == if |old(buffer.Text())| + 48 <= buffer.data.Length
                               then old(buffer.Text()) + Formatted(value) else old(buffer.Text())
      ensures |buffer.Text()| <= |old(buffer.Text())| + 20
    {
      hide LowFirst, Reversed;
      AtMostTwentyDigits(value);
      if buffer.Avail() >= MAX_NUM_SIZE {
        var start := buffer.cur;
        var now := WriteDigits(start, value);
        ReverseRange(start, now);
        buffer.Add(now - start);
        assert buffer.data[..now] == buffer.data[..start] + buffer.data[start..now];
      }
    }
  }

  /** The characters of the loop's remaining rounds. */
  function LeftToWrite(v: int): string { if v == 0 then "" else LowFirst(v) }

  lemma FirstDigit(v: int)
    ensures [RemainderChar(v)] + LeftToWrite(Quotient(v)) == LowFirst(v)
  {
  }

  lemma NextDigit(written: string, v: int)
    requires v != 0
    ensures |LeftToWrite(v)| == 1 + |LeftToWrite(Quotient(v))|
    ensures written + LeftToWrite(v) == (written + [RemainderChar(v)]) + LeftToWrite(Quotient(v))
    ensures Magnitude(Quotient(v)) < Magnitude(v)
  {
    FirstDigit(v);
    var rest := LeftToWrite(Quotient(v));
    assert written + ([RemainderChar(v)] + rest) == (written + [RemainderChar(v)]) + rest;
  }

  lemma NothingLeft(written: string)
    ensures written + LeftToWrite(0) == written
  {
    assert LeftToWrite(0) == "";
  }

  // ------------------------------------------------------------- what is printed

  lemma {:induction false} FormattedNatural(n: nat)
    ensures Formatted(n) == Decimal(n)
  {
    assert Remainder(n) == n % 10 && RemainderChar(n) == DigitChar(n % 10, false);
    if n >= 10 {
      FormattedNatural(n / 10);
      assert LowFirst(n)[1..] == LowFirst(n / 10);
    }
  }

  lemma {:induction false} FormattedLength(v: int)
    ensures |Formatted(v)| == |Decimal(Magnitude(v))|
    decreases Magnitude(v)
  {
    if v <= -10 {
      FormattedLength(Quotient(v));
      assert Quotient(v) == -(-v / 10);
    } else if v >= 10 {
      FormattedLength(v / 10);
    }
  }

  function Pow10(k: nat): nat { if k == 0 then 1 else 10 * Pow10(k - 1) }

  lemma {:induction false} DecimalLength(n: nat, k: nat)
    requires k >= 1 && n < Pow10(k)
    ensures |Decimal(n)| <= k
    decreases k
  {
    if n >= 10 {
      assert Pow10(k) == 10 * Pow10(k - 1);
      DecimalLength(n / 10, k - 1);
    }
  }

  lemma AtMostTwentyDigits(v: int)
    requires -ULONG_LIMIT < v < ULONG_LIMIT
    ensures |LowFirst(v)| <= 20
  {
    FormattedLength(v);
    Pow10Twenty();
    DecimalLength(Magnitude(v), 20);
  }

  lemma Pow10Twenty()
    ensures Pow10(20) >= ULONG_LIMIT
  {
    assert Pow10(5) == 100000;
    assert Pow10(10) == 10000000000;
    assert Pow10(15) == 1000000000000000;
    assert Pow10(20) == 100000000000000000000;
  }

  /** The printed text is the decimal text of the value exactly for the non-negative ones:
      a negative value loses its sign, because the sign is tested after the loop has made
      the value zero. */
  lemma FormattedIsDecimalIff(v: int)
    ensures Formatted(v) == SignedDecimal(v) <==> v >= 0
  {
    hide Formatted;
    if v >= 0 {
      FormattedNatural(v);
    } else {
      FormattedLength(v);
    }
  }

  /** What a negative value is printed as: in place of each digit of its magnitude the character
      that lies as far before the zero as the digit lies after it, and no sign. */
  lemma {:induction false} FormattedNegative(v: int, i: nat)
    requires v < 0 && i < |Decimal(-v)|
    ensures |Formatted(v)| == |Decimal(-v)|
    ensures Formatted(v)[i] as int - '0' as int == '0' as int - Decimal(-v)[i] as int
    decreases -v
  {
    FormattedLength(v);
    assert Remainder(v) == -(-v % 10) && Quotient(v) == -(-v / 10);
    if v <= -10 {
      var front := Quotient(v);
      assert Formatted(v) == Formatted(front) + [RemainderChar(v)];
      FormattedLength(front);
      assert Decimal(-v) == Decimal(-front) + [DigitChar(-v % 10, false)];
      if i < |Decimal(-front)| {
        FormattedNegative(front, i);
      }
    }
  }

  /** For one, minus five is printed as a plus sign. */
  lemma MinusFive()
    ensures Formatted(-5) == "+" && SignedDecimal(-5) == "-5"
  {
    assert Quotient(-5) == 0 && RemainderChar(-5) == '+';
    assert LowFirst(-5) == "+";
    assert Reversed("+")[0] == '+';
  }

  /** A printed value that fits 64 bits reads back as itself. */
  lemma FormattedReadsBack(n: nat)
    requires n < ULONG_LIMIT
    ensures Stoul(Formatted(n), Ten) == Some(n)
  {
    hide Stoul;
    FormattedNatural(n);
    StoulNumeral(n, Ten, false);
  }
}
