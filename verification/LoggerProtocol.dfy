/** The asynchronous logger as a protocol between the threads that append lines and the
    worker that swaps buffers out, writes them and recycles them. Buffers are shown by their
    texts; the log files, one after another, are one text. */
module LoggerProtocol {
  import opened Text

  /** Where the worker is: at the head of its loop, writing its batch (from index `next`), or
      draining what is left after the loop. */
  datatype Phase = AtHead | Writing(next: nat) | Draining(next: nat) | Stopped

  datatype State = State(
    phase: Phase,
    // shared, under the lock
    current: Option<string>,
    spare: Option<string>,
    full: seq<string>,
    // owned by the worker
    active: seq<string>,
    newCurrent: Option<string>,
    newSpare: Option<string>,
    // what the outside sees
    file: string,
    appended: string,
    batches: seq<nat>)

  const START := State(AtHead, Some(""), Some(""), [], [], Some(""), Some(""), "", "", [])

  datatype Step =
    | Append(line: string)
    | Swap
    | WriteOne
    | Recycle
    | Leave
    | DrainOne
    | DrainLast

  /** Lines are shorter than a buffer, and appending is over when the final drain starts. */
  predicate Enabled(s: State, a: Step, capacity: nat) {
    match a
    case Append(line) => |line| < capacity && (s.phase.AtHead? || s.phase.Writing?)
    case Swap => s.phase.AtHead?
    case WriteOne => s.phase.Writing? && s.phase.next < |s.active|
    case Recycle => s.phase.Writing? && s.phase.next == |s.active|
    case Leave => s.phase.AtHead?
    case DrainOne => s.phase.Draining? && s.phase.next < |s.full|
    case DrainLast => s.phase.Draining? && s.phase.next == |s.full|
  }

  function TextOf(b: Option<string>): string { if b.Some? then b.value else "" }

  /** `FixedBuffer::append`: a line that does not fit is dropped. */
  function Fill(text: string, line: string, capacity: nat): string {
    if |text| + |line| < capacity then text + line else text
  }

  function Appended(s: State, line: string, capacity: nat): State
    requires s.current.Some?
  {
    var text := s.current.value;
    if |text| + |line| < capacity then s.(current := Some(text + line), appended := s.appended + line)
    else
      s.(full := s.full + [text],
         current := Some(Fill(if s.spare.Some? then s.spare.value else "", line, capacity)),
         spare := None,
         appended := s.appended + line)
  }

  /** The critical section of the worker: the current buffer joins the full ones, and these
      change places with whatever is left in the worker's batch. */
  function Swapped(s: State): State
    requires s.current.Some?
  {
    var batch := s.full + [s.current.value];
    s.(phase := Writing(0), active := batch, full := s.active, batches := s.batches + [|batch|],
       current := if s.newCurrent.Some? then Some("") else None,
       newCurrent := None,
       spare := if s.spare.None? && s.newSpare.Some? then Some("") else s.spare,
       newSpare := if s.spare.None? then None else s.newSpare)
  }

  /** At most two buffers of the batch are emptied for reuse; the others stay in it. */
  function Recycled(s: State): State {
    var n := |s.active|;
    s.(phase := AtHead, active := s.active[..if n >= 2 then n - 2 else 0], newCurrent := Some(""), newSpare := Some(""))
  }

  function Apply(s: State, a: Step, capacity: nat): State
    requires Enabled(s, a, capacity) && Ready(s)
  {
    match a
    case Append(line) => Appended(s, line, capacity)
    case Swap => Swapped(s)
    case WriteOne => s.(phase := Writing(s.phase.next + 1), file := s.file + s.active[s.phase.next])
    case Recycle => Recycled(s)
    case Leave => s.(phase := Draining(0))
    case DrainOne =>
      s.(phase := Draining(s.phase.next + 1), file := s.file + s.full[s.phase.next], full := s.full[s.phase.next := ""])
    case DrainLast => s.(phase := Stopped, file := s.file + TextOf(s.current), current := Some(""))
  }

  /** The pointers that the code follows without a test are not null. */
  predicate Ready(s: State) {
    && s.current.Some?
    && (s.phase.AtHead? ==> s.newCurrent.Some? && s.newSpare.Some?)
  }

  predicate Legal(s: State, run: seq<Step>, capacity: nat)
    decreases |run|
  {
    run == [] || (Ready(s) && Enabled(s, run[0], capacity) && Legal(Apply(s, run[0], capacity), run[1..], capacity))
  }

  function After(s: State, run: seq<Step>, capacity: nat): State
    requires Legal(s, run, capacity)
    decreases |run|
  {
    if run == [] then s else After(Apply(s, run[0], capacity), run[1..], capacity)
  }

  /** The rest of the batch written without interruption. */
  ghost function Written(s: State, capacity: nat): State
    requires Ready(s) && s.phase.Writing? && s.phase.next <= |s.active|
    decreases |s.active| - s.phase.next
  {
    if s.phase.next == |s.active| then s else Written(Apply(s, WriteOne, capacity), capacity)
  }

  /** The rest of the final drain. */
  ghost function Drained(s: State, capacity: nat): State
    requires Ready(s) && s.phase.Draining? && s.phase.next <= |s.full|
    decreases |s.full| - s.phase.next
  {
    if s.phase.next == |s.full| then Apply(s, DrainLast, capacity) else Drained(Apply(s, DrainOne, capacity), capacity)
  }

  function Repeated(a: Step, n: nat): seq<Step> { if n == 0 then [] else [a] + Repeated(a, n - 1) }

  /** Writing a batch is so many steps of the protocol; what reaches the file is the batch. */
  lemma {:induction false} WrittenIsARun(s: State, capacity: nat)
    requires Ready(s) && s.phase.Writing? && s.phase.next <= |s.active|
    ensures var run := Repeated(WriteOne, |s.active| - s.phase.next);
            Legal(s, run, capacity) && After(s, run, capacity) == Written(s, capacity)
    ensures Written(s, capacity) == s.(phase := Writing(|s.active|), file := s.file + Concat(s.active[s.phase.next..]))
    decreases |s.active| - s.phase.next
  {
    var next := s.phase.next;
    if next == |s.active| {
      assert s.file + "" == s.file;
    } else {
      var t := Apply(s, WriteOne, capacity);
      var run := Repeated(WriteOne, |s.active| - next);
      assert run[0] == WriteOne && run[1..] == Repeated(WriteOne, |s.active| - (next + 1));
      WrittenIsARun(t, capacity);
      assert s.active[next..] == [s.active[next]] + s.active[next + 1..];
      assert s.file + s.active[next] + Concat(s.active[next + 1..]) == s.file + (s.active[next] + Concat(s.active[next + 1..]));
    }
  }

  /** The same for the drain, which leaves its buffers empty. */
  lemma {:induction false} DrainedIsARun(s: State, capacity: nat)
    requires Ready(s) && s.phase.Draining? && s.phase.next <= |s.full|
    ensures var run := Repeated(DrainOne, |s.full| - s.phase.next) + [DrainLast];
            Legal(s, run, capacity) && After(s, run, capacity) == Drained(s, capacity)
    ensures var t := Drained(s, capacity);
            t.phase == Stopped && t.appended == s.appended
            && t.file == s.file + Concat(s.full[s.phase.next..]) + s.current.value
    decreases |s.full| - s.phase.next
  {
    var next := s.phase.next;
    var run := Repeated(DrainOne, |s.full| - next) + [DrainLast];
    if next == |s.full| {
      assert run == [DrainLast];
      assert Legal(Apply(s, DrainLast, capacity), run[1..], capacity);
      assert s.file + "" == s.file;
    } else {
      var t := Apply(s, DrainOne, capacity);
      assert run[0] == DrainOne && run[1..] == Repeated(DrainOne, |s.full| - (next + 1)) + [DrainLast];
      DrainedIsARun(t, capacity);
      assert t.full[next + 1..] == s.full[next + 1..];
      assert s.full[next..] == [s.full[next]] + s.full[next + 1..];
      assert s.file + s.full[next] + Concat(s.full[next + 1..]) == s.file + (s.full[next] + Concat(s.full[next + 1..]));
    }
  }

  // ------------------------------------------------------------------ subsequences

  /** The characters of `a` occur in `b`, in order. */
  predicate Subsequence(a: string, b: string)
    decreases |b|
  {
    a == "" || (b != "" && ((a[0] == b[0] && Subsequence(a[1..], b[1..])) || Subsequence(a, b[1..])))
  }

  lemma {:induction false} SubsequencePadded(a: string, b: string, more: string)
    requires Subsequence(a, b)
    ensures Subsequence(a, b + more)
    decreases |b|
  {
    if a != "" {
      assert (b + more)[1..] == b[1..] + more;
      if a[0] == b[0] && Subsequence(a[1..], b[1..]) {
        SubsequencePadded(a[1..], b[1..], more);
      } else {
        SubsequencePadded(a, b[1..], more);
      }
    }
  }

  lemma {:induction false} SubsequenceExtended(a: string, b: string, more: string)
    requires Subsequence(a, b)
    ensures Subsequence(a + more, b + more)
    decreases |b|
  {
    if b == "" {
      assert a + more == more && b + more == more;
      SubsequenceReflexive(more);
    } else {
      assert (b + more)[1..] == b[1..] + more;
      if a == "" {
        SubsequenceExtended(a, b[1..], more);
      } else if a[0] == b[0] && Subsequence(a[1..], b[1..]) {
        SubsequenceExtended(a[1..], b[1..], more);
        assert (a + more)[1..] == a[1..] + more;
      } else {
        SubsequenceExtended(a, b[1..], more);
      }
    }
  }

  lemma {:induction false} SubsequenceReflexive(a: string)
    ensures Subsequence(a, a)
  {
    if a != "" { SubsequenceReflexive(a[1..]); }
  }

  // --------------------------------------------------------------------- invariants

  /** Text that is still to be written, in the order in which it will be. */
  function Outstanding(s: State): string {
    match s.phase
    case AtHead => Concat(s.full) + TextOf(s.current)
    case Writing(next) => (if next <= |s.active| then Concat(s.active[next..]) else "") + Concat(s.full) + TextOf(s.current)
    case Draining(next) => (if next <= |s.full| then Concat(s.full[next..]) else "") + TextOf(s.current)
    case Stopped => ""
  }

  /** A batch of more than two buffers that was not the last one. */
  predicate Overfull(batches: seq<nat>) {
    exists i :: 0 <= i < |batches| - 1 && batches[i] > 2
  }

  predicate NonEmpty(texts: seq<string>) { forall t :: t in texts ==> t != "" }

  /** Sizes and places: what is left of the last batch, and which buffers hold text. */
  predicate Shape(s: State, capacity: nat) {
    && Ready(s)
    && |s.current.value| < capacity && (s.spare.Some? ==> s.spare.value == "")
    && match s.phase
       case AtHead =>
         NonEmpty(s.full) && NonEmpty(s.active)
         && |s.active| == if s.batches != [] && s.batches[|s.batches| - 1] > 2 then s.batches[|s.batches| - 1] - 2 else 0
       case Writing(next) =>
         next <= |s.active| && NonEmpty(s.full)
         && s.batches != [] && |s.active| == s.batches[|s.batches| - 1] >= 1
         && NonEmpty(s.active[..|s.active| - 1])
       case Draining(next) => next <= |s.full|
       case Stopped => true
  }

  /** Nothing is lost; nothing is added unless a batch was overfull, and then something is. */
  predicate Faithful(s: State) {
    && Subsequence(s.appended, s.file + Outstanding(s))
    && (!Overfull(s.batches) ==> s.appended == s.file + Outstanding(s))
    && (Overfull(s.batches) ==> |s.appended| < |s.file + Outstanding(s)|)
  }

  predicate Inv(s: State, capacity: nat) { Shape(s, capacity) && Faithful(s) }

  /** The total text only moves. */
  lemma TotalKept(s: State, t: State)
    requires Faithful(s) && t.appended == s.appended && t.batches == s.batches
    requires t.file + Outstanding(t) == s.file + Outstanding(s)
    ensures Faithful(t)
  {
  }

  /** A line goes to the end of the total text. */
  lemma TotalExtended(s: State, t: State, line: string)
    requires Faithful(s) && t.appended == s.appended + line && t.batches == s.batches
    requires t.file + Outstanding(t) == (s.file + Outstanding(s)) + line
    ensures Faithful(t)
  {
    SubsequenceExtended(s.appended, s.file + Outstanding(s), line);
  }

  lemma AppendKept(s: State, line: string, capacity: nat)
    requires Inv(s, capacity) && Enabled(s, Append(line), capacity)
    ensures Inv(Appended(s, line, capacity), capacity)
  {
    hide Subsequence, Faithful;
    var t := Appended(s, line, capacity);
    AppendMovesTotal(s, line, capacity);
    hide Concat, Outstanding;
    assert Shape(t, capacity) by { AppendKeepsShape(s, line, capacity); }
    hide Shape;
    TotalExtended(s, t, line);
  }

  lemma AppendKeepsShape(s: State, line: string, capacity: nat)
    requires Shape(s, capacity) && Enabled(s, Append(line), capacity)
    ensures Shape(Appended(s, line, capacity), capacity)
  {
    assert "" + line == line;
  }

  lemma AppendMovesTotal(s: State, line: string, capacity: nat)
    requires Shape(s, capacity) && Enabled(s, Append(line), capacity)
    ensures var t := Appended(s, line, capacity); t.file + Outstanding(t) == (s.file + Outstanding(s)) + line
  {
    hide Concat, Outstanding;
    var t := Appended(s, line, capacity);
    var text := s.current.value;
    var before := s.file + (match s.phase case Writing(next) => Concat(s.active[next..]) case _ => "");
    TotalForm(s);
    TotalForm(t);
    ConcatSnoc(s.full, text);
    assert "" + line == line;
    Regrouped(before, Concat(s.full), text, line);
  }

  lemma Regrouped(a: string, b: string, c: string, d: string)
    ensures a + b + (c + d) == a + b + c + d == a + (b + c) + d
  {
  }

  /** The total text with the parts in a row. */
  lemma TotalForm(s: State)
    requires s.phase.AtHead? || (s.phase.Writing? && s.phase.next <= |s.active|)
    ensures s.file + Outstanding(s)
         == s.file + (match s.phase case Writing(next) => Concat(s.active[next..]) case _ => "") + Concat(s.full) + TextOf(s.current)
  {
    hide Concat;
    if s.phase.AtHead? {
      assert s.file + "" == s.file;
    }
  }

  /** The swap puts what is left of the last batch, already written, behind everything that
      is still to be written. */
  lemma SwapKept(s: State, capacity: nat)
    requires Inv(s, capacity) && Enabled(s, Swap, capacity)
    ensures Inv(Swapped(s), capacity)
  {
    hide Subsequence, Concat;
    var t := Swapped(s);
    var total, left := s.file + Outstanding(s), Concat(s.active);
    ConcatSnoc(s.full, s.current.value);
    assert t.active[0..] == t.active;
    assert t.active[..|t.active| - 1] == s.full;
    assert t.file + Outstanding(t) == total + left + "" by { TotalForm(t); }
    assert total + left + "" == total + left;
    SubsequencePadded(s.appended, total, left);
    OverfullGrows(s.batches, |t.active|);
    if s.active == [] {
      NoTexts();
      assert total + left == total;
    } else {
      NonEmptyConcat(s.active);
    }
  }

  lemma ConcatCons(x: string, rest: seq<string>)
    ensures Concat([x] + rest) == x + Concat(rest)
  {
    assert ([x] + rest)[1..] == rest;
  }

  lemma NoTexts()
    ensures Concat([]) == ""
  {
  }

  lemma NonEmptyConcat(texts: seq<string>)
    requires texts != [] && NonEmpty(texts)
    ensures Concat(texts) != ""
  {
    assert texts[0] in texts;
  }

  lemma OverfullGrows(batches: seq<nat>, n: nat)
    ensures Overfull(batches + [n]) <==> Overfull(batches) || (batches != [] && batches[|batches| - 1] > 2)
  {
    var more := batches + [n];
    if Overfull(batches) {
      var i :| 0 <= i < |batches| - 1 && batches[i] > 2;
      assert more[i] > 2;
    }
    if batches != [] && batches[|batches| - 1] > 2 {
      assert more[|batches| - 1] > 2;
    }
  }

  lemma WriteKept(s: State, capacity: nat)
    requires Inv(s, capacity) && Enabled(s, WriteOne, capacity)
    ensures Inv(Apply(s, WriteOne, capacity), capacity)
  {
    hide Subsequence, Overfull, Faithful;
    var t := Apply(s, WriteOne, capacity);
    var next := s.phase.next;
    assert s.active[next..] == [s.active[next]] + s.active[next + 1..];
    TotalForm(s);
    TotalForm(t);
    assert Concat(s.active[next..]) == s.active[next] + Concat(s.active[next + 1..]);
    assert s.file + (s.active[next] + Concat(s.active[next + 1..])) == t.file + Concat(t.active[next + 1..]);
    TotalKept(s, t);
  }

  lemma RecycleKept(s: State, capacity: nat)
    requires Inv(s, capacity) && Enabled(s, Recycle, capacity)
    ensures Inv(Recycled(s), capacity)
  {
    hide Subsequence, Overfull, Faithful;
    var t := Recycled(s);
    assert s.active[s.phase.next..] == [];
    assert Concat([]) == "";
    TotalForm(s);
    TotalForm(t);
    TotalKept(s, t);
    forall x | x in t.active ensures x != "" {
      assert x in s.active[..|s.active| - 1];
    }
  }

  lemma LeaveKept(s: State, capacity: nat)
    requires Inv(s, capacity) && Enabled(s, Leave, capacity)
    ensures Inv(Apply(s, Leave, capacity), capacity)
  {
    hide Subsequence, Overfull, Faithful, Concat;
    assert s.full[0..] == s.full;
    TotalKept(s, Apply(s, Leave, capacity));
  }

  lemma DrainOneKept(s: State, capacity: nat)
    requires Inv(s, capacity) && Enabled(s, DrainOne, capacity)
    ensures Inv(Apply(s, DrainOne, capacity), capacity)
  {
    hide Subsequence, Overfull, Faithful, Concat;
    var t, next := Apply(s, DrainOne, capacity), s.phase.next;
    assert s.full[next..] == [s.full[next]] + s.full[next + 1..];
    assert t.full[next + 1..] == s.full[next + 1..];
    ConcatCons(s.full[next], s.full[next + 1..]);
    assert s.file + (s.full[next] + Concat(s.full[next + 1..]) + TextOf(s.current))
        == t.file + (Concat(t.full[next + 1..]) + TextOf(t.current));
    TotalKept(s, t);
  }

  lemma DrainLastKept(s: State, capacity: nat)
    requires Inv(s, capacity) && Enabled(s, DrainLast, capacity)
    ensures Inv(Apply(s, DrainLast, capacity), capacity)
  {
    hide Subsequence, Overfull, Faithful, Concat;
    var t := Apply(s, DrainLast, capacity);
    assert s.full[s.phase.next..] == [];
    NoTexts();
    assert "" + TextOf(s.current) == TextOf(s.current);
    assert t.file + "" == t.file;
    TotalKept(s, t);
  }

  lemma InvKept(s: State, a: Step, capacity: nat)
    requires Inv(s, capacity) && Enabled(s, a, capacity)
    ensures Inv(Apply(s, a, capacity), capacity)
  {
    hide Shape, Faithful;
    match a {
      case Append(line) => AppendKept(s, line, capacity);
      case Swap => SwapKept(s, capacity);
      case WriteOne => WriteKept(s, capacity);
      case Recycle => RecycleKept(s, capacity);
      case Leave => LeaveKept(s, capacity);
      case DrainOne => DrainOneKept(s, capacity);
      case DrainLast => DrainLastKept(s, capacity);
    }
  }

  lemma {:induction false} InvAlways(s: State, run: seq<Step>, capacity: nat)
    requires Inv(s, capacity) && Legal(s, run, capacity)
    ensures Inv(After(s, run, capacity), capacity)
    decreases |run|
  {
    hide Inv, Apply;
    if run != [] {
      InvKept(s, run[0], capacity);
      InvAlways(Apply(s, run[0], capacity), run[1..], capacity);
    }
  }

  lemma InvReachable(run: seq<Step>, capacity: nat)
    requires capacity > 0 && Legal(START, run, capacity)
    ensures Inv(After(START, run, capacity), capacity)
  {
    assert START.file + Outstanding(START) == "";
    assert Shape(START, capacity) && Faithful(START);
    InvAlways(START, run, capacity);
  }

  // ----------------------------------------------------------------------- theorems

  /** In every run, after the final drain everything appended has been written, in append
      order: at least the first writing of each byte. */
  lemma NothingLost(run: seq<Step>, capacity: nat)
    requires capacity > 0 && Legal(START, run, capacity) && After(START, run, capacity).phase.Stopped?
    ensures var s := After(START, run, capacity); Subsequence(s.appended, s.file)
  {
    InvReachable(run, capacity);
    var s := After(START, run, capacity);
    assert s.file + "" == s.file;
  }

  /** The files hold exactly what was appended if and only if every batch but the last had at
      most two buffers: what a larger batch leaves behind is written again. */
  lemma ExactlyOnceIff(run: seq<Step>, capacity: nat)
    requires capacity > 0 && Legal(START, run, capacity) && After(START, run, capacity).phase.Stopped?
    ensures var s := After(START, run, capacity); s.file == s.appended <==> !Overfull(s.batches)
  {
    InvReachable(run, capacity);
    var s := After(START, run, capacity);
    assert s.file + "" == s.file;
  }

  /** No run stops at a null buffer pointer. */
  lemma BuffersNeverMissing(run: seq<Step>, capacity: nat)
    requires capacity > 0 && Legal(START, run, capacity)
    ensures Ready(After(START, run, capacity))
  {
    InvReachable(run, capacity);
  }

  // ---------------------------------------------------------------- owning the buffers

  function Held(b: Option<string>): nat { if b.Some? then 1 else 0 }

  /** The buffers that exist: each is held by one pointer or one vector element. */
  function Buffers(s: State): nat {
    |s.full| + |s.active| + Held(s.current) + Held(s.spare) + Held(s.newCurrent) + Held(s.newSpare)
  }

  /** A full buffer is replaced by the spare one or a new one; the recycling takes up to two
      buffers from the batch and makes new ones where these are missing. */
  function Allocated(s: State, a: Step, capacity: nat): nat {
    if a.Append? then (if |TextOf(s.current)| + |a.line| >= capacity && s.spare.None? then 1 else 0)
    else if a.Recycle? && |s.active| < 2 then 2 - |s.active|
    else 0
  }

  /** The recycling overwrites two pointers, and with them the buffers they still hold. */
  function Freed(s: State, a: Step): nat {
    if a.Recycle? then Held(s.newCurrent) + Held(s.newSpare) else 0
  }

  /** Every buffer keeps exactly one owner: no step doubles or loses one, apart from those it
      allocates and those it frees. */
  lemma BuffersOwnedOnce(s: State, a: Step, capacity: nat)
    requires Inv(s, capacity) && Enabled(s, a, capacity)
    ensures Buffers(Apply(s, a, capacity)) + Freed(s, a) == Buffers(s) + Allocated(s, a, capacity)
  {
    hide Faithful;
  }

  /** After every swap an empty current and an empty spare buffer are ready, so the next buffer
      that fills up is replaced without an allocation. */
  lemma SwapRefillsBoth(run: seq<Step>, capacity: nat)
    requires capacity > 0 && Legal(START, run, capacity) && Enabled(After(START, run, capacity), Swap, capacity)
    ensures Ready(After(START, run, capacity))
    ensures var s := Apply(After(START, run, capacity), Swap, capacity); s.current == Some("") && s.spare == Some("")
  {
    InvReachable(run, capacity);
    hide Faithful;
  }

  // -------------------------------------------------------------------------- progress

  /** At any time before the final drain, also while a batch is being written, any line that is
      shorter than a buffer can be appended. */
  lemma AnyLineCanBeAppended(run: seq<Step>, line: string, capacity: nat)
    requires Legal(START, run, capacity) && |line| < capacity
    requires var s := After(START, run, capacity); s.phase == AtHead || s.phase.Writing?
    ensures Legal(START, run + [Append(line)], capacity)
    ensures After(START, run + [Append(line)], capacity).appended == After(START, run, capacity).appended + line
  {
    InvReachable(run, capacity);
    var s := After(START, run, capacity);
    hide Inv;
    hide Legal, After;
    OneAppend(s, line, capacity);
    ChainedRuns(START, run, [Append(line)], capacity);
  }

  lemma OneAppend(s: State, line: string, capacity: nat)
    requires Inv(s, capacity) && |line| < capacity && (s.phase == AtHead || s.phase.Writing?)
    ensures Legal(s, [Append(line)], capacity)
    ensures After(s, [Append(line)], capacity).appended == s.appended + line
  {
    hide Faithful;
    var t := Apply(s, Append(line), capacity);
    assert [Append(line)][1..] == [];
    assert Legal(t, [], capacity) && After(t, [], capacity) == t;
  }

  lemma ChainedRuns(s: State, run: seq<Step>, more: seq<Step>, capacity: nat)
    requires Legal(s, run, capacity) && Legal(After(s, run, capacity), more, capacity)
    ensures Legal(s, run + more, capacity)
    ensures After(s, run + more, capacity) == After(After(s, run, capacity), more, capacity)
  {
    var t := After(s, run, capacity);
    Chained(s, run, t, more, After(t, more, capacity), capacity);
  }

  /** Every run can go on until the logger has stopped; then `NothingLost` speaks. */
  lemma CanAlwaysStop(run: seq<Step>, capacity: nat) returns (more: seq<Step>)
    requires capacity > 0 && Legal(START, run, capacity)
    ensures Legal(START, run + more, capacity) && After(START, run + more, capacity).phase == Stopped
    ensures After(START, run + more, capacity).appended == After(START, run, capacity).appended
  {
    InvReachable(run, capacity);
    var s := After(START, run, capacity);
    hide Legal, After;
    more := StopFrom(s, capacity);
    ChainedRuns(START, run, more, capacity);
  }

  lemma StopFrom(s: State, capacity: nat) returns (run: seq<Step>)
    requires Inv(s, capacity)
    ensures Legal(s, run, capacity)
    ensures var t := After(s, run, capacity); t.phase == Stopped && t.appended == s.appended
  {
    match s.phase {
      case AtHead =>
        run := DrainFrom(s, capacity);
      case Writing(_) =>
        var turn, t := FinishWriting(s, capacity);
        var rest := DrainFrom(t, capacity);
        hide Inv, Legal, After, Apply;
        ChainedRuns(s, turn, rest, capacity);
        run := turn + rest;
      case Draining(next) =>
        DrainedIsARun(s, capacity);
        run := Repeated(DrainOne, |s.full| - next) + [DrainLast];
      case Stopped =>
        run := [];
    }
  }

  lemma FinishWriting(s: State, capacity: nat) returns (run: seq<Step>, t: State)
    requires Inv(s, capacity) && s.phase.Writing?
    ensures Leads(s, run, t, capacity) && Inv(t, capacity) && t.phase == AtHead && t.appended == s.appended
  {
    WrittenKeepsInv(s, capacity);
    WrittenIsARun(s, capacity);
    var first, mid := Repeated(WriteOne, |s.active| - s.phase.next), Written(s, capacity);
    RecycleKept(mid, capacity);
    t := Apply(mid, Recycle, capacity);
    hide Faithful, Legal, After, Concat;
    NothingMore(t, capacity);
    Preceded(mid, Recycle, [], t, capacity);
    assert [Recycle] + [] == [Recycle];
    Chained(s, first, mid, [Recycle], t, capacity);
    run := first + [Recycle];
  }

  lemma WrittenKeepsInv(s: State, capacity: nat)
    requires Inv(s, capacity) && s.phase.Writing?
    ensures Inv(Written(s, capacity), capacity)
  {
    WrittenIsARun(s, capacity);
    InvAlways(s, Repeated(WriteOne, |s.active| - s.phase.next), capacity);
  }

  lemma DrainFrom(s: State, capacity: nat) returns (run: seq<Step>)
    requires Inv(s, capacity) && s.phase == AtHead
    ensures Legal(s, run, capacity)
    ensures var t := After(s, run, capacity); t.phase == Stopped && t.appended == s.appended
  {
    var t := Apply(s, Leave, capacity);
    DrainedIsARun(t, capacity);
    var rest := Repeated(DrainOne, |t.full|) + [DrainLast];
    run := [Leave] + rest;
    Preceded(s, Leave, rest, After(t, rest, capacity), capacity);
  }

  // ------------------------------------------------------ a buffer that is written twice

  /** `run` leads from `s` to `t`. */
  predicate Leads(s: State, run: seq<Step>, t: State, capacity: nat) {
    Legal(s, run, capacity) && After(s, run, capacity) == t
  }

  /** One more step in front of a run. */
  lemma Preceded(s: State, a: Step, rest: seq<Step>, t: State, capacity: nat)
    requires Ready(s) && Enabled(s, a, capacity) && Leads(Apply(s, a, capacity), rest, t, capacity)
    ensures Leads(s, [a] + rest, t, capacity)
  {
    assert ([a] + rest)[0] == a && ([a] + rest)[1..] == rest;
  }

  /** A run may be continued. */
  lemma {:induction false} Chained(s: State, run: seq<Step>, t: State, more: seq<Step>, u: State, capacity: nat)
    requires Leads(s, run, t, capacity) && Leads(t, more, u, capacity)
    ensures Leads(s, run + more, u, capacity)
    decreases |run|
  {
    hide Apply;
    if run == [] {
      assert run + more == more;
    } else {
      assert (run + more)[0] == run[0] && (run + more)[1..] == run[1..] + more;
      Chained(Apply(s, run[0], capacity), run[1..], t, more, u, capacity);
    }
  }

  function Appends(lines: seq<string>): seq<Step> {
    if lines == [] then [] else [Append(lines[0])] + Appends(lines[1..])
  }

  /** The state with more text in the current buffer. */
  function Grown(s: State, text: string): State
    requires s.current.Some?
  {
    s.(current := Some(s.current.value + text), appended := s.appended + text)
  }

  /** Lines that all fit only make the current buffer grow. */
  lemma {:induction false} LinesFit(s: State, lines: seq<string>, capacity: nat)
    requires s.phase.AtHead? && Ready(s) && |s.current.value| + |Concat(lines)| < capacity
    ensures Leads(s, Appends(lines), Grown(s, Concat(lines)), capacity)
    decreases |lines|
  {
    if lines == [] {
      assert s.current.value + "" == s.current.value && s.appended + "" == s.appended;
    } else {
      var line, rest := lines[0], lines[1..];
      var t := Appended(s, line, capacity);
      LinesFit(t, rest, capacity);
      assert Grown(t, Concat(rest)) == Grown(s, Concat(lines)) by {
        assert s.current.value + line + Concat(rest) == s.current.value + (line + Concat(rest));
        assert s.appended + line + Concat(rest) == s.appended + (line + Concat(rest));
      }
      hide Legal, After;
      Preceded(s, Append(line), Appends(rest), Grown(t, Concat(rest)), capacity);
    }
  }

  /** The first line does not fit, but all of them fit an empty buffer: the full one joins the
      others, and the lines make up the new one. */
  lemma LinesOverflow(s: State, lines: seq<string>, capacity: nat)
    requires s.phase.AtHead? && Ready(s) && (s.spare.Some? ==> s.spare.value == "")
    requires lines != [] && |s.current.value| + |lines[0]| >= capacity && |Concat(lines)| < capacity
    ensures Leads(s, Appends(lines), Turned(s, Concat(lines)), capacity)
  {
    hide Leads;
    var line, rest := lines[0], lines[1..];
    var t := Appended(s, line, capacity);
    assert "" + line == line;
    assert Concat(lines) == line + Concat(rest) && Appends(lines) == [Append(line)] + Appends(rest);
    hide Concat, Appends;
    LinesFit(t, rest, capacity);
    assert Grown(t, Concat(rest)) == Turned(s, Concat(lines)) by {
      assert s.appended + line + Concat(rest) == s.appended + (line + Concat(rest));
    }
    Preceded(s, Append(line), Appends(rest), Grown(t, Concat(rest)), capacity);
  }

  /** The state with the full buffer put aside and new text in the current one. */
  function Turned(s: State, text: string): State
    requires s.current.Some?
  {
    s.(full := s.full + [s.current.value], current := Some(text), spare := None, appended := s.appended + text)
  }

  /** Three buffers' worth of text, the first two buffers full. */
  function ThreeBuffers(a: string, b: string, c: string): State {
    State(AtHead, Some(c), None, [a, b], [], Some(""), Some(""), "", a + b + c, [])
  }

  /** They have been written, and the first is left in the worker's batch. */
  function OneLeft(a: string, b: string, c: string): State {
    State(AtHead, Some(""), Some(""), [], [a], Some(""), Some(""), a + b + c, a + b + c, [3])
  }

  /** The logger has stopped, and the first buffer has been written again. */
  function WrittenTwice(a: string, b: string, c: string): State {
    State(Stopped, Some(""), Some(""), [""], [], Some(""), Some(""), a + b + c + a, a + b + c, [3, 1])
  }

  /** Lines, of any number, whose texts make up three buffers: each group fits a buffer, and
      the next group's first line does not fit what it leaves. */
  predicate FillThree(first: seq<string>, second: seq<string>, third: seq<string>, capacity: nat) {
    && second != [] && third != []
    && |Concat(first)| < capacity && |Concat(second)| < capacity && |Concat(third)| < capacity
    && |Concat(first)| + |second[0]| >= capacity && |Concat(second)| + |third[0]| >= capacity
  }

  function FillRun(first: seq<string>, second: seq<string>, third: seq<string>): seq<Step> {
    Appends(first) + Appends(second) + Appends(third)
  }

  lemma FillsThree(first: seq<string>, second: seq<string>, third: seq<string>, capacity: nat)
    requires FillThree(first, second, third, capacity)
    ensures Leads(START, FillRun(first, second, third), ThreeBuffers(Concat(first), Concat(second), Concat(third)), capacity)
  {
    hide Concat, Leads;
    var a, b, c := Concat(first), Concat(second), Concat(third);
    LinesFit(START, first, capacity);
    var s1 := Grown(START, a);
    assert "" + a == a;
    LinesOverflow(s1, second, capacity);
    var s2 := Turned(s1, b);
    LinesOverflow(s2, third, capacity);
    assert [a] + [b] == [a, b] && [] + [a] == [a];
    assert Turned(s2, c) == ThreeBuffers(a, b, c);
    Chained(START, Appends(first), s1, Appends(second), s2, capacity);
    Chained(START, Appends(first) + Appends(second), s2, Appends(third), Turned(s2, c), capacity);
  }

  /** A whole turn of the worker: the swap, the writing, the recycling. */
  function Turn(n: nat): seq<Step> { [Swap] + (Repeated(WriteOne, n) + [Recycle]) }

  lemma TurnIsARun(s: State, capacity: nat)
    requires Ready(s) && s.phase.AtHead?
    ensures var batch := s.full + [s.current.value];
      Leads(s, Turn(|batch|), Recycled(Swapped(s).(phase := Writing(|batch|), file := s.file + Concat(batch))), capacity)
  {
    hide Legal, After, Repeated, Concat;
    var s1 := Swapped(s);
    var n := |s1.active|;
    WrittenIsARun(s1, capacity);
    assert s1.active[0..] == s1.active;
    var s2 := s1.(phase := Writing(n), file := s.file + Concat(s1.active));
    assert Leads(s1, Repeated(WriteOne, n), s2, capacity);
    hide Leads;
    var s3 := Recycled(s2);
    NothingMore(s3, capacity);
    Preceded(s2, Recycle, [], s3, capacity);
    assert [Recycle] + [] == [Recycle];
    Chained(s1, Repeated(WriteOne, n), s2, [Recycle], s3, capacity);
    Preceded(s, Swap, Repeated(WriteOne, n) + [Recycle], s3, capacity);
  }

  /** The final drain, as a run. */
  function DrainRun(n: nat): seq<Step> { [Leave] + (Repeated(DrainOne, n) + [DrainLast]) }

  lemma WritesThree(a: string, b: string, c: string, capacity: nat)
    ensures Leads(ThreeBuffers(a, b, c), Turn(3), OneLeft(a, b, c), capacity)
  {
    hide Leads, Turn;
    TurnIsARun(ThreeBuffers(a, b, c), capacity);
    assert [a, b] + [c] == [a, b, c];
    assert [a, b, c][..1] == [a];
    ConcatThree(a, b, c);
    assert "" + (a + b + c) == a + b + c;
    var s1 := Swapped(ThreeBuffers(a, b, c)).(phase := Writing(3), file := a + b + c);
    assert s1.active == [a, b, c];
    assert s1 == State(Writing(3), Some(""), Some(""), [], [a, b, c], None, None, a + b + c, a + b + c, [3]);
    assert Recycled(s1) == OneLeft(a, b, c);
  }

  lemma ConcatThree(a: string, b: string, c: string)
    ensures Concat([a, b, c]) == a + b + c
  {
    assert [a, b, c] == [a] + [b, c];
    ConcatCons(a, [b, c]);
    ConcatPair(b, c);
  }

  lemma WritesAgain(a: string, b: string, c: string, capacity: nat)
    ensures Leads(OneLeft(a, b, c), Turn(1) + DrainRun(1), WrittenTwice(a, b, c), capacity)
  {
    hide Legal, After, Repeated;
    TurnIsARun(OneLeft(a, b, c), capacity);
    assert [] + [""] == [""] && Concat([""]) == "" && a + b + c + "" == a + b + c;
    var s1 := State(AtHead, Some(""), Some(""), [a], [], Some(""), Some(""), a + b + c, a + b + c, [3, 1]);
    var s2 := Apply(s1, Leave, capacity);
    DrainedIsARun(s2, capacity);
    DrainsTo(s2, a, capacity);
    assert Leads(s2, Repeated(DrainOne, 1) + [DrainLast], WrittenTwice(a, b, c), capacity);
    hide Leads, Turn;
    Preceded(s1, Leave, Repeated(DrainOne, 1) + [DrainLast], WrittenTwice(a, b, c), capacity);
    Chained(OneLeft(a, b, c), Turn(1), s1, DrainRun(1), WrittenTwice(a, b, c), capacity);
  }

  lemma DrainsTo(s: State, a: string, capacity: nat)
    requires s.phase == Draining(0) && s.full == [a] && s.current == Some("")
    ensures Drained(s, capacity) == s.(phase := Stopped, full := [""], file := s.file + a)
  {
    var t := Apply(s, DrainOne, capacity);
    assert Drained(t, capacity) == Apply(t, DrainLast, capacity);
    assert t.file + "" == t.file;
  }

  lemma NothingMore(s: State, capacity: nat)
    ensures Leads(s, [], s, capacity)
  {
  }

  /** For every buffer size: whatever lines fill three buffers before the worker's first swap,
      there is a run after which the first buffer has been written twice. */
  lemma FirstBufferTwice(first: seq<string>, second: seq<string>, third: seq<string>, capacity: nat) returns (run: seq<Step>)
    requires FillThree(first, second, third, capacity)
    ensures Legal(START, run, capacity)
    ensures var s := After(START, run, capacity); var a := Concat(first);
      && s.phase == Stopped && s.appended == a + Concat(second) + Concat(third)
      && s.file == s.appended + a && a != ""
  {
    var a, b, c := Concat(first), Concat(second), Concat(third);
    FillsThree(first, second, third, capacity);
    WritesThree(a, b, c, capacity);
    WritesAgain(a, b, c, capacity);
    var filling, last := FillRun(first, second, third), Turn(1) + DrainRun(1);
    FirstIsNotEmpty(first, second, third, capacity);
    hide Legal, After, Turn, DrainRun, Apply, Concat, FillRun;
    Chained(START, filling, ThreeBuffers(a, b, c), Turn(3), OneLeft(a, b, c), capacity);
    Chained(START, filling + Turn(3), OneLeft(a, b, c), last, WrittenTwice(a, b, c), capacity);
    run := filling + Turn(3) + last;
    assert Leads(START, run, WrittenTwice(a, b, c), capacity);
  }

  lemma FirstIsNotEmpty(first: seq<string>, second: seq<string>, third: seq<string>, capacity: nat)
    requires FillThree(first, second, third, capacity)
    ensures Concat(first) != ""
  {
    assert |Concat(second)| >= |second[0]|;
  }

  /** The size of the logger's buffers. */
  const LARGE_BUFFER_SIZE := 4096 * 1000

  function Copies(line: string, n: nat): seq<string> { seq(n, i => line) }

  lemma {:induction false} ConcatCopies(line: string, n: nat)
    ensures |Concat(Copies(line, n))| == n * |line|
  {
    if n > 0 {
      assert Copies(line, n)[1..] == Copies(line, n - 1);
      ConcatCopies(line, n - 1);
      assert n * |line| == |line| + (n - 1) * |line|;
    }
  }

  /** At the real size, with any line as long as the front end's own buffer allows: three
      thousand of them, logged before the worker wakes, are enough. */
  lemma WrittenTwiceAtFullSize(line: string) returns (run: seq<Step>)
    requires |line| == 4095
    ensures Legal(START, run, LARGE_BUFFER_SIZE)
    ensures var s := After(START, run, LARGE_BUFFER_SIZE);
      s.phase == Stopped && |s.appended| == 3000 * 4095 && |s.file| == 4000 * 4095
  {
    var lines := Copies(line, 1000);
    ConcatCopies(line, 1000);
    hide Concat, Legal, After;
    run := FirstBufferTwice(lines, lines, lines, LARGE_BUFFER_SIZE);
  }
}
