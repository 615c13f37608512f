/** Closing idle connections: each connection carries a chain of one-shot checks, each of
    which closes it or starts the next one. */
module IdleClose {
  import opened Times

  /** `pending` holds the deadlines of the checks that have been started and not yet run.
      `ended` is set by the check that closed the connection or found its object gone. */
  datatype State = State(
    alive: bool,
    connected: bool,
    act: int,
    pending: multiset<int>,
    ended: bool,
    start: int,
    now: int)

  /** A check that was due at `deadline` runs at `at`; if it starts the next one, that one is
      timed from a clock reading at `again`. */
  datatype Event =
    | Message(at: int)
    | OtherClose(at: int)
    | Gone(at: int)
    | Check(deadline: int, at: int, again: int)

  /** A connection accepted at time `start`: nothing received, the first check started. */
  function Accepted(start: int, timeout: real): State {
    State(true, true, 0, multiset{AddSec(start, timeout)}, false, start, start)
  }

  /** Time does not go back, a timer never runs early, and an object dies only when closed. */
  predicate Possible(s: State, e: Event) {
    && s.now <= e.at
    && match e
       case Gone(_) => !s.connected
       case Check(deadline, at, again) => deadline in s.pending && deadline <= at <= again
       case _ => true
  }

  predicate Expired(s: State, timeout: real, at: int) { AddSec(s.act, timeout) < at }

  function Next(s: State, timeout: real, e: Event): State
    requires Possible(s, e)
  {
    match e
    case Message(at) => s.(act := if s.connected then at else s.act, now := at)
    case OtherClose(at) => s.(connected := false, now := at)
    case Gone(at) => s.(alive := false, now := at)
    case Check(deadline, at, again) =>
      var rest := s.pending - multiset{deadline};
      if !s.alive then s.(pending := rest, ended := true, now := at)
      else if Expired(s, timeout, at) then s.(connected := false, pending := rest, ended := true, now := at)
      else s.(pending := rest + multiset{AddSec(again, timeout)}, now := again)
  }

  predicate Legal(s: State, timeout: real, run: seq<Event>)
    decreases |run|
  {
    run == [] || (Possible(s, run[0]) && Legal(Next(s, timeout, run[0]), timeout, run[1..]))
  }

  function After(s: State, timeout: real, run: seq<Event>): State
    requires Legal(s, timeout, run)
    decreases |run|
  {
    if run == [] then s else After(Next(s, timeout, run[0]), timeout, run[1..])
  }

  // ------------------------------------------------------------------ one pending check

  /** The chain ends only with the connection, and an object goes only when closed. */
  predicate OneCheck(s: State) {
    && |s.pending| == (if s.ended then 0 else 1)
    && (s.ended || !s.alive ==> !s.connected)
  }

  lemma {:induction false} OneCheckAlways(s: State, timeout: real, run: seq<Event>)
    requires OneCheck(s) && Legal(s, timeout, run)
    ensures OneCheck(After(s, timeout, run))
    decreases |run|
  {
    if run != [] {
      OneCheckAlways(Next(s, timeout, run[0]), timeout, run[1..]);
    }
  }

  /** In every run a connection has exactly one pending check, until a check closes it or
      finds its object gone, and none from then on. */
  lemma ExactlyOnePendingCheck(start: int, timeout: real, run: seq<Event>)
    requires Legal(Accepted(start, timeout), timeout, run)
    ensures var s := After(Accepted(start, timeout), timeout, run);
      |s.pending| == (if s.ended then 0 else 1) && (s.ended ==> !s.connected)
  {
    OneCheckAlways(Accepted(start, timeout), timeout, run);
  }

  // --------------------------------------------------------------------- never too early

  predicate ActIsPast(s: State) { s.act <= s.now }

  /** The check at `i` of the run is the one that closes the connection. */
  predicate ClosesAt(s: State, timeout: real, run: seq<Event>, i: nat)
    requires Legal(s, timeout, run) && i < |run|
    decreases |run|
  {
    if i == 0 then run[0].Check? && s.alive && s.connected && !Next(s, timeout, run[0]).connected
    else ClosesAt(Next(s, timeout, run[0]), timeout, run[1..], i - 1)
  }

  /** Whether the event at `i` records activity: a message on an open connection. */
  predicate RecordsAt(s: State, timeout: real, run: seq<Event>, i: nat)
    requires Legal(s, timeout, run) && i < |run|
    decreases |run|
  {
    if i == 0 then run[0].Message? && s.connected
    else RecordsAt(Next(s, timeout, run[0]), timeout, run[1..], i - 1)
  }

  /** Recorded activity only moves forward, so a closing check looks past all of it. */
  lemma {:induction false} ClosingIsLate(s: State, timeout: real, run: seq<Event>, i: nat)
    requires ActIsPast(s) && Legal(s, timeout, run) && i < |run| && ClosesAt(s, timeout, run, i)
    ensures AddSec(s.act, timeout) < run[i].at
    decreases |run|
  {
    if i > 0 {
      ActOnlyGrows(s, timeout, run[0]);
      hide Next, Possible;
      ClosingIsLate(Next(s, timeout, run[0]), timeout, run[1..], i - 1);
    }
  }

  lemma ActOnlyGrows(s: State, timeout: real, e: Event)
    requires ActIsPast(s) && Possible(s, e)
    ensures var t := Next(s, timeout, e); s.act <= t.act && ActIsPast(t)
    ensures e.Message? && s.connected ==> Next(s, timeout, e).act == e.at
  {
  }

  /** A check never closes a connection within the timeout of any activity recorded before. */
  lemma {:induction false} NeverClosedWithinTimeout(s: State, timeout: real, run: seq<Event>, i: nat, j: nat)
    requires ActIsPast(s) && Legal(s, timeout, run)
    requires i < j < |run| && RecordsAt(s, timeout, run, i) && ClosesAt(s, timeout, run, j)
    ensures AddSec(run[i].at, timeout) < run[j].at
    decreases |run|
  {
    var s' := Next(s, timeout, run[0]);
    ActOnlyGrows(s, timeout, run[0]);
    hide Next, Possible;
    if i == 0 {
      ClosingIsLate(s', timeout, run[1..], j - 1);
    } else {
      NeverClosedWithinTimeout(s', timeout, run[1..], i - 1, j - 1);
    }
  }

  /** Every pending check is due at `time` or later. */
  predicate NoneBefore(s: State, time: int) { forall d :: d in s.pending ==> d >= time }

  lemma {:induction false} ChecksWait(s: State, timeout: real, run: seq<Event>, j: nat, time: int)
    requires NoneBefore(s, time) && timeout >= 0.0 && time <= AddSec(s.now, timeout)
    requires Legal(s, timeout, run) && j < |run| && run[j].Check?
    ensures time <= run[j].at
    decreases |run|
  {
    if j > 0 {
      ChecksWait(Next(s, timeout, run[0]), timeout, run[1..], j - 1, time);
    }
  }

  /** No check runs, and so none closes the connection, before one timeout has passed since the
      connection was accepted, whether or not anything was received. */
  lemma FirstCheckWaits(start: int, timeout: real, run: seq<Event>, j: nat)
    requires timeout >= 0.0 && Legal(Accepted(start, timeout), timeout, run) && j < |run| && run[j].Check?
    ensures AddSec(start, timeout) <= run[j].at
  {
    ChecksWait(Accepted(start, timeout), timeout, run, j, AddSec(start, timeout));
  }

  lemma {:induction false} ClosesByCheck(s: State, timeout: real, run: seq<Event>, j: nat)
    requires Legal(s, timeout, run) && j < |run| && ClosesAt(s, timeout, run, j)
    ensures run[j].Check?
    decreases |run|
  {
    if j > 0 {
      ClosesByCheck(Next(s, timeout, run[0]), timeout, run[1..], j - 1);
    }
  }

  lemma NeverClosedWhenNew(start: int, timeout: real, run: seq<Event>, j: nat)
    requires timeout >= 0.0 && Legal(Accepted(start, timeout), timeout, run) && j < |run|
    requires ClosesAt(Accepted(start, timeout), timeout, run, j)
    ensures AddSec(start, timeout) <= run[j].at
  {
    ClosesByCheck(Accepted(start, timeout), timeout, run, j);
    FirstCheckWaits(start, timeout, run, j);
  }

  /** Two checks of a connection are at least one timeout apart. */
  lemma {:induction false} ChecksApart(s: State, timeout: real, run: seq<Event>, i: nat, j: nat)
    requires OneCheck(s) && timeout >= 0.0 && Legal(s, timeout, run) && i < j < |run| && run[i].Check? && run[j].Check?
    ensures AddSec(run[i].at, timeout) <= run[j].at
    decreases |run|
  {
    var s' := Next(s, timeout, run[0]);
    NextKeepsOneCheck(s, timeout, run[0]);
    if i == 0 {
      NextCheckIsLate(s, timeout, run[0]);
      hide Next, Possible;
      ChecksWait(s', timeout, run[1..], j - 1, AddSec(run[0].at, timeout));
    } else {
      hide Next, Possible;
      ChecksApart(s', timeout, run[1..], i - 1, j - 1);
    }
  }

  lemma NextKeepsOneCheck(s: State, timeout: real, e: Event)
    requires OneCheck(s) && Possible(s, e)
    ensures OneCheck(Next(s, timeout, e))
  {
  }

  lemma NextCheckIsLate(s: State, timeout: real, e: Event)
    requires OneCheck(s) && Possible(s, e) && e.Check? && timeout >= 0.0
    ensures var t := Next(s, timeout, e); NoneBefore(t, AddSec(e.at, timeout)) && AddSec(e.at, timeout) <= AddSec(t.now, timeout)
  {
    assert |s.pending - multiset{e.deadline}| == |s.pending| - 1;
  }

  /** Without a pending check none runs any more. */
  lemma {:induction false} NoneFollows(s: State, timeout: real, run: seq<Event>, j: nat)
    requires s.pending == multiset{} && Legal(s, timeout, run) && j < |run|
    ensures !run[j].Check?
    decreases |run|
  {
    if j > 0 {
      assert !run[0].Check?;
      NoneFollows(Next(s, timeout, run[0]), timeout, run[1..], j - 1);
    }
  }

  /** Once the object is gone, at most one more check runs: it finds that, and starts no other. */
  lemma {:induction false} OneCheckAfterGone(s: State, timeout: real, run: seq<Event>, i: nat, j: nat, k: nat)
    requires OneCheck(s) && Legal(s, timeout, run) && i < j < k < |run| && run[i].Gone? && run[j].Check?
    ensures !run[k].Check?
    decreases |run|
  {
    NextKeepsOneCheck(s, timeout, run[0]);
    if i == 0 {
      GoneStays(Next(s, timeout, run[0]), timeout, run[1..], j - 1, k - 1);
    } else {
      OneCheckAfterGone(Next(s, timeout, run[0]), timeout, run[1..], i - 1, j - 1, k - 1);
    }
  }

  lemma {:induction false} GoneStays(s: State, timeout: real, run: seq<Event>, j: nat, k: nat)
    requires OneCheck(s) && !s.alive && Legal(s, timeout, run) && j < k < |run| && run[j].Check?
    ensures !run[k].Check?
    decreases |run|
  {
    NextKeepsOneCheck(s, timeout, run[0]);
    if j == 0 {
      assert |s.pending - multiset{run[0].deadline}| == |s.pending| - 1;
      NoneFollows(Next(s, timeout, run[0]), timeout, run[1..], k - 1);
    } else {
      GoneStays(Next(s, timeout, run[0]), timeout, run[1..], j - 1, k - 1);
    }
  }

  lemma ClosingEndsChain(s: State, timeout: real, e: Event)
    requires OneCheck(s) && Possible(s, e) && e.Check? && s.connected && !Next(s, timeout, e).connected
    ensures Next(s, timeout, e).pending == multiset{}
  {
    assert |s.pending - multiset{e.deadline}| == |s.pending| - 1;
  }

  /** Once a check has closed the connection, none runs any more. */
  lemma {:induction false} NoCheckAfterClosing(s: State, timeout: real, run: seq<Event>, j: nat, k: nat)
    requires OneCheck(s) && Legal(s, timeout, run) && j < k < |run| && ClosesAt(s, timeout, run, j)
    ensures !run[k].Check?
    decreases |run|
  {
    hide Next, Possible, OneCheck;
    NextKeepsOneCheck(s, timeout, run[0]);
    if j == 0 {
      ClosingEndsChain(s, timeout, run[0]);
      NoneFollows(Next(s, timeout, run[0]), timeout, run[1..], k - 1);
    } else {
      NoCheckAfterClosing(Next(s, timeout, run[0]), timeout, run[1..], j - 1, k - 1);
    }
  }

  // --------------------------------------------------------------------- never too late

  /** No check runs more than `lag` after its deadline, and the next one is timed at most
      `lag` after the check ran. With `lag` zero the timers are exact. */
  predicate Timely(s: State, timeout: real, run: seq<Event>, lag: nat)
    requires Legal(s, timeout, run)
    decreases |run|
  {
    run == [] ||
    (&& (forall d :: d in s.pending ==> run[0].at <= d + lag)
     && (run[0].Check? ==> run[0].again <= run[0].at + lag)
     && Timely(Next(s, timeout, run[0]), timeout, run[1..], lag))
  }

  function LastSign(s: State): int { if s.act >= s.start then s.act else s.start }

  /** The pending check comes at most two timeouts after the last sign of life. */
  predicate CheckIsNear(s: State, timeout: real, lag: nat) {
    !s.ended ==> forall d :: d in s.pending ==> d <= LastSign(s) + 2 * Micros(timeout) + lag
  }

  lemma NearKept(s: State, timeout: real, lag: nat, e: Event)
    requires Possible(s, e) && timeout > 0.0 && ActIsPast(s) && CheckIsNear(s, timeout, lag)
    requires e.Check? ==> e.again <= e.at + lag
    ensures CheckIsNear(Next(s, timeout, e), timeout, lag) && ActIsPast(Next(s, timeout, e))
  {
    var s' := Next(s, timeout, e);
    forall d | d in s'.pending && !s'.ended ensures d <= LastSign(s') + 2 * Micros(timeout) + lag {
      assert LastSign(s) <= LastSign(s');
      if e.Check? {
        assert e.at <= s.act + Micros(timeout);
        assert d in s.pending || d == AddSec(e.again, timeout);
      }
    }
  }

  lemma NonEmptyHasElement(m: multiset<int>)
    ensures |m| > 0 ==> exists d :: d in m
  {
    if forall d :: d !in m {
      assert m == multiset{};
    }
  }

  /** While no check has ended the chain, the clock is at most two timeouts past the last
      activity (or the opening), give or take the lag of the timers. So a connection whose
      last recorded activity was at `a` has been closed by a check before any event later
      than `a` plus two timeouts, when the timers are exact. */
  lemma {:induction false} ClosedWithinTwoTimeouts(s: State, timeout: real, run: seq<Event>, lag: nat, last: Event)
    requires OneCheck(s) && ActIsPast(s) && timeout > 0.0 && CheckIsNear(s, timeout, lag)
    requires Legal(s, timeout, run + [last]) && Timely(s, timeout, run + [last], lag)
    ensures Legal(s, timeout, run)
    ensures var before := After(s, timeout, run);
      !before.ended ==> last.at <= LastSign(before) + 2 * Micros(timeout) + 2 * lag
    decreases |run|
  {
    if run == [] {
      assert [] + [last] == [last];
      if !s.ended {
        NonEmptyHasElement(s.pending);
        var d :| d in s.pending;
        assert last.at <= d + lag;
      }
    } else {
      var e := run[0];
      assert (run + [last])[0] == e && (run + [last])[1..] == run[1..] + [last];
      NearKept(s, timeout, lag, e);
      ClosedWithinTwoTimeouts(Next(s, timeout, e), timeout, run[1..], lag, last);
    }
  }

  /** In every run with timers late by at most `lag`: a connection that is still open when
      something happens at time `last.at` showed its last activity (or was accepted) at most
      two timeouts and twice the lag before. With exact timers, one silent since `a` is closed
      no later than `a` plus two timeouts. */
  lemma IdleConnectionIsClosed(start: int, timeout: real, run: seq<Event>, lag: nat, last: Event)
    requires timeout > 0.0 && start >= 0
    requires Legal(Accepted(start, timeout), timeout, run + [last])
    requires Timely(Accepted(start, timeout), timeout, run + [last], lag)
    ensures Legal(Accepted(start, timeout), timeout, run)
    ensures var before := After(Accepted(start, timeout), timeout, run);
      before.connected ==> last.at <= LastSign(before) + 2 * Micros(timeout) + 2 * lag
  {
    AcceptedIsNear(start, timeout, lag);
    ClosedWithinTwoTimeouts(Accepted(start, timeout), timeout, run, lag, last);
    OneCheckAlways(Accepted(start, timeout), timeout, run);
  }

  /** A freshly accepted connection meets what the bound assumes. */
  lemma AcceptedIsNear(start: int, timeout: real, lag: nat)
    requires timeout > 0.0 && start >= 0
    ensures var s := Accepted(start, timeout); OneCheck(s) && ActIsPast(s) && CheckIsNear(s, timeout, lag)
  {
  }

  /** The first check after the timeout has run out closes the connection, whatever happened
      before; one that comes in time starts exactly one other. */
  lemma CheckDecides(s: State, timeout: real, e: Event)
    requires Possible(s, e) && e.Check? && s.alive && OneCheck(s)
    ensures var s' := Next(s, timeout, e);
      && (AddSec(s.act, timeout) < e.at ==> !s'.connected && s'.pending == multiset{})
      && (e.at <= AddSec(s.act, timeout) ==> s'.connected == s.connected && s'.pending == multiset{AddSec(e.again, timeout)})
  {
    assert |s.pending - multiset{e.deadline}| == |s.pending| - 1;
  }
}
