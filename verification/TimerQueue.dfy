/** The timer queue of an event loop: an ordered set of timers and one kernel timer that must
    be armed for the earliest of them, while callbacks add timers in the middle of a firing. */
module TimerQueues {
  import opened Times
  import opened Naturals

  /** Identity of a timer object. */
  type TimerId = nat

  datatype Timer = Timer(expire: int, interval: real) {
    predicate Repeats() { interval > 0.0 }
  }

  /** Set element: ordered by time, then by the address of the timer. */
  datatype Entry = Entry(at: int, id: TimerId)

  predicate Less(a: Entry, b: Entry) { a.at < b.at || (a.at == b.at && a.id < b.id) }

  /** The kernel timer: off, or expiring at `deadline`. It was set at `armedAt`, from a clock
      reading taken at `readAt`. It stays readable from its deadline until it is read. */
  datatype TimerFd = Off | Armed(deadline: int, readAt: int, armedAt: int)

  const MIN_WAIT := 100

  function Max(a: int, b: int): int { if a >= b then a else b }

  /** Not early for a timer due at `at`, and late by no more than the minimal wait and the
      time that passed between reading the clock and setting the timer. */
  predicate ArmedFor(fd: TimerFd, at: int) {
    fd.Armed? && at <= fd.deadline <= Max(at, fd.readAt + 100) + (fd.armedAt - fd.readAt)
  }

  predicate IsFirst(timers: set<Entry>, e: Entry) {
    e in timers && forall x :: x in timers ==> x == e || Less(e, x)
  }

  /** Ascending, hence without repetition. */
  predicate Ascending(es: seq<Entry>) {
    forall i, j :: 0 <= i < j < |es| ==> Less(es[i], es[j])
  }

  function Ids(es: seq<Entry>): (s: set<TimerId>)
    ensures forall i :: 0 <= i < |es| ==> es[i].id in s
  {
    set i | 0 <= i < |es| :: es[i].id
  }

  type Heap = map<TimerId, Timer>

  /** Each timer object is owned exactly once: by its entry in the set, under its current
      expiry, or by an entry of the batch that is being fired. */
  predicate Owned(timers: set<Entry>, heap: Heap, batch: seq<Entry>) {
    && (forall e :: e in timers ==> e.id in heap && heap[e.id].expire == e.at)
    && (forall e :: e in batch ==> e.id in heap && heap[e.id].expire == e.at && e !in timers)
    && (forall i, j :: 0 <= i < j < |batch| ==> batch[i].id != batch[j].id)
    && (forall id :: id in heap ==> Entry(heap[id].expire, id) in timers || Entry(heap[id].expire, id) in batch)
  }

  /** `born` records every timer ever created and whether it repeats. A one-shot timer that
      still exists has not run, except those in `fired`; one that is gone ran exactly once. */
  ghost predicate Counted(heap: Heap, born: map<TimerId, bool>, log: seq<TimerId>, fired: set<TimerId>) {
    && (forall id :: id in heap ==> id in born && born[id] == heap[id].Repeats())
    && (forall id :: id in born && !born[id] ==> multiset(log)[id] == if id !in heap || id in fired then 1 else 0)
    && (forall id: TimerId :: id !in born ==> id !in log)
  }

  /** The loop will be told in time for the earliest timer. */
  ghost predicate Punctual(timers: set<Entry>, fd: TimerFd) {
    forall e :: IsFirst(timers, e) ==> ArmedFor(fd, e.at)
  }

  predicate SetInThePast(fd: TimerFd, clock: int) {
    fd.Armed? ==> fd.readAt <= fd.armedAt <= clock
  }

  lemma AddKeepsOwned(timers: set<Entry>, heap: Heap, batch: seq<Entry>, id: TimerId, t: Timer)
    requires Owned(timers, heap, batch) && id !in heap
    ensures Owned(timers + {Entry(t.expire, id)}, heap[id := t], batch)
  {
  }

  lemma AddKeepsCounted(heap: Heap, born: map<TimerId, bool>, log: seq<TimerId>, fired: set<TimerId>, id: TimerId, t: Timer)
    requires Counted(heap, born, log, fired) && id !in born && fired <= heap.Keys
    ensures Counted(heap[id := t], born[id := t.Repeats()], log, fired)
  {
  }

  /** The kernel timer is set anew exactly when the new timer comes first. */
  lemma AddKeepsPunctual(timers: set<Entry>, e: Entry, before: TimerFd, after: TimerFd)
    requires Punctual(timers, before)
    requires if forall x :: x in timers ==> e.at < x.at then ArmedFor(after, e.at) else after == before
    ensures Punctual(timers + {e}, after)
  {
    if !(forall x :: x in timers ==> e.at < x.at) {
      var first := SomeFirst(timers);
      forall x | IsFirst(timers + {e}, x) ensures ArmedFor(after, x.at) {
        assert x.at == first.at;
      }
    }
  }

  /** A non-empty set has a first entry. */
  lemma {:induction false} SomeFirst(timers: set<Entry>) returns (first: Entry)
    requires timers != {}
    ensures IsFirst(timers, first)
    decreases timers
  {
    var e :| e in timers;
    if timers == {e} {
      first := e;
    } else {
      var other := SomeFirst(timers - {e});
      first := if Less(e, other) then e else other;
      forall x | x in timers ensures x == first || Less(first, x) {
        assert x == e || x in timers - {e};
      }
    }
  }

  class TimerQueue {
    var timers: set<Entry>
    /** The timer objects that exist. */
    var heap: map<TimerId, Timer>
    var fd: TimerFd
    /** The latest clock reading; readings never go back. */
    var clock: int
    /** Every timer ever created, with whether it repeats, and the runs of all timers so far. */
    var born: map<TimerId, bool>
    var log: seq<TimerId>

    ghost predicate Firing(batch: seq<Entry>, fired: set<TimerId>)
      reads this
    {
      Owned(timers, heap, batch) && Counted(heap, born, log, fired) && SetInThePast(fd, clock)
    }

    /** What holds whenever control is back in the loop. */
    ghost predicate Valid()
      reads this
    {
      Firing([], {}) && Punctual(timers, fd)
    }

    constructor ()
      ensures Valid() && timers == {} && heap == map[] && born == map[]
    {
      timers, heap, fd, clock, born, log := {}, map[], Off, 0, map[], [];
    }

    /** A reading of the monotonic clock. */
    method Now() returns (t: int)
      modifies this`clock
      ensures clock == t && t >= old(clock)
    {
      var passed: nat :| passed >= 0;
      clock := clock + passed;
      t := clock;
    }

    /** `*timers_.begin()`. */
    method Begin() returns (first: Entry)
      requires timers != {}
      ensures IsFirst(timers, first)
    {
      first :| first in timers;
      var rest := timers - {first};
      while rest != {}
        invariant rest <= timers && first in timers && first !in rest
        invariant forall x :: x in timers && x !in rest ==> x == first || Less(first, x)
        decreases rest
      {
        var e :| e in rest;
        if Less(e, first) {
          first := e;
        }
        rest := rest - {e};
      }
    }

    /** Sets the kernel timer for a timer that exists. */
    method ResetTimerFd(id: TimerId)
      requires id in heap
      modifies this`fd, this`clock
      ensures ArmedFor(fd, heap[id].expire) && fd.readAt <= fd.armedAt <= clock
      ensures old(clock) <= fd.readAt
    {
      var now := Now();
      var micros := heap[id].expire - now;
      if micros < MIN_WAIT {
        micros := MIN_WAIT;
      }
      var setAt := Now();
      fd := Armed(setAt + micros, now, setAt);
    }

    /** Enters a timer into the set, and tells whether it is now the earliest. */
    method Insert(id: TimerId) returns (resetInstantly: bool)
      requires id in heap && Entry(heap[id].expire, id) !in timers
      modifies this`timers
      ensures timers == old(timers) + {Entry(heap[id].expire, id)}
      ensures resetInstantly <==> forall e :: e in old(timers) ==> heap[id].expire < e.at
    {
      resetInstantly := false;
      if timers == {} {
        resetInstantly := true;
      } else {
        var first := Begin();
        if heap[id].expire < first.at {
          resetInstantly := true;
        }
      }
      timers := timers + {Entry(heap[id].expire, id)};
    }

    /** Reading takes an expiration if there is one. */
    method ReadTimerFd()
      requires SetInThePast(fd, clock)
      modifies this`fd
      ensures SetInThePast(fd, clock)
      ensures fd == if old(fd).Armed? && old(fd).deadline <= clock then Off else old(fd)
    {
      if fd.Armed? && fd.deadline <= clock {
        fd := Off;
      }
    }

    /** Moves the entries up to `now`, in order, out of the set. */
    method TakeDue(now: int) returns (due: seq<Entry>)
      modifies this`timers
      ensures Ascending(due)
      ensures forall e :: e in due <==> e in old(timers) && e.at <= now
      ensures timers == old(timers) - set e | e in due
    {
      due := [];
      while timers != {}
        invariant timers == old(timers) - set e | e in due
        invariant Ascending(due)
        invariant forall e :: e in due ==> e in old(timers) && e.at <= now
        invariant forall d, e :: d in due && e in timers ==> Less(d, e)
        invariant forall e :: e in old(timers) ==> e in due || e in timers
        decreases timers
      {
        var first := Begin();
        if first.at > now {
          assert forall e :: e in timers ==> e.at > now;
          break;
        }
        due := due + [first];
        timers := timers - {first};
      }
    }

    /** Adds a timer. It may be called while a batch is being fired; then the kernel timer may
        be out of step with the set, but what holds before still holds after. */
    method AddTimer(when: int, interval: real, ghost batch: seq<Entry>, ghost fired: set<TimerId>) returns (id: TimerId)
      requires Firing(batch, fired) && fired <= heap.Keys
      modifies this
      ensures Firing(batch, fired)
      ensures id !in old(born) && born == old(born)[id := interval > 0.0] && heap == old(heap)[id := Timer(when, interval)]
      ensures timers == old(timers) + {Entry(when, id)} && log == old(log) && clock >= old(clock)
      ensures old(Punctual(timers, fd)) ==> Punctual(timers, fd)
    {
      FreshNat(born.Keys);
      id :| id !in born;
      var timer := Timer(when, interval);
      AddKeepsOwned(timers, heap, batch, id, timer);
      AddKeepsCounted(heap, born, log, fired, id, timer);
      hide Owned, Counted, Punctual, IsFirst;
      assert Entry(when, id) !in timers by { NotEntered(timers, heap, batch, id, when); }
      heap := heap[id := timer];
      born := born[id := interval > 0.0];
      var resetInstantly := Insert(id);
      if resetInstantly {
        ResetTimerFd(id);
      }
      if old(Punctual(timers, fd)) {
        AddKeepsPunctual(old(timers), Entry(when, id), old(fd), fd);
      }
    }

    /** Runs one timer of the batch, which must have expired. Its callback may do anything,
        which for the queue means adding any number of timers. */
    method Run(e: Entry, ghost batch: seq<Entry>, ghost fired: set<TimerId>)
      requires Firing(batch, fired) && fired <= heap.Keys
      requires e in batch && e.id !in fired && heap[e.id].expire <= clock
      modifies this
      ensures Firing(batch, fired + {e.id}) && log == old(log) + [e.id]
      ensures OnlyAdded(old(timers), old(heap), old(born), timers, heap, born) && clock >= old(clock)
    {
      RunKeepsCounted(heap, born, log, fired, e.id);
      hide Owned, Counted, OnlyAdded;
      log := log + [e.id];
      ghost var timers0, heap0, born0, log1, clock0 := timers, heap, born, log, clock;
      NothingAdded(timers, heap, born);
      var more: nat :| more >= 0;
      while more > 0
        invariant Firing(batch, fired + {e.id}) && fired + {e.id} <= heap.Keys && log == log1
        invariant OnlyAdded(timers0, heap0, born0, timers, heap, born) && clock >= clock0
      {
        var when: int :| true;
        var interval: real :| true;
        ghost var timers1, heap1, born1 := timers, heap, born;
        var id := AddTimer(when, interval, batch, fired + {e.id});
        AddedOneMore(timers0, heap0, born0, timers1, heap1, born1, id, Timer(when, interval));
        more := more - 1;
      }
    }

    /** Restarts a repeating timer from the current time, and deletes a one-shot timer. */
    method Dispose(e: Entry, ghost rest: seq<Entry>)
      requires Firing([e] + rest, Ids([e] + rest))
      modifies this
      ensures Firing(rest, Ids(rest)) && old(timers) <= timers
      ensures log == old(log) && born == old(born) && clock >= old(clock)
      ensures e.id in old(heap) && if old(heap)[e.id].Repeats()
        then heap.Keys == old(heap).Keys && RestartedBetween(heap[e.id], old(clock), clock)
             && heap == old(heap)[e.id := old(heap)[e.id].(expire := heap[e.id].expire)]
        else heap == old(heap) - {e.id}
    {
      assert ([e] + rest)[0] == e;
      var timer := heap[e.id];
      if timer.Repeats() {
        var now := Now();
        var again := timer.(expire := AddSec(now, timer.interval));
        RestartKeeps(timers, heap, born, log, e, rest, again);
        heap := heap[e.id := again];
        var _ := Insert(e.id);
      } else {
        DeleteKeeps(timers, heap, born, log, e, rest);
        heap := heap - {e.id};
      }
    }

    /** Puts the repeating timers of the batch back, deletes the others, and sets the kernel
        timer for the earliest timer there is. */
    method ResetTimers(batch: seq<Entry>)
      requires Firing(batch, Ids(batch))
      modifies this
      ensures Valid() && log == old(log) && born == old(born) && clock >= old(clock)
      ensures old(timers) <= timers
      ensures Restarted(old(heap), heap, old(clock), clock, batch, |batch|)
    {
      hide Counted, Restarted, Punctual;
      RestartedNone(heap, clock, batch);
      ghost var timers0, heap0, born0, log0, clock0 := timers, heap, born, log, clock;
      assert batch[0..] == batch;
      for j := 0 to |batch|
        invariant Firing(batch[j..], Ids(batch[j..]))
        invariant log == log0 && born == born0 && clock >= clock0 && timers0 <= timers
        invariant Restarted(heap0, heap, clock0, clock, batch, j)
      {
        hide Owned;
        assert batch[j..] == [batch[j]] + batch[j + 1..];
        ghost var before, middle := heap, clock;
        Dispose(batch[j], batch[j + 1..]);
        RestartedOneMore(heap0, before, heap, clock0, middle, clock, batch, j);
      }
      assert batch[|batch|..] == [] && Ids([]) == {};
      ghost var disposed := clock;
      SetForFirst();
      RestartedLater(heap0, heap, clock0, disposed, clock, batch);
    }

    /** The end of `ResetTimers`: the kernel timer is set for the earliest timer. */
    method SetForFirst()
      requires Firing([], {})
      modifies this`fd, this`clock
      ensures Valid() && clock >= old(clock)
    {
      hide Counted;
      if timers != {} {
        var first := Begin();
        ResetTimerFd(first.id);
        FirstIsUnique(timers, first);
      }
    }

    /** Runs every timer of the batch, in order. */
    method RunAll(due: seq<Entry>)
      requires Firing(due, {}) && forall e :: e in due ==> e.at <= clock
      modifies this
      ensures Firing(due, Ids(due)) && clock >= old(clock)
      ensures log == old(log) + IdsInOrder(due)
      ensures OnlyAdded(old(timers), old(heap), old(born), timers, heap, born)
    {
      hide Counted, OnlyAdded, Owned;
      ghost var timers0, heap0, born0, log0, clock0 := timers, heap, born, log, clock;
      NothingAdded(timers, heap, born);
      assert due[..0] == [] && log + IdsInOrder([]) == log;
      assert Ids(due[..0]) == {};
      for i := 0 to |due|
        invariant Firing(due, Ids(due[..i])) && clock >= clock0
        invariant OnlyAdded(timers0, heap0, born0, timers, heap, born)
        invariant log == log0 + IdsInOrder(due[..i])
      {
        ghost var timers1, heap1, born1 := timers, heap, born;
        NextToRun(timers, heap, due, i);
        Run(due[i], due, Ids(due[..i]));
        OnlyAddedTwice(timers0, heap0, born0, timers1, heap1, born1, timers, heap, born);
        assert log == log0 + (IdsInOrder(due[..i]) + [due[i].id]);
      }
      assert due[..|due|] == due;
    }

    /** The kernel timer was reported readable. Every timer due at the clock reading runs, once
        and in order; the one-shot ones are deleted, the repeating ones restarted; timers that
        are not due stay as they are; and afterwards the kernel timer is set in time for the
        earliest timer, whatever the callbacks added in between. */
    method HandleRead() returns (now: int, due: seq<Entry>)
      requires Valid()
      modifies this
      ensures Valid()
      ensures old(clock) <= now <= clock
      ensures Ascending(due) && forall e :: e in due <==> e in old(timers) && e.at <= now
      ensures log == old(log) + IdsInOrder(due)
      ensures forall e :: e in old(timers) && e.at > now ==> e in timers
      ensures Disposed(old(heap), old(born), heap, due, now, clock)
      ensures old(fd).Armed? && old(fd).deadline <= old(clock) && old(timers) != {} ==> due != []
    {
      hide Owned, Counted, Punctual, Restarted, Disposed, Ascending;
      ghost var heap0, born0 := heap, born;
      now, due := CollectDue();
      ghost var later := timers;
      RunAll(due);
      ghost var timers2, heap2, born2, since := timers, heap, born, clock;
      ResetTimers(due);
      AllDisposed(heap0, born0, timers2, heap2, born2, heap, later, due, now, since, clock);
    }

    /** The first part of `HandleRead`: the due timers move from the set to the batch. */
    method CollectDue() returns (now: int, due: seq<Entry>)
      requires Valid()
      modifies this
      ensures Firing(due, {}) && heap == old(heap) && born == old(born) && log == old(log)
      ensures old(clock) <= now == clock
      ensures Ascending(due) && forall e :: e in due <==> e in old(timers) && e.at <= now
      ensures forall e :: e in due ==> e.id in heap
      ensures timers == old(timers) - set e | e in due
      ensures old(fd).Armed? && old(fd).deadline <= old(clock) && old(timers) != {} ==> due != []
    {
      hide Counted;
      ghost var timers0 := timers;
      if fd.Armed? && fd.deadline <= clock && timers != {} {
        ghost var first := SomeFirst(timers);
        assert first.at <= clock;
      }
      ReadTimerFd();
      now := Now();
      due := TakeDue(now);
      DueOwned(timers0, heap, timers, due);
    }
  }

  lemma FirstIsUnique(timers: set<Entry>, first: Entry)
    requires IsFirst(timers, first)
    ensures forall e :: IsFirst(timers, e) ==> e == first
  {
  }

  /** Timers were added; those that were there are untouched. */
  predicate OnlyAdded(timers: set<Entry>, heap: Heap, born: map<TimerId, bool>, timers': set<Entry>, heap': Heap, born': map<TimerId, bool>) {
    && timers <= timers' && heap.Keys <= heap'.Keys && born.Keys <= born'.Keys
    && (forall id :: id in heap ==> heap'[id] == heap[id])
    && (forall id :: id in born ==> born'[id] == born[id])
    && (forall id :: id in heap' ==> id in heap || id !in born)
  }

  lemma NothingAdded(timers: set<Entry>, heap: Heap, born: map<TimerId, bool>)
    ensures OnlyAdded(timers, heap, born, timers, heap, born)
  {
  }

  lemma AddedOneMore(timers: set<Entry>, heap: Heap, born: map<TimerId, bool>,
                     timers': set<Entry>, heap': Heap, born': map<TimerId, bool>, id: TimerId, t: Timer)
    requires OnlyAdded(timers, heap, born, timers', heap', born') && id !in born' && id !in heap'
    ensures OnlyAdded(timers, heap, born, timers' + {Entry(t.expire, id)}, heap'[id := t], born'[id := t.Repeats()])
  {
  }

  lemma OnlyAddedTwice(t0: set<Entry>, h0: Heap, b0: map<TimerId, bool>, t1: set<Entry>, h1: Heap, b1: map<TimerId, bool>,
                       t2: set<Entry>, h2: Heap, b2: map<TimerId, bool>)
    requires OnlyAdded(t0, h0, b0, t1, h1, b1) && OnlyAdded(t1, h1, b1, t2, h2, b2)
    ensures OnlyAdded(t0, h0, b0, t2, h2, b2)
  {
  }

  function IdsInOrder(es: seq<Entry>): (s: seq<TimerId>)
    ensures |s| == |es| && forall i :: 0 <= i < |es| ==> s[i] == es[i].id
  {
    seq(|es|, i requires 0 <= i < |es| => es[i].id)
  }

  /** The timer expires one interval after some moment between two clock readings. */
  predicate RestartedBetween(t: Timer, since: int, until: int) {
    AddSec(since, t.interval) <= t.expire <= AddSec(until, t.interval)
  }

  /** The first `n` timers of the batch have been disposed of, between two clock readings. */
  ghost predicate Restarted(before: Heap, after: Heap, since: int, until: int, batch: seq<Entry>, n: nat)
    requires n <= |batch|
  {
    && (forall id :: id in after <==> id in before && (id in Ids(batch[..n]) ==> before[id].Repeats()))
    && (forall id :: id in after && id !in Ids(batch[..n]) ==> after[id] == before[id])
    && (forall id :: id in after && id in Ids(batch[..n]) ==>
          after[id].interval == before[id].interval && RestartedBetween(after[id], since, until))
  }

  lemma RestartedNone(heap: Heap, clock: int, batch: seq<Entry>)
    ensures Restarted(heap, heap, clock, clock, batch, 0)
  {
  }

  lemma RestartedLater(before: Heap, after: Heap, since: int, until: int, later: int, batch: seq<Entry>)
    requires Restarted(before, after, since, until, batch, |batch|) && until <= later
    ensures Restarted(before, after, since, later, batch, |batch|)
  {
  }

  lemma RestartedOneMore(before: Heap, middle: Heap, after: Heap, since: int, until: int, later: int, batch: seq<Entry>, n: nat)
    requires n < |batch| && Restarted(before, middle, since, until, batch, n) && since <= until <= later
    requires forall i, j :: 0 <= i < j < |batch| ==> batch[i].id != batch[j].id
    requires batch[n].id in middle
    requires if middle[batch[n].id].Repeats()
      then batch[n].id in after && after == middle[batch[n].id := middle[batch[n].id].(expire := after[batch[n].id].expire)]
           && RestartedBetween(after[batch[n].id], until, later)
      else after == middle - {batch[n].id}
    ensures Restarted(before, after, since, later, batch, n + 1)
  {
    OneMoreId(batch, n);
    assert batch[n].id !in Ids(batch[..n]);
  }

  lemma OneMoreId(batch: seq<Entry>, n: nat)
    requires n < |batch|
    ensures Ids(batch[..n + 1]) == Ids(batch[..n]) + {batch[n].id}
  {
    var front, whole := batch[..n], batch[..n + 1];
    assert whole == front + [batch[n]];
    forall i | 0 <= i < n ensures front[i].id in Ids(whole) {
      assert whole[i] == front[i];
    }
    assert whole[n].id in Ids(whole);
  }

  lemma RestartKeeps(timers: set<Entry>, heap: Heap, born: map<TimerId, bool>, log: seq<TimerId>, e: Entry, rest: seq<Entry>, again: Timer)
    requires Owned(timers, heap, [e] + rest) && Counted(heap, born, log, Ids([e] + rest))
    requires e.id in heap && heap[e.id].Repeats() && again.Repeats()
    ensures Entry(again.expire, e.id) !in timers
    ensures Owned(timers + {Entry(again.expire, e.id)}, heap[e.id := again], rest)
    ensures Counted(heap[e.id := again], born, log, Ids(rest))
  {
    FirstOfBatch(e, rest);
  }

  lemma DeleteKeeps(timers: set<Entry>, heap: Heap, born: map<TimerId, bool>, log: seq<TimerId>, e: Entry, rest: seq<Entry>)
    requires Owned(timers, heap, [e] + rest) && Counted(heap, born, log, Ids([e] + rest))
    requires e.id in heap && !heap[e.id].Repeats()
    ensures Owned(timers, heap - {e.id}, rest)
    ensures Counted(heap - {e.id}, born, log, Ids(rest))
  {
    FirstOfBatch(e, rest);
  }

  lemma FirstOfBatch(e: Entry, rest: seq<Entry>)
    ensures Ids([e] + rest) == {e.id} + Ids(rest)
    ensures ([e] + rest)[0] == e && forall i :: 0 <= i < |rest| ==> ([e] + rest)[i + 1] == rest[i]
    ensures forall x :: x in rest ==> x in [e] + rest
  {
    var all := [e] + rest;
    forall i | 0 <= i < |rest| ensures rest[i].id in Ids(all) {
      assert all[i + 1] == rest[i];
    }
    assert all[0].id in Ids(all);
  }

  lemma RunKeepsCounted(heap: Heap, born: map<TimerId, bool>, log: seq<TimerId>, fired: set<TimerId>, id: TimerId)
    requires Counted(heap, born, log, fired) && id in heap && id !in fired
    ensures Counted(heap, born, log + [id], fired + {id})
  {
  }

  lemma NotEntered(timers: set<Entry>, heap: Heap, batch: seq<Entry>, id: TimerId, at: int)
    requires Owned(timers, heap, batch) && id !in heap
    ensures Entry(at, id) !in timers
  {
  }

  // ------------------------------------------------------------------ one firing

  /** Moving the due entries from the set to the batch moves their ownership. */
  lemma DueOwned(timers: set<Entry>, heap: Heap, later: set<Entry>, due: seq<Entry>)
    requires Owned(timers, heap, []) && Ascending(due)
    requires forall e :: e in due ==> e in timers
    requires later == timers - set e | e in due
    ensures Owned(later, heap, due)
  {
    forall i, j | 0 <= i < j < |due| ensures due[i].id != due[j].id {
      assert due[i] in timers && due[j] in timers && Less(due[i], due[j]);
    }
  }

  /** The next timer of the batch still exists, unchanged, and has not run in this firing. */
  lemma NextToRun(t1: set<Entry>, h1: Heap, due: seq<Entry>, i: nat)
    requires i < |due| && Owned(t1, h1, due)
    ensures due[i].id in h1 && h1[due[i].id].expire == due[i].at
    ensures due[i].id !in Ids(due[..i]) && Ids(due[..i]) <= h1.Keys
    ensures Ids(due[..i + 1]) == Ids(due[..i]) + {due[i].id}
    ensures IdsInOrder(due[..i + 1]) == IdsInOrder(due[..i]) + [due[i].id]
  {
    assert due[i] in due;
    OneMoreId(due, i);
    forall id | id in Ids(due[..i]) ensures id in h1 {
      var k :| 0 <= k < i && due[k].id == id;
      assert due[k] in due;
    }
  }

  /** After a firing: a due timer that repeats is there again, its interval after some moment
      between the clock reading that made it due and the end of the firing; a due one-shot timer
      is gone; any other timer is untouched; anything else is new. */
  ghost predicate Disposed(before: Heap, bornBefore: map<TimerId, bool>, after: Heap, due: seq<Entry>, now: int, end: int) {
    && (forall e :: e in due ==> e.id in before && (e.id in after <==> before[e.id].Repeats()))
    && (forall e :: e in due && e.id in after ==>
          after[e.id].interval == before[e.id].interval && RestartedBetween(after[e.id], now, end))
    && (forall id :: id in before && id !in Ids(due) ==> id in after && after[id] == before[id])
    && (forall id :: id in after && id !in before ==> id !in bornBefore)
  }

  lemma AllDisposed(h0: Heap, b0: map<TimerId, bool>, t1: set<Entry>, h1: Heap, b1: map<TimerId, bool>, h2: Heap,
                    t0: set<Entry>, due: seq<Entry>, now: int, since: int, end: int)
    requires OnlyAdded(t0, h0, b0, t1, h1, b1) && now <= since
    requires Restarted(h1, h2, since, end, due, |due|)
    requires forall e :: e in due ==> e.id in h0
    ensures Disposed(h0, b0, h2, due, now, end)
  {
    assert due[..|due|] == due;
    forall e | e in due ensures e.id in Ids(due) {
      var i :| 0 <= i < |due| && due[i] == e;
    }
  }

  // --------------------------------------------------------------------- whole runs

  datatype Use = Add(when: int, interval: real) | Fire | Wait

  /** Over any sequence of additions, firings (timely, late or spurious) and waits, the queue is
      valid each time control is back in the loop: the kernel timer is set in time for the
      earliest timer, and each one-shot timer has run exactly once if it is gone and not at
      all if it still exists. */
  method Drive(uses: seq<Use>) returns (q: TimerQueue)
    ensures fresh(q) && q.Valid()
    ensures forall e :: IsFirst(q.timers, e) ==> ArmedFor(q.fd, e.at)
    ensures forall id :: id in q.born && !q.born[id] ==> multiset(q.log)[id] == if id in q.heap then 0 else 1
  {
    q := new TimerQueue();
    for i := 0 to |uses|
      invariant fresh(q) && q.Valid()
    {
      match uses[i] {
        case Add(when, interval) =>
          var _ := q.AddTimer(when, interval, [], {});
        case Fire =>
          var _, _ := q.HandleRead();
        case Wait =>
          var _ := q.Now();
      }
    }
  }
}
