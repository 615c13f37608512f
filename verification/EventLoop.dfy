/** The queue of functions of an event loop and the descriptor that wakes it. Any number of threads
    queue tasks while the loop polls, handles events and runs its batch. Queueing is two
    separate actions, the push under the lock and the decision to write the wake-up. */
module EventLoops {

  /** A queued function, by identity. */
  type Task = nat

  /** Thread 0 is the one that runs the loop. */
  type Thread = nat

  const OWNER: Thread := 0

  /** Where the loop is: about to block, handling the reported channels (the wake-up channel
      among them or not), or inside the batch after its functors were swapped out. */
  datatype Phase = Polling | Handling(wakeReady: bool) | Swapping | Running(next: nat)

  datatype State = State(
    phase: Phase,
    toDo: seq<Task>,
    batch: seq<Task>,
    calling: bool,
    counter: nat,
    midPush: set<Thread>,
    pushed: seq<Task>,
    executed: seq<Task>)

  const START := State(Polling, [], [], false, 0, {}, [], [])

  datatype Step =
    | Push(thread: Thread, task: Task)
    | Wake(thread: Thread)
    | PollReturns(otherReady: bool)
    | ReadWakeup
    | BeginFunctors
    | SwapFunctors
    | RunFunctor
    | EndFunctors

  /** Which actions the code can take next. The owner queues only from an event handler or
      from a running functor, and finishes queueing before it does anything else. */
  predicate Enabled(s: State, a: Step) {
    match a
    case Push(t, _) => t !in s.midPush && (t == OWNER ==> s.phase.Handling? || (s.phase.Running? && s.phase.next > 0))
    case Wake(t) => t in s.midPush
    case PollReturns(otherReady) => s.phase.Polling? && (s.counter > 0 || otherReady)
    case ReadWakeup => s.phase == Handling(true) && OWNER !in s.midPush
    case BeginFunctors => s.phase == Handling(false) && OWNER !in s.midPush
    case SwapFunctors => s.phase.Swapping?
    case RunFunctor => s.phase.Running? && s.phase.next < |s.batch| && OWNER !in s.midPush
    case EndFunctors => s.phase.Running? && s.phase.next == |s.batch| && OWNER !in s.midPush
  }

  function Apply(s: State, a: Step): State
    requires Enabled(s, a)
  {
    match a
    case Push(t, task) => s.(toDo := s.toDo + [task], pushed := s.pushed + [task], midPush := s.midPush + {t})
    case Wake(t) =>
      s.(counter := if t != OWNER || s.calling then s.counter + 1 else s.counter, midPush := s.midPush - {t})
    case PollReturns(_) => s.(phase := Handling(s.counter > 0))
    case ReadWakeup => s.(phase := Handling(false), counter := 0)
    case BeginFunctors => s.(phase := Swapping, calling := true)
    case SwapFunctors => s.(phase := Running(0), batch := s.toDo, toDo := [])
    case RunFunctor => s.(phase := Running(s.phase.next + 1), executed := s.executed + [s.batch[s.phase.next]])
    case EndFunctors => s.(phase := Polling, batch := [], calling := false)
  }

  // -------------------------------------------------------------------- all runs

  predicate Legal(s: State, run: seq<Step>)
    decreases |run|
  {
    run == [] || (Enabled(s, run[0]) && Legal(Apply(s, run[0]), run[1..]))
  }

  function After(s: State, run: seq<Step>): State
    requires Legal(s, run)
    decreases |run|
  {
    if run == [] then s else After(Apply(s, run[0]), run[1..])
  }

  function InFlight(s: State): seq<Task> {
    if s.phase.Running? && s.phase.next <= |s.batch| then s.batch[s.phase.next..] else []
  }

  /** The loop must not sleep on a queued task unless a wake-up is there or on its way. */
  predicate WakeupPending(s: State) {
    s.toDo != [] ==> s.counter > 0 || s.midPush != {}
  }

  predicate Inv(s: State) {
    && (s.calling <==> s.phase.Swapping? || s.phase.Running?)
    && (OWNER in s.midPush ==> s.phase.Handling? || s.phase.Running?)
    && (s.phase == Handling(true) ==> s.counter > 0)
    && (s.phase.Running? ==> s.phase.next <= |s.batch|)
    && (s.phase.Polling? || s.phase.Running? ==> WakeupPending(s))
    && s.pushed == s.executed + InFlight(s) + s.toDo
  }

  lemma InvKept(s: State, a: Step)
    requires Inv(s) && Enabled(s, a)
    ensures Inv(Apply(s, a))
  {
    var s' := Apply(s, a);
    match a {
      case Push(t, task) =>
        assert t in s'.midPush;
        assert s'.executed + InFlight(s') + s'.toDo == (s.executed + InFlight(s) + s.toDo) + [task];
      case Wake(t) =>
      case PollReturns(_) =>
      case ReadWakeup =>
      case BeginFunctors =>
      case SwapFunctors =>
        assert s.toDo[0..] == s.toDo;
        assert s.executed + [] + s.toDo == s.executed + s.toDo + [];
      case RunFunctor =>
        var next := s.phase.next;
        assert s.batch[next..] == [s.batch[next]] + s.batch[next + 1..];
        assert s.executed + s.batch[next..] == (s.executed + [s.batch[next]]) + s.batch[next + 1..];
      case EndFunctors =>
        assert s.batch[s.phase.next..] == [];
    }
  }

  lemma {:induction false} InvAlways(s: State, run: seq<Step>)
    requires Inv(s) && Legal(s, run)
    ensures Inv(After(s, run))
    decreases |run|
  {
    if run != [] {
      InvKept(s, run[0]);
      InvAlways(Apply(s, run[0]), run[1..]);
    }
  }

  /** In every run: whenever the loop is about to block with a task queued, the descriptor is
      readable or another thread is between its push and its write. Hence a loop that stays
      blocked, with no thread in the middle of queueing, has nothing to do. */
  lemma NoLostWakeup(run: seq<Step>)
    requires Legal(START, run)
    ensures var s := After(START, run);
      && (s.phase.Polling? && s.toDo != [] ==> s.counter > 0 || exists t :: t in s.midPush && t != OWNER)
      && (s.phase.Polling? && s.counter == 0 && s.midPush == {} ==> s.toDo == [])
  {
    InvAlways(START, run);
    var s := After(START, run);
    if s.midPush != {} {
      var t :| t in s.midPush;
    }
  }

  /** In every run: the tasks executed, then the rest of the batch, then the queue are the
      pushed tasks in push order. So each runs at most once, and none overtakes another. */
  lemma GlobalPushOrder(run: seq<Step>)
    requires Legal(START, run)
    ensures var s := After(START, run);
      && s.pushed == s.executed + InFlight(s) + s.toDo
      && s.executed == s.pushed[..|s.executed|]
  {
    InvAlways(START, run);
    var s := After(START, run);
    assert s.pushed == s.executed + (InFlight(s) + s.toDo);
  }

  /** In every run the wake-up handler reads a non-empty counter, as it asserts. */
  lemma WakeupReadSucceeds(run: seq<Step>)
    requires Legal(START, run)
    ensures Enabled(After(START, run), ReadWakeup) ==> After(START, run).counter > 0
  {
    InvAlways(START, run);
  }

  /** A wake-up is enough: once the descriptor is readable the poll returns by itself, and the
      loop's own next actions turn everything queued so far into the running batch. */
  lemma WakeupDrains(run: seq<Step>)
    requires Legal(START, run)
    requires After(START, run).phase.Polling? && After(START, run).counter > 0
    ensures var s := After(START, run);
      var turn := [PollReturns(false), ReadWakeup, BeginFunctors, SwapFunctors];
      && Legal(s, turn)
      && After(s, turn).batch == s.toDo && After(s, turn).phase == Running(0)
  {
    InvAlways(START, run);
    var s := After(START, run);
    var s1 := Apply(s, PollReturns(false));
    var s2 := Apply(s1, ReadWakeup);
    var s3 := Apply(s2, BeginFunctors);
    var s4 := Apply(s3, SwapFunctors);
    assert Legal(s4, []) && After(s4, []) == s4;
    assert [SwapFunctors][1..] == [];
    assert Legal(s3, [SwapFunctors]) && After(s3, [SwapFunctors]) == s4;
    assert [BeginFunctors, SwapFunctors][1..] == [SwapFunctors];
    assert Legal(s2, [BeginFunctors, SwapFunctors]) && After(s2, [BeginFunctors, SwapFunctors]) == s4;
    assert [ReadWakeup, BeginFunctors, SwapFunctors][1..] == [BeginFunctors, SwapFunctors];
    assert Legal(s1, [ReadWakeup, BeginFunctors, SwapFunctors]) && After(s1, [ReadWakeup, BeginFunctors, SwapFunctors]) == s4;
    assert [PollReturns(false), ReadWakeup, BeginFunctors, SwapFunctors][1..] == [ReadWakeup, BeginFunctors, SwapFunctors];
  }

  // ------------------------------------------------------------------ the loop object

  lemma {:induction false} OneMoreStep(s: State, run: seq<Step>, a: Step)
    requires Legal(s, run) && Enabled(After(s, run), a)
    ensures Legal(s, run + [a]) && After(s, run + [a]) == Apply(After(s, run), a)
    decreases |run|
  {
    hide Apply, Enabled;
    if run == [] {
      assert run + [a] == [a] && [a][1..] == [];
      assert Legal(Apply(s, a), []) && After(Apply(s, a), []) == Apply(s, a);
    } else {
      assert (run + [a])[0] == run[0] && (run + [a])[1..] == run[1..] + [a];
      OneMoreStep(Apply(s, run[0]), run[1..], a);
    }
  }

  /** The tasks the loop's own thread has pushed, in order. */
  function OwnPushed(run: seq<Step>): seq<Task> {
    if run == [] then []
    else
      var last := run[|run| - 1];
      OwnPushed(run[..|run| - 1]) + if last.Push? && last.thread == OWNER then [last.task] else []
  }

  /** How often other threads have written the wake-up. */
  function OtherWakes(run: seq<Step>): nat {
    if run == [] then 0
    else
      var last := run[|run| - 1];
      OtherWakes(run[..|run| - 1]) + if last.Wake? && last.thread != OWNER then 1 else 0
  }

  lemma LastStep(run: seq<Step>, a: Step)
    ensures OwnPushed(run + [a]) == OwnPushed(run) + if a.Push? && a.thread == OWNER then [a.task] else []
    ensures OtherWakes(run + [a]) == OtherWakes(run) + if a.Wake? && a.thread != OWNER then 1 else 0
  {
    assert (run + [a])[..|run|] == run;
  }

  /** What a functor queues on its own loop while it runs. */
  type Effects = Task -> seq<Task>

  function AllEffects(tasks: seq<Task>, effects: Effects): seq<Task> {
    if tasks == [] then []
    else AllEffects(tasks[..|tasks| - 1], effects) + effects(tasks[|tasks| - 1])
  }

  lemma EffectsOfOneMore(tasks: seq<Task>, i: nat, effects: Effects)
    requires i < |tasks|
    ensures AllEffects(tasks[..i + 1], effects) == AllEffects(tasks[..i], effects) + effects(tasks[i])
  {
    assert tasks[..i + 1][..i] == tasks[..i];
  }

  class EventLoop {
    var toDoList: seq<Task>
    var callingFunctors: bool
    var wakeupCounter: nat
    /** The functions swapped out for the turn. */
    var functors: seq<Task>
    /** The queued functions run so far, and those run at once, oldest first. */
    var executed: seq<Task>
    var ranAtOnce: seq<Task>
    /** Where the loop is, and which threads are between a push and its wake-up. */
    var phase: Phase
    var midPush: set<Thread>
    ghost var pushed: seq<Task>
    /** Everything that has happened to the loop, as steps of the machine. */
    ghost var history: seq<Step>

    ghost function View(): State
      reads this
    {
      State(phase, toDoList, functors, callingFunctors, wakeupCounter, midPush, pushed, executed)
    }

    /** The object is where its history leads: what holds of all runs holds of it. */
    ghost predicate Valid()
      reads this
    {
      Legal(START, history) && After(START, history) == View()
    }

    constructor ()
      ensures Valid() && View() == START && history == [] && ranAtOnce == []
    {
      toDoList, callingFunctors, wakeupCounter, functors, executed, ranAtOnce := [], false, 0, [], [], [];
      phase, midPush, pushed, history := Polling, {}, [], [];
    }

    /** The push under the lock. */
    method Push(thread: Thread, task: Task)
      requires Valid() && Enabled(View(), Step.Push(thread, task))
      modifies this
      ensures Valid() && View() == Apply(old(View()), Step.Push(thread, task))
      ensures history == old(history) + [Step.Push(thread, task)] && ranAtOnce == old(ranAtOnce)
    {
      OneMoreStep(START, history, Step.Push(thread, task));
      hide Legal, After;
      toDoList := toDoList + [task];
      pushed, midPush := pushed + [task], midPush + {thread};
      history := history + [Step.Push(thread, task)];
    }

    /** The wake-up is written by other threads, and by the loop's own functors. */
    method WriteWakeup(thread: Thread)
      requires Valid() && Enabled(View(), Wake(thread))
      modifies this
      ensures Valid() && View() == Apply(old(View()), Wake(thread))
      ensures history == old(history) + [Wake(thread)] && ranAtOnce == old(ranAtOnce)
    {
      OneMoreStep(START, history, Wake(thread));
      hide Legal, After;
      if thread != OWNER || callingFunctors {
        wakeupCounter := wakeupCounter + 1;
      }
      midPush := midPush - {thread};
      history := history + [Wake(thread)];
    }

    /** What the others may do leaves the loop's own part alone. */
    twostate predicate OnlyQueued(thread: Thread)
      reads this
    {
      && phase == old(phase) && functors == old(functors) && callingFunctors == old(callingFunctors)
      && executed == old(executed) && ranAtOnce == old(ranAtOnce)
      && (OWNER in midPush <==> OWNER in old(midPush)) && (thread in midPush <==> thread in old(midPush))
      && old(toDoList) <= toDoList && old(history) <= history
    }

    /** Any number of pushes and wake-up writes of other threads, in any order. */
    method OthersMove(thread: Thread)
      requires Valid()
      modifies this
      ensures Valid() && OnlyQueued(thread)
      ensures OwnPushed(history) == OwnPushed(old(history))
      ensures wakeupCounter - old(wakeupCounter) == OtherWakes(history) - OtherWakes(old(history))
    {
      hide Legal, After, OwnPushed, OtherWakes;
      var moves: nat :| true;
      while moves > 0
        invariant Valid() && OnlyQueued(thread)
        invariant OwnPushed(history) == OwnPushed(old(history))
        invariant wakeupCounter - old(wakeupCounter) == OtherWakes(history) - OtherWakes(old(history))
      {
        var other: Thread, task: Task :| true;
        if other != OWNER && other != thread {
          ghost var before := history;
          if other in midPush {
            WriteWakeup(other);
            LastStep(before, Wake(other));
          } else {
            Push(other, task);
            LastStep(before, Step.Push(other, task));
          }
        }
        moves := moves - 1;
      }
    }

    /** The function goes to the end of the queue, and then the wake-up is written if it has
        to be; others may move between the two. */
    method QueueOneFunc(task: Task, thread: Thread)
      requires Valid() && Enabled(View(), Step.Push(thread, task))
      modifies this
      ensures Valid() && OnlyQueued(thread)
      ensures old(toDoList) + [task] <= toDoList
      ensures OwnPushed(history) == OwnPushed(old(history)) + if thread == OWNER then [task] else []
      ensures wakeupCounter - old(wakeupCounter)
           == OtherWakes(history) - OtherWakes(old(history)) + if thread == OWNER && callingFunctors then 1 else 0
    {
      hide Legal, After, OwnPushed, OtherWakes;
      ghost var before := history;
      Push(thread, task);
      LastStep(before, Step.Push(thread, task));
      OthersMove(thread);
      before := history;
      WriteWakeup(thread);
      LastStep(before, Wake(thread));
    }

    method RunOneFunc(task: Task, thread: Thread)
      requires Valid() && (thread != OWNER ==> thread !in midPush)
      modifies this
      ensures Valid()
      ensures thread == OWNER ==> ranAtOnce == old(ranAtOnce) + [task] && View() == old(View()) && history == old(history)
      ensures thread != OWNER ==> OnlyQueued(thread) && old(toDoList) + [task] <= toDoList
                                  && OtherWakes(history) - OtherWakes(old(history)) == wakeupCounter - old(wakeupCounter)
    {
      hide Legal, After, OwnPushed, OtherWakes;
      if thread == OWNER {
        ranAtOnce := ranAtOnce + [task];
      } else {
        QueueOneFunc(task, thread);
      }
    }

    /** A step of the loop's own that changes no queue. */
    ghost method Record(a: Step)
      requires Legal(START, history) && Enabled(After(START, history), a)
      requires View() == Apply(After(START, history), a)
      requires !a.Push? && !a.Wake?
      modifies this`history
      ensures Valid() && history == old(history) + [a]
      ensures OwnPushed(history) == OwnPushed(old(history)) && OtherWakes(history) == OtherWakes(old(history))
    {
      OneMoreStep(START, history, a);
      LastStep(history, a);
      history := history + [a];
    }

    /** Runs the next function of the batch, which may queue others on its own loop. */
    method RunFunctor(i: nat, effects: Effects)
      requires Valid() && phase == Running(i) && i < |functors| && callingFunctors && OWNER !in midPush
      modifies this
      ensures Valid() && phase == Running(i + 1) && functors == old(functors) && callingFunctors && OWNER !in midPush
      ensures executed == old(executed) + [functors[i]] && ranAtOnce == old(ranAtOnce)
      ensures old(toDoList) <= toDoList && old(history) <= history
      ensures OwnPushed(history) == OwnPushed(old(history)) + effects(functors[i])
      ensures wakeupCounter - old(wakeupCounter)
           == OtherWakes(history) - OtherWakes(old(history)) + |effects(functors[i])|
    {
      hide Legal, After, OwnPushed, OtherWakes;
      executed := executed + [functors[i]];
      phase := Running(i + 1);
      Record(Step.RunFunctor);
      var queued := effects(functors[i]);
      ghost var start, own := history, OwnPushed(history);
      for j := 0 to |queued|
        invariant Valid() && phase == Running(i + 1) && functors == old(functors) && callingFunctors
        invariant OWNER !in midPush && executed == old(executed) + [functors[i]] && ranAtOnce == old(ranAtOnce)
        invariant old(toDoList) <= toDoList && start <= history
        invariant OwnPushed(history) == own + queued[..j]
        invariant wakeupCounter - old(wakeupCounter) == OtherWakes(history) - OtherWakes(start) + j
      {
        QueueOneFunc(queued[j], OWNER);
        assert queued[..j + 1] == queued[..j] + [queued[j]];
      }
      assert queued[..|queued|] == queued;
    }

    method SwapFunctors()
      requires Valid() && phase.Swapping? && callingFunctors && OWNER !in midPush
      modifies this
      ensures Valid() && phase == Running(0) && functors == old(toDoList) && toDoList == []
      ensures callingFunctors && OWNER !in midPush && history == old(history) + [Step.SwapFunctors]
      ensures executed == old(executed) && ranAtOnce == old(ranAtOnce) && wakeupCounter == old(wakeupCounter)
      ensures OwnPushed(history) == OwnPushed(old(history)) && OtherWakes(history) == OtherWakes(old(history))
    {
      hide Legal, After, OwnPushed, OtherWakes;
      functors, toDoList := toDoList, [];
      phase := Running(0);
      Record(Step.SwapFunctors);
    }

    /** The loop over the functions swapped out. */
    method RunBatch(effects: Effects)
      requires Valid() && phase == Running(0) && callingFunctors && OWNER !in midPush
      modifies this
      ensures Valid() && phase == Running(|functors|) && functors == old(functors) && callingFunctors && OWNER !in midPush
      ensures executed == old(executed) + functors && ranAtOnce == old(ranAtOnce)
      ensures old(history) <= history
      ensures OwnPushed(history) == OwnPushed(old(history)) + AllEffects(functors, effects)
      ensures wakeupCounter - old(wakeupCounter)
           == OtherWakes(history) - OtherWakes(old(history)) + |AllEffects(functors, effects)|
    {
      hide Legal, After, OwnPushed, OtherWakes;
      ghost var batch, own, wakes, counter := functors, OwnPushed(history), OtherWakes(history), wakeupCounter;
      assert batch[..0] == [];
      for i := 0 to |functors|
        invariant Valid() && phase == Running(i) && functors == batch && callingFunctors && OWNER !in midPush
        invariant executed == old(executed) + batch[..i] && ranAtOnce == old(ranAtOnce) && old(history) <= history
        invariant OwnPushed(history) == own + AllEffects(batch[..i], effects)
        invariant wakeupCounter - counter == OtherWakes(history) - wakes + |AllEffects(batch[..i], effects)|
      {
        hide AllEffects, EventLoop.Valid;
        OthersMove(OWNER);
        RunFunctor(i, effects);
        EffectsOfOneMore(batch, i, effects);
      }
      assert batch[..|batch|] == batch;
    }

    method BeginFunctors()
      requires Valid() && phase == Handling(false) && OWNER !in midPush
      modifies this
      ensures Valid() && phase.Swapping? && callingFunctors && OWNER !in midPush
      ensures toDoList == old(toDoList) && executed == old(executed) && ranAtOnce == old(ranAtOnce)
      ensures wakeupCounter == old(wakeupCounter) && history == old(history) + [Step.BeginFunctors]
      ensures OwnPushed(history) == OwnPushed(old(history)) && OtherWakes(history) == OtherWakes(old(history))
    {
      hide Legal, After, OwnPushed, OtherWakes;
      callingFunctors := true;
      phase := Swapping;
      Record(Step.BeginFunctors);
    }

    method EndFunctors()
      requires Valid() && phase == Running(|functors|) && OWNER !in midPush
      modifies this
      ensures Valid() && phase.Polling? && !callingFunctors && OWNER !in midPush
      ensures toDoList == old(toDoList) && executed == old(executed) && ranAtOnce == old(ranAtOnce)
      ensures wakeupCounter == old(wakeupCounter) && history == old(history) + [Step.EndFunctors]
      ensures pushed == executed + toDoList && (toDoList != [] ==> wakeupCounter > 0 || midPush != {})
      ensures OwnPushed(history) == OwnPushed(old(history)) && OtherWakes(history) == OtherWakes(old(history))
    {
      hide Legal, After, OwnPushed, OtherWakes;
      callingFunctors := false;
      functors := [];
      phase := Polling;
      Record(Step.EndFunctors);
      AllAccounted(history);
      NoLostWakeup(history);
    }

    /** Runs exactly the functions queued before the swap, in order, while other threads push.
        What the functions queue themselves stays for the next turn, with one wake-up each; and
        the next poll does not block on anything queued, whoever queued it. */
    method DoToDoList(effects: Effects) returns (ran: seq<Task>)
      requires Valid() && phase == Handling(false) && OWNER !in midPush
      modifies this
      ensures Valid() && phase.Polling? && !callingFunctors && OWNER !in midPush
      ensures executed == old(executed) + ran && old(toDoList) <= ran && ranAtOnce == old(ranAtOnce)
      ensures pushed == executed + toDoList && old(history) <= history
      ensures toDoList != [] ==> wakeupCounter > 0 || midPush != {}
      ensures OwnPushed(history) == OwnPushed(old(history)) + AllEffects(ran, effects)
      ensures wakeupCounter - old(wakeupCounter)
           == OtherWakes(history) - OtherWakes(old(history)) + |AllEffects(ran, effects)|
    {
      hide OwnPushed, OtherWakes, AllEffects, EventLoop.Valid;
      BeginFunctors();
      OthersMove(OWNER);
      SwapFunctors();
      ran := functors;
      RunBatch(effects);
      EndFunctors();
    }

    /** The wake-up channel's handler: the read succeeds, as the source asserts. */
    method HandleRead()
      requires Valid() && phase == Handling(true) && OWNER !in midPush
      modifies this
      ensures Valid() && old(wakeupCounter) > 0 && wakeupCounter == 0
      ensures View() == Apply(old(View()), ReadWakeup) && history == old(history) + [ReadWakeup]
    {
      WakeupReadSucceeds(history);
      wakeupCounter := 0;
      phase := Handling(false);
      Record(ReadWakeup);
    }

    /** One turn of `Loop`: the poll returns, the handlers run, of which some queue functions on
        their own loop, and then the batch. Whatever was queued before, and whatever the handlers
        queue without any wake-up, runs in this turn. */
    method Turn(otherReady: bool, handlers: seq<Task>, effects: Effects) returns (ran: seq<Task>)
      requires Valid() && Enabled(View(), PollReturns(otherReady)) && OWNER !in midPush
      modifies this
      ensures Valid() && phase.Polling? && !callingFunctors && OWNER !in midPush
      ensures executed == old(executed) + ran && old(toDoList) <= ran
      ensures forall h :: h in handlers ==> h in ran
      ensures pushed == executed + toDoList && (toDoList != [] ==> wakeupCounter > 0 || midPush != {})
    {
      hide Legal, After, OwnPushed, OtherWakes;
      phase := Handling(wakeupCounter > 0);
      Record(PollReturns(otherReady));
      OthersMove(OWNER);
      if phase.wakeReady {
        HandleRead();
      }
      for j := 0 to |handlers|
        invariant Valid() && phase == Handling(false) && OWNER !in midPush && executed == old(executed)
        invariant old(toDoList) <= toDoList && forall k :: 0 <= k < j ==> handlers[k] in toDoList
      {
        ghost var before := toDoList;
        QueueOneFunc(handlers[j], OWNER);
        assert toDoList[..|before| + 1] == before + [handlers[j]];
        assert toDoList[|before|] == handlers[j] && forall x :: x in before ==> x in toDoList[..|before| + 1];
      }
      ran := DoToDoList(effects);
    }
  }

  /** With no batch in progress, every task pushed has run or is queued. */
  lemma AllAccounted(run: seq<Step>)
    requires Legal(START, run) && After(START, run).phase.Polling?
    ensures var s := After(START, run); s.pushed == s.executed + s.toDo
  {
    GlobalPushOrder(run);
    var s := After(START, run);
    assert s.executed + [] == s.executed;
  }
}
