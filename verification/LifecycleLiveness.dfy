/** What the loops can always still do: run what has been queued, settle, and close and destroy
    every connection. */
module LifecycleLiveness {
  import opened Naturals
  import opened Lifecycle
  import opened LifecycleInvariant
  import opened LifecycleSafety

  /** `run` leads from `s` to `t`. */
  predicate Leads(s: State, run: seq<Step>, t: State) { Legal(s, run) && After(s, run) == t }

  lemma {:induction false} Chained(s: State, run: seq<Step>, t: State, more: seq<Step>, u: State)
    requires Leads(s, run, t) && Leads(t, more, u)
    ensures Leads(s, run + more, u)
    decreases |run|
  {
    hide Apply, Enabled, Defined;
    if run == [] {
      assert run + more == more;
    } else {
      assert (run + more)[0] == run[0] && (run + more)[1..] == run[1..] + more;
      Chained(Apply(s, run[0]), run[1..], t, more, u);
    }
  }

  /** An enabled action of a state that keeps the invariant is a run of one step. */
  lemma OneStep(s: State, a: Step)
    requires Inv(s) && MAIN in s.loops && Enabled(s, a)
    ensures Defined(s, a) && Leads(s, [a], Apply(s, a)) && Inv(Apply(s, a))
  {
    hide Inv, Core, Enabled, Defined, Apply;
    InvHasCore(s);
    EnabledIsDefined(s, a);
    InvKept(s, a);
    assert [a][1..] == [];
    assert Legal(Apply(s, a), []) && After(Apply(s, a), []) == Apply(s, a);
  }

  lemma InvHasCore(s: State)
    requires Inv(s)
    ensures Core(s) && MAIN in s.loops
  {
  }

  /** The function has had its effect: an erased connection left the map for good, and a
      deregistered one its loop. */
  predicate Ran(s: State, t: Task) {
    t.conn in s.conns && if t.CloseInLoop? then s.conns[t.conn].erased == 1 else s.conns[t.conn].deleted == 1
  }

  lemma TaskRan(s: State, l: LoopId)
    requires Inv(s) && Enabled(s, RunTask(l)) && Defined(s, RunTask(l))
    ensures var t := Apply(s, RunTask(l));
      Ran(t, NextTask(s, l)) && l in t.loops && t.loops[l].phase == Running(s.loops[l].phase.batch, s.loops[l].phase.next + 1)
  {
    hide Core;
    InvHasCore(s);
    TaskInPlace(s, l);
  }

  lemma StaysRan(s: State, l: LoopId, t: Task)
    requires Inv(s) && Enabled(s, RunTask(l)) && Defined(s, RunTask(l)) && Ran(s, t)
    ensures Ran(Apply(s, RunTask(l)), t)
  {
    hide Core;
    InvHasCore(s);
    TaskInPlace(s, l);
  }

  // --------------------------------------------------------------- what is left alone

  /** Connections only come and close; destroyed ones stay. */
  predicate Onward(s: State, t: State) {
    s.loops.Keys == t.loops.Keys && s.dead <= t.dead && ConnsOnward(s, t)
  }

  predicate ConnsOnward(s: State, t: State) {
    forall c :: c in s.conns ==>
      c in t.conns && t.conns[c].fd == s.conns[c].fd && t.conns[c].loop == s.conns[c].loop
      && (s.conns[c].status.Disconnected? ==> t.conns[c].status.Disconnected?)
      && (s.conns[c].status.Connected? ==> !t.conns[c].status.Invalid?)
  }

  lemma OnwardTwice(s: State, t: State, u: State)
    requires Onward(s, t) && Onward(t, u)
    ensures Onward(s, u)
  {
  }

  lemma StepOnward(s: State, a: Step)
    requires Inv(s) && Enabled(s, a) && Defined(s, a)
    ensures Onward(s, Apply(s, a))
  {
    hide Inv, Core, DeadOk, Enabled, Defined, Effect, Apply;
    InvHasCore(s);
    ApplyKeepsDead(s, a);
    if a.Establish? { EstablishesInvalid(s); }
    EffectOnward(s, a);
    ApplyIsEffect(s, a);
  }

  lemma EstablishesInvalid(s: State)
    requires Inv(s) && MAIN in s.loops && Enabled(s, Establish) && Defined(s, Establish)
    ensures s.conns[CurrentOf(s, MAIN).conn].status.Invalid?
  {
    hide Inv, Core;
    InvHasCore(s);
    CreatedIsInvalid(s);
  }

  lemma EraseOnward(s: State, c: ConnId)
    requires c in s.conns && s.conns[c].loop in s.loops
    ensures var t := EraseInLoop(s, c); s.loops.Keys == t.loops.Keys && ConnsOnward(s, t)
  {
  }

  lemma CloseOnward(s: State, l: LoopId, c: ConnId)
    requires c in s.conns && s.conns[c].loop in s.loops && MAIN in s.loops
    ensures var t := Close(s, l, c); s.loops.Keys == t.loops.Keys && ConnsOnward(s, t)
    ensures Close(s, l, c).conns[c].status.Disconnected?
  {
    if !s.conns[c].status.Disconnected? {
      var marked := MarkedClosed(s, c);
      CloseIs(s, l, c);
      EraseOnward(marked, c);
      hide Close;
    }
  }

  lemma TaskOnward(s: State, l: LoopId)
    requires MAIN in s.loops && Ready(s, l) && Enabled(s, RunTask(l)) && Defined(s, RunTask(l))
    ensures var t := Effect(s, RunTask(l)); s.loops.Keys == t.loops.Keys && ConnsOnward(s, t)
  {
    var c := NextTask(s, l).conn;
    EraseOnward(Advance(s, l), c);
  }

  lemma EffectOnward(s: State, a: Step)
    requires MAIN in s.loops && Enabled(s, a) && Defined(s, a)
    requires a.Establish? ==> s.conns[CurrentOf(s, MAIN).conn].status.Invalid?
    ensures var t := Effect(s, a); s.loops.Keys == t.loops.Keys && ConnsOnward(s, t)
  {
    match a {
      case HandleClose(l) => HandlerOnward(s, l);
      case TimerClose(l, c) => TimerOnward(s, l, c);
      case RunTask(l) => TaskOnward(s, l);
      case _ => WalkOnward(s, a);
    }
  }

  lemma HandlerOnward(s: State, l: LoopId)
    requires MAIN in s.loops && Enabled(s, HandleClose(l)) && Defined(s, HandleClose(l))
    ensures var t := Effect(s, HandleClose(l)); s.loops.Keys == t.loops.Keys && ConnsOnward(s, t)
    ensures Effect(s, HandleClose(l)).conns[CurrentOf(s, l).conn].status.Disconnected?
  {
    CloseOnward(s, l, CurrentOf(s, l).conn);
    hide Close, ConnsOnward;
  }

  lemma TimerOnward(s: State, l: LoopId, c: ConnId)
    requires MAIN in s.loops && Enabled(s, TimerClose(l, c)) && Defined(s, TimerClose(l, c))
    ensures var t := Effect(s, TimerClose(l, c)); s.loops.Keys == t.loops.Keys && ConnsOnward(s, t)
  {
    CloseOnward(s, l, c);
    hide Close, ConnsOnward;
  }

  lemma WalkOnward(s: State, a: Step)
    requires MAIN in s.loops && Enabled(s, a) && Defined(s, a)
    requires !a.HandleClose? && !a.TimerClose? && !a.RunTask?
    requires a.Establish? ==> s.conns[CurrentOf(s, MAIN).conn].status.Invalid?
    ensures var t := Effect(s, a); s.loops.Keys == t.loops.Keys && ConnsOnward(s, t)
  {
    hide Close, EraseInLoop, Deregister;
  }

  /** The other loops are where they were, with the same functions queued. */
  predicate Aside(s: State, t: State, l: LoopId) { Onward(s, t) && LoopsAside(s, t, l) }

  predicate LoopsAside(s: State, t: State, l: LoopId) {
    forall m :: m in s.loops && m != l ==>
      m in t.loops && t.loops[m].phase == s.loops[m].phase && t.loops[m].toDo == s.loops[m].toDo
  }

  lemma AsideTwice(s: State, t: State, u: State, l: LoopId)
    requires Aside(s, t, l) && Aside(t, u, l)
    ensures Aside(s, u, l)
  {
    OnwardTwice(s, t, u);
  }

  // -------------------------------------------------------------------- ending a walk

  /** The step with which a walk goes on towards its end: a handler in progress ends, an accepted
      connection is made and established, the next handler begins, or the walk is over. */
  predicate GoesOn(s: State, l: LoopId, a: Step)
    requires IsWalking(s, l)
  {
    match CurrentOf(s, l)
    case Nothing => a == if s.loops[l].phase.active == [] then EndWalk(l) else Begin(l)
    case Accepting => a.Accept? && a.target == MAIN && a.conn !in s.conns && forall d :: d in s.conns ==> s.conns[d].fd != a.fd
    case Created(_) => a == Establish
    case _ => a == End(l)
  }

  function Rank(c: Current): nat {
    match c
    case Nothing => 0
    case Accepting => 3
    case Created(_) => 2
    case _ => 1
  }

  lemma SomeStepGoesOn(s: State, l: LoopId) returns (a: Step)
    requires Inv(s) && IsWalking(s, l)
    ensures GoesOn(s, l, a) && Enabled(s, a)
  {
    hide Count, ConnOk, TasksOk, Referenced;
    assert LoopOk(s, l);
    match CurrentOf(s, l) {
      case Nothing => a := if s.loops[l].phase.active == [] then EndWalk(l) else Begin(l);
      case Accepting =>
        FreshNat(s.conns.Keys);
        var c: ConnId :| c !in s.conns;
        var fds := set d | d in s.conns :: s.conns[d].fd;
        FreshNat(fds);
        var fd: Fd :| fd !in fds;
        a := Accept(c, fd, MAIN);
      case Created(_) => a := Establish;
      case _ => a := End(l);
    }
  }

  lemma StepGoesOn(s: State, l: LoopId, a: Step)
    requires Inv(s) && IsWalking(s, l) && GoesOn(s, l, a) && Enabled(s, a) && Defined(s, a)
    ensures Aside(s, Apply(s, a), l) && l in Apply(s, a).loops && WentOn(s.loops[l], Apply(s, a).loops[l], a.EndWalk?)
  {
    hide Inv, Core, Onward, Enabled, Defined, GoesOn, Effect, Apply, WentOn;
    InvHasCore(s);
    StepOnward(s, a);
    WalkIsOnMain(s, l);
    EffectGoesOn(s, l, a);
    ApplyIsEffect(s, a);
  }

  /** The walk is over and the queue swapped out, or the walk has come nearer to its end. */
  predicate WentOn(before: Loop, after: Loop, over: bool)
    requires before.phase.Walking?
  {
    if over then after.phase == Running(before.toDo, 0) && after.toDo == []
    else
      && after.phase.Walking? && after.toDo == before.toDo
      && if before.phase.current.Nothing?
         then before.phase.active == [Reported(after.phase.current, before.phase.active)] + after.phase.active
         else after.phase.active == before.phase.active && Rank(after.phase.current) < Rank(before.phase.current)
  }

  /** The source whose handler is in progress: the first one reported. */
  function Reported(c: Current, active: seq<Source>): Source {
    match c
    case Event(conn) => FromConn(conn)
    case Accepting => FromAcceptor
    case _ => if active != [] && active[0].FromOther? then FromOther else FromAcceptor
  }

  lemma WalkIsOnMain(s: State, l: LoopId)
    requires Inv(s) && IsWalking(s, l)
    ensures CurrentOf(s, l).Accepting? || CurrentOf(s, l).Created? ==> l == MAIN
  {
    hide Count, ConnOk, TasksOk, Referenced;
    assert LoopOk(s, l);
  }

  lemma ApplyIsEffect(s: State, a: Step)
    requires MAIN in s.loops && Enabled(s, a) && Defined(s, a)
    ensures Apply(s, a).loops == Effect(s, a).loops && Apply(s, a).conns == Effect(s, a).conns
    ensures Apply(s, a).byFd == Effect(s, a).byFd
  {
    hide Effect, Referenced, Enabled, Defined;
  }

  lemma EffectGoesOn(s: State, l: LoopId, a: Step)
    requires MAIN in s.loops && IsWalking(s, l) && GoesOn(s, l, a) && Enabled(s, a) && Defined(s, a)
    requires CurrentOf(s, l).Accepting? || CurrentOf(s, l).Created? ==> l == MAIN
    ensures var t := Effect(s, a); l in t.loops && LoopsAside(s, t, l) && WentOn(s.loops[l], t.loops[l], a.EndWalk?)
  {
  }

  /** Every walk can be brought to its end; the loop then has swapped out what was queued. */
  lemma {:induction false} FinishWalk(s: State, l: LoopId) returns (run: seq<Step>, t: State)
    requires Inv(s) && IsWalking(s, l)
    ensures Leads(s, run, t) && Inv(t) && Aside(s, t, l) && l in t.loops
    ensures t.loops[l].phase == Running(s.loops[l].toDo, 0) && t.loops[l].toDo == []
    decreases |s.loops[l].phase.active|, Rank(s.loops[l].phase.current)
  {
    var a := SomeStepGoesOn(s, l);
    OneStep(s, a);
    StepGoesOn(s, l, a);
    var next := Apply(s, a);
    hide Inv, Enabled, Defined, Apply, Legal, After, GoesOn, Aside;
    if a.EndWalk? {
      run, t := [a], next;
    } else {
      var rest;
      rest, t := FinishWalk(next, l);
      Chained(s, [a], next, rest, t);
      AsideTwice(s, next, t, l);
      run := [a] + rest;
    }
  }

  /** Every channel reported is handled: a loop with it on its list comes to its handler. */
  lemma {:induction false} ReportedIsHandled(s: State, l: LoopId, c: ConnId) returns (run: seq<Step>, t: State)
    requires Inv(s) && IsWalking(s, l) && FromConn(c) in s.loops[l].phase.active
    ensures Leads(s, run, t) && Inv(t) && IsWalking(t, l) && CurrentOf(t, l) == Event(c)
    decreases |s.loops[l].phase.active|, Rank(s.loops[l].phase.current)
  {
    hide Inv, Enabled, Defined, Apply, Leads, Aside;
    var a := SomeStepGoesOn(s, l);
    InvHasCore(s);
    OneStep(s, a);
    StepGoesOn(s, l, a);
    NotOverYet(s, l, a);
    var next := Apply(s, a);
    hide GoesOn;
    if CurrentOf(next, l) == Event(c) {
      run, t := [a], next;
    } else {
      StillReported(s.loops[l], next.loops[l], c);
      var rest;
      rest, t := ReportedIsHandled(next, l, c);
      Chained(s, [a], next, rest, t);
      run := [a] + rest;
    }
  }

  lemma NotOverYet(s: State, l: LoopId, a: Step)
    requires IsWalking(s, l) && s.loops[l].phase.active != [] && GoesOn(s, l, a)
    ensures !a.EndWalk?
  {
  }

  lemma StillReported(before: Loop, after: Loop, c: ConnId)
    requires before.phase.Walking? && WentOn(before, after, false)
    requires FromConn(c) in before.phase.active && after.phase.current != Event(c)
    ensures FromConn(c) in after.phase.active
    ensures |after.phase.active| < |before.phase.active|
      || (after.phase.active == before.phase.active && Rank(after.phase.current) < Rank(before.phase.current))
  {
  }

  // ------------------------------------------------------------------ running a batch

  /** What running the next function adds to the queue of a loop. */
  function Added(s: State, task: Task, m: LoopId): seq<Task> {
    if task.CloseInLoop? && task.conn in s.conns && s.conns[task.conn].loop == m then [Destroy(task.conn)] else []
  }

  /** The loops after the next function of a batch. */
  predicate RanOne(s: State, t: State, l: LoopId)
    requires Ready(s, l)
  {
    && s.loops.Keys == t.loops.Keys
    && (forall m :: m in s.loops && m != l ==> t.loops[m].phase == s.loops[m].phase)
    && (forall m :: m in s.loops ==> t.loops[m].toDo == s.loops[m].toDo + Added(s, NextTask(s, l), m))
    && t.loops[l].phase == Running(s.loops[l].phase.batch, s.loops[l].phase.next + 1)
  }

  lemma RunTaskChanges(s: State, l: LoopId)
    requires Inv(s) && Ready(s, l) && MAIN in s.loops && Enabled(s, RunTask(l)) && Defined(s, RunTask(l))
    ensures Onward(s, Apply(s, RunTask(l))) && RanOne(s, Apply(s, RunTask(l)), l)
  {
    StepOnward(s, RunTask(l));
    hide Inv, Onward, Referenced;
    EffectOfTask(s, l);
    ApplyIsEffect(s, RunTask(l));
    hide Effect, Apply, Enabled, Defined;
  }

  lemma EffectOfTask(s: State, l: LoopId)
    requires Ready(s, l) && MAIN in s.loops && Enabled(s, RunTask(l)) && Defined(s, RunTask(l))
    ensures RanOne(s, Effect(s, RunTask(l)), l)
  {
  }

  function RunTasks(l: LoopId, n: nat): seq<Step> { if n == 0 then [] else [RunTask(l)] + RunTasks(l, n - 1) }

  predicate OnlyDestroys(tasks: seq<Task>) { forall x :: x in tasks ==> x.Destroy? }

  /** From `s` to `t` a loop has run its batch: the others are where they were, and the queues
      have grown by deregistrations only, and not at all if the batch holds nothing else. */
  predicate BatchRun(s: State, t: State, l: LoopId, rest: seq<Task>) {
    && Onward(s, t)
    && (forall m :: m in s.loops && m != l ==> t.loops[m].phase == s.loops[m].phase)
    && (forall m, x :: m in s.loops && x in t.loops[m].toDo ==> x in s.loops[m].toDo || x.Destroy?)
    && (OnlyDestroys(rest) ==> forall m :: m in s.loops ==> t.loops[m].toDo == s.loops[m].toDo)
  }

  lemma BatchRunMore(s: State, next: State, t: State, l: LoopId, first: Task, rest: seq<Task>)
    requires Ready(s, l) && first == NextTask(s, l)
    requires Onward(s, next) && RanOne(s, next, l) && BatchRun(next, t, l, rest)
    ensures BatchRun(s, t, l, [first] + rest)
  {
    OnwardTwice(s, next, t);
    KeysKept(next, t);
    hide Onward;
    if OnlyDestroys([first] + rest) {
      assert first in [first] + rest;
      forall x | x in rest ensures x.Destroy? { assert x in [first] + rest; }
    }
  }

  lemma KeysKept(s: State, t: State)
    requires Onward(s, t)
    ensures s.loops.Keys == t.loops.Keys
  {
  }

  /** `run` has run the rest of the batch of a loop: one step for each function, every one has
      had its effect, and what earlier ones had done stays. */
  ghost predicate BatchDone(s: State, run: seq<Step>, t: State, l: LoopId) {
    && l in s.loops && s.loops[l].phase.Running? && s.loops[l].phase.next <= |s.loops[l].phase.batch|
    && var batch, next := s.loops[l].phase.batch, s.loops[l].phase.next;
    && run == RunTasks(l, |batch| - next)
    && l in t.loops && t.loops[l].phase == Running(batch, |batch|)
    && BatchRun(s, t, l, batch[next..])
    && (forall x :: x in batch[next..] ==> Ran(t, x))
    && (forall x :: Ran(s, x) ==> Ran(t, x))
  }

  lemma NothingLeft(s: State, l: LoopId)
    requires l in s.loops && s.loops[l].phase.Running? && s.loops[l].phase.next == |s.loops[l].phase.batch|
    ensures Leads(s, [], s) && BatchDone(s, [], s, l)
  {
    hide Ran;
  }

  lemma OneMoreDone(s: State, next: State, rest: seq<Step>, t: State, l: LoopId)
    requires Ready(s, l) && Onward(s, next) && RanOne(s, next, l) && BatchDone(next, rest, t, l)
    requires Ran(next, NextTask(s, l)) && forall x :: Ran(s, x) ==> Ran(next, x)
    ensures BatchDone(s, [RunTask(l)] + rest, t, l)
  {
    hide Ran, Onward;
    var batch, i := s.loops[l].phase.batch, s.loops[l].phase.next;
    assert batch[i..] == [batch[i]] + batch[i + 1..];
    BatchRunMore(s, next, t, l, batch[i], batch[i + 1..]);
    hide BatchRun, RanOne;
    assert next.loops[l].phase == Running(batch, i + 1) by { PhaseAfter(s, next, l); }
    forall x | x in batch[i..] ensures Ran(t, x) {
      assert x == batch[i] || x in batch[i + 1..];
    }
  }

  lemma PhaseAfter(s: State, t: State, l: LoopId)
    requires Ready(s, l) && RanOne(s, t, l)
    ensures l in t.loops && t.loops[l].phase == Running(s.loops[l].phase.batch, s.loops[l].phase.next + 1)
  {
  }

  /** One function runs. */
  lemma RunOne(s: State, l: LoopId) returns (next: State)
    requires Inv(s) && Ready(s, l)
    ensures Leads(s, [RunTask(l)], next) && Inv(next) && Onward(s, next) && RanOne(s, next, l)
    ensures Ran(next, NextTask(s, l)) && forall x :: Ran(s, x) ==> Ran(next, x)
  {
    InvHasCore(s);
    OneStep(s, RunTask(l));
    RunTaskChanges(s, l);
    TaskRan(s, l);
    next := Apply(s, RunTask(l));
    forall x | Ran(s, x) ensures Ran(next, x) { StaysRan(s, l, x); }
  }

  /** A batch can be run to its end. */
  lemma {:induction false} FinishBatch(s: State, l: LoopId) returns (run: seq<Step>, t: State)
    requires Inv(s) && l in s.loops && s.loops[l].phase.Running? && s.loops[l].phase.next <= |s.loops[l].phase.batch|
    ensures Leads(s, run, t) && Inv(t) && BatchDone(s, run, t, l)
    decreases |s.loops[l].phase.batch| - s.loops[l].phase.next
  {
    hide Inv, Leads, Onward, RanOne, Ran, BatchDone;
    if s.loops[l].phase.next == |s.loops[l].phase.batch| {
      run, t := [], s;
      NothingLeft(s, l);
    } else {
      var next := RunOne(s, l);
      PhaseAfter(s, next, l);
      var rest;
      rest, t := FinishBatch(next, l);
      Chained(s, [RunTask(l)], next, rest, t);
      OneMoreDone(s, next, rest, t, l);
      run := [RunTask(l)] + rest;
    }
  }

  /** From every state that can be reached, a loop about to swap runs each function queued on
      it: the swap and one step for each is a run, after which every one has had its effect. */
  lemma QueuedFunctionsRun(others: set<LoopId>, run: seq<Step>, l: LoopId)
    requires Legal(Start(others), run)
    requires var s := After(Start(others), run); MAIN in s.loops && Enabled(s, EndWalk(l))
    ensures var s := After(Start(others), run); var queued := s.loops[l].toDo;
      var turn := [EndWalk(l)] + RunTasks(l, |queued|);
      && Legal(s, turn)
      && (forall x :: x in queued ==> Ran(After(s, turn), x))
      && l in After(s, turn).loops && After(s, turn).loops[l].phase == Running(queued, |queued|)
  {
    InvReachable(others, run);
    var s := After(Start(others), run);
    hide After, Legal;
    var queued := s.loops[l].toDo;
    OneStep(s, EndWalk(l));
    StepGoesOn(s, l, EndWalk(l));
    var next := Apply(s, EndWalk(l));
    hide Inv, Enabled, Defined, Apply, Aside, BatchRun, Ran;
    var rest, t := FinishBatch(next, l);
    Chained(s, [EndWalk(l)], next, rest, t);
    assert queued[0..] == queued;
  }

  // -------------------------------------------------------------------------- settling

  predicate AllPolling(s: State) { forall l :: l in s.loops ==> s.loops[l].phase.Polling? }

  lemma EffectOfEnd(s: State, l: LoopId)
    requires MAIN in s.loops && Enabled(s, EndBatch(l)) && Defined(s, EndBatch(l))
    ensures var t := Effect(s, EndBatch(l));
      LoopsAside(s, t, l) && l in t.loops && t.loops[l].phase.Polling? && t.loops[l].toDo == s.loops[l].toDo
  {
  }

  lemma EndBatchChanges(s: State, l: LoopId)
    requires Inv(s) && MAIN in s.loops && Enabled(s, EndBatch(l)) && Defined(s, EndBatch(l))
    ensures var t := Apply(s, EndBatch(l));
      Aside(s, t, l) && l in t.loops && t.loops[l].phase.Polling? && t.loops[l].toDo == s.loops[l].toDo
  {
    hide Inv, Onward, Enabled, Defined, Effect, Apply;
    StepOnward(s, EndBatch(l));
    ApplyIsEffect(s, EndBatch(l));
    EffectOfEnd(s, l);
  }

  lemma PollChanges(s: State, l: LoopId, active: seq<Source>)
    requires Inv(s) && MAIN in s.loops && Enabled(s, Poll(l, active)) && Defined(s, Poll(l, active))
    ensures var t := Apply(s, Poll(l, active));
      && Aside(s, t, l) && l in t.loops && t.loops[l].phase == Walking(active, Nothing) && t.loops[l].toDo == s.loops[l].toDo
      && t.conns == s.conns
  {
    hide Inv, Onward, Enabled, Defined, Effect, Apply;
    StepOnward(s, Poll(l, active));
    ApplyIsEffect(s, Poll(l, active));
    EffectOfPoll(s, l, active);
  }

  lemma EffectOfPoll(s: State, l: LoopId, active: seq<Source>)
    requires MAIN in s.loops && Enabled(s, Poll(l, active)) && Defined(s, Poll(l, active))
    ensures var t := Effect(s, Poll(l, active));
      && LoopsAside(s, t, l) && l in t.loops && t.conns == s.conns
      && t.loops[l].phase == Walking(active, Nothing) && t.loops[l].toDo == s.loops[l].toDo
  {
    hide Reportable;
  }

  /** From `s` to `t` loop `l` has finished what it was doing. */
  predicate TurnEnded(s: State, t: State, l: LoopId) {
    && Onward(s, t) && l in t.loops && t.loops[l].phase.Polling?
    && (forall m :: m in s.loops && m != l ==> t.loops[m].phase == s.loops[m].phase)
  }

  /** A batch in progress ends, and the loop is back at its poll. */
  lemma EndTurn(s: State, l: LoopId) returns (run: seq<Step>, t: State)
    requires Inv(s) && l in s.loops && s.loops[l].phase.Running? && s.loops[l].phase.next <= |s.loops[l].phase.batch|
    ensures Leads(s, run, t) && Inv(t) && TurnEnded(s, t, l)
    ensures QueuesGrew(s, t) && (OnlyDestroys(s.loops[l].phase.batch[s.loops[l].phase.next..]) ==> SameQueues(s, t))
  {
    var batchRun, mid := FinishBatch(s, l);
    hide Leads, BatchRun, Ran;
    InvHasCore(mid);
    assert Enabled(mid, EndBatch(l));
    OneStep(mid, EndBatch(l));
    EndBatchChanges(mid, l);
    t := Apply(mid, EndBatch(l));
    hide Inv, Core, Enabled, Defined, Apply, BatchDone;
    Chained(s, batchRun, mid, [EndBatch(l)], t);
    BatchThenEnd(s, batchRun, mid, t, l);
    run := batchRun + [EndBatch(l)];
  }

  /** The queues of all loops have grown by deregistrations only. */
  predicate QueuesGrew(s: State, t: State) {
    forall m, x :: m in s.loops && m in t.loops && x in t.loops[m].toDo ==> x in s.loops[m].toDo || x.Destroy?
  }

  predicate SameQueues(s: State, t: State) {
    forall m :: m in s.loops && m in t.loops ==> t.loops[m].toDo == s.loops[m].toDo
  }

  lemma BatchThenEnd(s: State, run: seq<Step>, mid: State, t: State, l: LoopId)
    requires BatchDone(s, run, mid, l) && Aside(mid, t, l)
    requires l in t.loops && t.loops[l].phase.Polling? && t.loops[l].toDo == mid.loops[l].toDo
    ensures TurnEnded(s, t, l)
    ensures QueuesGrew(s, t) && (OnlyDestroys(s.loops[l].phase.batch[s.loops[l].phase.next..]) ==> SameQueues(s, t))
  {
    hide Ran;
    OnwardTwice(s, mid, t);
    KeysKept(s, mid);
    hide Onward;
  }

  lemma BatchIndexOk(s: State, l: LoopId)
    requires Inv(s) && l in s.loops && s.loops[l].phase.Running?
    ensures s.loops[l].phase.next <= |s.loops[l].phase.batch|
  {
    assert LoopOk(s, l);
  }

  /** Any loop can be brought back to its poll. */
  lemma ReachPoll(s: State, l: LoopId) returns (run: seq<Step>, t: State)
    requires Inv(s) && l in s.loops
    ensures Leads(s, run, t) && Inv(t) && TurnEnded(s, t, l)
  {
    match s.loops[l].phase {
      case Polling => run, t := [], s;
      case Running(_, _) =>
        BatchIndexOk(s, l);
        run, t := EndTurn(s, l);
      case Walking(_, _) =>
        var walk, mid := FinishWalk(s, l);
        var batch;
        batch, t := EndTurn(mid, l);
        hide Inv, Legal, After;
        Chained(s, walk, mid, batch, t);
        OnwardTwice(s, mid, t);
        run := walk + batch;
    }
  }

  lemma {:induction false} ReachAllPolling(s: State, todo: set<LoopId>) returns (run: seq<Step>, t: State)
    requires Inv(s) && forall l :: l in s.loops && l !in todo ==> s.loops[l].phase.Polling?
    ensures Leads(s, run, t) && Inv(t) && AllPolling(t) && Onward(s, t)
    decreases todo
  {
    if todo == {} {
      run, t := [], s;
    } else {
      var l :| l in todo;
      if l in s.loops {
        var first, mid := ReachPoll(s, l);
        var rest;
        rest, t := ReachAllPolling(mid, todo - {l});
        hide Inv, Legal, After;
        Chained(s, first, mid, rest, t);
        OnwardTwice(s, mid, t);
        run := first + rest;
      } else {
        run, t := ReachAllPolling(s, todo - {l});
      }
    }
  }

  /** A loop at its poll may find nothing to report but its wake-up. */
  lemma PollReports(s: State, l: LoopId, active: seq<Source>) returns (t: State)
    requires Inv(s) && l in s.loops && s.loops[l].phase.Polling?
    requires forall src :: src in active ==> Reportable(s, l, src)
    ensures Leads(s, [Poll(l, active)], t) && Inv(t) && Aside(s, t, l) && l in t.loops
    ensures t.loops[l].phase == Walking(active, Nothing) && t.loops[l].toDo == s.loops[l].toDo && t.conns == s.conns
  {
    hide Reportable;
    InvHasCore(s);
    hide Core;
    assert Enabled(s, Poll(l, active));
    OneStep(s, Poll(l, active));
    PollChanges(s, l, active);
    t := Apply(s, Poll(l, active));
    hide Inv, Enabled, Defined, Apply;
  }

  /** The loop has run what was queued on it, which can only have queued deregistrations. */
  predicate TurnRan(s: State, t: State, l: LoopId) {
    && TurnEnded(s, t, l) && QueuesGrew(s, t) && l in s.loops && OnlyDestroys(t.loops[l].toDo)
    && (OnlyDestroys(s.loops[l].toDo) ==>
          t.loops[l].toDo == [] && forall m :: m in s.loops && m in t.loops && m != l ==> t.loops[m].toDo == s.loops[m].toDo)
  }

  /** A loop at its poll with nothing to report runs what is queued on it, and polls again. */
  lemma WholeTurn(s: State, l: LoopId) returns (run: seq<Step>, t: State)
    requires Inv(s) && l in s.loops && s.loops[l].phase.Polling?
    ensures Leads(s, run, t) && Inv(t) && TurnRan(s, t, l)
  {
    hide Inv, Leads;
    var s1 := PollReports(s, l, []);
    var walk, s2 := FinishWalk(s1, l);
    hide Aside, OnlyDestroys;
    var batch;
    batch, t := EndTurn(s2, l);
    Chained(s, [Poll(l, [])], s1, walk, s2);
    Chained(s, [Poll(l, [])] + walk, s2, batch, t);
    TurnOf(s, s1, s2, t, l);
    run := [Poll(l, [])] + walk + batch;
  }

  lemma TurnOf(s: State, s1: State, s2: State, t: State, l: LoopId)
    requires l in s.loops && l in s1.loops && l in s2.loops && Aside(s, s1, l) && Aside(s1, s2, l)
    requires s1.loops[l].toDo == s.loops[l].toDo
    requires s2.loops[l].phase == Running(s1.loops[l].toDo, 0) && s2.loops[l].toDo == []
    requires TurnEnded(s2, t, l) && QueuesGrew(s2, t)
    requires OnlyDestroys(s2.loops[l].phase.batch[0..]) ==> SameQueues(s2, t)
    ensures TurnRan(s, t, l)
  {
    AsideTwice(s, s1, s2, l);
    OnwardTwice(s, s2, t);
    KeysKept(s, s2);
    KeysKept(s2, t);
    assert s2.loops[l].phase.batch[0..] == s.loops[l].toDo;
    hide Onward;
  }

  /** Erasures are queued on the main loop only. */
  lemma ErasuresOnMain(s: State, l: LoopId)
    requires Inv(s) && l in s.loops && l != MAIN
    ensures OnlyDestroys(s.loops[l].toDo)
  {
    forall x | x in s.loops[l].toDo ensures x.Destroy? {
      assert LoopOk(s, l) && x in Pending(s.loops[l]) && x.conn in s.conns;
      assert TasksOk(s, x.conn);
      assert Count(s.loops[l], x) > 0;
    }
  }

  predicate AllDestroys(s: State) { forall l :: l in s.loops ==> OnlyDestroys(s.loops[l].toDo) }

  /** All functions queued are deregistrations, and none is queued outside `todo`. */
  predicate DestroysLeft(s: State, todo: set<LoopId>) {
    AllPolling(s) && AllDestroys(s) && forall l :: l in s.loops && l !in todo ==> s.loops[l].toDo == []
  }

  lemma FewerLeft(s: State, t: State, l: LoopId, todo: set<LoopId>)
    requires DestroysLeft(s, todo) && l in s.loops && TurnRan(s, t, l)
    ensures DestroysLeft(t, todo - {l})
  {
    assert OnlyDestroys(s.loops[l].toDo);
    KeysKept(s, t);
    hide Onward, OnlyDestroys;
    forall m | m in t.loops ensures t.loops[m].phase.Polling? && OnlyDestroys(t.loops[m].toDo) {
      assert m in s.loops;
    }
  }

  lemma {:induction false} RunDestroys(s: State, todo: set<LoopId>) returns (run: seq<Step>, t: State)
    requires Inv(s) && DestroysLeft(s, todo)
    ensures Leads(s, run, t) && Inv(t) && Quiet(t) && Onward(s, t)
    decreases todo
  {
    if todo == {} {
      run, t := [], s;
    } else {
      var l :| l in todo;
      if l in s.loops {
        hide Inv, Leads, Onward, TurnRan, DestroysLeft;
        PollingLoop(s, todo, l);
        var first, mid := WholeTurn(s, l);
        FewerLeft(s, mid, l, todo);
        var rest;
        rest, t := RunDestroys(mid, todo - {l});
        Chained(s, first, mid, rest, t);
        TurnIsOnward(s, mid, l);
        OnwardTwice(s, mid, t);
        run := first + rest;
      } else {
        run, t := RunDestroys(s, todo - {l});
      }
    }
  }

  lemma PollingLoop(s: State, todo: set<LoopId>, l: LoopId)
    requires DestroysLeft(s, todo) && l in s.loops
    ensures s.loops[l].phase.Polling?
  {
  }

  lemma TurnIsOnward(s: State, t: State, l: LoopId)
    requires TurnRan(s, t, l)
    ensures Onward(s, t)
  {
  }

  /** After a turn of the main loop no erasure is queued anywhere. */
  lemma NoErasureLeft(s: State, t: State)
    requires AllPolling(s) && MAIN in s.loops && TurnRan(s, t, MAIN) && Inv(t)
    ensures DestroysLeft(t, t.loops.Keys)
  {
    KeysKept(s, t);
    forall l | l in t.loops ensures OnlyDestroys(t.loops[l].toDo) {
      if l != MAIN { ErasuresOnMain(t, l); }
    }
    hide Inv, Onward, OnlyDestroys;
    forall m | m in t.loops ensures t.loops[m].phase.Polling? {
      assert m in s.loops;
    }
  }

  lemma MainPolls(s: State)
    requires Inv(s) && AllPolling(s)
    ensures MAIN in s.loops && s.loops[MAIN].phase.Polling?
  {
    InvHasCore(s);
  }

  lemma Settle(s: State) returns (run: seq<Step>, t: State)
    requires Inv(s)
    ensures Leads(s, run, t) && Inv(t) && Quiet(t) && Onward(s, t)
  {
    hide Inv, Leads, AllPolling, TurnRan, DestroysLeft, Quiet, Onward;
    var polls, s1 := ReachAllPolling(s, s.loops.Keys);
    MainPolls(s1);
    var erasures, s2 := WholeTurn(s1, MAIN);
    NoErasureLeft(s1, s2);
    var destroys;
    destroys, t := RunDestroys(s2, s2.loops.Keys);
    Chained(s, polls, s1, erasures, s2);
    Chained(s, polls + erasures, s2, destroys, t);
    TurnIsOnward(s1, s2, MAIN);
    OnwardTwice(s, s1, s2);
    OnwardTwice(s, s2, t);
    run := polls + erasures + destroys;
  }

  // ---------------------------------------------------------------------- the theorems

  /** Every run of every number of loops can go on until all loops have settled; and then every
      connection closed before has been destroyed. */
  lemma CanAlwaysSettle(others: set<LoopId>, run: seq<Step>) returns (more: seq<Step>)
    requires Legal(Start(others), run)
    ensures Legal(Start(others), run + more) && Quiet(After(Start(others), run + more))
    ensures var s, t := After(Start(others), run), After(Start(others), run + more);
      forall c :: c in s.conns && s.conns[c].status.Disconnected? ==> c in t.dead
  {
    InvReachable(others, run);
    var s := After(Start(others), run);
    var t;
    more, t := Settle(s);
    Chained(Start(others), run, s, more, t);
    hide Legal, After;
    forall c | c in s.conns && s.conns[c].status.Disconnected? ensures c in t.dead {
      SettledConn(t, c);
    }
  }

  /** The steps of a connection whose client goes away. */
  function ClosingRun(l: LoopId, c: ConnId): seq<Step> { [Poll(l, [FromConn(c)]), Begin(l), HandleClose(l)] }

  lemma HandlerClosed(s: State, l: LoopId, c: ConnId)
    requires MAIN in s.loops && IsWalking(s, l) && CurrentOf(s, l) == Event(c)
    requires Enabled(s, HandleClose(l)) && Defined(s, HandleClose(l))
    ensures var t := Apply(s, HandleClose(l)); c in t.conns && t.conns[c].status.Disconnected?
  {
    HandlerOnward(s, l);
    ApplyIsEffect(s, HandleClose(l));
    hide Apply, Effect;
  }

  lemma HandlerEnabled(s: State, l: LoopId)
    requires Inv(s) && IsWalking(s, l) && CurrentOf(s, l).Event?
    ensures MAIN in s.loops && Enabled(s, HandleClose(l))
  {
    hide Core, Inv;
    InvHasCore(s);
  }

  /** The handler in progress closes its connection. */
  lemma HandlerCanClose(s: State, l: LoopId, c: ConnId) returns (t: State)
    requires Inv(s) && IsWalking(s, l) && CurrentOf(s, l) == Event(c)
    ensures Leads(s, [HandleClose(l)], t) && Inv(t) && Onward(s, t)
    ensures c in t.conns && t.conns[c].status.Disconnected?
  {
    hide Inv, Leads, Onward, Enabled, Defined, Apply;
    HandlerEnabled(s, l);
    OneStep(s, HandleClose(l));
    StepOnward(s, HandleClose(l));
    HandlerClosed(s, l, c);
    t := Apply(s, HandleClose(l));
  }

  lemma BeginEnabled(s: State, l: LoopId)
    requires Inv(s) && IsWalking(s, l) && CurrentOf(s, l).Nothing? && s.loops[l].phase.active != []
    ensures MAIN in s.loops && Enabled(s, Begin(l))
  {
    hide Core, Inv;
    InvHasCore(s);
  }

  lemma BegunEvent(s: State, l: LoopId, c: ConnId)
    requires MAIN in s.loops && l in s.loops && s.loops[l].phase == Walking([FromConn(c)], Nothing)
    requires Enabled(s, Begin(l)) && Defined(s, Begin(l))
    ensures var t := Apply(s, Begin(l)); IsWalking(t, l) && CurrentOf(t, l) == Event(c)
  {
    ApplyIsEffect(s, Begin(l));
    hide Apply;
  }

  lemma BeginsEvent(s: State, l: LoopId, c: ConnId) returns (t: State)
    requires Inv(s) && l in s.loops && s.loops[l].phase == Walking([FromConn(c)], Nothing)
    ensures Leads(s, [Begin(l)], t) && Inv(t) && Onward(s, t)
    ensures IsWalking(t, l) && CurrentOf(t, l) == Event(c)
  {
    hide Inv, Leads, Onward, Enabled, Defined, Apply;
    BeginEnabled(s, l);
    OneStep(s, Begin(l));
    StepOnward(s, Begin(l));
    BegunEvent(s, l, c);
    t := Apply(s, Begin(l));
  }

  lemma OpenIsReportable(s: State, c: ConnId)
    requires Inv(s) && Quiet(s) && c in s.conns && !s.conns[c].status.Disconnected?
    ensures s.conns[c].loop in s.loops && Reportable(s, s.conns[c].loop, FromConn(c))
  {
    hide Count, TasksOk, Referenced;
    assert ConnOk(s, c);
  }

  /** An open connection of a settled state can be closed by its loop. */
  lemma CloseQuiet(s: State, c: ConnId) returns (t: State)
    requires Inv(s) && Quiet(s) && c in s.conns && !s.conns[c].status.Disconnected?
    ensures Leads(s, ClosingRun(s.conns[c].loop, c), t) && Inv(t) && Onward(s, t)
    ensures c in t.conns && t.conns[c].status.Disconnected?
  {
    hide Inv, Leads, Reportable;
    OpenIsReportable(s, c);
    var l := s.conns[c].loop;
    var active := [FromConn(c)];
    var s1 := PollReports(s, l, active);
    AsideIsOnward(s, s1, l);
    hide Quiet, Aside, Onward;
    var s2 := BeginsEvent(s1, l, c);
    t := HandlerCanClose(s2, l, c);
    Chained(s, [Poll(l, active)], s1, [Begin(l)], s2);
    Chained(s, [Poll(l, active)] + [Begin(l)], s2, [HandleClose(l)], t);
    assert [Poll(l, active)] + [Begin(l)] + [HandleClose(l)] == ClosingRun(l, c);
    OnwardTwice(s, s1, s2);
    OnwardTwice(s, s2, t);
  }

  // A check of an idle connection does the same.

  lemma BegunOther(s: State, l: LoopId)
    requires MAIN in s.loops && l in s.loops && s.loops[l].phase == Walking([FromOther], Nothing)
    requires Enabled(s, Begin(l)) && Defined(s, Begin(l))
    ensures var t := Apply(s, Begin(l)); IsWalking(t, l) && CurrentOf(t, l) == Other && t.conns == s.conns
  {
    ApplyIsEffect(s, Begin(l));
    hide Apply;
  }

  lemma BeginsOther(s: State, l: LoopId) returns (t: State)
    requires Inv(s) && l in s.loops && s.loops[l].phase == Walking([FromOther], Nothing)
    ensures Leads(s, [Begin(l)], t) && Inv(t) && Onward(s, t)
    ensures IsWalking(t, l) && CurrentOf(t, l) == Other && t.conns == s.conns
  {
    hide Inv, Leads, Onward, Enabled, Defined, Apply;
    BeginEnabled(s, l);
    OneStep(s, Begin(l));
    StepOnward(s, Begin(l));
    BegunOther(s, l);
    t := Apply(s, Begin(l));
  }

  lemma TimerClosed(s: State, l: LoopId, c: ConnId)
    requires MAIN in s.loops && Enabled(s, TimerClose(l, c)) && Defined(s, TimerClose(l, c))
    requires c in s.conns && s.conns[c].loop in s.loops
    ensures var t := Apply(s, TimerClose(l, c)); c in t.conns && t.conns[c].status.Disconnected?
  {
    CloseOnward(s, l, c);
    ApplyIsEffect(s, TimerClose(l, c));
    hide Apply, Close;
  }

  lemma TimerCanClose(s: State, l: LoopId, c: ConnId) returns (t: State)
    requires Inv(s) && IsWalking(s, l) && CurrentOf(s, l) == Other
    requires c in s.conns && c !in s.dead && s.conns[c].loop == l && l in s.loops && !s.conns[c].status.Invalid?
    ensures Leads(s, [TimerClose(l, c)], t) && Inv(t) && c in t.conns && t.conns[c].status.Disconnected?
  {
    hide Inv, Core, Leads, Defined, Apply;
    InvHasCore(s);
    assert Enabled(s, TimerClose(l, c));
    hide Enabled;
    OneStep(s, TimerClose(l, c));
    TimerClosed(s, l, c);
    t := Apply(s, TimerClose(l, c));
  }

  function CheckRun(l: LoopId, c: ConnId): seq<Step> { [Poll(l, [FromOther]), Begin(l), TimerClose(l, c)] }

  lemma OtherReportable(s: State, l: LoopId)
    requires l in s.loops
    ensures forall src :: src in [FromOther] ==> Reportable(s, l, src)
  {
  }

  /** An open connection of a settled state can also be closed by an idle check on its loop. */
  lemma CheckCloses(s: State, c: ConnId) returns (t: State)
    requires Inv(s) && Quiet(s) && c in s.conns && !s.conns[c].status.Disconnected?
    ensures Leads(s, CheckRun(s.conns[c].loop, c), t) && Inv(t)
    ensures c in t.conns && t.conns[c].status.Disconnected?
  {
    hide Inv, Leads, Reportable, Aside, Onward, Quiet;
    OpenLivesOn(s, c);
    var l := s.conns[c].loop;
    OtherReportable(s, l);
    var s1 := PollReports(s, l, [FromOther]);
    AsideIsOnward(s, s1, l);
    var s2 := BeginsOther(s1, l);
    KeysKept(s, s1);
    KeysKept(s1, s2);
    StillAlive(s2, c);
    t := TimerCanClose(s2, l, c);
    Chained(s, [Poll(l, [FromOther])], s1, [Begin(l)], s2);
    Chained(s, [Poll(l, [FromOther])] + [Begin(l)], s2, [TimerClose(l, c)], t);
    assert [Poll(l, [FromOther])] + [Begin(l)] + [TimerClose(l, c)] == CheckRun(l, c);
  }

  lemma OpenLivesOn(s: State, c: ConnId)
    requires Inv(s) && Quiet(s) && c in s.conns && !s.conns[c].status.Disconnected?
    ensures s.conns[c].loop in s.loops && s.conns[c].status.Connected?
    ensures s.loops[s.conns[c].loop].phase.Polling?
  {
    SettledConn(s, c);
    hide Count, TasksOk, Referenced;
    assert ConnOk(s, c);
  }

  /** An object that has not been closed is alive. */
  lemma StillAlive(s: State, c: ConnId)
    requires Inv(s) && c in s.conns && s.conns[c].status.Connected?
    ensures c !in s.dead
  {
    if c in s.dead { DeadIsGone(s, c); }
  }

  lemma AsideIsOnward(s: State, t: State, l: LoopId)
    requires Aside(s, t, l)
    ensures Onward(s, t)
  {
  }

  /** From every state that can be reached, every connection can come to its end: there is a
      continuation after which it has been destroyed. */
  lemma EveryConnectionCanEnd(others: set<LoopId>, run: seq<Step>, c: ConnId) returns (more: seq<Step>)
    requires Legal(Start(others), run) && c in After(Start(others), run).conns
    ensures Legal(Start(others), run + more) && c in After(Start(others), run + more).dead
  {
    InvReachable(others, run);
    var s := After(Start(others), run);
    var settling, s1 := Settle(s);
    if s1.conns[c].status.Disconnected? {
      SettledConn(s1, c);
      Chained(Start(others), run, s, settling, s1);
      more := settling;
    } else {
      var s2 := CloseQuiet(s1, c);
      var ending, t := Settle(s2);
      SettledConn(t, c);
      var closing := ClosingRun(s1.conns[c].loop, c);
      assert Leads(Start(others), run, s);
      hide Inv, Legal, After, ClosingRun;
      Chained(s, settling, s1, closing, s2);
      Chained(s, settling + closing, s2, ending, t);
      more := settling + closing + ending;
      Chained(Start(others), run, s, more, t);
    }
  }

  // ---------------------------------------------------------------------- a whole life

  /** The steps of a client that connects. */
  function OpeningRun(c: ConnId, fd: Fd, target: LoopId): seq<Step> {
    [Poll(MAIN, [FromAcceptor]), Begin(MAIN), Accept(c, fd, target), Establish]
  }

  lemma AcceptorReportable(s: State)
    requires MAIN in s.loops
    ensures forall src :: src in [FromAcceptor] ==> Reportable(s, MAIN, src)
  {
  }

  lemma BegunAccepting(s: State)
    requires MAIN in s.loops && s.loops[MAIN].phase == Walking([FromAcceptor], Nothing)
    requires Enabled(s, Begin(MAIN)) && Defined(s, Begin(MAIN))
    ensures var t := Apply(s, Begin(MAIN)); IsWalking(t, MAIN) && CurrentOf(t, MAIN) == Accepting && t.conns == s.conns
  {
    ApplyIsEffect(s, Begin(MAIN));
    hide Apply;
  }

  lemma BeginsAccepting(s: State) returns (t: State)
    requires Inv(s) && MAIN in s.loops && s.loops[MAIN].phase == Walking([FromAcceptor], Nothing)
    ensures Leads(s, [Begin(MAIN)], t) && Inv(t) && Onward(s, t)
    ensures IsWalking(t, MAIN) && CurrentOf(t, MAIN) == Accepting && t.conns == s.conns
  {
    hide Inv, Leads, Onward, Enabled, Defined, Apply;
    BeginEnabled(s, MAIN);
    OneStep(s, Begin(MAIN));
    StepOnward(s, Begin(MAIN));
    BegunAccepting(s);
    t := Apply(s, Begin(MAIN));
  }

  lemma Accepted(s: State, c: ConnId, fd: Fd, target: LoopId)
    requires MAIN in s.loops && Enabled(s, Accept(c, fd, target)) && Defined(s, Accept(c, fd, target))
    ensures var t := Apply(s, Accept(c, fd, target));
      && IsWalking(t, MAIN) && CurrentOf(t, MAIN) == Created(c) && c in t.conns
      && t.conns[c] == Conn(fd, target, Invalid, 0, 0, 0)
  {
    ApplyIsEffect(s, Accept(c, fd, target));
    hide Apply;
  }

  lemma AcceptsOne(s: State, c: ConnId, fd: Fd, target: LoopId) returns (t: State)
    requires Inv(s) && IsWalking(s, MAIN) && CurrentOf(s, MAIN) == Accepting && c !in s.conns && target in s.loops
    requires forall d :: d in s.conns && d !in s.dead ==> s.conns[d].fd != fd
    ensures Leads(s, [Accept(c, fd, target)], t) && Inv(t) && Onward(s, t)
    ensures IsWalking(t, MAIN) && CurrentOf(t, MAIN) == Created(c) && c in t.conns
    ensures t.conns[c] == Conn(fd, target, Invalid, 0, 0, 0)
  {
    hide Inv, Leads, Onward, Defined, Apply;
    assert Enabled(s, Accept(c, fd, target));
    hide Enabled;
    OneStep(s, Accept(c, fd, target));
    StepOnward(s, Accept(c, fd, target));
    Accepted(s, c, fd, target);
    t := Apply(s, Accept(c, fd, target));
  }

  lemma Established(s: State, c: ConnId)
    requires MAIN in s.loops && IsWalking(s, MAIN) && CurrentOf(s, MAIN) == Created(c)
    requires Enabled(s, Establish) && Defined(s, Establish)
    ensures var t := Apply(s, Establish); c in t.conns && t.conns[c] == s.conns[c].(status := Connected)
  {
    ApplyIsEffect(s, Establish);
    hide Apply;
  }

  lemma EstablishesOne(s: State, c: ConnId) returns (t: State)
    requires Inv(s) && IsWalking(s, MAIN) && CurrentOf(s, MAIN) == Created(c)
    ensures Leads(s, [Establish], t) && Inv(t) && Onward(s, t)
    ensures c in s.conns && c in t.conns && t.conns[c] == s.conns[c].(status := Connected)
  {
    hide Inv, Leads, Onward, Apply;
    assert Enabled(s, Establish);
    hide Enabled;
    OneStep(s, Establish);
    StepOnward(s, Establish);
    Established(s, c);
    t := Apply(s, Establish);
  }

  /** From every state that can be reached: once the loops have settled, a client can connect,
      with any new identity and any descriptor that no living object holds, on any loop; it is
      then connected on that loop; and later it can be closed and destroyed. */
  lemma WholeLife(others: set<LoopId>, run: seq<Step>, c: ConnId, fd: Fd, target: LoopId)
      returns (opening: seq<Step>, ending: seq<Step>)
    requires Legal(Start(others), run)
    requires var s := After(Start(others), run);
      && target in s.loops && c !in s.conns && Quiet(s)
      && forall d :: d in s.conns && d !in s.dead ==> s.conns[d].fd != fd
    ensures opening == run + OpeningRun(c, fd, target) && Legal(Start(others), opening)
    ensures var s := After(Start(others), opening); c in s.conns && s.conns[c] == Conn(fd, target, Connected, 0, 0, 0)
    ensures Legal(Start(others), opening + ending) && c in After(Start(others), opening + ending).dead
  {
    InvReachable(others, run);
    var s := After(Start(others), run);
    var t := OpensOne(s, c, fd, target);
    Chained(Start(others), run, s, OpeningRun(c, fd, target), t);
    opening := run + OpeningRun(c, fd, target);
    ending := EveryConnectionCanEnd(others, opening, c);
  }

  lemma OpensOne(s: State, c: ConnId, fd: Fd, target: LoopId) returns (t: State)
    requires Inv(s) && Quiet(s) && target in s.loops && c !in s.conns
    requires forall d :: d in s.conns && d !in s.dead ==> s.conns[d].fd != fd
    ensures Leads(s, OpeningRun(c, fd, target), t) && Inv(t)
    ensures c in t.conns && t.conns[c] == Conn(fd, target, Connected, 0, 0, 0)
  {
    hide Inv, Leads, Reportable, Aside, Onward, Quiet;
    MainSettled(s);
    AcceptorReportable(s);
    var s1 := PollReports(s, MAIN, [FromAcceptor]);
    AsideIsOnward(s, s1, MAIN);
    var s2 := BeginsAccepting(s1);
    NothingNewDies(s, s1, fd);
    NothingNewDies(s1, s2, fd);
    KeysKept(s, s1);
    KeysKept(s1, s2);
    var s3 := AcceptsOne(s2, c, fd, target);
    t := EstablishesOne(s3, c);
    Chained(s, [Poll(MAIN, [FromAcceptor])], s1, [Begin(MAIN)], s2);
    Chained(s, [Poll(MAIN, [FromAcceptor])] + [Begin(MAIN)], s2, [Accept(c, fd, target)], s3);
    Chained(s, [Poll(MAIN, [FromAcceptor])] + [Begin(MAIN)] + [Accept(c, fd, target)], s3, [Establish], t);
    assert [Poll(MAIN, [FromAcceptor])] + [Begin(MAIN)] + [Accept(c, fd, target)] + [Establish] == OpeningRun(c, fd, target);
  }

  lemma MainSettled(s: State)
    requires Inv(s) && Quiet(s)
    ensures MAIN in s.loops && s.loops[MAIN].phase.Polling?
  {
    InvHasCore(s);
    hide Inv, Core;
  }

  lemma NothingNewDies(s: State, t: State, fd: Fd)
    requires Onward(s, t) && t.conns == s.conns
    requires forall d :: d in s.conns && d !in s.dead ==> s.conns[d].fd != fd
    ensures forall d :: d in t.conns && d !in t.dead ==> t.conns[d].fd != fd
  {
  }
}
