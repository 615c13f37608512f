/** What the connection life cycle guarantees in every run of any number of loops. */
module LifecycleSafety {
  import opened Lifecycle
  import opened LifecycleInvariant

  /** What each action relies on. */
  predicate Safe(s: State, a: Step)
    requires MAIN in s.loops && Enabled(s, a)
  {
    match a
    case Begin(l) =>
      // The raw channel pointer belongs to a living connection of this loop: the weak
      // pointer the channel is tied to yields it.
      var src := s.loops[l].phase.active[0];
      src.FromConn? ==> src.conn in s.conns && src.conn !in s.dead && s.conns[src.conn].loop == l
    case Accept(c, fd, target) =>
      // The descriptor is no key of the connection map, and registering it cannot clash.
      fd !in s.byFd && forall l :: l in s.loops ==> fd !in s.loops[l].epoll
    case Establish =>
      // The connection just made still exists when its channel starts to listen.
      CurrentOf(s, MAIN).conn in s.conns && CurrentOf(s, MAIN).conn !in s.dead
    // A close on the main loop erases at once: the assertion there holds, and the entry erased
    // is that of this very connection.
    case HandleClose(l) => CloseInPlace(s, l, CurrentOf(s, l).conn)
    case TimerClose(l, c) => CloseInPlace(s, l, c)
    case RunTask(l) =>
      (match NextTask(s, l)
       case CloseInLoop(c) =>
         // The assertion of the main loop holds, and it erases this very connection.
         l == MAIN && c !in s.dead && ErasureInPlace(s, l, c)
       case Destroy(c) =>
         // Deregistration runs once, on the connection's own loop, and finds it registered.
         c !in s.dead && DeregistrationInPlace(s, l, c))
    case _ => true
  }

  /** In every run, every action the loops can take next is defined and safe. */
  lemma EveryActionSafe(others: set<LoopId>, run: seq<Step>, a: Step)
    requires Legal(Start(others), run)
    requires MAIN in After(Start(others), run).loops && Enabled(After(Start(others), run), a)
    ensures var s := After(Start(others), run); Defined(s, a) && Safe(s, a)
  {
    InvReachable(others, run);
    hide After, Legal;
    var s := After(Start(others), run);
    EnabledIsDefined(s, a);
    StepSafe(s, a);
  }

  lemma StepSafe(s: State, a: Step)
    requires Inv(s) && Enabled(s, a)
    ensures Safe(s, a)
  {
    hide Count, ConnOk, TasksOk, Referenced;
    match a {
      case Begin(l) =>
        assert LoopOk(s, l) && s.loops[l].phase.active[0] in s.loops[l].phase.active;
        if s.loops[l].phase.active[0].FromConn? {
          RegisteredIsAlive(s, s.loops[l].phase.active[0].conn);
        }
      case Accept(c, fd, target) => AcceptedFdIsNew(s, c, fd, target);
      case Establish =>
        assert LoopOk(s, MAIN);
        GainersAlive(s, a);
      case HandleClose(_) => ClosesInPlace(s, a);
      case TimerClose(_, _) => ClosesInPlace(s, a);
      case RunTask(l) =>
        TaskInPlace(s, l);
        RegisteredIsAlive(s, NextTask(s, l).conn);
      case _ =>
    }
  }

  /** No loop still has the channel in the list it walks, or is inside its handler. */
  predicate NotWalked(s: State, c: ConnId) {
    forall l :: l in s.loops && s.loops[l].phase.Walking? ==>
      FromConn(c) !in s.loops[l].phase.active && s.loops[l].phase.current != Event(c)
  }

  predicate NotRegistered(s: State, c: ConnId) {
    forall l, fd :: l in s.loops && fd in s.loops[l].epoll ==> s.loops[l].epoll[fd] != c
  }

  /** In every run, a destroyed connection was closed once, erased once and deregistered once
      before; no loop watches or walks it; and it stays destroyed. */
  lemma DestroyedOnlyAfterDeregistration(others: set<LoopId>, run: seq<Step>, c: ConnId)
    requires Legal(Start(others), run) && c in After(Start(others), run).dead
    ensures var s := After(Start(others), run);
      && c in s.conns && s.conns[c].status.Disconnected?
      && s.conns[c].closes == 1 && s.conns[c].erased == 1 && s.conns[c].deleted == 1
      && NotRegistered(s, c) && NotWalked(s, c) && c !in s.byFd.Values
  {
    InvReachable(others, run);
    hide After, Legal;
    DeadIsGone(After(Start(others), run), c);
  }

  lemma DeadIsGone(s: State, c: ConnId)
    requires Inv(s) && c in s.dead
    ensures c in s.conns && s.conns[c].status.Disconnected?
    ensures s.conns[c].closes == 1 && s.conns[c].erased == 1 && s.conns[c].deleted == 1
    ensures NotRegistered(s, c) && NotWalked(s, c) && c !in s.byFd.Values
  {
    hide Count, TasksOk, LoopHolds;
    if s.conns[c].deleted == 0 { RegisteredIsAlive(s, c); }
    assert ConnOk(s, c);
    forall l | l in s.loops
      ensures forall fd :: fd in s.loops[l].epoll ==> s.loops[l].epoll[fd] != c
      ensures s.loops[l].phase.Walking? ==> FromConn(c) !in s.loops[l].phase.active && s.loops[l].phase.current != Event(c)
    {
      assert LoopOk(s, l);
    }
  }

  /** In every run, no connection is closed, erased or deregistered twice. */
  lemma AtMostOnce(others: set<LoopId>, run: seq<Step>, c: ConnId)
    requires Legal(Start(others), run) && c in After(Start(others), run).conns
    ensures var k := After(Start(others), run).conns[c]; k.deleted <= k.erased <= k.closes <= 1
  {
    InvReachable(others, run);
    assert ConnOk(After(Start(others), run), c);
  }

  predicate Quiet(s: State) {
    forall l :: l in s.loops ==> s.loops[l].phase.Polling? && s.loops[l].toDo == []
  }

  /** Nothing leaks: whenever all loops have settled, the living connections are exactly those
      that are open, each the one the map holds for its descriptor; every closed one has been
      destroyed. */
  lemma QuietMeansNoLeak(others: set<LoopId>, run: seq<Step>, c: ConnId)
    requires Legal(Start(others), run)
    requires Quiet(After(Start(others), run)) && c in After(Start(others), run).conns
    ensures var s := After(Start(others), run); var k := s.conns[c];
      && (c in s.dead <==> k.status.Disconnected?)
      && (c !in s.dead ==> k.status.Connected? && k.fd in s.byFd && s.byFd[k.fd] == c)
  {
    InvReachable(others, run);
    hide After, Legal;
    SettledConn(After(Start(others), run), c);
  }

  lemma SettledConn(s: State, c: ConnId)
    requires Inv(s) && Quiet(s) && c in s.conns
    ensures c in s.dead <==> s.conns[c].status.Disconnected?
    ensures c !in s.dead ==> s.conns[c].status.Connected? && s.conns[c].fd in s.byFd && s.byFd[s.conns[c].fd] == c
  {
    var k := s.conns[c];
    assert ConnOk(s, c) && TasksOk(s, c);
    forall l | l in s.loops ensures Pending(s.loops[l]) == [] && !LoopHolds(s.loops[l], c) {
    }
    assert Count(s.loops[MAIN], CloseInLoop(c)) == 0 && Count(s.loops[k.loop], Destroy(c)) == 0;
  }
}
