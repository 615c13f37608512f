/** What every action of the life-cycle machine keeps: each connection is in one of four
    stages, exactly the tasks that end its stage are pending, each on the right loop, and the
    objects destroyed are those that nothing refers to. */
module LifecycleInvariant {
  import opened Lifecycle

  // ------------------------------------------------------------------ invariants

  /** Tasks of a loop that have not run yet. */
  function Pending(lp: Loop): seq<Task> {
    (if lp.phase.Running? && lp.phase.next <= |lp.phase.batch| then lp.phase.batch[lp.phase.next..] else []) + lp.toDo
  }

  ghost function Count(lp: Loop, t: Task): nat { multiset(Pending(lp))[t] }

  /** A connection goes through four stages: open, closing (its erasure is pending on the main
      loop), erased (its deregistration is pending on its own loop), deregistered. */
  predicate StageOk(k: Conn) {
    && k.deleted <= k.erased <= k.closes <= 1
    && (k.status.Disconnected? <==> k.closes == 1)
  }

  ghost predicate ConnOk(s: State, c: ConnId)
    requires c in s.conns && MAIN in s.loops
  {
    var k := s.conns[c];
    && StageOk(k) && k.loop in s.loops
    && (k.erased == 0 ==> k.fd in s.byFd && s.byFd[k.fd] == c)
    && (k.deleted == 0 ==> k.fd in s.loops[k.loop].epoll && s.loops[k.loop].epoll[k.fd] == c)
    && (k.status.Invalid? ==> IsWalking(s, MAIN) && CurrentOf(s, MAIN) == Created(c))
  }

  /** Exactly the right tasks are pending, each on the right loop. */
  ghost predicate TasksOk(s: State, c: ConnId)
    requires c in s.conns
  {
    var k := s.conns[c];
    forall l :: l in s.loops ==>
      && Count(s.loops[l], CloseInLoop(c)) == (if l == MAIN then k.closes - k.erased else 0)
      && Count(s.loops[l], Destroy(c)) == (if l == k.loop then k.erased - k.deleted else 0)
  }

  /** The channel may be reported to loop `l`: it is registered there and listens. */
  predicate Live(s: State, l: LoopId, c: ConnId) {
    c in s.conns && s.conns[c].loop == l && s.conns[c].deleted == 0 && !s.conns[c].status.Invalid?
  }

  predicate LoopOk(s: State, l: LoopId)
    requires l in s.loops
  {
    var lp := s.loops[l];
    && (forall fd :: fd in lp.epoll ==>
          var c := lp.epoll[fd];
          c in s.conns && s.conns[c].loop == l && s.conns[c].fd == fd && s.conns[c].deleted == 0)
    && (forall t :: t in lp.toDo ==> t.conn in s.conns)
    && match lp.phase
       case Polling => true
       case Running(batch, next) => next <= |batch| && forall t :: t in batch ==> t.conn in s.conns
       case Walking(active, current) =>
         && (forall src :: src in active ==> (src.FromConn? ==> Live(s, l, src.conn)) && (src.FromAcceptor? ==> l == MAIN))
         && (current.Event? ==> Live(s, l, current.conn))
         && (current.Accepting? ==> l == MAIN)
         && (current.Created? ==> l == MAIN && current.conn in s.conns && s.conns[current.conn].status.Invalid?)
         && (current.Established? ==> l == MAIN && current.conn in s.conns)
  }

  predicate MapOk(s: State) {
    forall fd :: fd in s.byFd ==>
      s.byFd[fd] in s.conns && s.conns[s.byFd[fd]].fd == fd && s.conns[s.byFd[fd]].erased == 0
  }

  /** Destroyed means created and no longer referenced. */
  predicate DeadOk(s: State) {
    s.dead == set c | c in s.conns && !Referenced(s, c)
  }

  /** All of the invariant but the set of destroyed objects. */
  ghost predicate Core(s: State) {
    && MAIN in s.loops
    && (forall c :: c in s.conns ==> ConnOk(s, c))
    && (forall c :: c in s.conns ==> TasksOk(s, c))
    && (forall l :: l in s.loops ==> LoopOk(s, l))
    && MapOk(s)
  }

  ghost predicate Inv(s: State) { Core(s) && DeadOk(s) }

  // ------------------------------------------------------------------- consequences

  /** Until its channel is deregistered, an object is referenced, hence alive. */
  lemma RegisteredIsAlive(s: State, c: ConnId)
    requires Inv(s) && c in s.conns && s.conns[c].deleted == 0
    ensures Referenced(s, c) && c !in s.dead
  {
    var k := s.conns[c];
    assert ConnOk(s, c) && TasksOk(s, c);
    if k.erased == 0 {
      assert s.byFd[k.fd] in s.byFd.Values;
    } else {
      CountIsHeld(s.loops[k.loop], Destroy(c));
    }
  }

  /** A pending task keeps its connection. */
  lemma CountIsHeld(lp: Loop, t: Task)
    requires Count(lp, t) > 0
    ensures LoopHolds(lp, t.conn)
  {
    assert t in Pending(lp);
  }

  // ------------------------------------------------------- what an action leaves alone

  predicate KeepsEntries(s: State, t: State, c: ConnId)
    requires c in s.conns && MAIN in s.loops && s.loops.Keys == t.loops.Keys
  {
    var k := s.conns[c];
    && c in t.conns && t.conns[c] == k
    && (k.erased == 0 && k.fd in s.byFd ==> k.fd in t.byFd && t.byFd[k.fd] == s.byFd[k.fd])
    && (k.deleted == 0 && k.loop in s.loops && k.fd in s.loops[k.loop].epoll ==>
          k.fd in t.loops[k.loop].epoll && t.loops[k.loop].epoll[k.fd] == s.loops[k.loop].epoll[k.fd])
    && (k.status.Invalid? && IsWalking(s, MAIN) ==> IsWalking(t, MAIN) && CurrentOf(t, MAIN) == CurrentOf(s, MAIN))
  }

  lemma ConnKept(s: State, t: State, c: ConnId)
    requires MAIN in s.loops && s.loops.Keys == t.loops.Keys
    requires c in s.conns && ConnOk(s, c) && KeepsEntries(s, t, c)
    ensures ConnOk(t, c)
  {
  }

  ghost predicate SameTasks(a: Loop, b: Loop, c: ConnId) {
    Count(a, CloseInLoop(c)) == Count(b, CloseInLoop(c)) && Count(a, Destroy(c)) == Count(b, Destroy(c))
  }

  lemma TasksKept(s: State, t: State, c: ConnId)
    requires s.loops.Keys == t.loops.Keys && c in s.conns && c in t.conns
    requires t.conns[c] == s.conns[c].(status := t.conns[c].status)
    requires forall l :: l in s.loops ==> SameTasks(s.loops[l], t.loops[l], c)
    requires TasksOk(s, c)
    ensures TasksOk(t, c)
  {
    hide Count;
    forall l | l in t.loops ensures SameTasks(s.loops[l], t.loops[l], c) {
      assert l in s.loops;
    }
  }

  /** A loop that does not change stays well-formed when connections only move forward. */
  lemma LoopKept(s: State, t: State, l: LoopId)
    requires l in s.loops && l in t.loops && LoopOk(s, l) && t.loops[l] == s.loops[l]
    requires forall c :: c in s.conns ==> c in t.conns && Forward(s.conns[c], t.conns[c], l)
    ensures LoopOk(t, l)
  {
  }

  predicate Forward(a: Conn, b: Conn, l: LoopId) {
    && b.fd == a.fd && b.loop == a.loop && (a.loop == l ==> b.deleted == a.deleted)
    && (b.status.Invalid? ==> a.status.Invalid?) && (l == MAIN && a.status.Invalid? ==> b.status.Invalid?)
  }

  // -------------------------------------------------------------------- task counts

  lemma CountQueued(lp: Loop, t: Task, u: Task)
    ensures Count(lp.(toDo := lp.toDo + [t]), u) == Count(lp, u) + if u == t then 1 else 0
  {
    assert Pending(lp.(toDo := lp.toDo + [t])) == Pending(lp) + [t];
  }

  lemma CountRun(lp: Loop, u: Task)
    requires lp.phase.Running? && lp.phase.next < |lp.phase.batch|
    ensures var p := lp.phase; var t := p.batch[p.next];
      Count(lp, u) == Count(lp.(phase := Running(p.batch, p.next + 1)), u) + if u == t then 1 else 0
  {
    var p := lp.phase;
    assert p.batch[p.next..] == [p.batch[p.next]] + p.batch[p.next + 1..];
    assert Pending(lp) == [p.batch[p.next]] + Pending(lp.(phase := Running(p.batch, p.next + 1)));
  }

  lemma CountSame(a: Loop, b: Loop, u: Task)
    requires Pending(a) == Pending(b)
    ensures Count(a, u) == Count(b, u)
  {
  }

  // --------------------------------------------------------- actions that move a phase

  /** A phase changes and the pending tasks stay the same. */
  lemma PhaseKept(s: State, l: LoopId, lp: Loop)
    requires Core(s) && l in s.loops
    requires lp.epoll == s.loops[l].epoll && Pending(lp) == Pending(s.loops[l])
    requires LoopOk(SetLoop(s, l, lp), l)
    requires l == MAIN && IsWalking(s, MAIN) && CurrentOf(s, MAIN).Created? ==>
      lp.phase.Walking? && lp.phase.current == CurrentOf(s, MAIN)
    ensures Core(SetLoop(s, l, lp))
  {
    hide Count, Pending, TasksOk, LoopOk, Live;
    var t := SetLoop(s, l, lp);
    forall c | c in s.conns ensures ConnOk(t, c) && TasksOk(t, c) {
      PhaseKeepsConn(s, l, lp, c);
    }
    forall m | m in s.loops ensures LoopOk(t, m) {
      if m != l { LoopKept(s, t, m); }
    }
    assert MapOk(s) ==> MapOk(t);
  }

  lemma PhaseKeepsConn(s: State, l: LoopId, lp: Loop, c: ConnId)
    requires MAIN in s.loops && l in s.loops && c in s.conns && ConnOk(s, c) && TasksOk(s, c)
    requires lp.epoll == s.loops[l].epoll && Pending(lp) == Pending(s.loops[l])
    requires l == MAIN && IsWalking(s, MAIN) && CurrentOf(s, MAIN).Created? ==>
      lp.phase.Walking? && lp.phase.current == CurrentOf(s, MAIN)
    ensures ConnOk(SetLoop(s, l, lp), c) && TasksOk(SetLoop(s, l, lp), c)
  {
    hide Count, Pending, TasksOk;
    var t := SetLoop(s, l, lp);
    assert s.loops.Keys == t.loops.Keys;
    CountSame(s.loops[l], lp, CloseInLoop(c));
    CountSame(s.loops[l], lp, Destroy(c));
    ConnKept(s, t, c);
    TasksKept(s, t, c);
  }

  /** Only channels that are registered and listen are reported. */
  lemma PolledLoopOk(s: State, l: LoopId, active: seq<Source>)
    requires l in s.loops && LoopOk(s, l) && forall src :: src in active ==> Reportable(s, l, src)
    ensures LoopOk(SetPhase(s, l, Walking(active, Nothing)), l)
  {
    forall src | src in active && src.FromConn? ensures Live(s, l, src.conn) {
      assert Reportable(s, l, src);
    }
    forall src | src in active && src.FromAcceptor? ensures l == MAIN {
      assert Reportable(s, l, src);
    }
  }

  lemma PollKept(s: State, l: LoopId, active: seq<Source>)
    requires Inv(s) && Enabled(s, Poll(l, active))
    ensures Core(SetPhase(s, l, Walking(active, Nothing)))
  {
    hide Count, ConnOk, TasksOk, LoopOk, MapOk, Referenced, Reportable;
    assert Core(s);
    PolledLoopOk(s, l, active);
    PhaseKept(s, l, s.loops[l].(phase := Walking(active, Nothing)));
  }

  lemma BeginKept(s: State, l: LoopId)
    requires Inv(s) && Enabled(s, Begin(l))
    ensures Core(Effect(s, Begin(l)))
  {
    hide Count, ConnOk, TasksOk, Referenced, MapOk;
    assert LoopOk(s, l);
    var lp' := Effect(s, Begin(l)).loops[l];
    assert LoopOk(SetLoop(s, l, lp'), l);
    PhaseKept(s, l, lp');
  }

  lemma EndKept(s: State, l: LoopId)
    requires Inv(s) && Enabled(s, End(l))
    ensures Core(Effect(s, End(l)))
  {
    hide Count, ConnOk, TasksOk, Referenced, MapOk;
    assert LoopOk(s, l);
    PhaseKept(s, l, Effect(s, End(l)).loops[l]);
  }

  lemma EndWalkKept(s: State, l: LoopId)
    requires Inv(s) && Enabled(s, EndWalk(l))
    ensures Core(Effect(s, EndWalk(l)))
  {
    hide Count, ConnOk, TasksOk, Referenced, MapOk;
    assert LoopOk(s, l);
    var lp, lp' := s.loops[l], Effect(s, EndWalk(l)).loops[l];
    assert Pending(lp') == lp.toDo[0..] + [] == lp.toDo && Pending(lp) == [] + lp.toDo == lp.toDo;
    PhaseKept(s, l, lp');
  }

  lemma EndBatchKept(s: State, l: LoopId)
    requires Inv(s) && Enabled(s, EndBatch(l))
    ensures Core(Effect(s, EndBatch(l)))
  {
    hide Count, ConnOk, TasksOk, Referenced, MapOk;
    assert LoopOk(s, l);
    var lp, lp' := s.loops[l], Effect(s, EndBatch(l)).loops[l];
    assert lp.phase.batch[lp.phase.next..] == [];
    assert Pending(lp') == [] + lp.toDo == Pending(lp);
    PhaseKept(s, l, lp');
  }

  // ------------------------------------------------------- actions that move a connection

  lemma EstablishKept(s: State)
    requires Inv(s) && Enabled(s, Establish) && Defined(s, Establish)
    ensures Core(Effect(s, Establish))
  {
    hide Count, Pending, ConnOk, TasksOk, LoopOk, Referenced, LoopHolds;
    assert Core(s);
    var t := Effect(s, Establish);
    assert ConnOk(s, CurrentOf(s, MAIN).conn) && LoopOk(s, MAIN);
    forall d | d in t.conns ensures ConnOk(t, d) && TasksOk(t, d) {
      EstablishKeepsConn(s, d);
    }
    forall m | m in s.loops ensures LoopOk(t, m) {
      EstablishKeepsLoop(s, m);
    }
  }

  lemma EstablishKeepsConn(s: State, d: ConnId)
    requires Core(s) && Enabled(s, Establish) && Defined(s, Establish) && d in s.conns
    ensures var t := Effect(s, Establish); ConnOk(t, d) && TasksOk(t, d)
  {
    hide Count, TasksOk, LoopOk, MapOk;
    var t := Effect(s, Establish);
    assert ConnOk(s, d) && ConnOk(s, CurrentOf(s, MAIN).conn);
    assert LoopOk(s, MAIN) && s.conns[CurrentOf(s, MAIN).conn].status.Invalid? by { CreatedIsInvalid(s); }
    CountSame(s.loops[MAIN], t.loops[MAIN], CloseInLoop(d));
    CountSame(s.loops[MAIN], t.loops[MAIN], Destroy(d));
    TasksKept(s, t, d);
  }

  lemma CreatedIsInvalid(s: State)
    requires Core(s) && IsWalking(s, MAIN) && CurrentOf(s, MAIN).Created?
    ensures CurrentOf(s, MAIN).conn in s.conns && s.conns[CurrentOf(s, MAIN).conn].status.Invalid?
  {
    assert LoopOk(s, MAIN);
  }

  lemma EstablishKeepsLoop(s: State, m: LoopId)
    requires Core(s) && Enabled(s, Establish) && Defined(s, Establish) && m in s.loops
    ensures LoopOk(Effect(s, Establish), m)
  {
    hide ConnOk, TasksOk, MapOk;
    assert LoopOk(s, m);
    CreatedIsInvalid(s);
    if m != MAIN { LoopKept(s, Effect(s, Establish), m); }
  }

  lemma QueueCounts(s: State, l: LoopId, t: Task)
    requires l in s.loops
    ensures forall m, u :: m in s.loops ==>
      Count(Queue(s, l, t).loops[m], u) == Count(s.loops[m], u) + if m == l && u == t then 1 else 0
  {
    forall m, u | m in s.loops
      ensures Count(Queue(s, l, t).loops[m], u) == Count(s.loops[m], u) + if m == l && u == t then 1 else 0
    {
      hide Count;
      if m == l { CountQueued(s.loops[l], t, u); }
    }
  }

  lemma RunCounts(s: State, l: LoopId)
    requires l in s.loops && s.loops[l].phase.Running? && s.loops[l].phase.next < |s.loops[l].phase.batch|
    ensures var p := s.loops[l].phase;
      forall m, u :: m in s.loops ==>
        Count(s.loops[m], u) == Count(SetPhase(s, l, Running(p.batch, p.next + 1)).loops[m], u)
                                + if m == l && u == p.batch[p.next] then 1 else 0
  {
    var p := s.loops[l].phase;
    forall m, u | m in s.loops
      ensures Count(s.loops[m], u) == Count(SetPhase(s, l, Running(p.batch, p.next + 1)).loops[m], u)
                                      + if m == l && u == p.batch[p.next] then 1 else 0
    {
      hide Count;
      if m == l { CountRun(s.loops[l], u); }
    }
  }

  // ------------------------------------------------------------------------ accepting

  /** A descriptor the system hands out is in no map: everything that is still in the
      connection map or registered is alive, and so keeps its descriptor open. */
  lemma AcceptedFdIsNew(s: State, c: ConnId, fd: Fd, target: LoopId)
    requires Inv(s) && Enabled(s, Accept(c, fd, target))
    ensures fd !in s.byFd
    ensures forall l :: l in s.loops ==> fd !in s.loops[l].epoll
  {
    hide Count, Referenced, TasksOk;
    if fd in s.byFd {
      var d := s.byFd[fd];
      assert ConnOk(s, d);
      RegisteredIsAlive(s, d);
    }
    forall l | l in s.loops ensures fd !in s.loops[l].epoll {
      if fd in s.loops[l].epoll {
        assert LoopOk(s, l);
        RegisteredIsAlive(s, s.loops[l].epoll[fd]);
      }
    }
  }

  lemma PendingKnown(s: State, l: LoopId)
    requires l in s.loops && LoopOk(s, l)
    ensures forall t :: t in Pending(s.loops[l]) ==> t.conn in s.conns
  {
    forall t | t in Pending(s.loops[l]) ensures t.conn in s.conns {
      assert t in s.loops[l].toDo || t in s.loops[l].phase.batch;
    }
  }

  lemma NoTasksForUnknown(s: State, l: LoopId, t: Task)
    requires l in s.loops && LoopOk(s, l) && t.conn !in s.conns
    ensures Count(s.loops[l], t) == 0
  {
    PendingKnown(s, l);
  }

  lemma AcceptKept(s: State, c: ConnId, fd: Fd, target: LoopId)
    requires Inv(s) && Enabled(s, Accept(c, fd, target))
    ensures Core(Effect(s, Accept(c, fd, target)))
  {
    hide Count, Pending, ConnOk, TasksOk, LoopOk, Referenced, LoopHolds;
    var t := Effect(s, Accept(c, fd, target));
    AcceptedFdIsNew(s, c, fd, target);
    forall d | d in t.conns ensures ConnOk(t, d) && TasksOk(t, d) {
      if d == c { AcceptMakesConn(s, c, fd, target); } else { AcceptKeepsConn(s, c, fd, target, d); }
    }
    forall m | m in s.loops ensures LoopOk(t, m) {
      AcceptKeepsLoop(s, c, fd, target, m);
    }
  }

  lemma AcceptMakesConn(s: State, c: ConnId, fd: Fd, target: LoopId)
    requires Core(s) && Enabled(s, Accept(c, fd, target))
    ensures var t := Effect(s, Accept(c, fd, target)); ConnOk(t, c) && TasksOk(t, c)
  {
    hide Count, LoopOk, MapOk;
    var t := Effect(s, Accept(c, fd, target));
    forall l | l in t.loops ensures Count(t.loops[l], CloseInLoop(c)) == 0 && Count(t.loops[l], Destroy(c)) == 0 {
      assert LoopOk(s, l) && Pending(t.loops[l]) == Pending(s.loops[l]);
      NoTasksForUnknown(s, l, CloseInLoop(c));
      NoTasksForUnknown(s, l, Destroy(c));
      CountSame(s.loops[l], t.loops[l], CloseInLoop(c));
      CountSame(s.loops[l], t.loops[l], Destroy(c));
    }
  }

  lemma AcceptKeepsConn(s: State, c: ConnId, fd: Fd, target: LoopId, d: ConnId)
    requires Core(s) && Enabled(s, Accept(c, fd, target)) && d in s.conns
    requires fd !in s.byFd && fd !in s.loops[target].epoll
    ensures var t := Effect(s, Accept(c, fd, target)); ConnOk(t, d) && TasksOk(t, d)
  {
    hide Count, TasksOk, LoopOk, MapOk;
    var t := Effect(s, Accept(c, fd, target));
    assert ConnOk(s, d);
    forall l | l in s.loops ensures SameTasks(s.loops[l], t.loops[l], d) {
      assert Pending(t.loops[l]) == Pending(s.loops[l]);
      CountSame(s.loops[l], t.loops[l], CloseInLoop(d));
      CountSame(s.loops[l], t.loops[l], Destroy(d));
    }
    TasksKept(s, t, d);
    ConnKept(s, t, d);
  }

  lemma AcceptKeepsLoop(s: State, c: ConnId, fd: Fd, target: LoopId, m: LoopId)
    requires Core(s) && Enabled(s, Accept(c, fd, target)) && m in s.loops
    ensures LoopOk(Effect(s, Accept(c, fd, target)), m)
  {
    hide ConnOk, TasksOk, MapOk;
    assert LoopOk(s, m);
    var t := Effect(s, Accept(c, fd, target));
    AcceptIs(s, c, fd, target, m);
    hide Effect, Enabled;
    LoopJoined(s, t, m, c, t.conns[c]);
  }

  /** A loop stays well-formed when a new connection is registered on it, or, on the main
      loop, is what the acceptor's handler has just made. */
  lemma LoopJoined(s: State, t: State, m: LoopId, c: ConnId, k: Conn)
    requires m in s.loops && m in t.loops && LoopOk(s, m) && c !in s.conns && t.conns == s.conns[c := k]
    requires k.status.Invalid? && k.deleted == 0
    requires var a, b := s.loops[m], t.loops[m];
      && b.toDo == a.toDo
      && b.epoll == (if m == k.loop then a.epoll[k.fd := c] else a.epoll)
      && if m == MAIN then a.phase.Walking? && b.phase == a.phase.(current := Created(c)) else b.phase == a.phase
    ensures LoopOk(t, m)
  {
    var a, b := s.loops[m], t.loops[m];
    forall src | b.phase.Walking? && src in b.phase.active && src.FromConn? ensures Live(t, m, src.conn) {
      assert Live(s, m, src.conn);
    }
  }

  /** The connections and one loop after an acceptance. */
  lemma AcceptIs(s: State, c: ConnId, fd: Fd, target: LoopId, m: LoopId)
    requires MAIN in s.loops && Enabled(s, Accept(c, fd, target)) && m in s.loops
    ensures c !in s.conns && target in s.loops && IsWalking(s, MAIN)
    ensures var t := Effect(s, Accept(c, fd, target)); var lp := s.loops[m];
      && t.conns == s.conns[c := Conn(fd, target, Invalid, 0, 0, 0)] && m in t.loops
      && t.loops[m] == lp.(epoll := if m == target then lp.epoll[fd := c] else lp.epoll,
                           phase := if m == MAIN then lp.phase.(current := Created(c)) else lp.phase)
  {
  }

  // -------------------------------------------------------------------------- closing

  lemma CloseKept(s: State, l: LoopId, c: ConnId)
    requires Core(s) && l in s.loops && Live(s, l, c) && s.conns[c].status.Connected?
    ensures Core(Close(s, l, c))
  {
    hide Count, Pending, ConnOk, TasksOk, LoopOk;
    var t := Close(s, l, c);
    assert ConnOk(s, c) && StageOk(s.conns[c]) by { CloseStage(s, c); }
    forall d | d in t.conns ensures ConnOk(t, d) && TasksOk(t, d) {
      CloseKeepsConn(s, l, c, d);
    }
    forall m | m in s.loops ensures LoopOk(t, m) {
      CloseKeepsLoop(s, l, c, m);
    }
  }

  lemma CloseStage(s: State, c: ConnId)
    requires Core(s) && c in s.conns && s.conns[c].status.Connected?
    ensures var k := s.conns[c]; k.closes == 0 && k.erased == 0 && k.deleted == 0 && StageOk(k)
    ensures s.conns[c].fd in s.byFd && s.byFd[s.conns[c].fd] == c
  {
    assert ConnOk(s, c);
  }

  lemma CloseKeepsConn(s: State, l: LoopId, c: ConnId, d: ConnId)
    requires Core(s) && l in s.loops && Live(s, l, c) && s.conns[c].status.Connected? && d in s.conns
    ensures var t := Close(s, l, c); ConnOk(t, d) && TasksOk(t, d)
  {
    hide ConnOk, TasksOk, LoopOk, MapOk;
    CloseKeepsEntries(s, l, c, d);
    CloseKeepsTasks(s, l, c, d);
  }

  lemma CloseKeepsEntries(s: State, l: LoopId, c: ConnId, d: ConnId)
    requires Core(s) && l in s.loops && Live(s, l, c) && s.conns[c].status.Connected? && d in s.conns
    ensures ConnOk(Close(s, l, c), d)
  {
    hide Count, TasksOk, LoopOk;
    assert ConnOk(s, d) && ConnOk(s, c);
    if d != c {
      ConnKept(s, Close(s, l, c), d);
    }
  }

  lemma CloseKeepsTasks(s: State, l: LoopId, c: ConnId, d: ConnId)
    requires Core(s) && l in s.loops && Live(s, l, c) && s.conns[c].status.Connected? && d in s.conns
    ensures TasksOk(Close(s, l, c), d)
  {
    hide Count, LoopOk, MapOk, ConnOk;
    CloseStage(s, c);
    QueueCounts(s, MAIN, if l == MAIN then Destroy(c) else CloseInLoop(c));
    assert TasksOk(s, d);
  }

  lemma CloseKeepsLoop(s: State, l: LoopId, c: ConnId, m: LoopId)
    requires Core(s) && l in s.loops && Live(s, l, c) && s.conns[c].status.Connected? && m in s.loops
    ensures LoopOk(Close(s, l, c), m)
  {
    hide Core, LoopOk;
    CoreHasLoop(s, m);
    ClosedLoopOk(s, c, m);
    CloseIs(s, l, c);
    hide Close, EraseInLoop, Queue, SetConn;
    var closed := MarkedClosed(s, c);
    if l == MAIN { ErasedLoopOk(closed, c, m); } else { QueuedLoopOk(closed, MAIN, CloseInLoop(c), m); }
  }

  /** The connection after its state has changed, before anything is erased or queued. */
  function MarkedClosed(s: State, c: ConnId): State
    requires c in s.conns
  {
    SetConn(s, c, s.conns[c].(status := Disconnected, closes := s.conns[c].closes + 1))
  }

  lemma CloseIs(s: State, l: LoopId, c: ConnId)
    requires c in s.conns && s.conns[c].loop in s.loops && MAIN in s.loops && !s.conns[c].status.Disconnected?
    ensures var t := MarkedClosed(s, c);
      && c in t.conns && t.conns[c].loop == s.conns[c].loop && t.loops == s.loops
      && Close(s, l, c) == if l == MAIN then EraseInLoop(t, c) else Queue(t, MAIN, CloseInLoop(c))
  {
  }

  lemma CoreHasLoop(s: State, m: LoopId)
    requires Core(s) && m in s.loops
    ensures MAIN in s.loops && LoopOk(s, m)
  {
  }

  lemma ClosedLoopOk(s: State, c: ConnId, m: LoopId)
    requires c in s.conns && s.conns[c].status.Connected? && m in s.loops && LoopOk(s, m)
    ensures LoopOk(MarkedClosed(s, c), m)
  {
    hide LoopOk;
    LoopKept(s, MarkedClosed(s, c), m);
  }

  lemma QueuedLoopOk(s: State, l: LoopId, t: Task, m: LoopId)
    requires l in s.loops && m in s.loops && LoopOk(s, m) && t.conn in s.conns
    ensures LoopOk(Queue(s, l, t), m)
  {
  }

  lemma ErasedLoopOk(s: State, c: ConnId, m: LoopId)
    requires c in s.conns && s.conns[c].loop in s.loops && m in s.loops && LoopOk(s, m)
    ensures LoopOk(EraseInLoop(s, c), m)
  {
    hide LoopOk;
    var k := s.conns[c];
    var erased := SetConn(s.(byFd := s.byFd - {k.fd}), c, k.(erased := k.erased + 1));
    LoopKept(s, erased, m);
    QueuedLoopOk(erased, k.loop, Destroy(c), m);
  }

  // ------------------------------------------------------------------- running a task

  predicate Ready(s: State, l: LoopId) {
    l in s.loops && s.loops[l].phase.Running? && s.loops[l].phase.next < |s.loops[l].phase.batch|
  }

  function NextTask(s: State, l: LoopId): Task
    requires Ready(s, l)
  {
    s.loops[l].phase.batch[s.loops[l].phase.next]
  }

  function Advance(s: State, l: LoopId): State
    requires Ready(s, l)
  {
    SetPhase(s, l, Running(s.loops[l].phase.batch, s.loops[l].phase.next + 1))
  }

  /** A pending erasure is on the main loop, and the map still holds its connection. */
  predicate ErasureInPlace(s: State, l: LoopId, c: ConnId) {
    && l == MAIN && c in s.conns && s.conns[c].loop in s.loops
    && s.conns[c].status.Disconnected? && s.conns[c].closes == 1 && s.conns[c].erased == 0 && s.conns[c].deleted == 0
    && s.conns[c].fd in s.byFd && s.byFd[s.conns[c].fd] == c
  }

  /** A pending deregistration is on the loop where the channel is registered. */
  predicate DeregistrationInPlace(s: State, l: LoopId, c: ConnId) {
    && c in s.conns && s.conns[c].loop == l && l in s.loops
    && s.conns[c].status.Disconnected? && s.conns[c].closes == 1 && s.conns[c].erased == 1 && s.conns[c].deleted == 0
    && s.conns[c].fd in s.loops[l].epoll && s.loops[l].epoll[s.conns[c].fd] == c
  }

  /** A connection about to be closed lives on the loop that closes it; and if this is the
      first close, the map holds the connection under its descriptor. */
  predicate CloseInPlace(s: State, l: LoopId, c: ConnId) {
    && c in s.conns && c !in s.dead && s.conns[c].loop == l && l in s.loops && !s.conns[c].status.Invalid?
    && (!s.conns[c].status.Disconnected? ==>
          s.conns[c].closes == 0 && s.conns[c].fd in s.byFd && s.byFd[s.conns[c].fd] == c)
  }

  /** The connection that a closing action closes. */
  function Closing(s: State, a: Step): ConnId
    requires MAIN in s.loops && Enabled(s, a) && (a.HandleClose? || a.TimerClose?)
  {
    if a.HandleClose? then CurrentOf(s, a.loop).conn else a.conn
  }

  /** Whether an event handler or a timer closes a connection, it is in place. */
  lemma ClosesInPlace(s: State, a: Step)
    requires Inv(s) && Enabled(s, a) && (a.HandleClose? || a.TimerClose?)
    ensures CloseInPlace(s, a.loop, Closing(s, a))
  {
    hide Count, TasksOk, Referenced;
    var c := Closing(s, a);
    assert LoopOk(s, a.loop);
    assert ConnOk(s, c);
    if a.HandleClose? {
      RegisteredIsAlive(s, c);
    }
  }

  /** A task about to run finds its connection in exactly the stage that it ends. */
  lemma TaskInPlace(s: State, l: LoopId)
    requires Core(s) && Ready(s, l)
    ensures match NextTask(s, l)
      case CloseInLoop(c) => ErasureInPlace(s, l, c)
      case Destroy(c) => DeregistrationInPlace(s, l, c)
  {
    hide Count;
    var task := NextTask(s, l);
    RunCounts(s, l);
    assert LoopOk(s, l) && task in s.loops[l].phase.batch;
    assert ConnOk(s, task.conn) && TasksOk(s, task.conn);
    assert Count(s.loops[l], task) >= 1;
  }

  lemma ErasureKept(s: State, c: ConnId)
    requires Core(s) && Ready(s, MAIN) && NextTask(s, MAIN) == CloseInLoop(c) && ErasureInPlace(s, MAIN, c)
    ensures Core(EraseInLoop(Advance(s, MAIN), c))
  {
    hide Count, Pending, ConnOk, TasksOk, LoopOk;
    var t := EraseInLoop(Advance(s, MAIN), c);
    forall d | d in t.conns ensures ConnOk(t, d) && TasksOk(t, d) {
      ErasureKeepsConn(s, c, d);
    }
    forall m | m in s.loops ensures LoopOk(t, m) {
      ErasureKeepsLoop(s, c, m);
    }
  }

  lemma ErasureKeepsConn(s: State, c: ConnId, d: ConnId)
    requires Core(s) && Ready(s, MAIN) && NextTask(s, MAIN) == CloseInLoop(c) && ErasureInPlace(s, MAIN, c)
    requires d in s.conns
    ensures var t := EraseInLoop(Advance(s, MAIN), c); ConnOk(t, d) && TasksOk(t, d)
  {
    hide ConnOk, TasksOk, LoopOk, MapOk;
    ErasureKeepsEntries(s, c, d);
    ErasureKeepsTasks(s, c, d);
  }

  lemma ErasureKeepsEntries(s: State, c: ConnId, d: ConnId)
    requires Core(s) && Ready(s, MAIN) && NextTask(s, MAIN) == CloseInLoop(c) && ErasureInPlace(s, MAIN, c)
    requires d in s.conns
    ensures ConnOk(EraseInLoop(Advance(s, MAIN), c), d)
  {
    hide Count, TasksOk, LoopOk;
    assert ConnOk(s, d) && ConnOk(s, c);
    if d != c {
      ConnKept(s, EraseInLoop(Advance(s, MAIN), c), d);
    }
  }

  /** The loops and the connections after an erasure. */
  lemma ErasureIs(s: State, c: ConnId)
    requires Ready(s, MAIN) && c in s.conns && s.conns[c].loop in s.loops
    ensures var t, k := EraseInLoop(Advance(s, MAIN), c), s.conns[c];
      && t.conns == s.conns[c := k.(erased := k.erased + 1)]
      && t.loops == Queue(Advance(s, MAIN), k.loop, Destroy(c)).loops
  {
  }

  lemma ErasureKeepsTasks(s: State, c: ConnId, d: ConnId)
    requires Core(s) && Ready(s, MAIN) && NextTask(s, MAIN) == CloseInLoop(c) && ErasureInPlace(s, MAIN, c)
    requires d in s.conns
    ensures TasksOk(EraseInLoop(Advance(s, MAIN), c), d)
  {
    hide Count, LoopOk, MapOk, ConnOk;
    hide EraseInLoop;
    var t := EraseInLoop(Advance(s, MAIN), c);
    RunCounts(s, MAIN);
    QueueCounts(Advance(s, MAIN), s.conns[c].loop, Destroy(c));
    ErasureIs(s, c);
    assert TasksOk(s, d);
  }

  lemma ErasureKeepsLoop(s: State, c: ConnId, m: LoopId)
    requires Core(s) && Ready(s, MAIN) && NextTask(s, MAIN) == CloseInLoop(c) && ErasureInPlace(s, MAIN, c)
    requires m in s.loops
    ensures LoopOk(EraseInLoop(Advance(s, MAIN), c), m)
  {
    hide ConnOk, TasksOk, MapOk, EraseInLoop;
    assert LoopOk(s, m);
    AdvancedLoopOk(s, MAIN, m);
    ErasedLoopOk(Advance(s, MAIN), c, m);
  }

  lemma AdvancedLoopOk(s: State, l: LoopId, m: LoopId)
    requires Ready(s, l) && m in s.loops && LoopOk(s, m)
    ensures LoopOk(Advance(s, l), m)
  {
  }

  lemma DeregistrationKept(s: State, l: LoopId, c: ConnId)
    requires Core(s) && Ready(s, l) && NextTask(s, l) == Destroy(c) && DeregistrationInPlace(s, l, c)
    ensures Core(Deregister(Advance(s, l), l, c))
  {
    hide Count, Pending, ConnOk, TasksOk, LoopOk;
    var t := Deregister(Advance(s, l), l, c);
    forall d | d in t.conns ensures ConnOk(t, d) && TasksOk(t, d) {
      DeregistrationKeepsConn(s, l, c, d);
    }
    forall m | m in s.loops ensures LoopOk(t, m) {
      DeregistrationKeepsLoop(s, l, c, m);
    }
  }

  lemma DeregistrationKeepsConn(s: State, l: LoopId, c: ConnId, d: ConnId)
    requires Core(s) && Ready(s, l) && NextTask(s, l) == Destroy(c) && DeregistrationInPlace(s, l, c)
    requires d in s.conns
    ensures var t := Deregister(Advance(s, l), l, c); ConnOk(t, d) && TasksOk(t, d)
  {
    hide ConnOk, TasksOk, LoopOk, MapOk;
    DeregistrationKeepsEntries(s, l, c, d);
    DeregistrationKeepsTasks(s, l, c, d);
  }

  lemma DeregistrationKeepsEntries(s: State, l: LoopId, c: ConnId, d: ConnId)
    requires Core(s) && Ready(s, l) && NextTask(s, l) == Destroy(c) && DeregistrationInPlace(s, l, c)
    requires d in s.conns
    ensures ConnOk(Deregister(Advance(s, l), l, c), d)
  {
    hide Count, TasksOk, LoopOk;
    assert ConnOk(s, d) && ConnOk(s, c);
    if d != c {
      ConnKept(s, Deregister(Advance(s, l), l, c), d);
    }
  }

  lemma DeregistrationKeepsTasks(s: State, l: LoopId, c: ConnId, d: ConnId)
    requires Core(s) && Ready(s, l) && NextTask(s, l) == Destroy(c) && DeregistrationInPlace(s, l, c)
    requires d in s.conns
    ensures TasksOk(Deregister(Advance(s, l), l, c), d)
  {
    hide Count, LoopOk, MapOk, ConnOk;
    RunCounts(s, l);
    CountSame(Advance(s, l).loops[l], Deregister(Advance(s, l), l, c).loops[l], CloseInLoop(d));
    CountSame(Advance(s, l).loops[l], Deregister(Advance(s, l), l, c).loops[l], Destroy(d));
    assert TasksOk(s, d);
  }

  lemma DeregistrationKeepsLoop(s: State, l: LoopId, c: ConnId, m: LoopId)
    requires Core(s) && Ready(s, l) && NextTask(s, l) == Destroy(c) && DeregistrationInPlace(s, l, c)
    requires m in s.loops
    ensures LoopOk(Deregister(Advance(s, l), l, c), m)
  {
    hide ConnOk, TasksOk, MapOk;
    assert LoopOk(s, m);
    if m != l { LoopKept(s, Deregister(Advance(s, l), l, c), m); }
  }

  lemma RunTaskKept(s: State, l: LoopId)
    requires Core(s) && Enabled(s, RunTask(l)) && Defined(s, RunTask(l))
    ensures Core(Effect(s, RunTask(l)))
  {
    hide Core, EraseInLoop, Deregister;
    TaskInPlace(s, l);
    match NextTask(s, l) {
      case CloseInLoop(c) => ErasureKept(s, c);
      case Destroy(c) => DeregistrationKept(s, l, c);
    }
  }

  // ------------------------------------------------------------------- no resurrection

  /** Connections the action may take new references to. */
  function Gains(s: State, a: Step): set<ConnId>
    requires MAIN in s.loops && Enabled(s, a)
  {
    match a
    case Begin(l) => if s.loops[l].phase.active[0].FromConn? then {s.loops[l].phase.active[0].conn} else {}
    case Accept(c, _, _) => {c}
    case Establish => {CurrentOf(s, MAIN).conn}
    case HandleClose(l) => {CurrentOf(s, l).conn}
    case TimerClose(_, c) => {c}
    case RunTask(l) => {NextTask(s, l).conn}
    case _ => {}
  }

  /** New references are taken only from existing ones, or to channels still registered. */
  lemma GainersAlive(s: State, a: Step)
    requires Inv(s) && Enabled(s, a) && Defined(s, a)
    ensures forall c :: c in Gains(s, a) ==> c !in s.dead
  {
    hide Count, ConnOk, TasksOk;
    forall c | c in Gains(s, a) ensures c !in s.dead {
      match a {
        case Begin(l) =>
          assert LoopOk(s, l) && s.loops[l].phase.active[0] in s.loops[l].phase.active;
          RegisteredIsAlive(s, c);
        case Accept(_, _, _) =>
        case Establish => assert LoopHolds(s.loops[MAIN], c);
        case HandleClose(l) => assert LoopHolds(s.loops[l], c);
        case TimerClose(_, _) =>
        case RunTask(l) => assert NextTask(s, l) in s.loops[l].phase.batch && LoopHolds(s.loops[l], c);
      }
    }
  }

  lemma NothingElseGains(s: State, a: Step, c: ConnId)
    requires MAIN in s.loops && Enabled(s, a) && Defined(s, a)
    requires c !in Gains(s, a) && !Referenced(s, c)
    ensures !Referenced(Effect(s, a), c)
  {
    var t := Effect(s, a);
    forall l | l in t.loops ensures !LoopHolds(t.loops[l], c) {
      assert !LoopHolds(s.loops[l], c);
      LoopGainsNothing(s, a, c, l);
    }
    hide LoopHolds;
    assert c !in t.byFd.Values by { MapGainsNothing(s, a, c); }
  }

  lemma LoopGainsNothing(s: State, a: Step, c: ConnId, l: LoopId)
    requires MAIN in s.loops && Enabled(s, a) && Defined(s, a) && l in s.loops
    requires c !in Gains(s, a) && !LoopHolds(s.loops[l], c)
    ensures l in Effect(s, a).loops && !LoopHolds(Effect(s, a).loops[l], c)
  {
  }

  lemma MapGainsNothing(s: State, a: Step, c: ConnId)
    requires MAIN in s.loops && Enabled(s, a) && Defined(s, a)
    requires c !in Gains(s, a) && c !in s.byFd.Values
    ensures c !in Effect(s, a).byFd.Values
  {
  }

  lemma ApplyKeepsDead(s: State, a: Step)
    requires Inv(s) && Enabled(s, a) && Defined(s, a)
    ensures DeadOk(Apply(s, a)) && s.dead <= Apply(s, a).dead
  {
    hide Count, ConnOk, TasksOk, LoopOk, Referenced, Gains;
    var t := Effect(s, a);
    GainersAlive(s, a);
    forall c | c in s.dead ensures c in t.conns && !Referenced(t, c) {
      NothingElseGains(s, a, c);
      EffectKeepsConns(s, a, c);
    }
    forall c ensures Referenced(Collect(t), c) == Referenced(t, c) {
      CollectKeepsReferences(t, c);
    }
  }

  lemma EffectKeepsConns(s: State, a: Step, c: ConnId)
    requires MAIN in s.loops && Enabled(s, a) && Defined(s, a) && c in s.conns
    ensures c in Effect(s, a).conns
    ensures Effect(s, a).dead == s.dead
  {
  }

  lemma CollectKeepsReferences(s: State, c: ConnId)
    ensures Referenced(Collect(s), c) == Referenced(s, c)
  {
  }

  // ---------------------------------------------------------------------- every run

  lemma EnabledIsDefined(s: State, a: Step)
    requires Inv(s) && Enabled(s, a)
    ensures Defined(s, a)
  {
    hide Count, TasksOk, Referenced;
    match a {
      case Establish => assert LoopOk(s, MAIN);
      case HandleClose(l) => assert LoopOk(s, l) && ConnOk(s, CurrentOf(s, l).conn);
      case RunTask(l) => TaskInPlace(s, l);
      case _ =>
    }
  }

  lemma ClosingKept(s: State, l: LoopId, c: ConnId)
    requires Core(s) && l in s.loops && Live(s, l, c)
    ensures s.conns[c].loop in s.loops && Core(Close(s, l, c))
  {
    hide Core;
    if s.conns[c].status.Connected? {
      CloseKept(s, l, c);
    }
  }

  lemma EffectKept(s: State, a: Step)
    requires Inv(s) && Enabled(s, a) && Defined(s, a)
    ensures Core(Effect(s, a))
  {
    match a {
      case Poll(l, active) => PollKept(s, l, active);
      case Accept(c, fd, target) => AcceptKept(s, c, fd, target);
      case Establish => EstablishKept(s);
      case HandleClose(l) => HandlerCloses(s, l);
      case TimerClose(l, c) => TimerCloses(s, l, c);
      case RunTask(l) => RunTaskKept(s, l);
      case Begin(l) => BeginKept(s, l);
      case End(l) => EndKept(s, l);
      case EndWalk(l) => EndWalkKept(s, l);
      case EndBatch(l) => EndBatchKept(s, l);
    }
  }

  lemma HandlerCloses(s: State, l: LoopId)
    requires Inv(s) && Enabled(s, HandleClose(l)) && Defined(s, HandleClose(l))
    ensures Core(Effect(s, HandleClose(l)))
  {
    hide Count, ConnOk, TasksOk, Close;
    assert LoopOk(s, l);
    ClosingKept(s, l, CurrentOf(s, l).conn);
  }

  lemma TimerCloses(s: State, l: LoopId, c: ConnId)
    requires Inv(s) && Enabled(s, TimerClose(l, c)) && Defined(s, TimerClose(l, c))
    ensures Core(Effect(s, TimerClose(l, c)))
  {
    hide Count, TasksOk, Close;
    assert ConnOk(s, c);
    if s.conns[c].status.Connected? {
      CloseStage(s, c);
      ClosingKept(s, l, c);
    } else {
      hide Core;
      CloseIdle(s, l, c);
    }
  }

  lemma CloseIdle(s: State, l: LoopId, c: ConnId)
    requires c in s.conns && s.conns[c].loop in s.loops && MAIN in s.loops && s.conns[c].status.Disconnected?
    ensures Close(s, l, c) == s
  {
  }

  lemma InvKept(s: State, a: Step)
    requires Inv(s) && Enabled(s, a) && Defined(s, a)
    ensures Inv(Apply(s, a))
  {
    EffectKept(s, a);
    ApplyKeepsDead(s, a);
    CollectKeepsCore(Effect(s, a));
  }

  lemma CollectKeepsCore(s: State)
    requires Core(s)
    ensures Core(Collect(s))
  {
    hide Count, Referenced, ConnOk, TasksOk, LoopOk;
    var t := Collect(s);
    forall c | c in t.conns ensures ConnOk(t, c) && TasksOk(t, c) {
      CollectKeepsConn(s, c);
    }
    forall l | l in t.loops ensures LoopOk(t, l) {
      CollectKeepsLoop(s, l);
    }
  }

  lemma CollectKeepsConn(s: State, c: ConnId)
    requires MAIN in s.loops && c in s.conns && ConnOk(s, c) && TasksOk(s, c)
    ensures ConnOk(Collect(s), c) && TasksOk(Collect(s), c)
  {
    hide Count, Referenced;
  }

  lemma CollectKeepsLoop(s: State, l: LoopId)
    requires l in s.loops && LoopOk(s, l)
    ensures LoopOk(Collect(s), l)
  {
    hide Referenced;
  }

  lemma {:induction false} InvAlways(s: State, run: seq<Step>)
    requires Inv(s) && Legal(s, run)
    ensures Inv(After(s, run))
    decreases |run|
  {
    hide Inv, Apply;
    if run != [] {
      InvKept(s, run[0]);
      InvAlways(Apply(s, run[0]), run[1..]);
    }
  }

  lemma InvReachable(others: set<LoopId>, run: seq<Step>)
    requires Legal(Start(others), run)
    ensures Inv(After(Start(others), run))
  {
    var s := Start(others);
    assert Inv(s);
    hide Inv, Legal, After;
    InvAlways(s, run);
  }
}
