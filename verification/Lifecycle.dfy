/** The life of connections across reactors: one main loop that accepts and erases, any
    number of loops that handle events, and shared ownership that decides when an object dies
    and its descriptor is closed. Every action below is atomic in the source's terms, and the
    loops interleave freely. */
module Lifecycle {

  /** Identity of a connection object; never reused, unlike descriptors. */
  type ConnId = nat
  type Fd = nat
  type LoopId = nat

  const MAIN: LoopId := 0

  datatype Status = Invalid | Connected | Disconnected

  /** `closes`, `erased` and `deleted` count the invocations of the close callback, the
      removals from the connection map and the deregistrations. */
  datatype Conn = Conn(fd: Fd, loop: LoopId, status: Status, closes: nat, erased: nat, deleted: nat)

  /** Bound functions; each holds a shared pointer to its connection. */
  datatype Task = CloseInLoop(conn: ConnId) | Destroy(conn: ConnId)

  datatype Source = FromConn(conn: ConnId) | FromAcceptor | FromOther

  /** What the event handler in progress is doing. `Event`, `Created` and `Established` keep a
      shared pointer on the stack. */
  datatype Current = Nothing | Event(conn: ConnId) | Accepting | Created(conn: ConnId) | Established(conn: ConnId) | Other

  datatype Phase =
    | Polling
    | Walking(active: seq<Source>, current: Current)
    | Running(batch: seq<Task>, next: nat)

  /** `epoll` is the kernel's registration set of the loop. */
  datatype Loop = Loop(phase: Phase, toDo: seq<Task>, epoll: map<Fd, ConnId>)

  datatype State = State(
    conns: map<ConnId, Conn>,
    byFd: map<Fd, ConnId>,
    loops: map<LoopId, Loop>,
    dead: set<ConnId>)

  datatype Step =
    | Poll(loop: LoopId, active: seq<Source>)
    | Begin(loop: LoopId)
    | Accept(conn: ConnId, fd: Fd, target: LoopId)
    | Establish
    | HandleClose(loop: LoopId)
    | TimerClose(loop: LoopId, conn: ConnId)
    | End(loop: LoopId)
    | EndWalk(loop: LoopId)
    | RunTask(loop: LoopId)
    | EndBatch(loop: LoopId)

  // ------------------------------------------------------------------- ownership

  predicate LoopHolds(lp: Loop, c: ConnId) {
    || (exists t :: t in lp.toDo && t.conn == c)
    || (lp.phase.Running? && exists t :: t in lp.phase.batch && t.conn == c)
    || (lp.phase.Walking? && lp.phase.current in {Event(c), Created(c), Established(c)})
  }

  /** Some shared pointer to the connection exists. */
  predicate Referenced(s: State, c: ConnId) {
    c in s.byFd.Values || exists l :: l in s.loops && LoopHolds(s.loops[l], c)
  }

  /** The objects whose last reference is gone are destroyed, which closes their descriptors. */
  function Collect(s: State): State {
    s.(dead := s.dead + set c | c in s.conns && !Referenced(s, c))
  }

  // ----------------------------------------------------------------- transitions

  function SetLoop(s: State, l: LoopId, lp: Loop): State { s.(loops := s.loops[l := lp]) }

  function SetPhase(s: State, l: LoopId, p: Phase): State
    requires l in s.loops
  {
    SetLoop(s, l, s.loops[l].(phase := p))
  }

  function Queue(s: State, l: LoopId, t: Task): State
    requires l in s.loops
  {
    SetLoop(s, l, s.loops[l].(toDo := s.loops[l].toDo + [t]))
  }

  function SetConn(s: State, c: ConnId, k: Conn): State { s.(conns := s.conns[c := k]) }

  predicate IsWalking(s: State, l: LoopId) { l in s.loops && s.loops[l].phase.Walking? }

  function CurrentOf(s: State, l: LoopId): Current
    requires IsWalking(s, l)
  {
    s.loops[l].phase.current
  }

  function SetCurrent(s: State, l: LoopId, c: Current): State
    requires IsWalking(s, l)
  {
    SetPhase(s, l, s.loops[l].phase.(current := c))
  }

  /** `TcpServer::HandleCloseInLoop`. */
  function EraseInLoop(s: State, c: ConnId): State
    requires c in s.conns && s.conns[c].loop in s.loops
  {
    var k := s.conns[c];
    Queue(SetConn(s.(byFd := s.byFd - {k.fd}), c, k.(erased := k.erased + 1)), k.loop, Destroy(c))
  }

  /** `TcpConnection::HandleClose` on loop `l`: only the first call has an effect. The main
      loop erases at once, the others queue the erasure on the main loop. */
  function Close(s: State, l: LoopId, c: ConnId): State
    requires c in s.conns && s.conns[c].loop in s.loops && MAIN in s.loops
  {
    var k := s.conns[c];
    if k.status.Disconnected? then s
    else
      var s' := SetConn(s, c, k.(status := Disconnected, closes := k.closes + 1));
      if l == MAIN then EraseInLoop(s', c) else Queue(s', MAIN, CloseInLoop(c))
  }

  /** `TcpConnection::ConnectionDestructor`: the channel leaves the loop it runs on. */
  function Deregister(s: State, l: LoopId, c: ConnId): State
    requires c in s.conns && l in s.loops
  {
    var k := s.conns[c];
    var lp := s.loops[l];
    SetLoop(SetConn(s, c, k.(deleted := k.deleted + 1)), l, lp.(epoll := lp.epoll - {k.fd}))
  }

  predicate Reportable(s: State, l: LoopId, src: Source)
    requires l in s.loops
  {
    match src
    case FromConn(c) => c in s.conns && s.conns[c].fd in s.loops[l].epoll && s.loops[l].epoll[s.conns[c].fd] == c
                        && !s.conns[c].status.Invalid?
    case FromAcceptor => l == MAIN
    case FromOther => true
  }

  predicate Enabled(s: State, a: Step)
    requires MAIN in s.loops
  {
    match a
    case Poll(l, active) => l in s.loops && s.loops[l].phase.Polling? && forall src :: src in active ==> Reportable(s, l, src)
    case Begin(l) => IsWalking(s, l) && CurrentOf(s, l).Nothing? && s.loops[l].phase.active != []
    case Accept(c, fd, target) =>
      && IsWalking(s, MAIN) && CurrentOf(s, MAIN).Accepting? && c !in s.conns && target in s.loops
      // The system hands out a descriptor that no living object holds open.
      && forall d :: d in s.conns && d !in s.dead ==> s.conns[d].fd != fd
    case Establish => IsWalking(s, MAIN) && CurrentOf(s, MAIN).Created?
    case HandleClose(l) => IsWalking(s, l) && CurrentOf(s, l).Event?
    case TimerClose(l, c) =>
      // The timer holds a weak pointer: the check runs only while the object lives.
      IsWalking(s, l) && CurrentOf(s, l).Other? && c in s.conns && c !in s.dead
      && s.conns[c].loop == l && !s.conns[c].status.Invalid?
    case End(l) => IsWalking(s, l) && (CurrentOf(s, l).Event? || CurrentOf(s, l).Established? || CurrentOf(s, l).Other?)
    case EndWalk(l) => IsWalking(s, l) && CurrentOf(s, l).Nothing? && s.loops[l].phase.active == []
    case RunTask(l) => l in s.loops && s.loops[l].phase.Running? && s.loops[l].phase.next < |s.loops[l].phase.batch|
    case EndBatch(l) => l in s.loops && s.loops[l].phase.Running? && s.loops[l].phase.next == |s.loops[l].phase.batch|
  }

  /** Objects that the action touches exist: what raw pointers and bound functions rely on. */
  predicate Defined(s: State, a: Step)
    requires MAIN in s.loops && Enabled(s, a)
  {
    match a
    case Establish => CurrentOf(s, MAIN).conn in s.conns
    case HandleClose(l) => CurrentOf(s, l).conn in s.conns && s.conns[CurrentOf(s, l).conn].loop in s.loops
    case RunTask(l) => var c := s.loops[l].phase.batch[s.loops[l].phase.next].conn; c in s.conns && s.conns[c].loop in s.loops
    case _ => true
  }

  /** The effect of an action before objects are collected. */
  function Effect(s: State, a: Step): State
    requires MAIN in s.loops && Enabled(s, a) && Defined(s, a)
  {
    match a
    case Poll(l, active) => SetPhase(s, l, Walking(active, Nothing))
    case Begin(l) =>
      var active := s.loops[l].phase.active;
      SetPhase(s, l, Walking(active[1..], match active[0]
        case FromConn(c) => Event(c)
        case FromAcceptor => Accepting
        case FromOther => Other))
    case Accept(c, fd, target) =>
      var k := Conn(fd, target, Invalid, 0, 0, 0);
      var lp := s.loops[target];
      var s' := SetLoop(SetConn(s, c, k), target, lp.(epoll := lp.epoll[fd := c]));
      SetCurrent(s'.(byFd := s'.byFd[fd := c]), MAIN, Created(c))
    case Establish =>
      var c := CurrentOf(s, MAIN).conn;
      SetCurrent(SetConn(s, c, s.conns[c].(status := Connected)), MAIN, Established(c))
    case HandleClose(l) => Close(s, l, CurrentOf(s, l).conn)
    case TimerClose(l, c) => Close(s, l, c)
    case End(l) => SetCurrent(s, l, Nothing)
    case EndWalk(l) => SetLoop(s, l, s.loops[l].(phase := Running(s.loops[l].toDo, 0), toDo := []))
    case RunTask(l) =>
      var p := s.loops[l].phase;
      var s' := SetPhase(s, l, Running(p.batch, p.next + 1));
      (match p.batch[p.next]
       case CloseInLoop(c) => EraseInLoop(s', c)
       case Destroy(c) => Deregister(s', l, c))
    case EndBatch(l) => SetPhase(s, l, Polling)
  }

  function Apply(s: State, a: Step): State
    requires MAIN in s.loops && Enabled(s, a) && Defined(s, a)
  {
    Collect(Effect(s, a))
  }

  // ------------------------------------------------------------------------- runs

  /** The main loop and any number of other loops, all about to poll, with no connection. */
  function Start(others: set<LoopId>): State {
    State(map[], map[], map l | l in others + {MAIN} :: Loop(Polling, [], map[]), {})
  }

  predicate Legal(s: State, run: seq<Step>)
    decreases |run|
  {
    run == [] || (MAIN in s.loops && Enabled(s, run[0]) && Defined(s, run[0]) && Legal(Apply(s, run[0]), run[1..]))
  }

  function After(s: State, run: seq<Step>): State
    requires Legal(s, run)
    decreases |run|
  {
    if run == [] then s else After(Apply(s, run[0]), run[1..])
  }
}
