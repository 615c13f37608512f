/** The server object and the loops it drives: the connection map and the task lists are
    updated in place, and each method is proved to be one action of the life-cycle machine. */
module TcpServers {
  import opened Lifecycle
  import opened LifecycleInvariant
  import opened LifecycleLiveness

  class TcpServer {
    /** Every connection object ever made; the destroyed ones are in `dead`. */
    var conns: map<ConnId, Conn>
    var connectionsMap: map<Fd, ConnId>
    var loops: map<LoopId, Loop>
    var dead: set<ConnId>

    ghost function View(): State
      reads this
    {
      State(conns, connectionsMap, loops, dead)
    }

    constructor (others: set<LoopId>)
      ensures View() == Start(others) && Inv(View())
    {
      conns, connectionsMap, dead := map[], map[], {};
      loops := map l | l in others + {MAIN} :: Loop(Polling, [], map[]);
      new;
      assert Legal(View(), []) && After(View(), []) == View();
      InvReachable(others, []);
    }

    /** The last shared pointer to an object goes away. */
    method Release()
      modifies this`dead
      ensures View() == Collect(old(View()))
    {
      var s := State(conns, connectionsMap, loops, dead);
      dead := Collect(s).dead;
    }

    method QueueOneFunc(l: LoopId, t: Task)
      requires l in loops
      modifies this`loops
      ensures View() == Queue(old(View()), l, t)
    {
      loops := loops[l := loops[l].(toDo := loops[l].toDo + [t])];
    }

    /** A connection object is made on the chosen loop, whose kernel set it joins, and entered
        into the map under its descriptor, which is not there yet. */
    method HandleNewConnection(c: ConnId, fd: Fd, target: LoopId)
      requires Inv(View()) && Enabled(View(), Step.Accept(c, fd, target))
      modifies this
      ensures Inv(View()) && View() == Apply(old(View()), Step.Accept(c, fd, target))
      ensures old(fd !in connectionsMap) && connectionsMap == old(connectionsMap)[fd := c]
    {
      hide Inv;
      ghost var s := View();
      InvKept(s, Step.Accept(c, fd, target));
      AcceptedFdIsNew(s, c, fd, target);
      conns := conns[c := Conn(fd, target, Invalid, 0, 0, 0)];
      loops := loops[target := loops[target].(epoll := loops[target].epoll[fd := c])];
      connectionsMap := connectionsMap[fd := c];
      loops := loops[MAIN := loops[MAIN].(phase := loops[MAIN].phase.(current := Created(c)))];
      Release();
    }

    /** Whichever loop the close starts on, the map is changed by the main loop. */
    method HandleClose(l: LoopId, c: ConnId)
      requires c in conns && MAIN in loops && conns[c].loop in loops
      requires !conns[c].status.Disconnected? ==> conns[c].fd in connectionsMap
      modifies this
      ensures View() == Close(old(View()), l, c)
    {
      if conns[c].status != Disconnected {
        conns := conns[c := conns[c].(status := Disconnected, closes := conns[c].closes + 1)];
        if l == MAIN {
          HandleCloseInLoop(c);
        } else {
          QueueOneFunc(MAIN, CloseInLoop(c));
        }
      }
    }

    /** An event handler or an idle check closes a connection on its loop. In every state the
        machine reaches what `HandleClose` demands is met, also where it erases at once. */
    method CloseFrom(a: Step)
      requires Inv(View()) && Enabled(View(), a) && (a.HandleClose? || a.TimerClose?)
      modifies this
      ensures Defined(old(View()), a)
      ensures Inv(View()) && View() == Apply(old(View()), a)
      ensures Closed(old(View()), View(), a.loop, old(Closing(View(), a)))
    {
      ghost var s := View();
      EnabledIsDefined(s, a);
      InvKept(s, a);
      ClosesInPlace(s, a);
      var c := if a.HandleClose? then loops[a.loop].phase.current.conn else a.conn;
      CloseIsEffect(s, a);
      assert MAIN in loops;
      hide Inv, Enabled, Defined, Effect, Close;
      HandleClose(a.loop, c);
      Release();
    }

    /** The descriptor is in the map: the caller must know, for the source asserts it. */
    method HandleCloseInLoop(c: ConnId)
      requires c in conns && conns[c].loop in loops && conns[c].fd in connectionsMap
      modifies this
      ensures View() == EraseInLoop(old(View()), c)
      ensures connectionsMap == old(connectionsMap) - {conns[c].fd}
    {
      var fd := conns[c].fd;
      connectionsMap := connectionsMap - {fd};
      conns := conns[c := conns[c].(erased := conns[c].erased + 1)];
      QueueOneFunc(conns[c].loop, Destroy(c));
    }

    /** The channel leaves the kernel set of its loop, where it is registered. */
    method ConnectionDestructor(l: LoopId, c: ConnId)
      requires c in conns && l in loops && conns[c].fd in loops[l].epoll
      modifies this
      ensures View() == Deregister(old(View()), l, c)
    {
      loops := loops[l := loops[l].(epoll := loops[l].epoll - {conns[c].fd})];
      conns := conns[c := conns[c].(deleted := conns[c].deleted + 1)];
    }

    /** The next function of the batch runs; in every state the machine reaches, what the
        functions above demand is met. */
    method RunNext(l: LoopId)
      requires Inv(View()) && Ready(View(), l)
      modifies this
      ensures MAIN in old(loops) && Enabled(old(View()), RunTask(l)) && Defined(old(View()), RunTask(l))
      ensures Inv(View()) && View() == Apply(old(View()), RunTask(l))
      ensures l in loops && loops[l].phase == Running(old(loops[l].phase.batch), old(loops[l].phase.next) + 1)
      ensures Ran(View(), old(NextTask(View(), l)))
      ensures forall t :: Ran(old(View()), t) ==> Ran(View(), t)
    {
      hide Ran, Inv, Core;
      ghost var s := View();
      InvHasCore(s);
      EnabledIsDefined(s, RunTask(l));
      InvKept(s, RunTask(l));
      TaskInPlace(s, l);
      TaskRan(s, l);
      forall t | Ran(s, t) ensures Ran(Apply(s, RunTask(l)), t) {
        StaysRan(s, l, t);
      }
      var p := loops[l].phase;
      loops := loops[l := loops[l].(phase := Running(p.batch, p.next + 1))];
      assert View() == Advance(s, l);
      match p.batch[p.next] {
        case CloseInLoop(c) => HandleCloseInLoop(c);
        case Destroy(c) => ConnectionDestructor(l, c);
      }
      assert View() == Effect(s, RunTask(l));
      Release();
    }

    /** The walk over the reported channels is over: what is queued is swapped out. */
    method SwapOut(l: LoopId)
      requires Inv(View()) && MAIN in loops && Enabled(View(), EndWalk(l))
      modifies this
      ensures Inv(View()) && Defined(old(View()), EndWalk(l)) && View() == Apply(old(View()), EndWalk(l))
      ensures l in loops && loops[l].phase == Running(old(loops[l].toDo), 0) && loops[l].toDo == []
    {
      SwapIsEffect(View(), l);
      hide Inv, Enabled, Defined, Apply;
      loops := loops[l := loops[l].(phase := Running(loops[l].toDo, 0), toDo := [])];
      Release();
    }

    method EndBatch(l: LoopId)
      requires Inv(View()) && MAIN in loops && Enabled(View(), Step.EndBatch(l))
      modifies this
      ensures Inv(View()) && Defined(old(View()), Step.EndBatch(l)) && View() == Apply(old(View()), Step.EndBatch(l))
      ensures l in loops && loops[l].phase.Polling? && conns == old(conns)
    {
      EndIsEffect(View(), l);
      hide Inv, Enabled, Defined, Apply;
      loops := loops[l := loops[l].(phase := Polling)];
      Release();
    }

    /** Swaps out the functions queued on a loop and runs them: every one finds its connection
        alive and in the stage it ends, and has its effect. */
    method DoToDoList(l: LoopId)
      requires Inv(View()) && MAIN in loops && Enabled(View(), EndWalk(l))
      modifies this
      ensures Inv(View()) && l in loops && loops[l].phase.Polling?
      ensures forall t :: t in old(loops[l].toDo) ==> Ran(View(), t)
    {
      hide Inv, Apply, Ran, Defined;
      ghost var batch := loops[l].toDo;
      SwapOut(l);
      for i := 0 to |loops[l].phase.batch|
        invariant Inv(View()) && l in loops && loops[l].phase == Running(batch, i)
        invariant forall k :: 0 <= k < i ==> Ran(View(), batch[k])
      {
        hide Enabled;
        RunNext(l);
      }
      MainExists(View());
      ghost var s := View();
      EndBatch(l);
      SameConnsRan(s, View());
    }
  }

  lemma SwapIsEffect(s: State, l: LoopId)
    requires Inv(s) && MAIN in s.loops && Enabled(s, EndWalk(l))
    ensures Defined(s, EndWalk(l)) && Inv(Apply(s, EndWalk(l))) && l in s.loops
    ensures Apply(s, EndWalk(l)) == Collect(SetLoop(s, l, s.loops[l].(phase := Running(s.loops[l].toDo, 0), toDo := [])))
  {
    hide Inv, Leads, Collect;
    OneStep(s, EndWalk(l));
  }

  lemma EndIsEffect(s: State, l: LoopId)
    requires Inv(s) && MAIN in s.loops && Enabled(s, EndBatch(l))
    ensures Defined(s, EndBatch(l)) && Inv(Apply(s, EndBatch(l))) && l in s.loops
    ensures Apply(s, EndBatch(l)) == Collect(SetLoop(s, l, s.loops[l].(phase := Polling)))
  {
    hide Inv, Leads, Collect;
    OneStep(s, EndBatch(l));
  }

  lemma MainExists(s: State)
    requires Inv(s)
    ensures MAIN in s.loops
  {
  }

  lemma SameConnsRan(s: State, t: State)
    requires s.conns == t.conns
    ensures forall x :: Ran(s, x) ==> Ran(t, x)
  {
  }

  /** The connection is closed; the map has lost its entry, which it held, if the main loop
      was the first to close it, and otherwise the map is the same. */
  predicate Closed(s: State, t: State, l: LoopId, c: ConnId) {
    && c in s.conns && c in t.conns && t.conns[c].status.Disconnected?
    && (if l == MAIN && !s.conns[c].status.Disconnected?
        then s.conns[c].fd in s.byFd && s.byFd[s.conns[c].fd] == c && t.byFd == s.byFd - {s.conns[c].fd}
        else t.byFd == s.byFd)
  }

  lemma CloseIsEffect(s: State, a: Step)
    requires MAIN in s.loops && Enabled(s, a) && Defined(s, a) && (a.HandleClose? || a.TimerClose?)
    requires var c := Closing(s, a); CloseInPlace(s, a.loop, c) && s.conns[c].loop in s.loops
    ensures Apply(s, a) == Collect(Close(s, a.loop, Closing(s, a)))
    ensures Closed(s, Apply(s, a), a.loop, Closing(s, a))
  {
  }
}
