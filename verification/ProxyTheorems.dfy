/**
 * What holds in every state that the proxy can reach from `main`, for any number of connections,
 * any interleaving of their events and any answers of the kernel.
 */
module ProxyTheorems {
  import opened Common
  import opened Buffers
  import opened Selectors
  import opened Connections
  import opened ConnectionLaws
  import opened ConnectionEvents
  import opened Proxy
  import opened ProxySteps
  import Hello

  /** Some possible actions lead here from the start. */
  ghost predicate Reachable(w: World) {
    exists server, monitor, users, actions ::
      && server != monitor && !InvalidFd(server) && !InvalidFd(monitor)
      && Lawful(Start(server, monitor, users), actions)
      && Run(Start(server, monitor, users), actions) == Goes(w)
  }

  /** No run reaches abort(), the dispatcher's assertion, or a dangling or absent union member. */
  lemma NeverAborts(server: int, monitor: int, users: map<seq<byte>, seq<byte>>, actions: seq<Action>)
    requires server != monitor && !InvalidFd(server) && !InvalidFd(monitor)
    requires Lawful(Start(server, monitor, users), actions)
    ensures Run(Start(server, monitor, users), actions).Goes?
  {
    hide Sound, Possible, Step;
    StartSound(server, monitor, users);
    RunOk(Start(server, monitor, users), actions);
  }

  lemma ReachableSound(w: World)
    requires Reachable(w)
    ensures Sound(w)
  {
    hide Sound, Possible, Step;
    var server, monitor, users, actions :|
      && server != monitor && !InvalidFd(server) && !InvalidFd(monitor)
      && Lawful(Start(server, monitor, users), actions)
      && Run(Start(server, monitor, users), actions) == Goes(w);
    StartSound(server, monitor, users);
    RunOk(Start(server, monitor, users), actions);
  }

  /** One more possible action leads to a reachable world. */
  lemma ReachableStep(w: World, action: Action)
    requires Reachable(w) && Possible(w, action)
    ensures Step(w, action).Goes? && Reachable(Step(w, action).w)
  {
    hide Sound, Possible, Step;
    ReachableSound(w);
    StepOk(w, action);
    var server, monitor, users, actions :|
      && server != monitor && !InvalidFd(server) && !InvalidFd(monitor)
      && Lawful(Start(server, monitor, users), actions)
      && Run(Start(server, monitor, users), actions) == Goes(w);
    RunFurther(Start(server, monitor, users), actions, w, action);
  }

  lemma {:induction false} RunFurther(u: World, actions: seq<Action>, w: World, action: Action)
    requires Lawful(u, actions) && Run(u, actions) == Goes(w) && Possible(w, action) && Step(w, action).Goes?
    ensures Lawful(u, actions + [action]) && Run(u, actions + [action]) == Step(w, action)
    decreases |actions|
  {
    hide Possible, Step;
    if actions == [] {
      assert [action][1..] == [];
      assert actions + [action] == [action];
    } else {
      RunFurther(Step(u, actions[0]).w, actions[1..], w, action);
      assert (actions + [action])[1..] == actions[1..] + [action];
    }
  }

  lemma LiveInv(w: World, a: nat)
    requires Reachable(w) && a in w.live
    ensures Inv(w.live[a]) && Holders(w.live[a]) > 0
  {
    hide Inv, Holders, Listed, Attached, Queued, Pooled, Metered, Reachable;
    ReachableSound(w);
  }

  /** A connection of this world, alive or as it was when its last holder let go. */
  ghost predicate Of(w: World, c: Conn) {
    (exists a :: a in w.live && w.live[a] == c) || c in w.closed
  }

  lemma OfCore(w: World, c: Conn)
    requires Reachable(w) && Of(w, c)
    ensures Core(c)
  {
    hide Core, Resting, Registered, Listed, Attached, Queued, Pooled, Reachable;
    ReachableSound(w);
    if c in w.closed {
      var i :| 0 <= i < |w.closed| && w.closed[i] == c;
      assert Gone(w.closed[i]);
    } else {
      var a :| a in w.live && w.live[a] == c;
      LiveInv(w, a);
    }
  }

  // ---------------------------------------------------------------- interests and handlers

  function StateOf(c: Conn): State {
    if c.current.None? then HelloRead else c.current.value
  }

  /**
   * A descriptor that is watched for reading or writing belongs to a live connection whose state has
   * a handler for it, and both descriptors that socksv5_done would unregister are registered.
   */
  lemma InterestsMatchState(w: World, fd: int)
    requires Reachable(w) && fd in w.table && w.table[fd].handler.SocksClient?
    ensures var a := w.table[fd].data;
            && a in w.live && (fd == w.live[a].clientFd || fd == w.live[a].originFd)
            && !Over(w.live[a])
            && (w.table[fd].interest.read ==> TABLE[Number(StateOf(w.live[a]))].onRead.Some?)
            && (w.table[fd].interest.write ==> TABLE[Number(StateOf(w.live[a]))].onWrite.Some?)
            && w.live[a].clientFd in w.table && w.table[w.live[a].clientFd].data == a
            && (w.live[a].originFd != -1 ==> w.live[a].originFd in w.table && w.table[w.live[a].originFd].data == a)
  {
    hide Inv, Over, Rows, Sound;
    ReachableSound(w);
    OwnerOf(w, fd);
    var a := w.table[fd].data;
    LiveInv(w, a);
    RowsHandled(a, w.live[a], fd);
    RowsListed(w, a);
  }

  lemma OwnerOf(w: World, fd: int)
    requires Sound(w) && fd in w.table && w.table[fd].handler.SocksClient?
    ensures var a := w.table[fd].data;
            a in w.live && fd in Rows(a, w.live[a]) && w.table[fd] == Rows(a, w.live[a])[fd]
  {
    hide Inv, Holders, Rows, Queued, Pooled, Metered;
  }

  lemma RowsHandled(a: nat, c: Conn, fd: int)
    requires Inv(c) && fd in Rows(a, c)
    ensures fd == c.clientFd || fd == c.originFd
    ensures !Over(c)
    ensures Rows(a, c)[fd].interest.read ==> TABLE[Number(StateOf(c))].onRead.Some?
    ensures Rows(a, c)[fd].interest.write ==> TABLE[Number(StateOf(c))].onWrite.Some?
  {
    hide Core, Wanted, Login, Hello.Describes;
  }

  lemma RowsListed(w: World, a: nat)
    requires Sound(w) && a in w.live && !Over(w.live[a])
    ensures var c := w.live[a];
            && c.clientFd in w.table && w.table[c.clientFd].data == a
            && (c.originFd != -1 ==> c.originFd in w.table && w.table[c.originFd].data == a)
  {
    hide Core, Resting, Attached, Queued, Pooled, Metered;
    var c := w.live[a];
    assert c.clientFd in Rows(a, c);
    RowsOf(a, c, c.clientFd);
    RowsOf(a, c, c.originFd);
    if c.originFd != -1 {
      assert c.originFd in Rows(a, c);
    }
  }

  /**
   * handle_iteration copies the attachment before it calls the read handler and uses the copy for the write
   * handler: it is still the attachment of that descriptor, if the descriptor is still registered.
   */
  lemma AttachmentStays(w: World, fd: int, kind: EventKind, answers: Answers)
    requires Sound(w) && Possible(w, Readiness(fd, kind, answers))
    ensures var r := Step(w, Readiness(fd, kind, answers));
            && r.Goes?
            && (fd in r.w.table ==>
                  r.w.table[fd].data == w.table[fd].data && r.w.table[fd].handler == w.table[fd].handler)
  {
    hide Sound, Serve, Opened, Release, HasHandler, FdsOf, Freed;
    ReadyOk(w, fd, kind, answers);
    HandlerSet(w, fd, kind);
    if w.table[fd].handler.SocksClient? {
      ServeKeeps(w, fd, kind, answers);
    }
  }

  lemma ServeKeeps(w: World, fd: int, kind: EventKind, answers: Answers)
    requires Sound(w) && Possible(w, Readiness(fd, kind, answers)) && w.table[fd].handler.SocksClient?
    ensures var r := Serve(w, w.table[fd].data, kind, fd, answers.k);
            r.Goes? && (fd in r.w.table ==> r.w.table[fd].data == w.table[fd].data && r.w.table[fd].handler == SocksClient)
  {
    hide Sound, Dispatch, Commit, FdsOf, Open, Freed;
    ServeOk(w, fd, kind, answers);
    OwnerOf(w, fd);
    var a := w.table[fd].data;
    var c := Dispatch(w.live[a], kind, fd, answers.k).c;
    CommitTable(w, a, c, fd);
    RowsOf(a, c, fd);
    hide Rows;
  }

  // ---------------------------------------------------------------- tickets

  /** The queued jobs of one connection. */
  function JobsOf(jobs: seq<Job>, a: nat): nat {
    if jobs == [] then 0 else (if jobs[0].owner == a then 1 else 0) + JobsOf(jobs[1..], a)
  }

  /** What will wake the connection at `a` in RESOLVING: its running resolver and its queued jobs. */
  function Tickets(w: World, a: nat): nat
    requires a in w.live
  {
    (if w.live[a].resolver.Running? then 1 else 0) + JobsOf(w.jobs, a)
  }

  lemma {:induction false} JobsOfNone(jobs: seq<Job>, a: nat)
    requires forall i | 0 <= i < |jobs| :: jobs[i].owner != a
    ensures JobsOf(jobs, a) == 0
  {
    if jobs != [] {
      JobsOfNone(jobs[1..], a);
    }
  }

  lemma {:induction false} JobsOfOne(jobs: seq<Job>, a: nat, k: nat)
    requires k < |jobs| && jobs[k].owner == a
    requires forall i, j | 0 <= i < j < |jobs| :: jobs[i].owner != jobs[j].owner
    ensures JobsOf(jobs, a) == 1
  {
    if k == 0 {
      JobsOfNone(jobs[1..], a);
    } else {
      JobsOfOne(jobs[1..], a, k - 1);
    }
  }

  /**
   * A connection in RESOLVING has either a resolver that has not answered or one queued job, unless
   * the mark says that the job could not be allocated; no other connection has either.
   */
  lemma TicketCount(w: World, a: nat)
    requires Reachable(w) && a in w.live
    ensures var c := w.live[a];
            Tickets(w, a) == if c.current == Some(Resolving) && !c.hist.lost then 1 else 0
  {
    hide Reachable;
    LiveInv(w, a);
    var c := w.live[a];
    TicketOf(c);
    hide Inv, Holders;
    JobsCounted(w, a);
  }

  lemma TicketOf(c: Conn)
    requires Inv(c)
    ensures if c.current == Some(Resolving) then
              if c.resolver.Running? then !c.job && !c.hist.lost else c.job <==> !c.hist.lost
            else !c.resolver.Running? && !c.job
  {
    hide Core, Wanted, Login, Hello.Describes;
  }

  lemma JobsCounted(w: World, a: nat)
    requires Reachable(w) && a in w.live
    ensures JobsOf(w.jobs, a) == if w.live[a].job then 1 else 0
  {
    hide Inv, Holders, Connected, Listed, Attached, Pooled, Metered, Reachable;
    ReachableSound(w);
    if w.live[a].job {
      var i :| 0 <= i < |w.jobs| && w.jobs[i].owner == a;
      JobsOfOne(w.jobs, a, i);
    } else {
      JobsOfNone(w.jobs, a);
    }
  }

  /**
   * A job carries only a descriptor, and yet its delivery serves the connection that queued it, once:
   * that connection is still registered there and in RESOLVING, and is not in RESOLVING afterwards.
   */
  lemma DeliveredToOwner(w: World, k: Kernel)
    requires Reachable(w) && Possible(w, Deliver(k))
    ensures var a := w.jobs[0].owner;
            && a in w.live && w.live[a].current == Some(Resolving)
            && w.jobs[0].fd in w.table && w.table[w.jobs[0].fd].data == a
            && Step(w, Deliver(k)) == Serve(w.(jobs := w.jobs[1..]), a, Block, w.jobs[0].fd, k)
            && Dispatch(w.live[a], Block, w.jobs[0].fd, k).Alive?
            && Dispatch(w.live[a], Block, w.jobs[0].fd, k).c.current != Some(Resolving)
  {
    hide Sound, Reachable, Dispatch, Serve;
    ReachableSound(w);
    JobFindsOwner(w, 0);
    var a := w.jobs[0].owner;
    JobServed(w, k);
    LeavesResolving(w.live[a], w.jobs[0].fd, k);
  }

  lemma JobServed(w: World, k: Kernel)
    requires Sound(w) && Possible(w, Deliver(k)) && w.jobs[0].owner in w.live
    ensures Dispatch(w.live[w.jobs[0].owner], Block, w.jobs[0].fd, k).Alive?
  {
    hide Inv, Holders, Dispatch, Enabled, Over, Rows, Attached, Queued, Pooled, Metered;
    var a := w.jobs[0].owner;
    JobFindsOwner(w, 0);
    OthersLive(w, a);
    AttemptsFresh(w, a, k.attempts);
    EventOk(w.live[a], Block, w.jobs[0].fd, k);
  }

  lemma LeavesResolving(c: Conn, fd: int, k: Kernel)
    requires c.current == Some(Resolving) && Dispatch(c, Block, fd, k).Alive?
    ensures Dispatch(c, Block, fd, k).c.current != Some(Resolving)
  {
    hide BlockReady, Grows;
    BlockLeaves(c.(job := false), k);
  }

  lemma BlockLeaves(c: Conn, k: Kernel)
    requires c.client.RequestSt?
    ensures BlockReady(c, k).next != Resolving
  {
    hide ConnectNext, Grows;
  }
}
