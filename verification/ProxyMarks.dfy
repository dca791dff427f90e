/**
 * Over actions: the three promises that the code does not keep altogether, failing in exactly the
 * actions in which the kernel or the allocator gives one particular answer.
 */
module ProxyMarks {
  import opened Common
  import opened Buffers
  import opened Selectors
  import opened Connections
  import opened ConnectionLaws
  import opened ConnectionEvents
  import opened Failover
  import opened Logins
  import opened Proxy
  import opened ProxySteps
  import opened ProxyTheorems
  import opened ProxyHistories
  import ProxyNames
  import Requests

  /** The action is a write event on the origin's descriptor of the connection at `a`, in CONNECTING. */
  predicate DialsOrigin(w: World, action: Action, a: nat)
    requires a in w.live
  {
    && action.Readiness? && action.fd in w.table && w.table[action.fd].handler.SocksClient?
    && w.table[action.fd].data == a && Dialling(w.live[a], action.kind, action.fd)
  }

  /** ... and SO_ERROR cannot be read. */
  predicate ProbesInVain(w: World, action: Action, a: nat)
    requires a in w.live
  {
    DialsOrigin(w, action, a) && action.answers.k.probe.ProbeFails?
  }

  /** ... and the pending connect has failed, and a later attempt connects at once. */
  predicate RetriesAtOnce(w: World, action: Action, a: nat)
    requires a in w.live
  {
    DialsOrigin(w, action, a) && action.answers.k.probe.SocketError? && ConnectsAtOnce(w.live[a], action.answers.k.attempts)
  }

  /** The resolver of the connection at `a` finishes, and its job cannot be allocated. */
  predicate LosesJob(action: Action, a: nat) {
    action.Resolve? && action.address == a && !action.memory
  }

  lemma ServedAlive(w: World, fd: int, kind: EventKind, answers: Answers)
    requires Sound(w) && Possible(w, Readiness(fd, kind, answers)) && w.table[fd].handler.SocksClient?
    ensures w.table[fd].data in w.live && Dispatch(w.live[w.table[fd].data], kind, fd, answers.k).Alive?
  {
    hide Sound, Dispatch, Commit, FdsOf, Open, Freed;
    ServeOk(w, fd, kind, answers);
  }

  lemma DeliveredAlive(w: World, k: Kernel)
    requires w.jobs != [] && Possible(w, Deliver(k)) && Sound(w)
    ensures w.jobs[0].owner in w.live && Dispatch(w.live[w.jobs[0].owner], Block, w.jobs[0].fd, k).Alive?
  {
    hide Sound, Dispatch, Commit, FdsOf, Open, Became;
    JobFindsOwner(w, 0);
    DeliverBecomes(w, k, w.jobs[0].owner);
  }

  /** Each mark in a history is set in exactly the actions with its answer. */
  lemma MarksIff(w: World, action: Action, a: nat)
    requires a in w.live && Reachable(w) && Possible(w, action)
    ensures var h, g := w.live[a].hist, NextOf(w, action, a).hist;
            && (g.probeFailed <==> h.probeFailed || ProbesInVain(w, action, a))
            && (g.retriedAtOnce <==> h.retriedAtOnce || RetriesAtOnce(w, action, a))
            && (g.lost <==> h.lost || LosesJob(action, a))
  {
    hide Sound, Reachable, Dispatch, Resolved, ResolverReleases, FdsOf, Open, Freed, Accepts, ConnectsAtOnce;
    ReachableSound(w);
    var c := w.live[a];
    match action
    case Readiness(fd, kind, answers) =>
      if w.table[fd].handler.SocksClient? && w.table[fd].data == a {
        ServedAlive(w, fd, kind, answers);
        EventMarks(c, kind, fd, answers.k);
      }
    case Resolve(address, failed, list, memory) => ThreadMarks(w, a, failed, list, memory);
    case DropReference(address) => ThreadMarks(w, a, false, [], true);
    case Deliver(k) =>
      DeliveredAlive(w, k);
      if w.jobs[0].owner == a {
        EventMarks(c, Block, w.jobs[0].fd, k);
      }
    case Shutdown =>
  }

  lemma ThreadMarks(w: World, a: nat, failed: bool, list: seq<AddrInfo>, memory: bool)
    requires a in w.live && Reachable(w)
    ensures var c := w.live[a];
            var d, e := Resolved(c, failed, list, memory), ResolverReleases(c);
            && SameMarks(c, e)
            && (c.resolver.Running? ==> SameMarks(c.(hist := c.hist.(lost := !memory)), d) && !c.hist.lost)
  {
    hide Inv, Holders, Reachable;
    LiveInv(w, a);
    TicketOf(w.live[a]);
  }

  /** The connection that an action makes is one of the next world, or was just retired there. */
  lemma NextBelongs(w: World, action: Action, a: nat)
    requires a in w.live && Reachable(w) && Possible(w, action)
    ensures Step(w, action).Goes? && Reachable(Step(w, action).w) && Of(Step(w, action).w, NextOf(w, action, a))
    ensures a in Step(w, action).w.live ==> Step(w, action).w.live[a] == NextOf(w, action, a)
  {
    hide Sound, Reachable, Possible, Step, NextOf;
    ReachableSound(w);
    ReachableStep(w, action);
    NextIs(w, action, a);
  }

  /** The action in which a connection gets its reply. */
  predicate Replies(w: World, action: Action, a: nat)
    requires a in w.live
  {
    w.live[a].hist.code.None? && NextOf(w, action, a).hist.code.Some?
  }

  /**
   * Addresses are tried in list order, each at most once. In the action that answers a failure all of
   * them have been tried, if and only if it is not one in which SO_ERROR cannot be read while some are left.
   */
  lemma TriedInOrder(w: World, action: Action, a: nat)
    requires a in w.live && Reachable(w) && Possible(w, action)
    ensures NextOf(w, action, a).hist.tried <= IpOnly(NextOf(w, action, a).resolution)
    ensures Replies(w, action, a) && NextOf(w, action, a).hist.code != Some(Requests.SUCCEEDED) ==>
              (NextOf(w, action, a).hist.tried == IpOnly(NextOf(w, action, a).resolution)
               <==> !(ProbesInVain(w, action, a) && IpOnly(w.live[a].remaining) != []))
  {
    hide Reachable, Possible, Step, NextOf, Of, ProbesInVain, RetriesAtOnce, IpOnly;
    NextBelongs(w, action, a);
    var d := NextOf(w, action, a);
    TriedSoFar(Step(w, action).w, d);
    MarksIff(w, action, a);
    if Replies(w, action, a) {
      UnansweredHonest(w, a);
      if ProbesInVain(w, action, a) {
        ProbedKeepsList(w, action, a);
      }
      AppendsNothing(d.hist.tried, IpOnly(d.remaining));
    }
  }

  lemma AppendsNothing(s: seq<AddrInfo>, t: seq<AddrInfo>)
    ensures s + t == s <==> t == []
  {
    assert |s + t| == |s| + |t|;
  }

  lemma UnansweredHonest(w: World, a: nat)
    requires a in w.live && Reachable(w) && w.live[a].hist.code.None?
    ensures !w.live[a].hist.probeFailed
  {
    hide Reachable, Named;
    ProxyNames.ReachableProper(w);
  }

  lemma ProbedKeepsList(w: World, action: Action, a: nat)
    requires a in w.live && Reachable(w) && ProbesInVain(w, action, a)
    ensures NextOf(w, action, a).remaining == w.live[a].remaining
  {
    hide Reachable, Inv, Holders, Dispatch, ConnectReady, Waiting, ConnectsAtOnce;
    LiveInv(w, a);
    var c, k := w.live[a], action.answers.k;
    ConnectingWaits(c);
    ConnectingDecided(c, k);
    WaitingAsks(c);
    DiallingIs(c, action.fd, k);
  }

  /**
   * At most one access-log entry for a connection, with the status of its reply, and it stays. In the action
   * that answers it is there, if and only if that is not one in which a later attempt connects at once.
   */
  lemma LoggedOnce(w: World, action: Action, a: nat)
    requires a in w.live && Reachable(w) && Possible(w, action)
    ensures var h, g := w.live[a].hist, NextOf(w, action, a).hist;
            && |g.log| <= 1
            && (g.code.None? ==> g.log == [])
            && (g.log != [] ==> g.log[0].status == LogStatus(g.code.value))
            && (Replies(w, action, a) ==> (|g.log| == 1 <==> !RetriesAtOnce(w, action, a)))
            && (!Replies(w, action, a) ==> g.log == h.log)
  {
    hide Reachable, Possible, Step, NextOf, Of, ProbesInVain, RetriesAtOnce, IpOnly, LogStatus;
    NextBelongs(w, action, a);
    var c, d := w.live[a], NextOf(w, action, a);
    LoggedSoFar(Step(w, action).w, d);
    LiveIsOf(w, a);
    LoggedSoFar(w, c);
    MarksIff(w, action, a);
    HistoryGrows(w, action, a);
    if RetriesAtOnce(w, action, a) {
      RetriesUnanswered(w, action, a);
    }
    SamePrefix(c.hist.log, d.hist.log);
  }

  lemma SamePrefix(s: seq<LogEntry>, t: seq<LogEntry>)
    ensures s <= t && |s| == |t| ==> s == t
  {
  }

  lemma LiveIsOf(w: World, a: nat)
    requires a in w.live
    ensures Of(w, w.live[a])
  {
  }

  lemma HistoryGrows(w: World, action: Action, a: nat)
    requires a in w.live && Reachable(w) && Possible(w, action)
    ensures Grows(w.live[a].hist, NextOf(w, action, a).hist)
  {
    hide Sound, Reachable, Possible, Step, NextOf, Grows, Became;
    ReachableSound(w);
    StepFollows(w, action, a);
  }

  lemma RetriesUnanswered(w: World, action: Action, a: nat)
    requires a in w.live && Reachable(w) && RetriesAtOnce(w, action, a)
    ensures w.live[a].hist.code.None?
  {
    hide Reachable, Inv, Holders, ConnectsAtOnce;
    LiveInv(w, a);
    ConnectingWaits(w.live[a]);
  }

  // ---------------------------------------------------------------- tickets

  /** RESOLVING is entered by reading a request, and by nothing else. */
  lemma OnlyRequestsResolve(h: Callback, c: Conn, fd: int, k: Kernel)
    requires Connections.Member(c, h) && !h.RequestReadC?
    ensures Invoke(h, c, fd, k).next != Resolving
  {
    hide Grows, ConnectNext, HelloParsed, AuthParsed, DropOrigin, UpdateInterests, TryWrite;
    match h
    case HelloReadC => HelloLeaves(c, k);
    case AuthReadC => AuthLeaves(c, k);
    case ResolvingC => BlockLeaves(c, k);
    case ConnectingC => ConnectLeaves(c, fd, k);
    case CopyReadC => CopyLeaves(c, fd, k);
    case CopyWriteC => CopyLeaves(c, fd, k);
    case _ =>
  }

  lemma HelloLeaves(c: Conn, k: Kernel)
    requires c.client.HelloSt?
    ensures HelloReadReady(c, k).next != Resolving
  {
    hide Grows;
  }

  lemma AuthLeaves(c: Conn, k: Kernel)
    requires c.client.AuthSt?
    ensures AuthReadReady(c, k).next != Resolving
  {
    hide Grows, CString;
  }

  lemma AfterLeaves(r: Connect, k: Kernel, log: bool)
    requires r.c.client.RequestSt?
    ensures AfterConnect(r, k, log).next != Resolving
  {
    hide Grows, LogStatus, OriginBind, Requests.ReplyZero;
  }

  lemma ConnectLeaves(c: Conn, fd: int, k: Kernel)
    requires c.client.RequestSt?
    ensures ConnectReady(c, fd, k).next != Resolving
  {
    hide Grows, LogStatus, OriginBind, Requests.ReplyZero, ConnectNext, DropOrigin, AfterConnect;
    var d := DropOrigin(c);
    AfterLeaves(ConnectNext(d, k.attempts, HostUnreach), k, false);
    match k.probe
    case SocketError(errno) => AfterLeaves(NotConnected(d, errno), k, false);
    case _ =>
  }

  lemma CopyLeaves(c: Conn, fd: int, k: Kernel)
    ensures CopyReadReady(c, fd, k).next != Resolving && CopyWriteReady(c, fd, k).next != Resolving
  {
    hide Grows, MakeRoom, TryWrite, TakeFromClient, TakeFromOrigin;
  }

  lemma EntersByRequest(c: Conn, kind: EventKind, fd: int, k: Kernel)
    requires Dispatch(c, kind, fd, k).Alive? && Dispatch(c, kind, fd, k).c.current == Some(Resolving)
    ensures c.current == Some(Resolving) || c.current == Some(RequestRead)
  {
    hide Grows, Invoke, Finish, Connections.Member, CallbackFor, HandleFirst;
    var e := HandleFirst(Undelivered(c, kind));
    var h := CallbackFor(TABLE[Number(e.current.value)], kind).value;
    ReadersAreTheirs(e.current.value, kind);
    FirstIsHello(c, kind);
    if !h.RequestReadC? {
      OnlyRequestsResolve(h, e, fd, k);
    }
    FinishKeepsState(Jump(Invoke(h, e, fd, k).c, Invoke(h, e, fd, k).next));
  }

  lemma FirstIsHello(c: Conn, kind: EventKind)
    ensures var e := HandleFirst(Undelivered(c, kind));
            e.current == if c.current.None? then Some(HelloRead) else c.current
  {
    hide Grows;
  }

  lemma FinishKeepsState(c: Conn)
    ensures Finish(c).Alive? ==> Finish(c).c.current == c.current
  {
    hide Grows;
  }

  lemma ReadingLostNothing(c: Conn)
    requires Inv(c) && c.current == Some(RequestRead)
    ensures !c.hist.lost
  {
    hide Core, Wanted;
  }

  /**
   * A connection that enters RESOLVING has one ticket, and keeps the ticket that it has there, if and only
   * if the action is not one in which its job cannot be allocated; outside RESOLVING there is none.
   */
  lemma OneTicket(w: World, action: Action, a: nat)
    requires a in w.live && Reachable(w) && Possible(w, action)
    ensures Step(w, action).Goes?
    ensures a in Step(w, action).w.live ==>
              var v := Step(w, action).w;
              Tickets(v, a) == if v.live[a].current != Some(Resolving) || LosesJob(action, a) then 0
                               else if w.live[a].current == Some(Resolving) then Tickets(w, a)
                               else 1
  {
    hide Reachable, Possible, Step, NextOf, Of, Tickets, ProbesInVain, RetriesAtOnce, Inv, Holders;
    NextBelongs(w, action, a);
    MarksIff(w, action, a);
    TicketCount(w, a);
    if a in Step(w, action).w.live {
      TicketCount(Step(w, action).w, a);
      if NextOf(w, action, a).current == Some(Resolving) && w.live[a].current != Some(Resolving) {
        EnteredFromRequest(w, action, a);
        LiveInv(w, a);
        ReadingLostNothing(w.live[a]);
      }
    }
  }

  lemma EnteredFromRequest(w: World, action: Action, a: nat)
    requires a in w.live && Reachable(w) && Possible(w, action)
    requires NextOf(w, action, a).current == Some(Resolving)
    ensures w.live[a].current == Some(Resolving) || w.live[a].current == Some(RequestRead)
  {
    hide Sound, Reachable, Dispatch, FdsOf, Open, Freed, Accepts;
    ReachableSound(w);
    var c := w.live[a];
    match action
    case Readiness(fd, kind, answers) =>
      if w.table[fd].handler.SocksClient? && w.table[fd].data == a {
        ServedAlive(w, fd, kind, answers);
        EntersByRequest(c, kind, fd, answers.k);
      }
    case Deliver(k) =>
      DeliveredAlive(w, k);
      if w.jobs[0].owner == a {
        EntersByRequest(c, Block, w.jobs[0].fd, k);
      }
    case _ =>
  }
}
