/** Over whole runs: what the access log says of a connection is what its login and its request spelled. */
module ProxyNames {
  import opened Common
  import opened Selectors
  import opened Connections
  import opened ConnectionLaws
  import opened ConnectionEvents
  import opened Proxy
  import opened ProxySteps
  import opened ProxyTheorems
  import opened Logins
  import Auth
  import Incremental
  import P = Protocol
  import ProtocolSteps
  import Requests

  ghost predicate AllProper(w: World) {
    && (forall a | a in w.live :: Proper(w.live[a]))
    && (forall i | 0 <= i < |w.closed| :: Proper(w.closed[i]))
  }

  lemma CommitProper(w: World, a: nat, c: Conn)
    requires a in w.live && AllProper(w) && Proper(c)
    ensures AllProper(Commit(w, a, c))
  {
    hide Commit, Proper;
    CommitRest(w, a, c);
  }

  lemma AcceptProper(w: World, answers: Answers)
    requires AllProper(w)
    ensures AllProper(AcceptClient(w, answers))
  {
    RefusedProper(answers.accepted);
    hide Proper, Opened, Release;
  }

  lemma RefusedProper(fd: int)
    ensures Proper(Opened(fd)) && Proper(Release(Opened(fd).(clientReg := None)))
  {
  }

  lemma ThreadProper(c: Conn, failed: bool, list: seq<AddrInfo>, memory: bool)
    requires Proper(c)
    ensures Proper(Resolved(c, failed, list, memory)) && Proper(ResolverReleases(c))
  {
    ThreadSame(c, failed, list, memory);
    hide Named, Resolved, ResolverReleases;
    SameNamed(c, Resolved(c, failed, list, memory));
    SameNamed(c, ResolverReleases(c));
  }

  lemma ThreadSame(c: Conn, failed: bool, list: seq<AddrInfo>, memory: bool)
    ensures var d, e := Resolved(c, failed, list, memory), ResolverReleases(c);
            && SameLogin(c, d) && SameTarget(c, d) && SameLogin(c, e) && SameTarget(c, e)
            && (Honest(c) ==> Honest(d) && Honest(e))
  {
  }

  lemma ServedProper(w: World, fd: int, kind: EventKind, answers: Answers)
    requires Sound(w) && AllProper(w) && Possible(w, Readiness(fd, kind, answers)) && w.table[fd].handler.SocksClient?
    ensures w.table[fd].data in w.live && Proper(AfterEvent(w.live[w.table[fd].data], kind, fd, answers.k))
  {
    hide Inv, Holders, Rows, Dispatch, Enabled, Over, Proper, Queued, Pooled, Metered, FdsOf, Open, Freed;
    ServedIsEnabled(w, fd, kind);
    var c := w.live[w.table[fd].data];
    if Dispatch(c, kind, fd, answers.k).Alive? {
      EventProper(c, kind, fd, answers.k);
    }
  }

  lemma DeliveredProper(w: World, k: Kernel)
    requires Sound(w) && AllProper(w) && w.jobs != []
    ensures w.jobs[0].owner in w.live && Proper(AfterEvent(w.live[w.jobs[0].owner], Block, w.jobs[0].fd, k))
  {
    hide Inv, Holders, Dispatch, Enabled, Over, Proper, Listed, Attached, Queued, Pooled, Metered;
    JobFindsOwner(w, 0);
    var c := w.live[w.jobs[0].owner];
    OthersLive(w, w.jobs[0].owner);
    if Dispatch(c, Block, w.jobs[0].fd, k).Alive? {
      EventProper(c, Block, w.jobs[0].fd, k);
    }
  }

  lemma ReadyProper(w: World, fd: int, kind: EventKind, answers: Answers)
    requires Sound(w) && AllProper(w) && Possible(w, Readiness(fd, kind, answers))
    ensures var r := Step(w, Readiness(fd, kind, answers)); r.Goes? && AllProper(r.w)
  {
    hide Sound, Proper, Commit, Dispatch, AcceptClient, HasHandler, FdsOf, Open, Freed, Accepts;
    ReadyOk(w, fd, kind, answers);
    HandlerSet(w, fd, kind);
    match w.table[fd].handler
    case SocksListener => AcceptProper(w, answers);
    case SocksClient =>
      ServedProper(w, fd, kind, answers);
      CommitProper(w, w.table[fd].data, AfterEvent(w.live[w.table[fd].data], kind, fd, answers.k));
    case _ =>
  }

  lemma DeliverProper(w: World, k: Kernel)
    requires w.jobs != [] && AllProper(w) && Possible(w, Deliver(k)) && Sound(w)
    ensures Step(w, Deliver(k)).Goes? && AllProper(Step(w, Deliver(k)).w)
  {
    hide Sound, Proper, Commit, Dispatch, FdsOf, Open, Became;
    DeliveredProper(w, k);
    DeliverBecomes(w, k, w.jobs[0].owner);
    CommitProper(w.(jobs := w.jobs[1..]), w.jobs[0].owner, AfterEvent(w.live[w.jobs[0].owner], Block, w.jobs[0].fd, k));
  }

  lemma StepProper(w: World, action: Action)
    requires Sound(w) && AllProper(w) && Possible(w, action)
    ensures Step(w, action).Goes? && AllProper(Step(w, action).w)
  {
    hide Sound, Proper, Commit, CallHandler, Serve, Resolved, ResolverReleases, FdsOf, Open, Freed, Accepts;
    match action
    case Readiness(fd, kind, answers) => ReadyProper(w, fd, kind, answers);
    case Resolve(address, failed, list, memory) => ThreadProper(w.live[address], failed, list, memory);
    case DropReference(address) =>
      ThreadProper(w.live[address], false, [], true);
      CommitProper(w, address, ResolverReleases(w.live[address]));
    case Deliver(k) => DeliverProper(w, k);
    case Shutdown =>
  }

  lemma {:induction false} RunProper(w: World, actions: seq<Action>)
    requires Sound(w) && AllProper(w) && Lawful(w, actions)
    ensures Run(w, actions).Goes? && AllProper(Run(w, actions).w)
    decreases |actions|
  {
    hide Sound, AllProper, Possible, Step;
    if actions != [] {
      StepOk(w, actions[0]);
      StepProper(w, actions[0]);
      RunProper(Step(w, actions[0]).w, actions[1..]);
    }
  }

  lemma ReachableProper(w: World)
    requires Reachable(w)
    ensures AllProper(w)
  {
    hide Sound, Possible, Step;
    var server, monitor, users, actions :|
      && server != monitor && !InvalidFd(server) && !InvalidFd(monitor)
      && Lawful(Start(server, monitor, users), actions)
      && Run(Start(server, monitor, users), actions) == Goes(w);
    StartSound(server, monitor, users);
    RunProper(Start(server, monitor, users), actions);
  }

  /** The entry names the user of this login, cut to 64 bytes. */
  ghost predicate NamesUser(e: LogEntry, login: seq<byte>) {
    forall u, p | P.LoginIn(login, u, p) ::
      exists text :: P.UpToZero(text, u) && e.username == if |text| <= 64 then text else text[..64]
  }

  /** The entry names where this request wants to go, as far as the request says so. */
  ghost predicate NamesTarget(e: LogEntry, request: seq<byte>) {
    && (forall m: Requests.Message | m.addr.Valid() && request == Requests.Encode(m) ::
          e.port == m.port
          && match m.addr
             case V4(a) => e.destination == Ip4(a)
             case V6(a) => e.destination == Ip6(a)
             case Name(name) => e.destination.Domain? && P.UpToZero(e.destination.text, name))
    && (Requests.Malformed(request) ==> e.destination == Blank && e.port == 0)
    && (Requests.UnknownType(request) ==> e.destination == Dash)
  }

  lemma TargetNamed(h: History, e: LogEntry)
    requires e.destination == TargetOf(h).0 && e.port == TargetOf(h).1
    ensures NamesTarget(e, h.request)
  {
    hide Incremental.Feed, Incremental.Consumed, Requests.Encode, Requests.Malformed, Requests.UnknownType;
    Requests.ErrorIffMalformed(h.request);
    Requests.UnknownTypeIff(h.request);
    forall m: Requests.Message | m.addr.Valid() && h.request == Requests.Encode(m)
      ensures Wanted(h).state.Done? && Wanted(h).Known() && Requests.Fields(Wanted(h)) == m
    {
      Requests.DoneIffMessage(h.request, m);
    }
  }

  lemma UserNamed(h: History, e: LogEntry)
    requires e.username == NameOf(h) && h.status == Some(Auth.SUCCESS)
    ensures NamesUser(e, h.auth)
  {
    hide Incremental.Feed, Incremental.Consumed, Auth.Encode, P.LoginIn, CString;
    forall u, p | P.LoginIn(h.auth, u, p)
      ensures Login(h).Username() == u
    {
      ProtocolSteps.LoginEncoded(h.auth, u, p);
      Auth.DoneIffMessage(h.auth, u, p);
    }
    assert P.UpToZero(CString(Login(h).Username()), Login(h).Username());
  }

  /**
   * The access-log entry of a connection names whoever logged in, or nobody, the destination and port of
   * its request, and the reply that it got.
   */
  lemma EntryIsTrue(w: World, c: Conn)
    requires Reachable(w) && Of(w, c) && c.hist.log != []
    ensures c.hist.code.Some?
    ensures c.hist.log == [LogEntry(NameOf(c.hist), TargetOf(c.hist).0, TargetOf(c.hist).1, LogStatus(c.hist.code.value))]
    ensures if c.hist.status == Some(0) then NamesUser(c.hist.log[0], c.hist.auth) else c.hist.log[0].username == [45]
    ensures NamesTarget(c.hist.log[0], c.hist.request)
    ensures P.Called(c.hist.code.value, c.hist.log[0].status)
  {
    hide Core, Reachable, Named, TargetOf, NamesTarget, NamesUser, LogStatus, P.Called, Login, CString;
    OfCore(w, c);
    EntryOf(c);
    ReachableProper(w);
    OfProper(w, c);
    NamedMeans(c);
    TargetNamed(c.hist, c.hist.log[0]);
    if c.hist.status == Some(0) {
      UserNamed(c.hist, c.hist.log[0]);
    }
    StatusCalled(c.hist.code.value);
  }

  lemma StatusCalled(code: byte)
    ensures P.Called(code, LogStatus(code))
  {
  }

  /** What a resolver thread is asked to look up, or connect to reach, is what the request names. */
  lemma LookedUpIsRequested(w: World, c: Conn)
    requires Reachable(w) && Of(w, c) && c.hist.asked.Some?
    ensures exists m: Requests.Message ::
              m.addr.Valid() && c.hist.request == Requests.Encode(m) && P.Asks(c.hist.asked.value, m)
  {
    hide Reachable, NameOf, TargetOf, Core, QueryOf, Wanted, Requests.Encode, Requests.Taken;
    ReachableProper(w);
    OfProper(w, c);
    OfCore(w, c);
    RequestTaken(c);
    WantedEncoded(c.hist);
    AskedNamed(Wanted(c.hist));
  }

  lemma RequestTaken(c: Conn)
    requires Core(c)
    ensures Requests.Taken(Requests.Initial(), c.hist.request) == |c.hist.request|
  {
    hide Counted, Dialed, Books, Greeted, Authed, Relayed, Wanted, Requests.Taken;
  }

  lemma WantedEncoded(h: History)
    requires Requests.Taken(Requests.Initial(), h.request) == |h.request| && Wanted(h).state.Done? && Wanted(h).Known()
    ensures Requests.Fields(Wanted(h)).addr.Valid() && h.request == Requests.Encode(Requests.Fields(Wanted(h)))
  {
    hide Incremental.Feed, Incremental.Consumed, Requests.Encode;
    Requests.DoneIsEncoding(h.request);
    assert h.request[..|h.request|] == h.request;
  }

  lemma AskedNamed(p: Requests.Parser)
    requires p.state.Done? && p.Known()
    ensures P.Asks(QueryOf(p), Requests.Fields(p))
  {
    hide P.Asks, LookupOf, EndpointOf;
    if p.atyp == Requests.DOMAIN {
      ProtocolSteps.LookupAsks(p);
    } else {
      ProtocolSteps.EndpointAsks(p);
    }
  }

  lemma EntryOf(c: Conn)
    requires Core(c) && c.hist.log != []
    ensures c.hist.code.Some?
    ensures c.hist.log == [LogEntry(c.username, c.destination, c.port, LogStatus(c.hist.code.value))]
  {
    hide Counted, Books, Facts, InOrder, Exhausted, LogStatus;
  }

  lemma OfProper(w: World, c: Conn)
    requires AllProper(w) && Of(w, c)
    ensures Proper(c)
  {
    hide Proper;
  }

  lemma NamedMeans(c: Conn)
    requires Named(c)
    ensures c.username == NameOf(c.hist) && c.destination == TargetOf(c.hist).0 && c.port == TargetOf(c.hist).1
  {
    hide NameOf, TargetOf;
  }
}
