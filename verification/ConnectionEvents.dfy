/** Whole events: first arrival, dispatch through the state table, the jump, and the close. */
module ConnectionEvents {
  import opened Common
  import opened Buffers
  import opened Selectors
  import opened Connections
  import opened ConnectionLaws
  import opened ConnectionSteps
  import Incremental
  import Hello
  import Auth
  import Requests

  /** The dispatcher's condition for calling a handler of this connection on descriptor `fd`. */
  predicate Enabled(c: Conn, kind: EventKind, fd: int) {
    match kind
    case Read =>
      || (fd == c.clientFd && c.clientReg.Some? && c.clientReg.value.read)
      || (fd == c.originFd && c.originReg.Some? && c.originReg.value.read)
    case Write =>
      || (fd == c.clientFd && c.clientReg.Some? && c.clientReg.value.write)
      || (fd == c.originFd && c.originReg.Some? && c.originReg.value.write)
    case Block => fd == c.clientFd && c.clientReg.Some? && c.job
  }

  /** A queued job is gone from the queue when it is delivered. */
  function Undelivered(c: Conn, kind: EventKind): Conn {
    if kind.Block? then c.(job := false) else c
  }

  function Dispatch(c: Conn, kind: EventKind, fd: int, k: Kernel): (o: Outcome)
    ensures o.Alive? ==> o.c.clientFd == c.clientFd && o.c.job == (if kind.Block? then false else c.job)
    ensures o.Alive? ==> o.c.originFd == c.originFd || o.c.originFd == -1 || o.c.originFd in FdsOf(k.attempts)
  {
    Event(Undelivered(c, kind), kind, fd, k)
  }

  lemma ArriveAuthOk(c: Conn)
    requires Core(c) && Registered(c) && Entering(c, AuthRead)
    ensures var d := c.(current := Some(AuthRead), client := AuthSt(Auth.Initial(), false));
            Core(d) && Registered(d) && Resting(d, AuthRead)
  {
    hide Facts, Dialed;
    var d := c.(current := Some(AuthRead), client := AuthSt(Auth.Initial(), false));
    SameDialed(c, d);
    assert Login(c.hist) == Auth.Initial();
  }

  lemma ArriveRequestOk(c: Conn)
    requires Core(c) && Registered(c) && Entering(c, RequestRead)
    ensures var d := c.(current := Some(RequestRead), client := RequestSt(Requests.Initial(), Requests.GENERAL_FAILURE));
            Core(d) && Registered(d) && Resting(d, RequestRead)
  {
    hide Facts, Dialed;
    var d := c.(current := Some(RequestRead), client := RequestSt(Requests.Initial(), Requests.GENERAL_FAILURE));
    SameDialed(c, d);
    assert Wanted(c.hist) == Requests.Initial();
  }

  /** The reset of the write buffer on entering COPY throws nothing away. */
  lemma ArriveCopyOk(c: Conn)
    requires Core(c) && Registered(c) && Entering(c, Copy)
    ensures c.wb.Reset() == c.wb
    ensures var d := Arrive(c.(current := Some(Copy)), CopyInit);
            Core(d) && Registered(d) && Resting(d, Copy) && d.current == Some(Copy)
  {
    hide Core;
    CoreCounts(c);
    hide Counted, Conserved, Scripted;
    CurrentOk(c, Copy);
    UpdateOk(c.(current := Some(Copy)));
    hide Registered, Resting, UpdateInterests, Grows;
  }

  lemma CurrentOk(c: Conn, s: State)
    requires Core(c)
    ensures Core(c.(current := Some(s)))
  {
    hide Facts, Dialed;
    SameDialed(c, c.(current := Some(s)));
  }

  lemma PendingMoves(c: Conn, s: State)
    requires Pending(c)
    ensures Pending(c.(current := Some(s)))
  {
    hide Wanted;
  }

  lemma EnteringMoves(c: Conn, s: State)
    requires Entering(c, s)
    ensures Entering(c.(current := Some(s)), s)
  {
    hide Pending;
    if s == Resolving || s == State.Connecting {
      PendingMoves(c, s);
    }
  }

  lemma JumpOk(s: State, t: Turn)
    requires GoodTurn(s, t) && t.c.current == Some(s) && s != Done && s != Error
    ensures var d := Jump(t.c, t.next);
            && Core(d) && Registered(d) && d.current == Some(t.next)
            && if t.next == Done || t.next == Error then Settled(d) else Resting(d, t.next)
  {
    hide Core, Pending, Wanted, Login, Incremental.Feed;
    if t.next != s {
      match t.next
      case AuthRead => ArriveAuthOk(t.c);
      case RequestRead => ArriveRequestOk(t.c);
      case Copy => ArriveCopyOk(t.c);
      case _ =>
        CurrentOk(t.c, t.next);
        EnteringMoves(t.c, t.next);
    }
  }

  /** Only the holders, the state and the union differ. */
  predicate SameRest(c: Conn, d: Conn) {
    d == c.(current := d.current, clientReg := d.clientReg, originReg := d.originReg, references := d.references,
            retired := d.retired, resolver := d.resolver, client := d.client)
  }

  lemma SameRestCore(c: Conn, d: Conn)
    requires Core(c) && SameRest(c, d) && Counted(d)
    ensures Core(d)
  {
    hide Counted, Facts, Dialed;
    SameDialed(c, d);
  }

  lemma FinishCounted(c: Conn)
    requires Counted(c) && Registered(c)
    ensures Finish(c).Alive? && Counted(Finish(c).c) && SameRest(c, Finish(c).c)
    ensures var d := Finish(c).c;
            d.clientReg.None? && d.originReg.None? && d.current == c.current && d.resolver == c.resolver
  {
    hide Grows;
  }

  /** socksv5_done finds what it unregisters, and leaves only a resolver to hold the object. */
  lemma FinishOk(c: Conn)
    requires Core(c) && Registered(c) && Settled(c) && (c.current == Some(Done) || c.current == Some(Error))
    ensures Finish(c).Alive? && Inv(Finish(c).c)
  {
    hide Core, Counted, Books, Finish, Registered, Resting;
    CoreCounts(c);
    FinishCounted(c);
    SameRestCore(c, Finish(c).c);
  }

  lemma FirstOk(c: Conn)
    requires Inv(c)
    ensures var d := HandleFirst(c);
            && Core(d) && d.current.Some?
            && (!Over(d) ==> Registered(d) && Resting(d, d.current.value))
            && (c.current.Some? ==> d == c)
            && d.clientFd == c.clientFd
  {
    hide Incremental.Feed;
    if c.current.None? {
      var d := HandleFirst(c);
      assert d == c.(current := Some(HelloRead), client := HelloSt(Hello.Initial()));
    }
  }

  /** From a handler that did its duty to the connection after the event. */
  lemma CloseOk(s: State, t: Turn)
    requires GoodTurn(s, t) && t.c.current == Some(s) && s != Done && s != Error
    ensures Followed(t.c, t.next).Alive? && Inv(Followed(t.c, t.next).c)
  {
    hide Core, Jump, Finish, GoodTurn, Registered, Resting, Entering;
    JumpOk(s, t);
    if t.next.Done? || t.next.Error? {
      FinishOk(Jump(t.c, t.next));
    }
  }

  /** At rest, with an event that the selector may deliver and whose handler finds its union member. */
  ghost predicate Awaits(c: Conn, kind: EventKind, fd: int) {
    && c.current.Some? && CallbackFor(TABLE[Number(c.current.value)], kind).Some?
    && Member(Undelivered(c, kind), CallbackFor(TABLE[Number(c.current.value)], kind).value)
    && (kind.Block? <==> c.current == Some(Resolving))
    && Core(c) && Registered(c) && !Over(c) && Resting(c, c.current.value) && Enabled(c, kind, fd)
  }

  /** The call that the state table makes for the event. */
  ghost function Turned(c: Conn, kind: EventKind, fd: int, k: Kernel): Turn
    requires Awaits(c, kind, fd)
  {
    hide Core, Registered, Resting, Enabled, Member;
    Invoke(CallbackFor(TABLE[Number(c.current.value)], kind).value, Undelivered(c, kind), fd, k)
  }

  /** The handler that the table names for an event that the selector may deliver in a resting state. */
  lemma HandlerThere(c: Conn, kind: EventKind, fd: int)
    requires Core(c) && Registered(c) && c.current.Some? && !Over(c) && Resting(c, c.current.value)
    requires Enabled(c, kind, fd)
    ensures Awaits(c, kind, fd)
  {
    hide Core, Incremental.Feed, Wanted, Login, Hello.Describes;
  }

  lemma TurnOk(c: Conn, kind: EventKind, fd: int, k: Kernel)
    requires Awaits(c, kind, fd) && Fresh(c, k.attempts)
    ensures GoodTurn(c.current.value, Turned(c, kind, fd, k))
  {
    hide Core, Registered, GoodTurn, Fresh, Pending, Wanted, Login, Quiet, Gate, Hello.Describes, Grows;
    hide HelloReadReady, HelloWriteReady, AuthReadReady, AuthWriteReady, RequestReadReady, BlockReady, ConnectReady,
         RequestWriteReady, CopyReadReady, CopyWriteReady;
    match c.current.value
    case HelloRead => HelloReadOk(c, k);
    case HelloWrite => HelloWriteOk(c, k);
    case AuthRead => AuthReadOk(c, k);
    case AuthWrite => AuthWriteOk(c, k);
    case RequestRead => RequestReadOk(c, k);
    case Resolving => BlockOk(c, k);
    case Connecting => ConnectOk(c, fd, k);
    case RequestWrite => RequestWriteOk(c, k);
    case Copy =>
      CopyReadOk(c, fd, k);
      CopyWriteOk(c, fd, k);
  }

  lemma FirstEnabled(c: Conn, kind: EventKind, fd: int)
    requires Inv(c) && !Over(c) && Enabled(c, kind, fd)
    ensures Enabled(HandleFirst(c), kind, fd) && !Over(HandleFirst(c))
    ensures HandleFirst(Undelivered(c, kind)) == Undelivered(HandleFirst(c), kind)
  {
    hide Core, Resting, Registered;
  }

  /**
   * Every event the selector may deliver finds its handler and the union member that the handler
   * reads, aborts nowhere, and leaves the invariant standing.
   */
  lemma EventOk(c: Conn, kind: EventKind, fd: int, k: Kernel)
    requires Inv(c) && !Over(c) && Enabled(c, kind, fd) && Fresh(c, k.attempts)
    ensures Dispatch(c, kind, fd, k).Alive? && Inv(Dispatch(c, kind, fd, k).c)
  {
    hide Inv, Core, Registered, Resting, GoodTurn, Enabled, Invoke, HandleFirst, Followed, Fresh, Member, CallbackFor;
    FirstOk(c);
    FirstEnabled(c, kind, fd);
    var d := HandleFirst(c);
    FreshSame(c, d, k.attempts);
    HandlerThere(d, kind, fd);
    TurnOk(d, kind, fd, k);
    CloseOk(d.current.value, Turned(d, kind, fd, k));
  }

  /** The resolver thread finishes while the connection waits in RESOLVING, and nowhere else. */
  lemma ResolvedOk(c: Conn, failed: bool, list: seq<AddrInfo>, memory: bool)
    requires Inv(c) && c.resolver.Running? && (failed ==> list == [])
    ensures c.current == Some(Resolving) && Inv(Resolved(c, failed, list, memory))
  {
    hide Facts, Wanted, Login, Incremental.Feed, Hello.Describes;
    assert c.current == Some(Resolving);
    var d := Resolved(c, failed, list, memory);
    SameFacts(c.hist, d.hist);
    WantedSame(c.hist, d.hist);
    assert [] + IpOnly(list) == IpOnly(list);
  }

  lemma ReleasedCounted(c: Conn)
    requires Counted(c) && c.resolver.Notified?
    ensures var d := ResolverReleases(c);
            Counted(d) && SameRest(c, d) && Holders(d) == Holders(c) - 1 && d.client == c.client && d.current == c.current
            && d.clientReg == c.clientReg && d.originReg == c.originReg && d.resolver == Released
  {
    hide Grows;
  }

  lemma ReleasedRests(c: Conn, d: Conn)
    requires Registered(c) && c.current.Some? && Resting(c, c.current.value) && c.resolver.Notified?
    requires SameRest(c, d) && d.client == c.client && d.current == c.current
    requires d.clientReg == c.clientReg && d.originReg == c.originReg && d.resolver == Released
    ensures Registered(d) && Resting(d, c.current.value)
  {
    hide Wanted, Login, Hello.Describes;
  }

  /** Letting the resolver's reference go is one holder less, whatever the connection is doing. */
  lemma ResolverReleasesOk(c: Conn)
    requires Inv(c) && c.resolver.Notified?
    ensures Inv(ResolverReleases(c)) && Holders(ResolverReleases(c)) == Holders(c) - 1
  {
    hide Core, Counted, Books, Registered, Resting, ResolverReleases, Holders;
    CoreCounts(c);
    ReleasedCounted(c);
    SameRestCore(c, ResolverReleases(c));
    if c.current.Some? && !Over(c) {
      ReleasedRests(c, ResolverReleases(c));
    }
  }
}
