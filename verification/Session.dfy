/**
 * A session that goes well up to CONNECTING, event by event; and from it, three runs of the whole proxy: one
 * in which a failure is answered with an address still untried, one in which a success is not logged, and
 * one in which a connection is left in RESOLVING with nothing to wake it. It goes on well, too: into COPY, with
 * bytes relayed both ways.
 */
module Sessions {
  import opened Common
  import opened Buffers
  import opened Selectors
  import opened Connections
  import opened ConnectionLaws
  import opened ConnectionEvents
  import opened Failover
  import opened Logins
  import opened Proxy
  import opened ProxySteps
  import opened ProxyTheorems
  import opened ProxyMarks
  import ConnectionSteps
  import ProtocolSteps
  import Relays
  import Incremental
  import Hello
  import Requests

  /** A whole greeting in one segment is answered with the method to choose. */
  lemma GreetingArrives(fd: int, k: Kernel, bs: seq<byte>)
    requires !InvalidFd(fd) && Hello.IsGreeting(bs) && k.incoming == Data(bs)
    ensures var o := Dispatch(Opened(fd), Read, fd, k);
            && o.Alive? && o.c.current == Some(HelloWrite) && o.c.hist.method_ == Some(Hello.Choose(bs[2..]))
            && o.c.rb == EmptyFifo(BUFFER_SIZE) && o.c.wb.queue == Hello.Answer(Hello.Choose(bs[2..]))
  {
    hide Hello.Step, Incremental.Feed, Incremental.Consumed, Grows;
    var c := HandleFirst(Opened(fd));
    assert bs[..|bs|] == bs;
    assert Recv(k, c.rb.space) == Got(bs);
    Hello.GreetingAccepted(bs);
    Hello.GreetingTaken(bs);
    var d := TakeFromClient(c, bs);
    assert d.rb.queue == bs by { assert [] + bs == bs; }
    var answer := Hello.Answer(Hello.Choose(bs[2..]));
    assert answer[..2] == answer;
    assert [] + answer == answer;
    assert HelloReceived(c, bs).next == HelloWrite;
  }

  /** The rows of the state table that these events use. */
  lemma RowsUsed()
    ensures CallbackFor(TABLE[Number(HelloWrite)], Write) == Some(HelloWriteC)
    ensures CallbackFor(TABLE[Number(RequestRead)], Read) == Some(RequestReadC)
    ensures CallbackFor(TABLE[Number(Resolving)], Block) == Some(ResolvingC)
    ensures TABLE[Number(RequestRead)].arrival == RequestInit
    ensures TABLE[Number(Resolving)].arrival == NoArrival && TABLE[Number(State.Connecting)].arrival == NoArrival
  {
  }

  /** An event whose handler `h` ends in `t` without closing. */
  lemma Handled(c: Conn, kind: EventKind, fd: int, k: Kernel, h: Callback, t: Turn)
    requires c.current.Some? && CallbackFor(TABLE[Number(c.current.value)], kind) == Some(h) && Connections.Member(c, h)
    requires t == Invoke(h, c, fd, k) && !t.next.Done? && !t.next.Error? && c.current != Some(t.next)
    ensures Event(c, kind, fd, k)
         == Alive(Arrive(t.c.(current := Some(t.next)), TABLE[Number(t.next)].arrival))
  {
    hide Invoke, Arrive, Grows, CallbackFor, Number;
  }

  /** When method 0 is chosen and the answer leaves whole, the request is next. */
  lemma AnswerLeaves(c: Conn, k: Kernel, n: nat)
    requires Inv(c) && c.current == Some(HelloWrite) && c.hist.method_ == Some(Hello.NO_AUTHENTICATION)
    requires k.outgoing == Takes(n) && n >= |c.wb.queue|
    ensures var o := Dispatch(c, Write, c.clientFd, k);
            && o.Alive? && o.c.current == Some(RequestRead) && o.c.rb == c.rb
            && o.c.client == RequestSt(Requests.Initial(), Requests.GENERAL_FAILURE)
  {
    hide Inv, Grows, Event, CallbackFor, Number, HelloWriteReady;
    AnswerWaits(c);
    AnswerSent(c, k, n);
    RowsUsed();
    Handled(c, Write, c.clientFd, k, HelloWriteC, HelloWriteReady(c, k));
  }

  lemma AnswerSent(c: Conn, k: Kernel, n: nat)
    requires c.client.HelloSt? && c.wb.queue != [] && c.client.hello.selected == Hello.NO_AUTHENTICATION && c.clientReg.Some?
    requires k.outgoing == Takes(n) && n >= |c.wb.queue|
    ensures HelloWriteReady(c, k).next == RequestRead && HelloWriteReady(c, k).c.rb == c.rb
  {
    hide Grows;
  }

  lemma AnswerWaits(c: Conn)
    requires Inv(c) && c.current == Some(HelloWrite)
    ensures c.client.HelloSt? && c.wb.queue != [] && c.hist.method_ == Some(c.client.hello.selected) && c.clientReg.Some?
  {
    hide Core;
  }

  /** A request for a name starts a resolver. */
  lemma NameArrives(c: Conn, k: Kernel, m: Requests.Message)
    requires Inv(c) && c.current == Some(RequestRead) && c.rb == EmptyFifo(BUFFER_SIZE)
    requires c.client == RequestSt(Requests.Initial(), Requests.GENERAL_FAILURE)
    requires m.addr.Name? && m.addr.Valid() && m.cmd == Requests.CONNECT
    requires k.incoming == Data(Requests.Encode(m)) && k.memory && k.thread
    ensures var o := Dispatch(c, Read, c.clientFd, k);
            o.Alive? && o.c.current == Some(Resolving) && o.c.resolver.Running?
  {
    hide Inv, Grows, Event, CallbackFor, Number, RequestReadReady;
    RequestWatched(c);
    NameRead(c, k, m);
    RowsUsed();
    Handled(c, Read, c.clientFd, k, RequestReadC, RequestReadReady(c, k));
  }

  lemma RequestWatched(c: Conn)
    requires Inv(c) && c.current == Some(RequestRead)
    ensures c.clientReg.Some?
  {
    hide Core, Wanted;
  }

  lemma NameRead(c: Conn, k: Kernel, m: Requests.Message)
    requires c.clientReg.Some? && c.rb == EmptyFifo(BUFFER_SIZE)
    requires c.client == RequestSt(Requests.Initial(), Requests.GENERAL_FAILURE)
    requires m.addr.Name? && m.addr.Valid() && m.cmd == Requests.CONNECT
    requires k.incoming == Data(Requests.Encode(m)) && k.memory && k.thread
    ensures RequestReadReady(c, k).next == Resolving && RequestReadReady(c, k).c.resolver.Running?
  {
    hide Requests.Step, Incremental.Feed, Incremental.Consumed, Grows, CString;
    var bs := Requests.Encode(m);
    assert bs[..|bs|] == bs && bs + [] == bs && [] + bs == bs;
    Requests.EncodingIsDone(m, []);
    assert Recv(k, c.rb.space) == Got(bs);
    var d := RequestParsed(TakeFromClient(c, bs));
    assert d.client.request.state.Done? && d.client.request.atyp == Requests.DOMAIN && d.client.request.cmd == Requests.CONNECT;
    assert d.clientReg == c.clientReg;
    hide RequestParsed, TakeFromClient;
    assert RequestProcess(d, k) == StartResolution(Remember(d), k);
  }

  /** The first usable address of those resolved is dialled, and the rest of the list is kept. */
  lemma DialStarts(c: Conn, k: Kernel, a: AddrInfo, rest: seq<AddrInfo>, fd: nat, errno: Errno)
    requires Inv(c) && c.current == Some(Resolving) && c.job
    requires c.resolution == [a] + rest && IsIp(a) && k.attempts == [InProgress(fd, errno)] && !InvalidFd(fd)
    ensures var o := Dispatch(c, Block, c.clientFd, k);
            && o.Alive? && o.c.current == Some(State.Connecting) && o.c.remaining == rest
            && o.c.originFd == fd && o.c.originReg == Some(WRITE) && o.c.clientFd == c.clientFd
  {
    hide Inv, Grows, Event, CallbackFor, Number, BlockReady;
    ResolvingStarts(c);
    var d := c.(job := false);
    FirstDialled(d, k, a, rest, fd, errno);
    RowsUsed();
    Handled(d, Block, c.clientFd, k, ResolvingC, BlockReady(d, k));
  }

  lemma FirstDialled(c: Conn, k: Kernel, a: AddrInfo, rest: seq<AddrInfo>, fd: nat, errno: Errno)
    requires c.client.RequestSt? && c.resolution == c.remaining == [a] + rest && !c.resolutionFailed
    requires IsIp(a) && k.attempts == [InProgress(fd, errno)] && !InvalidFd(fd)
    ensures BlockReady(c, k).next == State.Connecting && BlockReady(c, k).c.remaining == rest
    ensures BlockReady(c, k).c.originFd == fd && BlockReady(c, k).c.originReg == Some(WRITE)
    ensures BlockReady(c, k).c.clientFd == c.clientFd
  {
    hide Grows;
    assert c.remaining[0] == a && c.remaining[1..] == rest;
    assert ConnectNext(c, k.attempts, HostUnreach).Connecting?;
  }

  lemma ResolvingStarts(c: Conn)
    requires Inv(c) && c.current == Some(Resolving)
    ensures c.remaining == c.resolution && c.client.RequestSt? && c.originFd == -1
    ensures c.resolution != [] ==> !c.resolutionFailed
  {
    hide Counted, Books, Facts, Wanted, Exhausted, LogOk;
  }

  // ---------------------------------------------------------------- one connection in the whole proxy

  const SILENCE := Kernel(RecvAgain, SendAgain, [], SocketClear, NoName, true, true, map[])

  const AT := 100

  /** Listeners on 3 and 4, and one connection. */
  function Alone(c: Conn): World {
    var start := Start(3, 4, map[]);
    start.(table := start.table + Rows(AT, c), live := map[AT := c],
           jobs := if c.job then [Job(c.clientFd, AT)] else [], historic := 1, concurrent := 1)
  }

  function Telling(k: Kernel): Answers {
    Answers(k, -1, true, true, AT, Close, map[])
  }

  lemma AloneAtFirst()
    ensures Reachable(Alone(Opened(10)))
  {
    var start := Start(3, 4, map[]);
    assert Reachable(start) by {
      hide Possible, Step;
      assert Lawful(start, []) && Run(start, []) == Goes(start);
    }
    var accept := Readiness(3, Read, Telling(SILENCE).(accepted := 10));
    hide Reachable;
    ReachableStep(start, accept);
    assert Rows(AT, Opened(10)) == map[10 := Item(READ, SocksClient, AT)];
    assert Step(start, accept).w == Alone(Opened(10));
  }

  /** A connection that is not over, on descriptors that are not the listeners'. */
  ghost predicate Going(c: Conn) {
    && Inv(c) && !Over(c) && c.clientFd == 10 && (c.originFd == -1 || c.originFd == 11)
  }

  lemma GoingOn(c: Conn)
    requires Going(c)
    ensures c.retired == 0 && 10 in Rows(AT, c) && Rows(AT, c).Keys <= {10, 11}
    ensures c.originReg.Some? ==> c.originFd == 11 && Rows(AT, c)[11].interest == c.originReg.value
    ensures c.clientReg.Some? && Rows(AT, c)[10].interest == c.clientReg.value
    ensures forall fd | fd in Rows(AT, c) :: Rows(AT, c)[fd].handler == SocksClient && Rows(AT, c)[fd].data == AT
  {
    hide Books, Facts, Dialed, Resting;
  }

  lemma AloneCommits(c: Conn, d: Conn)
    requires Going(c) && Going(d)
    ensures Commit(Alone(c).(jobs := Alone(d).jobs), AT, d) == Alone(d)
  {
    hide Going, Rows;
    GoingOn(c);
    GoingOn(d);
    var t := Start(3, 4, map[]).table;
    assert (t + Rows(AT, c)) - Rows(AT, c).Keys + Rows(AT, d) == t + Rows(AT, d);
    assert map[AT := c][AT := d] == map[AT := d];
  }

  /** An event of the connection is a possible action, and leads to the world with what the event makes of it. */
  lemma AloneServed(c: Conn, kind: EventKind, fd: int, k: Kernel)
    requires Reachable(Alone(c)) && Going(c) && !kind.Block? && fd in Rows(AT, c)
    requires if kind.Read? then Rows(AT, c)[fd].interest.read else Rows(AT, c)[fd].interest.write
    requires k.attempts == [] && k.users == map[]
    requires Dispatch(c, kind, fd, k).Alive? && Going(Dispatch(c, kind, fd, k).c) && Dispatch(c, kind, fd, k).c.job == c.job
    ensures Reachable(Alone(Dispatch(c, kind, fd, k).c))
  {
    hide Reachable, Going, Rows, Dispatch, Commit;
    GoingOn(c);
    var d := Dispatch(c, kind, fd, k).c;
    AloneCommits(c, d);
    ReachableStep(Alone(c), Readiness(fd, kind, Telling(k)));
  }

  lemma AloneDelivered(c: Conn, k: Kernel)
    requires Reachable(Alone(c)) && Going(c) && c.job && c.originFd == -1
    requires FdsOf(k.attempts) !! {3, 4, 10, 11} - {11} && k.users == map[]
    requires Dispatch(c, Block, 10, k).Alive? && Going(Dispatch(c, Block, 10, k).c) && !Dispatch(c, Block, 10, k).c.job
    ensures Reachable(Alone(Dispatch(c, Block, 10, k).c))
  {
    hide Reachable, Rows, Dispatch, Commit, FdsOf, Going;
    WaitingRows(c);
    GoingOn(c);
    OnTen(c);
    AloneCommits(c, Dispatch(c, Block, 10, k).c);
    var w := Alone(c);
    assert w.jobs == [Job(10, AT)] && w.jobs[1..] == [];
    assert Possible(w, Deliver(k)) by { assert Open(w) <= {3, 4, 10}; }
    assert w.table[10].handler == SocksClient && w.table[10].data == AT;
    hide Alone, Possible;
    ReachableStep(w, Deliver(k));
  }

  lemma OnTen(c: Conn)
    requires Going(c)
    ensures c.clientFd == 10
  {
    hide Inv;
  }

  lemma WaitingRows(c: Conn)
    requires Going(c) && c.originFd == -1
    ensures Rows(AT, c).Keys == {10}
  {
    hide Books, Facts, Dialed, Resting;
  }

  lemma AloneResolved(c: Conn, list: seq<AddrInfo>)
    requires Reachable(Alone(c)) && c.resolver.Running? && !c.job
    ensures Reachable(Alone(Resolved(c, false, list, true)))
  {
    var d := Resolved(c, false, list, true);
    SameRows(AT, c, d);
    hide Reachable, Rows;
    assert map[AT := c][AT := d] == map[AT := d];
    ReachableStep(Alone(c), Resolve(AT, false, list, true));
  }

  // ---------------------------------------------------------------- the session

  const A := AddrInfo(Inet, [1])
  const B := AddrInfo(Inet6, [2])

  /** A client has asked for a name, and its resolver runs. */
  ghost predicate Asks(c: Conn) {
    Reachable(Alone(c)) && Going(c) && c.current == Some(Resolving) && c.resolver.Running?
  }

  /** The name had the addresses A and B, and the connect to A is pending. */
  ghost predicate Dials1(c: Conn) {
    && Reachable(Alone(c)) && Going(c) && c.current == Some(State.Connecting)
    && c.originFd == 11 && c.originReg == Some(WRITE) && c.remaining == [B]
  }

  /** In these states the client's descriptor is watched for what comes next. */
  lemma Wakes(c: Conn, kind: EventKind)
    requires Inv(c) && c.clientFd == 10
    requires match kind
             case Read => c.current.None? || c.current == Some(RequestRead)
             case Write => c.current == Some(HelloWrite)
             case Block => c.current == Some(Resolving) && c.job
    ensures Enabled(c, kind, 10) && !Over(c) && c.originFd == -1 && Going(c)
    ensures kind.Read? ==> c.clientReg == Some(READ)
    ensures kind.Write? ==> c.clientReg == Some(WRITE)
    ensures ConnectionSteps.Fresh(c, []) && ConnectionSteps.Fresh(c, [InProgress(11, OtherErrno)])
  {
    hide Core, Wanted, Login, Hello.Describes, Pending;
  }

  lemma Greeted1()
    ensures exists c :: Reachable(Alone(c)) && Inv(c) && c.clientFd == 10 && c.current == Some(HelloWrite)
                        && c.hist.method_ == Some(Hello.NO_AUTHENTICATION) && |c.wb.queue| == 2 && c.rb == EmptyFifo(BUFFER_SIZE)
  {
    hide Inv, Dispatch, ConnectionSteps.Fresh, Enabled, Over, Reachable, Going;
    var hello: seq<byte> := [5, 1, 0];
    var k := SILENCE.(incoming := Data(hello));
    var c := Opened(10);
    OpenedInv(10);
    AloneAtFirst();
    Wakes(c, Read);
    EventOk(c, Read, 10, k);
    GreetingArrives(10, k, hello);
    var d := Dispatch(c, Read, 10, k).c;
    Wakes(d, Write);
    GoingOn(c);
    hide Opened;
    AloneServed(c, Read, 10, k);
  }

  lemma Let1()
    ensures exists c :: Reachable(Alone(c)) && Inv(c) && c.clientFd == 10 && c.current == Some(RequestRead)
                        && c.client == RequestSt(Requests.Initial(), Requests.GENERAL_FAILURE) && c.rb == EmptyFifo(BUFFER_SIZE)
  {
    hide Inv, Dispatch, ConnectionSteps.Fresh, Enabled, Over, Reachable, Going;
    Greeted1();
    var c :| Reachable(Alone(c)) && Inv(c) && c.clientFd == 10 && c.current == Some(HelloWrite)
             && c.hist.method_ == Some(Hello.NO_AUTHENTICATION) && |c.wb.queue| == 2 && c.rb == EmptyFifo(BUFFER_SIZE);
    var k := SILENCE.(outgoing := Takes(2));
    Wakes(c, Write);
    EventOk(c, Write, 10, k);
    AnswerLeaves(c, k, 2);
    Wakes(Dispatch(c, Write, 10, k).c, Read);
    GoingOn(c);
    AloneServed(c, Write, 10, k);
  }

  lemma Asked1()
    ensures exists c :: Asks(c)
  {
    hide Inv, Dispatch, ConnectionSteps.Fresh, Enabled, Over, Reachable, Going;
    Let1();
    var c :| Reachable(Alone(c)) && Inv(c) && c.clientFd == 10 && c.current == Some(RequestRead)
             && c.client == RequestSt(Requests.Initial(), Requests.GENERAL_FAILURE) && c.rb == EmptyFifo(BUFFER_SIZE);
    var m := Requests.Message(Requests.CONNECT, Requests.Name([97]), 80);
    var k := SILENCE.(incoming := Data(Requests.Encode(m)));
    Wakes(c, Read);
    EventOk(c, Read, 10, k);
    NameArrives(c, k, m);
    var d := Dispatch(c, Read, 10, k).c;
    StillGoing(d);
    GoingOn(c);
    AloneServed(c, Read, 10, k);
    assert Asks(d);
  }

  lemma StillGoing(c: Conn)
    requires Inv(c) && c.clientFd == 10 && c.current == Some(Resolving)
    ensures Going(c)
  {
    hide Core, Wanted, Pending;
  }

  lemma Dialled1()
    ensures exists c :: Dials1(c)
  {
    hide Inv, Dispatch, Resolved, ConnectionSteps.Fresh, Enabled, Over, Reachable;
    Asked1();
    var c :| Asks(c);
    WaitingHasNoJob(c);
    ResolvedOk(c, false, [A, B], true);
    AloneResolved(c, [A, B]);
    var d := Resolved(c, false, [A, B], true);
    ResolvedHas(c, [A, B]);
    var k := SILENCE.(attempts := [InProgress(11, OtherErrno)]);
    Wakes(d, Block);
    EventOk(d, Block, 10, k);
    assert d.resolution == [A] + [B];
    DialStarts(d, k, A, [B], 11, OtherErrno);
    var e := Dispatch(d, Block, 10, k).c;
    assert Going(e) by { ConnectingGoes(e); }
    OneFd(11, OtherErrno);
    AloneDelivered(d, k);
    assert Dials1(e);
  }

  lemma OneFd(fd: nat, errno: Errno)
    ensures FdsOf([InProgress(fd, errno)]) == {fd} && FdsOf([Immediate(fd, errno)]) == {fd}
  {
    assert InProgress(fd, errno) in [InProgress(fd, errno)] && Immediate(fd, errno) in [Immediate(fd, errno)];
  }

  lemma ConnectingGoes(c: Conn)
    requires Inv(c) && c.current == Some(State.Connecting) && c.clientFd == 10 && c.originFd == 11
    ensures Going(c)
  {
    hide Inv;
  }

  lemma ResolvedHas(c: Conn, list: seq<AddrInfo>)
    ensures var d := Resolved(c, false, list, true);
            d.resolution == list && d.job && d.current == c.current && d.clientFd == c.clientFd
  {
  }

  // ---------------------------------------------------------------- what can go wrong

  /** This action answers a failure while an address is left. */
  ghost predicate TooEarly(w: World, action: Action, a: nat) {
    && Reachable(w) && Possible(w, action) && a in w.live && Replies(w, action, a)
    && NextOf(w, action, a).hist.code == Some(Requests.GENERAL_FAILURE) && IpOnly(NextOf(w, action, a).remaining) != []
  }

  /** This action answers a success that is not logged. */
  ghost predicate Unlogged(w: World, action: Action, a: nat) {
    && Reachable(w) && Possible(w, action) && a in w.live && Replies(w, action, a)
    && NextOf(w, action, a).hist.code == Some(Requests.SUCCEEDED) && NextOf(w, action, a).hist.log == []
  }

  /** This action leaves a connection in RESOLVING without a ticket. */
  ghost predicate Strands(w: World, action: Action, a: nat) {
    && Reachable(w) && Possible(w, action) && a in w.live && Step(w, action).Goes?
    && a in Step(w, action).w.live && Step(w, action).w.live[a].current == Some(Resolving) && Tickets(Step(w, action).w, a) == 0
  }

  /** The write event on the pending connect, with these answers. */
  lemma ProbedAlone(c: Conn, k: Kernel)
    requires Dials1(c) && k.users == map[] && (FdsOf(k.attempts) == {} || (FdsOf(k.attempts) == {11} && k.probe.SocketError?))
    requires Waiting(c) && ConnectReady(c, 11, k).next == RequestWrite
    ensures var w, action := Alone(c), Readiness(11, Write, Telling(k));
            && Reachable(w) && Possible(w, action) && AT in w.live && w.live[AT] == c
            && NextOf(w, action, AT) == ConnectReady(c, 11, k).c.(current := Some(RequestWrite))
  {
    hide Reachable, Inv, Dispatch, ConnectReady, FdsOf;
    GoingOn(c);
    DiallingIs(c, 11, k);
  }

  lemma AnsweredTooEarly()
    ensures exists w, action, a :: TooEarly(w, action, a)
  {
    hide Reachable, Going, Waiting, ConnectReady, Possible, NextOf;
    Dialled1();
    var c :| Dials1(c);
    var k := SILENCE.(probe := ProbeFails);
    DialsWaits(c);
    ConnectingDecided(c, k);
    NoFds();
    ProbedAlone(c, k);
    assert IpOnly([B]) == [B] by { assert [B][1..] == []; }
    WaitingUnanswered(c);
    assert TooEarly(Alone(c), Readiness(11, Write, Telling(k)), AT);
  }

  lemma DialsWaits(c: Conn)
    requires Dials1(c)
    ensures Waiting(c)
  {
    hide Reachable, Inv, Waiting;
    ConnectingWaits(c);
  }

  lemma NoFds()
    ensures FdsOf([]) == {}
  {
  }

  lemma WaitingUnanswered(c: Conn)
    requires Waiting(c)
    ensures c.hist.code.None? && c.client.RequestSt?
  {
  }

  /** The second connect even gets the number of the first, which has just been closed. */
  lemma AnsweredUnlogged()
    ensures exists w, action, a :: Unlogged(w, action, a)
  {
    hide Reachable, Going, Waiting, ConnectReady, Possible, NextOf;
    Dialled1();
    var c :| Dials1(c);
    var k := SILENCE.(probe := SocketError(ConnRefused), attempts := [Immediate(11, OtherErrno)]);
    DialsWaits(c);
    assert IpOnly(c.remaining) == [B] by { assert [B][1..] == []; }
    assert Connects(c, k.attempts);
    ConnectingDecided(c, k);
    OneFd(11, OtherErrno);
    ProbedAlone(c, k);
    WaitingUnanswered(c);
    assert Unlogged(Alone(c), Readiness(11, Write, Telling(k)), AT);
  }

  lemma StrandedResolving()
    ensures exists w, action, a :: Strands(w, action, a)
  {
    hide Reachable, Going, Tickets;
    Asked1();
    var c :| Asks(c);
    var action := Resolve(AT, false, [A, B], false);
    OneTicket(Alone(c), action, AT);
    assert Strands(Alone(c), action, AT);
  }

  // ---------------------------------------------------------------- what should happen

  /** This action forwards to the origin what the client has sent. */
  ghost predicate Forwards(w: World, action: Action, a: nat) {
    && Reachable(w) && Possible(w, action) && a in w.live && w.live[a].current == Some(Copy)
    && NextOf(w, action, a).current == Some(Copy) && w.live[a].hist.toOrigin < NextOf(w, action, a).hist.toOrigin
  }

  /** ... and this one passes on to the client what the origin has sent. */
  ghost predicate PassesOn(w: World, action: Action, a: nat) {
    && Reachable(w) && Possible(w, action) && a in w.live && w.live[a].current == Some(Copy)
    && NextOf(w, action, a).current == Some(Copy) && w.live[a].hist.toClient < NextOf(w, action, a).hist.toClient
  }

  /** In COPY, with nothing on the way to the client. */
  ghost predicate Copies1(c: Conn) {
    Reachable(Alone(c)) && Going(c) && c.current == Some(Copy) && c.originFd == 11 && c.wb.queue == []
  }

  lemma NoneFresh(c: Conn)
    ensures ConnectionSteps.Fresh(c, [])
  {
  }

  /** What is watched is enabled, and a row of the world. */
  lemma EnabledRow(c: Conn, kind: EventKind, fd: int)
    requires Going(c) && Enabled(c, kind, fd) && !kind.Block? && c.originFd == 11
    ensures fd in Rows(AT, c) && if kind.Read? then Rows(AT, c)[fd].interest.read else Rows(AT, c)[fd].interest.write
  {
    hide Inv;
    GoingOn(c);
  }

  lemma Replied1()
    ensures exists c :: Reachable(Alone(c)) && Going(c) && c.current == Some(RequestWrite) && c.originFd == 11 && c.hist.code == Some(0)
  {
    hide Inv, Dispatch, ConnectionSteps.Fresh, Enabled, Over, Reachable;
    Dialled1();
    var c :| Dials1(c);
    var k := SILENCE;
    PendingWatched(c);
    NoneFresh(c);
    EventOk(c, Write, 11, k);
    ProtocolSteps.EventBehaves(c, Write, 11, k);
    var d := Dispatch(c, Write, 11, k).c;
    StillGoes(d);
    EnabledRow(c, Write, 11);
    AloneServed(c, Write, 11, k);
  }

  lemma PendingWatched(c: Conn)
    requires Dials1(c)
    ensures Enabled(c, Write, 11) && !Over(c)
  {
    hide Reachable, Inv;
  }

  lemma StillGoes(c: Conn)
    requires Inv(c) && c.clientFd == 10 && c.originFd == 11 && (c.current == Some(RequestWrite) || c.current == Some(Copy))
    ensures Going(c)
  {
    hide Inv;
  }

  lemma Copied1()
    ensures exists c :: Copies1(c)
  {
    hide Inv, Dispatch, ConnectionSteps.Fresh, Enabled, Over, Reachable;
    Replied1();
    var c :| Reachable(Alone(c)) && Going(c) && c.current == Some(RequestWrite) && c.originFd == 11 && c.hist.code == Some(0);
    var k := SILENCE.(outgoing := Takes(|c.wb.queue|));
    Relays.AnswerWatched(c);
    NoneFresh(c);
    EventOk(c, Write, 10, k);
    Relays.ReplyLeads(c, k, |c.wb.queue|);
    ProtocolSteps.EventBehaves(c, Write, 10, k);
    var d := Dispatch(c, Write, 10, k).c;
    StillGoes(d);
    EnabledRow(c, Write, 10);
    AloneServed(c, Write, 10, k);
    assert Copies1(d);
  }

  /** An event of a connection in COPY that is watched for, as an action of the whole proxy. */
  lemma CopyAction(c: Conn, kind: EventKind, fd: int, k: Kernel)
    requires Copies1(c) && Enabled(c, kind, fd) && !kind.Block? && (fd == 10 || fd == 11) && k.attempts == [] && k.users == map[]
    requires Dispatch(c, kind, fd, k).Alive?
    ensures var w, action := Alone(c), Readiness(fd, kind, Telling(k));
            && Reachable(w) && Possible(w, action) && AT in w.live && w.live[AT] == c
            && NextOf(w, action, AT) == Dispatch(c, kind, fd, k).c
  {
    hide Reachable, Inv, Dispatch, Enabled, FdsOf;
    GoingOn(c);
    EnabledRow(c, kind, fd);
    NoFds();
  }

  /** What the client's side is watched for in COPY, when nothing waits for the origin. */
  lemma ReadableWhenEmpty(c: Conn, fd: int)
    requires Relays.InCopy(c, fd) && Relays.Waiting(c, Relays.Other(c, fd)) == []
    ensures Enabled(c, Read, fd)
  {
    hide Core;
  }

  /** One byte through the relay: it was received just now, or had waited in the buffer. */
  lemma SessionForwards()
    ensures exists w, action, a :: Forwards(w, action, a)
  {
    hide Inv, Dispatch, ConnectionSteps.Fresh, Enabled, Over, Reachable, Going, Possible, NextOf;
    Copied1();
    var c :| Copies1(c);
    CopyIs(c);
    NoneFresh(c);
    var one: seq<byte> := [71];
    var k := SILENCE.(incoming := Data(one), outgoing := Takes(1));
    if c.rb.queue == [] {
      ReadableWhenEmpty(c, 10);
      Relays.ReadRelays(c, 10, k, one, 1);
      CopyAction(c, Read, 10, k);
      assert Forwards(Alone(c), Readiness(10, Read, Telling(k)), AT);
    } else {
      Relays.RelayWatched(c, 11);
      Relays.WriteRelays(c, 11, k, 1);
      CopyAction(c, Write, 11, k);
      assert Forwards(Alone(c), Readiness(11, Write, Telling(k)), AT);
    }
  }

  lemma SessionPassesOn()
    ensures exists w, action, a :: PassesOn(w, action, a)
  {
    hide Inv, Dispatch, ConnectionSteps.Fresh, Enabled, Over, Reachable, Going, Possible, NextOf;
    Copied1();
    var c :| Copies1(c);
    CopyIs(c);
    NoneFresh(c);
    var one: seq<byte> := [71];
    var k := SILENCE.(incoming := Data(one), outgoing := Takes(1));
    ReadableWhenEmpty(c, 11);
    Relays.ReadRelays(c, 11, k, one, 1);
    CopyAction(c, Read, 11, k);
    assert PassesOn(Alone(c), Readiness(11, Read, Telling(k)), AT);
  }

  lemma CopyIs(c: Conn)
    requires Copies1(c)
    ensures Relays.InCopy(c, 10) && Relays.InCopy(c, 11) && c.clientFd == 10 && !Over(c)
  {
    hide Reachable, Inv;
  }
}
