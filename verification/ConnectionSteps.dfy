/** Every handler, started in its state, keeps the invariant and asks for a state it may enter. */
module ConnectionSteps {
  import opened Common
  import opened Buffers
  import opened Selectors
  import opened Connections
  import opened ConnectionLaws
  import Incremental
  import Hello
  import Auth
  import Requests

  // ---------------------------------------------------------------- moves shared by the handlers

  lemma SameFacts(h: History, g: History)
    requires Facts(h)
    requires g.hello == h.hello && g.auth == h.auth && g.request == h.request
    requires g.method_ == h.method_ && g.status == h.status && g.users == h.users
    requires g.code == h.code && g.reply == h.reply
    requires g.toOrigin == h.toOrigin && g.fromOrigin == h.fromOrigin
    ensures Facts(g)
  {
    hide Incremental.Feed, Incremental.Consumed;
  }

  lemma SameDialed(c: Conn, d: Conn)
    requires Dialed(c)
    requires d.remaining == c.remaining && d.resolution == c.resolution && d.resolutionFailed == c.resolutionFailed
    requires d.logged == c.logged && d.username == c.username && d.destination == c.destination && d.port == c.port
    requires d.hist.tried == c.hist.tried && d.hist.code == c.hist.code && d.hist.log == c.hist.log
    requires d.hist.probeFailed == c.hist.probeFailed && d.hist.retriedAtOnce == c.hist.retriedAtOnce
    ensures Dialed(d)
  {
    hide IpOnly;
  }

  lemma TakeOk(c: Conn, bs: seq<byte>)
    requires Core(c) && |bs| <= c.rb.space
    ensures Core(TakeFromClient(c, bs))
  {
    hide Facts, Dialed;
    var d := TakeFromClient(c, bs);
    SameFacts(c.hist, d.hist);
    SameDialed(c, d);
    assert Taken(c.hist) + (c.rb.queue + bs) == (Taken(c.hist) + c.rb.queue) + bs;
  }

  lemma GiveOk(c: Conn, n: nat)
    requires Core(c) && n <= |c.wb.queue|
    ensures Core(GiveToClient(c, n))
  {
    hide Facts, Dialed;
    var d := GiveToClient(c, n);
    SameFacts(c.hist, d.hist);
    SameDialed(c, d);
    DropQueue(c.wb, n);
    var q := c.wb.queue;
    assert c.hist.toClient + (q[..n] + d.wb.queue) == (c.hist.toClient + q[..n]) + d.wb.queue;
  }

  lemma PutFits(f: Fifo, bs: seq<byte>)
    requires |bs| <= f.space
    ensures f.Put(bs) == f.Append(bs)
  {
    assert bs[..|bs|] == bs;
  }

  lemma DropQueue(f: Fifo, k: nat)
    requires k <= |f.queue|
    ensures f.queue == f.queue[..k] + f.Drop(k).queue
    ensures f.Wf() ==> f.Drop(k).Wf() && f.Drop(k).cap == f.cap
  {
  }

  // ---------------------------------------------------------------- HELLO

  lemma FactsHello(h: History, bs: seq<byte>)
    requires Facts(h) && h.method_.None?
    ensures Facts(h.(hello := h.hello + bs)) && h.auth == []
  {
    hide Incremental.Feed, Incremental.Consumed, CodeFits, IsReply;
  }

  lemma HelloParsedBooks(c: Conn)
    requires Books(c) && c.client.HelloSt?
    requires c.hist.auth == [] && c.hist.request == [] && c.hist.toOrigin == []
    ensures Books(HelloParsed(c))
  {
    hide Hello.Parse, Hello.Answer, Auth.Answer;
    var k := Hello.Taken(c.client.hello, c.rb.queue);
    var d := HelloParsed(c);
    DropQueue(c.rb, k);
    assert Taken(c.hist) == c.hist.hello && Taken(d.hist) == c.hist.hello + c.rb.queue[..k];
    assert c.hist.hello + (c.rb.queue[..k] + d.rb.queue) == Taken(d.hist) + d.rb.queue;
  }

  lemma HelloParsedOk(c: Conn)
    requires Core(c) && c.client.HelloSt? && Hello.Describes(c.client.hello, c.hist.hello)
    requires c.hist.method_.None? && c.hist.request == [] && c.hist.toOrigin == []
    ensures Core(HelloParsed(c)) && Hello.Describes(HelloParsed(c).client.hello, HelloParsed(c).hist.hello)
  {
    hide Incremental.Feed, Incremental.Consumed, Dialed, Facts, Books, Hello.Describes;
    var k := Hello.Taken(c.client.hello, c.rb.queue);
    Hello.FeedDescribes(c.client.hello, c.hist.hello, c.rb.queue);
    FactsHello(c.hist, c.rb.queue[..k]);
    HelloParsedBooks(c);
    SameDialed(c, HelloParsed(c));
  }

  lemma HelloReceivedOk(c: Conn, bs: seq<byte>)
    requires c.client.HelloSt? && |bs| <= c.rb.space && Core(c) && Registered(c) && Resting(c, HelloRead)
    ensures GoodTurn(HelloRead, HelloReceived(c, bs))
  {
    hide Incremental.Feed, Incremental.Consumed, IpOnly, Grows;
    TakeOk(c, bs);
    var d := TakeFromClient(c, bs);
    HelloParsedOk(d);
    var e := HelloParsed(d);
    if e.client.hello.state.Done? {
      var f := e.(clientReg := Some(WRITE));
      var answer := Hello.Answer(f.client.hello.selected);
      assert f.wb.space == BUFFER_SIZE;
      PutFits(f.wb, answer);
      var g := HelloProcess(f).c;
      assert Script(g.hist) == Script(f.hist) + answer;
      assert HelloReceived(c, bs) == Turn(g, HelloWrite);
    }
  }

  lemma HelloReadOk(c: Conn, k: Kernel)
    requires c.client.HelloSt? && Core(c) && Registered(c) && Resting(c, HelloRead)
    ensures GoodTurn(HelloRead, HelloReadReady(c, k))
  {
    hide Core, HelloReceived;
    match Recv(k, c.rb.space)
    case Got(bs) => HelloReceivedOk(c, bs);
    case _ =>
  }

  lemma HelloWriteOk(c: Conn, k: Kernel)
    requires c.client.HelloSt? && Core(c) && Registered(c) && Resting(c, HelloWrite)
    ensures GoodTurn(HelloWrite, HelloWriteReady(c, k))
  {
    hide Incremental.Feed, Incremental.Consumed, IpOnly, Grows;
    match Send(k, |c.wb.queue|)
    case Accepted(n) =>
      GiveOk(c, n);
      var d := GiveToClient(c, n);
      assert Hello.Choose(d.hist.hello[2..]) == d.client.hello.selected;
    case _ =>
  }

  // ---------------------------------------------------------------- AUTH

  lemma AuthParsedOk(c: Conn)
    requires Core(c) && c.client.AuthSt? && c.client.auth == Login(c.hist) && !c.client.auth.Terminal()
    requires c.hist.method_ == Some(Hello.USERNAME_PASSWORD) && c.hist.status.None?
    requires c.hist.request == [] && c.hist.toOrigin == []
    ensures Core(AuthParsed(c)) && AuthParsed(c).client.auth == Login(AuthParsed(c).hist)
  {
    hide Incremental.Feed, Incremental.Consumed, IpOnly;
    var k := Auth.Taken(c.client.auth, c.rb.queue);
    Incremental.FeedMore(Auth.MACHINE, Auth.Initial(), c.hist.auth, c.rb.queue);
    DropQueue(c.rb, k);
    var d := AuthParsed(c);
    assert Taken(c.hist) == c.hist.hello + c.hist.auth;
    assert Taken(d.hist) == c.hist.hello + (c.hist.auth + c.rb.queue[..k]);
    assert Taken(c.hist) + (c.rb.queue[..k] + d.rb.queue) == Taken(d.hist) + d.rb.queue;
  }

  lemma AuthReceivedOk(c: Conn, bs: seq<byte>)
    requires c.client.AuthSt? && |bs| <= c.rb.space && Core(c) && Registered(c) && Resting(c, AuthRead)
    ensures var e := AuthParsed(TakeFromClient(c, bs));
            e.client.AuthSt? && Core(e) && Registered(e) && (if e.client.auth.Terminal() then Settled(e) else Resting(e, AuthRead))
    ensures AuthParsed(TakeFromClient(c, bs)).client.auth.state.Done?
        ==> AuthCheckable(AuthParsed(TakeFromClient(c, bs)).(clientReg := Some(WRITE)))
  {
    hide Core, Login, Auth.Parse, Auth.Taken;
    TakeOk(c, bs);
    var d := TakeFromClient(c, bs);
    LoginSame(c.hist, d.hist);
    AuthParsedOk(d);
    var e := AuthParsed(d);
    ClientInterestOk(e, WRITE);
    LoginSame(e.hist, e.(clientReg := Some(WRITE)).hist);
  }

  lemma LoginSame(h: History, g: History)
    requires g.auth == h.auth
    ensures Login(g) == Login(h)
  {
    hide Incremental.Feed;
  }

  lemma AuthReadOk(c: Conn, k: Kernel)
    requires c.client.AuthSt? && Core(c) && Registered(c) && Resting(c, AuthRead)
    ensures GoodTurn(AuthRead, AuthReadReady(c, k))
  {
    hide Core, Registered, Login, AuthParsed, AuthProcess, AuthCheckable;
    match Recv(k, c.rb.space)
    case Got(bs) =>
      RoomOk(c, k);
      AuthReceivedOk(c, bs);
      var e := AuthParsed(TakeFromClient(c, bs));
      if e.client.auth.state.Done? {
        RegisteredClient(e);
        AuthProcessOk(e.(clientReg := Some(WRITE)), k);
        hide GoodTurn;
      }
    case _ =>
  }

  lemma RegisteredClient(c: Conn)
    requires Registered(c)
    ensures c.clientReg.Some?
  {
  }

  /** A login that was read to its end and has not been checked. */
  ghost predicate AuthCheckable(c: Conn) {
    && Core(c) && Registered(c) && c.client.AuthSt? && c.client.auth == Login(c.hist) && c.client.auth.state.Done?
    && c.hist.method_ == Some(Hello.USERNAME_PASSWORD) && c.hist.status.None? && c.hist.request == []
    && Quiet(c) && c.clientReg == Some(WRITE) && c.wb.queue == []
  }

  lemma AuthProcessOk(c: Conn, k: Kernel)
    requires AuthCheckable(c)
    ensures GoodTurn(AuthRead, AuthProcess(c, k)) && AuthProcess(c, k).next == AuthWrite
  {
    hide Incremental.Feed, Incremental.Consumed, IpOnly;
    var d := AuthProcess(c, k).c;
    var answer := Auth.Answer(d.hist.status.value);
    PutFits(c.wb, answer);
    assert Script(d.hist) == Script(c.hist) + answer;
  }

  /** A handler that only waits for its descriptor, or gives the connection up. */
  lemma WaitsOk(s: State, c: Conn)
    requires Core(c) && Registered(c) && Resting(c, s) && Settled(c)
    ensures GoodTurn(s, Turn(c, s)) && GoodTurn(s, Turn(c, Error))
  {
    hide Core, Registered, Settled;
    hide Login, Wanted, Pending, Ticket, Exact, Quiet, Gate, Hello.Describes;
  }

  lemma AuthGivenOk(c: Conn, n: nat)
    requires c.client.AuthSt? && Core(c) && Registered(c) && Resting(c, AuthWrite) && n <= |c.wb.queue|
    ensures c.clientReg.Some?
    ensures var d := GiveToClient(c, n);
            if d.wb.queue != [] then GoodTurn(AuthWrite, Turn(d, AuthWrite))
            else if c.client.authorized then GoodTurn(AuthWrite, Turn(d.(clientReg := Some(READ)), RequestRead))
            else GoodTurn(AuthWrite, Turn(d, Done))
  {
    hide Core, Grows, Login, Wanted, Pending, Ticket, Exact, Hello.Describes;
    CheckedMethod(c);
    GiveOk(c, n);
    ClientInterestOk(GiveToClient(c, n), READ);
  }

  lemma AuthWriteSettled(c: Conn)
    requires Resting(c, AuthWrite)
    ensures Settled(c)
  {
    hide Gate;
  }

  lemma AuthWriteOk(c: Conn, k: Kernel)
    requires c.client.AuthSt? && Core(c) && Registered(c) && Resting(c, AuthWrite)
    ensures GoodTurn(AuthWrite, AuthWriteReady(c, k))
  {
    AuthWriteSettled(c);
    hide Core, Registered, Resting, GoodTurn, Settled, Grows;
    WaitsOk(AuthWrite, c);
    match Send(k, |c.wb.queue|)
    case Accepted(n) => AuthGivenOk(c, n);
    case _ =>
  }

  lemma CheckedMethod(c: Conn)
    requires Core(c) && c.hist.status.Some?
    ensures c.hist.method_ == Some(Hello.USERNAME_PASSWORD)
  {
    hide Login, Counted, Books, Dialed, Requested;
  }

  // ---------------------------------------------------------------- answering a request

  /** A parsed request that may be answered: what SetReply and Succeed start from. */
  ghost predicate Answerable(c: Conn) {
    && Core(c) && Registered(c) && c.client.RequestSt?
    && Gate(c.hist) && c.hist.code.None? && c.wb.queue == [] && Settled(c)
    && c.hist.toOrigin == [] && c.hist.fromOrigin == []
    && (c.originReg.Some? ==> c.originReg.value == NOOP)
  }

  lemma PutReplyOk(c: Conn, code: byte, bs: seq<byte>)
    requires BuffersOk(c) && Conserved(c) && Scripted(c) && c.wb.queue == [] && c.hist.reply == [] && c.hist.fromOrigin == []
    requires |bs| <= 22
    ensures Books(PutReply(c, code, bs)) && PutReply(c, code, bs).wb.queue == bs
    ensures |bs| <= c.wb.space
  {
    PutFits(c.wb, bs);
    assert Script(PutReply(c, code, bs).hist) == Script(c.hist) + bs;
  }

  lemma FactsReply(h: History, code: byte, bs: seq<byte>)
    requires Facts(h) && Gate(h) && h.code.None? && h.toOrigin == [] && h.fromOrigin == []
    requires IsReply(bs, code) && CodeFits(Wanted(h), code)
    ensures Facts(h.(code := Some(code), reply := bs)) && h.reply == []
  {
    hide Incremental.Feed, Incremental.Consumed, CodeFits, IsReply, Hello.IsGreeting;
  }

  /** The access log and the addresses when `code` is answered from a connection `d` that has logged it. */
  lemma DialedReply(c: Conn, d: Conn, code: byte)
    requires Dialed(c) && c.hist.code.None? && d.hist.code == Some(code)
    requires d.remaining == c.remaining && d.resolution == c.resolution && d.resolutionFailed == c.resolutionFailed
    requires d.hist.tried == c.hist.tried && d.hist.probeFailed == c.hist.probeFailed
    requires code != Requests.SUCCEEDED ==> IpOnly(c.remaining) == [] || c.hist.probeFailed
    requires d.logged <==> d.hist.log != []
    requires if d.hist.retriedAtOnce then d.hist.log == [] && code == Requests.SUCCEEDED
             else d.hist.log == [LogEntry(d.username, d.destination, d.port, LogStatus(code))]
    ensures Dialed(d)
  {
    hide IpOnly, LogStatus;
  }

  lemma NothingLogged(c: Conn)
    requires Dialed(c) && c.hist.code.None?
    ensures !c.logged && c.hist.log == [] && !c.hist.retriedAtOnce
  {
  }

  /** The connection that SetReply leaves when the reply fits. */
  function Answered(c: Conn, code: byte, bs: seq<byte>, log: bool): Conn
    requires c.client.RequestSt?
  {
    var d := c.(client := c.client.(reply := code));
    var e := if log then Logged(d, code) else d.(hist := d.hist.(retriedAtOnce := true));
    PutReply(e, code, bs).(clientReg := Some(WRITE))
  }

  lemma AnsweredCore(c: Conn, code: byte, bs: seq<byte>, log: bool)
    requires Core(c) && Registered(c) && c.client.RequestSt?
    requires Gate(c.hist) && c.hist.code.None? && c.wb.queue == [] && c.hist.toOrigin == [] && c.hist.fromOrigin == []
    requires IsReply(bs, code) && CodeFits(Wanted(c.hist), code) && (!log ==> code == Requests.SUCCEEDED)
    requires code != Requests.SUCCEEDED ==> IpOnly(c.remaining) == [] || c.hist.probeFailed
    ensures Core(Answered(c, code, bs, log)) && Answered(c, code, bs, log).wb.queue == bs && |bs| <= c.wb.space
  {
    NothingLogged(c);
    FactsReply(c.hist, code, bs);
    hide Facts, Dialed, IpOnly, CodeFits, LogStatus, Wanted;
    var d := c.(client := c.client.(reply := code));
    var e := if log then Logged(d, code) else d.(hist := d.hist.(retriedAtOnce := true));
    var f := Answered(c, code, bs, log);
    PutReplyOk(e, code, bs);
    SameFacts(c.hist.(code := Some(code), reply := bs), f.hist);
    DialedReply(c, f, code);
  }

  lemma SetReplyOk(s: State, c: Conn, code: byte)
    requires Answerable(c) && code != Requests.SUCCEEDED && CodeFits(Wanted(c.hist), code)
    requires IpOnly(c.remaining) == [] || c.hist.probeFailed
    requires s != RequestWrite
    ensures GoodTurn(s, SetReply(c, code)) && SetReply(c, code).next == RequestWrite
  {
    hide Core, CodeFits, IpOnly, LogStatus, Wanted, Requests.ReplyZero;
    CodeBound(c.hist, code);
    ZeroIsReply(code);
    AnsweredCore(c, code, Requests.ReplyZero(code), true);
    AnsweredEnters(s, c, code, Requests.ReplyZero(code), true);
    hide GoodTurn;
    assert SetReply(c, code) == Turn(Answered(c, code, Requests.ReplyZero(code), true), RequestWrite);
  }

  lemma ZeroIsReply(code: byte)
    ensures IsReply(Requests.ReplyZero(code), code)
  {
  }

  lemma CodeBound(h: History, code: byte)
    requires CodeFits(Wanted(h), code)
    ensures code <= Requests.ADDRESS_TYPE_NOT_SUPPORTED
  {
    hide Wanted;
  }

  lemma OriginBindOk(k: Kernel)
    ensures IsReply(OriginBind(k, Requests.SUCCEEDED), Requests.SUCCEEDED)
  {
  }

  /** An answered request is ready for REQUEST_WRITE. */
  lemma AnsweredEnters(s: State, c: Conn, code: byte, bs: seq<byte>, log: bool)
    requires Answerable(c) && (code == Requests.SUCCEEDED ==> c.originReg.Some?) && s != RequestWrite
    requires Core(Answered(c, code, bs, log)) && Answered(c, code, bs, log).wb.queue == bs && bs != []
    ensures GoodTurn(s, Turn(Answered(c, code, bs, log), RequestWrite))
  {
    hide Core, IpOnly, LogStatus, Gate;
  }

  lemma SucceedOk(s: State, c: Conn, k: Kernel, log: bool)
    requires Answerable(c) && Pending(c) && c.originReg.Some? && s != RequestWrite
    ensures GoodTurn(s, Succeed(c, k, log)) && Succeed(c, k, log).next == RequestWrite
  {
    hide Core, OriginBind, Pending, CodeFits, IpOnly, Wanted, Succeed, Grows, Answered, GoodTurn;
    var bs := OriginBind(k, Requests.SUCCEEDED);
    OriginBindOk(k);
    PendingCode(c);
    AnsweredCore(c, Requests.SUCCEEDED, bs, log);
    AnsweredEnters(s, c, Requests.SUCCEEDED, bs, log);
    SucceedShape(c, k, log);
  }

  lemma SucceedShape(c: Conn, k: Kernel, log: bool)
    requires c.client.RequestSt? && c.clientReg.Some? && |OriginBind(k, Requests.SUCCEEDED)| <= c.wb.space
    ensures Succeed(c, k, log) == Turn(Answered(c, Requests.SUCCEEDED, OriginBind(k, Requests.SUCCEEDED), log), RequestWrite)
  {
    hide OriginBind, Grows;
  }

  lemma PendingCode(c: Conn)
    requires Pending(c)
    ensures CodeFits(Wanted(c.hist), Requests.SUCCEEDED)
  {
    hide Incremental.Feed;
  }

  // ---------------------------------------------------------------- dialling

  /** The kernel never returns a descriptor that is in use. */
  predicate Fresh(c: Conn, attempts: seq<Attempt>) {
    forall a | a in attempts && (a.InProgress? || a.Immediate?) :: a.fd != c.clientFd
  }

  /** The connection after a successful connect, in progress or not. */
  function Dialled(c: Conn, fd: int, inProgress: bool): Conn {
    c.(originFd := fd, references := c.references + 1, originReg := Some(if inProgress then WRITE else NOOP))
  }

  /** After some addresses have been taken off the list. */
  function Advanced(c: Conn, tried: seq<AddrInfo>, remaining: seq<AddrInfo>): Conn {
    c.(remaining := remaining, hist := c.hist.(tried := tried))
  }

  lemma ConnectSockaddrShape(c: Conn, attempts: seq<Attempt>)
    requires c.originFd == -1 && Fresh(c, attempts)
    ensures match ConnectSockaddr(c, NextAttempt(attempts))
            case NotConnected(d, _) => d == c
            case Connecting(d, p) => d == Dialled(c, d.originFd, p) && !InvalidFd(d.originFd) && d.originFd != c.clientFd
  {
    assert attempts != [] ==> attempts[0] in attempts;
  }

  /**
   * What the address loop may leave: the list used up and every IP address on it tried, or a
   * connection to the one tried last with the rest of the list still to come.
   */
  ghost predicate Reached(c: Conn, r: Connect) {
    var all := c.hist.tried + IpOnly(c.remaining);
    match r
    case NotConnected(d, _) => d == Advanced(c, all, [])
    case Connecting(d, p) =>
      && d == Dialled(Advanced(c, d.hist.tried, d.remaining), d.originFd, p)
      && !InvalidFd(d.originFd) && d.originFd != c.clientFd
      && d.hist.tried + IpOnly(d.remaining) == all
  }

  lemma ReachedAfter(c: Conn, e: Conn, r: Connect)
    requires e == Advanced(c, e.hist.tried, e.remaining)
    requires e.hist.tried + IpOnly(e.remaining) == c.hist.tried + IpOnly(c.remaining)
    requires Reached(e, r)
    ensures Reached(c, r)
  {
    hide IpOnly;
  }

  lemma ReachedAtEnd(c: Conn, errno: Errno)
    requires c.remaining == []
    ensures Reached(c, NotConnected(c, errno))
  {
    assert c.hist.tried + [] == c.hist.tried;
  }

  lemma ReachedAtOnce(c: Conn, d: Conn, p: bool)
    requires d == Dialled(c, d.originFd, p) && !InvalidFd(d.originFd) && d.originFd != c.clientFd
    ensures Reached(c, Connect.Connecting(d, p))
  {
    hide IpOnly;
  }

  /** With the first address off the list, tried if it is an IP address. */
  function TakenOff(c: Conn): Conn
    requires c.remaining != []
  {
    var d := c.(remaining := c.remaining[1..]);
    if IsIp(c.remaining[0]) then d.(hist := d.hist.(tried := d.hist.tried + [c.remaining[0]])) else d
  }

  lemma TakenOffKeeps(c: Conn)
    requires c.remaining != []
    ensures var e := TakenOff(c);
            && e == Advanced(c, e.hist.tried, e.remaining)
            && e.hist.tried + IpOnly(e.remaining) == c.hist.tried + IpOnly(c.remaining)
  {
  }

  lemma ConnectNextTurn(c: Conn, attempts: seq<Attempt>, errno: Errno)
    requires c.remaining != []
    ensures var e := TakenOff(c);
            ConnectNext(c, attempts, errno)
            == if !IsIp(c.remaining[0]) then ConnectNext(e, attempts, errno)
               else match ConnectSockaddr(e, NextAttempt(attempts))
                    case NotConnected(f, failure) => ConnectNext(f, OtherAttempts(attempts), failure)
                    case Connecting(f, p) => Connect.Connecting(f, p)
  {
    hide ConnectSockaddr;
  }

  /** The address loop: in list order, each once, up to the first that connects or to the end. */
  lemma {:induction false} ConnectNextShape(c: Conn, attempts: seq<Attempt>, errno: Errno)
    requires c.originFd == -1 && Fresh(c, attempts)
    ensures Reached(c, ConnectNext(c, attempts, errno))
    decreases |c.remaining|
  {
    hide Reached, Fresh, ConnectSockaddr, NextAttempt, IpOnly;
    if c.remaining == [] {
      ReachedAtEnd(c, errno);
    } else {
      ConnectNextTurn(c, attempts, errno);
      hide ConnectNext;
      var e := TakenOff(c);
      TakenOffKeeps(c);
      FreshRest(c, e, attempts);
      if !IsIp(c.remaining[0]) {
        ConnectNextShape(e, attempts, errno);
      } else {
        ConnectSockaddrShape(e, attempts);
        match ConnectSockaddr(e, NextAttempt(attempts))
        case NotConnected(_, failure) => ConnectNextShape(e, OtherAttempts(attempts), failure);
        case Connecting(f, p) => ReachedAtOnce(e, f, p);
      }
      ReachedAfter(c, e, ConnectNext(c, attempts, errno));
    }
  }

  lemma FreshRest(c: Conn, e: Conn, attempts: seq<Attempt>)
    requires Fresh(c, attempts) && e.clientFd == c.clientFd
    ensures Fresh(e, attempts) && Fresh(e, OtherAttempts(attempts))
  {
    assert forall x | x in OtherAttempts(attempts) :: x in attempts;
  }

  lemma AdvancedOk(c: Conn, tried: seq<AddrInfo>, remaining: seq<AddrInfo>)
    requires Core(c) && c.hist.code.None? && tried + IpOnly(remaining) == c.hist.tried + IpOnly(c.remaining)
    ensures Core(Advanced(c, tried, remaining))
  {
    hide Facts, IpOnly;
    SameFacts(c.hist, Advanced(c, tried, remaining).hist);
  }

  lemma DialledOk(c: Conn, fd: int, inProgress: bool)
    requires Core(c) && c.clientReg.Some? && c.originReg.None? && !InvalidFd(c.clientFd)
    requires !InvalidFd(fd) && fd != c.clientFd
    ensures Core(Dialled(c, fd, inProgress)) && Registered(Dialled(c, fd, inProgress))
  {
    hide Facts, Dialed;
    SameDialed(c, Dialled(c, fd, inProgress));
  }

  /** What the dialling handlers start from: a pending request without an origin descriptor. */
  ghost predicate Diallable(c: Conn) {
    Core(c) && Registered(c) && Pending(c) && Settled(c) && c.originFd == -1
  }

  lemma PendingSame(c: Conn, d: Conn)
    requires Pending(c) && d.client == c.client && d.wb == c.wb
    requires d.hist == c.hist.(tried := d.hist.tried, asked := d.hist.asked)
    ensures Pending(d) && Wanted(d.hist) == Wanted(c.hist)
  {
    hide Incremental.Feed;
  }

  lemma PendingFailure(c: Conn, errno: Errno)
    requires Pending(c)
    ensures CodeFits(Wanted(c.hist), ReplyForErrno(errno)) && ReplyForErrno(errno) != Requests.SUCCEEDED
    ensures CodeFits(Wanted(c.hist), Requests.GENERAL_FAILURE) && CodeFits(Wanted(c.hist), Requests.HOST_UNREACHABLE)
  {
    hide Incremental.Feed;
  }

  lemma AfterConnectFailed(s: State, c: Conn, d: Conn, errno: Errno, k: Kernel, log: bool)
    requires Diallable(c) && s != RequestWrite
    requires d == Advanced(c, d.hist.tried, d.remaining) && IpOnly(d.remaining) == []
    requires d.hist.tried + IpOnly(d.remaining) == c.hist.tried + IpOnly(c.remaining)
    ensures GoodTurn(s, AfterConnect(NotConnected(d, errno), k, log))
  {
    hide Core, IpOnly, CodeFits, Wanted;
    AdvancedOk(c, d.hist.tried, d.remaining);
    PendingSame(c, d);
    PendingFailure(d, errno);
    CoreCounts(c);
    SetReplyOk(s, d, ReplyForErrno(errno));
  }

  lemma CoreCounts(c: Conn)
    requires Core(c)
    ensures Counted(c) && Books(c)
  {
  }

  lemma AfterConnectMade(s: State, c: Conn, d: Conn, inProgress: bool, k: Kernel, log: bool)
    requires Diallable(c) && c.clientReg == Some(NOOP) && (s == Resolving || s == State.Connecting)
    requires !InvalidFd(d.originFd) && d.originFd != c.clientFd
    requires d == Dialled(Advanced(c, d.hist.tried, d.remaining), d.originFd, inProgress)
    requires d.hist.tried + IpOnly(d.remaining) == c.hist.tried + IpOnly(c.remaining)
    ensures GoodTurn(s, AfterConnect(Connect.Connecting(d, inProgress), k, log))
  {
    hide Core, IpOnly, Pending;
    var a := Advanced(c, d.hist.tried, d.remaining);
    PendingCodeNone(c);
    AdvancedOk(c, d.hist.tried, d.remaining);
    DialledOk(a, d.originFd, inProgress);
    PendingSame(c, d);
    if !inProgress {
      PendingAnswerable(d);
      SucceedOk(s, d, k, log);
    }
  }

  lemma PendingCodeNone(c: Conn)
    requires Pending(c)
    ensures c.hist.code.None? && c.client.RequestSt?
  {
  }

  lemma PendingAnswerable(c: Conn)
    requires Core(c) && Registered(c) && Pending(c) && Settled(c) && c.originReg == Some(NOOP)
    ensures Answerable(c)
  {
    hide Core, Wanted;
  }

  lemma AfterConnectOk(s: State, c: Conn, attempts: seq<Attempt>, k: Kernel, log: bool)
    requires Diallable(c) && c.clientReg == Some(NOOP) && (s == Resolving || s == State.Connecting) && Fresh(c, attempts)
    ensures GoodTurn(s, AfterConnect(ConnectNext(c, attempts, HostUnreach), k, log))
  {
    ConnectNextShape(c, attempts, HostUnreach);
    hide Core, Pending, ConnectNext, AfterConnect;
    match ConnectNext(c, attempts, HostUnreach)
    case NotConnected(d, errno) => AfterConnectFailed(s, c, d, errno, k, log);
    case Connecting(d, p) => AfterConnectMade(s, c, d, p, k, log);
  }

  // ---------------------------------------------------------------- REQUEST

  lemma FactsRequest(h: History, bs: seq<byte>)
    requires Facts(h) && Gate(h) && h.code.None?
    requires Requests.Taken(Requests.Initial(), h.request + bs) == |h.request + bs|
    ensures Facts(h.(request := h.request + bs))
  {
    hide Incremental.Feed, Incremental.Consumed, CodeFits, IsReply, Hello.IsGreeting;
  }

  lemma RequestParsedOk(c: Conn)
    requires Core(c) && c.client.RequestSt? && c.client.request == Wanted(c.hist) && !c.client.request.Terminal()
    requires Gate(c.hist) && c.hist.code.None? && c.hist.toOrigin == []
    ensures Core(RequestParsed(c)) && RequestParsed(c).client.request == Wanted(RequestParsed(c).hist)
  {
    hide Incremental.Feed, Incremental.Consumed, Dialed, Facts, Wanted;
    var k := Requests.Taken(c.client.request, c.rb.queue);
    var d := RequestParsed(c);
    RequestGrows(c.hist, c.rb.queue);
    FactsRequest(c.hist, c.rb.queue[..k]);
    DropQueue(c.rb, k);
    SameDialed(c, d);
    WantedSame(c.hist.(request := d.hist.request), d.hist);
    assert Taken(c.hist) == c.hist.hello + c.hist.auth + c.hist.request;
    assert Taken(d.hist) == Taken(c.hist) + c.rb.queue[..k];
    assert Taken(c.hist) + (c.rb.queue[..k] + d.rb.queue) == Taken(d.hist) + d.rb.queue;
  }

  lemma RequestGrows(h: History, q: seq<byte>)
    requires Facts(h) && !Wanted(h).Terminal()
    ensures var k := Requests.Taken(Wanted(h), q);
            && Wanted(h.(request := h.request + q[..k])) == Requests.Parse(Wanted(h), q)
            && Requests.Taken(Requests.Initial(), h.request + q[..k]) == |h.request| + k
            && k <= |q|
  {
    hide Incremental.Feed, Incremental.Consumed, CodeFits, IsReply, Hello.IsGreeting;
    Incremental.FeedMore(Requests.MACHINE, Requests.Initial(), h.request, q);
  }

  /** A request the parser has finished with, well or badly, and nobody has answered. */
  ghost predicate Parsed(c: Conn) {
    && Core(c) && Registered(c) && c.client.RequestSt? && c.client.request == Wanted(c.hist)
    && Gate(c.hist) && Quiet(c) && c.wb.queue == []
  }

  lemma ParsedAnswerable(c: Conn)
    requires Parsed(c)
    ensures Answerable(c) && IpOnly(c.remaining) == []
  {
    hide Core, Wanted;
  }

  lemma RememberOk(c: Conn)
    requires Parsed(c)
    ensures Parsed(Remember(c)) && Remember(c).client == c.client && Remember(c).hist == c.hist
  {
    hide Facts, Wanted, IpOnly, CString;
    NothingLogged(c);
  }

  lemma RequestProcessOk(c0: Conn, k: Kernel)
    requires Parsed(c0) && c0.client.request.state.Done? && Fresh(c0, k.attempts)
    ensures GoodTurn(RequestRead, RequestProcess(c0, k))
  {
    hide Core, IpOnly, Fresh;
    RememberOk(c0);
    var c := Remember(c0);
    var p := c.client.request;
    ParsedAnswerable(c);
    hide Remember, Answerable;
    if p.cmd != Requests.CONNECT {
      SetReplyOk(RequestRead, c, Requests.COMMAND_NOT_SUPPORTED);
    } else if !p.Known() {
      SetReplyOk(RequestRead, c, Requests.ADDRESS_TYPE_NOT_SUPPORTED);
    } else if p.atyp == Requests.DOMAIN {
      StartResolutionOk(c, k);
    } else {
      FreshRemembered(c0, k);
      ConnectIpOk(c, k);
    }
  }

  lemma FreshRemembered(c: Conn, k: Kernel)
    requires c.client.RequestSt? && Fresh(c, k.attempts)
    ensures Fresh(Remember(c), k.attempts)
  {
  }

  lemma ParsedPending(c: Conn)
    requires Parsed(c) && c.client.request.state.Done? && c.client.request.cmd == Requests.CONNECT && c.client.request.Known()
    ensures Pending(c) && Diallable(c)
  {
    hide Core, Wanted;
  }

  lemma StartResolutionOk(c: Conn, k: Kernel)
    requires Parsed(c) && c.client.request.state.Done? && c.client.request.cmd == Requests.CONNECT && c.client.request.Known()
    ensures GoodTurn(RequestRead, StartResolution(c, k))
  {
    hide IpOnly, Facts, Dialed, Wanted;
    ParsedPending(c);
    if !k.memory || !k.thread {
      hide Core;
      ParsedAnswerable(c);
      PendingFailure(c, OtherErrno);
      SetReplyOk(RequestRead, c, Requests.GENERAL_FAILURE);
    } else {
      var query := LookupOf(c.client.request);
      var d := c.(references := c.references + 1, resolver := Running, clientReg := Some(NOOP),
                  hist := c.hist.(asked := Some(query)));
      SameFacts(c.hist, d.hist);
      SameDialed(c, d);
      PendingSame(c, d);
      assert Counted(d);
    }
  }

  lemma ConnectedIpOk(c: Conn, d: Conn, inProgress: bool, k: Kernel)
    requires Answerable(c) && Diallable(c) && d == Dialled(c, d.originFd, inProgress)
    requires !InvalidFd(d.originFd) && d.originFd != c.clientFd && c.client.RequestSt?
    ensures GoodTurn(RequestRead, if inProgress then SetClientInterest(d, NOOP, State.Connecting) else Succeed(d, k, true))
  {
    hide Core, Pending, Answerable, IpOnly, Wanted, Succeed, Grows;
    PendingCodeNone(c);
    DialledOk(c, d.originFd, inProgress);
    PendingSame(c, d);
    if inProgress {
      ClientInterestOk(d, NOOP);
    } else {
      hide GoodTurn;
      PendingAnswerable(d);
      SucceedOk(RequestRead, d, k, true);
    }
  }

  lemma ConnectIpOk(c: Conn, k: Kernel)
    requires Parsed(c) && c.client.request.state.Done? && c.client.request.cmd == Requests.CONNECT && c.client.request.Known()
    requires Fresh(c, k.attempts)
    ensures GoodTurn(RequestRead, ConnectIp(c, k))
  {
    var e := c.(hist := c.hist.(asked := Some(EndpointOf(c.client.request))));
    NotedParsed(c, EndpointOf(c.client.request));
    ParsedPending(e);
    ParsedAnswerable(e);
    FreshSame(c, e, k.attempts);
    ConnectSockaddrShape(e, k.attempts);
    hide Core, IpOnly, Wanted, Fresh, ConnectSockaddr, NextAttempt, Answerable, Pending, GoodTurn, EndpointOf;
    hide SetReply, Succeed, Grows, ReplyForErrno, Parsed;
    match ConnectSockaddr(e, NextAttempt(k.attempts))
    case NotConnected(d, errno) =>
      PendingFailure(e, errno);
      SetReplyOk(RequestRead, e, ReplyForErrno(errno));
    case Connecting(d, inProgress) => ConnectedIpOk(e, d, inProgress, k);
  }

  lemma NotedParsed(c: Conn, query: Query)
    requires Parsed(c)
    ensures Parsed(c.(hist := c.hist.(asked := Some(query))))
  {
    hide Facts, Dialed, IpOnly, Wanted;
    var e := c.(hist := c.hist.(asked := Some(query)));
    SameFacts(c.hist, e.hist);
    SameDialed(c, e);
    WantedSame(c.hist, e.hist);
  }

  lemma ClientInterestOk(c: Conn, i: Interest)
    requires Core(c) && Registered(c)
    ensures Core(c.(clientReg := Some(i))) && Registered(c.(clientReg := Some(i)))
    ensures Pending(c) ==> Pending(c.(clientReg := Some(i)))
  {
    hide Facts, Dialed, Wanted;
    SameDialed(c, c.(clientReg := Some(i)));
  }

  lemma RequestReadOk(c: Conn, k: Kernel)
    requires c.client.RequestSt? && Core(c) && Registered(c) && Resting(c, RequestRead) && Fresh(c, k.attempts)
    ensures GoodTurn(RequestRead, RequestReadReady(c, k))
  {
    hide Core, Wanted, IpOnly, Fresh, RequestProcess, SetReply, Grows, Requests.Parse, Requests.Taken;
    match Recv(k, c.rb.space)
    case Got(bs) =>
      RoomOk(c, k);
      TakeOk(c, bs);
      var d := TakeFromClient(c, bs);
      assert d.client == c.client && d.hist == c.hist.(fromClient := d.hist.fromClient);
      WantedSame(c.hist, d.hist);
      RequestParsedOk(d);
      var e := RequestParsed(d);
      FreshSame(c, e, k.attempts);
      assert Parsed(e);
      if e.client.request.state.Done? {
        RequestProcessOk(e, k);
      } else if e.client.request.state.Error? {
        ParsedAnswerable(e);
        SetReplyOk(RequestRead, e, Requests.GENERAL_FAILURE);
      }
    case _ =>
  }

  lemma RoomOk(c: Conn, k: Kernel)
    ensures Recv(k, c.rb.space).Got? ==> |Recv(k, c.rb.space).bytes| <= c.rb.space
  {
  }

  lemma FreshSame(c: Conn, e: Conn, attempts: seq<Attempt>)
    requires Fresh(c, attempts) && e.clientFd == c.clientFd
    ensures Fresh(e, attempts)
  {
  }

  lemma WantedSame(h: History, g: History)
    requires g.request == h.request
    ensures Wanted(g) == Wanted(h)
  {
    hide Incremental.Feed;
  }

  // ---------------------------------------------------------------- RESOLVING, CONNECTING, REQUEST_WRITE

  lemma BlockOk(c: Conn, k: Kernel)
    requires c.client.RequestSt? && Core(c) && Registered(c) && Resting(c, Resolving) && c.job && Fresh(c, k.attempts)
    ensures GoodTurn(Resolving, BlockReady(c.(job := false), k))
  {
    hide Facts, Wanted, IpOnly, Fresh;
    var d := c.(job := false);
    SameDialed(c, d);
    PendingSame(c, d);
    FreshSame(c, d, k.attempts);
    assert Diallable(d);
    if d.resolutionFailed || d.resolution == [] {
      NoAddresses(d);
      PendingFailure(d, OtherErrno);
      hide Core;
      PendingAnswers(d);
      SetReplyOk(Resolving, d, Requests.HOST_UNREACHABLE);
    } else {
      AfterConnectOk(Resolving, d, k.attempts, k, true);
    }
  }

  lemma NoAddresses(c: Conn)
    requires Dialed(c) && c.remaining == c.resolution && (c.resolutionFailed || c.resolution == [])
    ensures IpOnly(c.remaining) == []
  {
  }

  lemma PendingAnswers(c: Conn)
    requires Core(c) && Registered(c) && Pending(c) && Settled(c) && (c.originReg.Some? ==> c.originReg.value == NOOP)
    ensures Answerable(c)
  {
    hide Core, Wanted;
  }

  lemma ProbeFailedOk(c: Conn)
    requires Core(c) && Registered(c) && Pending(c) && c.originReg.Some?
    ensures var d := c.(originReg := Some(NOOP), hist := c.hist.(probeFailed := true));
            Core(d) && Registered(d) && Pending(d) && Wanted(d.hist) == Wanted(c.hist)
  {
    hide Facts, IpOnly, Incremental.Feed;
    var d := c.(originReg := Some(NOOP), hist := c.hist.(probeFailed := true));
    SameFacts(c.hist, d.hist);
    WantedSame(c.hist, d.hist);
  }

  lemma OriginGone(c: Conn)
    requires Core(c) && Registered(c) && Pending(c) && Settled(c) && c.originReg.Some?
    ensures var d := DropOrigin(c);
            Diallable(d) && d.remaining == c.remaining && d.hist == c.hist
  {
    hide Facts, Dialed, Wanted;
    var d := DropOrigin(c);
    assert c.references >= 2;
    SameDialed(c, d);
    PendingSame(c, d);
  }

  lemma ConnectFailedOk(c: Conn, errno: Errno, k: Kernel)
    requires c.client.RequestSt? && Core(c) && Registered(c) && Resting(c, State.Connecting) && Fresh(c, k.attempts)
    ensures c.client.RequestSt? && GoodTurn(State.Connecting, ConnectFailed(c, errno, k))
  {
    hide Core, Wanted, IpOnly, Fresh, Pending, GoodTurn, AfterConnect, ConnectNext, Grows;
    PendingCodeNone(c);
    OriginGone(c);
    var d := DropOrigin(c);
    FreshSame(c, d, k.attempts);
    if d.remaining == [] {
      EmptyIp(d);
      AfterConnectFailed(State.Connecting, d, d, errno, k, false);
    } else {
      AfterConnectOk(State.Connecting, d, k.attempts, k, false);
    }
  }

  lemma PendingBuffer(c: Conn)
    requires Core(c) && Pending(c)
    ensures c.wb == EmptyFifo(BUFFER_SIZE)
  {
    hide Counted, Facts, Dialed, Wanted;
  }

  /** Whether the origin's interest changes before or after the reply is put makes no difference. */
  lemma OriginFirst(c: Conn, k: Kernel)
    requires c.client.RequestSt? && c.originReg.Some? && c.wb == EmptyFifo(BUFFER_SIZE)
    ensures Succeed(c.(originReg := Some(NOOP)), k, true)
         == SetClientInterest(Reply(c, k, true).c.(originReg := Some(NOOP)), WRITE, RequestWrite)
    ensures Reply(c, k, true).next == RequestWrite && Reply(c, k, true).c.originReg == c.originReg
  {
    hide LogStatus, Grows;
  }

  lemma ConnectOk(c: Conn, fd: int, k: Kernel)
    requires c.client.RequestSt? && Core(c) && Registered(c) && Resting(c, State.Connecting) && Fresh(c, k.attempts)
    ensures GoodTurn(State.Connecting, ConnectReady(c, fd, k))
  {
    hide Core, Wanted, IpOnly, Fresh, Pending;
    if fd == c.originFd {
      PendingCodeNone(c);
      match k.probe
      case ProbeFails =>
        ProbeFailedOk(c);
        var d := c.(originReg := Some(NOOP), hist := c.hist.(probeFailed := true));
        PendingFailure(d, OtherErrno);
        PendingAnswers(d);
        SetReplyOk(State.Connecting, d, Requests.GENERAL_FAILURE);
      case SocketError(errno) =>
        ConnectFailedOk(c, errno, k);
        hide ConnectFailed;
      case SocketClear =>
        OriginInterestOk(c, NOOP);
        var d := c.(originReg := Some(NOOP));
        PendingBuffer(c);
        OriginFirst(c, k);
        PendingAnswers(d);
        SucceedOk(State.Connecting, d, k, true);
    }
  }

  lemma EmptyIp(c: Conn)
    requires c.remaining == []
    ensures IpOnly(c.remaining) == []
  {
  }

  lemma OriginInterestOk(c: Conn, i: Interest)
    requires Core(c) && Registered(c) && c.originReg.Some?
    ensures Core(c.(originReg := Some(i))) && Registered(c.(originReg := Some(i)))
    ensures Pending(c) ==> Pending(c.(originReg := Some(i)))
  {
    hide Facts, Dialed, Wanted;
    SameDialed(c, c.(originReg := Some(i)));
  }

  lemma RequestWriteOk(c: Conn, k: Kernel)
    requires c.client.RequestSt? && Core(c) && Registered(c) && Resting(c, RequestWrite)
    ensures GoodTurn(RequestWrite, RequestWriteReady(c, k))
  {
    hide Core, Grows;
    match Send(k, |c.wb.queue|)
    case Accepted(n) => GiveOk(c, n);
    case _ =>
  }

  // ---------------------------------------------------------------- COPY

  lemma MakeRoomOk(f: Fifo)
    requires f.Wf() && f.cap > 0
    ensures MakeRoom(f).Wf() && MakeRoom(f).queue == f.queue && MakeRoom(f).cap == f.cap
    ensures MakeRoom(f).space > 0 <==> |f.queue| < f.cap
  {
  }

  /** In COPY, and with both descriptors registered. */
  ghost predicate Relaying(c: Conn) {
    Core(c) && Registered(c) && c.hist.code == Some(Requests.SUCCEEDED) && Settled(c) && c.originReg.Some?
  }

  lemma RoomKept(c: Conn)
    requires Relaying(c)
    ensures Relaying(c.(rb := MakeRoom(c.rb))) && Relaying(c.(wb := MakeRoom(c.wb)))
  {
    hide Facts, Dialed;
    MakeRoomOk(c.rb);
    MakeRoomOk(c.wb);
    SameDialed(c, c.(rb := MakeRoom(c.rb)));
    SameDialed(c, c.(wb := MakeRoom(c.wb)));
  }

  lemma UpdateOk(c: Conn)
    requires Relaying(c)
    ensures var t := UpdateInterests(c);
            t.next == Copy && Core(t.c) && Registered(t.c) && Resting(t.c, Copy) && t.c.hist == c.hist
  {
    hide Facts, Dialed;
    MakeRoomOk(c.rb);
    MakeRoomOk(c.wb);
    SameDialed(c, UpdateInterests(c).c);
  }

  lemma FactsRelayed(h: History, g: History)
    requires Facts(h) && h.code == Some(Requests.SUCCEEDED)
    requires g == h.(fromClient := g.fromClient, toClient := g.toClient, toOrigin := g.toOrigin, fromOrigin := g.fromOrigin)
    ensures Facts(g)
  {
    hide Incremental.Feed, Incremental.Consumed, CodeFits, IsReply, Hello.IsGreeting;
  }

  lemma ForwardOk(c: Conn, n: nat)
    requires Relaying(c) && n <= |c.rb.queue|
    ensures Relaying(c.(rb := c.rb.Drop(n), hist := c.hist.(toOrigin := c.hist.toOrigin + c.rb.queue[..n])))
  {
    hide Facts, Dialed;
    var d := c.(rb := c.rb.Drop(n), hist := c.hist.(toOrigin := c.hist.toOrigin + c.rb.queue[..n]));
    FactsRelayed(c.hist, d.hist);
    SameDialed(c, d);
    DropQueue(c.rb, n);
    assert Taken(d.hist) == Taken(c.hist) + c.rb.queue[..n];
    assert Taken(c.hist) + (c.rb.queue[..n] + d.rb.queue) == Taken(d.hist) + d.rb.queue;
  }

  lemma FromOriginOk(c: Conn, bs: seq<byte>)
    requires Relaying(c) && |bs| <= c.wb.space
    ensures Relaying(TakeFromOrigin(c, bs))
  {
    hide Facts, Dialed;
    var d := TakeFromOrigin(c, bs);
    FactsRelayed(c.hist, d.hist);
    SameDialed(c, d);
    assert Script(d.hist) == Script(c.hist) + bs;
    assert c.hist.toClient + (c.wb.queue + bs) == (c.hist.toClient + c.wb.queue) + bs;
  }

  lemma TryWriteOk(c: Conn, fd: int, k: Kernel)
    requires Relaying(c)
    ensures Relaying(TryWrite(c, fd, k).c)
  {
    if fd == c.clientFd {
      if c.wb.queue != [] && Send(k, |c.wb.queue|).Accepted? {
        GiveOk(c, Send(k, |c.wb.queue|).n);
      }
    } else if fd == c.originFd {
      if c.rb.queue != [] && Send(k, |c.rb.queue|).Accepted? {
        ForwardOk(c, Send(k, |c.rb.queue|).n);
      }
    }
  }

  lemma AfterTryOk(c: Conn, fd: int, k: Kernel)
    requires Relaying(c)
    ensures GoodTurn(Copy, AfterTry(TryWrite(c, fd, k)))
  {
    hide Core, TryWrite, Grows;
    TryWriteOk(c, fd, k);
    var t := TryWrite(c, fd, k);
    if t.ok {
      UpdateOk(t.c);
      hide UpdateInterests;
    }
  }

  lemma CopyFromClientOk(c: Conn, k: Kernel)
    requires Relaying(c)
    ensures GoodTurn(Copy, CopyFromClient(c, k))
  {
    hide Core, TryWrite, UpdateInterests, MakeRoom, AfterTry, Grows;
    RoomKept(c);
    var d := c.(rb := MakeRoom(c.rb));
    UpdateOk(d);
    var r := Recv(k, d.rb.space);
    if d.rb.space != 0 && r.Got? {
      TakeOk(d, r.bytes);
      AfterTryOk(TakeFromClient(d, r.bytes), c.originFd, k);
    }
  }

  lemma CopyFromOriginOk(c: Conn, k: Kernel)
    requires Relaying(c)
    ensures GoodTurn(Copy, CopyFromOrigin(c, k))
  {
    hide Core, TryWrite, UpdateInterests, MakeRoom, AfterTry, Grows;
    RoomKept(c);
    var d := c.(wb := MakeRoom(c.wb));
    UpdateOk(d);
    var r := Recv(k, d.wb.space);
    if d.wb.space != 0 && r.Got? {
      FromOriginOk(d, r.bytes);
      AfterTryOk(TakeFromOrigin(d, r.bytes), c.clientFd, k);
    }
  }

  lemma CopyReadOk(c: Conn, fd: int, k: Kernel)
    requires Relaying(c)
    ensures GoodTurn(Copy, CopyReadReady(c, fd, k))
  {
    hide Core, CopyFromClient, CopyFromOrigin;
    CopyFromClientOk(c, k);
    CopyFromOriginOk(c, k);
  }

  lemma CopyWriteOk(c: Conn, fd: int, k: Kernel)
    requires Relaying(c)
    ensures GoodTurn(Copy, CopyWriteReady(c, fd, k))
  {
    AfterTryOk(c, fd, k);
  }
}
