/**
 * What events leave alone: which one checks a password, and against which map; that the user name,
 * destination and port of a connection, which go into the access log, and the name looked up are those
 * that its login and its request spelled; and which kernel answers are behind the marks in its history.
 */
module Logins {
  import opened Common
  import opened Buffers
  import opened Selectors
  import opened Connections
  import opened ConnectionLaws
  import opened ConnectionEvents
  import opened Failover
  import ConnectionSteps
  import Incremental
  import Hello
  import Auth
  import Requests

  /** The outcome of the check is untouched. */
  predicate SameCheck(c: Conn, d: Conn) {
    d.hist.status == c.hist.status && d.hist.users == c.hist.users
  }

  /** So are the login and the name. */
  predicate SameLogin(c: Conn, d: Conn) {
    SameCheck(c, d) && d.hist.auth == c.hist.auth && d.username == c.username
  }

  /** The request and what was remembered of it are untouched. */
  predicate SameTarget(c: Conn, d: Conn) {
    && d.hist.request == c.hist.request && d.hist.asked == c.hist.asked
    && d.destination == c.destination && d.port == c.port
  }

  predicate SameMarks(c: Conn, d: Conn) {
    && d.hist.lost == c.hist.lost && d.hist.probeFailed == c.hist.probeFailed
    && d.hist.retriedAtOnce == c.hist.retriedAtOnce
  }

  predicate Same(c: Conn, d: Conn) {
    SameLogin(c, d) && SameTarget(c, d) && SameMarks(c, d)
  }

  /** The connection as if it had been answered without an entry in the log, if `b`. */
  function Marked(c: Conn, b: bool): Conn {
    c.(hist := c.hist.(retriedAtOnce := c.hist.retriedAtOnce || b))
  }

  lemma SameTwice(c: Conn, d: Conn, e: Conn)
    requires Same(c, d) && Same(d, e)
    ensures Same(c, e)
  {
  }

  lemma PutSame(c: Conn, reply: byte, bs: seq<byte>)
    ensures Same(c, Logged(c, reply)) && Logged(c, reply).client == c.client
    ensures Same(c, PutReply(c, reply, bs)) && Same(c, SetClientInterest(c, WRITE, RequestWrite).c)
  {
    hide Grows, LogStatus;
  }

  lemma SetReplySame(c: Conn, reply: byte)
    requires c.client.RequestSt?
    ensures Same(c, SetReply(c, reply).c)
  {
    hide Grows, Logged, PutReply, SetClientInterest, Requests.ReplyZero;
    var d := c.(client := c.client.(reply := reply));
    var e := if reply != Requests.SUCCEEDED then Logged(d, reply) else d;
    var f := PutReply(e, reply, Requests.ReplyZero(reply));
    PutSame(d, reply, []);
    PutSame(e, reply, Requests.ReplyZero(reply));
    PutSame(f, reply, []);
  }

  lemma SucceedSame(c: Conn, k: Kernel, log: bool)
    requires c.client.RequestSt?
    ensures Same(Marked(c, !log), Succeed(c, k, log).c) && Same(Marked(c, !log), Reply(c, k, log).c)
  {
    hide Grows, Logged, PutReply, SetClientInterest, OriginBind, Same, LogStatus;
    var d := c.(client := c.client.(reply := Requests.SUCCEEDED));
    var e := if log then Logged(d, Requests.SUCCEEDED) else Marked(d, true);
    var bs := OriginBind(k, Requests.SUCCEEDED);
    var f := PutReply(e, Requests.SUCCEEDED, bs);
    MarkedSame(c, d, !log);
    PutSame(d, Requests.SUCCEEDED, []);
    SameTwice(Marked(c, !log), Marked(d, !log), e);
    PutSame(e, Requests.SUCCEEDED, bs);
    SameTwice(Marked(c, !log), e, f);
    PutSame(f, Requests.SUCCEEDED, []);
    SameTwice(Marked(c, !log), f, SetClientInterest(f, WRITE, RequestWrite).c);
  }

  lemma MarkedSame(c: Conn, d: Conn, b: bool)
    requires d == c.(client := d.client)
    ensures Same(Marked(c, b), Marked(d, b)) && (!b ==> Marked(d, b) == d)
  {
    hide Grows;
  }

  lemma SockaddrSame(c: Conn, a: Attempt)
    ensures Same(c, ConnectSockaddr(c, a).c)
  {
    hide Grows;
  }

  lemma {:induction false} NextSame(c: Conn, attempts: seq<Attempt>, errno: Errno)
    ensures Same(c, ConnectNext(c, attempts, errno).c)
    decreases |c.remaining|
  {
    if c.remaining != [] {
      var d := c.(remaining := c.remaining[1..]);
      var e := d.(hist := d.hist.(tried := d.hist.tried + [c.remaining[0]]));
      assert Same(c, d) && Same(c, e);
      hide Grows, ConnectSockaddr, Same;
      var last := ConnectNext(c, attempts, errno).c;
      if !IsIp(c.remaining[0]) {
        NextSame(d, attempts, errno);
        SameTwice(c, d, last);
      } else {
        var r := ConnectSockaddr(e, NextAttempt(attempts));
        SockaddrSame(e, NextAttempt(attempts));
        SameTwice(c, e, r.c);
        if r.NotConnected? {
          NextSame(r.c, OtherAttempts(attempts), r.errno);
          SameTwice(c, r.c, last);
        }
      }
    }
  }

  lemma AfterSame(r: Connect, k: Kernel, log: bool)
    requires r.c.client.RequestSt?
    ensures Same(Marked(r.c, !log && r.Connecting? && !r.inProgress), AfterConnect(r, k, log).c)
  {
    hide SetReply, Succeed, Grows;
    match r
    case NotConnected(c, errno) => SetReplySame(c, ReplyForErrno(errno));
    case Connecting(c, inProgress) => SucceedSame(c, k, log);
  }

  lemma ConnectIpSame(c: Conn, k: Kernel)
    requires c.client.RequestSt?
    ensures Same(c.(hist := c.hist.(asked := Some(EndpointOf(c.client.request)))), ConnectIp(c, k).c)
  {
    hide Grows, SetReply, Succeed, ConnectSockaddr, EndpointOf;
    var e := c.(hist := c.hist.(asked := Some(EndpointOf(c.client.request))));
    var r := ConnectSockaddr(e, NextAttempt(k.attempts));
    SockaddrSame(e, NextAttempt(k.attempts));
    if r.NotConnected? {
      SetReplySame(r.c, ReplyForErrno(r.errno));
    } else {
      SucceedSame(r.c, k, true);
    }
  }

  /** What the destination and port of a request are. */
  function Target(p: Requests.Parser): (Destination, Requests.port16) {
    (if p.atyp == Requests.DOMAIN then Domain(CString(p.domain[..p.domainLen]))
     else if p.atyp == Requests.IPV4 then Ip4(p.addr[..4])
     else if p.atyp == Requests.IPV6 then Ip6(p.addr)
     else Dash,
     p.port)
  }

  /** What a request asks to look up or to dial. */
  function QueryOf(p: Requests.Parser): Query {
    if p.atyp == Requests.DOMAIN then LookupOf(p) else EndpointOf(p)
  }

  lemma RememberTarget(c: Conn)
    requires c.client.RequestSt?
    ensures var d := Remember(c);
            && SameLogin(c, d) && SameMarks(c, d) && d.client == c.client && d.hist == c.hist
            && (d.destination, d.port) == Target(c.client.request)
  {
    hide Grows, CString;
  }

  lemma ProcessTarget(c: Conn, k: Kernel)
    requires c.client.RequestSt?
    ensures var d := RequestProcess(c, k).c;
            && SameLogin(c, d) && SameMarks(c, d)
            && d.hist.request == c.hist.request && (d.destination, d.port) == Target(c.client.request)
            && (d.hist.asked == c.hist.asked || (c.client.request.Known() && d.hist.asked == Some(QueryOf(c.client.request))))
  {
    hide Grows, SetReply, LookupOf, EndpointOf, Remember, ConnectIp, StartResolution, Target;
    var e := Remember(c);
    RememberTarget(c);
    SetReplySame(e, Requests.COMMAND_NOT_SUPPORTED);
    SetReplySame(e, Requests.ADDRESS_TYPE_NOT_SUPPORTED);
    StartSame(e, k);
    ConnectIpSame(e, k);
  }

  lemma StartSame(c: Conn, k: Kernel)
    requires c.client.RequestSt?
    ensures var d := StartResolution(c, k).c;
            && Same(c.(hist := c.hist.(asked := d.hist.asked)), d)
            && (d.hist.asked == c.hist.asked || d.hist.asked == Some(LookupOf(c.client.request)))
  {
    hide Grows, SetReply, LookupOf;
    SetReplySame(c, Requests.GENERAL_FAILURE);
  }

  lemma BlockSame(c: Conn, k: Kernel)
    requires c.client.RequestSt?
    ensures Same(c, BlockReady(c, k).c)
  {
    hide Grows, SetReply, AfterConnect, ConnectNext;
    SetReplySame(c, Requests.HOST_UNREACHABLE);
    NextSame(c, k.attempts, HostUnreach);
    AfterSame(ConnectNext(c, k.attempts, HostUnreach), k, true);
  }

  /** A later attempt connects, and at once. */
  predicate ConnectsAtOnce(c: Conn, attempts: seq<Attempt>) {
    Connects(c, attempts) && attempts[Failures(attempts)].Immediate?
  }

  /** The marks that an event in CONNECTING leaves, by the answers of getsockopt and of the attempts. */
  function Flagged(c: Conn, fd: int, k: Kernel): Conn {
    c.(hist := c.hist.(
         probeFailed := c.hist.probeFailed || (fd == c.originFd && k.probe.ProbeFails?),
         retriedAtOnce := c.hist.retriedAtOnce || (fd == c.originFd && k.probe.SocketError? && ConnectsAtOnce(c, k.attempts))))
  }

  lemma ConnectSame(c: Conn, fd: int, k: Kernel)
    requires c.client.RequestSt?
    ensures Same(Flagged(c, fd, k), ConnectReady(c, fd, k).c)
  {
    hide Grows, SetReply, ConnectFailed, ConnectCompleted, ConnectsAtOnce, Same;
    if fd == c.originFd {
      match k.probe
      case ProbeFails =>
        var e := if c.originReg.Some? then c.(originReg := Some(NOOP)) else c;
        var f := e.(hist := e.hist.(probeFailed := true));
        SetReplySame(f, Requests.GENERAL_FAILURE);
        SameButRows(Flagged(c, fd, k), f);
        SameTwice(Flagged(c, fd, k), f, SetReply(f, Requests.GENERAL_FAILURE).c);
      case SocketError(errno) => FailedSame(c, errno, k);
      case SocketClear => ClearSame(c, k);
    } else {
      SameSelf(c);
    }
  }

  lemma SameButRows(c: Conn, d: Conn)
    requires d == c.(originReg := d.originReg)
    ensures Same(c, d)
  {
  }

  lemma ClearSame(c: Conn, k: Kernel)
    requires c.client.RequestSt?
    ensures Same(c, ConnectCompleted(c, k).c)
  {
    hide Grows, Reply, SetClientInterest, Same;
    SucceedSame(c, k, true);
    var d := Reply(c, k, true).c;
    var e := d.(originReg := Some(NOOP));
    SameButRows(d, e);
    SameTwice(c, d, e);
    PutSame(e, Requests.SUCCEEDED, []);
    SameTwice(c, e, SetClientInterest(e, WRITE, RequestWrite).c);
  }

  lemma FailedSame(c: Conn, errno: Errno, k: Kernel)
    requires c.client.RequestSt?
    ensures Same(Marked(c, ConnectsAtOnce(c, k.attempts)), ConnectFailed(c, errno, k).c)
  {
    hide Grows, AfterConnect, ConnectNext, DropOrigin;
    var d := DropOrigin(c);
    DropSame(c);
    if d.remaining == [] {
      AfterSame(NotConnected(d, errno), k, false);
    } else {
      var r := ConnectNext(d, k.attempts, HostUnreach);
      NextSame(d, k.attempts, HostUnreach);
      NextResolution(d, k.attempts, HostUnreach);
      assert r.Connecting? ==> r.inProgress == k.attempts[Failures(k.attempts)].InProgress?;
      assert r.Connecting? <==> Connects(c, k.attempts);
      hide Dials, Connects;
      AfterSame(r, k, false);
    }
  }

  lemma DropSame(c: Conn)
    ensures Same(c, DropOrigin(c)) && DropOrigin(c).remaining == c.remaining && DropOrigin(c).originFd == -1
  {
    hide Grows;
  }

  lemma UpdateSame(c: Conn)
    ensures Same(c, UpdateInterests(c).c)
  {
    hide Grows, MakeRoom;
  }

  lemma TrySame(c: Conn, fd: int, k: Kernel)
    ensures Same(c, TryWrite(c, fd, k).c)
  {
    hide Grows;
  }

  lemma AfterTrySame(t: Tried)
    ensures Same(t.c, AfterTry(t).c)
  {
    hide Grows, UpdateInterests;
    UpdateSame(t.c);
  }

  /** What the two halves of copy_read do with the bytes they got. */
  lemma RelaySame(c: Conn, d: Conn, fd: int, k: Kernel)
    requires Same(c, d)
    ensures Same(c, AfterTry(TryWrite(d, fd, k)).c)
  {
    hide Same, TryWrite, AfterTry;
    TrySame(d, fd, k);
    AfterTrySame(TryWrite(d, fd, k));
    SameTwice(c, d, TryWrite(d, fd, k).c);
    SameTwice(c, TryWrite(d, fd, k).c, AfterTry(TryWrite(d, fd, k)).c);
  }

  lemma CopyFromClientSame(c: Conn, k: Kernel)
    ensures Same(c, CopyFromClient(c, k).c)
  {
    hide Grows, MakeRoom, UpdateInterests, TryWrite, AfterTry;
    var d := c.(rb := MakeRoom(c.rb));
    UpdateSame(d);
    match Recv(k, d.rb.space)
    case Got(bs) => RelaySame(c, TakeFromClient(d, bs), c.originFd, k);
    case _ =>
  }

  lemma CopyFromOriginSame(c: Conn, k: Kernel)
    ensures Same(c, CopyFromOrigin(c, k).c)
  {
    hide Grows, MakeRoom, UpdateInterests, TryWrite, AfterTry;
    var d := c.(wb := MakeRoom(c.wb));
    UpdateSame(d);
    match Recv(k, d.wb.space)
    case Got(bs) => RelaySame(c, TakeFromOrigin(d, bs), c.clientFd, k);
    case _ =>
  }

  lemma CopySame(c: Conn, fd: int, k: Kernel)
    ensures Same(c, CopyReadReady(c, fd, k).c) && Same(c, CopyWriteReady(c, fd, k).c)
  {
    hide Grows, CopyFromClient, CopyFromOrigin, TryWrite, AfterTry;
    CopyFromClientSame(c, k);
    CopyFromOriginSame(c, k);
    RelaySame(c, c, fd, k);
  }

  lemma HelloReceivedSame(c: Conn, bs: seq<byte>)
    requires c.client.HelloSt? && |bs| <= c.rb.space
    ensures Same(c, HelloReceived(c, bs).c)
  {
    hide Grows, Hello.Parse, Hello.Taken, Hello.Answer;
  }

  lemma HelloReadSame(c: Conn, k: Kernel)
    requires c.client.HelloSt?
    ensures Same(c, HelloReadReady(c, k).c)
  {
    hide Grows, HelloReceived, Same;
    match Recv(k, c.rb.space)
    case Got(bs) => HelloReceivedSame(c, bs);
    case _ => SameSelf(c);
  }

  lemma SameSelf(c: Conn)
    ensures Same(c, c)
  {
  }

  lemma HelloWriteSame(c: Conn, k: Kernel)
    requires c.client.HelloSt?
    ensures Same(c, HelloWriteReady(c, k).c)
  {
    hide Grows;
  }

  lemma WritesSame(c: Conn, k: Kernel)
    ensures c.client.AuthSt? ==> Same(c, AuthWriteReady(c, k).c)
    ensures c.client.RequestSt? ==> Same(c, RequestWriteReady(c, k).c)
  {
    hide Grows;
  }

  lemma ArriveSame(c: Conn, a: Arrival)
    ensures Same(c, Arrive(c, a))
  {
    hide Grows;
  }

  lemma JumpSame(c: Conn, next: State)
    ensures Same(c, Jump(c, next)) && Same(c, HandleFirst(c))
  {
    hide Arrive, Grows;
    ArriveSame(c.(current := Some(next)), TABLE[Number(next)].arrival);
    ArriveSame(c.(current := Some(HelloRead)), TABLE[0].arrival);
  }

  lemma ReleaseSame(c: Conn)
    ensures Same(c, Release(c)) && Same(c, Release(c).(clientReg := None)) && Same(c, Release(c).(originReg := None))
  {
    hide Grows;
  }

  lemma FinishSame(c: Conn)
    ensures Finish(c).Alive? ==> Same(c, Finish(c).c)
  {
    hide Grows, Release, Same;
    ReleaseSame(c);
    var d := Release(c).(clientReg := None);
    ReleaseSame(d);
    SameTwice(c, d, Release(d).(originReg := None));
  }

  /** In every handler but those of AUTH_READ and REQUEST_READ. */
  lemma InvokeSame(h: Callback, c: Conn, fd: int, k: Kernel)
    requires Connections.Member(c, h) && !h.AuthReadC? && !h.RequestReadC?
    ensures Same(if h.ConnectingC? then Flagged(c, fd, k) else c, Invoke(h, c, fd, k).c)
  {
    hide Grows, HelloReadReady, HelloWriteReady, AuthReadReady, AuthWriteReady, RequestReadReady, BlockReady,
         ConnectReady, RequestWriteReady, CopyReadReady, CopyWriteReady;
    match h
    case HelloReadC => HelloReadSame(c, k);
    case HelloWriteC => HelloWriteSame(c, k);
    case AuthWriteC => WritesSame(c, k);
    case ResolvingC => BlockSame(c, k);
    case ConnectingC => ConnectSame(c, fd, k);
    case RequestWriteC => WritesSame(c, k);
    case CopyReadC => CopySame(c, fd, k);
    case CopyWriteC => CopySame(c, fd, k);
  }

  // ---------------------------------------------------------------- the check

  lemma AuthChecks(c: Conn, k: Kernel)
    requires c.client.AuthSt?
    ensures var d := AuthReadReady(c, k).c;
            SameMarks(c, d) && (SameCheck(c, d) || (d.hist.status.Some? && d.hist.users == k.users))
  {
    hide Grows, AuthProcess;
    match Recv(k, c.rb.space)
    case Got(bs) =>
      var e := AuthParsed(TakeFromClient(c, bs));
      if e.client.auth.state.Done? && e.clientReg.Some? {
        ProcessChecks(e.(clientReg := Some(WRITE)), k);
      }
    case _ =>
  }

  lemma ProcessChecks(c: Conn, k: Kernel)
    requires c.client.AuthSt?
    ensures var d := AuthProcess(c, k).c;
            SameMarks(c, d) && d.hist.status.Some? && d.hist.users == k.users
  {
    hide Grows, CString;
  }

  lemma RequestChecks(c: Conn, k: Kernel)
    requires c.client.RequestSt?
    ensures SameLogin(c, RequestReadReady(c, k).c) && SameMarks(c, RequestReadReady(c, k).c)
  {
    hide Grows, SetReply, RequestProcess, Target;
    match Recv(k, c.rb.space)
    case Got(bs) =>
      var d := RequestParsed(TakeFromClient(c, bs));
      SetReplySame(d, d.client.request.reply);
      ProcessTarget(d, k);
    case _ =>
  }

  lemma InvokeChecks(h: Callback, c: Conn, fd: int, k: Kernel)
    requires Connections.Member(c, h)
    ensures var d := Invoke(h, c, fd, k).c;
            && (SameCheck(c, d) || (h.AuthReadC? && d.hist.status.Some? && d.hist.users == k.users))
            && SameMarks(if h.ConnectingC? then Flagged(c, fd, k) else c, d)
  {
    if h.AuthReadC? {
      hide Grows, AuthReadReady;
      AuthChecks(c, k);
    } else if h.RequestReadC? {
      hide Grows, RequestReadReady;
      RequestChecks(c, k);
    } else {
      hide Grows, Invoke;
      InvokeSame(h, c, fd, k);
    }
  }

  /** A password is checked by reading in AUTH_READ, and against the user map of that moment. */
  lemma EventChecks(c: Conn, kind: EventKind, fd: int, k: Kernel)
    requires Dispatch(c, kind, fd, k).Alive?
    ensures var d := Dispatch(c, kind, fd, k).c;
            SameCheck(c, d) || (c.current == Some(AuthRead) && kind.Read? && d.hist.status.Some? && d.hist.users == k.users)
  {
    hide Grows, Invoke, HandleFirst, Jump, Finish, CallbackFor, Connections.Member;
    var e := HandleFirst(Undelivered(c, kind));
    var h := CallbackFor(TABLE[Number(e.current.value)], kind).value;
    InvokeChecks(h, e, fd, k);
    FinishSame(Jump(Invoke(h, e, fd, k).c, Invoke(h, e, fd, k).next));
    AuthReadThere(c, kind);
  }

  /** What happened in CONNECTING, on the origin's descriptor. */
  predicate Dialling(c: Conn, kind: EventKind, fd: int) {
    c.current == Some(State.Connecting) && kind.Write? && fd == c.originFd
  }

  lemma ConnectingRow(c: Conn, kind: EventKind)
    ensures var e := HandleFirst(Undelivered(c, kind));
            e.current.Some? && CallbackFor(TABLE[Number(e.current.value)], kind).Some? ==>
              (CallbackFor(TABLE[Number(e.current.value)], kind) == Some(ConnectingC) <==>
                 c.current == Some(State.Connecting) && kind.Write?)
              && (c.current == Some(State.Connecting) ==> e == Undelivered(c, kind))
  {
    hide Grows;
  }

  /**
   * Each mark is set by exactly one answer: SO_ERROR that cannot be read, or a pending connect that failed
   * with a later attempt connecting at once.
   */
  lemma EventMarks(c: Conn, kind: EventKind, fd: int, k: Kernel)
    requires Dispatch(c, kind, fd, k).Alive?
    ensures var g := Dispatch(c, kind, fd, k).c.hist;
            && g.lost == c.hist.lost
            && (g.probeFailed <==> c.hist.probeFailed || (Dialling(c, kind, fd) && k.probe.ProbeFails?))
            && (g.retriedAtOnce <==>
                  c.hist.retriedAtOnce
                  || (Dialling(c, kind, fd) && k.probe.SocketError? && ConnectsAtOnce(c, k.attempts)))
  {
    hide Grows, Invoke, HandleFirst, Jump, Finish, CallbackFor, Connections.Member, Connects;
    var b := Undelivered(c, kind);
    var e := HandleFirst(b);
    var h := CallbackFor(TABLE[Number(e.current.value)], kind).value;
    InvokeChecks(h, e, fd, k);
    JumpSame(b, HelloRead);
    JumpSame(Invoke(h, e, fd, k).c, Invoke(h, e, fd, k).next);
    FinishSame(Jump(Invoke(h, e, fd, k).c, Invoke(h, e, fd, k).next));
    ConnectingRow(c, kind);
  }

  lemma AuthReadThere(c: Conn, kind: EventKind)
    ensures var e := HandleFirst(Undelivered(c, kind));
            e.current.Some? && CallbackFor(TABLE[Number(e.current.value)], kind) == Some(AuthReadC) ==>
              c.current == Some(AuthRead) && kind.Read?
  {
    hide Grows;
  }

  // ---------------------------------------------------------------- the names in the log

  /** The name that goes into the log: of whoever logged in, cut to its field, or a dash. */
  function NameOf(h: History): seq<byte> {
    if h.status == Some(Auth.SUCCESS) then
      var name := CString(Login(h).Username());
      name[..Min(|name|, 64)]
    else [45]
  }

  function TargetOf(h: History): (Destination, Requests.port16) {
    if Wanted(h).state.Done? then Target(Wanted(h)) else (Blank, 0)
  }

  ghost predicate Named(c: Conn) {
    && c.username == NameOf(c.hist) && (c.destination, c.port) == TargetOf(c.hist)
    && (c.hist.asked.Some? ==>
          Wanted(c.hist).state.Done? && Wanted(c.hist).Known() && c.hist.asked == Some(QueryOf(Wanted(c.hist))))
  }

  lemma SameNamed(c: Conn, d: Conn)
    requires Named(c) && SameLogin(c, d) && SameTarget(c, d)
    ensures Named(d)
  {
    hide Incremental.Feed, Target, QueryOf, CString;
  }

  lemma AuthProcessNamed(c: Conn, k: Kernel)
    requires Named(c) && c.client.AuthSt? && c.client.auth == Login(c.hist) && c.hist.status.None?
    ensures Named(AuthProcess(c, k).c)
  {
    hide Incremental.Feed, Target, QueryOf, CString, Knows, Auth.Answer, Grows;
  }

  lemma AuthParsedNamed(c: Conn)
    requires Named(c) && c.client.AuthSt? && c.hist.status.None?
    ensures Named(AuthParsed(c)) && AuthParsed(c).hist.status.None? && AuthParsed(c).client.AuthSt?
  {
    hide Incremental.Feed, Target, QueryOf, CString, Grows;
  }

  lemma AuthReadNamed(c: Conn, k: Kernel)
    requires c.client.AuthSt? && Core(c) && Registered(c) && Resting(c, AuthRead) && Named(c)
    ensures Named(AuthReadReady(c, k).c)
  {
    hide Core, Named, Grows, AuthProcess, AuthParsed, Login;
    match Recv(k, c.rb.space)
    case Got(bs) =>
      var d := TakeFromClient(c, bs);
      ConnectionSteps.TakeOk(c, bs);
      SameNamed(c, d);
      LoginSame(c.hist, d.hist);
      ConnectionSteps.AuthParsedOk(d);
      AuthParsedNamed(d);
      var e := AuthParsed(d);
      var f := e.(clientReg := Some(WRITE));
      SameNamed(e, f);
      AuthProcessNamed(f, k);
    case _ =>
  }

  lemma LoginSame(h: History, g: History)
    requires g.auth == h.auth
    ensures Login(g) == Login(h)
  {
  }

  lemma RequestReadNamed(c: Conn, k: Kernel)
    requires c.client.RequestSt? && Core(c) && Registered(c) && Resting(c, RequestRead) && Named(c)
    ensures Named(RequestReadReady(c, k).c)
  {
    hide Core, Named, Grows, RequestProcess, RequestParsed, SetReply, Wanted, Target;
    match Recv(k, c.rb.space)
    case Got(bs) =>
      var d := TakeFromClient(c, bs);
      ConnectionSteps.TakeOk(c, bs);
      ConnectionSteps.WantedSame(c.hist, d.hist);
      SameNamed(c, d);
      RequestParsedStays(d);
      ConnectionSteps.RequestParsedOk(d);
      var e := RequestParsed(d);
      RequestParsedNamed(d);
      SetReplySame(e, e.client.request.reply);
      ProcessTarget(e, k);
      var f := RequestReadReady(c, k).c;
      if e.client.request.state.Done? {
        ProcessNamed(e, f);
      } else if e.client.request.state.Error? {
        SameNamed(e, f);
      }
    case _ =>
  }

  lemma RequestParsedStays(c: Conn)
    requires c.client.RequestSt?
    ensures RequestParsed(c).client.RequestSt?
  {
  }

  lemma RequestParsedNamed(c: Conn)
    requires Named(c) && c.client.RequestSt? && c.client.request == Wanted(c.hist) && !c.client.request.Terminal()
    requires RequestParsed(c).client.request == Wanted(RequestParsed(c).hist)
    ensures var e := RequestParsed(c);
            && SameLogin(c, e.(hist := e.hist.(request := c.hist.request))) && e.username == NameOf(e.hist)
            && e.hist.asked.None?
            && (!e.client.request.state.Done? ==> Named(e))
  {
    hide Incremental.Feed, Target, QueryOf, CString, Grows;
  }

  lemma ProcessNamed(e: Conn, f: Conn)
    requires e.client.RequestSt? && e.client.request == Wanted(e.hist) && e.client.request.state.Done?
    requires e.username == NameOf(e.hist) && e.hist.asked.None?
    requires f.hist.asked.None? || (e.client.request.Known() && f.hist.asked == Some(QueryOf(e.client.request)))
    requires SameLogin(e, f) && f.hist.request == e.hist.request && (f.destination, f.port) == Target(e.client.request)
    ensures Named(f)
  {
    hide Incremental.Feed, Target, QueryOf, CString;
  }

  lemma TurnNamed(c: Conn, h: Callback, fd: int, k: Kernel)
    requires Core(c) && Registered(c) && c.current.Some? && !Over(c) && Resting(c, c.current.value) && Named(c)
    requires Connections.Member(c, h)
    requires h.AuthReadC? ==> c.current == Some(AuthRead)
    requires h.RequestReadC? ==> c.current == Some(RequestRead)
    ensures Named(Invoke(h, c, fd, k).c)
  {
    hide Core, Resting, Named, Grows, AuthReadReady, RequestReadReady;
    if h.AuthReadC? {
      AuthReadNamed(c, k);
    } else if h.RequestReadC? {
      RequestReadNamed(c, k);
    } else {
      hide Invoke;
      InvokeSame(h, c, fd, k);
      SameNamed(c, Invoke(h, c, fd, k).c);
    }
  }

  lemma ReadersAreTheirs(s: State, kind: EventKind)
    ensures CallbackFor(TABLE[Number(s)], kind) == Some(AuthReadC) ==> s == AuthRead && kind.Read?
    ensures CallbackFor(TABLE[Number(s)], kind) == Some(RequestReadC) ==> s == RequestRead && kind.Read?
  {
  }

  /** Every event keeps the name, the destination and the port those of the login and the request. */
  lemma EventNamed(c: Conn, kind: EventKind, fd: int, k: Kernel)
    requires Inv(c) && !Over(c) && Enabled(c, kind, fd) && Named(c) && Dispatch(c, kind, fd, k).Alive?
    ensures Named(Dispatch(c, kind, fd, k).c)
  {
    hide Inv, Core, Registered, Resting, Over, Named, Grows, Invoke, HandleFirst, Jump, Finish, CallbackFor,
         Connections.Member, Enabled;
    FirstOk(c);
    FirstEnabled(c, kind, fd);
    JumpSame(c, HelloRead);
    var d := HandleFirst(c);
    SameNamed(c, d);
    var e := Undelivered(d, kind);
    ReadersAreTheirs(d.current.value, kind);
    var h := CallbackFor(TABLE[Number(d.current.value)], kind).value;
    HandlerThere(d, kind, fd);
    if kind.Block? {
      NamedWithoutJob(d, h, fd, k);
    } else {
      TurnNamed(d, h, fd, k);
    }
    var t := Invoke(h, e, fd, k);
    JumpSame(t.c, t.next);
    SameNamed(t.c, Jump(t.c, t.next));
    FinishSame(Jump(t.c, t.next));
    if Finish(Jump(t.c, t.next)).Alive? {
      SameNamed(Jump(t.c, t.next), Finish(Jump(t.c, t.next)).c);
    }
  }

  lemma NamedWithoutJob(d: Conn, h: Callback, fd: int, k: Kernel)
    requires Named(d) && Connections.Member(d.(job := false), h) && !h.AuthReadC? && !h.RequestReadC?
    ensures Named(Invoke(h, d.(job := false), fd, k).c)
  {
    hide Named, Grows, Invoke;
    SameNamed(d, d.(job := false));
    InvokeSame(h, d.(job := false), fd, k);
    SameNamed(d.(job := false), Invoke(h, d.(job := false), fd, k).c);
  }

  // ---------------------------------------------------------------- a mark is never alone

  /** Whoever's SO_ERROR could not be read has been answered. */
  predicate Honest(c: Conn) {
    c.hist.code.None? ==> !c.hist.probeFailed
  }

  /** A write event on the origin's descriptor in CONNECTING is the handler and the jump that it asks for. */
  lemma DiallingIs(c: Conn, fd: int, k: Kernel)
    requires c.current == Some(State.Connecting) && fd == c.originFd && c.client.RequestSt?
    requires ConnectReady(c, fd, k).next == State.Connecting || ConnectReady(c, fd, k).next == RequestWrite
    ensures var t := ConnectReady(c, fd, k);
            Dispatch(c, Write, fd, k) == Alive(t.c.(current := Some(t.next)))
  {
    hide ConnectReady, Grows;
  }

  lemma EventHonest(c: Conn, kind: EventKind, fd: int, k: Kernel)
    requires Inv(c) && Honest(c) && Dispatch(c, kind, fd, k).Alive?
    ensures Honest(Dispatch(c, kind, fd, k).c)
  {
    hide Inv, Dispatch, Waiting, ConnectReady, ConnectsAtOnce;
    EventMarks(c, kind, fd, k);
    DispatchGrows(c, kind, fd, k);
    if Dialling(c, kind, fd) && k.probe.ProbeFails? {
      ConnectingWaits(c);
      ConnectingDecided(c, k);
      WaitingAsks(c);
      DiallingIs(c, fd, k);
    }
  }

  lemma WaitingAsks(c: Conn)
    requires Waiting(c)
    ensures c.client.RequestSt?
  {
  }

  lemma DispatchGrows(c: Conn, kind: EventKind, fd: int, k: Kernel)
    requires Dispatch(c, kind, fd, k).Alive?
    ensures c.hist.code.Some? ==> Dispatch(c, kind, fd, k).c.hist.code.Some?
  {
    hide Event;
  }

  ghost predicate Proper(c: Conn) {
    Named(c) && Honest(c)
  }

  lemma EventProper(c: Conn, kind: EventKind, fd: int, k: Kernel)
    requires Inv(c) && !Over(c) && Enabled(c, kind, fd) && Proper(c) && Dispatch(c, kind, fd, k).Alive?
    ensures Proper(Dispatch(c, kind, fd, k).c)
  {
    hide Inv, Over, Enabled, Named, Honest, Dispatch;
    EventNamed(c, kind, fd, k);
    EventHonest(c, kind, fd, k);
  }
}
