/**
 * src/server/socks5nio.c and src/shared/stm.c: one SOCKS connection as a value. Each handler is a
 * function from the connection and what the kernel answers to the next connection; the class
 * `Socks5` is the same code in place.
 */
module Connections {
  import opened Common
  import opened Buffers
  import opened Selectors
  import Hello
  import Auth
  import Requests

  const BUFFER_SIZE := 2048

  /** enum socks_v5state */
  datatype State =
    | HelloRead | HelloWrite | AuthRead | AuthWrite | RequestRead | Resolving
    | Connecting | RequestWrite | Copy | Done | Error

  // ---------------------------------------------------------------- the environment

  datatype Errno = NetUnreach | HostUnreach | ConnRefused | OtherErrno

  datatype Family = Inet | Inet6 | OtherFamily

  /** One entry of the list getaddrinfo returns. */
  datatype AddrInfo = AddrInfo(family: Family, sockaddr: seq<byte>)

  /** What the peer has sent when recv is called (nothing: it has closed), EAGAIN, or an error. */
  datatype Incoming = Data(bytes: seq<byte>) | RecvAgain | RecvFails

  /** How much the kernel is willing to take when send is called, EAGAIN, or an error. */
  datatype Outgoing = Takes(n: nat) | SendAgain | SendFails

  /** socket, fcntl and connect for one address; `errno` is what errno holds if registering fails. */
  datatype Attempt =
    | NoSocket(errno: Errno)
    | NoNonBlocking(errno: Errno)
    | ConnectFails(errno: Errno)
    | InProgress(fd: nat, errno: Errno)
    | Immediate(fd: nat, errno: Errno)

  /** getsockopt(SO_ERROR) */
  datatype Probe = ProbeFails | SocketError(errno: Errno) | SocketClear

  /** getsockname on the origin descriptor */
  datatype RawBound = NoName | Bound4(addr: seq<byte>, port: Requests.port16) | Bound6(addr: seq<byte>, port: Requests.port16)

  type Bound = b: RawBound | (b.Bound4? ==> |b.addr| == 4) && (b.Bound6? ==> |b.addr| == 16) witness NoName

  /** Every answer that one callback may ask the kernel, the allocator and the user store for. */
  datatype Kernel = Kernel(
    incoming: Incoming, outgoing: Outgoing, attempts: seq<Attempt>, probe: Probe, bound: Bound,
    memory: bool, thread: bool, users: map<seq<byte>, seq<byte>>)

  datatype Received = Got(bytes: seq<byte>) | Closed | RetryLater | Broken

  /** recv with room for `count` bytes; no room reads as an orderly close. */
  function Recv(k: Kernel, count: nat): (r: Received)
    ensures r.Got? ==> 0 < |r.bytes| <= count
  {
    match k.incoming
    case Data(bs) => if Min(|bs|, count) == 0 then Closed else Got(bs[..Min(|bs|, count)])
    case RecvAgain => RetryLater
    case RecvFails => Broken
  }

  datatype SendResult = Accepted(n: nat) | Refused | Later | Lost

  function Send(k: Kernel, count: nat): (r: SendResult)
    ensures r.Accepted? ==> 0 < r.n <= count
  {
    match k.outgoing
    case Takes(n) => if Min(n, count) == 0 then Refused else Accepted(Min(n, count))
    case SendAgain => Later
    case SendFails => Lost
  }

  function NextAttempt(attempts: seq<Attempt>): Attempt {
    if attempts == [] then NoSocket(OtherErrno) else attempts[0]
  }

  function OtherAttempts(attempts: seq<Attempt>): seq<Attempt> {
    if attempts == [] then [] else attempts[1..]
  }

  // ---------------------------------------------------------------- the connection

  /** The union `client`. */
  datatype Client =
    | NoMember
    | HelloSt(hello: Hello.Parser)
    | AuthSt(auth: Auth.Parser, authorized: bool)
    | RequestSt(request: Requests.Parser, reply: byte)

  datatype Destination = Blank | Domain(text: seq<byte>) | Ip4(addr: seq<byte>) | Ip6(addr: seq<byte>) | Dash

  datatype LogEntry = LogEntry(username: seq<byte>, destination: Destination, port: Requests.port16, status: string)

  /** The thread started for a domain name. */
  datatype Resolver = Idle | Running | Notified | Released

  /** What the thread passes to getaddrinfo, or the address that a request gives to connect. */
  datatype Query = Lookup(host: seq<byte>, service: seq<byte>) | Endpoint(family: Family, address: seq<byte>, port: Requests.port16)

  /**
   * What an observer on the wires would have written down. `hello`, `auth` and `request` are the
   * bytes the three parsers took; `method`, `status` and `code` what was answered, with the user
   * map at the moment of the check; `asked` what was to be looked up, or dialled. The last three are marks of events.
   */
  datatype History = History(
    fromClient: seq<byte>, toClient: seq<byte>, toOrigin: seq<byte>, fromOrigin: seq<byte>,
    hello: seq<byte>, auth: seq<byte>, request: seq<byte>,
    method_: Option<byte>, status: Option<byte>, users: map<seq<byte>, seq<byte>>,
    code: Option<byte>, reply: seq<byte>, tried: seq<AddrInfo>, log: seq<LogEntry>,
    asked: Option<Query>, lost: bool, probeFailed: bool, retriedAtOnce: bool)

  const BLANK_HISTORY :=
    History([], [], [], [], [], [], [], None, None, map[], None, [], [], [], None, false, false, false)

  /**
   * struct socks5. `clientReg` and `originReg` are the interests with which the two descriptors
   * are registered in the selector; `job` says that a job for this connection is queued there.
   */
  datatype Conn = Conn(
    current: Option<State>, clientFd: int, originFd: int,
    clientReg: Option<Interest>, originReg: Option<Interest>,
    references: nat, retired: nat, rb: Fifo, wb: Fifo, client: Client,
    resolutionFailed: bool, resolution: seq<AddrInfo>, remaining: seq<AddrInfo>,
    resolver: Resolver, job: bool,
    username: seq<byte>, destination: Destination, port: Requests.port16, logged: bool,
    hist: History)

  /** socks5_new, then registration with OP_READ. */
  function Opened(clientFd: int): Conn {
    Conn(None, clientFd, -1, Some(READ), None, 1, 0, EmptyFifo(BUFFER_SIZE), EmptyFifo(BUFFER_SIZE), NoMember,
         false, [], [], Idle, false, [45], Blank, 0, false, BLANK_HISTORY)
  }

  /** Nothing that was seen on a wire, parsed, tried, logged or answered is ever taken back. */
  predicate Grows(h: History, g: History) {
    && h.fromClient <= g.fromClient && h.toClient <= g.toClient
    && h.toOrigin <= g.toOrigin && h.fromOrigin <= g.fromOrigin
    && h.hello <= g.hello && h.auth <= g.auth && h.request <= g.request
    && h.tried <= g.tried && h.log <= g.log && (h.code.Some? ==> g.code.Some?)
  }

  /** No handler touches the current state, which is the engine's, the client's descriptor, or the job queue. */
  predicate SamePlace(c: Conn, d: Conn) {
    && d.current == c.current && d.clientFd == c.clientFd && d.originFd == c.originFd && d.job == c.job
    && Grows(c.hist, d.hist)
  }

  /** The descriptors that connect may come back with. */
  function FdsOf(attempts: seq<Attempt>): set<int> {
    set a | a in attempts && (a.InProgress? || a.Immediate?) :: a.fd
  }

  /** The origin descriptor stays, goes, or is one that the kernel just gave. */
  predicate Moved(c: Conn, d: Conn, attempts: seq<Attempt>) {
    && d.current == c.current && d.clientFd == c.clientFd && d.job == c.job && Grows(c.hist, d.hist)
    && (d.originFd == c.originFd || d.originFd == -1 || d.originFd in FdsOf(attempts))
  }

  /** socks5_destroy: one holder lets go. */
  function Release(c: Conn): (d: Conn)
    ensures SamePlace(c, d)
  {
    if c.references == 1 then c.(retired := c.retired + 1)
    else if c.references == 0 then c
    else c.(references := c.references - 1)
  }

  /** A handler's result: the connection and the state it asks for. */
  datatype Turn = Turn(c: Conn, next: State)

  function SetClientInterest(c: Conn, i: Interest, next: State): (t: Turn)
    ensures SamePlace(c, t.c)
  {
    if c.clientReg.Some? then Turn(c.(clientReg := Some(i)), next) else Turn(c, Error)
  }

  function TakeFromClient(c: Conn, bs: seq<byte>): (d: Conn)
    requires |bs| <= c.rb.space
    ensures SamePlace(c, d)
  {
    c.(rb := c.rb.Append(bs), hist := c.hist.(fromClient := c.hist.fromClient + bs))
  }

  function GiveToClient(c: Conn, n: nat): (d: Conn)
    requires n <= |c.wb.queue|
    ensures SamePlace(c, d)
  {
    c.(wb := c.wb.Drop(n), hist := c.hist.(toClient := c.hist.toClient + c.wb.queue[..n]))
  }

  // ---------------------------------------------------------------- HELLO

  function HelloParsed(c: Conn): (d: Conn)
    requires c.client.HelloSt?
    ensures SamePlace(c, d)
  {
    var k := Hello.Taken(c.client.hello, c.rb.queue);
    c.(client := HelloSt(Hello.Parse(c.client.hello, c.rb.queue)), rb := c.rb.Drop(k),
       hist := c.hist.(hello := c.hist.hello + c.rb.queue[..k]))
  }

  function HelloProcess(c: Conn): (t: Turn)
    requires c.client.HelloSt?
    ensures SamePlace(c, t.c)
  {
    var answer := Hello.Answer(c.client.hello.selected);
    Turn(c.(wb := c.wb.Put(answer), hist := c.hist.(method_ := Some(c.client.hello.selected))),
         if |answer| <= c.wb.space then HelloWrite else Error)
  }

  function HelloReceived(c: Conn, bs: seq<byte>): (t: Turn)
    requires c.client.HelloSt? && |bs| <= c.rb.space
    ensures SamePlace(c, t.c)
  {
    var d := HelloParsed(TakeFromClient(c, bs));
    if d.client.hello.state.Error? then Turn(d, Error)
    else if d.client.hello.state.Done? then
      var t := SetClientInterest(d, WRITE, HelloWrite);
      if t.next.Error? then t else HelloProcess(t.c)
    else Turn(d, HelloRead)
  }

  function HelloReadReady(c: Conn, k: Kernel): (t: Turn)
    requires c.client.HelloSt?
    ensures SamePlace(c, t.c)
  {
    match Recv(k, c.rb.space)
    case Got(bs) => HelloReceived(c, bs)
    case Closed => Turn(c, Error)
    case RetryLater => Turn(c, HelloRead)
    case Broken => Turn(c, Error)
  }

  function HelloWriteReady(c: Conn, k: Kernel): (t: Turn)
    requires c.client.HelloSt?
    ensures SamePlace(c, t.c)
  {
    match Send(k, |c.wb.queue|)
    case Accepted(n) =>
      var d := GiveToClient(c, n);
      if d.wb.queue != [] then Turn(d, HelloWrite)
      else if d.client.hello.selected == Hello.NO_ACCEPTABLE_METHODS then Turn(d, Done)
      else SetClientInterest(d, READ, if d.client.hello.selected == Hello.USERNAME_PASSWORD then AuthRead else RequestRead)
    case Refused => Turn(c, Error)
    case Later => Turn(c, HelloWrite)
    case Lost => Turn(c, Error)
  }

  // ---------------------------------------------------------------- AUTH

  function AuthParsed(c: Conn): (d: Conn)
    requires c.client.AuthSt?
    ensures SamePlace(c, d)
  {
    var k := Auth.Taken(c.client.auth, c.rb.queue);
    c.(client := c.client.(auth := Auth.Parse(c.client.auth, c.rb.queue)), rb := c.rb.Drop(k),
       hist := c.hist.(auth := c.hist.auth + c.rb.queue[..k]))
  }

  /** The C string in a byte array: what precedes the first zero. */
  function CString(bs: seq<byte>): (r: seq<byte>)
    ensures r <= bs && 0 !in r && (|r| < |bs| ==> bs[|r|] == 0)
  {
    if bs == [] || bs[0] == 0 then [] else [bs[0]] + CString(bs[1..])
  }

  /** user_store_validate on the map that the slots of the store represent. */
  predicate Knows(users: map<seq<byte>, seq<byte>>, name: seq<byte>, password: seq<byte>) {
    name in users && users[name] == password
  }

  function AuthProcess(c: Conn, k: Kernel): (t: Turn)
    requires c.client.AuthSt?
    ensures SamePlace(c, t.c)
  {
    var p := c.client.auth;
    var ok := Knows(k.users, p.Username(), p.Password());
    var status := if ok then Auth.SUCCESS else Auth.FAILURE;
    var name := if ok then CString(p.Username())[..Min(|CString(p.Username())|, 64)] else c.username;
    var answer := Auth.Answer(status);
    Turn(c.(client := c.client.(authorized := ok), username := name, wb := c.wb.Put(answer),
            hist := c.hist.(status := Some(status), users := k.users)),
         if |answer| <= c.wb.space then AuthWrite else Error)
  }

  /** auth_read with bytes to consume */
  function AuthReceived(c: Conn, bs: seq<byte>, k: Kernel): (t: Turn)
    requires c.client.AuthSt? && |bs| <= c.rb.space
    ensures SamePlace(c, t.c)
  {
    var d := AuthParsed(TakeFromClient(c, bs));
    if d.client.auth.state.Error? then Turn(d, Error)
    else if d.client.auth.state.Done? then
      var t := SetClientInterest(d, WRITE, AuthWrite);
      if t.next.Error? then t else AuthProcess(t.c, k)
    else Turn(d, AuthRead)
  }

  function AuthReadReady(c: Conn, k: Kernel): (t: Turn)
    requires c.client.AuthSt?
    ensures SamePlace(c, t.c)
  {
    match Recv(k, c.rb.space)
    case Got(bs) => AuthReceived(c, bs, k)
    case Closed => Turn(c, Error)
    case RetryLater => Turn(c, AuthRead)
    case Broken => Turn(c, Error)
  }

  function AuthWriteReady(c: Conn, k: Kernel): (t: Turn)
    requires c.client.AuthSt?
    ensures SamePlace(c, t.c)
  {
    match Send(k, |c.wb.queue|)
    case Accepted(n) =>
      var d := GiveToClient(c, n);
      if d.wb.queue != [] then Turn(d, AuthWrite)
      else if !d.client.authorized then Turn(d, Done)
      else SetClientInterest(d, READ, RequestRead)
    case Refused => Turn(c, Error)
    case Later => Turn(c, AuthWrite)
    case Lost => Turn(c, Error)
  }

  // ---------------------------------------------------------------- REQUEST

  function RequestParsed(c: Conn): (d: Conn)
    requires c.client.RequestSt?
    ensures SamePlace(c, d)
  {
    var k := Requests.Taken(c.client.request, c.rb.queue);
    c.(client := c.client.(request := Requests.Parse(c.client.request, c.rb.queue)), rb := c.rb.Drop(k),
       hist := c.hist.(request := c.hist.request + c.rb.queue[..k]))
  }

  function LogStatus(reply: byte): string {
    if reply == Requests.SUCCEEDED then "OK"
    else if reply == Requests.COMMAND_NOT_SUPPORTED then "COMMAND_NOT_SUPPORTED"
    else if reply == Requests.ADDRESS_TYPE_NOT_SUPPORTED then "ADDRESS_TYPE_NOT_SUPPORTED"
    else if reply == Requests.NETWORK_UNREACHABLE then "NETWORK_UNREACHABLE"
    else if reply == Requests.HOST_UNREACHABLE then "HOST_UNREACHABLE"
    else if reply == Requests.CONNECTION_REFUSED then "CONNECTION_REFUSED"
    else "GENERAL_FAILURE"
  }

  /** One access_log_add per connection, with the status of the reply. */
  function Logged(c: Conn, reply: byte): (d: Conn)
    ensures SamePlace(c, d)
  {
    if c.logged then c
    else c.(logged := true,
            hist := c.hist.(log := c.hist.log + [LogEntry(c.username, c.destination, c.port, LogStatus(reply))]))
  }

  /** A reply goes into the write buffer; the history notes what was meant. */
  function PutReply(c: Conn, code: byte, bs: seq<byte>): (d: Conn)
    ensures SamePlace(c, d)
  {
    c.(wb := c.wb.Put(bs), hist := c.hist.(code := Some(code), reply := bs))
  }

  /** request_set_reply */
  function SetReply(c: Conn, reply: byte): (t: Turn)
    requires c.client.RequestSt?
    ensures SamePlace(c, t.c)
  {
    var d := c.(client := c.client.(reply := reply));
    var e := if reply != Requests.SUCCEEDED then Logged(d, reply) else d;
    if reply > Requests.ADDRESS_TYPE_NOT_SUPPORTED then Turn(e, Error)
    else
      var bs := Requests.ReplyZero(reply);
      var f := PutReply(e, reply, bs);
      if |bs| > e.wb.space then Turn(f, Error) else SetClientInterest(f, WRITE, RequestWrite)
  }

  /** request_remember_destination; addresses are kept as bytes instead of text. */
  function Remember(c: Conn): (d: Conn)
    requires c.client.RequestSt?
    ensures SamePlace(c, d)
  {
    var p := c.client.request;
    var d := if p.atyp == Requests.DOMAIN then Domain(CString(p.domain[..p.domainLen]))
             else if p.atyp == Requests.IPV4 then Ip4(p.addr[..4])
             else if p.atyp == Requests.IPV6 then Ip6(p.addr)
             else Dash;
    c.(destination := d, port := p.port, logged := false)
  }

  /** The name up to its first zero, and the port in decimal. */
  function LookupOf(p: Requests.Parser): Query {
    Lookup(CString(p.domain[..p.domainLen]), Decimal(p.port))
  }

  /** request_build_sockaddr, for a request with an address */
  function EndpointOf(p: Requests.Parser): Query {
    if p.atyp == Requests.IPV4 then Endpoint(Inet, p.addr[..4], p.port) else Endpoint(Inet6, p.addr, p.port)
  }

  /** request_start_resolution */
  function StartResolution(c: Conn, k: Kernel): (t: Turn)
    requires c.client.RequestSt?
    ensures SamePlace(c, t.c)
  {
    if !k.memory || !k.thread then SetReply(c, Requests.GENERAL_FAILURE)
    else
      var query := LookupOf(c.client.request);
      SetClientInterest(c.(references := c.references + 1, resolver := Running, hist := c.hist.(asked := Some(query))),
                        NOOP, Resolving)
  }

  function ReplyForErrno(e: Errno): byte {
    match e
    case NetUnreach => Requests.NETWORK_UNREACHABLE
    case HostUnreach => Requests.HOST_UNREACHABLE
    case ConnRefused => Requests.CONNECTION_REFUSED
    case OtherErrno => Requests.GENERAL_FAILURE
  }

  datatype Connect = Connecting(c: Conn, inProgress: bool) | NotConnected(c: Conn, errno: Errno)

  /** request_connect_sockaddr */
  function ConnectSockaddr(c: Conn, a: Attempt): (r: Connect)
    ensures r.c.remaining == c.remaining && r.c.client == c.client
    ensures Moved(c, r.c, [a])
  {
    if a.InProgress? || a.Immediate? then
      if InvalidFd(a.fd) then NotConnected(c.(originFd := -1), a.errno)
      else Connect.Connecting(
             c.(originFd := a.fd, references := c.references + 1,
                originReg := Some(if a.InProgress? then WRITE else NOOP)),
             a.InProgress?)
    else NotConnected(c, a.errno)
  }

  predicate IsIp(a: AddrInfo) {
    a.family.Inet? || a.family.Inet6?
  }

  /** request_connect_next_resolution */
  function ConnectNext(c: Conn, attempts: seq<Attempt>, errno: Errno): (r: Connect)
    ensures r.c.client == c.client && Moved(c, r.c, attempts)
    decreases |c.remaining|
  {
    if c.remaining == [] then NotConnected(c, errno)
    else
      var a := c.remaining[0];
      var d := c.(remaining := c.remaining[1..]);
      if !IsIp(a) then ConnectNext(d, attempts, errno)
      else
        var r := ConnectSockaddr(d.(hist := d.hist.(tried := d.hist.tried + [a])), NextAttempt(attempts));
        match r
        case Connecting(_, _) => r
        case NotConnected(e, failure) =>
          ConnectNext(e, OtherAttempts(attempts), failure)
  }

  function OriginBind(k: Kernel, reply: byte): seq<byte> {
    match k.bound
    case NoName => Requests.ReplyZero(reply)
    case Bound4(addr, port) => Requests.ReplyV4(reply, addr, port)
    case Bound6(addr, port) => Requests.ReplyV6(reply, addr, port)
  }

  /** The reply of success and its entry in the log; `log` is false in the one place that does not log. */
  function Reply(c: Conn, k: Kernel, log: bool): (t: Turn)
    requires c.client.RequestSt?
    ensures SamePlace(c, t.c) && t.c.client.RequestSt?
  {
    var d := c.(client := c.client.(reply := Requests.SUCCEEDED));
    var e := if log then Logged(d, Requests.SUCCEEDED) else d.(hist := d.hist.(retriedAtOnce := true));
    var bs := OriginBind(k, Requests.SUCCEEDED);
    Turn(PutReply(e, Requests.SUCCEEDED, bs), if |bs| > e.wb.space then Error else RequestWrite)
  }

  /** What follows a connect that succeeded at once, in three places. */
  function Succeed(c: Conn, k: Kernel, log: bool): (t: Turn)
    requires c.client.RequestSt?
    ensures SamePlace(c, t.c)
  {
    var t := Reply(c, k, log);
    if t.next.Error? then t else SetClientInterest(t.c, WRITE, RequestWrite)
  }

  /** request_process, for an address that needs no resolution */
  function ConnectIp(c: Conn, k: Kernel): (t: Turn)
    requires c.client.RequestSt?
    ensures Moved(c, t.c, k.attempts)
  {
    var e := c.(hist := c.hist.(asked := Some(EndpointOf(c.client.request))));
    match ConnectSockaddr(e, NextAttempt(k.attempts))
    case NotConnected(d, errno) => SetReply(d, ReplyForErrno(errno))
    case Connecting(d, inProgress) =>
      if inProgress then SetClientInterest(d, NOOP, State.Connecting)
      else Succeed(d, k, true)
  }

  /** request_process */
  function RequestProcess(c0: Conn, k: Kernel): (t: Turn)
    requires c0.client.RequestSt?
    ensures Moved(c0, t.c, k.attempts)
  {
    var c := Remember(c0);
    var p := c.client.request;
    if p.cmd != Requests.CONNECT then SetReply(c, Requests.COMMAND_NOT_SUPPORTED)
    else if p.atyp == Requests.DOMAIN then StartResolution(c, k)
    else if p.atyp != Requests.IPV4 && p.atyp != Requests.IPV6 then SetReply(c, Requests.ADDRESS_TYPE_NOT_SUPPORTED)
    else ConnectIp(c, k)
  }

  function RequestReadReady(c: Conn, k: Kernel): (t: Turn)
    requires c.client.RequestSt?
    ensures Moved(c, t.c, k.attempts)
  {
    match Recv(k, c.rb.space)
    case Got(bs) =>
      var d := RequestParsed(TakeFromClient(c, bs));
      if d.client.request.state.Done? then RequestProcess(d, k)
      else if d.client.request.state.Error? then SetReply(d, d.client.request.reply)
      else Turn(d, RequestRead)
    case Closed => Turn(c, Error)
    case RetryLater => Turn(c, RequestRead)
    case Broken => Turn(c, Error)
  }

  /** resolving */
  function BlockReady(c: Conn, k: Kernel): (t: Turn)
    requires c.client.RequestSt?
    ensures Moved(c, t.c, k.attempts)
  {
    if c.resolutionFailed || c.resolution == [] then SetReply(c, Requests.HOST_UNREACHABLE)
    else AfterConnect(ConnectNext(c, k.attempts, HostUnreach), k, true)
  }

  function AfterConnect(r: Connect, k: Kernel, log: bool): (t: Turn)
    requires r.c.client.RequestSt?
    ensures SamePlace(r.c, t.c)
  {
    match r
    case NotConnected(c, errno) => SetReply(c, ReplyForErrno(errno))
    case Connecting(c, inProgress) => if inProgress then Turn(c, State.Connecting) else Succeed(c, k, log)
  }

  /** The origin descriptor leaves the selector, which lets one reference go, and is closed. */
  function DropOrigin(c: Conn): (d: Conn)
    ensures Moved(c, d, []) && d.client == c.client && d.hist == c.hist
  {
    (if c.originReg.Some? then Release(c.(originReg := None)) else c).(originFd := -1)
  }

  function ConnectFailed(c: Conn, errno: Errno, k: Kernel): (t: Turn)
    requires c.client.RequestSt?
    ensures Moved(c, t.c, k.attempts)
  {
    var d := DropOrigin(c);
    if d.remaining == [] then AfterConnect(NotConnected(d, errno), k, false)
    else AfterConnect(ConnectNext(d, k.attempts, HostUnreach), k, false)
  }

  /** The pending connect went through; the origin's interest changes before the client's. */
  function ConnectCompleted(c: Conn, k: Kernel): (t: Turn)
    requires c.client.RequestSt?
    ensures SamePlace(c, t.c)
  {
    var t := Reply(c, k, true);
    if t.next.Error? then t
    else if t.c.originReg.None? then Turn(t.c, Error)
    else SetClientInterest(t.c.(originReg := Some(NOOP)), WRITE, RequestWrite)
  }

  /** connecting */
  function ConnectReady(c: Conn, fd: int, k: Kernel): (t: Turn)
    requires c.client.RequestSt?
    ensures Moved(c, t.c, k.attempts)
  {
    if fd != c.originFd then Turn(c, State.Connecting)
    else match k.probe
      case ProbeFails =>
        var d := if c.originReg.Some? then c.(originReg := Some(NOOP)) else c;
        SetReply(d.(hist := d.hist.(probeFailed := true)), Requests.GENERAL_FAILURE)
      case SocketError(errno) => ConnectFailed(c, errno, k)
      case SocketClear => ConnectCompleted(c, k)
  }

  function RequestWriteReady(c: Conn, k: Kernel): (t: Turn)
    requires c.client.RequestSt?
    ensures SamePlace(c, t.c)
  {
    match Send(k, |c.wb.queue|)
    case Accepted(n) =>
      var d := GiveToClient(c, n);
      if d.wb.queue != [] then Turn(d, RequestWrite)
      else Turn(d, if d.client.reply == Requests.SUCCEEDED && d.originFd != -1 then Copy else Done)
    case Refused => Turn(c, Error)
    case Later => Turn(c, RequestWrite)
    case Lost => Turn(c, Error)
  }

  // ---------------------------------------------------------------- COPY

  /** copy_buffer_can_write leaves the buffer compacted when it had no room. */
  function MakeRoom(f: Fifo): Fifo {
    if f.space == 0 && |f.queue| <= f.cap then f.Compact() else f
  }

  /** copy_update_interests, and what copy_read and copy_write return after it. */
  function UpdateInterests(c: Conn): (t: Turn)
    ensures SamePlace(c, t.c) && t.c.hist == c.hist
  {
    if c.originFd == -1 then Turn(c, Error)
    else
      var rb, wb := MakeRoom(c.rb), MakeRoom(c.wb);
      var client := Interest(rb.space > 0, wb.queue != []);
      var origin := Interest(wb.space > 0, rb.queue != []);
      var d := c.(rb := rb, wb := wb);
      if d.clientReg.None? then Turn(d, Error)
      else if d.originReg.None? then Turn(d.(clientReg := Some(client)), Error)
      else Turn(d.(clientReg := Some(client), originReg := Some(origin)), Copy)
  }

  datatype Tried = Tried(c: Conn, ok: bool)

  /** copy_try_write */
  function TryWrite(c: Conn, fd: int, k: Kernel): (t: Tried)
    ensures SamePlace(c, t.c)
  {
    if fd == c.clientFd then
      if c.wb.queue == [] then Tried(c, true)
      else match Send(k, |c.wb.queue|)
        case Accepted(n) => Tried(GiveToClient(c, n), true)
        case Refused => Tried(c, false)
        case Later => Tried(c, true)
        case Lost => Tried(c, false)
    else if fd == c.originFd then
      if c.rb.queue == [] then Tried(c, true)
      else match Send(k, |c.rb.queue|)
        case Accepted(n) =>
          Tried(c.(rb := c.rb.Drop(n), hist := c.hist.(toOrigin := c.hist.toOrigin + c.rb.queue[..n])), true)
        case Refused => Tried(c, false)
        case Later => Tried(c, true)
        case Lost => Tried(c, false)
    else Tried(c, false)
  }

  function AfterTry(t: Tried): (u: Turn)
    ensures SamePlace(t.c, u.c)
  {
    if t.ok then UpdateInterests(t.c) else Turn(t.c, Error)
  }

  function CopyFromClient(c: Conn, k: Kernel): (t: Turn)
    ensures SamePlace(c, t.c)
  {
    var d := c.(rb := MakeRoom(c.rb));
    if d.rb.space == 0 then UpdateInterests(d)
    else match Recv(k, d.rb.space)
      case Got(bs) => AfterTry(TryWrite(TakeFromClient(d, bs), c.originFd, k))
      case Closed => Turn(d, Done)
      case RetryLater => UpdateInterests(d)
      case Broken => Turn(d, Error)
  }

  function TakeFromOrigin(c: Conn, bs: seq<byte>): (d: Conn)
    requires |bs| <= c.wb.space
    ensures SamePlace(c, d)
  {
    c.(wb := c.wb.Append(bs), hist := c.hist.(fromOrigin := c.hist.fromOrigin + bs))
  }

  function CopyFromOrigin(c: Conn, k: Kernel): (t: Turn)
    ensures SamePlace(c, t.c)
  {
    var d := c.(wb := MakeRoom(c.wb));
    if d.wb.space == 0 then UpdateInterests(d)
    else match Recv(k, d.wb.space)
      case Got(bs) => AfterTry(TryWrite(TakeFromOrigin(d, bs), c.clientFd, k))
      case Closed => Turn(d, Done)
      case RetryLater => UpdateInterests(d)
      case Broken => Turn(d, Error)
  }

  /** copy_read */
  function CopyReadReady(c: Conn, fd: int, k: Kernel): (t: Turn)
    ensures SamePlace(c, t.c)
  {
    if fd == c.clientFd then CopyFromClient(c, k)
    else if fd == c.originFd then CopyFromOrigin(c, k)
    else Turn(c, Error)
  }

  function CopyWriteReady(c: Conn, fd: int, k: Kernel): (t: Turn)
    ensures SamePlace(c, t.c)
  {
    AfterTry(TryWrite(c, fd, k))
  }

  // ---------------------------------------------------------------- the state table and its engine

  datatype Arrival = NoArrival | HelloInit | AuthInit | RequestInit | CopyInit

  datatype Callback =
    | HelloReadC | HelloWriteC | AuthReadC | AuthWriteC | RequestReadC | ResolvingC | ConnectingC
    | RequestWriteC | CopyReadC | CopyWriteC

  /** struct state_definition; the departures have nothing to do here. */
  datatype Row = Row(state: nat, arrival: Arrival, onRead: Option<Callback>, onWrite: Option<Callback>, onBlock: Option<Callback>)

  /** client_statbl */
  const TABLE: seq<Row> := [
    Row(0, HelloInit, Some(HelloReadC), None, None),
    Row(1, NoArrival, None, Some(HelloWriteC), None),
    Row(2, AuthInit, Some(AuthReadC), None, None),
    Row(3, NoArrival, None, Some(AuthWriteC), None),
    Row(4, RequestInit, Some(RequestReadC), None, None),
    Row(5, NoArrival, None, None, Some(ResolvingC)),
    Row(6, NoArrival, None, Some(ConnectingC), None),
    Row(7, NoArrival, None, Some(RequestWriteC), None),
    Row(8, CopyInit, Some(CopyReadC), Some(CopyWriteC), None),
    Row(9, NoArrival, None, None, None),
    Row(10, NoArrival, None, None, None)]

  function Number(s: State): (n: nat)
    ensures n < |TABLE|
  {
    match s
    case HelloRead => 0
    case HelloWrite => 1
    case AuthRead => 2
    case AuthWrite => 3
    case RequestRead => 4
    case Resolving => 5
    case Connecting => 6
    case RequestWrite => 7
    case Copy => 8
    case Done => 9
    case Error => 10
  }

  /** stm_init aborts unless every row sits at its own number. */
  lemma TableInOrder()
    ensures forall i | 0 <= i < |TABLE| :: TABLE[i].state == i
  {
  }

  function Arrive(c: Conn, a: Arrival): (d: Conn)
    ensures SamePlace(c, d) && d.hist == c.hist
  {
    match a
    case NoArrival => c
    case HelloInit => c.(client := HelloSt(Hello.Initial()))
    case AuthInit => c.(client := AuthSt(Auth.Initial(), false))
    case RequestInit => c.(client := RequestSt(Requests.Initial(), Requests.GENERAL_FAILURE))
    case CopyInit => UpdateInterests(c.(wb := c.wb.Reset())).c
  }

  /** handle_first */
  function HandleFirst(c: Conn): (d: Conn)
    ensures d.clientFd == c.clientFd && d.originFd == c.originFd && d.job == c.job && d.hist == c.hist
  {
    if c.current.None? then Arrive(c.(current := Some(HelloRead)), TABLE[0].arrival) else c
  }

  function Jump(c: Conn, next: State): (d: Conn)
    ensures d.clientFd == c.clientFd && d.originFd == c.originFd && d.job == c.job && d.current == Some(next)
    ensures d.hist == c.hist
  {
    if c.current == Some(next) then c else Arrive(c.(current := Some(next)), TABLE[Number(next)].arrival)
  }

  /** The union member that a callback reads is the one last written. */
  predicate Member(c: Conn, h: Callback) {
    match h
    case HelloReadC => c.client.HelloSt?
    case HelloWriteC => c.client.HelloSt?
    case AuthReadC => c.client.AuthSt?
    case AuthWriteC => c.client.AuthSt?
    case RequestReadC => c.client.RequestSt?
    case ResolvingC => c.client.RequestSt?
    case ConnectingC => c.client.RequestSt?
    case RequestWriteC => c.client.RequestSt?
    case CopyReadC => true
    case CopyWriteC => true
  }

  function Invoke(h: Callback, c: Conn, fd: int, k: Kernel): (t: Turn)
    requires Member(c, h)
    ensures Moved(c, t.c, k.attempts)
  {
    match h
    case HelloReadC => HelloReadReady(c, k)
    case HelloWriteC => HelloWriteReady(c, k)
    case AuthReadC => AuthReadReady(c, k)
    case AuthWriteC => AuthWriteReady(c, k)
    case RequestReadC => RequestReadReady(c, k)
    case ResolvingC => BlockReady(c, k)
    case ConnectingC => ConnectReady(c, fd, k)
    case RequestWriteC => RequestWriteReady(c, k)
    case CopyReadC => CopyReadReady(c, fd, k)
    case CopyWriteC => CopyWriteReady(c, fd, k)
  }

  /** `Crashed` is abort(), a failed assertion, or the use of a union member that is not there. */
  datatype Outcome = Alive(c: Conn) | Crashed

  /** socksv5_done: both descriptors leave the selector, which calls socks5_destroy for each. */
  function Finish(c: Conn): (o: Outcome)
    ensures o.Alive? ==> SamePlace(c, o.c)
  {
    if c.clientReg.None? then Crashed
    else
      var d := Release(c).(clientReg := None);
      if c.originFd == -1 then Alive(d)
      else if d.originReg.None? then Crashed
      else Alive(Release(d).(originReg := None))
  }

  /** The jump that a handler asked for, and the close where the machine ends. */
  function Followed(c: Conn, next: State): (o: Outcome)
    ensures o.Alive? ==> o.c.clientFd == c.clientFd && o.c.originFd == c.originFd && o.c.job == c.job && Grows(c.hist, o.c.hist)
  {
    var d := Jump(c, next);
    if next.Done? || next.Error? then Finish(d) else Alive(d)
  }

  function CallbackFor(row: Row, kind: EventKind): Option<Callback> {
    match kind
    case Read => row.onRead
    case Write => row.onWrite
    case Block => row.onBlock
  }

  /** socksv5_read, socksv5_write and socksv5_block. */
  function Event(c0: Conn, kind: EventKind, fd: int, k: Kernel): (o: Outcome)
    ensures o.Alive? ==> o.c.clientFd == c0.clientFd && o.c.job == c0.job && Grows(c0.hist, o.c.hist)
    ensures o.Alive? ==> o.c.originFd == c0.originFd || o.c.originFd == -1 || o.c.originFd in FdsOf(k.attempts)
  {
    var c := HandleFirst(c0);
    if c.current.None? then Crashed
    else
      var h := CallbackFor(TABLE[Number(c.current.value)], kind);
      if h.None? || !Member(c, h.value) then Crashed
      else
        var t := Invoke(h.value, c, fd, k);
        Followed(t.c, t.next)
  }

  /** The resolver thread stores its result and queues a job, if the job can be allocated. */
  function Resolved(c: Conn, failed: bool, list: seq<AddrInfo>, memory: bool): Conn {
    c.(resolutionFailed := failed, resolution := list, remaining := list, resolver := Notified,
       job := memory, hist := c.hist.(lost := !memory))
  }

  /** The resolver thread drops its reference. */
  function ResolverReleases(c: Conn): Conn {
    Release(c.(resolver := Released))
  }
}
