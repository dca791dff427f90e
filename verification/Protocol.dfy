/**
 * What one event must do to a connection, told from outside: by the bytes received and sent, the kernel's
 * answers and the numbers of RFC 1928 and RFC 1929, and not by the handlers.
 */
module Protocol {
  import opened Common
  import opened Buffers
  import opened Selectors
  import opened Connections
  import ConnectionLaws
  import Failover
  import Auth
  import Requests

  // ---------------------------------------------------------------- ends

  /** The connection is given up: neither descriptor is registered any more. */
  predicate GivenUp(d: Conn) {
    d.current == Some(Error) && d.clientReg.None? && d.originReg.None?
  }

  predicate ClosedInOrder(d: Conn) {
    d.current == Some(Done) && d.clientReg.None? && d.originReg.None?
  }

  // ---------------------------------------------------------------- what an event leaves alone

  predicate WiresKept(c: Conn, d: Conn) {
    d.hist.toClient == c.hist.toClient && d.hist.toOrigin == c.hist.toOrigin && d.hist.fromOrigin == c.hist.fromOrigin
  }

  predicate LoginKept(c: Conn, d: Conn) {
    && d.hist.hello == c.hist.hello && d.hist.method_ == c.hist.method_
    && d.hist.auth == c.hist.auth && d.hist.status == c.hist.status && d.hist.users == c.hist.users
  }

  /** No request is read, looked up, dialled, answered or logged. */
  predicate RequestKept(c: Conn, d: Conn) {
    && d.hist.request == c.hist.request && d.hist.asked == c.hist.asked && d.hist.tried == c.hist.tried
    && d.hist.code == c.hist.code && d.hist.reply == c.hist.reply && d.hist.log == c.hist.log
  }

  /** Only dialling, and perhaps the answer to it. */
  predicate DialKept(c: Conn, d: Conn) {
    && WiresKept(c, d) && LoginKept(c, d) && d.hist.fromClient == c.hist.fromClient && d.rb.queue == c.rb.queue
    && d.hist.request == c.hist.request && d.hist.asked == c.hist.asked && d.destination == c.destination && d.port == c.port
  }

  // ---------------------------------------------------------------- receiving during the handshake

  /** What recv delivers of what was sent, with this much room. */
  function Delivered(sent: seq<byte>, room: nat): seq<byte> {
    if |sent| <= room then sent else sent[..room]
  }

  /** Nothing on the wires has changed, nor what is buffered. */
  predicate Quiescent(c: Conn, d: Conn) {
    d.hist == c.hist && d.rb == c.rb && d.wb == c.wb && d.originFd == c.originFd
  }

  /** The greeting, read from all that the client has sent: 5, a count that is not 0, and that many methods. */
  predicate GreetingRead(s: seq<byte>, d: Conn) {
    if (|s| >= 1 && s[0] != 5) || (|s| >= 2 && s[1] == 0) then GivenUp(d)
    else if |s| >= 2 && |s| >= 2 + s[1] as int then
      var offered := s[2..2 + s[1] as int];
      var chosen := if 2 in offered then 2 else if 0 in offered then 0 else 255;
      && d.current == Some(HelloWrite) && d.wb.queue == [5, chosen] && d.hist.method_ == Some(chosen)
      && d.rb.queue == s[2 + s[1] as int..]
    else d.current == Some(HelloRead) && d.rb.queue == []
  }

  /** The stream starts with this name and password, in the layout of section 2 of RFC 1929. */
  predicate LoginIn(s: seq<byte>, u: seq<byte>, p: seq<byte>) {
    && 1 <= |u| <= 255 && 1 <= |p| <= 255 && |s| >= 3 + |u| + |p|
    && s[0] == 1 && s[1] == |u| && s[2..2 + |u|] == u
    && s[2 + |u|] == |p| && s[3 + |u|..3 + |u| + |p|] == p
  }

  /** The login, read from all that followed the greeting. */
  ghost predicate LoginRead(s: seq<byte>, users: map<seq<byte>, seq<byte>>, d: Conn) {
    && (Auth.Malformed(s) ==> GivenUp(d))
    && (forall u, p | LoginIn(s, u, p) ::
          var status := if u in users && users[u] == p then 0 else 1;
          && d.current == Some(AuthWrite) && d.wb.queue == [1, status] && d.hist.status == Some(status)
          && d.rb.queue == s[3 + |u| + |p|..])
    && (!Auth.Malformed(s) && (forall u, p :: !LoginIn(s, u, p)) ==> d.current == Some(AuthRead) && d.rb.queue == [])
  }

  // ---------------------------------------------------------------- answering a request

  /** How the access log calls a reply. */
  predicate Called(code: byte, text: string) {
    && (code == 0 ==> text == "OK")
    && (code == 1 ==> text == "GENERAL_FAILURE")
    && (code == 3 ==> text == "NETWORK_UNREACHABLE")
    && (code == 4 ==> text == "HOST_UNREACHABLE")
    && (code == 5 ==> text == "CONNECTION_REFUSED")
    && (code == 7 ==> text == "COMMAND_NOT_SUPPORTED")
    && (code == 8 ==> text == "ADDRESS_TYPE_NOT_SUPPORTED")
  }

  /** The reply waits to be sent, and is all that waits. */
  predicate Replied(d: Conn, code: byte, reply: seq<byte>) {
    && d.current == Some(RequestWrite) && d.clientReg == Some(Interest(false, true))
    && d.hist.code == Some(code) && d.hist.reply == reply && d.wb.queue == reply
  }

  predicate LoggedAs(d: Conn, code: byte) {
    && |d.hist.log| == 1 && Called(code, d.hist.log[0].status)
    && d.hist.log[0].username == d.username && d.hist.log[0].destination == d.destination && d.hist.log[0].port == d.port
  }

  /** A failure has no address to tell. */
  predicate Refuses(d: Conn, code: byte) {
    Replied(d, code, [5, code, 0, 1, 0, 0, 0, 0, 0, 0]) && LoggedAs(d, code)
  }

  /** A success tells the address that getsockname gave, or zeros. */
  predicate Accepts(d: Conn, bound: Bound, log: bool) {
    && Replied(d, 0,
         match bound
         case NoName => [5, 0, 0, 1, 0, 0, 0, 0, 0, 0]
         case Bound4(a, p) => [5, 0, 0, 1] + a + [p / 256, p % 256]
         case Bound6(a, p) => [5, 0, 0, 4] + a + [p / 256, p % 256])
    && (if log then LoggedAs(d, 0) else d.hist.log == [])
    && d.originReg == Some(Interest(false, false)) && d.originFd != -1
  }

  // ---------------------------------------------------------------- dialling

  /** A failure told by the code of its errno. */
  ghost predicate RefusedFor(d: Conn, errno: Errno) {
    exists code :: Refuses(d, code) && Failover.Explains(errno, code)
  }

  /** A connect that came back with a descriptor that the selector takes. */
  predicate Reaches(d: Conn, a: Attempt, bound: Bound, log: bool) {
    match a
    case InProgress(fd, _) =>
      && d.current == Some(State.Connecting) && d.originFd == fd && d.originReg == Some(Interest(false, true))
      && d.clientReg == Some(Interest(false, false)) && d.hist.code.None? && d.hist.log == [] && d.wb.queue == []
    case Immediate(fd, _) => d.originFd == fd && Accepts(d, bound, log)
    case _ => false
  }

  /** The addresses `ips`, each with the next of the attempts, up to the first that is usable. */
  ghost predicate Dialled(c: Conn, ips: seq<AddrInfo>, k: Kernel, d: Conn, log: bool) {
    var n := Failover.Failures(k.attempts);
    if n < |ips| && n < |k.attempts| then
      && d.hist.tried == c.hist.tried + ips[..n + 1] && ConnectionLaws.IpOnly(d.remaining) == ips[n + 1..]
      && Reaches(d, k.attempts[n], k.bound, log)
    else
      && d.hist.tried == c.hist.tried + ips && d.remaining == [] && d.originFd == -1
      && RefusedFor(d, if ips == [] then HostUnreach
                       else if |ips| <= |k.attempts| then k.attempts[|ips| - 1].errno
                       else OtherErrno)
  }

  /** The one address of a request that has it, with the first attempt. */
  ghost predicate DialledOnce(k: Kernel, d: Conn) {
    if k.attempts != [] && Failover.Usable(k.attempts[0]) then Reaches(d, k.attempts[0], k.bound, true)
    else d.originFd == -1 && RefusedFor(d, if k.attempts == [] then OtherErrno else k.attempts[0].errno)
  }

  // ---------------------------------------------------------------- the request

  /** What precedes the first zero. */
  predicate UpToZero(text: seq<byte>, name: seq<byte>) {
    text <= name && 0 !in text && (|text| < |name| ==> name[|text|] == 0)
  }

  /** What getaddrinfo is asked for, or connect is to reach, is what the request names. */
  predicate Asks(query: Query, m: Requests.Message) {
    match m.addr
    case V4(a) => query == Endpoint(Inet, a, m.port)
    case V6(a) => query == Endpoint(Inet6, a, m.port)
    case Name(name) => query.Lookup? && UpToZero(query.host, name) && Numeral(query.service, m.port) && |query.service| <= 5
  }

  /** ... and what the access log will name. */
  predicate Remembers(d: Conn, m: Requests.Message) {
    && d.port == m.port
    && match m.addr
       case V4(a) => d.destination == Ip4(a)
       case V6(a) => d.destination == Ip6(a)
       case Name(name) => d.destination.Domain? && UpToZero(d.destination.text, name)
  }

  /** A whole request is answered at once, given to a resolver, or dialled. */
  ghost predicate RequestServed(m: Requests.Message, k: Kernel, d: Conn)
    requires m.addr.Valid()
  {
    && Remembers(d, m) && d.hist.request == Requests.Encode(m)
    && if m.cmd != 1 then Refuses(d, 7)
       else match m.addr
            case Name(_) =>
              if k.memory && k.thread then
                && d.current == Some(Resolving) && d.resolver.Running? && d.clientReg == Some(Interest(false, false))
                && d.hist.asked.Some? && Asks(d.hist.asked.value, m) && d.hist.code.None? && d.hist.log == [] && d.wb.queue == []
              else Refuses(d, 1)
            case _ => d.hist.asked.Some? && Asks(d.hist.asked.value, m) && DialledOnce(k, d)
  }

  /** The request, read from all that followed the greeting and the login. */
  ghost predicate RequestIs(s: seq<byte>, k: Kernel, d: Conn) {
    && (Requests.Malformed(s) ==> Refuses(d, 1))
    && (Requests.UnknownType(s) ==> Refuses(d, if s[1] != 1 then 7 else 8))
    && (forall m: Requests.Message | m.addr.Valid() && Requests.Encode(m) <= s ::
          RequestServed(m, k, d) && d.rb.queue == s[|Requests.Encode(m)|..])
    && (!Requests.Malformed(s) && !Requests.UnknownType(s)
        && (forall m: Requests.Message | m.addr.Valid() :: !(Requests.Encode(m) <= s)) ==>
          d.current == Some(RequestRead) && d.rb.queue == [] && d.hist.code.None? && d.hist.log == [])
  }

  // ---------------------------------------------------------------- sending an answer

  /** One of the three answers is sent; the next state is entered when all of it has left. */
  predicate AnswerSent(c: Conn, k: Kernel, d: Conn, next: State) {
    match k.outgoing
    case SendAgain => d == c
    case SendFails => GivenUp(d) && d.hist == c.hist
    case Takes(n) =>
      if n == 0 then GivenUp(d) && d.hist == c.hist
      else
        && d.hist == c.hist.(toClient := c.hist.toClient + Delivered(c.wb.queue, n)) && d.originFd == c.originFd
        && d.rb.queue == c.rb.queue
        && if n < |c.wb.queue| then d.current == c.current && d.wb.queue == c.wb.queue[n..]
           else d.wb.queue == [] && if next == Done then ClosedInOrder(d) else d.current == Some(next)
  }

  /** Method 2 asks for a login, method 0 for nothing, and 255 is the end. */
  function AfterMethod(chosen: Option<byte>): State {
    if chosen == Some(2) then AuthRead else if chosen == Some(0) then RequestRead else Done
  }

  // ---------------------------------------------------------------- relaying

  /** Where recv may write: behind the queue, or anywhere that compacting frees if nothing is behind it. */
  function Room(f: Fifo): nat {
    if f.space == 0 && |f.queue| <= f.cap then f.cap - |f.queue| else f.space
  }

  /** In COPY, and everything but these two directions as it was. */
  predicate Relaying(c: Conn, d: Conn) {
    && d.current == Some(Copy) && d.originFd == c.originFd
    && d.hist == c.hist.(fromClient := d.hist.fromClient, toClient := d.hist.toClient,
                         fromOrigin := d.hist.fromOrigin, toOrigin := d.hist.toOrigin)
  }

  /** The direction to the client is as it was. */
  predicate DownKept(c: Conn, d: Conn) {
    d.wb.queue == c.wb.queue && d.hist.fromOrigin == c.hist.fromOrigin && d.hist.toClient == c.hist.toClient
  }

  /** The direction to the origin is as it was. */
  predicate UpKept(c: Conn, d: Conn) {
    d.rb.queue == c.rb.queue && d.hist.fromClient == c.hist.fromClient && d.hist.toOrigin == c.hist.toOrigin
  }

  /** What may be sent of `queue`: `sent` leaves and `left` stays, or the connection is given up. */
  predicate Passed(k: Kernel, queue: seq<byte>, sent: seq<byte>, left: seq<byte>) {
    match k.outgoing
    case SendAgain => sent == [] && left == queue
    case SendFails => queue == [] && sent == [] && left == queue
    case Takes(n) => sent == Delivered(queue, n) && left == queue[|sent|..]
  }

  predicate SendRefused(k: Kernel, queue: seq<byte>) {
    queue != [] && (k.outgoing.SendFails? || k.outgoing == Takes(0))
  }

  /** `queue` is what waits for the origin, with `got` received in this event at its end. */
  predicate Upwards(c: Conn, k: Kernel, got: seq<byte>, d: Conn) {
    var queue := c.rb.queue + got;
    && if SendRefused(k, queue) then GivenUp(d) && d.hist == c.hist.(fromClient := c.hist.fromClient + got)
       else
         && Relaying(c, d) && DownKept(c, d) && d.hist.fromClient == c.hist.fromClient + got
         && c.hist.toOrigin <= d.hist.toOrigin
         && Passed(k, queue, d.hist.toOrigin[|c.hist.toOrigin|..], d.rb.queue)
  }

  predicate Downwards(c: Conn, k: Kernel, got: seq<byte>, d: Conn) {
    var queue := c.wb.queue + got;
    && if SendRefused(k, queue) then GivenUp(d) && d.hist == c.hist.(fromOrigin := c.hist.fromOrigin + got)
       else
         && Relaying(c, d) && UpKept(c, d) && d.hist.fromOrigin == c.hist.fromOrigin + got
         && c.hist.toClient <= d.hist.toClient
         && Passed(k, queue, d.hist.toClient[|c.hist.toClient|..], d.wb.queue)
  }

  /** A read event passes on at once what it received; an end of stream closes both sides. */
  predicate Relayed(c: Conn, kind: EventKind, fd: int, k: Kernel, d: Conn) {
    match kind
    case Block => false
    case Write => if fd == c.clientFd then Downwards(c, k, [], d) else Upwards(c, k, [], d)
    case Read =>
      match k.incoming
      case RecvAgain => Relaying(c, d) && UpKept(c, d) && DownKept(c, d)
      case RecvFails => GivenUp(d) && d.hist == c.hist
      case Data(sent) =>
        if sent == [] then ClosedInOrder(d) && d.hist == c.hist
        else if fd == c.clientFd then Upwards(c, k, Delivered(sent, Room(c.rb)), d)
        else Downwards(c, k, Delivered(sent, Room(c.wb)), d)
  }

  // ---------------------------------------------------------------- every event

  /** recv in one of the states that read a message: what its parser had before, and this. */
  ghost predicate Received(c: Conn, k: Kernel, d: Conn) {
    match k.incoming
    case RecvAgain => Quiescent(c, d) && d.current == (if c.current.None? then Some(HelloRead) else c.current)
    case RecvFails => GivenUp(d) && d.hist == c.hist
    case Data(sent) =>
      var got := Delivered(sent, c.rb.space);
      if got == [] then GivenUp(d) && d.hist == c.hist
      else
        && d.hist.fromClient == c.hist.fromClient + got
        && WiresKept(c, d)
        && match if c.current.None? then HelloRead else c.current.value
           case HelloRead =>
             && RequestKept(c, d) && d.hist.auth == c.hist.auth && d.hist.status == c.hist.status && d.hist.users == c.hist.users
             && d.hist.hello + d.rb.queue == c.hist.hello + c.rb.queue + got
             && GreetingRead(c.hist.hello + c.rb.queue + got, d)
           case AuthRead =>
             && RequestKept(c, d) && d.hist.hello == c.hist.hello && d.hist.method_ == c.hist.method_
             && d.hist.auth + d.rb.queue == c.hist.auth + c.rb.queue + got
             && LoginRead(c.hist.auth + c.rb.queue + got, k.users, d)
           case RequestRead =>
             && LoginKept(c, d) && d.hist.tried == c.hist.tried
             && d.hist.request + d.rb.queue == c.hist.request + c.rb.queue + got
             && RequestIs(c.hist.request + c.rb.queue + got, k, d)
           case _ => false
  }

  /** A resolver has answered: dial what it found, or say that there is no such host. */
  ghost predicate NameResolved(c: Conn, k: Kernel, d: Conn) {
    && DialKept(c, d)
    && if c.resolutionFailed || c.resolution == [] then Refuses(d, 4) && d.hist.tried == c.hist.tried
       else Dialled(c, ConnectionLaws.IpOnly(c.resolution), k, d, true)
  }

  /** The pending connect has come to something. */
  ghost predicate ConnectEnded(c: Conn, k: Kernel, d: Conn) {
    && DialKept(c, d)
    && match k.probe
       case ProbeFails => Refuses(d, 1) && d.hist.tried == c.hist.tried
       case SocketClear => Accepts(d, k.bound, true) && d.originFd == c.originFd && d.hist.tried == c.hist.tried
       case SocketError(errno) =>
         if c.remaining == [] then d.originFd == -1 && d.hist.tried == c.hist.tried && RefusedFor(d, errno)
         else Dialled(c, ConnectionLaws.IpOnly(c.remaining), k, d, false)
  }

  /** What an event makes of the connection `c`. */
  ghost predicate Behaves(c: Conn, kind: EventKind, fd: int, k: Kernel, d: Conn) {
    match c.current
    case None => kind.Read? && Received(c, k, d)
    case Some(s) =>
      match s
      case HelloRead => kind.Read? && Received(c, k, d)
      case HelloWrite =>
        kind.Write? && AnswerSent(c, k, d, AfterMethod(c.hist.method_))
      case AuthRead => kind.Read? && Received(c, k, d)
      case AuthWrite => kind.Write? && AnswerSent(c, k, d, if c.hist.status == Some(0) then RequestRead else Done)
      case RequestRead => kind.Read? && Received(c, k, d)
      case Resolving => kind.Block? && NameResolved(c, k, d)
      case Connecting => kind.Write? && fd == c.originFd && ConnectEnded(c, k, d)
      case RequestWrite => kind.Write? && AnswerSent(c, k, d, if c.hist.code == Some(0) then Copy else Done)
      case Copy => Relayed(c, kind, fd, k, d)
      case Done => false
      case Error => false
  }
}
