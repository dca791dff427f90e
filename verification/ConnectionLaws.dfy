/** What every event keeps true of a connection, from accept to close. */
module ConnectionLaws {
  import opened Common
  import opened Buffers
  import opened Selectors
  import opened Connections
  import Hello
  import Auth
  import Requests

  // ---------------------------------------------------------------- holders

  predicate ResolverHolds(c: Conn) {
    c.resolver.Running? || c.resolver.Notified?
  }

  /** Who may still call socks5_destroy: the two registrations and the resolver thread. */
  function Holders(c: Conn): nat {
    (if c.clientReg.Some? then 1 else 0) + (if c.originReg.Some? then 1 else 0) + (if ResolverHolds(c) then 1 else 0)
  }

  ghost predicate Counted(c: Conn) {
    if Holders(c) > 0 then c.references == Holders(c) && c.retired == 0
    else c.references == 1 && c.retired == 1
  }

  /** Both descriptors that are recorded are registered, and they differ. */
  ghost predicate Registered(c: Conn) {
    && c.clientReg.Some? && !InvalidFd(c.clientFd)
    && (c.originFd == -1 <==> c.originReg.None?)
    && (c.originFd != -1 ==> c.originFd != c.clientFd && !InvalidFd(c.originFd))
  }

  // ---------------------------------------------------------------- bytes

  ghost predicate BuffersOk(c: Conn) {
    c.rb.Wf() && c.wb.Wf() && c.rb.cap == BUFFER_SIZE && c.wb.cap == BUFFER_SIZE
  }

  function Taken(h: History): seq<byte> {
    h.hello + h.auth + h.request + h.toOrigin
  }

  /** Everything the client sent was parsed, forwarded or is still waiting, in that order, once. */
  ghost predicate Conserved(c: Conn) {
    c.hist.fromClient == Taken(c.hist) + c.rb.queue
  }

  /** What a client is to see: the method, the status if asked for, one reply, then the origin's bytes. */
  function Script(h: History): seq<byte> {
    (if h.method_.Some? then Hello.Answer(h.method_.value) else [])
    + (if h.status.Some? then Auth.Answer(h.status.value) else [])
    + h.reply
    + h.fromOrigin
  }

  ghost predicate Scripted(c: Conn) {
    Script(c.hist) == c.hist.toClient + c.wb.queue
  }

  ghost predicate Books(c: Conn) {
    BuffersOk(c) && Conserved(c) && Scripted(c)
  }

  // ---------------------------------------------------------------- who was let through, what was answered

  function Login(h: History): Auth.Parser {
    Auth.Parse(Auth.Initial(), h.auth)
  }

  function Wanted(h: History): Requests.Parser {
    Requests.Parse(Requests.Initial(), h.request)
  }

  /** Either no authentication was chosen, or the password was accepted. */
  predicate Gate(h: History) {
    || h.method_ == Some(Hello.NO_AUTHENTICATION)
    || (h.method_ == Some(Hello.USERNAME_PASSWORD) && h.status == Some(Auth.SUCCESS))
  }

  ghost predicate Greeted(h: History) {
    match h.method_
    case None => h.auth == [] && h.status.None?
    case Some(m) => Hello.IsGreeting(h.hello) && m == Hello.Choose(h.hello[2..])
  }

  ghost predicate Authed(h: History) {
    && Auth.Taken(Auth.Initial(), h.auth) == |h.auth|
    && (h.auth != [] || h.status.Some? ==> h.method_ == Some(Hello.USERNAME_PASSWORD))
    && (h.status.Some? ==>
          && Login(h).state.Done?
          && h.status.value == if Knows(h.users, Login(h).Username(), Login(h).Password()) then Auth.SUCCESS else Auth.FAILURE)
  }

  /** The reply codes that a request can get. */
  ghost predicate CodeFits(p: Requests.Parser, code: byte) {
    if p.state.Error? then code == Requests.GENERAL_FAILURE
    else
      && p.state.Done?
      && if p.cmd != Requests.CONNECT then code == Requests.COMMAND_NOT_SUPPORTED
         else if !p.Known() then code == Requests.ADDRESS_TYPE_NOT_SUPPORTED
         else code == Requests.SUCCEEDED || Failure(code)
  }

  predicate Failure(code: byte) {
    || code == Requests.GENERAL_FAILURE || code == Requests.NETWORK_UNREACHABLE
    || code == Requests.HOST_UNREACHABLE || code == Requests.CONNECTION_REFUSED
  }

  /** A reply of section 6 of RFC 1928 with this code, of 10 or 22 bytes. */
  predicate IsReply(bs: seq<byte>, code: byte) {
    && (|bs| == 10 || |bs| == 22)
    && bs[0] == Requests.VERSION && bs[1] == code && bs[2] == 0
    && bs[3] == if |bs| == 10 then Requests.IPV4 else Requests.IPV6
  }

  ghost predicate Requested(h: History) {
    && Requests.Taken(Requests.Initial(), h.request) == |h.request|
    && (h.request != [] || h.code.Some? ==> Gate(h))
    && match h.code
       case None => h.reply == []
       case Some(code) => IsReply(h.reply, code) && CodeFits(Wanted(h), code)
  }

  ghost predicate Relayed(h: History) {
    h.toOrigin != [] || h.fromOrigin != [] ==> h.code == Some(Requests.SUCCEEDED)
  }

  ghost predicate Facts(h: History) {
    Greeted(h) && Authed(h) && Requested(h) && Relayed(h)
  }

  // ---------------------------------------------------------------- addresses and the access log

  function IpOnly(list: seq<AddrInfo>): seq<AddrInfo> {
    if list == [] then [] else (if IsIp(list[0]) then [list[0]] else []) + IpOnly(list[1..])
  }

  /** Addresses are tried in list order, each at most once. */
  ghost predicate InOrder(c: Conn) {
    && c.hist.tried + IpOnly(c.remaining) == IpOnly(c.resolution)
    && (c.resolutionFailed ==> c.resolution == [])
  }

  /** A failure is answered only when no address is left, or SO_ERROR could not be read. */
  ghost predicate Exhausted(c: Conn) {
    c.hist.code.Some? && c.hist.code.value != Requests.SUCCEEDED ==> IpOnly(c.remaining) == [] || c.hist.probeFailed
  }

  /** One entry with the status of the reply; none after a success at once in a later attempt. */
  ghost predicate LogOk(c: Conn) {
    && (c.logged <==> c.hist.log != [])
    && match c.hist.code
       case None => c.hist.log == [] && !c.hist.retriedAtOnce
       case Some(code) =>
         if c.hist.retriedAtOnce then c.hist.log == [] && code == Requests.SUCCEEDED
         else c.hist.log == [LogEntry(c.username, c.destination, c.port, LogStatus(code))]
  }

  ghost predicate Dialed(c: Conn) {
    InOrder(c) && Exhausted(c) && LogOk(c)
  }

  ghost predicate Core(c: Conn) {
    Counted(c) && Books(c) && Facts(c.hist) && Dialed(c)
  }

  // ---------------------------------------------------------------- state by state

  /** Nothing has been done about an origin yet. */
  ghost predicate Quiet(c: Conn) {
    && c.originFd == -1 && c.resolver.Idle? && !c.job && !c.hist.lost
    && c.resolution == [] && c.remaining == [] && !c.resolutionFailed && c.hist.tried == []
    && c.hist.code.None? && c.hist.toOrigin == [] && c.hist.fromOrigin == []
  }

  /** A CONNECT to an address of known type, let through and not yet answered. */
  ghost predicate Pending(c: Conn) {
    && c.client.RequestSt? && c.client.request == Wanted(c.hist)
    && Wanted(c.hist).state.Done? && Wanted(c.hist).cmd == Requests.CONNECT && Wanted(c.hist).Known()
    && Gate(c.hist) && c.hist.code.None? && c.wb.queue == []
    && c.hist.toOrigin == [] && c.hist.fromOrigin == []
  }

  /** The resolver has finished or was never started, and no job is queued. */
  ghost predicate Settled(c: Conn) {
    !c.job && !c.resolver.Running?
  }

  /** In RESOLVING: a running resolver, or one queued job, or a job that could not be allocated. */
  ghost predicate Ticket(c: Conn) {
    if c.resolver.Running? then !c.job && !c.hist.lost && c.resolution == [] && !c.resolutionFailed
    else !c.resolver.Idle? && (c.job <==> !c.hist.lost)
  }

  /** What holds when state `s` is entered, before its on_arrival runs. */
  ghost predicate Entering(c: Conn, s: State) {
    match s
    case HelloRead => false
    case HelloWrite =>
      && c.client.HelloSt? && c.client.hello.state.Done? && c.hist.method_ == Some(c.client.hello.selected)
      && c.hist.status.None? && c.hist.auth == [] && c.hist.request == []
      && Quiet(c) && c.clientReg == Some(WRITE) && c.wb.queue != []
    case AuthRead =>
      && c.hist.method_ == Some(Hello.USERNAME_PASSWORD) && c.hist.auth == [] && c.hist.status.None? && c.hist.request == []
      && Quiet(c) && c.clientReg == Some(READ) && c.wb.queue == []
    case AuthWrite =>
      && c.client.AuthSt? && c.hist.status == Some(if c.client.authorized then Auth.SUCCESS else Auth.FAILURE)
      && c.hist.request == [] && Quiet(c) && c.clientReg == Some(WRITE) && c.wb.queue != []
    case RequestRead =>
      Gate(c.hist) && c.hist.request == [] && Quiet(c) && c.clientReg == Some(READ) && c.wb.queue == []
    case Resolving =>
      && Pending(c) && Ticket(c) && c.clientReg == Some(NOOP) && c.originFd == -1
      && c.remaining == c.resolution && c.hist.tried == []
    case Connecting =>
      Pending(c) && Settled(c) && c.clientReg == Some(NOOP) && c.originReg == Some(WRITE)
    case RequestWrite =>
      && c.client.RequestSt? && c.hist.code == Some(c.client.reply) && Settled(c)
      && c.hist.toOrigin == [] && c.hist.fromOrigin == []
      && c.clientReg == Some(WRITE) && (c.originReg.Some? ==> c.originReg.value == NOOP) && c.wb.queue != []
      && (c.client.reply == Requests.SUCCEEDED ==> c.originReg.Some?)
    case Copy =>
      && c.hist.code == Some(Requests.SUCCEEDED) && Settled(c) && c.originReg.Some?
      && c.hist.toOrigin == [] && c.hist.fromOrigin == [] && c.wb.queue == []
    case Done => Settled(c)
    case Error => Settled(c)
  }

  /** In COPY each interest says exactly whether its buffer has room or bytes. */
  ghost predicate Exact(c: Conn) {
    && c.clientReg == Some(Interest(|c.rb.queue| < BUFFER_SIZE, c.wb.queue != []))
    && c.originReg == Some(Interest(|c.wb.queue| < BUFFER_SIZE, c.rb.queue != []))
  }

  /** What holds while the machine rests in state `s`. */
  ghost predicate Resting(c: Conn, s: State) {
    match s
    case HelloRead =>
      && c.client.HelloSt? && !c.client.hello.Terminal() && Hello.Describes(c.client.hello, c.hist.hello)
      && c.hist.method_.None? && c.hist.request == [] && Quiet(c) && c.clientReg == Some(READ) && c.wb.queue == []
    case AuthRead =>
      && c.client.AuthSt? && !c.client.auth.Terminal() && c.client.auth == Login(c.hist)
      && c.hist.method_ == Some(Hello.USERNAME_PASSWORD) && c.hist.status.None? && c.hist.request == []
      && Quiet(c) && c.clientReg == Some(READ) && c.wb.queue == []
    case RequestRead =>
      && c.client.RequestSt? && !c.client.request.Terminal() && c.client.request == Wanted(c.hist)
      && Gate(c.hist) && Quiet(c) && c.clientReg == Some(READ) && c.wb.queue == []
    case Copy =>
      c.hist.code == Some(Requests.SUCCEEDED) && Settled(c) && Exact(c)
    case _ => Entering(c, s)
  }

  predicate Over(c: Conn) {
    c.current == Some(Done) || c.current == Some(Error)
  }

  /** The invariant of a connection between events. */
  ghost predicate Inv(c: Conn) {
    && Core(c)
    && if c.current.None? then c == Opened(c.clientFd) && !InvalidFd(c.clientFd)
       else if Over(c) then c.clientReg.None? && c.originReg.None? && Settled(c)
       else Registered(c) && Resting(c, c.current.value)
  }

  /** What a handler called in state `s` owes. */
  ghost predicate GoodTurn(s: State, t: Turn) {
    && Core(t.c) && Registered(t.c)
    && if t.next == s then Resting(t.c, s) else Entering(t.c, t.next)
  }

  lemma OpenedInv(fd: int)
    requires !InvalidFd(fd)
    ensures Inv(Opened(fd))
  {
  }
}
