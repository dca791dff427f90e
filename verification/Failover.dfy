/**
 * DNS failover in src/server/socks5nio.c: what request_connect_next_resolution does to a list of
 * addresses, when a failure is answered too early, and when a success is not logged.
 */
module Failover {
  import opened Common
  import opened Buffers
  import opened Selectors
  import opened Connections
  import opened ConnectionLaws
  import ConnectionSteps
  import Requests

  /** A descriptor that connect came back with and that the selector takes. */
  predicate Usable(a: Attempt) {
    (a.InProgress? || a.Immediate?) && !InvalidFd(a.fd)
  }

  /** How many attempts fail before the first usable one. */
  function Failures(attempts: seq<Attempt>): (n: nat)
    ensures n <= |attempts|
    ensures forall i | 0 <= i < n :: !Usable(attempts[i])
    ensures n < |attempts| ==> Usable(attempts[n])
  {
    if attempts == [] || Usable(attempts[0]) then 0 else 1 + Failures(attempts[1..])
  }

  function ErrnoAt(attempts: seq<Attempt>, i: nat): Errno {
    if i < |attempts| then attempts[i].errno else OtherErrno
  }

  /** The first usable attempt decides: which addresses were tried, what is left, and what was registered. */
  ghost predicate Dials(c: Conn, attempts: seq<Attempt>, errno: Errno, r: Connect) {
    var ips, n := IpOnly(c.remaining), Failures(attempts);
    if n < |ips| && n < |attempts| then
      && r.Connecting? && r.c.hist.tried == c.hist.tried + ips[..n + 1] && IpOnly(r.c.remaining) == ips[n + 1..]
      && r.c.originFd == attempts[n].fd && r.inProgress == attempts[n].InProgress?
      && r.c.originReg == Some(if r.inProgress then WRITE else NOOP) && r.c.references == c.references + 1
      && |r.c.remaining| < |c.remaining|
    else
      && r.NotConnected? && r.c.hist.tried == c.hist.tried + ips && r.c.remaining == [] && r.c.originFd == -1
      && r.c.originReg == c.originReg && r.c.references == c.references
      && r.errno == if ips == [] then errno else ErrnoAt(attempts, |ips| - 1)
  }

  lemma DialsSkipping(c: Conn, attempts: seq<Attempt>, errno: Errno, r: Connect)
    requires c.remaining != [] && !IsIp(c.remaining[0]) && Dials(c.(remaining := c.remaining[1..]), attempts, errno, r)
    ensures Dials(c, attempts, errno, r)
  {
  }

  lemma DialsAfterFailure(c: Conn, e: Conn, attempts: seq<Attempt>, errno: Errno, failure: Errno, r: Connect)
    requires c.remaining != [] && IsIp(c.remaining[0]) && (attempts == [] || !Usable(attempts[0]))
    requires e == c.(remaining := c.remaining[1..], hist := c.hist.(tried := c.hist.tried + [c.remaining[0]]))
    requires failure == ErrnoAt(attempts, 0) && Dials(e, OtherAttempts(attempts), failure, r)
    ensures Dials(c, attempts, errno, r)
  {
    var a, rest := c.remaining[0], IpOnly(e.remaining);
    var ips := IpOnly(c.remaining);
    assert ips == [a] + rest;
    assert Failures(attempts) == if attempts == [] then 0 else 1 + Failures(attempts[1..]);
    hide IpOnly, IsIp, Failures, Usable;
    var m := Failures(OtherAttempts(attempts));
    if m < |rest| && m < |OtherAttempts(attempts)| {
      assert ips[..m + 2] == [a] + rest[..m + 1] && ips[m + 2..] == rest[m + 1..];
    }
  }

  lemma DialsAtOnce(c: Conn, attempts: seq<Attempt>, errno: Errno)
    requires c.originFd == -1 && c.remaining != [] && IsIp(c.remaining[0]) && attempts != [] && Usable(attempts[0])
    ensures Dials(c, attempts, errno, ConnectSockaddr(ConnectionSteps.TakenOff(c), attempts[0]))
  {
    hide Grows, Moved;
    assert IpOnly(c.remaining)[..1] == [c.remaining[0]];
    assert IpOnly(c.remaining)[1..] == IpOnly(c.remaining[1..]);
  }

  lemma FailsOnce(e: Conn, attempts: seq<Attempt>)
    requires e.originFd == -1 && (attempts == [] || !Usable(attempts[0]))
    ensures ConnectSockaddr(e, NextAttempt(attempts)) == NotConnected(e, ErrnoAt(attempts, 0))
  {
    hide Grows;
  }

  /**
   * The loop over the rest of the list tries the IPv4 and IPv6 addresses in order, one attempt each,
   * and stops at the first usable one or after the last; its error is that of the last attempt.
   */
  lemma {:induction false} NextResolution(c: Conn, attempts: seq<Attempt>, errno: Errno)
    requires c.originFd == -1
    ensures Dials(c, attempts, errno, ConnectNext(c, attempts, errno))
    decreases |c.remaining|
  {
    if c.remaining != [] {
      ConnectionSteps.ConnectNextTurn(c, attempts, errno);
      hide ConnectNext, Dials, ConnectSockaddr, Usable;
      var e := ConnectionSteps.TakenOff(c);
      var r := ConnectNext(c, attempts, errno);
      if !IsIp(c.remaining[0]) {
        NextResolution(e, attempts, errno);
        DialsSkipping(c, attempts, errno, r);
      } else if attempts != [] && Usable(attempts[0]) {
        DialsAtOnce(c, attempts, errno);
      } else {
        FailsOnce(e, attempts);
        NextResolution(e, OtherAttempts(attempts), ErrnoAt(attempts, 0));
        DialsAfterFailure(c, e, attempts, errno, ErrnoAt(attempts, 0), r);
      }
    }
  }

  // ---------------------------------------------------------------- one event in CONNECTING

  /** What the invariant says of a connection that waits for its origin. */
  predicate Waiting(c: Conn) {
    && c.client.RequestSt? && c.clientReg.Some? && c.originReg.Some? && c.originFd != -1
    && c.wb == EmptyFifo(BUFFER_SIZE) && c.hist.code.None? && c.hist.log == [] && !c.logged && c.references >= 2
  }

  lemma ConnectingWaits(c: Conn)
    requires Inv(c) && c.current == Some(State.Connecting)
    ensures Waiting(c)
  {
    hide Facts, Conserved, Scripted, InOrder, Exhausted, Wanted;
  }

  lemma ReplySet(c: Conn, reply: byte)
    requires c.client.RequestSt? && c.clientReg.Some? && c.wb == EmptyFifo(BUFFER_SIZE) && !c.logged && c.hist.log == []
    requires 0 < reply <= Requests.ADDRESS_TYPE_NOT_SUPPORTED
    ensures var t := SetReply(c, reply);
            && t.next == RequestWrite && t.c.hist.code == Some(reply) && |t.c.hist.log| == 1
            && t.c.hist.log[0].status == LogStatus(reply) && t.c.remaining == c.remaining && t.c.hist.tried == c.hist.tried
  {
    hide LogStatus;
  }

  lemma SuccessSet(c: Conn, k: Kernel, log: bool)
    requires c.client.RequestSt? && c.clientReg.Some? && c.wb == EmptyFifo(BUFFER_SIZE) && !c.logged && c.hist.log == []
    ensures var t := Succeed(c, k, log);
            && t.next == RequestWrite && t.c.hist.code == Some(Requests.SUCCEEDED)
            && t.c.remaining == c.remaining && t.c.hist.tried == c.hist.tried
            && (if log then |t.c.hist.log| == 1 && t.c.hist.log[0].status == "OK" else t.c.hist.log == [])
  {
  }

  predicate Kept(c: Conn, d: Conn) {
    && d.client == c.client && d.clientReg == c.clientReg && d.rb == c.rb && d.wb == c.wb && d.logged == c.logged
    && d.destination == c.destination && d.port == c.port && d.hist == c.hist.(tried := d.hist.tried)
  }

  lemma SockaddrKeeps(c: Conn, a: Attempt)
    ensures Kept(c, ConnectSockaddr(c, a).c)
  {
  }

  lemma KeptTwice(c: Conn, d: Conn, e: Conn)
    requires Kept(c, d) && Kept(d, e)
    ensures Kept(c, e)
  {
  }

  /** The loop leaves alone what it does not dial with. */
  lemma {:induction false} NextKeeps(c: Conn, attempts: seq<Attempt>, errno: Errno)
    ensures Kept(c, ConnectNext(c, attempts, errno).c)
    decreases |c.remaining|
  {
    if c.remaining != [] {
      ConnectionSteps.ConnectNextTurn(c, attempts, errno);
      var e := ConnectionSteps.TakenOff(c);
      assert Kept(c, e);
      hide Kept, ConnectNext, ConnectSockaddr, Grows;
      if !IsIp(c.remaining[0]) {
        NextKeeps(e, attempts, errno);
        KeptTwice(c, e, ConnectNext(c, attempts, errno).c);
      } else {
        var r := ConnectSockaddr(e, NextAttempt(attempts));
        SockaddrKeeps(e, NextAttempt(attempts));
        KeptTwice(c, e, r.c);
        if r.NotConnected? {
          NextKeeps(r.c, OtherAttempts(attempts), r.errno);
          KeptTwice(c, r.c, ConnectNext(c, attempts, errno).c);
        }
      }
    }
  }

  /** Whether a later attempt connects, and at which index of the attempts. */
  predicate Connects(c: Conn, attempts: seq<Attempt>) {
    Failures(attempts) < |IpOnly(c.remaining)| && Failures(attempts) < |attempts|
  }

  /** The error that decides the reply when no address is left: SO_ERROR's, or that of the last attempt. */
  function LastErrno(c: Conn, errno: Errno, attempts: seq<Attempt>): Errno {
    if c.remaining == [] then errno
    else if IpOnly(c.remaining) == [] then HostUnreach
    else ErrnoAt(attempts, |IpOnly(c.remaining)| - 1)
  }

  /** Why a connect failed, in the codes of section 6 of RFC 1928. */
  predicate Explains(errno: Errno, code: byte) {
    match errno
    case NetUnreach => code == 3
    case HostUnreach => code == 4
    case ConnRefused => code == 5
    case OtherErrno => code == 1
  }

  /** The whole outcome of one write event on the origin descriptor in CONNECTING. */
  ghost predicate Decided(c: Conn, k: Kernel, t: Turn) {
    match k.probe
    case ProbeFails =>
      t.next == RequestWrite && t.c.hist.code == Some(Requests.GENERAL_FAILURE) && t.c.remaining == c.remaining
      && |t.c.hist.log| == 1
    case SocketClear =>
      t.next == RequestWrite && t.c.hist.code == Some(Requests.SUCCEEDED) && |t.c.hist.log| == 1
    case SocketError(errno) =>
      if Connects(c, k.attempts) then
        && t.c.hist.tried == c.hist.tried + IpOnly(c.remaining)[..Failures(k.attempts) + 1]
        && |t.c.remaining| < |c.remaining| && t.c.hist.log == []
        && if k.attempts[Failures(k.attempts)].InProgress? then t.next == State.Connecting && t.c.hist.code.None?
           else t.next == RequestWrite && t.c.hist.code == Some(Requests.SUCCEEDED)
      else
        && t.next == RequestWrite && t.c.hist.code.Some? && Explains(LastErrno(c, errno, k.attempts), t.c.hist.code.value)
        && t.c.remaining == [] && t.c.hist.tried == c.hist.tried + IpOnly(c.remaining) && |t.c.hist.log| == 1
  }

  lemma ConnectingDecided(c: Conn, k: Kernel)
    requires Waiting(c)
    ensures Decided(c, k, ConnectReady(c, c.originFd, k))
  {
    match k.probe
    case ProbeFails =>
      var d := c.(originReg := Some(NOOP));
      hide SetReply, ConnectFailed, Succeed, LogStatus;
      ReplySet(d.(hist := d.hist.(probeFailed := true)), Requests.GENERAL_FAILURE);
    case SocketClear =>
      ConnectionSteps.OriginFirst(c, k);
      hide SetReply, ConnectFailed, Succeed, LogStatus, Reply;
      SuccessSet(c.(originReg := Some(NOOP)), k, true);
    case SocketError(errno) =>
      FailedDecided(c, errno, k);
      hide ConnectFailed, Waiting, Connects;
  }

  /** Ready to be answered: nothing in the log, and the write buffer empty. */
  predicate Unanswered(c: Conn) {
    c.client.RequestSt? && c.clientReg.Some? && c.wb == EmptyFifo(BUFFER_SIZE) && !c.logged && c.hist.log == [] && c.hist.code.None?
  }

  lemma KeptBlank(c: Conn, d: Conn)
    requires Kept(c, d) && Unanswered(c)
    ensures Unanswered(d)
  {
  }

  lemma DroppedBlank(c: Conn)
    requires Waiting(c)
    ensures var d := DropOrigin(c);
            Unanswered(d) && d.originFd == -1 && d.remaining == c.remaining && d.hist == c.hist
  {
    hide Grows;
  }

  lemma FailedDecided(c: Conn, errno: Errno, k: Kernel)
    requires Waiting(c)
    ensures Decided(c, k.(probe := SocketError(errno)), ConnectFailed(c, errno, k))
  {
    hide SetReply, Succeed, ConnectNext, LogStatus, DropOrigin, Kept, Waiting, Grows, Moved;
    DroppedBlank(c);
    var d := DropOrigin(c);
    if d.remaining == [] {
      ReplySet(d, ReplyForErrno(errno));
      assert c.hist.tried + [] == c.hist.tried;
    } else {
      NextResolution(d, k.attempts, HostUnreach);
      NextKeeps(d, k.attempts, HostUnreach);
      var r := ConnectNext(d, k.attempts, HostUnreach);
      KeptBlank(d, r.c);
      match r
      case NotConnected(e, failure) => ReplySet(e, ReplyForErrno(failure));
      case Connecting(e, inProgress) =>
        if !inProgress {
          SuccessSet(e, k, false);
        }
    }
  }

  /**
   * A failure is answered while addresses are left exactly when SO_ERROR could not be read and
   * addresses were left.
   */
  lemma AnsweredTooEarlyIff(c: Conn, k: Kernel)
    requires Inv(c) && c.current == Some(State.Connecting)
    ensures c.client.RequestSt?
    ensures var t := ConnectReady(c, c.originFd, k);
            (t.c.hist.code.Some? && t.c.hist.code.value != Requests.SUCCEEDED && IpOnly(t.c.remaining) != [])
            <==> (k.probe.ProbeFails? && IpOnly(c.remaining) != [])
  {
    ConnectingWaits(c);
    hide Inv, ConnectReady;
    ConnectingDecided(c, k);
  }

  /**
   * A reply is made without an entry in the access log exactly when the pending connect failed and a
   * later attempt connects at once.
   */
  lemma UnloggedIff(c: Conn, k: Kernel)
    requires Inv(c) && c.current == Some(State.Connecting)
    ensures c.client.RequestSt?
    ensures var t := ConnectReady(c, c.originFd, k);
            (t.c.hist.code.Some? && t.c.hist.log == [])
            <==> (k.probe.SocketError? && Connects(c, k.attempts) && k.attempts[Failures(k.attempts)].Immediate?)
  {
    ConnectingWaits(c);
    hide Inv, ConnectReady;
    ConnectingDecided(c, k);
  }

  /** Each event in CONNECTING answers the client or leaves fewer addresses, so failover ends. */
  lemma FailoverEnds(c: Conn, k: Kernel)
    requires Inv(c) && c.current == Some(State.Connecting)
    ensures c.client.RequestSt?
    ensures var t := ConnectReady(c, c.originFd, k);
            if t.next == State.Connecting then |t.c.remaining| < |c.remaining| else t.next == RequestWrite && t.c.hist.code.Some?
  {
    ConnectingWaits(c);
    hide Inv, ConnectReady;
    ConnectingDecided(c, k);
  }
}
