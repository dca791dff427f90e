/**
 * Over whole runs: in every reachable world each possible action makes of each connection what `Protocol`
 * says, or leaves it alone; so the client is told why, in the right numbers.
 */
module ProxyProtocol {
  import opened Common
  import opened Buffers
  import opened Selectors
  import opened Connections
  import opened ConnectionLaws
  import opened ConnectionEvents
  import opened Failover
  import opened Proxy
  import opened ProxySteps
  import opened ProxyTheorems
  import opened ProxyMarks
  import ProtocolSteps
  import P = Protocol
  import Requests

  /** The action is an event of the connection at `a`: of this kind, on this descriptor, with these answers. */
  predicate EventOf(w: World, action: Action, a: nat, kind: EventKind, fd: int, k: Kernel) {
    match action
    case Readiness(f, j, answers) =>
      f in w.table && w.table[f].handler.SocksClient? && w.table[f].data == a && j == kind && f == fd && answers.k == k
    case Deliver(q) => w.jobs != [] && w.jobs[0].owner == a && kind.Block? && w.jobs[0].fd == fd && q == k
    case _ => false
  }

  /** Whatever the action is, it is an event of the connection, the result of its resolver, or nothing to it. */
  lemma ActionBehaves(w: World, action: Action, a: nat)
    requires a in w.live && Reachable(w) && Possible(w, action)
    ensures var c, d := w.live[a], NextOf(w, action, a);
            && (forall kind, fd, k | EventOf(w, action, a, kind, fd, k) :: P.Behaves(c, kind, fd, k, d))
            && match action
               case Resolve(address, failed, list, memory) =>
                 if address == a then
                   && c.current == Some(Resolving) && d.current == Some(Resolving)
                   && d.resolution == list && d.resolutionFailed == failed && d.job == memory
                   && d.hist == c.hist.(lost := !memory) && d.rb == c.rb && d.wb == c.wb
                 else d == c
               case DropReference(address) =>
                 if address == a then d == c.(resolver := d.resolver, references := d.references, retired := d.retired) else d == c
               case _ => (forall kind, fd, k :: !EventOf(w, action, a, kind, fd, k)) ==> d == c
  {
    hide Sound, Reachable, Dispatch, FdsOf, Open, Freed, Accepts, P.Behaves;
    ReachableSound(w);
    match action
    case Readiness(fd, kind, answers) =>
      if w.table[fd].handler.SocksClient? && w.table[fd].data == a {
        ServedBehaves(w, fd, kind, answers);
        assert EventOf(w, action, a, kind, fd, answers.k);
      }
    case Deliver(k) =>
      if w.jobs[0].owner == a {
        DeliveryBehaves(w, k);
        assert EventOf(w, action, a, Block, w.jobs[0].fd, k);
      }
    case Resolve(address, failed, list, memory) =>
      if address == a {
        ResolverStores(w, a, failed, list, memory);
      }
    case DropReference(_) => DropsReference(w.live[a]);
    case Shutdown =>
  }

  lemma ServedBehaves(w: World, fd: int, kind: EventKind, answers: Answers)
    requires Sound(w) && Possible(w, Readiness(fd, kind, answers)) && w.table[fd].handler.SocksClient?
    ensures var a := w.table[fd].data;
            && a in w.live && Dispatch(w.live[a], kind, fd, answers.k).Alive?
            && P.Behaves(w.live[a], kind, fd, answers.k, Dispatch(w.live[a], kind, fd, answers.k).c)
  {
    hide Inv, Holders, Rows, Dispatch, Enabled, Over, FdsOf, Open, P.Behaves;
    var a := w.table[fd].data;
    var k := answers.k;
    ServedIsEnabled(w, fd, kind);
    assert FdsOf(k.attempts) !! Open(w) - {w.live[a].originFd};
    hide Freed;
    OthersLive(w, a);
    AttemptsFresh(w, a, k.attempts);
    ProtocolSteps.EventBehaves(w.live[a], kind, fd, k);
  }

  lemma DeliveryBehaves(w: World, k: Kernel)
    requires Sound(w) && Possible(w, Deliver(k))
    ensures var a := w.jobs[0].owner;
            && a in w.live && Dispatch(w.live[a], Block, w.jobs[0].fd, k).Alive?
            && P.Behaves(w.live[a], Block, w.jobs[0].fd, k, Dispatch(w.live[a], Block, w.jobs[0].fd, k).c)
  {
    hide Inv, Holders, Dispatch, Enabled, Over, Rows, Attached, Queued, Pooled, Metered, P.Behaves;
    JobFindsOwner(w, 0);
    var a := w.jobs[0].owner;
    OthersLive(w, a);
    AttemptsFresh(w, a, k.attempts);
    ProtocolSteps.EventBehaves(w.live[a], Block, w.jobs[0].fd, k);
  }

  lemma ResolverStores(w: World, a: nat, failed: bool, list: seq<AddrInfo>, memory: bool)
    requires a in w.live && Reachable(w) && w.live[a].resolver.Running? && (failed ==> list == [])
    ensures var c := w.live[a]; var d := Resolved(c, failed, list, memory);
            && c.current == Some(Resolving) && d.current == Some(Resolving)
            && d.resolution == list && d.resolutionFailed == failed && d.job == memory
            && d.hist == c.hist.(lost := !memory) && d.rb == c.rb && d.wb == c.wb
  {
    hide Inv, Holders, Reachable;
    LiveInv(w, a);
    ResolvedOk(w.live[a], failed, list, memory);
  }

  lemma DropsReference(c: Conn)
    ensures var d := ResolverReleases(c); d == c.(resolver := d.resolver, references := d.references, retired := d.retired)
  {
    hide Grows;
  }

  // ---------------------------------------------------------------- what the client is told, and why

  /** A reply as it must be: a success with the address that getsockname gave, or a failure without one. */
  ghost predicate ReplyMade(d: Conn, k: Kernel) {
    && d.hist.code.Some?
    && if d.hist.code == Some(0) then P.Accepts(d, k.bound, true) || P.Accepts(d, k.bound, false)
       else P.Refuses(d, d.hist.code.value)
  }

  lemma RefusalReplies(d: Conn, code: byte, k: Kernel)
    requires P.Refuses(d, code) && code != 0
    ensures ReplyMade(d, k)
  {
    hide P.LoggedAs;
  }

  lemma ReasonReplies(d: Conn, errno: Errno, k: Kernel)
    requires P.RefusedFor(d, errno)
    ensures ReplyMade(d, k)
  {
    hide ReplyMade, P.Refuses;
    var code :| P.Refuses(d, code) && Explains(errno, code);
    RefusalReplies(d, code, k);
  }

  lemma ReachReplies(d: Conn, a: Attempt, k: Kernel, log: bool)
    requires P.Reaches(d, a, k.bound, log) && d.hist.code.Some?
    ensures ReplyMade(d, k)
  {
    hide P.LoggedAs;
  }

  lemma DialReplies(c: Conn, ips: seq<AddrInfo>, k: Kernel, d: Conn, log: bool)
    requires P.Dialled(c, ips, k, d, log) && d.hist.code.Some?
    ensures ReplyMade(d, k)
  {
    hide ReplyMade, P.Reaches, P.RefusedFor, IpOnly;
    var n := Failures(k.attempts);
    if n < |ips| && n < |k.attempts| {
      ReachReplies(d, k.attempts[n], k, log);
    } else {
      ReasonReplies(d, if ips == [] then HostUnreach else if |ips| <= |k.attempts| then k.attempts[|ips| - 1].errno else OtherErrno, k);
    }
  }

  lemma RequestReplies(s: seq<byte>, k: Kernel, d: Conn)
    requires P.RequestIs(s, k, d) && d.hist.code.Some?
    ensures ReplyMade(d, k)
  {
    hide ReplyMade, P.Refuses, P.RequestServed, Requests.Malformed, Requests.Encode;
    if Requests.Malformed(s) {
      RefusalReplies(d, 1, k);
    } else if Requests.UnknownType(s) {
      RefusalReplies(d, if s[1] != 1 then 7 else 8, k);
    } else {
      var m: Requests.Message :| m.addr.Valid() && Requests.Encode(m) <= s;
      ServedReplies(m, k, d);
    }
  }

  lemma ServedReplies(m: Requests.Message, k: Kernel, d: Conn)
    requires m.addr.Valid() && P.RequestServed(m, k, d) && d.hist.code.Some?
    ensures ReplyMade(d, k)
  {
    hide ReplyMade, P.Refuses, P.Reaches, P.RefusedFor, P.Asks, P.Remembers, Requests.Encode;
    if m.cmd != 1 {
      RefusalReplies(d, 7, k);
    } else if m.addr.Name? {
      RefusalReplies(d, 1, k);
    } else if k.attempts != [] && Usable(k.attempts[0]) {
      ReachReplies(d, k.attempts[0], k, true);
    } else {
      ReasonReplies(d, if k.attempts == [] then OtherErrno else k.attempts[0].errno, k);
    }
  }

  /** Only reading a request, the end of a lookup and the end of a connect make a reply, and as it must be. */
  lemma BehaviourReplies(c: Conn, kind: EventKind, fd: int, k: Kernel, d: Conn)
    requires P.Behaves(c, kind, fd, k, d) && c.hist.code.None? && d.hist.code.Some?
    ensures c.current == Some(RequestRead) || c.current == Some(Resolving) || c.current == Some(State.Connecting)
    ensures ReplyMade(d, k)
  {
    hide ReplyMade, P.GreetingRead, P.LoginRead, P.RequestIs, P.Dialled, P.Refuses, P.RefusedFor, P.Accepts, IpOnly;
    match c.current
    case Some(RequestRead) =>
      var sent := k.incoming.bytes;
      RequestReplies(c.hist.request + c.rb.queue + P.Delivered(sent, c.rb.space), k, d);
    case Some(Resolving) =>
      if c.resolutionFailed || c.resolution == [] {
        RefusalReplies(d, 4, k);
      } else {
        DialReplies(c, IpOnly(c.resolution), k, d, true);
      }
    case Some(Connecting) => EndReplies(c, k, d);
    case _ =>
  }

  lemma EndReplies(c: Conn, k: Kernel, d: Conn)
    requires P.ConnectEnded(c, k, d) && d.hist.code.Some?
    ensures ReplyMade(d, k)
  {
    hide P.Dialled, P.RefusedFor, P.DialKept, P.LoggedAs, IpOnly;
    match k.probe
    case ProbeFails => RefusalReplies(d, 1, k);
    case SocketClear =>
    case SocketError(errno) =>
      if c.remaining == [] {
        ReasonReplies(d, errno, k);
      } else {
        DialReplies(c, IpOnly(c.remaining), k, d, false);
      }
  }

  lemma RepliesInEvent(w: World, action: Action, a: nat) returns (kind: EventKind, fd: int, k: Kernel)
    requires a in w.live && Reachable(w) && Possible(w, action) && Replies(w, action, a)
    ensures EventOf(w, action, a, kind, fd, k) && P.Behaves(w.live[a], kind, fd, k, NextOf(w, action, a))
  {
    hide Reachable, Possible, NextOf, P.Behaves;
    ActionBehaves(w, action, a);
    match action
    case Readiness(f, j, answers) => kind, fd, k := j, f, answers.k;
    case Deliver(q) => kind, fd, k := Block, w.jobs[0].fd, q;
    case _ => assert false;
  }

  /**
   * The action that replies puts the reply, and nothing else, where it will be sent from: a success with the
   * address of getsockname, or a failure without one; and the log calls the code by its name.
   */
  lemma ReplyTold(w: World, action: Action, a: nat)
    requires a in w.live && Reachable(w) && Possible(w, action) && Replies(w, action, a)
    ensures exists kind, fd, k :: EventOf(w, action, a, kind, fd, k) && Told(w.live[a], NextOf(w, action, a), k)
    ensures !RetriesAtOnce(w, action, a) ==> P.LoggedAs(NextOf(w, action, a), NextOf(w, action, a).hist.code.value)
    ensures RetriesAtOnce(w, action, a) ==> NextOf(w, action, a).hist.log == []
  {
    hide Reachable, Possible, NextOf, P.Behaves, EventOf, RetriesAtOnce, P.LoggedAs, ReplyMade, Told;
    var kind, fd, k := RepliesInEvent(w, action, a);
    BehaviourReplies(w.live[a], kind, fd, k, NextOf(w, action, a));
    BehaviourTold(w.live[a], kind, fd, k, NextOf(w, action, a));
    LoggedOnce(w, action, a);
    LogTold(NextOf(w, action, a), k);
  }

  lemma LogTold(d: Conn, k: Kernel)
    requires ReplyMade(d, k)
    ensures d.hist.log == [] || P.LoggedAs(d, d.hist.code.value)
  {
    hide P.Replied, P.LoggedAs;
  }

  /** What a reply must tell of its cause. */
  ghost predicate Told(c: Conn, d: Conn, k: Kernel) {
    && d.hist.code.Some?
    && var code := d.hist.code.value;
       && d.hist.reply == d.wb.queue && |d.hist.reply| >= 10 && d.hist.reply[..3] == [5, code, 0]
       && (code == 0 ==> d.hist.reply == ProtocolSteps.BoundReply(k.bound))
       && (code != 0 ==> d.hist.reply[3..] == [1, 0, 0, 0, 0, 0, 0] && CauseTold(c, d, k, code))
  }

  /** The code of a failure is that of its cause. */
  ghost predicate CauseTold(c: Conn, d: Conn, k: Kernel, code: byte) {
    && (c.current == Some(State.Connecting) && k.probe.SocketError? ==> Explains(LastErrno(c, k.probe.errno, k.attempts), code))
    && (c.current == Some(State.Connecting) && k.probe.ProbeFails? ==> code == 1)
    && (c.current == Some(Resolving) ==>
          if c.resolutionFailed || c.resolution == [] then code == 4
          else Explains(LastErrno(c.(remaining := c.resolution), HostUnreach, k.attempts), code))
    && (forall m: Requests.Message | c.current == Some(RequestRead) && m.addr.Valid() && d.hist.request == Requests.Encode(m) ::
          if m.cmd != 1 then code == 7
          else if m.addr.Name? then code == 1 && (!k.memory || !k.thread)
          else Explains(NextAttempt(k.attempts).errno, code))
  }

  lemma BehaviourTold(c: Conn, kind: EventKind, fd: int, k: Kernel, d: Conn)
    requires P.Behaves(c, kind, fd, k, d) && c.hist.code.None? && d.hist.code.Some?
    ensures Told(c, d, k)
  {
    hide P.Behaves, ReplyMade, CauseTold;
    BehaviourReplies(c, kind, fd, k, d);
    BytesTold(d, k);
    if d.hist.code != Some(0) {
      CauseOf(c, kind, fd, k, d);
    }
  }

  lemma BytesTold(d: Conn, k: Kernel)
    requires ReplyMade(d, k)
    ensures d.hist.reply == d.wb.queue && |d.hist.reply| >= 10 && d.hist.reply[..3] == [5, d.hist.code.value, 0]
    ensures if d.hist.code == Some(0) then d.hist.reply == ProtocolSteps.BoundReply(k.bound)
            else d.hist.reply[3..] == [1, 0, 0, 0, 0, 0, 0]
  {
    hide P.LoggedAs;
  }

  lemma CauseOf(c: Conn, kind: EventKind, fd: int, k: Kernel, d: Conn)
    requires P.Behaves(c, kind, fd, k, d) && c.hist.code.None? && d.hist.code.Some? && d.hist.code != Some(0)
    ensures CauseTold(c, d, k, d.hist.code.value)
  {
    hide P.LoggedAs, P.Asks, P.Remembers, Failures, IpOnly, Explains, P.Received;
    if c.current == Some(RequestRead) {
      forall m: Requests.Message | m.addr.Valid() && d.hist.request == Requests.Encode(m)
        ensures if m.cmd != 1 then d.hist.code == Some(7)
                else if m.addr.Name? then d.hist.code == Some(1) && (!k.memory || !k.thread)
                else Explains(NextAttempt(k.attempts).errno, d.hist.code.value)
      {
        RequestCause(c, k, d, m);
      }
    }
  }

  lemma RequestCause(c: Conn, k: Kernel, d: Conn, m: Requests.Message)
    requires c.current == Some(RequestRead) && P.Received(c, k, d) && c.hist.code.None? && d.hist.code.Some? && d.hist.code != Some(0)
    requires m.addr.Valid() && d.hist.request == Requests.Encode(m)
    ensures if m.cmd != 1 then d.hist.code == Some(7)
            else if m.addr.Name? then d.hist.code == Some(1) && (!k.memory || !k.thread)
            else Explains(NextAttempt(k.attempts).errno, d.hist.code.value)
  {
    hide P.LoggedAs, P.Asks, P.Remembers, Failures, IpOnly, Requests.Encode, Explains;
    var s := d.hist.request + d.rb.queue;
    assert Requests.Encode(m) <= s;
    assert P.RequestServed(m, k, d);
  }
}
