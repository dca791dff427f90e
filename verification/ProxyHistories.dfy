/**
 * What was seen on the wires of any connection of any reachable world: the client's transcript,
 * conservation, the authentication gate, failover, the access log, and that nothing is taken back.
 */
module ProxyHistories {
  import opened Common
  import opened Buffers
  import opened Selectors
  import opened Connections
  import opened ConnectionLaws
  import opened ConnectionEvents
  import opened Proxy
  import opened ProxySteps
  import opened ProxyTheorems
  import Incremental
  import Logins
  import Hello
  import Auth
  import Requests

  // ---------------------------------------------------------------- towards the client

  /**
   * What was sent to the client, followed by what is waiting to be sent, is [5, method], then
   * [1, status], then one reply of 10 or 22 bytes, then everything received from the origin.
   */
  lemma ClientTranscript(w: World, c: Conn)
    requires Reachable(w) && Of(w, c)
    ensures var h := c.hist;
            && h.toClient + c.wb.queue
               == (if h.method_.Some? then [5, h.method_.value] else [])
                  + (if h.status.Some? then [1, h.status.value] else [])
                  + h.reply + h.fromOrigin
            && (h.method_.None? ==> h.status.None? && h.reply == [])
            && (h.status.Some? ==> h.method_ == Some(2))
            && (h.reply != [] <==> h.code.Some?)
            && (h.reply != [] ==> (|h.reply| == 10 || |h.reply| == 22) && h.reply[..3] == [5, h.code.value, 0])
            && (h.fromOrigin != [] ==> h.code == Some(0))
    ensures c.hist.toClient <= Script(c.hist)
  {
    hide Core, Reachable, Of;
    OfCore(w, c);
    CoreTranscript(c);
  }

  lemma CoreTranscript(c: Conn)
    requires Core(c)
    ensures var h := c.hist;
            && h.toClient + c.wb.queue
               == (if h.method_.Some? then [5, h.method_.value] else [])
                  + (if h.status.Some? then [1, h.status.value] else [])
                  + h.reply + h.fromOrigin
            && (h.method_.None? ==> h.status.None? && h.reply == [])
            && (h.status.Some? ==> h.method_ == Some(2))
            && (h.reply != [] <==> h.code.Some?)
            && (h.reply != [] ==> (|h.reply| == 10 || |h.reply| == 22) && h.reply[..3] == [5, h.code.value, 0])
            && (h.fromOrigin != [] ==> h.code == Some(0))
    ensures c.hist.toClient <= Script(c.hist)
  {
    hide Counted, Dialed, Conserved, CodeFits, Login, Hello.IsGreeting, Hello.Choose;
    assert Scripted(c);
    assert Script(c.hist)[..|c.hist.toClient|] == c.hist.toClient;
  }

  /** The reply is a message of section 6 of RFC 1928 with an IPv4 or IPv6 address and the code that was decided. */
  lemma ReplyDecodes(w: World, c: Conn)
    requires Reachable(w) && Of(w, c) && c.hist.code.Some?
    ensures exists m: Requests.Message ::
              m.addr.Valid() && !m.addr.Name? && m.cmd == c.hist.code.value && c.hist.reply == Requests.Encode(m)
    ensures var p := Requests.Parse(Requests.Initial(), c.hist.reply);
            p.state.Done? && p.Known() && p.cmd == c.hist.code.value
  {
    hide Core, Reachable, Of;
    OfCore(w, c);
    CoreReply(c);
    hide IsReply;
    ReplyMessage(c.hist.reply, c.hist.code.value);
    var m: Requests.Message :| m.addr.Valid() && !m.addr.Name? && m.cmd == c.hist.code.value && c.hist.reply == Requests.Encode(m);
    hide Incremental.Feed;
    Requests.DoneIffMessage(c.hist.reply, m);
  }

  lemma CoreReply(c: Conn)
    requires Core(c) && c.hist.code.Some?
    ensures IsReply(c.hist.reply, c.hist.code.value)
  {
    hide Counted, Books, Dialed, Greeted, Authed, IsReply, CodeFits, Wanted, Requests.Taken;
  }

  lemma ReplyMessage(bs: seq<byte>, code: byte)
    requires IsReply(bs, code)
    ensures exists m: Requests.Message :: m.addr.Valid() && !m.addr.Name? && m.cmd == code && bs == Requests.Encode(m)
  {
    var n := |bs| - 2;
    var m := Requests.Message(code, if |bs| == 10 then Requests.V4(bs[4..8]) else Requests.V6(bs[4..20]),
                              bs[n] as int * 256 + bs[n + 1] as int);
    assert m.port / 256 == bs[n] as int && m.port % 256 == bs[n + 1] as int;
    assert bs == [bs[0], bs[1], bs[2]] + ([bs[3]] + bs[4..n]) + [bs[n], bs[n + 1]];
    assert Requests.Encode(m) == [Requests.VERSION, code, 0] + ([bs[3]] + bs[4..n]) + [m.port / 256, m.port % 256];
  }

  /** Before its reply a connection has its whole write buffer free, and every answer fits. */
  lemma NoMarshallerFails(w: World, a: nat)
    requires Reachable(w) && a in w.live
    requires StateOf(w.live[a]) in {HelloRead, AuthRead, RequestRead, Resolving, State.Connecting}
    ensures var b := w.live[a].wb;
            && b == EmptyFifo(BUFFER_SIZE)
            && (forall m :: b.Put(Hello.Answer(m)).queue == Hello.Answer(m))
            && (forall s :: b.Put(Auth.Answer(s)).queue == Auth.Answer(s))
            && (forall k, r :: b.Put(OriginBind(k, r)).queue == OriginBind(k, r))
            && (forall r :: b.Put(Requests.ReplyZero(r)).queue == Requests.ReplyZero(r))
  {
    hide Reachable;
    LiveInv(w, a);
    WriteBufferFree(w.live[a]);
    hide Inv, Holders;
    forall bs: seq<byte> | |bs| <= 22
      ensures EmptyFifo(BUFFER_SIZE).Put(bs).queue == bs
    {
    }
  }

  lemma WriteBufferFree(c: Conn)
    requires Inv(c) && StateOf(c) in {HelloRead, AuthRead, RequestRead, Resolving, State.Connecting}
    ensures c.wb == EmptyFifo(BUFFER_SIZE)
  {
    hide Counted, Facts, Dialed, Conserved, Scripted, Wanted, Login, Hello.Describes;
  }

  // ---------------------------------------------------------------- towards the origin

  /**
   * Everything the client sent was taken by one of the parsers, forwarded, or is waiting in the read
   * buffer, in that order and once; at most one buffer of it is undelivered.
   */
  lemma ClientConserved(w: World, c: Conn)
    requires Reachable(w) && Of(w, c)
    ensures var h := c.hist;
            && h.fromClient == h.hello + h.auth + h.request + h.toOrigin + c.rb.queue
            && |c.rb.queue| <= 2048
            && |h.fromClient| - |h.hello| - |h.auth| - |h.request| - |h.toOrigin| <= 2048
            && (h.toOrigin != [] ==> h.code == Some(0))
  {
    hide Core, Reachable, Of;
    OfCore(w, c);
    CoreConserved(c);
  }

  lemma CoreConserved(c: Conn)
    requires Core(c)
    ensures var h := c.hist;
            && h.fromClient == h.hello + h.auth + h.request + h.toOrigin + c.rb.queue
            && |c.rb.queue| <= 2048
            && (h.toOrigin != [] ==> h.code == Some(0))
  {
    hide Counted, Dialed, Scripted, Greeted, Authed, Requested;
  }

  /** What is forwarded is, byte for byte, what followed one greeting, the login asked for and one request. */
  lemma ForwardedIsPayload(w: World, c: Conn)
    requires Reachable(w) && Of(w, c) && c.hist.toOrigin != []
    ensures Hello.IsGreeting(c.hist.hello)
    ensures c.hist.method_ == Some(Hello.Choose(c.hist.hello[2..]))
    ensures if c.hist.method_ == Some(2) then
              exists u, p :: Auth.Credential(u) && Auth.Credential(p) && c.hist.auth == Auth.Encode(u, p)
                             && u in c.hist.users && c.hist.users[u] == p
            else c.hist.method_ == Some(0) && c.hist.auth == []
    ensures exists m: Requests.Message :: m.addr.Valid() && m.cmd == Requests.CONNECT && c.hist.request == Requests.Encode(m)
    ensures c.hist.hello + c.hist.auth + c.hist.request + c.hist.toOrigin <= c.hist.fromClient
  {
    hide Core, Reachable, Of, Gate, Hello.IsGreeting, Hello.Choose, Auth.Encode;
    OfCore(w, c);
    CoreConserved(c);
    CoreGreeted(c);
    GateMeans(c);
    if c.hist.method_ != Some(2) {
      NoLoginUnasked(c);
    }
    RequestEncodes(c);
    var h := c.hist;
    assert h.fromClient[..|h.hello + h.auth + h.request + h.toOrigin|] == h.hello + h.auth + h.request + h.toOrigin;
  }

  lemma NoLoginUnasked(c: Conn)
    requires Core(c) && c.hist.method_ != Some(2)
    ensures c.hist.auth == []
  {
    hide Counted, Dialed, Books, Login, Requested, Greeted, Auth.Taken;
  }

  lemma CoreGreeted(c: Conn)
    requires Core(c) && c.hist.code.Some?
    ensures Hello.IsGreeting(c.hist.hello) && c.hist.method_ == Some(Hello.Choose(c.hist.hello[2..]))
    ensures Gate(c.hist)
  {
    hide Counted, Dialed, Books, Login, Wanted, CodeFits, IsReply, Hello.IsGreeting, Hello.Choose;
  }

  lemma CoreGate(c: Conn)
    requires Core(c)
    ensures c.hist.auth != [] && Gate(c.hist) ==> c.hist.status.Some?
    ensures c.hist.status.Some? ==> Login(c.hist).state.Done? && Auth.Taken(Auth.Initial(), c.hist.auth) == |c.hist.auth|
  {
    hide Counted, Dialed, Books, Login, Requested, Greeted, Auth.Taken;
  }

  lemma LoginEncodes(c: Conn)
    requires Login(c.hist).state.Done? && Auth.Taken(Auth.Initial(), c.hist.auth) == |c.hist.auth|
    ensures var p := Login(c.hist);
            Auth.Credential(p.Username()) && Auth.Credential(p.Password()) && c.hist.auth == Auth.Encode(p.Username(), p.Password())
  {
    hide Incremental.Feed, Incremental.Consumed;
    Auth.FeedSeen(Auth.Initial(), c.hist.auth);
    assert c.hist.auth[..|c.hist.auth|] == c.hist.auth;
  }

  lemma RequestEncodes(c: Conn)
    requires Core(c) && c.hist.code == Some(Requests.SUCCEEDED)
    ensures exists m: Requests.Message :: m.addr.Valid() && m.cmd == Requests.CONNECT && c.hist.request == Requests.Encode(m)
  {
    assert Requests.Taken(Requests.Initial(), c.hist.request) == |c.hist.request| by {
      hide Counted, Dialed, Books, Greeted, Authed, Relayed, Wanted, Requests.Taken;
    }
    SuccessWanted(c);
    hide Core, Incremental.Feed, Incremental.Consumed;
    Requests.DoneIsEncoding(c.hist.request);
    assert c.hist.request[..|c.hist.request|] == c.hist.request;
    var m := Requests.Fields(Wanted(c.hist));
    assert m.addr.Valid() && m.cmd == Requests.CONNECT && c.hist.request == Requests.Encode(m);
  }

  lemma SuccessWanted(c: Conn)
    requires Core(c) && c.hist.code == Some(Requests.SUCCEEDED)
    ensures var p := Wanted(c.hist); p.state.Done? && p.Known() && p.cmd == Requests.CONNECT
  {
    hide Counted, Dialed, Books, Greeted, Authed, Relayed, Wanted, Requests.Taken;
  }

  // ---------------------------------------------------------------- the gate

  /** Whoever is past the gate offered method 0, or offered method 2 and gave a password that the user map had. */
  ghost predicate LetThrough(h: History) {
    && Hello.IsGreeting(h.hello) && h.method_ == Some(Hello.Choose(h.hello[2..]))
    && (h.method_ == Some(0)
        || (h.method_ == Some(2)
            && exists u, p :: Auth.Credential(u) && Auth.Credential(p) && h.auth == Auth.Encode(u, p)
                              && u in h.users && h.users[u] == p))
  }

  /** No connection is in REQUEST_READ or a later state, or has had a request parsed or forwarded, without that. */
  lemma AuthenticationGate(w: World, a: nat)
    requires Reachable(w) && a in w.live
    requires StateOf(w.live[a]) in {RequestRead, Resolving, State.Connecting, RequestWrite, Copy}
    ensures LetThrough(w.live[a].hist)
  {
    hide Reachable;
    LiveInv(w, a);
    PastGate(w.live[a]);
    GateMeans(w.live[a]);
  }

  lemma PastGate(c: Conn)
    requires Inv(c) && StateOf(c) in {RequestRead, Resolving, State.Connecting, RequestWrite, Copy}
    ensures Core(c) && Gate(c.hist)
  {
    hide Counted, Dialed, Books, Greeted, Authed, Login, Wanted, CodeFits, IsReply;
  }

  lemma GateMeans(c: Conn)
    requires Core(c) && Gate(c.hist)
    ensures LetThrough(c.hist)
  {
    assert Greeted(c.hist) && Authed(c.hist) by {
      hide Counted, Dialed, Books, Greeted, Authed, Requested, Relayed;
    }
    CoreGate(c);
    hide Core, Login;
    if c.hist.method_ != Some(0) {
      LoginEncodes(c);
      var p := Login(c.hist);
      assert Knows(c.hist.users, p.Username(), p.Password());
    }
  }

  /** The same for what has been read, answered or forwarded, also by connections that are over. */
  lemma NothingWithoutGate(w: World, c: Conn)
    requires Reachable(w) && Of(w, c)
    requires c.hist.request != [] || c.hist.code.Some? || c.hist.toOrigin != [] || c.hist.fromOrigin != []
    ensures LetThrough(c.hist)
  {
    hide Reachable, Of;
    OfCore(w, c);
    assert Gate(c.hist) by {
      hide Counted, Dialed, Books, Greeted, Authed, Login, Wanted, CodeFits, IsReply, Requests.Taken;
    }
    hide Core, Gate, LetThrough;
    GateMeans(c);
  }

  // ---------------------------------------------------------------- holders, pool, metrics

  /** The reference count is the number of holders; an object is retired once, when nobody holds it any more. */
  lemma CountIsHolders(w: World)
    requires Reachable(w)
    ensures forall a | a in w.live :: w.live[a].references == Holders(w.live[a]) && w.live[a].retired == 0
    ensures forall i | 0 <= i < |w.closed| :: Holders(w.closed[i]) == 0 && w.closed[i].retired == 1
  {
    hide Reachable;
    forall a | a in w.live
      ensures w.live[a].references == Holders(w.live[a]) && w.live[a].retired == 0
    {
      LiveInv(w, a);
      hide Books, Facts, Dialed, Resting, Registered, Holders;
    }
    hide Inv, Core, Connected, Listed, Attached, Queued, Pooled;
    ReachableSound(w);
  }

  /**
   * The pool holds at most 50 objects, none twice and none that is alive; the metrics count the live
   * and the retired; the main loop's exit test succeeds exactly when no connection is left, and then
   * no descriptor of one is registered and no job is queued.
   */
  lemma PoolAndMetrics(w: World)
    requires Reachable(w)
    ensures |w.pool| <= 50
    ensures forall i, j | 0 <= i < j < |w.pool| :: w.pool[i] != w.pool[j]
    ensures forall a | a in w.pool :: a !in w.live
    ensures w.concurrent == |w.live| && w.historic == w.concurrent + |w.closed|
    ensures w.concurrent == 0 <==> w.live == map[]
    ensures w.concurrent == 0 ==> w.jobs == [] && forall fd | fd in w.table :: !w.table[fd].handler.SocksClient?
  {
    hide Inv, Holders, Rows, Reachable, Gone, Connected, Listed;
    ReachableSound(w);
    assert |w.live| == 0 <==> w.live == map[];
    if w.jobs != [] {
      assert w.jobs[0].owner in w.live;
    }
  }

  // ---------------------------------------------------------------- failover and the log

  /**
   * The addresses tried are the first IPv4 and IPv6 ones of the list, in its order and each once. When a
   * failure is answered none is left, unless the mark says that SO_ERROR could not be read.
   */
  lemma TriedSoFar(w: World, c: Conn)
    requires Reachable(w) && Of(w, c)
    ensures c.hist.tried <= IpOnly(c.resolution)
    ensures c.hist.tried + IpOnly(c.remaining) == IpOnly(c.resolution)
    ensures c.hist.code.Some? && c.hist.code.value != Requests.SUCCEEDED && !c.hist.probeFailed ==>
              c.hist.tried == IpOnly(c.resolution)
  {
    hide Core, Reachable, Of;
    OfCore(w, c);
    CoreTried(c);
  }

  lemma CoreTried(c: Conn)
    requires Core(c)
    ensures c.hist.tried + IpOnly(c.remaining) == IpOnly(c.resolution)
    ensures c.hist.tried <= IpOnly(c.resolution)
    ensures c.hist.code.Some? && c.hist.code.value != Requests.SUCCEEDED && !c.hist.probeFailed ==>
              c.hist.tried == IpOnly(c.resolution)
  {
    hide Counted, Books, Facts, IpOnly;
    var h := c.hist;
    assert (h.tried + IpOnly(c.remaining))[..|h.tried|] == h.tried;
  }

  /**
   * At most one entry in the access log for a connection. Once the reply is made there is exactly one,
   * with the status of the reply, unless the mark says that a later attempt connected at once.
   */
  lemma LoggedSoFar(w: World, c: Conn)
    requires Reachable(w) && Of(w, c)
    ensures |c.hist.log| <= 1
    ensures c.hist.code.None? ==> c.hist.log == [] && !c.hist.retriedAtOnce
    ensures c.hist.code.Some? ==> (|c.hist.log| == 1 <==> !c.hist.retriedAtOnce)
    ensures c.hist.code.Some? && c.hist.code.value != Requests.SUCCEEDED ==> |c.hist.log| == 1
    ensures |c.hist.log| == 1 ==> c.hist.log[0].status == LogStatus(c.hist.code.value)
  {
    hide Core, Reachable, Of;
    OfCore(w, c);
    CoreLogged(c);
  }

  /** The status in the log tells the reply code. */
  lemma StatusTellsCode(c: byte, d: byte)
    requires {c, d} <= {0, 1, 3, 4, 5, 7, 8} && LogStatus(c) == LogStatus(d)
    ensures c == d
  {
    assert |LogStatus(0)| == 2 && |LogStatus(1)| == 15 && |LogStatus(3)| == 19 && |LogStatus(4)| == 16
        && |LogStatus(5)| == 18 && |LogStatus(7)| == 21 && |LogStatus(8)| == 26;
  }

  lemma CoreLogged(c: Conn)
    requires Core(c)
    ensures LogOk(c)
  {
    hide Counted, Books, Facts, LogOk;
  }

  // ---------------------------------------------------------------- the relay

  /**
   * In COPY the selector watches each descriptor for exactly what its buffers allow, so each
   * direction always has an event that may happen.
   */
  lemma RelayNeverStalls(w: World, a: nat)
    requires Reachable(w) && a in w.live && w.live[a].current == Some(Copy)
    ensures var c := w.live[a];
            && c.clientFd in w.table && c.originFd in w.table && c.clientFd != c.originFd
            && var client, origin := w.table[c.clientFd].interest, w.table[c.originFd].interest;
            && (client.read <==> |c.rb.queue| < 2048) && (origin.write <==> c.rb.queue != [])
            && (origin.read <==> |c.wb.queue| < 2048) && (client.write <==> c.wb.queue != [])
            && (client.read || origin.write) && (origin.read || client.write)
  {
    hide Reachable, Inv, Holders, Rows;
    LiveInv(w, a);
    var c := w.live[a];
    CopyExact(a, c);
    RowInTable(w, a, c.clientFd);
    RowInTable(w, a, c.originFd);
  }

  lemma RowInTable(w: World, a: nat, fd: int)
    requires Reachable(w) && a in w.live && fd in Rows(a, w.live[a])
    ensures fd in w.table && w.table[fd] == Rows(a, w.live[a])[fd]
  {
    hide Reachable, Inv, Holders, Rows, Connected, Attached, Queued, Pooled, Metered;
    ReachableSound(w);
  }

  lemma CopyExact(a: nat, c: Conn)
    requires Inv(c) && c.current == Some(Copy)
    ensures c.clientFd != c.originFd && |c.rb.queue| <= 2048 && |c.wb.queue| <= 2048
    ensures c.clientFd in Rows(a, c) && c.originFd in Rows(a, c)
    ensures Rows(a, c)[c.clientFd].interest == Interest(|c.rb.queue| < 2048, c.wb.queue != [])
    ensures Rows(a, c)[c.originFd].interest == Interest(|c.wb.queue| < 2048, c.rb.queue != [])
  {
    hide Counted, Facts, Dialed, Conserved, Scripted;
  }

  // ---------------------------------------------------------------- nothing is taken back

  /** What was, is a beginning of what is; a password that was checked since was checked against these users. */
  ghost predicate Later(users: map<seq<byte>, seq<byte>>, c: Conn, d: Conn) {
    Grows(c.hist, d.hist) && (Logins.SameCheck(c, d) || (d.hist.status.Some? && d.hist.users == users))
  }

  lemma LaterSame(users: map<seq<byte>, seq<byte>>, c: Conn)
    ensures Later(users, c, c)
  {
  }

  /**
   * No action rewrites what was seen on a wire, parsed, tried, logged or answered, or checks a password
   * against other users than the present ones; closed connections stay as they were.
   */
  lemma StepFollows(w: World, action: Action, a: nat)
    requires a in w.live && Sound(w) && Possible(w, action)
    ensures var r := Step(w, action); r.Goes? && Became(w, r.w, a, NextOf(w, action, a))
    ensures NextOf(w, action, a).clientFd == w.live[a].clientFd
    ensures Later(w.users, w.live[a], NextOf(w, action, a))
  {
    hide Sound, Step, Later, Dispatch, Grows, Became, Resolved, ResolverReleases, FdsOf, Open, Freed, Accepts;
    NextIs(w, action, a);
    var c := w.live[a];
    LaterSame(w.users, c);
    match action
    case Readiness(fd, kind, answers) =>
      if w.table[fd].handler.SocksClient? && w.table[fd].data == a && Dispatch(c, kind, fd, answers.k).Alive? {
        DispatchLater(w.users, c, kind, fd, answers.k);
      }
    case Resolve(address, failed, list, memory) => ResolvedLater(w.users, c, failed, list, memory);
    case DropReference(address) => ReleasesLater(w.users, c);
    case Deliver(k) =>
      if Dispatch(c, Block, w.jobs[0].fd, k).Alive? {
        DispatchLater(w.users, c, Block, w.jobs[0].fd, k);
      }
    case Shutdown =>
  }

  lemma DispatchLater(users: map<seq<byte>, seq<byte>>, c: Conn, kind: EventKind, fd: int, k: Kernel)
    requires Dispatch(c, kind, fd, k).Alive? && k.users == users
    ensures Later(users, c, Dispatch(c, kind, fd, k).c)
  {
    hide Grows, Event;
    Logins.EventChecks(c, kind, fd, k);
  }

  lemma ResolvedLater(users: map<seq<byte>, seq<byte>>, c: Conn, failed: bool, list: seq<AddrInfo>, memory: bool)
    ensures Later(users, c, Resolved(c, failed, list, memory)) && Resolved(c, failed, list, memory).clientFd == c.clientFd
  {
  }

  lemma ReleasesLater(users: map<seq<byte>, seq<byte>>, c: Conn)
    ensures Later(users, c, ResolverReleases(c)) && ResolverReleases(c).clientFd == c.clientFd
  {
  }
}
