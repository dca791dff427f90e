/** Every action of the proxy machine keeps its invariant and aborts nowhere. */
module ProxySteps {
  import opened Common
  import opened Selectors
  import opened Connections
  import opened ConnectionLaws
  import opened ConnectionEvents
  import opened Proxy
  import ConnectionSteps
  import Hello

  // ---------------------------------------------------------------- committing one connection

  /** What an event may have done to the descriptors of a connection. */
  ghost predicate Continues(w: World, a: nat, c: Conn) {
    && a in w.live && c.clientFd == w.live[a].clientFd
    && (forall fd | fd in Rows(a, c) :: !InvalidFd(fd) && (fd in Rows(a, w.live[a]) || fd !in w.table))
  }

  /** Rows depend on the two registrations alone. */
  lemma SameRows(a: nat, c: Conn, d: Conn)
    requires d.clientFd == c.clientFd && d.originFd == c.originFd
    requires d.clientReg == c.clientReg && d.originReg == c.originReg
    ensures Rows(a, d) == Rows(a, c)
  {
  }

  lemma RowsOf(a: nat, c: Conn, fd: int)
    ensures fd in Rows(a, c) ==> Rows(a, c)[fd].data == a && Rows(a, c)[fd].handler == SocksClient
  {
  }

  /** Connections do not share descriptors. */
  lemma RowsApart(w: World, a: nat, b: nat, fd: int)
    requires Listed(w) && a in w.live && b in w.live && fd in Rows(a, w.live[a]) && fd in Rows(b, w.live[b])
    ensures a == b
  {
    RowsOf(a, w.live[a], fd);
    RowsOf(b, w.live[b], fd);
    assert w.table[fd] == Rows(a, w.live[a])[fd];
    assert w.table[fd] == Rows(b, w.live[b])[fd];
  }

  lemma CommitTable(w: World, a: nat, c: Conn, fd: int)
    requires a in w.live
    ensures var t := Commit(w, a, c).table;
            && (fd in t <==> fd in Rows(a, c) || (fd in w.table && fd !in Rows(a, w.live[a])))
            && (fd in Rows(a, c) ==> t[fd] == Rows(a, c)[fd])
            && (fd !in Rows(a, c) && fd in t ==> t[fd] == w.table[fd])
  {
  }

  lemma CommitRest(w: World, a: nat, c: Conn)
    requires a in w.live
    ensures var v := Commit(w, a, c);
            && v.unwatched == w.unwatched && v.jobs == w.jobs && v.listening == w.listening
            && v.server == w.server && v.monitor == w.monitor && v.historic == w.historic
            && v.live == (if c.retired > 0 then w.live - {a} else w.live[a := c])
            && v.closed == (if c.retired > 0 then w.closed + [c] else w.closed)
            && v.pool == (if c.retired > 0 && |w.pool| < MAX_POOL then [a] + w.pool else w.pool)
            && v.concurrent == (if c.retired > 0 then if w.concurrent > 0 then w.concurrent - 1 else 0 else w.concurrent)
  {
    hide Rows;
  }

  lemma CommitListed(w: World, a: nat, c: Conn)
    requires Listed(w) && Continues(w, a, c) && (c.retired > 0 ==> Rows(a, c) == map[])
    ensures Listed(Commit(w, a, c))
  {
    var v := Commit(w, a, c);
    CommitRest(w, a, c);
    forall b, fd | b in v.live && fd in Rows(b, v.live[b])
      ensures fd in v.table && v.table[fd] == Rows(b, v.live[b])[fd]
    {
      CommitTable(w, a, c, fd);
      hide Rows, Commit;
      if b != a {
        assert v.live[b] == w.live[b];
        if fd in Rows(a, w.live[a]) {
          RowsApart(w, a, b, fd);
        }
      }
    }
  }

  lemma CommitAttached(w: World, a: nat, c: Conn)
    requires Listed(w) && Attached(w) && Continues(w, a, c) && (c.retired > 0 ==> Rows(a, c) == map[])
    ensures Attached(Commit(w, a, c))
  {
    var v := Commit(w, a, c);
    CommitRest(w, a, c);
    forall fd
      ensures fd in v.table && v.table[fd].handler.SocksClient? ==>
              v.table[fd].data in v.live && fd in Rows(v.table[fd].data, v.live[v.table[fd].data])
      ensures fd in v.table ==> !InvalidFd(fd)
      ensures fd in v.table && (v.table[fd].handler.SocksListener? || v.table[fd].handler.MonitorListener?) ==>
              w.listening && v.table[fd].interest == READ && fd in {w.server, w.monitor}
    {
      CommitTable(w, a, c, fd);
      RowsOf(a, c, fd);
      hide Rows, Commit;
    }
    forall fd | fd in w.table && !w.table[fd].handler.SocksClient?
      ensures fd in v.table && v.table[fd] == w.table[fd]
    {
      CommitTable(w, a, c, fd);
      RowsOf(a, w.live[a], fd);
      hide Rows, Commit;
    }
  }

  lemma PoolPush(w: World, a: nat)
    requires Pooled(w) && a in w.live && |w.pool| < MAX_POOL
    ensures Pooled(w.(live := w.live - {a}, pool := [a] + w.pool))
  {
    var p := [a] + w.pool;
    assert forall i | 1 <= i < |p| :: p[i] == w.pool[i - 1];
  }

  lemma CommitPooled(w: World, a: nat, c: Conn)
    requires Pooled(w) && a in w.live
    ensures Pooled(Commit(w, a, c))
  {
    CommitRest(w, a, c);
    hide Commit;
    if |w.pool| < MAX_POOL {
      PoolPush(w, a);
    }
  }

  lemma CommitMetered(w: World, a: nat, c: Conn)
    requires Metered(w) && a in w.live && (c.retired > 0 ==> Gone(c))
    ensures Metered(Commit(w, a, c))
  {
    CommitRest(w, a, c);
    hide Commit, Gone;
    var v := Commit(w, a, c);
    if c.retired > 0 {
      assert v.live.Keys == w.live.Keys - {a} && |v.live| == |v.live.Keys| && |w.live| == |w.live.Keys|;
    } else {
      assert v.live.Keys == w.live.Keys && |v.live| == |v.live.Keys| && |w.live| == |w.live.Keys|;
    }
  }

  lemma CommitConnected(w: World, a: nat, c: Conn)
    requires a in w.live && Inv(c) && (forall b | b in w.live && b != a :: Inv(w.live[b]) && Holders(w.live[b]) > 0)
    ensures Connected(Commit(w, a, c))
  {
    CommitRest(w, a, c);
    RetiredMeansGone(c);
    hide Commit, Inv, Holders;
  }

  lemma RetiredMeansGone(c: Conn)
    requires Inv(c)
    ensures c.retired > 0 <==> Holders(c) == 0
    ensures c.retired > 0 ==> !c.job
    ensures c.retired > 0 ==> Gone(c) && forall a :: Rows(a, c) == map[]
  {
    hide Books, Facts, Dialed, Resting;
  }

  lemma CommitQueued(w: World, a: nat, c: Conn)
    requires Queued(w) && a in w.live && c.job == w.live[a].job && c.clientFd == w.live[a].clientFd
    requires c.retired > 0 ==> !c.job
    ensures Queued(Commit(w, a, c))
  {
    CommitRest(w, a, c);
    hide Commit;
    var v := Commit(w, a, c);
    hide HasJob;
  }

  lemma CommitSound(w: World, a: nat, c: Conn)
    requires Listed(w) && Attached(w) && Queued(w) && Pooled(w) && Metered(w)
    requires a in w.live && (forall b | b in w.live && b != a :: Inv(w.live[b]) && Holders(w.live[b]) > 0)
    requires Inv(c) && Continues(w, a, c) && c.job == w.live[a].job
    ensures Sound(Commit(w, a, c))
  {
    RetiredMeansGone(c);
    CommitConnected(w, a, c);
    hide Commit, Rows, Inv, Gone, Holders;
    CommitListed(w, a, c);
    CommitAttached(w, a, c);
    CommitQueued(w, a, c);
    CommitPooled(w, a, c);
    CommitMetered(w, a, c);
  }

  // ---------------------------------------------------------------- the actions

  /** What the dispatcher found in the table is a live connection that asked for this event. */
  lemma ServedIsEnabled(w: World, fd: int, kind: EventKind)
    requires Connected(w) && Listed(w) && Attached(w) && fd in w.table && w.table[fd].handler.SocksClient?
    requires if kind.Read? then w.table[fd].interest.read else kind.Write? && w.table[fd].interest.write
    ensures w.table[fd].data in w.live && Enabled(w.live[w.table[fd].data], kind, fd) && !Over(w.live[w.table[fd].data])
  {
    hide Core, Resting;
    var a := w.table[fd].data;
    assert fd in Rows(a, w.live[a]) && w.table[fd] == Rows(a, w.live[a])[fd];
  }

  /** The attempts of a callback reuse no open descriptor but the origin's, which is closed by then. */
  lemma EventContinues(w: World, a: nat, c: Conn, attempts: seq<Attempt>)
    requires a in w.live && Inv(w.live[a]) && !Over(w.live[a]) && Inv(c)
    requires FdsOf(attempts) !! Open(w) - {w.live[a].originFd}
    requires c.clientFd == w.live[a].clientFd
    requires c.originFd == w.live[a].originFd || c.originFd == -1 || c.originFd in FdsOf(attempts)
    ensures Continues(w, a, c)
  {
    hide Core, Resting, FdsOf;
  }

  lemma AttemptsFresh(w: World, a: nat, attempts: seq<Attempt>)
    requires Listed(w) && a in w.live && Inv(w.live[a]) && !Over(w.live[a])
    requires FdsOf(attempts) !! Open(w) - {w.live[a].originFd}
    ensures ConnectionSteps.Fresh(w.live[a], attempts)
  {
    hide Core, Resting;
    var c := w.live[a];
    assert c.clientFd in Rows(a, c);
    forall x | x in attempts && (x.InProgress? || x.Immediate?)
      ensures x.fd != c.clientFd
    {
      assert x.fd in FdsOf(attempts);
    }
  }

  /** A descriptor of a SOCKS client is served. */
  lemma ServeOk(w: World, fd: int, kind: EventKind, answers: Answers)
    requires Sound(w) && Possible(w, Readiness(fd, kind, answers)) && w.table[fd].handler.SocksClient?
    ensures w.table[fd].data in w.live
    ensures var r := Serve(w, w.table[fd].data, kind, fd, answers.k); r.Goes? && Sound(r.w)
  {
    hide Inv, Holders, Rows, Commit, Dispatch, Enabled, Over, FdsOf, Open;
    var a := w.table[fd].data;
    var k := answers.k;
    ServedIsEnabled(w, fd, kind);
    assert FdsOf(k.attempts) !! Open(w) - {w.live[a].originFd};
    hide Freed;
    AttemptsFresh(w, a, k.attempts);
    EventOk(w.live[a], kind, fd, k);
    var c := Dispatch(w.live[a], kind, fd, k).c;
    EventContinues(w, a, c, k.attempts);
    CommitSound(w, a, c);
  }

  /** No row is watched for an operation that its handler table lacks: listeners are watched for reading only. */
  lemma HandlerSet(w: World, fd: int, kind: EventKind)
    requires Sound(w) && fd in w.table && !kind.Block?
    requires if kind.Read? then w.table[fd].interest.read else w.table[fd].interest.write
    ensures HasHandler(w.table[fd].handler, kind)
  {
    hide Connected, Listed, Queued, Pooled, Metered;
  }

  /** A queued job names the descriptor of the connection that queued it, which is still waiting for it. */
  lemma JobFindsOwner(w: World, i: nat)
    requires Sound(w) && i < |w.jobs|
    ensures var j := w.jobs[i];
            && j.owner in w.live && j.fd in w.table
            && w.table[j.fd].handler.SocksClient? && w.table[j.fd].data == j.owner
            && w.live[j.owner].current == Some(Resolving) && !Over(w.live[j.owner])
            && Enabled(w.live[j.owner], Block, j.fd)
  {
    hide Core;
    var j := w.jobs[i];
    var c := w.live[j.owner];
    JobMeansResolving(c);
    assert j.fd in Rows(j.owner, c);
    RowsOf(j.owner, c, j.fd);
  }

  lemma JobMeansResolving(c: Conn)
    requires Inv(c) && c.job
    ensures c.current == Some(Resolving) && c.clientReg.Some?
  {
    hide Core, Wanted, Login, Hello.Describes;
  }

  lemma DeliverOk(w: World, k: Kernel)
    requires Sound(w) && Possible(w, Deliver(k))
    ensures Step(w, Deliver(k)).Goes? && Sound(Step(w, Deliver(k)).w)
  {
    hide Inv, Holders, Dispatch, Enabled, Over, Rows, Commit, Listed, Attached, Queued, Pooled, Metered;
    var j := w.jobs[0];
    var a := j.owner;
    JobFindsOwner(w, 0);
    OthersLive(w, a);
    AttemptsFresh(w, a, k.attempts);
    EventOk(w.live[a], Block, j.fd, k);
    var c := Dispatch(w.live[a], Block, j.fd, k).c;
    var v := w.(jobs := w.jobs[1..]);
    var u := JobTaken(w);
    JobTakenRows(w);
    JobTakenQueue(w);
    JobTakenCounts(w);
    EventContinues(w, a, c, k.attempts);
    CommitForgets(v, a, c);
    ContinuesTaken(w, a, c);
    CommitSound(u, a, c);
  }

  lemma OthersLive(w: World, a: nat)
    requires Connected(w) && a in w.live
    ensures Inv(w.live[a])
    ensures forall b | b in w.live && b != a :: Inv(w.live[b]) && Holders(w.live[b]) > 0
  {
    hide Inv, Holders;
  }

  lemma ContinuesTaken(w: World, a: nat, c: Conn)
    requires w.jobs != [] && w.jobs[0].owner == a && Continues(w, a, c)
    ensures Continues(JobTaken(w), a, c)
  {
    CommitForgets(w, a, c);
    hide Rows, Commit;
  }

  /** Committing replaces the connection: what it was before does not matter, only its rows. */
  lemma CommitForgets(w: World, a: nat, c: Conn)
    requires a in w.live
    ensures Commit(w, a, c) == Commit(w.(live := w.live[a := w.live[a].(job := false)]), a, c)
    ensures Rows(a, w.live[a]) == Rows(a, w.live[a].(job := false))
  {
  }

  /** The world with its first job taken off the queue and the mark of that job's connection cleared. */
  function JobTaken(w: World): World
    requires w.jobs != [] && w.jobs[0].owner in w.live
  {
    var a := w.jobs[0].owner;
    w.(jobs := w.jobs[1..], live := w.live[a := w.live[a].(job := false)])
  }

  lemma JobTakenRows(w: World)
    requires w.jobs != [] && w.jobs[0].owner in w.live && Listed(w) && Attached(w)
    ensures Listed(JobTaken(w)) && Attached(JobTaken(w))
  {
    hide Rows;
    var u, a := JobTaken(w), w.jobs[0].owner;
    SameRows(a, w.live[a], u.live[a]);
    assert forall b | b in u.live :: Rows(b, u.live[b]) == Rows(b, w.live[b]);
    assert Listed(u) by { hide Attached; }
    assert Attached(u) by { hide Listed; }
  }

  lemma JobTakenQueue(w: World)
    requires w.jobs != [] && Queued(w)
    ensures w.jobs[0].owner in w.live && Queued(JobTaken(w))
  {
    var a := w.jobs[0].owner;
    var u := JobTaken(w);
    assert forall i | 0 <= i < |u.jobs| :: u.jobs[i] == w.jobs[i + 1];
    forall b | b in u.live && u.live[b].job
      ensures HasJob(u.jobs, b)
    {
      assert b != a && w.live[b].job;
      var i :| 0 <= i < |w.jobs| && w.jobs[i].owner == b;
      assert u.jobs[i - 1].owner == b;
    }
  }

  lemma JobTakenCounts(w: World)
    requires w.jobs != [] && w.jobs[0].owner in w.live && Pooled(w) && Metered(w)
    ensures Pooled(JobTaken(w)) && Metered(JobTaken(w))
  {
    hide Gone;
    var u := JobTaken(w);
    assert u.live.Keys == w.live.Keys && |u.live| == |u.live.Keys| && |w.live| == |w.live.Keys|;
  }

  // ---------------------------------------------------------------- the other actions

  /** The object that an accepted connection gets is nobody else's. */
  lemma AddressFree(w: World, address: nat)
    requires Pooled(w) && (w.pool == [] ==> address !in w.live)
    ensures (if w.pool == [] then address else w.pool[0]) !in w.live
  {
  }

  lemma PoolPop(w: World)
    requires Pooled(w) && w.pool != []
    ensures Pooled(w.(pool := w.pool[1..]))
    ensures w.pool[0] !in w.pool[1..]
  {
  }

  /** A connection whose descriptor the selector refuses is over before anything was said. */
  lemma RefusedIsGone(fd: int)
    ensures Gone(Release(Opened(fd).(clientReg := None)))
  {
  }

  function Refusing(w: World, a: nat, fd: int): World {
    Retire(w.(historic := w.historic + 1, concurrent := w.concurrent + 1), a, Release(Opened(fd).(clientReg := None)))
  }

  lemma RefusedOk(w: World, a: nat, fd: int)
    requires Sound(w) && a !in w.live && a !in w.pool
    ensures Sound(Refusing(w, a, fd))
  {
    hide Inv, Holders, Rows, Opened, Gone, Release, Connected, Listed, Attached, Queued, Pooled, Metered, Refusing;
    RefusedRest(w, a, fd);
    RefusedMeters(w, a, fd);
    PushedPool(w, a, Refusing(w, a, fd));
  }

  lemma RefusedShape(w: World, a: nat, fd: int)
    requires a !in w.live
    ensures Refusing(w, a, fd) == w.(closed := w.closed + [Release(Opened(fd).(clientReg := None))],
              historic := w.historic + 1, pool := if |w.pool| < MAX_POOL then [a] + w.pool else w.pool)
  {
    hide Opened, Release;
    assert w.live - {a} == w.live;
  }

  lemma RefusedRest(w: World, a: nat, fd: int)
    requires Connected(w) && Listed(w) && Attached(w) && Queued(w) && a !in w.live
    ensures var v := Refusing(w, a, fd);
            Connected(v) && Listed(v) && Attached(v) && Queued(v) && v.live == w.live
            && v.pool == if |w.pool| < MAX_POOL then [a] + w.pool else w.pool
  {
    hide Inv, Holders, Rows, Refusing, Opened, Release;
    RefusedShape(w, a, fd);
  }

  lemma RefusedMeters(w: World, a: nat, fd: int)
    requires Metered(w) && a !in w.live
    ensures Metered(Refusing(w, a, fd))
  {
    hide Gone, Refusing, Opened, Release;
    RefusedShape(w, a, fd);
    RefusedIsGone(fd);
  }

  lemma PushedPool(w: World, a: nat, v: World)
    requires Pooled(w) && a !in w.live && a !in w.pool
    requires v.live == w.live && v.pool == if |w.pool| < MAX_POOL then [a] + w.pool else w.pool
    ensures Pooled(v)
  {
    var p := [a] + w.pool;
    assert forall i | 1 <= i < |p| :: p[i] == w.pool[i - 1];
  }

  function Registering(w: World, a: nat, fd: int): World {
    w.(historic := w.historic + 1, concurrent := w.concurrent + 1,
       live := w.live[a := Opened(fd)], table := w.table[fd := Item(READ, SocksClient, a)])
  }

  lemma RegisteredOk(w: World, a: nat, fd: int)
    requires Sound(w) && a !in w.live && a !in w.pool
    requires !InvalidFd(fd) && fd !in w.table && w.listening
    ensures Sound(Registering(w, a, fd))
  {
    hide Registering, Connected, Listed, Attached, Queued, Pooled, Metered;
    RegisteredConnected(w, a, fd);
    RegisteredCounts(w, a, fd);
    RegisteredRows(w, a, fd);
  }

  lemma OpenedHeld(fd: int)
    ensures !Opened(fd).job && Holders(Opened(fd)) == 1
    ensures forall a :: Rows(a, Opened(fd)) == map[fd := Item(READ, SocksClient, a)]
  {
  }

  lemma RegisteredConnected(w: World, a: nat, fd: int)
    requires Connected(w) && Queued(w) && a !in w.live && !InvalidFd(fd)
    ensures Connected(Registering(w, a, fd)) && Queued(Registering(w, a, fd))
  {
    hide Inv, Holders, Opened;
    OpenedInv(fd);
    OpenedHeld(fd);
    assert Connected(Registering(w, a, fd)) by { hide Queued; }
    assert Queued(Registering(w, a, fd)) by { hide Connected; }
  }

  lemma RegisteredCounts(w: World, a: nat, fd: int)
    requires Pooled(w) && Metered(w) && a !in w.live && a !in w.pool
    ensures Pooled(Registering(w, a, fd)) && Metered(Registering(w, a, fd))
  {
    hide Opened, Gone;
    var v := Registering(w, a, fd);
    assert v.live.Keys == w.live.Keys + {a} && |v.live| == |v.live.Keys| && |w.live| == |w.live.Keys|;
  }

  lemma RegisteredRows(w: World, a: nat, fd: int)
    requires Listed(w) && Attached(w) && a !in w.live && !InvalidFd(fd) && fd !in w.table && w.listening
    ensures Listed(Registering(w, a, fd)) && Attached(Registering(w, a, fd))
  {
    hide Rows, Opened;
    var v := Registering(w, a, fd);
    OpenedHeld(fd);
    assert forall b | b in w.live :: Rows(b, v.live[b]) == Rows(b, w.live[b]);
    assert Listed(v) by { hide Attached; }
    assert Attached(v) by { hide Listed; }
  }

  lemma PoppedSound(w: World)
    requires Sound(w) && w.pool != []
    ensures Sound(w.(pool := w.pool[1..]))
  {
    hide Inv, Holders, Rows, Gone;
    PoolPop(w);
  }

  lemma AcceptOk(w: World, answers: Answers)
    requires Sound(w) && w.listening && Accepts(w, answers)
    ensures Sound(AcceptClient(w, answers))
  {
    hide Inv, Holders, Rows, Opened, Gone, Sound, Retire, Release;
    var fd := answers.accepted;
    if fd >= 0 && answers.nonBlocking && (w.pool != [] || answers.memory) {
      assert Pooled(w) by { PoolOf(w); }
      AddressFree(w, answers.address);
      var a := if w.pool == [] then answers.address else w.pool[0];
      var u := w.(pool := if w.pool == [] then [] else w.pool[1..]);
      if w.pool != [] {
        PoolPop(w);
        PoppedSound(w);
      }
      assert w.pool == [] ==> u == w;
      if InvalidFd(fd) {
        RefusedOk(u, a, fd);
      } else {
        RegisteredOk(u, a, fd);
      }
    }
  }

  lemma PoolOf(w: World)
    requires Sound(w)
    ensures Pooled(w)
  {
  }

  /** The resolver thread stores the addresses and queues one job for the connection it works for. */
  lemma ResolveOk(w: World, a: nat, failed: bool, list: seq<AddrInfo>, memory: bool)
    requires a in w.live && w.live[a].resolver.Running? && (failed ==> list == []) && Sound(w)
    ensures Sound(w.(live := w.live[a := Resolved(w.live[a], failed, list, memory)],
                     jobs := if memory then [Job(w.live[a].clientFd, a)] + w.jobs else w.jobs))
  {
    hide Inv, Holders, Rows, Gone, Resolved, Listed, Attached, Queued, Pooled, Metered;
    var c := w.live[a];
    var d := Resolved(c, failed, list, memory);
    ResolvedShape(c, failed, list, memory);
    ResolvedOk(c, failed, list, memory);
    WaitingHasNoJob(c);
    SameRows(a, c, d);
    hide Connected;
    ReplacedOk(w, a, d, if memory then [Job(c.clientFd, a)] else []);
    assert [] + w.jobs == w.jobs;
  }

  lemma ResolvedShape(c: Conn, failed: bool, list: seq<AddrInfo>, memory: bool)
    requires c.resolver.Running?
    ensures var d := Resolved(c, failed, list, memory);
            && d.clientFd == c.clientFd && d.originFd == c.originFd && d.job == memory
            && d.clientReg == c.clientReg && d.originReg == c.originReg && Holders(d) == Holders(c)
  {
  }

  lemma WaitingHasNoJob(c: Conn)
    requires Inv(c) && c.resolver.Running?
    ensures !c.job
  {
    hide Core, Wanted, Login, Hello.Describes;
  }

  /** A connection changes in place, registering nothing, and puts at most one job in front of the queue. */
  lemma ReplacedOk(w: World, a: nat, d: Conn, more: seq<Job>)
    requires a in w.live && !w.live[a].job && d.clientFd == w.live[a].clientFd
    requires more == if d.job then [Job(d.clientFd, a)] else []
    requires Rows(a, d) == Rows(a, w.live[a]) && Inv(d) && Holders(d) > 0 && Sound(w)
    ensures Sound(w.(live := w.live[a := d], jobs := more + w.jobs))
  {
    hide Connected, Listed, Attached, Queued, Pooled, Metered, Rows, Inv, Holders;
    ReplacedConnected(w, a, d, more);
    ReplacedRows(w, a, d, more);
    ReplacedCounts(w, a, d, more);
    PushedQueue(w, a, d, more);
  }

  lemma ReplacedConnected(w: World, a: nat, d: Conn, more: seq<Job>)
    requires Connected(w) && Inv(d) && Holders(d) > 0
    ensures Connected(w.(live := w.live[a := d], jobs := more + w.jobs))
  {
    hide Inv, Holders;
  }

  lemma ReplacedRows(w: World, a: nat, d: Conn, more: seq<Job>)
    requires a in w.live && Rows(a, d) == Rows(a, w.live[a]) && Listed(w) && Attached(w)
    ensures var v := w.(live := w.live[a := d], jobs := more + w.jobs);
            Listed(v) && Attached(v)
  {
    hide Rows;
    var v := w.(live := w.live[a := d], jobs := more + w.jobs);
    assert forall b | b in w.live :: Rows(b, v.live[b]) == Rows(b, w.live[b]);
    assert Listed(v) by { hide Attached; }
    assert Attached(v) by { hide Listed; }
  }

  lemma ReplacedCounts(w: World, a: nat, d: Conn, more: seq<Job>)
    requires a in w.live && Pooled(w) && Metered(w)
    ensures var v := w.(live := w.live[a := d], jobs := more + w.jobs);
            Pooled(v) && Metered(v)
  {
    hide Gone;
    var v := w.(live := w.live[a := d], jobs := more + w.jobs);
    assert v.live.Keys == w.live.Keys && |v.live| == |v.live.Keys| && |w.live| == |w.live.Keys|;
  }

  lemma PushedQueue(w: World, a: nat, d: Conn, more: seq<Job>)
    requires a in w.live && !w.live[a].job && d.clientFd == w.live[a].clientFd && Queued(w)
    requires more == if d.job then [Job(d.clientFd, a)] else []
    ensures Queued(w.(live := w.live[a := d], jobs := more + w.jobs))
  {
    hide HasJob;
    PushedJobs(w.jobs, a, more, d);
    if d.job {
      PushedFirst(w, a, d, more + w.jobs);
    } else {
      assert more + w.jobs == w.jobs;
    }
  }

  /** A queue with one job more, in front, of a connection that had none. */
  lemma PushedFirst(w: World, a: nat, d: Conn, js: seq<Job>)
    requires a in w.live && !w.live[a].job && d.job && d.clientFd == w.live[a].clientFd && Queued(w)
    requires |js| == |w.jobs| + 1 && js[0] == Job(d.clientFd, a) && forall i | 1 <= i < |js| :: js[i] == w.jobs[i - 1]
    requires HasJob(js, a) && forall b | HasJob(w.jobs, b) :: HasJob(js, b)
    ensures Queued(w.(live := w.live[a := d], jobs := js))
  {
    hide HasJob;
  }

  lemma PushedJobs(jobs: seq<Job>, a: nat, more: seq<Job>, d: Conn)
    requires more == if d.job then [Job(d.clientFd, a)] else []
    ensures forall b | HasJob(jobs, b) :: HasJob(more + jobs, b)
    ensures d.job ==> HasJob(more + jobs, a)
  {
    if d.job {
      assert (more + jobs)[0].owner == a;
      assert HasJob(more + jobs, a);
    }
    hide HasJob;
    forall b | HasJob(jobs, b)
      ensures HasJob(more + jobs, b)
    {
      HasJobBehind(jobs, more, b);
    }
  }

  lemma HasJobBehind(jobs: seq<Job>, more: seq<Job>, a: nat)
    requires HasJob(jobs, a)
    ensures HasJob(more + jobs, a)
  {
    var i :| 0 <= i < |jobs| && jobs[i].owner == a;
    assert (more + jobs)[|more| + i].owner == a;
  }

  lemma ReleasesShape(c: Conn)
    ensures var d := ResolverReleases(c);
            && d.clientFd == c.clientFd && d.originFd == c.originFd && d.job == c.job
            && d.clientReg == c.clientReg && d.originReg == c.originReg
  {
  }

  lemma DropOk(w: World, a: nat)
    requires a in w.live && w.live[a].resolver.Notified? && Sound(w)
    ensures Sound(Commit(w, a, ResolverReleases(w.live[a])))
  {
    hide Inv, Holders, Rows, Commit, ResolverReleases, Queued, Pooled, Metered;
    var c := w.live[a];
    var d := ResolverReleases(c);
    ReleasesShape(c);
    ResolverReleasesOk(c);
    SameRows(a, c, d);
    assert Continues(w, a, d) by {
      assert forall fd | fd in Rows(a, d) :: fd in w.table && !InvalidFd(fd);
    }
    hide Continues, Listed, Attached;
    CommitSound(w, a, d);
  }

  /** Only rows of the SOCKS listener, the monitor and its clients are touched. */
  lemma OtherRowsOk(w: World, v: World)
    requires Sound(w)
    requires v == w.(table := v.table, unwatched := v.unwatched, listening := v.listening, users := v.users)
    requires forall fd | fd in w.table && w.table[fd].handler.SocksClient? :: fd in v.table && v.table[fd] == w.table[fd]
    requires forall fd | fd in v.table && v.table[fd].handler.SocksClient? :: fd in w.table && v.table[fd] == w.table[fd]
    requires forall fd | fd in v.table :: !InvalidFd(fd)
    requires forall fd | fd in v.table && (v.table[fd].handler.SocksListener? || v.table[fd].handler.MonitorListener?) ::
               v.listening && v.table[fd].interest == READ && fd in {w.server, w.monitor}
    requires v.listening ==>
               && v.server in v.table && v.table[v.server].handler.SocksListener?
               && v.monitor in v.table && v.table[v.monitor].handler.MonitorListener?
    ensures Sound(v)
  {
    hide Inv, Holders, Gone;
    forall a, fd | a in v.live && fd in Rows(a, v.live[a])
      ensures fd in v.table && v.table[fd] == Rows(a, v.live[a])[fd]
    {
      RowsOf(a, w.live[a], fd);
      hide Rows;
      assert fd in w.table && w.table[fd] == Rows(a, w.live[a])[fd];
    }
    hide Rows;
  }

  lemma MonitorOk(w: World, fd: int, answers: Answers)
    requires fd in w.table && w.table[fd].handler.MonitorClient? && Sound(w)
    ensures Sound(React(w, fd, answers))
  {
    hide Inv, Holders, Rows, Gone, Connected, Listed, Queued, Pooled, Metered;
    OtherRowsOk(w, React(w, fd, answers));
  }

  lemma AcceptMonitorOk(w: World, answers: Answers)
    requires answers.accepted !in Open(w) && Sound(w)
    ensures Sound(AcceptMonitor(w, answers))
  {
    hide Inv, Holders, Rows, Gone, Connected, Listed, Queued, Pooled, Metered;
    OtherRowsOk(w, AcceptMonitor(w, answers));
  }

  lemma ShutdownOk(w: World)
    requires w.listening && Sound(w)
    ensures Sound(Step(w, Shutdown).w)
  {
    hide Inv, Holders, Rows, Gone, Connected, Listed, Queued, Pooled, Metered;
    OtherRowsOk(w, Step(w, Shutdown).w);
  }

  lemma ListeningOf(w: World, fd: int)
    requires fd in w.table && w.table[fd].handler.SocksListener? && Sound(w)
    ensures w.listening
  {
    hide Connected, Listed, Queued, Pooled, Metered;
  }

  /** Whatever readiness the dispatcher finds, on any descriptor of the table. */
  lemma ReadyOk(w: World, fd: int, kind: EventKind, answers: Answers)
    requires Sound(w) && Possible(w, Readiness(fd, kind, answers))
    ensures var r := Step(w, Readiness(fd, kind, answers)); r.Goes? && Sound(r.w)
  {
    hide Sound, Serve, AcceptClient, AcceptMonitor, React, HasHandler, Accepts, FdsOf, Open, Freed;
    HandlerSet(w, fd, kind);
    match w.table[fd].handler
    case SocksListener =>
      ListeningOf(w, fd);
      AcceptOk(w, answers);
    case MonitorListener =>
      assert answers.accepted !in Open(w) by { AcceptedFresh(w, answers); }
      AcceptMonitorOk(w, answers);
    case SocksClient => ServeOk(w, fd, kind, answers);
    case MonitorClient => MonitorOk(w, fd, answers);
  }

  lemma AcceptedFresh(w: World, answers: Answers)
    requires Accepts(w, answers)
    ensures answers.accepted !in Open(w)
  {
  }

  // ---------------------------------------------------------------- every action

  lemma StartSound(server: int, monitor: int, users: map<seq<byte>, seq<byte>>)
    requires server != monitor && !InvalidFd(server) && !InvalidFd(monitor)
    ensures Sound(Start(server, monitor, users))
  {
  }

  /** Whatever may happen next, the proxy goes on, and its invariant holds again. */
  lemma StepOk(w: World, a: Action)
    requires Sound(w) && Possible(w, a)
    ensures Step(w, a).Goes? && Sound(Step(w, a).w)
  {
    hide Sound, CallHandler, Serve, Commit, Resolved, ResolverReleases;
    match a
    case Readiness(fd, kind, answers) => ReadyOk(w, fd, kind, answers);
    case Resolve(address, failed, list, memory) => ResolveOk(w, address, failed, list, memory);
    case DropReference(address) => DropOk(w, address);
    case Deliver(k) => DeliverOk(w, k);
    case Shutdown => ShutdownOk(w);
  }

  // ---------------------------------------------------------------- what an action makes of one connection

  /** What an event makes of a connection. */
  function AfterEvent(c: Conn, kind: EventKind, fd: int, k: Kernel): Conn {
    var o := Dispatch(c, kind, fd, k);
    if o.Alive? then o.c else c
  }

  /** What the connection at `a` is after an action, whether it goes on or is over then. */
  function NextOf(w: World, action: Action, a: nat): Conn
    requires a in w.live
  {
    var c := w.live[a];
    match action
    case Readiness(fd, kind, answers) =>
      if fd in w.table && w.table[fd].handler.SocksClient? && w.table[fd].data == a then AfterEvent(c, kind, fd, answers.k)
      else c
    case Resolve(address, failed, list, memory) => if address == a then Resolved(c, failed, list, memory) else c
    case DropReference(address) => if address == a then ResolverReleases(c) else c
    case Deliver(k) => if w.jobs != [] && w.jobs[0].owner == a then AfterEvent(c, Block, w.jobs[0].fd, k) else c
    case Shutdown => c
  }

  /** The connection at `a` is `d` now, or was when its last holder let go in this very action. */
  ghost predicate Became(w: World, v: World, a: nat, d: Conn) {
    && w.closed <= v.closed
    && if a in v.live then v.live[a] == d else |v.closed| == |w.closed| + 1 && v.closed[|w.closed|] == d
  }

  lemma CommitBecomes(w: World, a: nat, c: Conn, b: nat)
    requires a in w.live && b in w.live
    ensures Became(w, Commit(w, a, c), b, if b == a then c else w.live[b])
  {
    hide Commit;
    CommitRest(w, a, c);
  }

  lemma AcceptBecomes(w: World, answers: Answers, a: nat)
    requires Pooled(w) && Accepts(w, answers) && a in w.live
    ensures Became(w, AcceptClient(w, answers), a, w.live[a])
  {
    hide Opened, Release;
    AddressFree(w, answers.address);
  }

  /** A SOCKS row is served by the connection it is attached to. */
  lemma ServeBecomes(w: World, fd: int, kind: EventKind, answers: Answers, a: nat)
    requires a in w.live && Sound(w) && Possible(w, Readiness(fd, kind, answers)) && w.table[fd].handler.SocksClient?
    ensures var r := Serve(w, w.table[fd].data, kind, fd, answers.k);
            r.Goes? && Became(w, r.w, a, NextOf(w, Readiness(fd, kind, answers), a))
  {
    hide Sound, Commit, Dispatch, Became, FdsOf, Open, Freed;
    ServeOk(w, fd, kind, answers);
    CommitBecomes(w, w.table[fd].data, AfterEvent(w.live[w.table[fd].data], kind, fd, answers.k), a);
  }

  lemma ReadyBecomes(w: World, fd: int, kind: EventKind, answers: Answers, a: nat)
    requires a in w.live && Sound(w) && Possible(w, Readiness(fd, kind, answers))
    ensures var r := Step(w, Readiness(fd, kind, answers));
            r.Goes? && Became(w, r.w, a, NextOf(w, Readiness(fd, kind, answers), a))
  {
    hide Sound, Serve, AcceptClient, HasHandler, Accepts, FdsOf, Open, Freed, AfterEvent;
    HandlerSet(w, fd, kind);
    match w.table[fd].handler
    case SocksListener =>
      PoolOf(w);
      AcceptBecomes(w, answers, a);
    case SocksClient => ServeBecomes(w, fd, kind, answers, a);
    case _ =>
  }

  lemma DeliverBecomes(w: World, k: Kernel, a: nat)
    requires a in w.live && w.jobs != [] && Possible(w, Deliver(k)) && Sound(w)
    ensures w.jobs[0].owner in w.live
    ensures var r := Serve(w.(jobs := w.jobs[1..]), w.jobs[0].owner, Block, w.jobs[0].fd, k);
            Step(w, Deliver(k)) == r && r.Goes? && Became(w, r.w, a, NextOf(w, Deliver(k), a))
  {
    hide Sound, Dispatch, Commit, Enabled, Became;
    DeliverOk(w, k);
    JobFindsOwner(w, 0);
    var v := w.(jobs := w.jobs[1..]);
    CommitBecomes(v, w.jobs[0].owner, AfterEvent(w.live[w.jobs[0].owner], Block, w.jobs[0].fd, k), a);
    BecameSame(w, v, Step(w, Deliver(k)).w, a, NextOf(w, Deliver(k), a));
  }

  lemma BecameSame(w: World, u: World, v: World, a: nat, d: Conn)
    requires u.closed == w.closed && Became(u, v, a, d)
    ensures Became(w, v, a, d)
  {
  }

  /** Every possible action makes of every live connection what `NextOf` says. */
  lemma NextIs(w: World, action: Action, a: nat)
    requires a in w.live && Sound(w) && Possible(w, action)
    ensures Step(w, action).Goes? && Became(w, Step(w, action).w, a, NextOf(w, action, a))
  {
    hide Sound, Commit, AfterEvent, CallHandler, Serve, Resolved, ResolverReleases, FdsOf, Open, Freed, Accepts;
    match action
    case Readiness(fd, kind, answers) => ReadyBecomes(w, fd, kind, answers, a);
    case Resolve(address, failed, list, memory) =>
    case DropReference(address) => CommitBecomes(w, address, ResolverReleases(w.live[address]), a);
    case Deliver(k) => DeliverBecomes(w, k, a);
    case Shutdown =>
  }

  // ---------------------------------------------------------------- runs

  /** The actions one after another. */
  function Run(w: World, actions: seq<Action>): Result
    decreases |actions|
  {
    if actions == [] then Goes(w)
    else
      var r := Step(w, actions[0]);
      if r.Aborts? then Aborts else Run(r.w, actions[1..])
  }

  /** Each action is possible when its turn comes. */
  predicate Lawful(w: World, actions: seq<Action>)
    decreases |actions|
  {
    actions == [] || (Possible(w, actions[0]) && (Step(w, actions[0]).Goes? ==> Lawful(Step(w, actions[0]).w, actions[1..])))
  }

  lemma {:induction false} RunOk(w: World, actions: seq<Action>)
    requires Sound(w) && Lawful(w, actions)
    ensures Run(w, actions).Goes? && Sound(Run(w, actions).w)
    decreases |actions|
  {
    hide Sound, Possible, Step;
    if actions != [] {
      StepOk(w, actions[0]);
      RunOk(Step(w, actions[0]).w, actions[1..]);
    }
  }
}
