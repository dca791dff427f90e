/**
 * The whole proxy as a machine: the selector's table and job queue, every live connection, the
 * object pool, the metrics and the listening sockets. One action is one callback of the main thread
 * or one atomic step of a resolver thread; the kernel's answers are part of the action.
 */
module Proxy {
  import opened Common
  import opened Selectors
  import opened Connections
  import opened ConnectionLaws
  import opened ConnectionEvents

  const MAX_POOL := 50

  /** A queued job carries a descriptor; `owner` is who queued it, which the program does not record. */
  datatype Job = Job(fd: int, owner: nat)

  /**
   * `live` maps addresses to connection objects that somebody still holds, `pool` is the list of
   * objects kept for reuse, head first, and `closed` what the retired connections were when their
   * last holder let go. `unwatched` are open descriptors that are not registered.
   */
  datatype World = World(
    table: Table, unwatched: set<int>, jobs: seq<Job>, live: map<nat, Conn>, pool: seq<nat>,
    closed: seq<Conn>, historic: nat, concurrent: nat,
    listening: bool, server: int, monitor: int, users: map<seq<byte>, seq<byte>>)

  /** src/server/main.c before its loop. */
  function Start(server: int, monitor: int, users: map<seq<byte>, seq<byte>>): World {
    World(map[server := Item(READ, SocksListener, 0)][monitor := Item(READ, MonitorListener, 0)],
          {}, [], map[], [], [], 0, 0, true, server, monitor, users)
  }

  /** What a monitor client's callback does to its own descriptor. */
  datatype Reaction = Rearm(interest: Interest) | Close

  /**
   * The answers of the kernel, the allocator and the monitor's user to one readiness callback; each
   * callback asks for those it needs. `accepted` is -1 if accept fails, `address` what malloc returns.
   */
  datatype Answers = Answers(
    k: Kernel, accepted: int, nonBlocking: bool, memory: bool, address: nat, reaction: Reaction,
    users: map<seq<byte>, seq<byte>>)

  datatype Action =
    | Readiness(fd: int, kind: EventKind, answers: Answers)
    | Resolve(address: nat, failed: bool, list: seq<AddrInfo>, memory: bool)
    | DropReference(address: nat)
    | Deliver(k: Kernel)
    | Shutdown

  datatype Result = Goes(w: World) | Aborts

  /** Open descriptors: those registered, which are closed as they are unregistered, and the unwatched. */
  function Open(w: World): set<int> {
    w.table.Keys + w.unwatched
  }

  /** The descriptor that a callback closes before it asks for another: of a connect that failed. */
  function Freed(w: World, fd: int, k: Kernel): set<int> {
    if fd in w.table && w.table[fd].data in w.live then
      var c := w.live[w.table[fd].data];
      if c.current == Some(State.Connecting) && c.originFd == fd && k.probe.SocketError? then {fd} else {}
    else {}
  }

  /** What accept and malloc promise: a descriptor that is not open, and memory that nobody holds. */
  predicate Accepts(w: World, answers: Answers) {
    answers.accepted !in Open(w) && (w.pool == [] ==> answers.address !in w.live)
  }

  /** What the kernel, malloc and getaddrinfo promise; who may act when. */
  predicate Possible(w: World, a: Action) {
    match a
    case Readiness(fd, kind, answers) =>
      && fd in w.table && !kind.Block?
      && (if kind.Read? then w.table[fd].interest.read else w.table[fd].interest.write)
      && (match w.table[fd].handler
          case SocksListener => Accepts(w, answers)
          case MonitorListener => Accepts(w, answers)
          case SocksClient => FdsOf(answers.k.attempts) !! Open(w) - Freed(w, fd, answers.k) && answers.k.users == w.users
          case MonitorClient => true)
    case Resolve(address, failed, list, _) =>
      address in w.live && w.live[address].resolver.Running? && (failed ==> list == [])
    case DropReference(address) => address in w.live && w.live[address].resolver.Notified?
    case Deliver(k) => w.jobs != [] && FdsOf(k.attempts) !! Open(w) && k.users == w.users
    case Shutdown => w.listening
  }

  // ---------------------------------------------------------------- one connection in the world

  /** What the connection object at `a` has registered. */
  function Rows(a: nat, c: Conn): Table {
    (if c.clientReg.Some? then map[c.clientFd := Item(c.clientReg.value, SocksClient, a)] else map[])
    + (if c.originReg.Some? then map[c.originFd := Item(c.originReg.value, SocksClient, a)] else map[])
  }

  /** socks5_destroy with one reference left: the object goes to the pool, if there is room. */
  function Retire(w: World, a: nat, c: Conn): World {
    w.(live := w.live - {a}, closed := w.closed + [c],
       pool := if |w.pool| < MAX_POOL then [a] + w.pool else w.pool,
       concurrent := if w.concurrent > 0 then w.concurrent - 1 else 0)
  }

  /** The connection at `a` becomes `c`, and so does what it has registered. */
  function Commit(w: World, a: nat, c: Conn): World
    requires a in w.live
  {
    var v := w.(table := (w.table - Rows(a, w.live[a]).Keys) + Rows(a, c));
    if c.retired > 0 then Retire(v, a, c) else v.(live := v.live[a := c])
  }

  /** handle_read, handle_write or handle_block of a SOCKS descriptor; a dangling attachment aborts. */
  function Serve(w: World, a: nat, kind: EventKind, fd: int, k: Kernel): Result {
    if a !in w.live then Aborts
    else
      var o := Dispatch(w.live[a], kind, fd, k);
      if o.Crashed? then Aborts else Goes(Commit(w, a, o.c))
  }

  /** socksv5_passive_accept */
  function AcceptClient(w: World, answers: Answers): World {
    if answers.accepted < 0 || !answers.nonBlocking || (w.pool == [] && !answers.memory) then w
    else
      var fd := answers.accepted;
      var a := if w.pool == [] then answers.address else w.pool[0];
      var v := w.(pool := if w.pool == [] then [] else w.pool[1..], historic := w.historic + 1,
                  concurrent := w.concurrent + 1);
      var c := Opened(fd);
      if InvalidFd(fd) then Retire(v, a, Release(c.(clientReg := None)))
      else v.(live := v.live[a := c], table := v.table[fd := Item(READ, SocksClient, a)])
  }

  /** monitor_passive_accept */
  function AcceptMonitor(w: World, answers: Answers): World {
    if InvalidFd(answers.accepted) || !answers.nonBlocking || !answers.memory then w
    else w.(table := w.table[answers.accepted := Item(READ, MonitorClient, answers.address)])
  }

  /** monitor_read and monitor_write */
  function React(w: World, fd: int, answers: Answers): World {
    var v := w.(users := answers.users);
    match answers.reaction
    case Rearm(i) => if fd in v.table then v.(table := v.table[fd := v.table[fd].(interest := i)]) else v
    case Close => v.(table := v.table - {fd})
  }

  /** Whether the handler table of a descriptor has a function for this operation. */
  predicate HasHandler(h: Handler, kind: EventKind) {
    match kind
    case Read => h.Reads()
    case Write => h.Writes()
    case Block => h.Blocks()
  }

  /** The dispatcher calls handler `h` with the key (fd, data): a missing function trips its assertion. */
  function CallHandler(w: World, h: Handler, data: nat, fd: int, kind: EventKind, answers: Answers): Result {
    if !HasHandler(h, kind) then Aborts
    else
      match h
      case SocksListener => Goes(AcceptClient(w, answers))
      case MonitorListener => Goes(AcceptMonitor(w, answers))
      case SocksClient => Serve(w, data, kind, fd, answers.k)
      case MonitorClient => Goes(React(w, fd, answers))
  }

  function Step(w: World, a: Action): Result {
    match a
    case Readiness(fd, kind, answers) =>
      if fd in w.table then CallHandler(w, w.table[fd].handler, w.table[fd].data, fd, kind, answers) else Goes(w)
    case Resolve(address, failed, list, memory) =>
      if address !in w.live then Aborts
      else
        var c := w.live[address];
        Goes(w.(live := w.live[address := Resolved(c, failed, list, memory)],
                jobs := if memory then [Job(c.clientFd, address)] + w.jobs else w.jobs))
    case DropReference(address) =>
      if address !in w.live then Aborts else Goes(Commit(w, address, ResolverReleases(w.live[address])))
    case Deliver(k) =>
      if w.jobs == [] then Goes(w)
      else
        var v := w.(jobs := w.jobs[1..]);
        var fd := w.jobs[0].fd;
        if fd !in w.table then Goes(v)
        else if !HasHandler(w.table[fd].handler, Block) then Aborts
        else Serve(v, w.table[fd].data, Block, fd, k)
    case Shutdown =>
      Goes(w.(listening := false, table := w.table - {w.server, w.monitor},
              unwatched := w.unwatched + {w.server, w.monitor}))
  }

  // ---------------------------------------------------------------- the invariant

  /** Every live connection keeps its own law and has a holder. */
  ghost predicate Connected(w: World) {
    forall a | a in w.live :: Inv(w.live[a]) && Holders(w.live[a]) > 0
  }

  /** Everything a live connection has registered is in the table, under its own address. */
  ghost predicate Listed(w: World) {
    forall a, fd | a in w.live && fd in Rows(a, w.live[a]) :: fd in w.table && w.table[fd] == Rows(a, w.live[a])[fd]
  }

  /** No SOCKS row of the table is anybody else's: its attachment is alive and has registered it. */
  ghost predicate Attached(w: World) {
    && (forall fd | fd in w.table && w.table[fd].handler.SocksClient? ::
          w.table[fd].data in w.live && fd in Rows(w.table[fd].data, w.live[w.table[fd].data]))
    && (forall fd | fd in w.table :: !InvalidFd(fd))
    && (forall fd | fd in w.table && (w.table[fd].handler.SocksListener? || w.table[fd].handler.MonitorListener?) ::
          w.listening && w.table[fd].interest == READ && fd in {w.server, w.monitor})
    && (w.listening ==>
          && w.server in w.table && w.table[w.server].handler.SocksListener?
          && w.monitor in w.table && w.table[w.monitor].handler.MonitorListener?)
  }

  /** Somewhere in the queue is a job of the connection at `a`. */
  predicate HasJob(jobs: seq<Job>, a: nat) {
    exists i :: 0 <= i < |jobs| && jobs[i].owner == a
  }

  /** One queued job for each connection that waits for one, under its descriptor, and no other. */
  ghost predicate Queued(w: World) {
    && (forall i | 0 <= i < |w.jobs| ::
          && w.jobs[i].owner in w.live && w.live[w.jobs[i].owner].job
          && w.jobs[i].fd == w.live[w.jobs[i].owner].clientFd)
    && (forall i, j | 0 <= i < j < |w.jobs| :: w.jobs[i].owner != w.jobs[j].owner)
    && (forall a | a in w.live && w.live[a].job :: HasJob(w.jobs, a))
  }

  ghost predicate Pooled(w: World) {
    && |w.pool| <= MAX_POOL
    && (forall i, j | 0 <= i < j < |w.pool| :: w.pool[i] != w.pool[j])
    && (forall i | 0 <= i < |w.pool| :: w.pool[i] !in w.live)
  }

  ghost predicate Metered(w: World) {
    && w.concurrent == |w.live| && w.historic == |w.live| + |w.closed|
    && (forall i | 0 <= i < |w.closed| :: Gone(w.closed[i]))
  }

  /** A retired connection: retired once, with no holder left, and its books closed. */
  ghost predicate Gone(c: Conn) {
    Core(c) && Holders(c) == 0 && c.retired == 1
  }

  ghost predicate Sound(w: World) {
    Connected(w) && Listed(w) && Attached(w) && Queued(w) && Pooled(w) && Metered(w)
  }
}
