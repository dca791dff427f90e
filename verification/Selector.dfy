/**
 * src/shared/selector.c: a table indexed by file descriptor, the sets passed to pselect that are
 * derived from it, the queue of finished blocking jobs, and the dispatch loops.
 */
module Selectors {
  import opened Common

  /** FD_SETSIZE */
  const ITEMS_MAX_SIZE := 1024
  const FD_UNUSED := -1

  /** fd_interest */
  datatype Interest = Interest(read: bool, write: bool)

  const NOOP := Interest(false, false)
  const READ := Interest(true, false)
  const WRITE := Interest(false, true)

  /** The four fd_handler tables of the program. */
  datatype Handler = SocksListener | MonitorListener | SocksClient | MonitorClient {
    /** Whether handle_read, handle_write and handle_block are set in the table. */
    predicate Reads() {
      true
    }

    predicate Writes() {
      SocksClient? || MonitorClient?
    }

    predicate Blocks() {
      SocksClient?
    }
  }

  /** What a registered descriptor carries; `data` is the address its handlers are given. */
  datatype Item = Item(interest: Interest, handler: Handler, data: nat)

  /** struct item */
  datatype Slot = Slot(fd: int, item: Item)

  const UNUSED := Slot(FD_UNUSED, Item(NOOP, SocksListener, 0))

  /** The registered descriptors. */
  type Table = map<int, Item>

  /** selector_status; `Wild` is not a status but an access past the end of the table. */
  datatype Status = Success | NoMemory | MaxFd | IllegalArgument | FdInUse | Wild

  predicate InvalidFd(fd: int) {
    fd < 0 || fd >= ITEMS_MAX_SIZE
  }

  ghost function AsTable(slots: seq<Slot>): Table {
    map fd | 0 <= fd < |slots| && slots[fd].fd != FD_UNUSED :: slots[fd].item
  }

  ghost function Readers(t: Table): set<int> {
    set fd | fd in t && t[fd].interest.read
  }

  ghost function Writers(t: Table): set<int> {
    set fd | fd in t && t[fd].interest.write
  }

  /** The greatest registered descriptor, or 0. */
  ghost predicate IsMaxFd(t: Table, m: nat) {
    (forall fd | fd in t :: fd <= m) && (m == 0 || m in t)
  }

  // ---------------------------------------------------------------- capacity

  /** The power of two that the loop of next_capacity computes. */
  function PowerAbove(n: nat): (p: nat)
    ensures n < p && (n > 0 ==> p <= 2 * n)
  {
    if n == 0 then 1 else 2 * PowerAbove(n / 2)
  }

  function Capacity(n: nat): (c: nat)
    ensures n <= ITEMS_MAX_SIZE ==> n < c
    ensures c <= ITEMS_MAX_SIZE + 1
  {
    Min(PowerAbove(n), ITEMS_MAX_SIZE) + 1
  }

  function Doubled(p: nat, k: nat): nat
    decreases k
  {
    if k == 0 then p else Doubled(2 * p, k - 1)
  }

  lemma {:induction false} DoubledTwice(p: nat, k: nat)
    ensures Doubled(2 * p, k) == 2 * Doubled(p, k)
    decreases k
  {
    if k > 0 {
      DoubledTwice(2 * p, k - 1);
    }
  }

  /** 1UL << bits */
  function Shift(bits: nat): nat {
    Doubled(1, bits)
  }

  /** Among the powers of two above n, the least. */
  ghost predicate IsLeastPower(n: nat, p: nat) {
    && (exists bits: nat :: Shift(bits) == p)
    && n < p && (forall bits: nat | n < Shift(bits) :: p <= Shift(bits))
  }

  lemma {:induction false} PowerAboveLeast(n: nat)
    ensures IsLeastPower(n, PowerAbove(n))
  {
    if n == 0 {
      assert Shift(0) == 1;
    } else {
      PowerAboveLeast(n / 2);
      var bits: nat :| Shift(bits) == PowerAbove(n / 2);
      DoubledTwice(1, bits);
      assert Shift(bits + 1) == PowerAbove(n);
    }
    forall bits: nat | n < Shift(bits)
      ensures PowerAbove(n) <= Shift(bits)
    {
      if n > 0 {
        assert bits > 0;
        DoubledTwice(1, bits - 1);
        assert n / 2 < Shift(bits - 1);
      }
    }
  }

  /** One slot more than the least power of two above n, but at most one more than descriptors are allowed. */
  method NextCapacity(n: nat) returns (c: nat)
    ensures c == Capacity(n)
    ensures exists p: nat :: IsLeastPower(n, p) && c == Min(p, ITEMS_MAX_SIZE) + 1
  {
    PowerAboveLeast(n);
    var bits: nat, tmp: nat := 0, n;
    while tmp != 0
      invariant PowerAbove(n) == Doubled(PowerAbove(tmp), bits)
    {
      tmp := tmp / 2;
      bits := bits + 1;
    }
    tmp := Shift(bits);
    assert tmp >= n;
    if tmp > ITEMS_MAX_SIZE {
      tmp := ITEMS_MAX_SIZE;
    }
    return tmp + 1;
  }

  /** The table has room for every descriptor exactly when the selector was created for 512 or more. */
  lemma {:induction false} RoomForAll(initial: nat)
    requires initial <= ITEMS_MAX_SIZE
    ensures Capacity(initial) >= ITEMS_MAX_SIZE <==> initial >= 512
  {
    assert Shift(9) == Doubled(8, 6) == 512 && Shift(10) == Doubled(8, 7) == 1024;
    if initial >= 512 {
      PowerLarge(initial, 9);
    } else {
      PowerSmall(initial, 9);
    }
  }

  lemma {:induction false} PowerLarge(n: nat, bits: nat)
    requires n >= Shift(bits)
    ensures PowerAbove(n) >= Shift(bits + 1)
  {
    DoubledTwice(1, bits);
    if bits > 0 {
      DoubledTwice(1, bits - 1);
      PowerLarge(n / 2, bits - 1);
    }
  }

  lemma {:induction false} PowerSmall(n: nat, bits: nat)
    requires n < Shift(bits)
    ensures PowerAbove(n) <= Shift(bits)
  {
    if bits > 0 {
      DoubledTwice(1, bits - 1);
      PowerSmall(n / 2, bits - 1);
    }
  }

  /** A call of selector_register: its descriptor, and whether the allocator has memory if it asks. */
  datatype Registration = Registration(fd: int, memory: bool)

  /** The size of the table after the call. */
  function SizeAfter(size: nat, r: Registration): nat {
    if InvalidFd(r.fd) || r.fd <= size || !r.memory then size else Capacity(r.fd)
  }

  /** selector_register grows the table only when `fd > fd_size`: the item at the size is past the end. */
  predicate PastEnd(size: nat, r: Registration) {
    !InvalidFd(r.fd) && r.fd == SizeAfter(size, r)
  }

  /** Some call of these, the first on a table of this size, writes past the end. */
  predicate Overruns(size: nat, rs: seq<Registration>)
    decreases |rs|
  {
    rs != [] && (PastEnd(size, rs[0]) || Overruns(SizeAfter(size, rs[0]), rs[1..]))
  }

  /** No calls, however many, with whatever descriptors, write past the end of a table of this size. */
  ghost predicate Safe(size: nat) {
    forall rs: seq<Registration> :: !Overruns(size, rs)
  }

  lemma {:induction false} LargeIsSafe(size: nat, rs: seq<Registration>)
    requires size >= ITEMS_MAX_SIZE
    ensures !Overruns(size, rs)
    decreases |rs|
  {
    if rs != [] {
      LargeIsSafe(SizeAfter(size, rs[0]), rs[1..]);
    }
  }

  /** However the table came to its size, no later calls overrun it exactly when it is as large as allowed. */
  lemma SafeFromNow(size: nat)
    ensures Safe(size) <==> size >= ITEMS_MAX_SIZE
  {
    if size >= ITEMS_MAX_SIZE {
      forall rs: seq<Registration>
        ensures !Overruns(size, rs)
      {
        LargeIsSafe(size, rs);
      }
    } else {
      var rs := [Registration(size, true)];
      assert PastEnd(size, rs[0]);
      assert Overruns(size, rs);
    }
  }

  /** A new selector is safe from it, for all calls to come, exactly when created for at least 512 descriptors. */
  lemma RegisterStaysInTable(initial: nat)
    requires initial <= ITEMS_MAX_SIZE
    ensures Safe(Capacity(initial)) <==> initial >= 512
  {
    RoomForAll(initial);
    SafeFromNow(Capacity(initial));
  }

  // ---------------------------------------------------------------- callbacks as data

  /** What a callback may do to the table. Any behaviour of a callback is some list of these. */
  datatype TableOp =
    | Reg(fd: int, item: Item)
    | Unreg(fd: int)
    | SetInt(fd: int, interest: Interest)

  function ApplyOp(t: Table, op: TableOp): Table {
    match op
    case Reg(fd, item) => if InvalidFd(fd) || fd in t then t else t[fd := item]
    case Unreg(fd) => if InvalidFd(fd) then t else t - {fd}
    case SetInt(fd, i) => if !InvalidFd(fd) && fd in t then t[fd := t[fd].(interest := i)] else t
  }

  function ApplyOps(t: Table, ops: seq<TableOp>): Table
    decreases |ops|
  {
    if ops == [] then t else ApplyOps(ApplyOp(t, ops[0]), ops[1..])
  }

  function Head(scripts: seq<seq<TableOp>>): seq<TableOp> {
    if scripts == [] then [] else scripts[0]
  }

  function Tail(scripts: seq<seq<TableOp>>): seq<seq<TableOp>> {
    if scripts == [] then [] else scripts[1..]
  }

  datatype EventKind = Read | Write | Block

  /** A callback made: the key it got and the item that was registered at that moment. */
  datatype Call = Call(fd: int, kind: EventKind, keyData: nat, item: Item)

  datatype Pass = Pass(table: Table, calls: seq<Call>, scripts: seq<seq<TableOp>>)

  function AfterCall(p: Pass, c: Call): Pass {
    Pass(ApplyOps(p.table, Head(p.scripts)), p.calls + [c], Tail(p.scripts))
  }

  /** The read half of a turn of the loop in handle_iteration. */
  function VisitRead(p: Pass, i: int, ready: Ready): Pass {
    if i in p.table && i in ready.r && p.table[i].interest.read
    then AfterCall(p, Call(i, Read, p.table[i].data, p.table[i])) else p
  }

  /** The write half; `data` was copied into the key before the read half ran. */
  function VisitWrite(p: Pass, i: int, ready: Ready, data: nat): Pass {
    if i in ready.w && i in p.table && p.table[i].interest.write
    then AfterCall(p, Call(i, Write, data, p.table[i])) else p
  }

  /** One turn; the k-th callback behaves like scripts[k]. */
  function Visit(p: Pass, i: int, ready: Ready): Pass {
    if i !in p.table then p else VisitWrite(VisitRead(p, i, ready), i, ready, p.table[i].data)
  }

  /** slave_r and slave_w after pselect */
  datatype Ready = Ready(r: set<int>, w: set<int>)

  function Visits(p: Pass, i: nat, ready: Ready): Pass {
    if i == 0 then p else Visit(Visits(p, i - 1, ready), i - 1, ready)
  }

  ghost predicate Justified(c: Call, ready: Ready, n: nat) {
    && 0 <= c.fd < n
    && match c.kind
       case Read => c.fd in ready.r && c.item.interest.read && c.keyData == c.item.data
       case Write => c.fd in ready.w && c.item.interest.write
       case Block => false
  }

  predicate Before(c: Call, d: Call) {
    c.fd < d.fd || (c.fd == d.fd && c.kind.Read? && d.kind.Write?)
  }

  ghost predicate Disciplined(calls: seq<Call>, ready: Ready, n: nat) {
    && (forall j | 0 <= j < |calls| :: Justified(calls[j], ready, n))
    && forall j, k | 0 <= j < k < |calls| :: Before(calls[j], calls[k])
  }

  lemma VisitDiscipline(p: Pass, i: nat, ready: Ready)
    requires Disciplined(p.calls, ready, i)
    ensures Disciplined(Visit(p, i, ready).calls, ready, i + 1)
  {
    if i in p.table {
      var q := VisitRead(p, i, ready);
      assert Disciplined(q.calls, ready, i + 1) && forall j | 0 <= j < |q.calls| :: q.calls[j].fd < i || q.calls[j].kind.Read?;
      var r := VisitWrite(q, i, ready, p.table[i].data);
      assert forall j | 0 <= j < |q.calls| :: r.calls[j] == q.calls[j];
    }
  }

  /**
   * One pass, whatever the callbacks do: every call is for an item in use, with its ready bit set
   * and an interest that includes the operation; descriptors are visited upwards, each once.
   */
  lemma {:induction false} PassDiscipline(t: Table, n: nat, ready: Ready, scripts: seq<seq<TableOp>>)
    ensures Disciplined(Visits(Pass(t, [], scripts), n, ready).calls, ready, n)
  {
    hide Visit, Justified;
    if n > 0 {
      PassDiscipline(t, n - 1, ready, scripts);
      VisitDiscipline(Visits(Pass(t, [], scripts), n - 1, ready), n - 1, ready);
    }
  }

  predicate Touches(op: TableOp, fd: int) {
    op.fd == fd
  }

  ghost predicate LeavesAlone(scripts: seq<seq<TableOp>>, fd: int) {
    forall k, j | 0 <= k < |scripts| && 0 <= j < |scripts[k]| :: !Touches(scripts[k][j], fd)
  }

  lemma {:induction false} OpsLeaveAlone(t: Table, ops: seq<TableOp>, fd: int)
    requires forall j | 0 <= j < |ops| :: !Touches(ops[j], fd)
    ensures fd in ApplyOps(t, ops) <==> fd in t
    ensures fd in t ==> ApplyOps(t, ops)[fd] == t[fd]
    decreases |ops|
  {
    if ops != [] {
      OpsLeaveAlone(ApplyOp(t, ops[0]), ops[1..], fd);
      assert !Touches(ops[0], fd);
    }
  }

  ghost predicate Kept(p: Pass, t: Table, fd: int) {
    && LeavesAlone(p.scripts, fd)
    && (fd in p.table <==> fd in t)
    && (fd in t ==> p.table[fd] == t[fd])
  }

  lemma CallKept(p: Pass, t: Table, fd: int, c: Call)
    requires Kept(p, t, fd)
    ensures Kept(AfterCall(p, c), t, fd)
  {
    OpsLeaveAlone(p.table, Head(p.scripts), fd);
    assert forall k | 0 <= k < |Tail(p.scripts)| :: Tail(p.scripts)[k] == p.scripts[k + 1];
  }

  lemma VisitKept(p: Pass, t: Table, fd: int, i: int, ready: Ready)
    requires Kept(p, t, fd)
    ensures Kept(VisitRead(p, i, ready), t, fd) && Kept(Visit(p, i, ready), t, fd)
  {
    if i in p.table {
      var item := p.table[i];
      CallKept(p, t, fd, Call(i, Read, item.data, item));
      var q := VisitRead(p, i, ready);
      if i in q.table {
        CallKept(q, t, fd, Call(i, Write, item.data, q.table[i]));
      }
    }
  }

  /** The calls that serving `fd` with the item it has in `t` means. */
  function Served(t: Table, fd: int, ready: Ready): seq<Call> {
    if fd !in t then []
    else
      var read := if fd in ready.r && t[fd].interest.read then [Call(fd, Read, t[fd].data, t[fd])] else [];
      var write := if fd in ready.w && t[fd].interest.write then [Call(fd, Write, t[fd].data, t[fd])] else [];
      read + write
  }

  function CallsOf(calls: seq<Call>, fd: int): seq<Call> {
    if calls == [] then []
    else CallsOf(calls[..|calls| - 1], fd) + (if calls[|calls| - 1].fd == fd then [calls[|calls| - 1]] else [])
  }

  lemma VisitCallsOf(p: Pass, t: Table, fd: int, i: int, ready: Ready)
    requires Kept(p, t, fd)
    ensures CallsOf(Visit(p, i, ready).calls, fd) == CallsOf(p.calls, fd) + if i == fd then Served(t, fd, ready) else []
  {
    hide ApplyOps, LeavesAlone;
    if i in p.table {
      VisitKept(p, t, fd, i, ready);
      var q := VisitRead(p, i, ready);
      var r := VisitWrite(q, i, ready, p.table[i].data);
      assert q != p ==> q.calls[..|q.calls| - 1] == p.calls;
      assert r != q ==> r.calls[..|r.calls| - 1] == q.calls || r.calls == q.calls;
    }
  }

  ghost predicate ServedSoFar(p: Pass, t: Table, fd: nat, n: nat, ready: Ready) {
    && Kept(p, t, fd)
    && CallsOf(p.calls, fd) == if fd < n then Served(t, fd, ready) else []
  }

  lemma ServeStep(p: Pass, t: Table, fd: nat, i: nat, ready: Ready)
    requires ServedSoFar(p, t, fd, i, ready)
    ensures ServedSoFar(Visit(p, i, ready), t, fd, i + 1, ready)
  {
    VisitKept(p, t, fd, i, ready);
    VisitCallsOf(p, t, fd, i, ready);
  }

  /** A descriptor no callback touches is served exactly once: one call per ready operation it is interested in. */
  lemma {:induction false} UntouchedIsServed(t: Table, n: nat, ready: Ready, scripts: seq<seq<TableOp>>, fd: nat)
    requires LeavesAlone(scripts, fd)
    ensures ServedSoFar(Visits(Pass(t, [], scripts), n, ready), t, fd, n, ready)
  {
    if n > 0 {
      UntouchedIsServed(t, n - 1, ready, scripts, fd);
      ServeStep(Visits(Pass(t, [], scripts), n - 1, ready), t, fd, n - 1, ready);
    }
  }

  /** handle_block_notifications: a job whose descriptor is not registered is dropped. */
  function Deliveries(p: Pass, jobs: seq<int>): Pass
    decreases |jobs|
  {
    if jobs == [] then p
    else if jobs[0] !in p.table then Deliveries(p, jobs[1..])
    else
      var item := p.table[jobs[0]];
      Deliveries(AfterCall(p, Call(jobs[0], Block, item.data, item)), jobs[1..])
  }

  /** The table when the first n callbacks have returned, each having done what its script says. */
  function TableAfter(t: Table, scripts: seq<seq<TableOp>>, n: nat): Table {
    if n == 0 then t
    else ApplyOps(TableAfter(t, scripts, n - 1), if n <= |scripts| then scripts[n - 1] else [])
  }

  /** A job taken up after `before` calls is delivered to what is in use then, or dropped. */
  ghost predicate DeliveredAt(t: Table, scripts: seq<seq<TableOp>>, fd: int, calls: seq<Call>, before: nat, after: nat) {
    var u := TableAfter(t, scripts, before);
    if fd in u then after == before + 1 && before < |calls| && calls[before] == Call(fd, Block, u[fd].data, u[fd])
    else after == before
  }

  /**
   * The jobs in queue order, `marks[j]` calls having been made before the j-th: handle_block is called for it,
   * with the item's own data, if its descriptor is in use at that moment, and it is dropped otherwise.
   */
  ghost predicate DeliveredInOrder(t: Table, scripts: seq<seq<TableOp>>, jobs: seq<int>, calls: seq<Call>, marks: seq<nat>) {
    && |marks| == |jobs| + 1 && marks[0] == 0 && marks[|jobs|] == |calls|
    && forall j | 0 <= j < |jobs| :: DeliveredAt(t, scripts, jobs[j], calls, marks[j], marks[j + 1])
  }

  /** The calls made so far, for the jobs so far, and what is left of the scripts. */
  ghost predicate DeliveredSoFar(
      t: Table, scripts: seq<seq<TableOp>>, jobs: seq<int>, u: Table, calls: seq<Call>, left: seq<seq<TableOp>>, marks: seq<nat>) {
    && DeliveredInOrder(t, scripts, jobs, calls, marks) && u == TableAfter(t, scripts, |calls|)
    && left == if |calls| <= |scripts| then scripts[|calls|..] else []
  }

  lemma MarksLonger(t: Table, scripts: seq<seq<TableOp>>, jobs: seq<int>, calls: seq<Call>, marks: seq<nat>, fd: int, more: seq<Call>)
    requires DeliveredInOrder(t, scripts, jobs, calls, marks) && DeliveredAt(t, scripts, fd, calls + more, |calls|, |calls + more|)
    ensures DeliveredInOrder(t, scripts, jobs + [fd], calls + more, marks + [|calls + more|])
  {
    hide TableAfter;
    var later, all := marks + [|calls + more|], jobs + [fd];
    forall j | 0 <= j < |all|
      ensures DeliveredAt(t, scripts, all[j], calls + more, later[j], later[j + 1])
    {
      if j < |jobs| {
        assert later[j] == marks[j] && later[j + 1] == marks[j + 1] && all[j] == jobs[j];
        assert DeliveredAt(t, scripts, jobs[j], calls, marks[j], marks[j + 1]);
        assert marks[j] < |calls| ==> (calls + more)[marks[j]] == calls[marks[j]];
      } else {
        assert later[j] == |calls| && later[j + 1] == |calls + more| && all[j] == fd;
      }
    }
  }

  lemma DeliveredNext(
      t: Table, scripts: seq<seq<TableOp>>, jobs: seq<int>, u: Table, calls: seq<Call>, left: seq<seq<TableOp>>, marks: seq<nat>,
      fd: int)
    requires DeliveredSoFar(t, scripts, jobs, u, calls, left, marks)
    ensures fd !in u ==> DeliveredSoFar(t, scripts, jobs + [fd], u, calls, left, marks + [|calls|])
    ensures fd in u ==>
              DeliveredSoFar(t, scripts, jobs + [fd], ApplyOps(u, Head(left)), calls + [Call(fd, Block, u[fd].data, u[fd])],
                             Tail(left), marks + [|calls| + 1])
  {
    hide ApplyOps, DeliveredInOrder;
    if fd in u {
      NextScript(scripts, |calls|);
      MarksLonger(t, scripts, jobs, calls, marks, fd, [Call(fd, Block, u[fd].data, u[fd])]);
    } else {
      assert calls + [] == calls;
      MarksLonger(t, scripts, jobs, calls, marks, fd, []);
    }
  }

  lemma NextScript(scripts: seq<seq<TableOp>>, n: nat)
    ensures var left := if n <= |scripts| then scripts[n..] else [];
            && Head(left) == (if n + 1 <= |scripts| then scripts[n] else [])
            && Tail(left) == (if n + 1 <= |scripts| then scripts[n + 1..] else [])
  {
  }

  /** What handle_block_notifications does to any queue, whatever its callbacks do to the table. */
  lemma {:induction false} JobsDelivered(t: Table, scripts: seq<seq<TableOp>>, jobs: seq<int>) returns (marks: seq<nat>)
    ensures var p := Deliveries(Pass(t, [], scripts), jobs);
            DeliveredInOrder(t, scripts, jobs, p.calls, marks) && p.table == TableAfter(t, scripts, |p.calls|)
  {
    marks := DeliveredRest(t, scripts, [], Pass(t, [], scripts), [0], jobs);
    assert [] + jobs == jobs;
  }

  lemma {:induction false} DeliveredRest(
      t: Table, scripts: seq<seq<TableOp>>, done: seq<int>, p: Pass, before: seq<nat>, jobs: seq<int>) returns (marks: seq<nat>)
    requires DeliveredSoFar(t, scripts, done, p.table, p.calls, p.scripts, before)
    ensures var q := Deliveries(p, jobs); DeliveredSoFar(t, scripts, done + jobs, q.table, q.calls, q.scripts, marks)
    decreases |jobs|
  {
    hide DeliveredSoFar, ApplyOps;
    if jobs == [] {
      marks := before;
      assert done + jobs == done;
    } else {
      DeliveredNext(t, scripts, done, p.table, p.calls, p.scripts, before, jobs[0]);
      assert done + jobs == (done + [jobs[0]]) + jobs[1..];
      if jobs[0] in p.table {
        var item := p.table[jobs[0]];
        marks := DeliveredRest(t, scripts, done + [jobs[0]], AfterCall(p, Call(jobs[0], Block, item.data, item)),
                               before + [|p.calls| + 1], jobs[1..]);
      } else {
        marks := DeliveredRest(t, scripts, done + [jobs[0]], p, before + [|p.calls|], jobs[1..]);
      }
    }
  }

  /** How often a descriptor is queued. */
  function JobCount(jobs: seq<int>, fd: int): nat {
    if jobs == [] then 0 else (if jobs[0] == fd then 1 else 0) + JobCount(jobs[1..], fd)
  }

  function Repeated(c: Call, n: nat): seq<Call> {
    seq(n, _ => c)
  }

  /** A descriptor that no callback touches gets one call for each of its jobs, if it is in use, and none otherwise. */
  lemma {:induction false} UntouchedJobs(p: Pass, t: Table, jobs: seq<int>, fd: int)
    requires Kept(p, t, fd)
    ensures CallsOf(Deliveries(p, jobs).calls, fd)
         == CallsOf(p.calls, fd) + if fd in t then Repeated(Call(fd, Block, t[fd].data, t[fd]), JobCount(jobs, fd)) else []
    decreases |jobs|
  {
    hide ApplyOps, LeavesAlone;
    if jobs != [] {
      if jobs[0] in p.table {
        var item := p.table[jobs[0]];
        var c := Call(jobs[0], Block, item.data, item);
        CallKept(p, t, fd, c);
        UntouchedJobs(AfterCall(p, c), t, jobs[1..], fd);
        assert (p.calls + [c])[..|p.calls|] == p.calls;
        if fd == jobs[0] {
          var n := JobCount(jobs[1..], fd);
          assert CallsOf(p.calls, fd) + [c] + Repeated(c, n) == CallsOf(p.calls, fd) + Repeated(c, n + 1);
        }
      } else {
        UntouchedJobs(p, t, jobs[1..], fd);
      }
    }
  }

  /** So if no callback touches a queued descriptor, the registered ones are called, in queue order, and no others. */
  function RegisteredJobs(t: Table, jobs: seq<int>): seq<Call> {
    if jobs == [] then []
    else (if jobs[0] in t then [Call(jobs[0], Block, t[jobs[0]].data, t[jobs[0]])] else []) + RegisteredJobs(t, jobs[1..])
  }

  lemma {:induction false} QuietJobs(p: Pass, t: Table, jobs: seq<int>)
    requires forall fd | fd in jobs :: Kept(p, t, fd)
    ensures Deliveries(p, jobs).calls == p.calls + RegisteredJobs(t, jobs)
    decreases |jobs|
  {
    hide ApplyOps, LeavesAlone;
    if jobs != [] {
      assert jobs[0] in jobs && forall fd | fd in jobs[1..] :: fd in jobs;
      if jobs[0] in p.table {
        var item := p.table[jobs[0]];
        var c := Call(jobs[0], Block, item.data, item);
        forall fd | fd in jobs[1..]
          ensures Kept(AfterCall(p, c), t, fd)
        {
          CallKept(p, t, fd, c);
        }
        QuietJobs(AfterCall(p, c), t, jobs[1..]);
        assert p.calls + ([c] + RegisteredJobs(t, jobs[1..])) == (p.calls + [c]) + RegisteredJobs(t, jobs[1..]);
      } else {
        QuietJobs(p, t, jobs[1..]);
      }
    }
  }

  // ---------------------------------------------------------------- the table in place

  lemma TableUpdate(slots: seq<Slot>, fd: int, slot: Slot)
    requires 0 <= fd < |slots|
    ensures AsTable(slots[fd := slot]) == if slot.fd == FD_UNUSED then AsTable(slots) - {fd} else AsTable(slots)[fd := slot.item]
  {
  }

  lemma TableGrow(slots: seq<Slot>, more: seq<Slot>)
    requires forall i | 0 <= i < |more| :: more[i].fd == FD_UNUSED
    ensures AsTable(slots + more) == AsTable(slots)
  {
  }

  /** The sets that a changed item changes. */
  lemma SetsUpdate(t: Table, fd: int, item: Item)
    ensures Readers(t[fd := item]) == Readers(t) - {fd} + (if item.interest.read then {fd} else {})
    ensures Writers(t[fd := item]) == Writers(t) - {fd} + (if item.interest.write then {fd} else {})
  {
  }

  lemma MaxFdStays(t: Table, fd: int, item: Item, m: nat)
    requires IsMaxFd(t, m) && fd in t
    ensures IsMaxFd(t[fd := item], m)
  {
  }

  class Selector {
    var fds: array<Slot>
    var maxFd: nat
    var masterR: set<int>
    var masterW: set<int>
    var jobs: seq<int>

    ghost function Table(): (t: Table)
      reads this, fds
    {
      AsTable(fds[..])
    }

    /** All but the derived fields: every slot is free, without interests, or holds its own index. */
    ghost predicate SlotsValid()
      reads this, fds
    {
      forall i | 0 <= i < fds.Length ::
        fds[i].fd == i || (fds[i].fd == FD_UNUSED && fds[i].item.interest == NOOP)
    }

    /** master_r, master_w and max_fd are what they are derived from. */
    ghost predicate Valid()
      reads this, fds
    {
      && SlotsValid()
      && masterR == Readers(Table()) && masterW == Writers(Table())
      && IsMaxFd(Table(), maxFd)
    }

    /** The state selector_new's memset leaves; no table yet. */
    constructor ()
      ensures Valid() && Table() == map[] && fds.Length == 0 && jobs == []
    {
      fds := new Slot[0];
      maxFd, masterR, masterW, jobs := 0, {}, {}, [];
    }

    /** Grow to at least n + 1 slots; `memory` says whether calloc or realloc succeeds. */
    method EnsureCapacity(n: nat, memory: bool) returns (status: Status)
      requires Valid()
      modifies this`fds
      ensures Valid() && Table() == old(Table())
      ensures status.Success? || status.MaxFd? || status.NoMemory?
      ensures status.Success? ==> n < fds.Length && old(fds.Length) <= fds.Length
      ensures n < old(fds.Length) || !status.Success? ==> fds == old(fds)
      ensures n >= old(fds.Length) && status.Success? ==> fresh(fds) && fds.Length == Capacity(n) && n <= ITEMS_MAX_SIZE
      ensures status.MaxFd? <==> n >= old(fds.Length) && n > ITEMS_MAX_SIZE
      ensures status.NoMemory? <==> n >= old(fds.Length) && n <= ITEMS_MAX_SIZE && !memory
    {
      hide PowerAbove, IsLeastPower, IsMaxFd, Readers, Writers;
      if n < fds.Length {
        return Success;
      }
      if n > ITEMS_MAX_SIZE {
        return MaxFd;
      }
      var newSize := NextCapacity(n);
      if !memory {
        return NoMemory;
      }
      var items := new Slot[newSize](i => UNUSED);
      forall i | 0 <= i < fds.Length {
        items[i] := fds[i];
      }
      ghost var more := items[fds.Length..];
      assert items[..] == fds[..] + more;
      TableGrow(fds[..], more);
      fds := items;
      assert Table() == old(Table());
      return Success;
    }

    /** items_max_fd */
    method ItemsMaxFd() returns (max: nat)
      requires SlotsValid() && maxFd < fds.Length && forall fd | fd in Table() :: fd <= maxFd
      ensures IsMaxFd(Table(), max) && max <= maxFd
    {
      max := 0;
      var i := 0;
      while i <= maxFd
        invariant 0 <= i <= maxFd + 1 && max <= maxFd
        invariant forall fd | fd in Table() && fd < i :: fd <= max
        invariant max == 0 || max in Table()
      {
        if fds[i].fd != FD_UNUSED {
          if fds[i].fd > max {
            max := fds[i].fd;
          }
        }
        i := i + 1;
      }
    }

    /** items_update_fdset_for_fd, for the item at `fd` */
    method UpdateFdSets(fd: nat)
      requires SlotsValid() && fd < fds.Length
      modifies this`masterR, this`masterW
      ensures masterR == old(masterR) - {fd} + (if fds[fd].fd == fd && fds[fd].item.interest.read then {fd} else {})
      ensures masterW == old(masterW) - {fd} + (if fds[fd].fd == fd && fds[fd].item.interest.write then {fd} else {})
    {
      masterR := masterR - {fd};
      masterW := masterW - {fd};
      if fds[fd].fd != FD_UNUSED {
        if fds[fd].item.interest.read {
          masterR := masterR + {fd};
        }
        if fds[fd].item.interest.write {
          masterW := masterW + {fd};
        }
      }
    }

    /** The slot is taken; max_fd and both sets follow. */
    method Fill(fd: nat, item: Item)
      requires Valid() && fd < fds.Length && fds[fd].fd == FD_UNUSED
      modifies this`maxFd, this`masterR, this`masterW, fds
      ensures Valid() && Table() == old(Table())[fd := item]
    {
      TableUpdate(fds[..], fd, Slot(fd, item));
      SetsUpdate(Table(), fd, item);
      ghost var before := fds[..];
      fds[fd] := Slot(fd, item);
      assert fds[..] == before[fd := Slot(fd, item)];
      if fd > maxFd {
        maxFd := fd;
      }
      UpdateFdSets(fd);
    }

    method Register(fd: int, item: Item, memory: bool) returns (status: Status)
      requires Valid()
      modifies this, fds
      ensures Valid() && jobs == old(jobs)
      ensures fds == old(fds) || fresh(fds)
      ensures fds.Length >= old(fds.Length)
      ensures old(fds.Length) >= ITEMS_MAX_SIZE ==> fds == old(fds)
      ensures fds.Length == SizeAfter(old(fds.Length), Registration(fd, memory))
      ensures status.Wild? <==> PastEnd(old(fds.Length), Registration(fd, memory))
      ensures status.IllegalArgument? <==> InvalidFd(fd)
      ensures status.FdInUse? <==> !InvalidFd(fd) && fd in old(Table())
      ensures status.NoMemory? <==> !InvalidFd(fd) && fd > old(fds.Length) && !memory
      ensures !status.MaxFd?
      ensures Table() == if status.Success? then old(Table())[fd := item] else old(Table())
    {
      if InvalidFd(fd) {
        return IllegalArgument;
      }
      if fd > fds.Length {
        status := EnsureCapacity(fd, memory);
        if status != Success {
          return;
        }
      }
      if fd == fds.Length {
        return Wild;
      }
      if fds[fd].fd != FD_UNUSED {
        return FdInUse;
      }
      Fill(fd, item);
      return Success;
    }

    /** The item that was registered is what handle_close is called with. */
    method Unregister(fd: int) returns (status: Status, closed: Option<Item>)
      requires Valid()
      modifies this, fds
      ensures Valid() && jobs == old(jobs) && fds == old(fds)
      ensures status.Success? <==> !InvalidFd(fd) && fd < fds.Length && fd in old(Table())
      ensures status.Wild? <==> !InvalidFd(fd) && fd >= fds.Length
      ensures status.Success? || status.Wild? || status.IllegalArgument?
      ensures closed == if status.Success? then Some(old(Table())[fd]) else None
      ensures Table() == if status.Success? then old(Table()) - {fd} else old(Table())
    {
      if InvalidFd(fd) {
        return IllegalArgument, None;
      }
      if fd >= fds.Length {
        return Wild, None;
      }
      if fds[fd].fd == FD_UNUSED {
        return IllegalArgument, None;
      }
      closed := Some(fds[fd].item);
      fds[fd] := fds[fd].(item := fds[fd].item.(interest := NOOP));
      UpdateFdSets(fd);
      ghost var before := fds[..];
      TableUpdate(before, fd, UNUSED);
      fds[fd] := UNUSED;
      assert fds[..] == before[fd := UNUSED];
      assert before == old(fds[..])[fd := before[fd]];
      assert Table() == old(Table()) - {fd};
      maxFd := ItemsMaxFd();
      status := Success;
    }

    method SetInterest(fd: int, interest: Interest) returns (status: Status)
      requires Valid()
      modifies this, fds
      ensures Valid() && jobs == old(jobs) && fds == old(fds)
      ensures status.Success? <==> !InvalidFd(fd) && fd < fds.Length && fd in old(Table())
      ensures status.Wild? <==> !InvalidFd(fd) && fd >= fds.Length
      ensures status.Success? || status.Wild? || status.IllegalArgument?
      ensures Table() == if status.Success? then old(Table())[fd := old(Table())[fd].(interest := interest)] else old(Table())
    {
      if InvalidFd(fd) {
        return IllegalArgument;
      }
      if fd >= fds.Length {
        return Wild;
      }
      if fds[fd].fd == FD_UNUSED {
        return IllegalArgument;
      }
      ghost var before := fds[..];
      var slot := Slot(fd, fds[fd].item.(interest := interest));
      TableUpdate(before, fd, slot);
      SetsUpdate(Table(), fd, slot.item);
      MaxFdStays(Table(), fd, slot.item, maxFd);
      fds[fd] := slot;
      assert fds[..] == before[fd := slot];
      hide Readers, Writers, IsMaxFd;
      UpdateFdSets(fd);
      return Success;
    }

    /** What one callback does to the table. */
    method RunScript(ops: seq<TableOp>)
      requires Valid() && fds.Length >= ITEMS_MAX_SIZE
      modifies this, fds
      ensures Valid() && fds == old(fds) && jobs == old(jobs)
      ensures Table() == ApplyOps(old(Table()), ops)
    {
      var i := 0;
      while i < |ops|
        invariant 0 <= i <= |ops|
        invariant Valid() && fds == old(fds) && jobs == old(jobs)
        invariant ApplyOps(Table(), ops[i..]) == ApplyOps(old(Table()), ops)
      {
        assert ops[i..][0] == ops[i] && ops[i..][1..] == ops[i + 1..];
        ghost var t := Table();
        match ops[i] {
          case Reg(fd, item) => var _ := Register(fd, item, true);
          case Unreg(fd) => var _, _ := Unregister(fd);
          case SetInt(fd, interest) => var _ := SetInterest(fd, interest);
        }
        assert Table() == ApplyOp(t, ops[i]);
        i := i + 1;
      }
    }

    /** One pass over the ready descriptors, with callbacks that change the table under the loop. */
    method HandleIteration(ready: Ready, scripts: seq<seq<TableOp>>) returns (calls: seq<Call>)
      requires Valid() && fds.Length >= ITEMS_MAX_SIZE
      modifies this, fds
      ensures Valid() && fds == old(fds) && jobs == old(jobs)
      ensures var p := Visits(Pass(old(Table()), [], scripts), old(maxFd) + 1, ready);
              Table() == p.table && calls == p.calls
    {
      hide ApplyOps, Readers, Writers;
      var n := maxFd;
      ghost var p := Pass(Table(), [], scripts);
      calls := [];
      var left := scripts;
      var i := 0;
      while i <= n
        invariant 0 <= i <= n + 1 && n < fds.Length
        invariant Valid() && fds == old(fds) && jobs == old(jobs)
        invariant Pass(Table(), calls, left) == Visits(p, i, ready)
      {
        ghost var at := Pass(Table(), calls, left);
        if fds[i].fd != FD_UNUSED {
          var data := fds[i].item.data;
          if fds[i].fd in ready.r {
            if fds[i].item.interest.read {
              calls := calls + [Call(i, Read, data, fds[i].item)];
              RunScript(Head(left));
              left := Tail(left);
            }
          }
          assert Pass(Table(), calls, left) == VisitRead(at, i, ready);
          if i in ready.w {
            if fds[i].item.interest.write {
              calls := calls + [Call(i, Write, data, fds[i].item)];
              RunScript(Head(left));
              left := Tail(left);
            }
          }
        }
        assert Pass(Table(), calls, left) == Visit(at, i, ready);
        i := i + 1;
      }
    }

    method HandleBlockNotifications(scripts: seq<seq<TableOp>>) returns (calls: seq<Call>)
      requires Valid() && fds.Length >= ITEMS_MAX_SIZE && forall j | j in jobs :: 0 <= j < ITEMS_MAX_SIZE
      modifies this, fds
      ensures Valid() && fds == old(fds) && jobs == []
      ensures var p := Deliveries(Pass(old(Table()), [], scripts), old(jobs));
              Table() == p.table && calls == p.calls
      ensures exists marks :: DeliveredInOrder(old(Table()), scripts, old(jobs), calls, marks)
      ensures Table() == TableAfter(old(Table()), scripts, |calls|)
    {
      ghost var _ := JobsDelivered(Table(), scripts, jobs);
      calls := [];
      var left := scripts;
      ghost var p := Deliveries(Pass(Table(), [], scripts), jobs);
      var i := 0;
      while i < |jobs|
        invariant 0 <= i <= |jobs|
        invariant Valid() && fds == old(fds) && jobs == old(jobs)
        invariant Deliveries(Pass(Table(), calls, left), jobs[i..]) == p
      {
        var fd := jobs[i];
        assert jobs[i..][0] == fd && jobs[i..][1..] == jobs[i + 1..];
        assert fd in jobs;
        if fds[fd].fd != FD_UNUSED {
          calls := calls + [Call(fd, Block, fds[fd].item.data, fds[fd].item)];
          RunScript(Head(left));
          left := Tail(left);
        }
        i := i + 1;
      }
      jobs := [];
    }

    /** selector_notify_block; `memory` says whether the job could be allocated. */
    method NotifyBlock(fd: int, memory: bool) returns (status: Status)
      modifies this`jobs
      ensures jobs == if memory then [fd] + old(jobs) else old(jobs)
      ensures status == if memory then Success else NoMemory
    {
      if !memory {
        return NoMemory;
      }
      jobs := [fd] + jobs;
      return Success;
    }
  }
}
