/**
 * The selector's loops as runs of the proxy: a dispatch pass over the table, with the proxy's callbacks
 * changing it, and the delivery of the queued jobs. So whatever holds of runs holds through these loops,
 * and a pass has the discipline of `Selectors.PassDiscipline`.
 */
module ProxyLoop {
  import opened Common
  import opened Selectors
  import opened Connections
  import opened ConnectionLaws
  import opened ConnectionEvents
  import opened Proxy
  import opened ProxySteps
  import opened ProxyTheorems

  /** A pass under way: the world, the calls made, the actions they are, and the answers still to come. */
  datatype Loop = Loop(w: World, calls: seq<Call>, done: seq<Action>, oracle: seq<Answers>, aborted: bool)

  const NO_ANSWER :=
    Answers(Kernel(RecvAgain, SendAgain, [], SocketClear, NoName, false, false, map[]), -1, false, false, 0, Close, map[])

  function Ask(oracle: seq<Answers>): Answers {
    if oracle == [] then NO_ANSWER else oracle[0]
  }

  /** A callback is called with the item's handler and the key's data. */
  function LoopCall(l: Loop, fd: int, kind: EventKind, data: nat): Loop
    requires fd in l.w.table
  {
    var a := Ask(l.oracle);
    var r := CallHandler(l.w, l.w.table[fd].handler, data, fd, kind, a);
    Loop(if r.Goes? then r.w else l.w, l.calls + [Call(fd, kind, data, l.w.table[fd])],
         l.done + [Readiness(fd, kind, a)], if l.oracle == [] then [] else l.oracle[1..], l.aborted || r.Aborts?)
  }

  function LoopRead(l: Loop, i: int, ready: Ready): Loop {
    if i in l.w.table && i in ready.r && l.w.table[i].interest.read then LoopCall(l, i, Read, l.w.table[i].data) else l
  }

  function LoopWrite(l: Loop, i: int, ready: Ready, data: nat): Loop {
    if i in ready.w && i in l.w.table && l.w.table[i].interest.write then LoopCall(l, i, Write, data) else l
  }

  /** One turn of handle_iteration; the attachment is copied into the key before the read handler runs. */
  function LoopTurn(l: Loop, i: int, ready: Ready): Loop {
    if i !in l.w.table then l else LoopWrite(LoopRead(l, i, ready), i, ready, l.w.table[i].data)
  }

  function LoopTurns(l: Loop, n: nat, ready: Ready): Loop {
    if n == 0 then l else LoopTurn(LoopTurns(l, n - 1, ready), n - 1, ready)
  }

  function LoopFrom(w: World, oracle: seq<Answers>): Loop {
    Loop(w, [], [], oracle, false)
  }

  // ---------------------------------------------------------------- a pass is a run

  lemma {:induction false} LawfulBefore(w: World, actions: seq<Action>, a: Action)
    requires Sound(w) && Lawful(w, actions + [a])
    ensures Lawful(w, actions) && Run(w, actions).Goes? && Sound(Run(w, actions).w)
    ensures Possible(Run(w, actions).w, a) && Run(w, actions + [a]) == Step(Run(w, actions).w, a)
    decreases |actions|
  {
    hide Sound, Possible, Step;
    if actions == [] {
      assert actions + [a] == [a] && [a][1..] == [];
      StepOk(w, a);
    } else {
      assert (actions + [a])[0] == actions[0] && (actions + [a])[1..] == actions[1..] + [a];
      StepOk(w, actions[0]);
      LawfulBefore(Step(w, actions[0]).w, actions[1..], a);
    }
  }

  /** As long as the answers are possible, the pass has not aborted and is where the run of its actions leads. */
  ghost predicate IsRun(w: World, l: Loop) {
    Lawful(w, l.done) ==> !l.aborted && Run(w, l.done) == Goes(l.w)
  }

  lemma CallIsRun(w: World, l: Loop, fd: int, kind: EventKind, data: nat)
    requires Sound(w) && IsRun(w, l) && fd in l.w.table
    requires Lawful(w, l.done) ==> data == l.w.table[fd].data
    ensures IsRun(w, LoopCall(l, fd, kind, data))
  {
    hide Sound, Possible, CallHandler, Run, Lawful;
    var a := Readiness(fd, kind, Ask(l.oracle));
    if Lawful(w, l.done + [a]) {
      LawfulBefore(w, l.done, a);
      StepOk(l.w, a);
    }
  }

  /** After the read handler the key's data is still the item's. */
  lemma ReadKeepsKey(w: World, l: Loop, i: int, ready: Ready)
    requires Sound(w) && IsRun(w, l) && i in l.w.table && Lawful(w, LoopRead(l, i, ready).done)
    ensures i in LoopRead(l, i, ready).w.table ==> LoopRead(l, i, ready).w.table[i].data == l.w.table[i].data
  {
    hide Sound, Possible, CallHandler, Run, Lawful;
    var m := LoopRead(l, i, ready);
    if m != l {
      var a := Readiness(i, Read, Ask(l.oracle));
      LawfulBefore(w, l.done, a);
      AttachmentStays(l.w, i, Read, Ask(l.oracle));
    }
  }

  lemma TurnIsRun(w: World, l: Loop, i: int, ready: Ready)
    requires Sound(w) && IsRun(w, l)
    ensures IsRun(w, LoopTurn(l, i, ready))
  {
    hide Sound, IsRun, LoopCall, Lawful;
    if i in l.w.table {
      CallIsRun(w, l, i, Read, l.w.table[i].data);
      var m := LoopRead(l, i, ready);
      if i in m.w.table {
        if Lawful(w, m.done) {
          ReadKeepsKey(w, l, i, ready);
        }
        CallIsRun(w, m, i, Write, l.w.table[i].data);
      }
    }
  }

  /**
   * handle_iteration, with any ready bits and any possible answers, is a run of the proxy: it does not trip
   * the missing-handler assertion, and ends in a world with the invariant.
   */
  lemma {:induction false} PassIsRun(w: World, n: nat, ready: Ready, oracle: seq<Answers>)
    requires Sound(w)
    ensures var l := LoopTurns(LoopFrom(w, oracle), n, ready);
            IsRun(w, l) && (Lawful(w, l.done) ==> Sound(l.w))
  {
    hide Sound, LoopTurn, Lawful, Run;
    var l := LoopTurns(LoopFrom(w, oracle), n, ready);
    if n == 0 {
      NothingIsRun(w, oracle);
    } else {
      PassIsRun(w, n - 1, ready, oracle);
      TurnIsRun(w, LoopTurns(LoopFrom(w, oracle), n - 1, ready), n - 1, ready);
    }
    if Lawful(w, l.done) {
      RunOk(w, l.done);
    }
  }

  lemma NothingIsRun(w: World, oracle: seq<Answers>)
    ensures IsRun(w, LoopFrom(w, oracle))
  {
  }

  // ---------------------------------------------------------------- ... with the discipline of the selector's

  lemma {:induction false} OpsAfterOps(t: Table, x: seq<TableOp>, y: seq<TableOp>)
    ensures ApplyOps(t, x + y) == ApplyOps(ApplyOps(t, x), y)
    decreases |x|
  {
    if x == [] {
      assert x + y == y;
    } else {
      assert (x + y)[0] == x[0] && (x + y)[1..] == x[1..] + y;
      OpsAfterOps(ApplyOp(t, x[0]), x[1..], y);
    }
  }

  function UnregOps(fd: int, reg: Option<Interest>): seq<TableOp> {
    if reg.Some? then [Unreg(fd)] else []
  }

  function RegOps(a: nat, fd: int, reg: Option<Interest>): seq<TableOp> {
    if reg.Some? then [Reg(fd, Item(reg.value, SocksClient, a))] else []
  }

  /** What an event that makes `d` of the connection `c` at `a` does to the table. */
  function RowOps(a: nat, c: Conn, d: Conn): seq<TableOp> {
    UnregOps(c.clientFd, c.clientReg) + (UnregOps(c.originFd, c.originReg)
      + (RegOps(a, d.clientFd, d.clientReg) + RegOps(a, d.originFd, d.originReg)))
  }

  /** The descriptors of a connection are legal, and two. */
  ghost predicate Proper2(c: Conn) {
    && (c.clientReg.Some? ==> !InvalidFd(c.clientFd)) && (c.originReg.Some? ==> !InvalidFd(c.originFd))
    && (c.clientReg.Some? && c.originReg.Some? ==> c.clientFd != c.originFd)
  }

  /** The operations of an event, one list after the other. */
  lemma RowOpsApplied(t: Table, a: nat, c: Conn, d: Conn)
    ensures ApplyOps(t, RowOps(a, c, d))
         == ApplyOps(ApplyOps(ApplyOps(ApplyOps(t, UnregOps(c.clientFd, c.clientReg)), UnregOps(c.originFd, c.originReg)),
                              RegOps(a, d.clientFd, d.clientReg)), RegOps(a, d.originFd, d.originReg))
  {
    hide UnregOps, RegOps, ApplyOps;
    var x, y := UnregOps(c.clientFd, c.clientReg), UnregOps(c.originFd, c.originReg);
    var u, v := RegOps(a, d.clientFd, d.clientReg), RegOps(a, d.originFd, d.originReg);
    OpsAfterOps(t, x, y + (u + v));
    OpsAfterOps(ApplyOps(t, x), y, u + v);
    OpsAfterOps(ApplyOps(ApplyOps(t, x), y), u, v);
  }

  lemma OldRowsGone(t: Table, a: nat, c: Conn)
    requires Proper2(c)
    ensures ApplyOps(ApplyOps(t, UnregOps(c.clientFd, c.clientReg)), UnregOps(c.originFd, c.originReg))
         == t - Rows(a, c).Keys
  {
    var u := if c.clientReg.Some? then t - {c.clientFd} else t;
    OneUnreg(t, c.clientFd, c.clientReg);
    OneUnreg(u, c.originFd, c.originReg);
    hide ApplyOps, UnregOps;
    assert (if c.originReg.Some? then u - {c.originFd} else u) == t - Rows(a, c).Keys;
  }

  lemma NewRowsThere(t: Table, a: nat, d: Conn)
    requires Proper2(d)
    requires (d.clientReg.Some? ==> d.clientFd !in t) && (d.originReg.Some? ==> d.originFd !in t)
    ensures ApplyOps(ApplyOps(t, RegOps(a, d.clientFd, d.clientReg)), RegOps(a, d.originFd, d.originReg)) == t + Rows(a, d)
  {
    hide ApplyOps, RegOps;
    OneReg(t, a, d.clientFd, d.clientReg);
    var u := if d.clientReg.Some? then t[d.clientFd := Item(d.clientReg.value, SocksClient, a)] else t;
    OneReg(u, a, d.originFd, d.originReg);
    assert (if d.originReg.Some? then u[d.originFd := Item(d.originReg.value, SocksClient, a)] else u) == t + Rows(a, d);
  }

  lemma CommitScripted(w: World, a: nat, d: Conn)
    requires a in w.live && Continues(w, a, d) && Proper2(w.live[a]) && Proper2(d)
    ensures ApplyOps(w.table, RowOps(a, w.live[a], d)) == Commit(w, a, d).table
  {
    hide ApplyOps, RowOps, UnregOps, RegOps, Proper2;
    RowOpsApplied(w.table, a, w.live[a], d);
    OldRowsGone(w.table, a, w.live[a]);
    NewRowsFree(w, a, d);
    NewRowsThere(w.table - Rows(a, w.live[a]).Keys, a, d);
    CommitTable(w, a, d);
  }

  lemma CommitTable(w: World, a: nat, d: Conn)
    requires a in w.live
    ensures Commit(w, a, d).table == (w.table - Rows(a, w.live[a]).Keys) + Rows(a, d)
  {
    hide Rows;
  }

  lemma NewRowsFree(w: World, a: nat, d: Conn)
    requires a in w.live && Continues(w, a, d)
    ensures var t := w.table - Rows(a, w.live[a]).Keys;
            (d.clientReg.Some? ==> d.clientFd !in t) && (d.originReg.Some? ==> d.originFd !in t)
  {
    var t := w.table - Rows(a, w.live[a]).Keys;
    assert d.clientReg.Some? ==> d.clientFd in Rows(a, d);
    assert d.originReg.Some? ==> d.originFd in Rows(a, d);
  }

  lemma OneUnreg(t: Table, fd: int, reg: Option<Interest>)
    requires reg.Some? ==> !InvalidFd(fd)
    ensures ApplyOps(t, UnregOps(fd, reg)) == if reg.Some? then t - {fd} else t
  {
    assert [Unreg(fd)][1..] == [];
  }

  lemma OneReg(t: Table, a: nat, fd: int, reg: Option<Interest>)
    requires reg.Some? ==> !InvalidFd(fd) && fd !in t
    ensures ApplyOps(t, RegOps(a, fd, reg)) == if reg.Some? then t[fd := Item(reg.value, SocksClient, a)] else t
  {
    if reg.Some? {
      OneOp(t, Reg(fd, Item(reg.value, SocksClient, a)));
    }
  }

  lemma OneOp(t: Table, op: TableOp)
    ensures ApplyOps(t, [op]) == ApplyOp(t, op)
  {
    assert [op][1..] == [];
  }

  lemma KeptProper(c: Conn)
    requires Inv(c)
    ensures Proper2(c)
  {
    hide Core, Resting;
  }

  /** Each callback does to the table what a list of selector operations does. */
  lemma ServeScripted(w: World, fd: int, kind: EventKind, answers: Answers) returns (ops: seq<TableOp>)
    requires Sound(w) && Possible(w, Readiness(fd, kind, answers)) && w.table[fd].handler.SocksClient?
    ensures var r := Serve(w, w.table[fd].data, kind, fd, answers.k); r.Goes? && ApplyOps(w.table, ops) == r.w.table
  {
    hide Inv, Holders, Rows, Commit, Dispatch, Enabled, Over, FdsOf, Open, Proper2;
    var a := w.table[fd].data;
    var k := answers.k;
    ServeOk(w, fd, kind, answers);
    ServedIsEnabled(w, fd, kind);
    assert FdsOf(k.attempts) !! Open(w) - {w.live[a].originFd};
    hide Freed, Sound;
    OthersOf(w, a);
    AttemptsFresh(w, a, k.attempts);
    EventOk(w.live[a], kind, fd, k);
    var c := Dispatch(w.live[a], kind, fd, k).c;
    EventContinues(w, a, c, k.attempts);
    KeptProper(w.live[a]);
    KeptProper(c);
    ops := RowOps(a, w.live[a], c);
    CommitScripted(w, a, c);
  }

  lemma OthersOf(w: World, a: nat)
    requires a in w.live && Sound(w)
    ensures Listed(w) && Inv(w.live[a])
  {
    hide Inv, Holders;
  }

  lemma CallScripted(w: World, fd: int, kind: EventKind, answers: Answers) returns (ops: seq<TableOp>)
    requires Sound(w) && Possible(w, Readiness(fd, kind, answers))
    ensures var r := Step(w, Readiness(fd, kind, answers)); r.Goes? && ApplyOps(w.table, ops) == r.w.table
  {
    hide Sound, Serve, Opened, Release, HasHandler, FdsOf, Open, Freed, ApplyOps;
    ReadyOk(w, fd, kind, answers);
    HandlerSet(w, fd, kind);
    match w.table[fd].handler
    case SocksClient => ops := ServeScripted(w, fd, kind, answers);
    case MonitorClient => ops := ReactScripted(w, fd, answers);
    case SocksListener =>
      var op := Reg(answers.accepted, Item(READ, SocksClient, if w.pool == [] then answers.address else w.pool[0]));
      ops := AcceptScripted(w, AcceptClient(w, answers).table, answers, op);
    case MonitorListener =>
      var op := Reg(answers.accepted, Item(READ, MonitorClient, answers.address));
      ops := AcceptScripted(w, AcceptMonitor(w, answers).table, answers, op);
  }

  lemma ReactScripted(w: World, fd: int, answers: Answers) returns (ops: seq<TableOp>)
    requires fd in w.table && Sound(w)
    ensures ApplyOps(w.table, ops) == React(w, fd, answers).table
  {
    hide Sound;
    FdLegal(w, fd);
    var op := match answers.reaction case Rearm(i) => SetInt(fd, i) case Close => Unreg(fd);
    OneOp(w.table, op);
    ops := [op];
  }

  lemma FdLegal(w: World, fd: int)
    requires fd in w.table && Sound(w)
    ensures !InvalidFd(fd)
  {
    hide Connected, Listed, Queued, Pooled, Metered;
  }

  lemma AcceptScripted(w: World, u: Table, answers: Answers, op: TableOp) returns (ops: seq<TableOp>)
    requires Accepts(w, answers) && op.Reg? && op.fd == answers.accepted
    requires u == w.table || (!InvalidFd(op.fd) && u == w.table[op.fd := op.item])
    ensures ApplyOps(w.table, ops) == u
  {
    if u == w.table {
      ops := [];
    } else {
      OneOp(w.table, op);
      ops := [op];
    }
  }

  /** What one half of a turn does to the table is a script. */
  ghost predicate Scripted(l: Loop, m: Loop, ops: seq<TableOp>) {
    ApplyOps(l.w.table, ops) == m.w.table
  }

  /** The call that this half of a turn makes is possible, with the item's own attachment in the key. */
  ghost predicate Callable(l: Loop, fd: int, kind: EventKind, data: nat) {
    fd in l.w.table && Sound(l.w) && Possible(l.w, Readiness(fd, kind, Ask(l.oracle))) && data == l.w.table[fd].data
  }

  /** The selector's state of a pass that is where this loop is, with scripts to come. */
  function AsPass(l: Loop, scripts: seq<seq<TableOp>>): Pass {
    Pass(l.w.table, l.calls, scripts)
  }

  lemma CallImitated(l: Loop, fd: int, kind: EventKind, data: nat, ops: seq<TableOp>, more: seq<seq<TableOp>>)
    requires fd in l.w.table && Scripted(l, LoopCall(l, fd, kind, data), ops)
    ensures AfterCall(AsPass(l, [ops] + more), Call(fd, kind, data, l.w.table[fd]))
         == AsPass(LoopCall(l, fd, kind, data), more)
  {
    hide CallHandler, ApplyOps;
    assert Head([ops] + more) == ops && Tail([ops] + more) == more;
  }

  ghost predicate ReadLike(l: Loop, i: int, ready: Ready, s: seq<seq<TableOp>>, more: seq<seq<TableOp>>) {
    VisitRead(AsPass(l, s + more), i, ready) == AsPass(LoopRead(l, i, ready), more)
  }

  ghost predicate WriteLike(l: Loop, i: int, ready: Ready, data: nat, s: seq<seq<TableOp>>, more: seq<seq<TableOp>>) {
    VisitWrite(AsPass(l, s + more), i, ready, data) == AsPass(LoopWrite(l, i, ready, data), more)
  }

  ghost predicate TurnLike(l: Loop, i: int, ready: Ready, s: seq<seq<TableOp>>, more: seq<seq<TableOp>>) {
    Visit(AsPass(l, s + more), i, ready) == AsPass(LoopTurn(l, i, ready), more)
  }

  lemma StepScripted(l: Loop, fd: int, kind: EventKind, data: nat, ops: seq<TableOp>)
    requires fd in l.w.table && data == l.w.table[fd].data
    requires Step(l.w, Readiness(fd, kind, Ask(l.oracle))).Goes?
    requires ApplyOps(l.w.table, ops) == Step(l.w, Readiness(fd, kind, Ask(l.oracle))).w.table
    ensures Scripted(l, LoopCall(l, fd, kind, data), ops)
  {
    hide CallHandler, ApplyOps;
  }

  lemma LongerCalls(l: Loop, fd: int, kind: EventKind, data: nat)
    requires fd in l.w.table
    ensures LoopCall(l, fd, kind, data) != l
  {
    hide CallHandler;
    assert |LoopCall(l, fd, kind, data).calls| == |l.calls| + 1;
  }

  lemma ReadImitated(l: Loop, i: int, ready: Ready) returns (s: seq<seq<TableOp>>)
    requires i in l.w.table && LoopRead(l, i, ready) != l ==> Callable(l, i, Read, l.w.table[i].data)
    ensures forall more :: ReadLike(l, i, ready, s, more)
  {
    hide LoopCall, AfterCall, ApplyOps, ReadLike, Sound, Possible, Step;
    if i in l.w.table && i in ready.r && l.w.table[i].interest.read {
      LongerCalls(l, i, Read, l.w.table[i].data);
      var ops := CallScripted(l.w, i, Read, Ask(l.oracle));
      StepScripted(l, i, Read, l.w.table[i].data, ops);
      s := [ops];
      forall more
        ensures ReadLike(l, i, ready, s, more)
      {
        CallImitated(l, i, Read, l.w.table[i].data, ops, more);
        ReadIs(l, i, ready, s, more);
      }
    } else {
      s := [];
      forall more
        ensures ReadLike(l, i, ready, s, more)
      {
        assert s + more == more;
        ReadIs(l, i, ready, s, more);
      }
    }
  }

  lemma ReadIs(l: Loop, i: int, ready: Ready, s: seq<seq<TableOp>>, more: seq<seq<TableOp>>)
    requires if i in l.w.table && i in ready.r && l.w.table[i].interest.read
             then AfterCall(AsPass(l, s + more), Call(i, Read, l.w.table[i].data, l.w.table[i]))
                  == AsPass(LoopCall(l, i, Read, l.w.table[i].data), more)
             else s + more == more
    ensures ReadLike(l, i, ready, s, more)
  {
    hide LoopCall, AfterCall;
  }

  lemma WriteImitated(l: Loop, i: int, ready: Ready, data: nat) returns (s: seq<seq<TableOp>>)
    requires LoopWrite(l, i, ready, data) != l ==> Callable(l, i, Write, data)
    ensures forall more :: WriteLike(l, i, ready, data, s, more)
  {
    hide LoopCall, AfterCall, ApplyOps, WriteLike, Sound, Possible, Step;
    if i in ready.w && i in l.w.table && l.w.table[i].interest.write {
      LongerCalls(l, i, Write, data);
      var ops := CallScripted(l.w, i, Write, Ask(l.oracle));
      StepScripted(l, i, Write, data, ops);
      s := [ops];
      forall more
        ensures WriteLike(l, i, ready, data, s, more)
      {
        CallImitated(l, i, Write, data, ops, more);
        WriteIs(l, i, ready, data, s, more);
      }
    } else {
      s := [];
      forall more
        ensures WriteLike(l, i, ready, data, s, more)
      {
        assert s + more == more;
        WriteIs(l, i, ready, data, s, more);
      }
    }
  }

  lemma WriteIs(l: Loop, i: int, ready: Ready, data: nat, s: seq<seq<TableOp>>, more: seq<seq<TableOp>>)
    requires if i in ready.w && i in l.w.table && l.w.table[i].interest.write
             then AfterCall(AsPass(l, s + more), Call(i, Write, data, l.w.table[i]))
                  == AsPass(LoopCall(l, i, Write, data), more)
             else s + more == more
    ensures WriteLike(l, i, ready, data, s, more)
  {
    hide LoopCall, AfterCall;
  }

  ghost predicate TurnCallable(l: Loop, i: int, ready: Ready) {
    i in l.w.table ==>
      var m, data := LoopRead(l, i, ready), l.w.table[i].data;
      (m != l ==> Callable(l, i, Read, data)) && (LoopWrite(m, i, ready, data) != m ==> Callable(m, i, Write, data))
  }

  lemma TurnImitated(l: Loop, i: int, ready: Ready) returns (s: seq<seq<TableOp>>)
    requires TurnCallable(l, i, ready)
    ensures forall more :: TurnLike(l, i, ready, s, more)
  {
    hide LoopRead, LoopWrite, VisitRead, VisitWrite, Callable;
    if i in l.w.table {
      var m := LoopRead(l, i, ready);
      var data := l.w.table[i].data;
      var r := ReadImitated(l, i, ready);
      var v := WriteImitated(m, i, ready, data);
      s := r + v;
      forall more
        ensures TurnLike(l, i, ready, s, more)
      {
        assert r + v + more == r + (v + more);
        assert ReadLike(l, i, ready, r, v + more);
        assert WriteLike(m, i, ready, data, v, more);
      }
    } else {
      s := [];
      forall more
        ensures TurnLike(l, i, ready, s, more)
      {
        assert s + more == more;
      }
    }
  }

  /** With these scripts, and any to come, the selector's pass makes the same calls and leaves the same table. */
  ghost predicate Imitates(w: World, oracle: seq<Answers>, n: nat, ready: Ready, s: seq<seq<TableOp>>, more: seq<seq<TableOp>>) {
    Visits(Pass(w.table, [], s + more), n, ready) == AsPass(LoopTurns(LoopFrom(w, oracle), n, ready), more)
  }

  /** With possible answers, each call of a turn is possible when it is made. */
  lemma TurnLawful(w: World, l: Loop, i: int, ready: Ready)
    requires Sound(w) && IsRun(w, l) && Lawful(w, LoopTurn(l, i, ready).done)
    ensures Lawful(w, l.done) && TurnCallable(l, i, ready)
  {
    hide Sound, Lawful, Run, CallHandler, Possible, IsRun, Step;
    if i in l.w.table {
      var m, data := LoopRead(l, i, ready), l.w.table[i].data;
      CallIsRun(w, l, i, Read, data);
      if LoopTurn(l, i, ready) != m {
        LawfulBefore(w, m.done, Readiness(i, Write, Ask(m.oracle)));
        ReadKeepsKey(w, l, i, ready);
        RunsTo(w, m);
      }
      if m != l {
        LawfulBefore(w, l.done, Readiness(i, Read, Ask(l.oracle)));
        RunsTo(w, l);
      }
    }
  }

  lemma RunsTo(w: World, l: Loop)
    requires IsRun(w, l) && Lawful(w, l.done)
    ensures Run(w, l.done) == Goes(l.w)
  {
  }

  lemma {:induction false} PassImitated(w: World, n: nat, ready: Ready, oracle: seq<Answers>) returns (s: seq<seq<TableOp>>)
    requires Sound(w) && Lawful(w, LoopTurns(LoopFrom(w, oracle), n, ready).done)
    ensures forall more :: Imitates(w, oracle, n, ready, s, more)
  {
    hide Sound, Lawful, LoopTurn, Visit, TurnLike;
    if n == 0 {
      s := [];
      forall more
        ensures Imitates(w, oracle, n, ready, s, more)
      {
        assert s + more == more;
      }
    } else {
      hide Imitates, LoopTurns, TurnCallable, IsRun;
      var l := LoopTurns(LoopFrom(w, oracle), n - 1, ready);
      LastTurn(w, n, ready, oracle);
      PassIsRun(w, n - 1, ready, oracle);
      TurnLawful(w, l, n - 1, ready);
      var r := PassImitated(w, n - 1, ready, oracle);
      var v := TurnImitated(l, n - 1, ready);
      s := r + v;
      forall more
        ensures Imitates(w, oracle, n, ready, s, more)
      {
        assert Imitates(w, oracle, n - 1, ready, r, v + more);
        assert TurnLike(l, n - 1, ready, v, more);
        TurnFurther(w, n, ready, oracle, r, v, more);
      }
    }
  }

  lemma LastTurn(w: World, n: nat, ready: Ready, oracle: seq<Answers>)
    requires n > 0
    ensures LoopTurns(LoopFrom(w, oracle), n, ready) == LoopTurn(LoopTurns(LoopFrom(w, oracle), n - 1, ready), n - 1, ready)
  {
    hide LoopTurn;
  }

  lemma TurnFurther(
      w: World, n: nat, ready: Ready, oracle: seq<Answers>, r: seq<seq<TableOp>>, v: seq<seq<TableOp>>, more: seq<seq<TableOp>>)
    requires n > 0 && Imitates(w, oracle, n - 1, ready, r, v + more)
    requires TurnLike(LoopTurns(LoopFrom(w, oracle), n - 1, ready), n - 1, ready, v, more)
    ensures Imitates(w, oracle, n, ready, r + v, more)
  {
    hide LoopTurn, Visit;
    assert r + v + more == r + (v + more);
  }

  /**
   * The calls of a pass of the proxy are those of a pass of the selector: each for a descriptor in use, ready
   * and interested at that moment, upwards, with read before write, none twice.
   */
  lemma PassIsDisciplined(w: World, n: nat, ready: Ready, oracle: seq<Answers>)
    requires Sound(w) && Lawful(w, LoopTurns(LoopFrom(w, oracle), n, ready).done)
    ensures Disciplined(LoopTurns(LoopFrom(w, oracle), n, ready).calls, ready, n)
  {
    hide Sound, Lawful, LoopTurns, Disciplined;
    var s := PassImitated(w, n, ready, oracle);
    assert Imitates(w, oracle, n, ready, s, []);
    PassDiscipline(w.table, n, ready, s + []);
  }

  // ---------------------------------------------------------------- the queued jobs

  /** handle_block_notifications: one delivery for each queued job, newest first. */
  function Drain(ks: seq<Kernel>): seq<Action> {
    if ks == [] then [] else [Deliver(ks[0])] + Drain(ks[1..])
  }

  /** Delivering as many jobs as are queued is a run that leaves none. */
  lemma {:induction false} DrainEmpties(w: World, ks: seq<Kernel>)
    requires Sound(w) && |ks| == |w.jobs| && Lawful(w, Drain(ks))
    ensures var r := Run(w, Drain(ks)); r.Goes? && Sound(r.w) && r.w.jobs == []
    decreases |ks|
  {
    hide Sound, Possible, Commit, Dispatch;
    if ks != [] {
      var a := Deliver(ks[0]);
      assert Drain(ks)[0] == a && Drain(ks)[1..] == Drain(ks[1..]);
      StepOk(w, a);
      DeliveredGone(w, ks[0]);
      DrainEmpties(Step(w, a).w, ks[1..]);
    }
  }

  lemma DeliveredGone(w: World, k: Kernel)
    requires Sound(w) && w.jobs != [] && Possible(w, Deliver(k))
    ensures Step(w, Deliver(k)).Goes? && Step(w, Deliver(k)).w.jobs == w.jobs[1..]
  {
    hide Sound, Dispatch, Commit, Possible;
    StepOk(w, Deliver(k));
    var v := w.(jobs := w.jobs[1..]);
    JobFindsOwner(w, 0);
    var a := w.jobs[0].owner;
    CommitRest(v, a, AfterEvent(w.live[a], Block, w.jobs[0].fd, k));
  }

  /** A delivery does to the table what a list of selector operations does. */
  lemma DeliverScripted(w: World, k: Kernel) returns (ops: seq<TableOp>)
    requires Sound(w) && Possible(w, Deliver(k))
    ensures var r := Step(w, Deliver(k)); r.Goes? && ApplyOps(w.table, ops) == r.w.table
  {
    hide Sound, Inv, Holders, Rows, Commit, Dispatch, Enabled, Over, FdsOf, Open, Proper2, ApplyOps;
    StepOk(w, Deliver(k));
    JobFindsOwner(w, 0);
    var a, fd := w.jobs[0].owner, w.jobs[0].fd;
    OthersOf(w, a);
    AttemptsFresh(w, a, k.attempts);
    EventOk(w.live[a], Block, fd, k);
    var c := Dispatch(w.live[a], Block, fd, k).c;
    EventContinues(w, a, c, k.attempts);
    KeptProper(w.live[a]);
    KeptProper(c);
    ops := RowOps(a, w.live[a], c);
    CommitScripted(w, a, c);
    var v := w.(jobs := w.jobs[1..]);
    CommitTable(w, a, c);
    CommitTable(v, a, c);
  }

  function JobFds(jobs: seq<Job>): seq<int> {
    if jobs == [] then [] else [jobs[0].fd] + JobFds(jobs[1..])
  }

  /** Each job is delivered, in queue order, to the connection that queued it. */
  ghost predicate DeliversAll(jobs: seq<Job>, before: seq<Call>, calls: seq<Call>) {
    && |calls| == |before| + |jobs| && before <= calls
    && forall j | 0 <= j < |jobs| ::
         var c := calls[|before| + j];
         c.fd == jobs[j].fd && c.kind == Block && c.keyData == jobs[j].owner && c.item.handler == SocksClient
  }

  /** The delivery of the jobs, from these calls on, is the selector's with these scripts. */
  ghost predicate DrainLike(
      w: World, before: seq<Call>, ks: seq<Kernel>, s: seq<seq<TableOp>>, calls: seq<Call>, more: seq<seq<TableOp>>)
  {
    Run(w, Drain(ks)).Goes?
    && Deliveries(Pass(w.table, before, s + more), JobFds(w.jobs)) == Pass(Run(w, Drain(ks)).w.table, calls, more)
  }

  /**
   * Delivering the queued jobs to the proxy's connections is the selector's handle_block_notifications with
   * the proxy's callbacks as scripts: every job is delivered, to its owner, in queue order, and none twice.
   */
  lemma {:induction false} DrainImitated(w: World, before: seq<Call>, ks: seq<Kernel>)
    returns (s: seq<seq<TableOp>>, calls: seq<Call>)
    requires Sound(w) && |ks| == |w.jobs| && Lawful(w, Drain(ks))
    ensures DeliversAll(w.jobs, before, calls) && forall more :: DrainLike(w, before, ks, s, calls, more)
    decreases |ks|
  {
    hide Sound, Possible, Step, DrainLike, DeliversAll, ApplyOps;
    if ks == [] {
      s, calls := [], before;
      NoneDelivered(w, before);
    } else {
      var a := Deliver(ks[0]);
      assert Drain(ks)[0] == a && Drain(ks)[1..] == Drain(ks[1..]);
      StepOk(w, a);
      DeliveredGone(w, ks[0]);
      var ops := DeliverScripted(w, ks[0]);
      JobFindsOwner(w, 0);
      var fd := w.jobs[0].fd;
      var c := Call(fd, Block, w.table[fd].data, w.table[fd]);
      var v := Step(w, a).w;
      var r, later := DrainImitated(v, before + [c], ks[1..]);
      s, calls := [ops] + r, later;
      FirstDelivered(w.jobs, before, c, calls);
      forall more
        ensures DrainLike(w, before, ks, s, calls, more)
      {
        assert DrainLike(v, before + [c], ks[1..], r, calls, more);
        DrainFurther(w, v, before, ks, ops, r, calls, more);
      }
    }
  }

  lemma NoneDelivered(w: World, before: seq<Call>)
    requires w.jobs == []
    ensures DeliversAll(w.jobs, before, before) && forall more :: DrainLike(w, before, [], [], before, more)
  {
    forall more
      ensures DrainLike(w, before, [], [], before, more)
    {
      assert [] + more == more;
    }
  }

  lemma FirstDelivered(jobs: seq<Job>, before: seq<Call>, c: Call, calls: seq<Call>)
    requires jobs != [] && c.fd == jobs[0].fd && c.kind == Block && c.keyData == jobs[0].owner && c.item.handler == SocksClient
    requires DeliversAll(jobs[1..], before + [c], calls)
    ensures DeliversAll(jobs, before, calls)
  {
    assert calls[|before|] == (before + [c])[|before|];
    forall j | 1 <= j < |jobs|
      ensures jobs[j] == jobs[1..][j - 1] && calls[|before| + j] == calls[|before + [c]| + (j - 1)]
    {
    }
  }

  lemma DrainFurther(
      w: World, v: World, before: seq<Call>, ks: seq<Kernel>, ops: seq<TableOp>, r: seq<seq<TableOp>>, calls: seq<Call>,
      more: seq<seq<TableOp>>)
    requires ks != [] && w.jobs != [] && w.jobs[0].fd in w.table && Step(w, Deliver(ks[0])) == Goes(v) && v.jobs == w.jobs[1..]
    requires ApplyOps(w.table, ops) == v.table
    requires var item := w.table[w.jobs[0].fd];
             DrainLike(v, before + [Call(w.jobs[0].fd, Block, item.data, item)], ks[1..], r, calls, more)
    ensures DrainLike(w, before, ks, [ops] + r, calls, more)
  {
    hide Step, ApplyOps;
    assert [ops] + r + more == [ops] + (r + more);
    assert Head([ops] + (r + more)) == ops && Tail([ops] + (r + more)) == r + more;
    assert Drain(ks)[0] == Deliver(ks[0]) && Drain(ks)[1..] == Drain(ks[1..]);
    assert JobFds(w.jobs)[0] == w.jobs[0].fd && JobFds(w.jobs)[1..] == JobFds(w.jobs[1..]);
  }
}
