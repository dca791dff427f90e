/**
 * Over whole runs, what actions do beside the one connection: who is let in, who is queued, who is retired,
 * and when nobody is let in any more.
 */
module ProxyActions {
  import opened Common
  import opened Selectors
  import opened Connections
  import opened ConnectionLaws
  import opened ConnectionEvents
  import opened Proxy
  import opened ProxySteps
  import opened ProxyTheorems

  /** accept gave a descriptor that could be made non-blocking, and there is an object for the connection. */
  predicate Welcome(w: World, answers: Answers) {
    answers.accepted >= 0 && answers.nonBlocking && (w.pool != [] || answers.memory)
  }

  /**
   * A client is let in, in a pooled object if there is one, watched for its greeting, and counted; nobody else
   * notices. A descriptor beyond the table's is counted and retired at once. Otherwise nothing happens.
   */
  lemma ClientAdmitted(w: World, answers: Answers)
    requires Reachable(w) && w.listening && Possible(w, Readiness(w.server, Read, answers))
    ensures w.server in w.table && w.table[w.server].handler == SocksListener && w.table[w.server].interest == Interest(true, false)
    ensures var r := Step(w, Readiness(w.server, Read, answers));
            && r.Goes?
            && (!Welcome(w, answers) ==> r.w == w)
            && (Welcome(w, answers) && answers.accepted < 1024 ==>
                  var fd := answers.accepted;
                  var a := if w.pool != [] then w.pool[0] else answers.address;
                  && a !in w.live && fd !in w.table
                  && r.w.live == w.live[a := Opened(fd)] && r.w.table == w.table[fd := Item(Interest(true, false), SocksClient, a)]
                  && r.w.concurrent == w.concurrent + 1 && r.w.historic == w.historic + 1
                  && r.w.pool == (if w.pool != [] then w.pool[1..] else []) && r.w.closed == w.closed && r.w.jobs == w.jobs)
            && (Welcome(w, answers) && answers.accepted >= 1024 ==>
                  && r.w.live == w.live && r.w.table == w.table && r.w.jobs == w.jobs
                  && r.w.concurrent == w.concurrent && r.w.historic == w.historic + 1 && |r.w.closed| == |w.closed| + 1)
  {
    hide Inv, Holders, Opened, Release, Reachable, Listed, Connected, Queued, Metered;
    ReachableSound(w);
    ServerRow(w);
    RefusedGone(answers.accepted);
    RetiredSame(w, if w.pool != [] then w.pool[0] else answers.address);
  }

  lemma ServerRow(w: World)
    requires Sound(w) && w.listening
    ensures w.server in w.table && w.table[w.server].handler == SocksListener && w.table[w.server].interest == READ
    ensures w.monitor in w.table && w.table[w.monitor].handler == MonitorListener && w.table[w.monitor].interest == READ
    ensures |w.pool| > 0 ==> w.pool[0] !in w.live
  {
    hide Connected, Listed, Queued, Metered;
  }

  lemma RefusedGone(fd: int)
    ensures Gone(Release(Opened(fd).(clientReg := None)))
  {
  }

  lemma RetiredSame(w: World, a: nat)
    ensures a !in w.live ==> w.live - {a} == w.live
  {
  }

  /** So is a client of the monitor, who is not counted. */
  lemma MonitorAdmitted(w: World, answers: Answers)
    requires Reachable(w) && w.listening && Possible(w, Readiness(w.monitor, Read, answers))
    ensures w.monitor in w.table && w.table[w.monitor].handler == MonitorListener
    ensures w.table[w.monitor].interest == Interest(true, false)
    ensures var r := Step(w, Readiness(w.monitor, Read, answers));
            && r.Goes?
            && (if 0 <= answers.accepted < 1024 && answers.nonBlocking && answers.memory then
                  r.w == w.(table := w.table[answers.accepted := Item(Interest(true, false), MonitorClient, answers.address)])
                else r.w == w)
  {
    hide Inv, Holders, Reachable, Listed, Connected, Queued, Metered;
    ReachableSound(w);
    ServerRow(w);
  }

  /** After the shutdown nobody is let in, and everybody who is there is served on. */
  lemma ListenersLeave(w: World)
    requires Reachable(w) && w.listening
    ensures var r := Step(w, Shutdown);
            && r.Goes? && !r.w.listening && r.w.live == w.live && r.w.jobs == w.jobs && r.w.concurrent == w.concurrent
            && (forall fd | fd in r.w.table :: !r.w.table[fd].handler.SocksListener? && !r.w.table[fd].handler.MonitorListener?)
            && (forall fd | fd in w.table && (w.table[fd].handler.SocksClient? || w.table[fd].handler.MonitorClient?) ::
                  fd in r.w.table && r.w.table[fd] == w.table[fd])
  {
    hide Inv, Holders, Reachable, Rows, Listed, Connected, Queued, Pooled, Metered;
    ReachableSound(w);
  }

  /** A connection is retired in the action in which its last holder lets go, and in no other. */
  lemma RetiredWithLast(w: World, action: Action, a: nat)
    requires a in w.live && Reachable(w) && Possible(w, action)
    ensures Step(w, action).Goes?
    ensures a !in Step(w, action).w.live <==> Holders(NextOf(w, action, a)) == 0
  {
    hide Inv, Holders, Reachable, Possible, Step, NextOf, Sound, Core;
    ReachableSound(w);
    NextIs(w, action, a);
    ReachableStep(w, action);
    var v := Step(w, action).w;
    if a in v.live {
      LiveInv(v, a);
    } else {
      ClosedHasNone(v, |w.closed|);
    }
  }

  lemma ClosedHasNone(w: World, i: nat)
    requires Reachable(w) && i < |w.closed|
    ensures Holders(w.closed[i]) == 0
  {
    hide Inv, Holders, Core, Reachable, Connected, Listed, Attached, Queued, Pooled;
    ReachableSound(w);
  }

  /** Whoever is retired goes to the front of the pool, if fewer than 50 are there, and is counted no more. */
  lemma RetiredRecycled(w: World, action: Action, a: nat)
    requires a in w.live && Reachable(w) && Possible(w, action) && Step(w, action).Goes? && a !in Step(w, action).w.live
    ensures var v := Step(w, action).w;
            && v.pool == (if |w.pool| < 50 then [a] + w.pool else w.pool)
            && v.concurrent == w.concurrent - 1 && v.historic == w.historic && v.live == w.live - {a}
            && v.closed == w.closed + [NextOf(w, action, a)]
  {
    hide Sound, Reachable, Dispatch, Rows, Commit, FdsOf, Open, Freed, Accepts, Opened, Release, Resolved, ResolverReleases;
    ReachableSound(w);
    Counted1(w, a);
    match action
    case Readiness(fd, kind, answers) =>
      ReadyOk(w, fd, kind, answers);
      HandlerSet(w, fd, kind);
      if w.table[fd].handler.SocksClient? {
        ServeOk(w, fd, kind, answers);
        var b := w.table[fd].data;
        CommitRest(w, b, Dispatch(w.live[b], kind, fd, answers.k).c);
      } else {
        AdmittedElsewhere(w, answers, a);
      }
    case Resolve(address, failed, list, memory) =>
    case DropReference(address) => CommitRest(w, address, ResolverReleases(w.live[address]));
    case Deliver(k) =>
      StepOk(w, action);
      JobFindsOwner(w, 0);
      var b := w.jobs[0].owner;
      CommitRest(w.(jobs := w.jobs[1..]), b, AfterEvent(w.live[b], Block, w.jobs[0].fd, k));
    case Shutdown =>
  }

  lemma Counted1(w: World, a: nat)
    requires a in w.live && Sound(w)
    ensures w.concurrent > 0
  {
    hide Connected, Listed, Attached, Queued, Pooled, Gone;
    assert a in w.live.Keys;
  }

  lemma AdmittedElsewhere(w: World, answers: Answers, a: nat)
    requires a in w.live && Accepts(w, answers) && Sound(w)
    ensures a in AcceptClient(w, answers).live
  {
    hide Opened, Release, Connected, Listed, Attached, Queued, Metered;
  }

  /** A job goes in front of the queue when its resolver is done, the first leaves when it is delivered, and no other moves. */
  lemma QueueMoves(w: World, action: Action)
    requires Reachable(w) && Possible(w, action)
    ensures Step(w, action).Goes?
    ensures Step(w, action).w.jobs
         == match action
            case Resolve(address, _, _, memory) =>
              if memory then [Job(w.live[address].clientFd, address)] + w.jobs else w.jobs
            case Deliver(_) => w.jobs[1..]
            case _ => w.jobs
  {
    hide Sound, Reachable, Dispatch, Rows, Commit, FdsOf, Open, Freed, Accepts, Opened, Release, Resolved, ResolverReleases;
    ReachableSound(w);
    StepOk(w, action);
    match action
    case Readiness(fd, kind, answers) =>
      HandlerSet(w, fd, kind);
      if w.table[fd].handler.SocksClient? {
        ServeOk(w, fd, kind, answers);
        var b := w.table[fd].data;
        CommitRest(w, b, Dispatch(w.live[b], kind, fd, answers.k).c);
      }
    case Resolve(address, failed, list, memory) =>
    case DropReference(address) => CommitRest(w, address, ResolverReleases(w.live[address]));
    case Deliver(k) =>
      JobFindsOwner(w, 0);
      var b := w.jobs[0].owner;
      CommitRest(w.(jobs := w.jobs[1..]), b, AfterEvent(w.live[b], Block, w.jobs[0].fd, k));
    case Shutdown =>
  }

  /** A client of the monitor changes the users, and re-arms or closes its own descriptor, and nothing else. */
  lemma MonitorReacts(w: World, fd: int, kind: EventKind, answers: Answers)
    requires Reachable(w) && Possible(w, Readiness(fd, kind, answers)) && w.table[fd].handler.MonitorClient?
    ensures var r := Step(w, Readiness(fd, kind, answers));
            && r.Goes? && r.w == w.(users := answers.users, table := r.w.table)
            && match answers.reaction
               case Rearm(i) => r.w.table == w.table[fd := Item(i, MonitorClient, w.table[fd].data)]
               case Close => r.w.table == w.table - {fd}
  {
    hide Sound, Reachable;
    ReachableSound(w);
    HandlerSet(w, fd, kind);
  }
}
