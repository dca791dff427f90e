/** Every event of a connection does what `Protocol` says of it. */
module ProtocolSteps {
  import opened Common
  import opened Buffers
  import opened Selectors
  import opened Connections
  import opened ConnectionLaws
  import opened ConnectionSteps
  import opened ConnectionEvents
  import Failover
  import Incremental
  import Hello
  import Auth
  import Requests
  import P = Protocol

  /** What becomes of a handler's turn. */
  function After(t: Turn): Conn {
    if Followed(t.c, t.next).Alive? then Followed(t.c, t.next).c else t.c
  }

  /** Both descriptors that are recorded are registered, and the state is one that has a handler. */
  predicate Standing(c: Conn) {
    c.clientReg.Some? && (c.originFd == -1 <==> c.originReg.None?) && c.current.Some? && !Over(c)
  }

  lemma StandingSame(c: Conn, d: Conn)
    requires Standing(c) && d.current == c.current && d.originFd == c.originFd && d.originReg == c.originReg && d.clientReg.Some?
    ensures Standing(d)
  {
  }

  lemma ClientWatched(c: Conn)
    requires Standing(c)
    ensures c.clientReg.Some?
  {
  }

  lemma StaysIn(t: Turn)
    requires Standing(t.c) && t.c.current == Some(t.next)
    ensures After(t) == t.c
  {
    hide Grows;
  }

  lemma NothingOnArrival(c: Conn, next: State)
    requires (next == Done || next == Error) && c.current != Some(next)
    ensures Jump(c, next) == c.(current := Some(next))
  {
    hide Grows;
  }

  lemma Finishes(c: Conn)
    requires c.clientReg.Some? && (c.originFd == -1 <==> c.originReg.None?)
    ensures var o := Finish(c);
            && o.Alive? && o.c.current == c.current && o.c.clientReg.None? && o.c.originReg.None?
            && o.c.hist == c.hist && o.c.rb == c.rb && o.c.wb == c.wb && o.c.originFd == c.originFd
  {
    hide Grows;
  }

  lemma Closes(t: Turn)
    requires Standing(t.c) && (t.next == Done || t.next == Error)
    ensures var d := After(t);
            && d.current == Some(t.next) && d.clientReg.None? && d.originReg.None?
            && d.hist == t.c.hist && d.rb == t.c.rb && d.wb == t.c.wb && d.originFd == t.c.originFd
  {
    hide Grows, Jump, Finish;
    NothingOnArrival(t.c, t.next);
    Finishes(Jump(t.c, t.next));
  }

  lemma MovesOn(t: Turn)
    requires Standing(t.c) && t.next != Done && t.next != Error && t.next != Copy && t.c.current != Some(t.next)
    ensures After(t) == t.c.(current := Some(t.next), client := After(t).client)
  {
    hide Grows;
  }

  lemma ArrivesInCopy(c: Conn)
    requires c.current != Some(Copy) && c.wb.queue == []
    ensures var d := Jump(c, Copy); d.rb.queue == c.rb.queue && d.wb.queue == [] && d.originFd == c.originFd
  {
    hide Grows;
  }

  lemma MovesToCopy(t: Turn)
    requires Standing(t.c) && t.next == Copy && t.c.current != Some(Copy) && t.c.wb.queue == []
    ensures var d := After(t);
            && d.current == Some(Copy) && d.hist == t.c.hist && d.originFd == t.c.originFd
            && d.rb.queue == t.c.rb.queue && d.wb.queue == []
  {
    hide Grows, Jump;
    ArrivesInCopy(t.c);
  }

  // ---------------------------------------------------------------- reading the greeting

  /** Where the greeting's parser is after `s`, and what it has not taken. */
  predicate GreetingState(s: seq<byte>, q: Hello.Parser, rest: seq<byte>) {
    if (|s| >= 1 && s[0] != 5) || (|s| >= 2 && s[1] == 0) then q.state.Error?
    else if |s| >= 2 && |s| >= 2 + s[1] as int then
      q.state.Done? && q.selected == Hello.Choose(s[2..2 + s[1] as int]) && rest == s[2 + s[1] as int..]
    else !q.Terminal() && rest == []
  }

  /** What becomes of a connection whose parser is `q`. */
  predicate GreetingOutcome(q: Hello.Parser, d: Conn) {
    match q.state
    case Error => P.GivenUp(d)
    case Done => d.current == Some(HelloWrite) && d.wb.queue == [5, q.selected] && d.hist.method_ == Some(q.selected)
    case _ => d.current == Some(HelloRead)
  }

  lemma GreetingConcludes(s: seq<byte>, q: Hello.Parser, rest: seq<byte>, d: Conn)
    requires GreetingState(s, q, rest) && GreetingOutcome(q, d) && d.rb.queue == rest
    ensures P.GreetingRead(s, d)
  {
  }

  lemma GreetingSoFar(p: Hello.Parser, seen: seq<byte>, bs: seq<byte>)
    requires !p.Terminal() && Hello.Describes(p, seen)
    ensures GreetingState(seen + bs, Hello.Parse(p, bs), bs[Hello.Taken(p, bs)..])
  {
    hide Hello.Step, Incremental.Feed, Incremental.Consumed;
    var s, q, k := seen + bs, Hello.Parse(p, bs), Hello.Taken(p, bs);
    Hello.FeedDescribes(p, seen, bs);
    var u := seen + bs[..k];
    assert u <= s && |u| == |seen| + k;
    if !q.Terminal() {
      assert u == s;
    } else if q.state.Done? {
      assert u[2..] == s[2..2 + s[1] as int];
      assert bs[k..] == s[|u|..];
    }
  }

  lemma HelloReadBehaves(c: Conn, k: Kernel)
    requires Standing(c) && c.client.HelloSt? && c.current == Some(HelloRead) && c.wb == EmptyFifo(BUFFER_SIZE)
    requires !c.client.hello.Terminal() && Hello.Describes(c.client.hello, c.hist.hello)
    ensures P.Received(c, k, After(HelloReadReady(c, k)))
  {
    hide Hello.Describes, HelloReceived, P.GreetingRead, Standing, After, Grows;
    var t := HelloReadReady(c, k);
    match k.incoming
    case Data(sent) =>
      var got := P.Delivered(sent, c.rb.space);
      if got == [] {
        Closes(t);
      } else {
        assert Recv(k, c.rb.space) == Got(got);
        GreetingBehaves(c, got);
      }
    case RecvAgain => StaysIn(t);
    case RecvFails => Closes(t);
  }

  lemma GreetingParsed(c: Conn, got: seq<byte>)
    requires c.client.HelloSt? && |got| <= c.rb.space
    ensures var q, e := c.rb.queue + got, HelloParsed(TakeFromClient(c, got));
            && e == c.(client := e.client, rb := e.rb, hist := c.hist.(fromClient := e.hist.fromClient, hello := e.hist.hello))
            && e.client.HelloSt?
            && e.client.hello == Hello.Parse(c.client.hello, q) && e.rb.queue == q[Hello.Taken(c.client.hello, q)..]
            && e.hist.fromClient == c.hist.fromClient + got && e.hist.hello + e.rb.queue == c.hist.hello + q
  {
    hide Hello.Parse, Grows, Fifo.Wf;
    var q, k := c.rb.queue + got, Hello.Taken(c.client.hello, c.rb.queue + got);
    assert c.hist.hello + q == (c.hist.hello + q[..k]) + q[k..];
  }

  lemma GreetingTurn(c: Conn, e: Conn, t: Turn)
    requires Standing(c) && c.current == Some(HelloRead) && c.wb == EmptyFifo(BUFFER_SIZE) && e.client.HelloSt?
    requires e == c.(client := e.client, rb := e.rb, hist := e.hist)
    requires t == if e.client.hello.state.Error? then Turn(e, Error)
                  else if e.client.hello.state.Done? then HelloProcess(e.(clientReg := Some(WRITE)))
                  else Turn(e, HelloRead)
    ensures var d := After(t);
            && d.rb == e.rb && d.hist == e.hist.(method_ := d.hist.method_)
            && GreetingOutcome(e.client.hello, d)
  {
    hide After, Grows;
    StandingSame(c, t.c);
    if e.client.hello.state.Done? {
      PutFits(c.wb, Hello.Answer(e.client.hello.selected));
      MovesOn(t);
    } else if e.client.hello.state.Error? {
      Closes(t);
    } else {
      StaysIn(t);
    }
  }

  lemma GreetingBehaves(c: Conn, got: seq<byte>)
    requires Standing(c) && c.client.HelloSt? && c.current == Some(HelloRead) && c.wb == EmptyFifo(BUFFER_SIZE)
    requires !c.client.hello.Terminal() && Hello.Describes(c.client.hello, c.hist.hello) && 0 < |got| <= c.rb.space
    ensures var d := After(HelloReceived(c, got));
            && d.hist.fromClient == c.hist.fromClient + got && P.WiresKept(c, d) && P.RequestKept(c, d)
            && d.hist.auth == c.hist.auth && d.hist.status == c.hist.status && d.hist.users == c.hist.users
            && d.hist.hello + d.rb.queue == c.hist.hello + c.rb.queue + got
            && P.GreetingRead(c.hist.hello + c.rb.queue + got, d)
  {
    hide Hello.Describes, Hello.Parse, Hello.Taken, After, Grows, Standing, HelloParsed, HelloProcess, P.GreetingRead,
         GreetingState, GreetingOutcome;
    ClientWatched(c);
    var q := c.rb.queue + got;
    assert c.hist.hello + c.rb.queue + got == c.hist.hello + q;
    GreetingSoFar(c.client.hello, c.hist.hello, q);
    GreetingParsed(c, got);
    var e := HelloParsed(TakeFromClient(c, got));
    GreetingTurn(c, e, HelloReceived(c, got));
    GreetingConcludes(c.hist.hello + q, e.client.hello, e.rb.queue, After(HelloReceived(c, got)));
  }

  // ---------------------------------------------------------------- sending an answer

  /** What one send leaves. */
  lemma SentPart(c: Conn, n: nat)
    requires c.wb.queue != [] && n > 0
    ensures var m := Min(n, |c.wb.queue|); var d := GiveToClient(c, m);
            && d.hist == c.hist.(toClient := c.hist.toClient + P.Delivered(c.wb.queue, n))
            && d == c.(wb := d.wb, hist := d.hist)
            && d.wb.queue == if n < |c.wb.queue| then c.wb.queue[n..] else []
  {
    hide Grows;
    var q := c.wb.queue;
    assert q[..|q|] == q;
  }

  /** The three handlers that write an answer, by the turn they take when the kernel takes `m` bytes. */
  lemma Sends(c: Conn, k: Kernel, t: Turn, next: State)
    requires Standing(c) && c.wb.queue != [] && next != Error && c.current != Some(next)
    requires match k.outgoing
             case SendAgain => t == Turn(c, c.current.value)
             case SendFails => t == Turn(c, Error)
             case Takes(n) =>
               if n == 0 then t == Turn(c, Error)
               else
                 var d := GiveToClient(c, Min(n, |c.wb.queue|));
                 if d.wb.queue != [] then t == Turn(d, c.current.value)
                 else t.next == next && t.c == d.(clientReg := t.c.clientReg) && t.c.clientReg.Some?
    ensures P.AnswerSent(c, k, After(t), next)
  {
    ClientWatched(c);
    hide Standing, After, GiveToClient, Grows, Fifo.Wf;
    match k.outgoing
    case SendAgain => StaysIn(t);
    case SendFails => Closes(t);
    case Takes(n) =>
      if n == 0 {
        Closes(t);
      } else {
        SentPart(c, n);
        StandingSame(c, t.c);
        if n < |c.wb.queue| {
          StaysIn(t);
        } else if next == Done {
          Closes(t);
        } else if next == Copy {
          MovesToCopy(t);
        } else {
          MovesOn(t);
        }
      }
  }

  lemma HelloWriteBehaves(c: Conn, k: Kernel)
    requires Standing(c) && c.client.HelloSt? && c.current == Some(HelloWrite) && c.wb.queue != []
    requires c.client.hello.selected in {0, 2, 255} && c.hist.method_ == Some(c.client.hello.selected)
    ensures P.AnswerSent(c, k, After(HelloWriteReady(c, k)), P.AfterMethod(c.hist.method_))
  {
    hide After, Grows, P.AnswerSent, Standing;
    ClientWatched(c);
    Sends(c, k, HelloWriteReady(c, k), P.AfterMethod(c.hist.method_));
  }

  lemma AuthWriteBehaves(c: Conn, k: Kernel)
    requires Standing(c) && c.client.AuthSt? && c.current == Some(AuthWrite) && c.wb.queue != []
    requires c.hist.status == Some(if c.client.authorized then 0 else 1)
    ensures P.AnswerSent(c, k, After(AuthWriteReady(c, k)), if c.hist.status == Some(0) then RequestRead else Done)
  {
    hide After, Grows, P.AnswerSent, Standing;
    ClientWatched(c);
    Sends(c, k, AuthWriteReady(c, k), if c.hist.status == Some(0) then RequestRead else Done);
  }

  lemma RequestWriteBehaves(c: Conn, k: Kernel)
    requires Standing(c) && c.client.RequestSt? && c.current == Some(RequestWrite) && c.wb.queue != []
    requires c.hist.code == Some(c.client.reply) && (c.client.reply == 0 ==> c.originFd != -1)
    ensures P.AnswerSent(c, k, After(RequestWriteReady(c, k)), if c.hist.code == Some(0) then Copy else Done)
  {
    hide After, Grows, P.AnswerSent, Standing;
    ClientWatched(c);
    Sends(c, k, RequestWriteReady(c, k), if c.hist.code == Some(0) then Copy else Done);
  }

  // ---------------------------------------------------------------- reading the login

  lemma LoginEncoded(s: seq<byte>, u: seq<byte>, p: seq<byte>)
    ensures P.LoginIn(s, u, p) <==> Auth.Credential(u) && Auth.Credential(p) && Auth.Encode(u, p) <= s
  {
    if Auth.Credential(u) && Auth.Credential(p) {
      var e := Auth.Encode(u, p);
      assert e[2..2 + |u|] == u && e[3 + |u|..3 + |u| + |p|] == p;
      if e <= s {
        assert forall i | 0 <= i < |e| :: e[i] == s[i];
        assert s[2..2 + |u|] == e[2..2 + |u|] && s[3 + |u|..3 + |u| + |p|] == e[3 + |u|..3 + |u| + |p|];
      }
      if P.LoginIn(s, u, p) {
        var a := s[..3 + |u| + |p|];
        assert a == s[..2] + s[2..2 + |u|] + [s[2 + |u|]] + s[3 + |u|..3 + |u| + |p|];
        assert s[..2] == [1, |u|];
      }
    }
  }

  /** Where the login's parser is after `s`, and what it has not taken. */
  ghost predicate LoginState(s: seq<byte>, q: Auth.Parser, rest: seq<byte>) {
    && (q.state.Error? <==> Auth.Malformed(s))
    && (q.state.Done? ==> P.LoginIn(s, q.Username(), q.Password()))
    && (forall u, w | P.LoginIn(s, u, w) ::
          q.state.Done? && q.Username() == u && q.Password() == w && rest == s[3 + |u| + |w|..])
    && (!q.Terminal() ==> rest == [])
  }

  /** What becomes of a connection whose parser is `q`. */
  predicate LoginOutcome(q: Auth.Parser, users: map<seq<byte>, seq<byte>>, d: Conn) {
    match q.state
    case Error => P.GivenUp(d)
    case Done =>
      var status := if q.Username() in users && users[q.Username()] == q.Password() then 0 else 1;
      d.current == Some(AuthWrite) && d.wb.queue == [1, status] && d.hist.status == Some(status)
    case _ => d.current == Some(AuthRead)
  }

  lemma LoginConcludes(s: seq<byte>, q: Auth.Parser, rest: seq<byte>, users: map<seq<byte>, seq<byte>>, d: Conn)
    requires LoginState(s, q, rest) && LoginOutcome(q, users, d) && d.rb.queue == rest
    ensures P.LoginRead(s, users, d)
  {
    hide Auth.Malformed, P.LoginIn;
  }

  lemma LoginSoFar(seen: seq<byte>, bs: seq<byte>)
    requires Auth.Taken(Auth.Initial(), seen) == |seen|
    ensures var p := Auth.Parse(Auth.Initial(), seen);
            LoginState(seen + bs, Auth.Parse(p, bs), bs[Auth.Taken(p, bs)..])
  {
    hide Incremental.Feed, Incremental.Consumed;
    var s, p := seen + bs, Auth.Parse(Auth.Initial(), seen);
    var q, k := Auth.Parse(p, bs), Auth.Taken(p, bs);
    Incremental.FeedOn(Auth.MACHINE, Auth.Initial(), seen, bs);
    assert q == Auth.Parse(Auth.Initial(), s) && Auth.Taken(Auth.Initial(), s) == |seen| + k;
    Auth.ErrorIffMalformed(s);
    if q.state.Done? {
      Auth.DoneIffMessage(s, q.Username(), q.Password());
      LoginEncoded(s, q.Username(), q.Password());
    }
    forall u, w | P.LoginIn(s, u, w)
      ensures q.state.Done? && q.Username() == u && q.Password() == w && bs[k..] == s[3 + |u| + |w|..]
    {
      LoginEncoded(s, u, w);
      Auth.DoneIffMessage(s, u, w);
      assert bs[k..] == s[|seen| + k..];
    }
  }

  lemma AuthReadBehaves(c: Conn, k: Kernel)
    requires Standing(c) && c.client.AuthSt? && c.current == Some(AuthRead) && c.wb == EmptyFifo(BUFFER_SIZE)
    requires c.client.auth == Login(c.hist) && Auth.Taken(Auth.Initial(), c.hist.auth) == |c.hist.auth|
    ensures P.Received(c, k, After(AuthReadReady(c, k)))
  {
    hide AuthReceived, P.LoginRead, Standing, After, Grows, Login, Auth.Taken;
    var t := AuthReadReady(c, k);
    match k.incoming
    case Data(sent) =>
      var got := P.Delivered(sent, c.rb.space);
      if got == [] {
        Closes(t);
      } else {
        assert Recv(k, c.rb.space) == Got(got);
        LoginBehaves(c, got, k);
      }
    case RecvAgain => StaysIn(t);
    case RecvFails => Closes(t);
  }

  /** What the check leaves, of a login read to its end. */
  lemma Checked(c: Conn, k: Kernel)
    requires c.client.AuthSt? && c.wb == EmptyFifo(BUFFER_SIZE) && c.client.auth.state.Done?
    ensures var t := AuthProcess(c, k); var u, p := c.client.auth.Username(), c.client.auth.Password();
            var status := if u in k.users && k.users[u] == p then 0 else 1;
            && t.next == AuthWrite && t.c.wb.queue == [1, status] && t.c.hist.status == Some(status)
            && t.c.rb == c.rb && t.c.hist == c.hist.(status := t.c.hist.status, users := t.c.hist.users)
            && t.c.current == c.current && t.c.clientReg == c.clientReg && t.c.originReg == c.originReg && t.c.originFd == c.originFd
  {
    hide Grows, CString;
    PutFits(c.wb, Auth.Answer(if Knows(k.users, c.client.auth.Username(), c.client.auth.Password()) then 0 else 1));
  }

  lemma LoginParsed(c: Conn, got: seq<byte>)
    requires c.client.AuthSt? && |got| <= c.rb.space
    ensures var q, e := c.rb.queue + got, AuthParsed(TakeFromClient(c, got));
            && e == c.(client := e.client, rb := e.rb, hist := c.hist.(fromClient := e.hist.fromClient, auth := e.hist.auth))
            && e.client.AuthSt?
            && e.client.auth == Auth.Parse(c.client.auth, q) && e.rb.queue == q[Auth.Taken(c.client.auth, q)..]
            && e.hist.fromClient == c.hist.fromClient + got && e.hist.auth + e.rb.queue == c.hist.auth + q
  {
    hide Auth.Parse, Grows, Fifo.Wf;
    var q, k := c.rb.queue + got, Auth.Taken(c.client.auth, c.rb.queue + got);
    assert c.hist.auth + q == (c.hist.auth + q[..k]) + q[k..];
  }

  /** The connection after the login was parsed, and the turn that follows. */
  lemma LoginTurn(c: Conn, e: Conn, k: Kernel, t: Turn)
    requires Standing(c) && c.current == Some(AuthRead) && c.wb == EmptyFifo(BUFFER_SIZE) && e.client.AuthSt?
    requires e == c.(client := e.client, rb := e.rb, hist := e.hist)
    requires t == if e.client.auth.state.Error? then Turn(e, Error)
                  else if e.client.auth.state.Done? then AuthProcess(e.(clientReg := Some(WRITE)), k)
                  else Turn(e, AuthRead)
    ensures var d := After(t);
            && d.rb == e.rb && d.hist == e.hist.(status := d.hist.status, users := d.hist.users)
            && LoginOutcome(e.client.auth, k.users, d)
  {
    hide After, Grows, AuthProcess;
    if e.client.auth.state.Done? {
      Checked(e.(clientReg := Some(WRITE)), k);
      StandingSame(c, t.c);
      MovesOn(t);
    } else {
      StandingSame(c, e);
      if e.client.auth.state.Error? {
        Closes(t);
      } else {
        StaysIn(t);
      }
    }
  }

  lemma LoginBehaves(c: Conn, got: seq<byte>, k: Kernel)
    requires Standing(c) && c.client.AuthSt? && c.current == Some(AuthRead) && c.wb == EmptyFifo(BUFFER_SIZE)
    requires c.client.auth == Login(c.hist) && Auth.Taken(Auth.Initial(), c.hist.auth) == |c.hist.auth|
    requires 0 < |got| <= c.rb.space
    ensures var d := After(AuthReceived(c, got, k));
            && d.hist.fromClient == c.hist.fromClient + got && P.WiresKept(c, d) && P.RequestKept(c, d)
            && d.hist.hello == c.hist.hello && d.hist.method_ == c.hist.method_
            && d.hist.auth + d.rb.queue == c.hist.auth + c.rb.queue + got
            && P.LoginRead(c.hist.auth + c.rb.queue + got, k.users, d)
  {
    hide Auth.Parse, Auth.Taken, After, Grows, AuthProcess, AuthParsed, Standing, LoginState, LoginOutcome, P.LoginRead;
    ClientWatched(c);
    var q := c.rb.queue + got;
    assert c.hist.auth + c.rb.queue + got == c.hist.auth + q;
    LoginSoFar(c.hist.auth, q);
    LoginParsed(c, got);
    var e := AuthParsed(TakeFromClient(c, got));
    LoginTurn(c, e, k, AuthReceived(c, got, k));
    LoginConcludes(c.hist.auth + q, e.client.auth, e.rb.queue, k.users, After(AuthReceived(c, got, k)));
  }

  // ---------------------------------------------------------------- replies

  /** Only the reply has been made: nothing of what was dialled or asked for has changed. */
  predicate OnlyReplied(c: Conn, d: Conn) {
    && d.originFd == c.originFd && d.originReg == c.originReg && d.rb == c.rb
    && d.remaining == c.remaining && d.destination == c.destination && d.port == c.port && d.username == c.username
    && d.hist == c.hist.(code := d.hist.code, reply := d.hist.reply, log := d.hist.log, retriedAtOnce := d.hist.retriedAtOnce)
  }

  /** Unanswered, with room for any reply. */
  predicate Open(c: Conn) {
    && Standing(c) && c.current != Some(RequestWrite) && c.client.RequestSt?
    && c.wb == EmptyFifo(BUFFER_SIZE) && !c.logged && c.hist.log == [] && c.hist.code.None?
  }

  lemma LogsAs(c: Conn, code: byte)
    requires !c.logged && c.hist.log == [] && code in {0, 1, 3, 4, 5, 7, 8}
    ensures P.LoggedAs(Logged(c, code), code)
  {
    hide Grows;
  }

  lemma RefusalPut(c: Conn, code: byte)
    requires Open(c) && code in {1, 3, 4, 5, 7, 8}
    ensures var t := SetReply(c, code);
            && t.next == RequestWrite && t.c.clientReg == Some(WRITE) && t.c.current == c.current && OnlyReplied(c, t.c)
            && t.c.hist.code == Some(code) && t.c.hist.reply == [5, code, 0, 1, 0, 0, 0, 0, 0, 0] && t.c.wb.queue == t.c.hist.reply
            && P.LoggedAs(t.c, code)
  {
    hide Grows, LogStatus, Logged, P.Called;
    var d := c.(client := c.client.(reply := code));
    LogsAs(d, code);
    LoggedOnly(d, code);
    PutFits(c.wb, Requests.ReplyZero(code));
  }

  lemma LoggedOnly(c: Conn, code: byte)
    ensures Logged(c, code) == c.(logged := true, hist := c.hist.(log := Logged(c, code).hist.log))
  {
    hide Grows;
  }

  lemma Refusal(c: Conn, code: byte)
    requires Open(c) && code in {1, 3, 4, 5, 7, 8}
    ensures var d := After(SetReply(c, code)); P.Refuses(d, code) && OnlyReplied(c, d)
  {
    hide Grows, SetReply, After, P.Called, Standing;
    RefusalPut(c, code);
    StandingSame(c, SetReply(c, code).c);
    MovesOn(SetReply(c, code));
  }

  /** The reply of a success, with the address that getsockname gave. */
  function BoundReply(bound: Bound): seq<byte> {
    match bound
    case NoName => [5, 0, 0, 1, 0, 0, 0, 0, 0, 0]
    case Bound4(a, p) => [5, 0, 0, 1] + a + [p / 256, p % 256]
    case Bound6(a, p) => [5, 0, 0, 4] + a + [p / 256, p % 256]
  }

  lemma BindIs(k: Kernel)
    ensures OriginBind(k, Requests.SUCCEEDED) == BoundReply(k.bound)
    ensures |BoundReply(k.bound)| <= 22
  {
    match k.bound
    case Bound4(a, p) => assert a == [a[0], a[1], a[2], a[3]];
    case _ =>
  }

  lemma AcceptancePut(c: Conn, k: Kernel, log: bool)
    requires Open(c)
    ensures var t := Reply(c, k, log);
            && t.next == RequestWrite && t.c.clientReg == c.clientReg && t.c.current == c.current && OnlyReplied(c, t.c)
            && t.c.hist.code == Some(0) && t.c.hist.reply == BoundReply(k.bound) && t.c.wb.queue == t.c.hist.reply
            && if log then P.LoggedAs(t.c, 0) else t.c.hist.log == []
  {
    hide Grows, LogStatus, Logged, P.Called, OriginBind, BoundReply;
    var d := c.(client := c.client.(reply := Requests.SUCCEEDED));
    LogsAs(d, 0);
    LoggedOnly(d, 0);
    BindIs(k);
    PutFits(c.wb, BoundReply(k.bound));
  }

  lemma Acceptance(c: Conn, k: Kernel, log: bool)
    requires Open(c) && c.originReg == Some(NOOP)
    ensures var d := After(Succeed(c, k, log)); P.Accepts(d, k.bound, log) && OnlyReplied(c, d)
  {
    hide Grows, Reply, After, P.Called, BoundReply;
    AcceptancePut(c, k, log);
    AcceptanceMoves(c, Succeed(c, k, log), k, log);
  }

  lemma AcceptanceMoves(c: Conn, t: Turn, k: Kernel, log: bool)
    requires Open(c) && c.originReg == Some(NOOP)
    requires t.next == RequestWrite && t.c.clientReg == Some(WRITE) && t.c.current == c.current && OnlyReplied(c, t.c)
    requires t.c.hist.code == Some(0) && t.c.hist.reply == BoundReply(k.bound) && t.c.wb.queue == t.c.hist.reply
    requires if log then P.LoggedAs(t.c, 0) else t.c.hist.log == []
    ensures P.Accepts(After(t), k.bound, log) && OnlyReplied(c, After(t))
  {
    hide Grows, After, P.Called;
    StandingSame(c, t.c);
    MovesOn(t);
  }

  // ---------------------------------------------------------------- dialling

  lemma RepliedDialKept(c: Conn, d: Conn)
    requires OnlyReplied(c, d)
    ensures P.DialKept(c, d) && d.hist.tried == c.hist.tried
  {
  }

  lemma DialKeptFrom(c: Conn, e: Conn, d: Conn)
    requires P.DialKept(e, d) && e.rb == c.rb && e.destination == c.destination && e.port == c.port
    requires e.hist == c.hist.(probeFailed := e.hist.probeFailed)
    ensures P.DialKept(c, d)
  {
  }

  /** Ready to dial: unanswered, with nothing registered for an origin, and no interest in the client. */
  predicate Dials(c: Conn) {
    Open(c) && c.originFd == -1 && c.clientReg == Some(NOOP)
  }

  lemma Explained(errno: Errno)
    ensures Failover.Explains(errno, ReplyForErrno(errno)) && ReplyForErrno(errno) in {1, 3, 4, 5}
  {
  }

  lemma RefusalFor(c: Conn, errno: Errno)
    requires Open(c)
    ensures var d := After(SetReply(c, ReplyForErrno(errno)));
            OnlyReplied(c, d) && P.RefusedFor(d, errno)
  {
    hide Open, SetReply, After, P.Refuses, Failover.Explains, ReplyForErrno, OnlyReplied;
    Explained(errno);
    Refusal(c, ReplyForErrno(errno));
  }

  /** What the address loop left is `r`, and this is what follows. */
  lemma DialledAfter(c: Conn, r: Connect, k: Kernel, log: bool)
    requires Dials(c) && (c.current == Some(Resolving) || c.current == Some(State.Connecting))
    requires Failover.Dials(c, k.attempts, HostUnreach, r) && Failover.Kept(c, r.c)
    requires r.c.current == c.current && r.c.clientFd == c.clientFd
    ensures P.Dialled(c, IpOnly(c.remaining), k, After(AfterConnect(r, k, log)), log)
    ensures P.DialKept(c, After(AfterConnect(r, k, log)))
  {
    hide After, SetReply, Succeed, ReplyForErrno, Failover.Explains, P.Refuses, P.Accepts, Grows, Moved;
    match r
    case NotConnected(e, errno) =>
      LoopOpen(c, e);
      RefusalFor(e, errno);
    case Connecting(e, inProgress) =>
      LoopOpen(c, e);
      if inProgress {
        if c.current == Some(State.Connecting) {
          StaysIn(Turn(e, State.Connecting));
        } else {
          MovesOn(Turn(e, State.Connecting));
        }
      } else {
        Acceptance(e, k, log);
        AcceptsAny(After(Succeed(e, k, log)), k.bound, log);
      }
  }

  lemma AcceptsAny(d: Conn, bound: Bound, log: bool)
    requires P.Accepts(d, bound, log)
    ensures d.originFd != -1
  {
  }

  lemma LoopOpen(c: Conn, e: Conn)
    requires Dials(c) && Failover.Kept(c, e) && e.current == c.current && (e.originFd == -1 <==> e.originReg.None?)
    ensures Open(e) && e.clientReg == Some(NOOP)
  {
  }

  lemma LoopBehaves(c: Conn, k: Kernel, log: bool)
    requires Dials(c) && (c.current == Some(Resolving) || c.current == Some(State.Connecting))
    ensures var d := After(AfterConnect(ConnectNext(c, k.attempts, HostUnreach), k, log));
            P.Dialled(c, IpOnly(c.remaining), k, d, log) && P.DialKept(c, d)
  {
    hide P.Dialled, P.DialKept, After, AfterConnect, ConnectNext, Failover.Dials, Failover.Kept, IpOnly, Standing, Grows;
    Failover.NextResolution(c, k.attempts, HostUnreach);
    Failover.NextKeeps(c, k.attempts, HostUnreach);
    DialledAfter(c, ConnectNext(c, k.attempts, HostUnreach), k, log);
  }

  lemma BlockBehaves(c: Conn, k: Kernel)
    requires Dials(c) && c.current == Some(Resolving) && c.remaining == c.resolution
    ensures P.NameResolved(c, k, After(BlockReady(c, k)))
  {
    hide P.Dialled, P.DialKept, P.Refuses, Dials, After, AfterConnect, SetReply, ConnectNext, Grows, Moved, OnlyReplied;
    DialsOpen(c);
    Refusal(c, 4);
    if c.resolutionFailed || c.resolution == [] {
      RepliedDialKept(c, After(SetReply(c, 4)));
    }
    LoopBehaves(c, k, true);
  }

  lemma DialsOpen(c: Conn)
    requires Dials(c)
    ensures Open(c) && c.client.RequestSt?
  {
  }

  /** What the invariant says of a pending connect. */
  predicate Pends(c: Conn) {
    Open(c) && c.current == Some(State.Connecting) && c.originReg.Some? && c.clientReg == Some(NOOP) && c.references >= 2
  }

  lemma DropDials(c: Conn)
    requires Pends(c)
    ensures Dials(DropOrigin(c)) && DropOrigin(c).remaining == c.remaining && DropOrigin(c).hist == c.hist
    ensures DropOrigin(c).current == Some(State.Connecting) && DropOrigin(c).client == c.client
    ensures DropOrigin(c).rb == c.rb && DropOrigin(c).destination == c.destination && DropOrigin(c).port == c.port
  {
    hide Grows;
  }

  lemma FailedBehaves(c: Conn, errno: Errno, k: Kernel)
    requires Pends(c)
    ensures c.client.RequestSt?
    ensures var d := After(ConnectFailed(c, errno, k));
            P.DialKept(c, d)
            && if c.remaining == [] then d.originFd == -1 && d.hist.tried == c.hist.tried && P.RefusedFor(d, errno)
            else P.Dialled(c, IpOnly(c.remaining), k, d, false)
  {
    hide DropOrigin, Dials, Pends, P.DialKept, P.RefusedFor, P.Dialled, OnlyReplied, After, SetReply, ConnectNext, Grows, Moved,
         ReplyForErrno, IpOnly;
    DropDials(c);
    var d := DropOrigin(c);
    DialsOpen(d);
    DialsNothing(d);
    if d.remaining == [] {
      RefusalFor(d, errno);
      RefusedAt(d, After(SetReply(d, ReplyForErrno(errno))));
      RepliedDialKept(d, After(SetReply(d, ReplyForErrno(errno))));
      DialKeptFrom(c, d, After(SetReply(d, ReplyForErrno(errno))));
    } else {
      LoopBehaves(d, k, false);
      DialKeptFrom(c, d, After(ConnectFailed(c, errno, k)));
      DialledFrom(c, d, k, After(ConnectFailed(c, errno, k)));
      hide AfterConnect;
    }
  }

  lemma RefusedAt(c: Conn, d: Conn)
    requires OnlyReplied(c, d)
    ensures d.originFd == c.originFd
  {
  }

  lemma DialledFrom(c: Conn, d: Conn, k: Kernel, e: Conn)
    requires d.hist.tried == c.hist.tried && d.remaining == c.remaining && P.Dialled(d, IpOnly(d.remaining), k, e, false)
    ensures P.Dialled(c, IpOnly(c.remaining), k, e, false)
  {
    hide IpOnly, P.Refuses, Failover.Explains;
  }

  lemma DialsNothing(c: Conn)
    requires Dials(c)
    ensures c.originFd == -1
  {
  }

  lemma ConnectBehaves(c: Conn, k: Kernel)
    requires Pends(c)
    ensures c.client.RequestSt?
    ensures P.ConnectEnded(c, k, After(ConnectReady(c, c.originFd, k)))
  {
    hide P.Dialled, P.DialKept, P.RefusedFor, P.Refuses, P.Accepts, After, ConnectFailed, SetReply, ConnectCompleted, Grows,
         Moved, Standing, IpOnly, OnlyReplied;
    match k.probe
    case ProbeFails =>
      var d := c.(originReg := Some(NOOP), hist := c.hist.(probeFailed := true));
      StillOpen(c, d);
      Refusal(d, 1);
      RepliedDialKept(d, After(SetReply(d, 1)));
      DialKeptFrom(c, d, After(SetReply(d, 1)));
    case SocketClear => CompletedBehaves(c, k);
    case SocketError(errno) => FailedBehaves(c, errno, k);
  }

  lemma StillOpen(c: Conn, d: Conn)
    requires Pends(c) && d == c.(originReg := Some(NOOP), hist := c.hist.(probeFailed := d.hist.probeFailed))
    ensures Open(d)
  {
  }

  lemma CompletedBehaves(c: Conn, k: Kernel)
    requires Pends(c)
    ensures c.client.RequestSt?
    ensures var d := After(ConnectCompleted(c, k));
            P.Accepts(d, k.bound, true) && d.originFd == c.originFd && P.DialKept(c, d) && d.hist.tried == c.hist.tried
  {
    hide Grows, Reply, Succeed, After, P.Accepts, Moved, OnlyReplied, P.DialKept;
    var e := c.(originReg := Some(NOOP));
    OriginFirst(c, k);
    StillOpen(c, e);
    Acceptance(e, k, true);
    RepliedDialKept(e, After(Succeed(e, k, true)));
    RefusedAt(e, After(Succeed(e, k, true)));
    DialKeptFrom(c, e, After(Succeed(e, k, true)));
  }

  // ---------------------------------------------------------------- reading the request

  /** Where a parser that had read `seen` is after `bs`. */
  lemma RequestSoFar(seen: seq<byte>, bs: seq<byte>)
    requires Requests.Taken(Requests.Initial(), seen) == |seen|
    ensures var s, p := seen + bs, Requests.Parse(Requests.Initial(), seen);
            var q, k := Requests.Parse(p, bs), Requests.Taken(p, bs);
            && (q.state.Error? <==> Requests.Malformed(s)) && (q.state.Error? ==> q.reply == 1)
            && (q.state.Done? && !q.Known() <==> Requests.UnknownType(s)) && (q.state.Done? && !q.Known() ==> q.cmd == s[1])
            && (q.state.Done? && q.Known() ==> Requests.Encode(Requests.Fields(q)) <= s)
            && (forall m: Requests.Message | m.addr.Valid() && Requests.Encode(m) <= s ::
                  && q.state.Done? && q.Known() && Requests.Fields(q) == m && seen + bs[..k] == Requests.Encode(m)
                  && bs[k..] == s[|Requests.Encode(m)|..])
            && (!q.Terminal() ==> k == |bs|)
  {
    hide Incremental.Feed, Incremental.Consumed, Requests.Encode, Requests.Malformed;
    var s, p := seen + bs, Requests.Parse(Requests.Initial(), seen);
    var q, k := Requests.Parse(p, bs), Requests.Taken(p, bs);
    Incremental.FeedOn(Requests.MACHINE, Requests.Initial(), seen, bs);
    assert q == Requests.Parse(Requests.Initial(), s) && Requests.Taken(Requests.Initial(), s) == |seen| + k;
    Requests.ErrorIffMalformed(s);
    Requests.UnknownTypeIff(s);
    Requests.DoneIsEncoding(s);
    if q.state.Done? && !q.Known() {
      assert s[..4][1] == s[1];
    }
    forall m: Requests.Message | m.addr.Valid() && Requests.Encode(m) <= s
      ensures && q.state.Done? && q.Known() && Requests.Fields(q) == m && seen + bs[..k] == Requests.Encode(m)
              && bs[k..] == s[|Requests.Encode(m)|..]
    {
      Requests.DoneIffMessage(s, m);
      assert s[..|seen| + k] == seen + bs[..k];
      assert bs[k..] == s[|seen| + k..];
    }
  }

  predicate OnlyAnswered(c: Conn, d: Conn) {
    d.hist == c.hist.(code := d.hist.code, reply := d.hist.reply, log := d.hist.log, asked := d.hist.asked,
                      retriedAtOnce := d.hist.retriedAtOnce)
  }

  /** What was read and what is remembered stay. */
  predicate OnlyMoved(c: Conn, d: Conn) {
    && d.rb == c.rb && d.destination == c.destination && d.port == c.port
    && OnlyAnswered(c, d)
  }

  lemma RememberIs(c: Conn)
    requires Open(c)
    ensures var d := Remember(c);
            && d == c.(destination := d.destination, port := d.port) && Open(d)
            && (c.client.request.state.Done? && c.client.request.Known() ==> P.Remembers(d, Requests.Fields(c.client.request)))
  {
    hide Grows;
    var p := c.client.request;
    if p.atyp == Requests.IPV6 {
      assert p.addr[..16] == p.addr;
    }
  }

  lemma LookupAsks(p: Requests.Parser)
    requires p.state.Done? && p.atyp == Requests.DOMAIN
    ensures P.Asks(LookupOf(p), Requests.Fields(p))
  {
    DecimalIsNumeral(p.port);
    PortDigits(p.port);
    hide Decimal, Numeral;
  }

  lemma EndpointAsks(p: Requests.Parser)
    requires p.state.Done? && (p.atyp == Requests.IPV4 || p.atyp == Requests.IPV6)
    ensures P.Asks(EndpointOf(p), Requests.Fields(p))
  {
  }

  lemma LookupBehaves(c: Conn, k: Kernel)
    requires Open(c) && c.current == Some(RequestRead)
    ensures c.client.RequestSt?
    ensures var d := After(StartResolution(c, k));
            && OnlyMoved(c, d)
            && if k.memory && k.thread then
                 && d.current == Some(Resolving) && d.resolver.Running? && d.clientReg == Some(NOOP)
                 && d.hist.asked == Some(LookupOf(c.client.request)) && d.hist.code.None? && d.hist.log == [] && d.wb.queue == []
               else P.Refuses(d, 1)
  {
    hide Grows, SetReply, After, LookupOf, P.Refuses;
    if k.memory && k.thread {
      MovesOn(StartResolution(c, k));
    } else {
      Refusal(c, 1);
    }
  }

  lemma AddressBehaves(c: Conn, k: Kernel)
    requires Open(c) && c.current == Some(RequestRead) && c.originFd == -1
    ensures c.client.RequestSt?
    ensures var d := After(ConnectIp(c, k));
            OnlyMoved(c, d) && d.hist.asked == Some(EndpointOf(c.client.request)) && P.DialledOnce(k, d)
  {
    hide Grows, SetReply, Succeed, After, EndpointOf, P.Refuses, P.Accepts, Failover.Explains, ReplyForErrno, Moved;
    var e := c.(hist := c.hist.(asked := Some(EndpointOf(c.client.request))));
    if k.attempts != [] && Failover.Usable(k.attempts[0]) {
      var f := ConnectSockaddr(e, k.attempts[0]).c;
      assert f == e.(originFd := k.attempts[0].fd, references := f.references, originReg := f.originReg);
      if k.attempts[0].InProgress? {
        MovesOn(Turn(f.(clientReg := Some(NOOP)), State.Connecting));
      } else {
        Acceptance(f, k, true);
      }
    } else {
      Failover.FailsOnce(e, k.attempts);
      RefusalFor(e, Failover.ErrnoAt(k.attempts, 0));
    }
  }

  lemma ServedKnown(c: Conn, e: Conn, k: Kernel)
    requires Open(c) && c.current == Some(RequestRead) && c.originFd == -1
    requires c.client.request.state.Done? && c.client.request.Known() && e == Remember(c)
    requires c.hist.request == Requests.Encode(Requests.Fields(c.client.request))
    ensures var d := After(RequestProcess(c, k));
            P.RequestServed(Requests.Fields(c.client.request), k, d) && d.rb == c.rb && OnlyAnswered(c, d)
  {
    hide Grows, SetReply, StartResolution, ConnectIp, After, P.Refuses, P.DialledOnce, P.Asks, Moved, Remember, LookupOf, EndpointOf;
    hide Requests.Encode, Open, Requests.Malformed;
    RememberIs(c);
    OpenHas(c);
    var p := c.client.request;
    if p.cmd != Requests.CONNECT {
      Refusal(e, 7);
    } else if p.atyp == Requests.DOMAIN {
      LookupAsks(p);
      LookupBehaves(e, k);
    } else {
      EndpointAsks(p);
      AddressBehaves(e, k);
    }
  }

  lemma OpenHas(c: Conn)
    requires Open(c)
    ensures c.client.RequestSt? && c.hist.code.None? && c.hist.log == []
  {
  }

  lemma ServedUnknown(c: Conn, k: Kernel)
    requires Open(c) && c.client.request.state.Done? && !c.client.request.Known()
    ensures var d := After(RequestProcess(c, k));
            P.Refuses(d, if c.client.request.cmd != 1 then 7 else 8) && d.rb == c.rb && OnlyAnswered(c, d)
  {
    hide Grows, SetReply, StartResolution, ConnectIp, After, P.Refuses, Moved, Remember, Open;
    RememberIs(c);
    OpenHas(c);
    Refusal(Remember(c), if c.client.request.cmd != 1 then 7 else 8);
  }

  lemma RequestReadIn(c: Conn, got: seq<byte>)
    requires c.client.RequestSt? && |got| <= c.rb.space
    ensures var q, e := c.rb.queue + got, RequestParsed(TakeFromClient(c, got));
            && e == c.(client := e.client, rb := e.rb, hist := c.hist.(fromClient := e.hist.fromClient, request := e.hist.request))
            && e.client.RequestSt? && e.client.request == Requests.Parse(c.client.request, q)
            && e.rb.queue == q[Requests.Taken(c.client.request, q)..]
            && e.hist.fromClient == c.hist.fromClient + got
            && e.hist.request == c.hist.request + q[..Requests.Taken(c.client.request, q)]
            && e.hist.request + e.rb.queue == c.hist.request + q
  {
    hide Requests.Parse, Grows, Fifo.Wf;
    var q, k := c.rb.queue + got, Requests.Taken(c.client.request, c.rb.queue + got);
    assert c.hist.request + q == (c.hist.request + q[..k]) + q[k..];
  }

  lemma RequestTurn(c: Conn, e: Conn, k: Kernel, t: Turn)
    requires Open(c) && c.current == Some(RequestRead) && c.originFd == -1
    requires e == c.(client := e.client, rb := e.rb, hist := c.hist.(fromClient := e.hist.fromClient, request := e.hist.request))
    requires e.client.RequestSt? && (e.client.request.state.Error? ==> e.client.request.reply == 1)
    requires t == if e.client.request.state.Done? then RequestProcess(e, k)
                  else if e.client.request.state.Error? then SetReply(e, e.client.request.reply)
                  else Turn(e, RequestRead)
    requires e.client.request.state.Done? && e.client.request.Known() ==>
               e.hist.request == Requests.Encode(Requests.Fields(e.client.request))
    ensures var d := After(t);
            && d.rb == e.rb && OnlyAnswered(e, d)
            && match e.client.request.state
               case Error => P.Refuses(d, 1)
               case Done =>
                 if e.client.request.Known() then P.RequestServed(Requests.Fields(e.client.request), k, d)
                 else P.Refuses(d, if e.client.request.cmd != 1 then 7 else 8)
               case _ => d == e
  {
    hide Grows, SetReply, RequestProcess, After, P.Refuses, P.RequestServed, Requests.Encode;
    if e.client.request.state.Error? {
      Refusal(e, 1);
    } else if e.client.request.state.Done? {
      if e.client.request.Known() {
        ServedKnown(e, Remember(e), k);
      } else {
        ServedUnknown(e, k);
      }
    } else {
      StaysIn(t);
    }
  }

  lemma RequestBehaves(c: Conn, got: seq<byte>, k: Kernel, t: Turn)
    requires Open(c) && c.current == Some(RequestRead) && c.originFd == -1 && 0 < |got| <= c.rb.space
    requires c.client.request == Wanted(c.hist) && Requests.Taken(Requests.Initial(), c.hist.request) == |c.hist.request|
    requires var e := RequestParsed(TakeFromClient(c, got));
             e.client.RequestSt?
             && t == if e.client.request.state.Done? then RequestProcess(e, k)
                     else if e.client.request.state.Error? then SetReply(e, e.client.request.reply)
                     else Turn(e, RequestRead)
    ensures var d := After(t);
            && d.hist.fromClient == c.hist.fromClient + got && P.WiresKept(c, d) && P.LoginKept(c, d) && d.hist.tried == c.hist.tried
            && d.hist.request + d.rb.queue == c.hist.request + c.rb.queue + got
            && P.RequestIs(c.hist.request + c.rb.queue + got, k, d)
  {
    hide Requests.Parse, Requests.Taken, After, Grows, RequestProcess, SetReply, RequestParsed, Requests.Malformed;
    hide Requests.UnknownType, Requests.Encode, P.Refuses, P.RequestServed, Open;
    var q, s := c.rb.queue + got, c.hist.request + (c.rb.queue + got);
    assert c.hist.request + c.rb.queue + got == s;
    RequestSoFar(c.hist.request, q);
    OpenHas(c);
    RequestReadIn(c, got);
    var e := RequestParsed(TakeFromClient(c, got));
    RequestTurn(c, e, k, t);
  }

  lemma RequestReadBehaves(c: Conn, k: Kernel)
    requires Open(c) && c.current == Some(RequestRead) && c.originFd == -1
    requires c.client.request == Wanted(c.hist) && Requests.Taken(Requests.Initial(), c.hist.request) == |c.hist.request|
    ensures c.client.RequestSt?
    ensures P.Received(c, k, After(RequestReadReady(c, k)))
  {
    hide RequestProcess, SetReply, RequestParsed, P.RequestIs, After, Grows, Wanted, Requests.Taken, Moved, Standing;
    var t := RequestReadReady(c, k);
    match k.incoming
    case Data(sent) =>
      var got := P.Delivered(sent, c.rb.space);
      if got == [] {
        Closes(t);
      } else {
        assert Recv(k, c.rb.space) == Got(got);
        ParsedRequest(c, got);
        RequestBehaves(c, got, k, t);
      }
    case RecvAgain => StaysIn(t);
    case RecvFails => Closes(t);
  }

  lemma ParsedRequest(c: Conn, got: seq<byte>)
    requires c.client.RequestSt? && |got| <= c.rb.space
    ensures RequestParsed(TakeFromClient(c, got)).client.RequestSt?
  {
  }

  // ---------------------------------------------------------------- relaying

  /** What the invariant says in COPY, but for the interests. */
  predicate Copying(c: Conn) {
    && Standing(c) && c.current == Some(Copy) && c.originReg.Some? && c.originFd != c.clientFd
    && |c.rb.queue| + c.rb.space <= c.rb.cap && |c.wb.queue| + c.wb.space <= c.wb.cap
  }

  lemma UpdateKeeps(c: Conn)
    requires Copying(c)
    ensures var t := UpdateInterests(c); var d := After(t);
            && d.current == Some(Copy) && d.originFd == c.originFd && d.hist == c.hist
            && d.rb.queue == c.rb.queue && d.wb.queue == c.wb.queue
  {
    hide Grows, After;
    StaysIn(UpdateInterests(c));
  }

  lemma NothingPassed(k: Kernel, q: seq<byte>, h: seq<byte>)
    ensures h[|h|..] == []
    ensures k.outgoing.SendAgain? || q == [] ==> P.Passed(k, q, [], q)
  {
    assert q[0..] == q;
  }

  /** What a send that takes something leaves of a buffer, and adds to what was sent. */
  lemma SomePassed(f: Fifo, k: Kernel, h: seq<byte>)
    requires f.queue != [] && k.outgoing.Takes? && k.outgoing.n > 0 && |f.queue| + f.space <= f.cap
    ensures var m := Min(k.outgoing.n, |f.queue|); var g := f.Drop(m);
            && h <= h + f.queue[..m] && P.Passed(k, f.queue, (h + f.queue[..m])[|h|..], g.queue)
            && |g.queue| + g.space <= g.cap
  {
    var q := f.queue;
    var m := Min(k.outgoing.n, |q|);
    assert (h + q[..m])[|h|..] == q[..m];
    assert q[..|q|] == q && q[|q|..] == [];
  }

  /** One send towards the origin. */
  lemma SendsUp(e: Conn, k: Kernel)
    requires Copying(e)
    ensures var t := TryWrite(e, e.originFd, k); var q := e.rb.queue;
            && t.ok == !P.SendRefused(k, q)
            && (!t.ok ==> t.c == e)
            && (t.ok ==>
                  && t.c == e.(rb := t.c.rb, hist := e.hist.(toOrigin := t.c.hist.toOrigin)) && Copying(t.c)
                  && e.hist.toOrigin <= t.c.hist.toOrigin
                  && P.Passed(k, q, t.c.hist.toOrigin[|e.hist.toOrigin|..], t.c.rb.queue))
  {
    hide Grows, P.Passed;
    var q, h := e.rb.queue, e.hist.toOrigin;
    NothingPassed(k, q, h);
    if q != [] && k.outgoing.Takes? && k.outgoing.n > 0 {
      SomePassed(e.rb, k, h);
    }
  }

  /** One send towards the client. */
  lemma SendsDown(e: Conn, k: Kernel)
    requires Copying(e)
    ensures var t := TryWrite(e, e.clientFd, k); var q := e.wb.queue;
            && t.ok == !P.SendRefused(k, q)
            && (!t.ok ==> t.c == e)
            && (t.ok ==>
                  && t.c == e.(wb := t.c.wb, hist := e.hist.(toClient := t.c.hist.toClient)) && Copying(t.c)
                  && e.hist.toClient <= t.c.hist.toClient
                  && P.Passed(k, q, t.c.hist.toClient[|e.hist.toClient|..], t.c.wb.queue))
  {
    hide Grows, P.Passed;
    var q, h := e.wb.queue, e.hist.toClient;
    NothingPassed(k, q, h);
    if q != [] && k.outgoing.Takes? && k.outgoing.n > 0 {
      SomePassed(e.wb, k, h);
    }
  }

  /** `e` is `c` with `got` received from the client. */
  lemma UpBehaves(c: Conn, e: Conn, got: seq<byte>, k: Kernel)
    requires Copying(e) && e == c.(rb := e.rb, hist := c.hist.(fromClient := c.hist.fromClient + got))
    requires e.rb.queue == c.rb.queue + got
    ensures P.Upwards(c, k, got, After(AfterTry(TryWrite(e, e.originFd, k))))
  {
    hide TryWrite, UpdateInterests, After, Grows, P.Passed, P.SendRefused, Copying;
    SendsUp(e, k);
    var t := TryWrite(e, e.originFd, k);
    if t.ok {
      UpdateKeeps(t.c);
    } else {
      CopyStands(e);
      Closes(Turn(e, Error));
    }
  }

  lemma CopyStands(c: Conn)
    requires Copying(c)
    ensures Standing(c)
  {
  }

  lemma DownBehaves(c: Conn, e: Conn, got: seq<byte>, k: Kernel)
    requires Copying(e) && e == c.(wb := e.wb, hist := c.hist.(fromOrigin := c.hist.fromOrigin + got))
    requires e.wb.queue == c.wb.queue + got
    ensures P.Downwards(c, k, got, After(AfterTry(TryWrite(e, e.clientFd, k))))
  {
    hide TryWrite, UpdateInterests, After, Grows, P.Passed, P.SendRefused, Copying;
    SendsDown(e, k);
    var t := TryWrite(e, e.clientFd, k);
    if t.ok {
      UpdateKeeps(t.c);
    } else {
      CopyStands(e);
      Closes(Turn(e, Error));
    }
  }

  lemma CopyWriteBehaves(c: Conn, fd: int, k: Kernel)
    requires Copying(c) && (fd == c.clientFd || fd == c.originFd)
    ensures P.Relayed(c, Write, fd, k, After(CopyWriteReady(c, fd, k)))
  {
    hide TryWrite, AfterTry, After, Grows, P.Upwards, P.Downwards;
    assert c.rb.queue + [] == c.rb.queue && c.hist.fromClient + [] == c.hist.fromClient;
    assert c.wb.queue + [] == c.wb.queue && c.hist.fromOrigin + [] == c.hist.fromOrigin;
    if fd == c.clientFd {
      DownBehaves(c, c, [], k);
    } else {
      UpBehaves(c, c, [], k);
    }
  }

  lemma RoomIs(f: Fifo)
    requires |f.queue| + f.space <= f.cap
    ensures MakeRoom(f).space == P.Room(f) && MakeRoom(f).queue == f.queue
    ensures |MakeRoom(f).queue| + MakeRoom(f).space <= MakeRoom(f).cap
  {
  }

  lemma ClientReadBehaves(c: Conn, k: Kernel)
    requires Copying(c) && P.Room(c.rb) > 0
    ensures P.Relayed(c, Read, c.clientFd, k, After(CopyReadReady(c, c.clientFd, k)))
  {
    hide TryWrite, AfterTry, UpdateInterests, MakeRoom, P.Room, After, Grows, P.Upwards, P.Downwards;
    RoomIs(c.rb);
    var d := c.(rb := MakeRoom(c.rb));
    match k.incoming
    case Data(sent) =>
      if sent == [] {
        Closes(Turn(d, Done));
      } else {
        var got := P.Delivered(sent, P.Room(c.rb));
        assert Recv(k, d.rb.space) == Got(got);
        UpBehaves(c, TakeFromClient(d, got), got, k);
      }
    case RecvAgain => UpdateKeeps(d);
    case RecvFails => Closes(Turn(d, Error));
  }

  lemma OriginReadBehaves(c: Conn, k: Kernel)
    requires Copying(c) && P.Room(c.wb) > 0
    ensures P.Relayed(c, Read, c.originFd, k, After(CopyReadReady(c, c.originFd, k)))
  {
    hide TryWrite, AfterTry, UpdateInterests, MakeRoom, P.Room, After, Grows, P.Upwards, P.Downwards;
    RoomIs(c.wb);
    var d := c.(wb := MakeRoom(c.wb));
    match k.incoming
    case Data(sent) =>
      if sent == [] {
        Closes(Turn(d, Done));
      } else {
        var got := P.Delivered(sent, P.Room(c.wb));
        assert Recv(k, d.wb.space) == Got(got);
        DownBehaves(c, TakeFromOrigin(d, got), got, k);
      }
    case RecvAgain => UpdateKeeps(d);
    case RecvFails => Closes(Turn(d, Error));
  }

  // ---------------------------------------------------------------- every event

  /** Between the handlers and the invariant: what each state has when its handler is called. */
  lemma Rests(c: Conn)
    requires Core(c) && Registered(c) && c.current.Some? && !Over(c) && Resting(c, c.current.value)
    ensures Standing(c) && (c.wb.queue == [] ==> c.wb == EmptyFifo(BUFFER_SIZE))
    ensures c.originReg.Some? ==> c.originFd != c.clientFd && (Settled(c) ==> c.references >= 2)
    ensures |c.rb.queue| + c.rb.space <= c.rb.cap == BUFFER_SIZE && |c.wb.queue| + c.wb.space <= c.wb.cap == BUFFER_SIZE
    ensures c.hist.method_.Some? ==> c.hist.method_.value in {0, 2, 255}
    ensures Auth.Taken(Auth.Initial(), c.hist.auth) == |c.hist.auth|
    ensures Requests.Taken(Requests.Initial(), c.hist.request) == |c.hist.request|
    ensures c.hist.code.None? ==> !c.logged && c.hist.log == []
  {
    hide Incremental.Feed, Incremental.Consumed, Resting, IpOnly, Conserved, Scripted, Login, Wanted, CodeFits;
  }

  lemma ReadStates(c: Conn, k: Kernel)
    requires Core(c) && Registered(c) && c.current.Some? && !Over(c) && Resting(c, c.current.value)
    ensures match c.current.value
            case HelloRead => c.client.HelloSt? && P.Received(c, k, After(HelloReadReady(c, k)))
            case AuthRead => c.client.AuthSt? && P.Received(c, k, After(AuthReadReady(c, k)))
            case RequestRead => c.client.RequestSt? && P.Received(c, k, After(RequestReadReady(c, k)))
            case _ => true
  {
    hide Core, Registered, Login, Wanted, Hello.Describes, P.Received, After, Grows, Auth.Taken, Requests.Taken, Standing,
         HelloReadReady, AuthReadReady, RequestReadReady, Pending;
    Rests(c);
    match c.current.value
    case HelloRead => HelloReadBehaves(c, k);
    case AuthRead => AuthReadBehaves(c, k);
    case RequestRead => RequestReadBehaves(c, k);
    case _ =>
  }

  lemma WriteStates(c: Conn, k: Kernel)
    requires Core(c) && Registered(c) && c.current.Some? && !Over(c) && Resting(c, c.current.value)
    ensures match c.current.value
            case HelloWrite => c.client.HelloSt? && P.Behaves(c, Write, c.clientFd, k, After(HelloWriteReady(c, k)))
            case AuthWrite => c.client.AuthSt? && P.Behaves(c, Write, c.clientFd, k, After(AuthWriteReady(c, k)))
            case RequestWrite => c.client.RequestSt? && P.Behaves(c, Write, c.clientFd, k, After(RequestWriteReady(c, k)))
            case _ => true
  {
    hide Core, Registered, Login, Wanted, Hello.Describes, P.AnswerSent, After, Grows, Standing, Pending, Gate, Quiet,
         HelloWriteReady, AuthWriteReady, RequestWriteReady;
    Rests(c);
    RegisteredBoth(c);
    match c.current.value
    case HelloWrite => HelloWriteBehaves(c, k);
    case AuthWrite => AuthWriteBehaves(c, k);
    case RequestWrite => RequestWriteBehaves(c, k);
    case _ =>
  }

  lemma RegisteredBoth(c: Conn)
    requires Registered(c)
    ensures c.originFd == -1 <==> c.originReg.None?
  {
  }

  lemma JobApart(c: Conn, k: Kernel, d: Conn)
    requires P.NameResolved(c.(job := false), k, d)
    ensures P.NameResolved(c, k, d)
  {
    hide P.Refuses, IpOnly;
  }

  lemma DialStates(c: Conn, k: Kernel)
    requires Core(c) && Registered(c) && c.current.Some? && !Over(c) && Resting(c, c.current.value)
    ensures match c.current.value
            case Resolving =>
              c.client.RequestSt? && (c.job ==> P.NameResolved(c, k, After(BlockReady(c.(job := false), k))))
            case Connecting => c.client.RequestSt? && P.ConnectEnded(c, k, After(ConnectReady(c, c.originFd, k)))
            case _ => true
  {
    hide Core, Registered, Wanted, Hello.Describes, P.ConnectEnded, P.Dialled, P.Refuses, After, Grows, Gate, BlockReady, ConnectReady,
         Settled, IpOnly;
    Rests(c);
    RegisteredBoth(c);
    match c.current.value
    case Resolving =>
      if c.job {
        BlockBehaves(c.(job := false), k);
        JobApart(c, k, After(BlockReady(c.(job := false), k)));
      }
    case Connecting => ConnectBehaves(c, k);
    case _ =>
  }

  lemma CopyState(c: Conn, kind: EventKind, fd: int, k: Kernel)
    requires Core(c) && Registered(c) && c.current == Some(Copy) && Resting(c, Copy) && Enabled(c, kind, fd) && !kind.Block?
    ensures kind.Read? ==> P.Relayed(c, Read, fd, k, After(CopyReadReady(c, fd, k)))
    ensures kind.Write? ==> P.Relayed(c, Write, fd, k, After(CopyWriteReady(c, fd, k)))
  {
    hide Core, Registered, P.Relayed, After, Grows, CopyReadReady, CopyWriteReady, Standing;
    Rests(c);
    RegisteredBoth(c);
    if kind.Write? {
      CopyWriteBehaves(c, fd, k);
    } else if fd == c.clientFd {
      ClientReadBehaves(c, k);
    } else {
      OriginReadBehaves(c, k);
    }
  }

  /** From the callback that the table names to what becomes of its turn. */
  lemma TurnBehaves(c: Conn, kind: EventKind, fd: int, k: Kernel)
    requires Awaits(c, kind, fd)
    ensures P.Behaves(c, kind, fd, k, After(Turned(c, kind, fd, k)))
  {
    hide Core, Registered, Hello.Describes, Wanted, Login, Pending, Quiet, Gate, Grows, Moved, P.Received, P.AnswerSent, P.NameResolved,
         P.ConnectEnded, P.Relayed, After, HelloReadReady, HelloWriteReady, AuthReadReady, AuthWriteReady, RequestReadReady,
         BlockReady, ConnectReady, RequestWriteReady, CopyReadReady, CopyWriteReady;
    ReadStates(c, k);
    WriteStates(c, k);
    DialStates(c, k);
    if c.current == Some(Copy) {
      CopyState(c, kind, fd, k);
    }
  }

  lemma FirstBehaves(c: Conn, kind: EventKind, fd: int, k: Kernel, d: Conn)
    requires Inv(c) && P.Behaves(HandleFirst(c), kind, fd, k, d)
    ensures P.Behaves(c, kind, fd, k, d)
  {
    hide Core, Registered, Resting, P.GreetingRead, P.LoginRead, P.RequestIs, Grows;
  }

  /** Every event that the selector may deliver to a connection that keeps its law does what `Protocol` says. */
  lemma EventBehaves(c: Conn, kind: EventKind, fd: int, k: Kernel)
    requires Inv(c) && !Over(c) && Enabled(c, kind, fd) && Fresh(c, k.attempts)
    ensures Dispatch(c, kind, fd, k).Alive? && P.Behaves(c, kind, fd, k, Dispatch(c, kind, fd, k).c)
  {
    hide Inv, Core, Registered, Resting, Enabled, Invoke, HandleFirst, Followed, Fresh, Member, CallbackFor, P.Behaves, Over;
    EventOk(c, kind, fd, k);
    FirstOk(c);
    FirstEnabled(c, kind, fd);
    var d := HandleFirst(c);
    HandlerThere(d, kind, fd);
    TurnBehaves(d, kind, fd, k);
    FirstBehaves(c, kind, fd, k, After(Turned(d, kind, fd, k)));
  }
}
