/**
 * Progress, as far as one connection has it: the handshake goes on with each answer that leaves whole, ends in
 * the relay after a success, and the relay sends until nothing waits.
 */
module Relays {
  import opened Common
  import opened Buffers
  import opened Selectors
  import opened Connections
  import opened ConnectionLaws
  import opened ConnectionEvents
  import opened ProtocolSteps
  import ConnectionSteps
  import P = Protocol

  // ---------------------------------------------------------------- the handshake

  lemma AnswerWatched(c: Conn)
    requires Inv(c) && (c.current == Some(HelloWrite) || c.current == Some(AuthWrite) || c.current == Some(RequestWrite))
    ensures Enabled(c, Write, c.clientFd) && !Over(c) && c.wb.queue != []
  {
    hide Core;
  }

  /** The answer to the greeting has left whole: the method chosen says what is read next. */
  lemma MethodLeads(c: Conn, k: Kernel, n: nat)
    requires Inv(c) && c.current == Some(HelloWrite) && k.outgoing == Takes(n) && n >= |c.wb.queue|
    requires ConnectionSteps.Fresh(c, k.attempts)
    ensures var o := Dispatch(c, Write, c.clientFd, k);
            && o.Alive? && o.c.hist.toClient == c.hist.toClient + c.wb.queue && o.c.rb.queue == c.rb.queue
            && o.c.current == Some(if c.hist.method_ == Some(2) then AuthRead
                                  else if c.hist.method_ == Some(0) then RequestRead else Done)
  {
    hide Inv, Enabled, Over, Dispatch;
    AnswerWatched(c);
    EventBehaves(c, Write, c.clientFd, k);
  }

  /** The status has left whole: a success leads to the request, a failure to the end. */
  lemma StatusLeads(c: Conn, k: Kernel, n: nat)
    requires Inv(c) && c.current == Some(AuthWrite) && k.outgoing == Takes(n) && n >= |c.wb.queue|
    requires ConnectionSteps.Fresh(c, k.attempts)
    ensures var o := Dispatch(c, Write, c.clientFd, k);
            && o.Alive? && o.c.hist.toClient == c.hist.toClient + c.wb.queue && o.c.rb.queue == c.rb.queue
            && o.c.current == Some(if c.hist.status == Some(0) then RequestRead else Done)
  {
    hide Inv, Enabled, Over, Dispatch;
    AnswerWatched(c);
    EventBehaves(c, Write, c.clientFd, k);
  }

  /** The reply has left whole: a success leads to the relay, with the origin that was dialled. */
  lemma ReplyLeads(c: Conn, k: Kernel, n: nat)
    requires Inv(c) && c.current == Some(RequestWrite) && k.outgoing == Takes(n) && n >= |c.wb.queue|
    requires ConnectionSteps.Fresh(c, k.attempts)
    ensures var o := Dispatch(c, Write, c.clientFd, k);
            && o.Alive? && o.c.hist.toClient == c.hist.toClient + c.wb.queue && o.c.rb.queue == c.rb.queue
            && o.c.current == Some(if c.hist.code == Some(0) then Copy else Done) && o.c.originFd == c.originFd
  {
    hide Inv, Enabled, Over, Dispatch;
    AnswerWatched(c);
    EventBehaves(c, Write, c.clientFd, k);
  }

  // ---------------------------------------------------------------- the relay

  /** What waits to be sent on descriptor `fd`, and what has been. */
  function Waiting(c: Conn, fd: int): seq<byte> {
    if fd == c.clientFd then c.wb.queue else c.rb.queue
  }

  function SentOn(c: Conn, fd: int): seq<byte> {
    if fd == c.clientFd then c.hist.toClient else c.hist.toOrigin
  }

  /** Received on `fd`. */
  function GotOn(c: Conn, fd: int): seq<byte> {
    if fd == c.clientFd then c.hist.fromClient else c.hist.fromOrigin
  }

  /** In COPY with its law, `fd` one of its descriptors. */
  ghost predicate InCopy(c: Conn, fd: int) {
    Inv(c) && c.current == Some(Copy) && (fd == c.clientFd || fd == c.originFd)
  }

  lemma RelayWatched(c: Conn, fd: int)
    requires InCopy(c, fd)
    ensures Waiting(c, fd) != [] <==> Enabled(c, Write, fd)
    ensures c.originFd != c.clientFd && !Over(c)
  {
    hide Core;
  }

  /** A descriptor that takes n bytes gets the first n that wait for it, and the rest keeps waiting. */
  lemma WriteRelays(c: Conn, fd: int, k: Kernel, n: nat)
    requires InCopy(c, fd) && Waiting(c, fd) != [] && k.outgoing == Takes(n) && n > 0
    requires ConnectionSteps.Fresh(c, k.attempts)
    ensures var o := Dispatch(c, Write, fd, k); var q := Waiting(c, fd);
            && o.Alive? && InCopy(o.c, fd) && o.c.clientFd == c.clientFd && o.c.originFd == c.originFd
            && SentOn(o.c, fd) == SentOn(c, fd) + q[..Min(n, |q|)] && Waiting(o.c, fd) == q[Min(n, |q|)..]
  {
    hide Inv, Enabled, Over, Dispatch;
    RelayWatched(c, fd);
    EventOk(c, Write, fd, k);
    EventBehaves(c, Write, fd, k);
    var q := Waiting(c, fd);
    assert c.wb.queue + [] == c.wb.queue && c.rb.queue + [] == c.rb.queue;
    var d := Dispatch(c, Write, fd, k).c;
    Rejoined(SentOn(c, fd), SentOn(d, fd));
  }

  lemma Rejoined(s: seq<byte>, t: seq<byte>)
    requires s <= t
    ensures t == s + t[|s|..]
  {
  }

  /** The other side of a connection. */
  function Other(c: Conn, fd: int): int {
    if fd == c.clientFd then c.originFd else c.clientFd
  }

  /** What a descriptor is read for goes behind what waits for the other, and as much as it takes leaves at once. */
  lemma ReadRelays(c: Conn, fd: int, k: Kernel, sent: seq<byte>, n: nat)
    requires InCopy(c, fd) && Enabled(c, Read, fd) && k.incoming == Data(sent) && sent != [] && k.outgoing == Takes(n) && n > 0
    requires ConnectionSteps.Fresh(c, k.attempts)
    ensures var o := Dispatch(c, Read, fd, k); var other := Other(c, fd);
            && o.Alive? && InCopy(o.c, fd) && GotOn(c, fd) < GotOn(o.c, fd)
            && (var got := GotOn(o.c, fd)[|GotOn(c, fd)|..]; var q := Waiting(c, other) + got;
                && got <= sent
                && SentOn(o.c, other) == SentOn(c, other) + q[..Min(n, |q|)] && Waiting(o.c, other) == q[Min(n, |q|)..])
  {
    hide Inv, Over, Dispatch;
    RelayWatched(c, fd);
    RoomToRead(c, fd);
    hide Enabled;
    EventOk(c, Read, fd, k);
    EventBehaves(c, Read, fd, k);
    var d := Dispatch(c, Read, fd, k).c;
    var got := P.Delivered(sent, P.Room(if fd == c.clientFd then c.rb else c.wb));
    assert GotOn(d, fd) == GotOn(c, fd) + got;
    assert GotOn(d, fd)[|GotOn(c, fd)|..] == got;
    var other := Other(c, fd);
    Rejoined(SentOn(c, other), SentOn(d, other));
  }

  lemma RoomToRead(c: Conn, fd: int)
    requires InCopy(c, fd) && Enabled(c, Read, fd)
    ensures P.Room(if fd == c.clientFd then c.rb else c.wb) > 0
  {
    hide Core;
    CopyBuffers(c);
  }

  lemma CopyBuffers(c: Conn)
    requires Inv(c) && c.current == Some(Copy)
    ensures c.rb.cap == BUFFER_SIZE && c.wb.cap == BUFFER_SIZE
  {
    hide Counted, Facts, Dialed, Conserved, Scripted;
  }

  /** The write events of one descriptor, one after the other. */
  function Writes(c: Conn, fd: int, ks: seq<Kernel>): Conn
    decreases |ks|
  {
    if ks == [] || Dispatch(c, Write, fd, ks[0]).Crashed? then c else Writes(Dispatch(c, Write, fd, ks[0]).c, fd, ks[1..])
  }

  /** Every one of these events is one that the selector may deliver. */
  predicate Deliverable(c: Conn, fd: int, ks: seq<Kernel>)
    decreases |ks|
  {
    ks == []
    || (Enabled(c, Write, fd) && Dispatch(c, Write, fd, ks[0]).Alive? && Deliverable(Dispatch(c, Write, fd, ks[0]).c, fd, ks[1..]))
  }

  /** The kernel takes something each time. */
  predicate Taking(c: Conn, ks: seq<Kernel>) {
    forall k | k in ks :: k.outgoing.Takes? && k.outgoing.n > 0 && ConnectionSteps.Fresh(c, k.attempts)
  }

  /**
   * As long as the kernel takes something, the events that a descriptor is watched for empty what waits
   * for it, in at most as many events as bytes, and all of it has been sent, in order.
   */
  lemma {:induction false} WritesDrain(c: Conn, fd: int, ks: seq<Kernel>) returns (m: nat)
    requires InCopy(c, fd) && Taking(c, ks) && |ks| >= |Waiting(c, fd)|
    ensures m <= |Waiting(c, fd)| <= |ks| && Deliverable(c, fd, ks[..m])
    ensures var d := Writes(c, fd, ks[..m]);
            InCopy(d, fd) && Waiting(d, fd) == [] && SentOn(d, fd) == SentOn(c, fd) + Waiting(c, fd)
    decreases |ks|
  {
    hide InCopy, Enabled, Dispatch, ConnectionSteps.Fresh;
    var q := Waiting(c, fd);
    if q == [] {
      m := 0;
    } else {
      var n := ks[0].outgoing.n;
      RelayWatched(c, fd);
      WriteRelays(c, fd, ks[0], n);
      var d := Dispatch(c, Write, fd, ks[0]).c;
      StillTaking(c, d, ks);
      var l := WritesDrain(d, fd, ks[1..]);
      m := l + 1;
      assert ks[..m][0] == ks[0] && ks[..m][1..] == ks[1..][..l];
      assert q[..Min(n, |q|)] + q[Min(n, |q|)..] == q;
      assert SentOn(c, fd) + q == (SentOn(c, fd) + q[..Min(n, |q|)]) + q[Min(n, |q|)..];
    }
  }

  lemma StillTaking(c: Conn, d: Conn, ks: seq<Kernel>)
    requires Taking(c, ks) && d.clientFd == c.clientFd && ks != []
    ensures Taking(d, ks[1..])
  {
    forall k | k in ks[1..]
      ensures k.outgoing.Takes? && k.outgoing.n > 0 && ConnectionSteps.Fresh(d, k.attempts)
    {
      assert k in ks;
    }
  }
}
