/** src/socks5/auth.c: the incremental parser of section 2 of RFC 1929, and its one-byte answer. */
module Auth {
  import opened Common
  import opened Buffers
  import opened Incremental

  const VERSION: byte := 1
  const SUCCESS: byte := 0
  const FAILURE: byte := 1

  datatype State = Version | ULen | UName | PLen | Passwd | Done | Error

  /** struct auth_parser */
  datatype Raw = Raw(
    state: State, username: seq<byte>, password: seq<byte>, usernameLen: byte, passwordLen: byte, pos: byte)
  {
    predicate Terminal() {
      state.Done? || state.Error?
    }

    ghost predicate Wf() {
      && |username| == 256 && |password| == 256
      && match state
         case Version => true
         case ULen => true
         case UName => pos < usernameLen
         case PLen => 0 < usernameLen
         case Passwd => 0 < usernameLen && pos < passwordLen
         case Done => 0 < usernameLen && 0 < passwordLen
         case Error => true
    }

    function Username(): (u: seq<byte>)
      requires |username| == 256
      ensures |u| == usernameLen
    {
      username[..usernameLen]
    }

    function Password(): (p: seq<byte>)
      requires |password| == 256
      ensures |p| == passwordLen
    {
      password[..passwordLen]
    }
  }

  function Initial(): Raw {
    Raw(Version, seq(256, i => 0), seq(256, i => 0), 0, 0, 0)
  }

  type Parser = p: Raw | p.Wf() witness Initial()

  /** One turn of the loop in auth_consume. */
  function Step(p: Parser, c: byte): Parser {
    match p.state
    case Version => p.(state := if c == VERSION then ULen else Error)
    case ULen => p.(usernameLen := c, pos := 0, state := if c == 0 then Error else UName)
    case UName =>
      var u := p.username[p.pos as int := c];
      if p.pos + 1 == p.usernameLen
      then p.(username := u[p.usernameLen as int := 0], pos := 0, state := PLen)
      else p.(username := u, pos := p.pos + 1)
    case PLen => p.(passwordLen := c, pos := 0, state := if c == 0 then Error else Passwd)
    case Passwd =>
      var w := p.password[p.pos as int := c];
      if p.pos + 1 == p.passwordLen
      then p.(password := w[p.passwordLen as int := 0], pos := p.pos + 1, state := Done)
      else p.(password := w, pos := p.pos + 1)
    case Done => p
    case Error => p
  }

  const MACHINE: Machine<Parser> := Machine((p, c) => Step(p, c), (p: Parser) => p.Terminal())

  function Parse(p: Parser, bs: seq<byte>): Parser {
    Feed(MACHINE, p, bs)
  }

  function Taken(p: Parser, bs: seq<byte>): nat {
    Consumed(MACHINE, p, bs)
  }

  /** One turn of the loop, and its end. */
  lemma Turn(p: Parser, bs: seq<byte>)
    ensures if bs == [] || p.Terminal() then Parse(p, bs) == p && Taken(p, bs) == 0
            else Parse(p, bs) == Parse(Step(p, bs[0]), bs[1..]) && Taken(p, bs) == 1 + Taken(Step(p, bs[0]), bs[1..])
  {
  }

  // ---------------------------------------------------------------- meaning

  predicate Credential(u: seq<byte>) {
    1 <= |u| <= 255
  }

  /** The message of section 2 of RFC 1929. */
  function Encode(u: seq<byte>, w: seq<byte>): seq<byte>
    requires Credential(u) && Credential(w)
  {
    [VERSION, |u|] + u + [|w|] + w
  }

  /** The bytes a parser that has not failed must have read to be where it is. */
  ghost function Seen(p: Parser): seq<byte>
    requires !p.state.Error?
  {
    match p.state
    case Version => []
    case ULen => [VERSION]
    case UName => [VERSION, p.usernameLen] + p.username[..p.pos]
    case PLen => [VERSION, p.usernameLen] + p.Username()
    case Passwd => [VERSION, p.usernameLen] + p.Username() + [p.passwordLen] + p.password[..p.pos]
    case Done => Encode(p.Username(), p.Password())
  }

  lemma StepSeen(p: Parser, c: byte)
    requires !p.Terminal() && !Step(p, c).state.Error?
    ensures Seen(Step(p, c)) == Seen(p) + [c]
  {
    var q := Step(p, c);
    match p.state
    case Version =>
    case ULen => assert q.username[..0] == [];
    case UName =>
      if q.state.PLen? {
        assert q.Username() == p.username[..p.pos] + [c];
      } else {
        assert q.username[..q.pos] == p.username[..p.pos] + [c];
      }
    case PLen => assert q.password[..0] == [];
    case Passwd =>
      if q.state.Done? {
        assert q.Password() == p.password[..p.pos] + [c];
      } else {
        assert q.password[..q.pos] == p.password[..p.pos] + [c];
      }
  }

  lemma FeedSeen(p: Parser, bs: seq<byte>)
    requires !Parse(p, bs).state.Error?
    ensures !p.state.Error?
    ensures Seen(Parse(p, bs)) == Seen(p) + bs[..Taken(p, bs)]
  {
    hide Step;
    Turn(p, bs);
    var inv := (q: Parser, s: seq<byte>) => q.state.Error? || Seen(q) == s;
    forall q: Parser, s: seq<byte>, c: byte | inv(q, s) && !MACHINE.halted(q)
      ensures inv(MACHINE.step(q, c), s + [c])
    {
      if !Step(q, c).state.Error? {
        StepSeen(q, c);
      }
    }
    FeedInvariant(MACHINE, inv, p, Seen(p), bs);
  }

  /** The streams the parser rejects: wrong version, empty user name, empty password. */
  predicate Malformed(bs: seq<byte>) {
    || (|bs| >= 1 && bs[0] != VERSION)
    || (|bs| >= 2 && bs[1] == 0)
    || (|bs| >= 2 && |bs| > 2 + bs[1] as int && bs[2 + bs[1] as int] == 0)
  }

  lemma SeenWellFormed(p: Parser, rest: seq<byte>)
    requires !p.state.Error? && (rest == [] || p.state.Done?)
    ensures !Malformed(Seen(p) + rest)
  {
  }

  lemma StepError(p: Parser, c: byte)
    requires !p.Terminal()
    ensures Step(p, c).state.Error? ==> Malformed(Seen(p) + [c])
  {
  }

  lemma MalformedGrows(a: seq<byte>, b: seq<byte>)
    requires Malformed(a)
    ensures Malformed(a + b)
  {
  }

  lemma {:induction false} FeedError(p: Parser, bs: seq<byte>)
    requires !p.state.Error?
    ensures Parse(p, bs).state.Error? <==> Malformed(Seen(p) + bs)
    decreases |bs|
  {
    hide Step;
    if bs == [] || p.Terminal() {
      SeenWellFormed(p, bs);
    } else {
      var q := Step(p, bs[0]);
      var s := Seen(p);
      assert s + bs == (s + [bs[0]]) + bs[1..];
      if q.state.Error? {
        StepError(p, bs[0]);
        MalformedGrows(s + [bs[0]], bs[1..]);
        assert Parse(p, bs) == Parse(q, bs[1..]) == q;
      } else {
        StepSeen(p, bs[0]);
        FeedError(q, bs[1..]);
      }
    }
  }

  lemma ErrorIffMalformed(bs: seq<byte>)
    ensures Parse(Initial(), bs).state.Error? <==> Malformed(bs)
  {
    FeedError(Initial(), bs);
    assert Seen(Initial()) + bs == bs;
  }

  lemma PrefixFree(u: seq<byte>, w: seq<byte>, v: seq<byte>, x: seq<byte>, rest: seq<byte>)
    requires Credential(u) && Credential(w) && Credential(v) && Credential(x)
    requires Encode(u, w) <= Encode(v, x) + rest
    ensures u == v && w == x
  {
    var a, b := Encode(u, w), Encode(v, x) + rest;
    var n := |u|;
    assert a[1] == b[1] && |u| == |v|;
    assert u == a[2..2 + n] == b[2..2 + n] == v;
    assert |w| == a[2 + n] == b[2 + n] == |x|;
    assert w == a[3 + n..3 + n + |w|] == b[3 + n..3 + n + |w|] == x;
  }

  lemma StillShort(p: Parser, u: seq<byte>, w: seq<byte>)
    requires !p.Terminal() && Credential(u) && Credential(w)
    ensures !(Encode(u, w) <= Seen(p))
  {
    var a := Encode(u, w);
    assert a[1] == |u| && a[2 + |u|] == |w| && |a| == 3 + |u| + |w|;
  }

  /** DONE happens on exactly the streams that start with a message, and the fields are that message's. */
  lemma DoneIffMessage(bs: seq<byte>, u: seq<byte>, w: seq<byte>)
    requires Credential(u) && Credential(w)
    ensures var p := Parse(Initial(), bs);
            (p.state.Done? && p.Username() == u && p.Password() == w) <==> Encode(u, w) <= bs
    ensures Encode(u, w) <= bs ==> Taken(Initial(), bs) == |Encode(u, w)|
  {
    hide Feed, Consumed;
    var p := Parse(Initial(), bs);
    var k := Taken(Initial(), bs);
    if p.state.Done? && p.Username() == u && p.Password() == w {
      FeedSeen(Initial(), bs);
      assert bs[..k] == Encode(u, w);
    }
    if Encode(u, w) <= bs {
      var rest := bs[|Encode(u, w)|..];
      assert bs == Encode(u, w) + rest;
      assert bs[1] == |u| && bs[2 + |u|] == |w|;
      ErrorIffMalformed(bs);
      FeedSeen(Initial(), bs);
      assert Seen(p) == bs[..k];
      if !p.Terminal() {
        assert bs[..k] == bs;
        StillShort(p, u, w);
      }
      PrefixFree(p.Username(), p.Password(), u, w, rest);
    }
  }

  /** The same over any split of the stream: complete on exactly the streams that start with a message, which is taken alone. */
  lemma AnySplit(chunks: seq<seq<byte>>, u: seq<byte>, w: seq<byte>)
    requires Credential(u) && Credential(w)
    ensures var (p, left) := FeedChunks(MACHINE, Initial(), [], chunks);
            && ((p.state.Done? && p.Username() == u && p.Password() == w) <==> Encode(u, w) <= Concat(chunks))
            && (Encode(u, w) <= Concat(chunks) ==> left == Concat(chunks)[|Encode(u, w)|..])
            && (p.state.Error? <==> Malformed(Concat(chunks)))
            && (!p.Terminal() ==> left == [])
  {
    hide Feed, Consumed;
    ChunkingIrrelevant(MACHINE, Initial(), [], chunks);
    assert [] + Concat(chunks) == Concat(chunks);
    DoneIffMessage(Concat(chunks), u, w);
    ErrorIffMalformed(Concat(chunks));
  }


  /** auth_marshall */
  function Answer(status: byte): seq<byte> {
    [VERSION, status]
  }

  // ---------------------------------------------------------------- the parser and the marshaller in place

  class AuthParser {
    var state: State
    const username: array<byte>
    const password: array<byte>
    var usernameLen: byte
    var passwordLen: byte
    var pos: byte

    ghost function View(): Raw
      reads this, username, password
    {
      Raw(state, username[..], password[..], usernameLen, passwordLen, pos)
    }

    ghost predicate Valid()
      reads this, username, password
    {
      username != password && View().Wf()
    }

    constructor ()
      ensures Valid() && fresh(username) && fresh(password) && View() == Initial()
    {
      username := new byte[256](i => 0);
      password := new byte[256](i => 0);
      state, usernameLen, passwordLen, pos := Version, 0, 0, 0;
      new;
      assert username[..] == seq(256, i => 0) && password[..] == seq(256, i => 0);
    }

    method Init()
      requires username != password && username.Length == password.Length == 256
      modifies this, username, password
      ensures Valid() && View() == Initial()
    {
      forall i | 0 <= i < 256 {
        username[i] := 0;
      }
      forall i | 0 <= i < 256 {
        password[i] := 0;
      }
      state, usernameLen, passwordLen, pos := Version, 0, 0, 0;
      assert username[..] == seq(256, i => 0) && password[..] == seq(256, i => 0);
    }

    method Accept(c: byte)
      requires Valid() && !View().Terminal()
      modifies this, username, password
      ensures Valid() && View() == Step(old(View()), c)
    {
      match state {
        case Version =>
          state := if c == VERSION then ULen else Error;
        case ULen =>
          usernameLen := c;
          pos := 0;
          state := if c == 0 then Error else UName;
        case UName =>
          username[pos] := c;
          pos := pos + 1;
          if pos == usernameLen {
            username[usernameLen] := 0;
            pos := 0;
            state := PLen;
          }
        case PLen =>
          passwordLen := c;
          pos := 0;
          state := if c == 0 then Error else Passwd;
        case Passwd =>
          password[pos] := c;
          pos := pos + 1;
          if pos == passwordLen {
            password[passwordLen] := 0;
            state := Done;
          }
      }
    }

    method Consume(b: Buffer) returns (st: State, errored: bool)
      requires Valid() && b.Valid() && b.data != username && b.data != password
      modifies this, username, password, b, b.data
      ensures Valid() && b.Valid()
      ensures View() == Parse(old(View()), old(b.View().queue))
      ensures b.View() == old(b.View()).Drop(Taken(old(View()), old(b.View().queue)))
      ensures st == state && (errored <==> st.Error?)
      ensures !View().Terminal() ==> b.View() == EmptyFifo(b.data.Length)
    {
      hide Step, Feed, Consumed;
      ghost var p0, f0 := View(), b.View();
      ghost var k := 0;
      DropDrop(f0, 0, 0);
      var more := b.CanRead();
      while more && !state.Done? && !state.Error?
        invariant Valid() && b.Valid()
        invariant k <= |f0.queue| && b.View() == f0.Drop(k)
        invariant more <==> b.View().queue != []
        invariant b.View().queue == f0.queue[k..]
        invariant Parse(p0, f0.queue) == Parse(View(), f0.queue[k..])
        invariant Taken(p0, f0.queue) == k + Taken(View(), f0.queue[k..])
        decreases |f0.queue| - k
      {
        Turn(View(), f0.queue[k..]);
        var c := b.Read();
        assert f0.queue[k..][0] == f0.queue[k] && f0.queue[k..][1..] == f0.queue[k + 1..];
        DropDrop(f0, k, 1);
        Accept(c);
        k := k + 1;
        more := b.CanRead();
      }
      Turn(View(), f0.queue[k..]);
      return state, state.Error?;
    }
  }

  method Marshall(b: Buffer, status: byte) returns (ok: bool)
    requires b.Valid()
    modifies b, b.data
    ensures b.Valid()
    ensures b.View() == if status <= FAILURE then old(b.View()).Put(Answer(status)) else old(b.View())
    ensures ok <==> status <= FAILURE && old(b.View().space) >= 2
  {
    if status != SUCCESS && status != FAILURE {
      return false;
    }
    ok := b.WriteAll([VERSION, status]);
  }
}
