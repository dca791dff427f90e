/**
 * src/socks5/request.c: the incremental parser of section 4 of RFC 1928 and the marshallers of
 * its section 6. `Step` is one turn of the parser's loop, `Feed` the loop over a whole queue.
 */
module Requests {
  import opened Common
  import opened Buffers
  import opened Incremental

  const VERSION: byte := 5
  const CONNECT: byte := 1
  const BIND: byte := 2
  const UDP_ASSOCIATE: byte := 3
  const IPV4: byte := 1
  const DOMAIN: byte := 3
  const IPV6: byte := 4

  const SUCCEEDED: byte := 0
  const GENERAL_FAILURE: byte := 1
  const NETWORK_UNREACHABLE: byte := 3
  const HOST_UNREACHABLE: byte := 4
  const CONNECTION_REFUSED: byte := 5
  const COMMAND_NOT_SUPPORTED: byte := 7
  const ADDRESS_TYPE_NOT_SUPPORTED: byte := 8

  /** uint16_t */
  type port16 = x: int | 0 <= x < 65536

  datatype State = Version | Cmd | Rsv | Atyp | DstAddr | DstPort | Done | Error

  /** struct request_parser */
  datatype Raw = Raw(
    state: State, cmd: byte, atyp: byte, addr: seq<byte>, domain: seq<byte>,
    domainLen: byte, addrPos: byte, portPos: byte, port: port16, reply: byte)
  {
    predicate Terminal() {
      state.Done? || state.Error?
    }

    /** The address of known type that the parser has collected. */
    predicate Known() {
      atyp == IPV4 || atyp == IPV6 || atyp == DOMAIN
    }

    /** Index bounds and counters, state by state. */
    ghost predicate Wf() {
      && |addr| == 16 && |domain| == 256
      && match state
         case Version => addrPos == portPos == 0 && port == 0 && reply == GENERAL_FAILURE
         case Cmd => addrPos == portPos == 0 && port == 0 && reply == GENERAL_FAILURE
         case Rsv => addrPos == portPos == 0 && port == 0 && reply == ReplyAfterCmd(cmd)
         case Atyp => addrPos == portPos == 0 && port == 0 && reply == ReplyAfterCmd(cmd)
         case DstAddr =>
           && portPos == 0 && port == 0 && Known() && reply == ReplyAfterCmd(cmd)
           && (atyp == DOMAIN && domainLen == 0 ==> addrPos == 0)
           && (!(atyp == DOMAIN && domainLen == 0) ==> addrPos < AddressLength())
         case DstPort =>
           && Known() && addrPos == AddressLength() > 0 && portPos < 2 && reply == ReplyAfterCmd(cmd)
           && (portPos == 0 ==> port == 0) && port < 256
         case Done => if Known() then addrPos == AddressLength() > 0 && reply == ReplyAfterCmd(cmd)
                      else reply == ADDRESS_TYPE_NOT_SUPPORTED
         case Error => reply == GENERAL_FAILURE
    }

    function AddressLength(): byte {
      if atyp == IPV4 then 4 else if atyp == IPV6 then 16 else if atyp == DOMAIN then domainLen else 0
    }
  }

  function ReplyAfterCmd(cmd: byte): byte {
    if cmd == CONNECT || cmd == BIND || cmd == UDP_ASSOCIATE then GENERAL_FAILURE else COMMAND_NOT_SUPPORTED
  }

  function Zeros(n: nat): (z: seq<byte>)
    ensures |z| == n
  {
    seq(n, i => 0)
  }

  function Initial(): Raw {
    Raw(Version, 0, 0, Zeros(16), Zeros(256), 0, 0, 0, 0, GENERAL_FAILURE)
  }

  type Parser = p: Raw | p.Wf() witness Initial()

  /** One turn of the loop in request_consume. */
  function Step(p: Parser, c: byte): Parser {
    match p.state
    case Version =>
      if c == VERSION then p.(state := Cmd) else p.(state := Error, reply := GENERAL_FAILURE)
    case Cmd =>
      p.(cmd := c, reply := ReplyAfterCmd(c), state := Rsv)
    case Rsv =>
      if c == 0 then p.(state := State.Atyp) else p.(state := Error, reply := GENERAL_FAILURE)
    case Atyp =>
      if c == IPV4 || c == IPV6 then p.(atyp := c, state := DstAddr)
      else if c == DOMAIN then p.(atyp := c, state := DstAddr, domainLen := 0)
      else p.(atyp := c, reply := ADDRESS_TYPE_NOT_SUPPORTED, state := Done)
    case DstAddr =>
      if p.atyp == DOMAIN && p.domainLen == 0 then
        if c == 0 then p.(domainLen := c, reply := GENERAL_FAILURE, state := Error) else p.(domainLen := c)
      else if p.atyp == DOMAIN then
        var d := p.domain[p.addrPos as int := c];
        if p.addrPos + 1 == p.domainLen
        then p.(domain := d[p.domainLen as int := 0], addrPos := p.addrPos + 1, state := DstPort)
        else p.(domain := d, addrPos := p.addrPos + 1)
      else
        var q := p.(addr := p.addr[p.addrPos as int := c], addrPos := p.addrPos + 1);
        if q.addrPos == q.AddressLength() then q.(state := DstPort) else q
    case DstPort =>
      var q := p.(port := (p.port * 256 + c) % 65536, portPos := p.portPos + 1);
      if q.portPos == 2 then q.(state := Done) else q
    case Done => p
    case Error => p
  }

  const MACHINE: Machine<Parser> := Machine((p, c) => Step(p, c), (p: Parser) => p.Terminal())

  /** request_consume over a queue: the parser it leaves, and how many bytes it takes. */
  function Parse(p: Parser, bs: seq<byte>): Parser {
    Feed(MACHINE, p, bs)
  }

  function Taken(p: Parser, bs: seq<byte>): nat {
    Consumed(MACHINE, p, bs)
  }

  /** One turn of the loop, and its end. */
  lemma Turn(p: Parser, bs: seq<byte>)
    ensures if bs == [] || p.Terminal() then Parse(p, bs) == p && Taken(p, bs) == 0
            else Parse(p, bs) == Parse(Step(p, bs[0]), bs[1..]) && Taken(p, bs) == 1 + Taken(Step(p, bs[0]), bs[1..])
  {
  }

  // ---------------------------------------------------------------- meaning

  datatype Address = V4(ip4: seq<byte>) | V6(ip6: seq<byte>) | Name(name: seq<byte>) {
    predicate Valid() {
      match this
      case V4(a) => |a| == 4
      case V6(a) => |a| == 16
      case Name(n) => 1 <= |n| <= 255
    }
  }

  /** A message of section 4 of RFC 1928, which is also the layout of a reply in its section 6. */
  datatype Message = Message(cmd: byte, addr: Address, port: port16)

  function Encode(m: Message): (bs: seq<byte>)
    requires m.addr.Valid()
  {
    [VERSION, m.cmd, 0]
    + (match m.addr
       case V4(a) => [IPV4] + a
       case V6(a) => [IPV6] + a
       case Name(n) => [DOMAIN, |n|] + n)
    + [m.port / 256, m.port % 256]
  }

  /** What a finished parser with a known address type has understood. */
  function Fields(p: Parser): (m: Message)
    requires p.state.Done? && p.Known()
    ensures m.addr.Valid()
  {
    Message(p.cmd,
            if p.atyp == IPV4 then V4(p.addr[..4])
            else if p.atyp == IPV6 then V6(p.addr)
            else Name(p.domain[..p.domainLen]),
            p.port)
  }

  /** The bytes a parser that has not failed must have read to be where it is. */
  ghost function Seen(p: Parser): seq<byte>
    requires !p.state.Error?
  {
    match p.state
    case Version => []
    case Cmd => [VERSION]
    case Rsv => [VERSION, p.cmd]
    case Atyp => [VERSION, p.cmd, 0]
    case DstAddr => [VERSION, p.cmd, 0] + SeenAddress(p)
    case DstPort => [VERSION, p.cmd, 0] + SeenAddress(p) + (if p.portPos == 0 then [] else [p.port])
    case Done => if p.Known() then Encode(Fields(p)) else [VERSION, p.cmd, 0, p.atyp]
  }

  ghost function SeenAddress(p: Parser): seq<byte>
    requires |p.addr| == 16 && |p.domain| == 256 && (p.atyp == DOMAIN || p.addrPos <= 16)
  {
    if p.atyp != DOMAIN then [p.atyp] + p.addr[..p.addrPos]
    else if p.domainLen == 0 then [DOMAIN]
    else [DOMAIN, p.domainLen] + p.domain[..p.addrPos]
  }

  lemma StepSeenAddress(p: Parser, c: byte)
    requires p.state.DstAddr? && !Step(p, c).state.Error?
    ensures SeenAddress(Step(p, c)) == SeenAddress(p) + [c]
  {
    var q := Step(p, c);
    if p.atyp == DOMAIN && p.domainLen == 0 {
      assert q.domain[..0] == [];
    } else if p.atyp == DOMAIN {
      assert q.domain[..q.addrPos] == p.domain[..p.addrPos] + [c];
    } else {
      assert q.addr[..q.addrPos] == p.addr[..p.addrPos] + [c];
    }
  }

  lemma StepSeenPort(p: Parser, c: byte)
    requires p.state.DstPort?
    ensures Seen(Step(p, c)) == Seen(p) + [c]
  {
    var q := Step(p, c);
    assert SeenAddress(q) == SeenAddress(p);
    if q.state.Done? {
      assert q.port == p.port * 256 + c;
      assert q.port / 256 == p.port && q.port % 256 == c;
      SeenAddressDone(q);
    }
  }

  lemma SeenAddressDone(p: Parser)
    requires p.state.Done? && p.Known()
    ensures Encode(Fields(p)) == [VERSION, p.cmd, 0] + SeenAddress(p) + [p.port / 256, p.port % 256]
  {
    if p.atyp == IPV6 {
      assert p.addr[..16] == p.addr;
    }
  }

  lemma StepSeen(p: Parser, c: byte)
    requires !p.Terminal() && !Step(p, c).state.Error?
    ensures Seen(Step(p, c)) == Seen(p) + [c]
  {
    var q := Step(p, c);
    match p.state
    case Version =>
    case Cmd =>
    case Rsv =>
    case Atyp =>
      if q.Known() {
        assert q.addr[..0] == [];
        assert SeenAddress(q) == [c];
      }
    case DstAddr => StepSeenAddress(p, c);
    case DstPort => StepSeenPort(p, c);
  }

  lemma {:induction false} FeedSeen(p: Parser, bs: seq<byte>)
    requires !Parse(p, bs).state.Error?
    ensures !p.state.Error?
    ensures Seen(Parse(p, bs)) == Seen(p) + bs[..Taken(p, bs)]
    decreases |bs|
  {
    hide Step, Parse, Seen, Feed, Consumed;
    Turn(p, bs);
    if bs == [] || p.Terminal() {
      assert bs[..0] == [];
    } else {
      var q := Step(p, bs[0]);
      FeedSeen(q, bs[1..]);
      StepSeen(p, bs[0]);
      assert bs[..Taken(p, bs)] == [bs[0]] + bs[1..][..Taken(q, bs[1..])];
    }
  }

  /** Sound: a request the parser calls complete is, byte for byte, the encoding of its fields. */
  lemma DoneIsEncoding(bs: seq<byte>)
    ensures var p := Parse(Initial(), bs);
            var k := Taken(Initial(), bs);
            p.state.Done? ==>
              if p.Known() then bs[..k] == Encode(Fields(p))
              else k == 4 && bs[..4] == [VERSION, p.cmd, 0, p.atyp] && p.reply == ADDRESS_TYPE_NOT_SUPPORTED
  {
    hide Feed, Consumed;
    var p := Parse(Initial(), bs);
    if p.state.Done? {
      FeedSeen(Initial(), bs);
      assert bs[..Taken(Initial(), bs)] == Seen(p);
    }
  }

  /** The streams the parser rejects: bad version, bad reserved byte, empty name. */
  predicate Malformed(bs: seq<byte>) {
    || (|bs| >= 1 && bs[0] != VERSION)
    || (|bs| >= 3 && bs[2] != 0)
    || (|bs| >= 5 && bs[3] == DOMAIN && bs[4] == 0)
  }

  lemma SeenWellFormed(p: Parser, rest: seq<byte>)
    requires !p.state.Error? && (rest == [] || p.state.Done?)
    ensures !Malformed(Seen(p) + rest)
  {
    if p.state.Done? && p.Known() {
      SeenAddressDone(p);
    }
  }

  lemma StepError(p: Parser, c: byte)
    requires !p.Terminal()
    ensures Step(p, c).state.Error? ==> Malformed(Seen(p) + [c])
  {
  }

  lemma {:induction false} FeedError(p: Parser, bs: seq<byte>)
    requires !p.state.Error?
    ensures Parse(p, bs).state.Error? <==> Malformed(Seen(p) + bs)
    decreases |bs|
  {
    hide Step;
    if bs == [] || p.Terminal() {
      SeenWellFormed(p, bs);
    } else {
      var q := Step(p, bs[0]);
      var s := Seen(p);
      assert s + bs == (s + [bs[0]]) + bs[1..];
      if q.state.Error? {
        StepError(p, bs[0]);
        assert Parse(p, bs) == Parse(q, bs[1..]) == q;
      } else {
        StepSeen(p, bs[0]);
        FeedError(q, bs[1..]);
      }
    }
  }

  lemma ErrorIffMalformed(bs: seq<byte>)
    ensures Parse(Initial(), bs).state.Error? <==> Malformed(bs)
    ensures Parse(Initial(), bs).state.Error? ==> Parse(Initial(), bs).reply == GENERAL_FAILURE
  {
    FeedError(Initial(), bs);
    assert Seen(Initial()) + bs == bs;
  }

  lemma PrefixAt(a: seq<byte>, b: seq<byte>, i: nat, j: nat)
    requires a <= b && i <= j <= |a|
    ensures a[i..j] == b[i..j]
  {
  }

  lemma TailOf(m: Message, rest: seq<byte>)
    requires m.addr.Valid()
    ensures var a := Encode(m) + rest; var k := |Encode(m)|;
            && k >= 6 && a[1] == m.cmd && a[k - 2] == m.port / 256 && a[k - 1] == m.port % 256
            && match m.addr
               case V4(x) => k == 10 && a[3] == IPV4 && a[4..8] == x
               case V6(x) => k == 22 && a[3] == IPV6 && a[4..20] == x
               case Name(x) => k == 7 + |x| && a[3] == DOMAIN && a[4] == |x| && a[5..5 + |x|] == x
  {
  }

  /** No message starts another, or any stream another message starts. */
  lemma PrefixFree(m: Message, n: Message, rest: seq<byte>)
    requires m.addr.Valid() && n.addr.Valid()
    requires Encode(m) <= Encode(n) + rest
    ensures m == n
  {
    var a, b := Encode(m), Encode(n) + rest;
    assert a + [] == a;
    TailOf(m, []);
    TailOf(n, rest);
    hide Encode;
    assert forall i | 0 <= i < |a| :: a[i] == b[i];
    assert a[3] == b[3] && a[4] == b[4];
    match m.addr
    case V4(_) => PrefixAt(a, b, 4, 8);
    case V6(_) => PrefixAt(a, b, 4, 20);
    case Name(x) => PrefixAt(a, b, 5, 5 + |x|);
  }

  /** A parser still waiting has not yet read as much as a whole message. */
  lemma StillShort(p: Parser, m: Message)
    requires !p.Terminal() && m.addr.Valid()
    ensures !(Encode(m) <= Seen(p))
  {
    var a := Encode(m);
    assert a[3] == (match m.addr case V4(_) => IPV4 case V6(_) => IPV6 case Name(_) => DOMAIN);
    assert |a| == 6 + (match m.addr case V4(_) => 4 case V6(_) => 16 case Name(n) => 1 + |n|);
    assert m.addr.Name? ==> a[4] == |m.addr.name|;
  }

  /** Complete: every well-formed message is accepted, whatever follows it, and read back exactly. */
  lemma EncodingIsDone(m: Message, rest: seq<byte>)
    requires m.addr.Valid()
    ensures var p := Parse(Initial(), Encode(m) + rest);
            && p.state.Done? && p.Known() && Fields(p) == m
            && Taken(Initial(), Encode(m) + rest) == |Encode(m)|
  {
    hide Feed, Consumed;
    var bs := Encode(m) + rest;
    var p := Parse(Initial(), bs);
    ErrorIffMalformed(bs);
    FeedSeen(Initial(), bs);
    var k := Taken(Initial(), bs);
    assert Seen(p) == bs[..k];
    if !p.Terminal() {
      assert bs[..k] == bs;
      StillShort(p, m);
    }
    assert p.state.Done?;
    assert k >= 4 && bs[..4][3] == bs[3];
    assert p.Known();
    PrefixFree(Fields(p), m, rest);
  }

  /** DONE with a known address type happens on exactly the streams that start with a message. */
  lemma DoneIffMessage(bs: seq<byte>, m: Message)
    requires m.addr.Valid()
    ensures var p := Parse(Initial(), bs);
            (p.state.Done? && p.Known() && Fields(p) == m) <==> Encode(m) <= bs
  {
    hide Feed, Consumed;
    var p := Parse(Initial(), bs);
    if p.state.Done? && p.Known() && Fields(p) == m {
      DoneIsEncoding(bs);
    }
    if Encode(m) <= bs {
      assert bs == Encode(m) + bs[|Encode(m)|..];
      EncodingIsDone(m, bs[|Encode(m)|..]);
    }
  }

  /** The same over any split of the stream, with what is left over. */
  lemma AnySplit(chunks: seq<seq<byte>>, m: Message)
    requires m.addr.Valid()
    ensures var (p, left) := FeedChunks(MACHINE, Initial(), [], chunks);
            && ((p.state.Done? && p.Known() && Fields(p) == m) <==> Encode(m) <= Concat(chunks))
            && (Encode(m) <= Concat(chunks) ==> left == Concat(chunks)[|Encode(m)|..])
            && (p.state.Error? <==> Malformed(Concat(chunks)))
            && (!p.Terminal() ==> left == [])
  {
    hide Feed, Consumed;
    var bs := Concat(chunks);
    ChunkingIrrelevant(MACHINE, Initial(), [], chunks);
    assert [] + bs == bs;
    DoneIffMessage(bs, m);
    ErrorIffMalformed(bs);
    if Encode(m) <= bs {
      assert bs == Encode(m) + bs[|Encode(m)|..];
      EncodingIsDone(m, bs[|Encode(m)|..]);
    }
  }

  /** A stream whose fourth byte is in range and is no known address type. */
  predicate UnknownType(bs: seq<byte>) {
    |bs| >= 4 && bs[0] == VERSION && bs[2] == 0 && bs[3] != IPV4 && bs[3] != DOMAIN && bs[3] != IPV6
  }

  lemma AtypSeen(p: Parser)
    requires p.state.DstAddr? || p.state.DstPort? || p.state.Done?
    ensures |Seen(p)| >= 4 && Seen(p)[3] == p.atyp
  {
    if p.state.Done? && p.Known() {
      SeenAddressDone(p);
    }
  }

  /** An address type outside the table ends the parse after four bytes, on exactly these streams. */
  lemma UnknownTypeIff(bs: seq<byte>)
    ensures var p := Parse(Initial(), bs);
            p.state.Done? && !p.Known() <==> UnknownType(bs)
  {
    hide Feed, Consumed;
    var p := Parse(Initial(), bs);
    var k := Taken(Initial(), bs);
    ErrorIffMalformed(bs);
    if !p.state.Error? {
      FeedSeen(Initial(), bs);
      assert Seen(p) == bs[..k];
      if p.state.Done? || p.state.DstAddr? || p.state.DstPort? {
        AtypSeen(p);
        assert bs[..k][3] == bs[3];
      }
      if p.state.Done? && !p.Known() {
        assert Seen(p) == [VERSION, p.cmd, 0, p.atyp];
        assert forall i | 0 <= i < 4 :: bs[..k][i] == bs[i];
      }
    }
  }

  // ---------------------------------------------------------------- replies

  function ReplyV4(reply: byte, addr: seq<byte>, port: port16): (bs: seq<byte>)
    requires |addr| == 4
    ensures |bs| == 10 && bs[0] == VERSION && bs[1] == reply
  {
    [VERSION, reply, 0, IPV4, addr[0], addr[1], addr[2], addr[3], port / 256 % 256, port % 256]
  }

  function ReplyV6(reply: byte, addr: seq<byte>, port: port16): (bs: seq<byte>)
    requires |addr| == 16
    ensures |bs| == 22 && bs[0] == VERSION && bs[1] == reply
  {
    [VERSION, reply, 0, IPV6] + addr + [port / 256 % 256, port % 256]
  }

  /** request_marshall: the reply with no bound address. */
  function ReplyZero(reply: byte): (bs: seq<byte>)
    ensures |bs| == 10 && bs[0] == VERSION && bs[1] == reply
  {
    ReplyV4(reply, [0, 0, 0, 0], 0)
  }

  lemma ReplyIsMessage(reply: byte, port: port16)
    ensures forall a: seq<byte> | |a| == 4 :: ReplyV4(reply, a, port) == Encode(Message(reply, V4(a), port))
    ensures forall a: seq<byte> | |a| == 16 :: ReplyV6(reply, a, port) == Encode(Message(reply, V6(a), port))
  {
    assert port / 256 % 256 == port / 256;
  }

  /** A reply read by the request parser, in any chunks, comes back whole. */
  lemma ReplyRoundTrip(reply: byte, addr: Address, port: port16, chunks: seq<seq<byte>>)
    requires addr.Valid() && !addr.Name?
    requires Concat(chunks) == if addr.V4? then ReplyV4(reply, addr.ip4, port) else ReplyV6(reply, addr.ip6, port)
    ensures var (p, left) := FeedChunks(MACHINE, Initial(), [], chunks);
            && p.state.Done? && p.Known() && Fields(p) == Message(reply, addr, port) && left == []
  {
    var m := Message(reply, addr, port);
    ReplyIsMessage(reply, port);
    ChunkingIrrelevant(MACHINE, Initial(), [], chunks);
    assert [] + Concat(chunks) == Encode(m) + [];
    EncodingIsDone(m, []);
  }

  // ---------------------------------------------------------------- the parser and the marshallers in place

  class RequestParser {
    var state: State
    var cmd: byte
    var atyp: byte
    const addr: array<byte>
    const domain: array<byte>
    var domainLen: byte
    var addrPos: byte
    var portPos: byte
    var port: port16
    var reply: byte

    ghost function View(): Raw
      reads this, addr, domain
    {
      Raw(state, cmd, atyp, addr[..], domain[..], domainLen, addrPos, portPos, port, reply)
    }

    ghost predicate Valid()
      reads this, addr, domain
    {
      addr != domain && View().Wf()
    }

    constructor ()
      ensures Valid() && fresh(this) && fresh(addr) && fresh(domain)
      ensures View() == Initial()
    {
      addr := new byte[16](i => 0);
      domain := new byte[256](i => 0);
      state, cmd, atyp := Version, 0, 0;
      domainLen, addrPos, portPos, port, reply := 0, 0, 0, 0, GENERAL_FAILURE;
      new;
      assert addr[..] == Zeros(16) && domain[..] == Zeros(256);
    }

    method Init()
      requires addr != domain && addr.Length == 16 && domain.Length == 256
      modifies this, addr, domain
      ensures Valid() && View() == Initial()
    {
      forall i | 0 <= i < 16 {
        addr[i] := 0;
      }
      forall i | 0 <= i < 256 {
        domain[i] := 0;
      }
      state, cmd, atyp := Version, 0, 0;
      domainLen, addrPos, portPos, port, reply := 0, 0, 0, 0, GENERAL_FAILURE;
      assert addr[..] == Zeros(16) && domain[..] == Zeros(256);
    }

    method AcceptAddressByte(c: byte)
      requires Valid() && state.DstAddr?
      modifies this, addr, domain
      ensures Valid() && View() == Step(old(View()), c)
    {
      if atyp == DOMAIN && domainLen == 0 {
        domainLen := c;
        if domainLen == 0 {
          reply := GENERAL_FAILURE;
          state := Error;
        }
      } else if atyp == DOMAIN {
        domain[addrPos] := c;
        addrPos := addrPos + 1;
        if addrPos == domainLen {
          domain[domainLen] := 0;
          state := DstPort;
        }
      } else {
        addr[addrPos] := c;
        addrPos := addrPos + 1;
        var length := if atyp == IPV4 then 4 else if atyp == IPV6 then 16 else 0;
        if addrPos == length {
          state := DstPort;
        }
      }
    }

    method Accept(c: byte)
      requires Valid() && !View().Terminal()
      modifies this, addr, domain
      ensures Valid() && View() == Step(old(View()), c)
    {
      match state {
        case Version =>
          state := if c == VERSION then Cmd else Error;
          if state.Error? {
            reply := GENERAL_FAILURE;
          }
        case Cmd =>
          cmd := c;
          if c != CONNECT && c != BIND && c != UDP_ASSOCIATE {
            reply := COMMAND_NOT_SUPPORTED;
          }
          state := Rsv;
        case Rsv =>
          state := if c == 0 then State.Atyp else Error;
          if state.Error? {
            reply := GENERAL_FAILURE;
          }
        case Atyp =>
          atyp := c;
          if c == IPV4 || c == IPV6 {
            state := DstAddr;
          } else if c == DOMAIN {
            state := DstAddr;
            domainLen := 0;
          } else {
            reply := ADDRESS_TYPE_NOT_SUPPORTED;
            state := Done;
          }
        case DstAddr =>
          AcceptAddressByte(c);
        case DstPort =>
          port := (port * 256 + c) % 65536;
          portPos := portPos + 1;
          if portPos == 2 {
            state := Done;
          }
      }
    }

    /**
     * The parsing loop. It takes exactly what `Feed` takes, and a result that is not final leaves
     * the buffer empty with its whole capacity free.
     */
    method Consume(b: Buffer) returns (st: State, errored: bool)
      requires Valid() && b.Valid() && b.data != addr && b.data != domain
      modifies this, addr, domain, b, b.data
      ensures Valid() && b.Valid()
      ensures View() == Parse(old(View()), old(b.View().queue))
      ensures b.View() == old(b.View()).Drop(Taken(old(View()), old(b.View().queue)))
      ensures st == state && (errored <==> st.Error?)
      ensures !View().Terminal() ==> b.View() == EmptyFifo(b.data.Length)
    {
      hide Step, Feed, Consumed;
      ghost var p0, f0 := View(), b.View();
      ghost var k := 0;
      DropDrop(f0, 0, 0);
      var more := b.CanRead();
      while more && !state.Done? && !state.Error?
        invariant Valid() && b.Valid()
        invariant k <= |f0.queue| && b.View() == f0.Drop(k)
        invariant more <==> b.View().queue != []
        invariant b.View().queue == f0.queue[k..]
        invariant Parse(p0, f0.queue) == Parse(View(), f0.queue[k..])
        invariant Taken(p0, f0.queue) == k + Taken(View(), f0.queue[k..])
        decreases |f0.queue| - k
      {
        Turn(View(), f0.queue[k..]);
        var c := b.Read();
        assert f0.queue[k..][0] == f0.queue[k] && f0.queue[k..][1..] == f0.queue[k + 1..];
        DropDrop(f0, k, 1);
        Accept(c);
        k := k + 1;
        more := b.CanRead();
      }
      Turn(View(), f0.queue[k..]);
      return state, state.Error?;
    }
  }

  /** request_marshall_ipv4 and request_marshall_ipv6: -1 for a reply code outside the table or no room. */
  method MarshallIpv4(b: Buffer, reply: byte, addr: seq<byte>, port: port16) returns (ok: bool)
    requires b.Valid() && |addr| == 4
    modifies b, b.data
    ensures b.Valid()
    ensures b.View() == if reply > ADDRESS_TYPE_NOT_SUPPORTED then old(b.View()) else old(b.View()).Put(ReplyV4(reply, addr, port))
    ensures ok <==> reply <= ADDRESS_TYPE_NOT_SUPPORTED && old(b.View().space) >= 10
  {
    var response := [VERSION, reply, 0, IPV4, addr[0], addr[1], addr[2], addr[3], port / 256 % 256, port % 256];
    if reply > ADDRESS_TYPE_NOT_SUPPORTED {
      return false;
    }
    ok := b.WriteAll(response);
  }

  method MarshallIpv6(b: Buffer, reply: byte, addr: seq<byte>, port: port16) returns (ok: bool)
    requires b.Valid() && |addr| == 16
    modifies b, b.data
    ensures b.Valid()
    ensures b.View() == if reply > ADDRESS_TYPE_NOT_SUPPORTED then old(b.View()) else old(b.View()).Put(ReplyV6(reply, addr, port))
    ensures ok <==> reply <= ADDRESS_TYPE_NOT_SUPPORTED && old(b.View().space) >= 22
  {
    if reply > ADDRESS_TYPE_NOT_SUPPORTED {
      return false;
    }
    ok := b.WriteAll([VERSION, reply, 0, IPV6] + addr + [port / 256 % 256, port % 256]);
  }

  method Marshall(b: Buffer, reply: byte) returns (ok: bool)
    requires b.Valid()
    modifies b, b.data
    ensures b.Valid()
    ensures b.View() == if reply > ADDRESS_TYPE_NOT_SUPPORTED then old(b.View()) else old(b.View()).Put(ReplyZero(reply))
    ensures ok <==> reply <= ADDRESS_TYPE_NOT_SUPPORTED && old(b.View().space) >= 10
  {
    ok := MarshallIpv4(b, reply, [0, 0, 0, 0], 0);
  }
}
