/**
 * src/socks5/hello.c: the greeting of section 3 of RFC 1928, parsed by the generic engine plus a
 * counter, with the callback of src/server/socks5nio.c that picks the method.
 */
module Hello {
  import opened Common
  import opened Buffers
  import opened Incremental
  import opened Parsers

  const VERSION: byte := 5
  const NO_AUTHENTICATION: byte := 0
  const USERNAME_PASSWORD: byte := 2
  const NO_ACCEPTABLE_METHODS: byte := 255

  // enum hello_state, as the engine's state numbers
  const HELLO_VERSION := 0
  const HELLO_NMETHODS := 1
  const HELLO_METHODS := 2
  const HELLO_ERROR := 4

  const EVENT_NMETHODS := HELLO_NMETHODS
  const EVENT_METHOD := HELLO_METHODS
  const EVENT_ERROR := HELLO_ERROR

  function Store(e: Event, kind: nat, c: byte): Event {
    e.(kind := kind, n := 1, data := if |e.data| == 0 then [c] else e.data[0 := c])
  }

  const VERSION_ARRIVAL: Action := (e: Event, c: byte) => e
  const ERROR_ARRIVAL: Action := (e: Event, c: byte) => e.(kind := EVENT_ERROR, n := 0)
  const NMETHODS_ARRIVAL: Action := (e: Event, c: byte) => Store(e, EVENT_NMETHODS, c)
  const METHOD_ARRIVAL: Action := (e: Event, c: byte) => Store(e, EVENT_METHOD, c)

  const DEFINITION := Definition(
    [[Transition(5, HELLO_NMETHODS, VERSION_ARRIVAL, None), Transition(ANY, HELLO_ERROR, ERROR_ARRIVAL, None)],
     [Transition(ANY, HELLO_METHODS, NMETHODS_ARRIVAL, None)],
     [Transition(ANY, HELLO_METHODS, METHOD_ARRIVAL, None)],
     [],
     []],
    HELLO_VERSION)

  lemma DefinitionValid()
    ensures DEFINITION.Valid() && DEFINITION.Classless()
  {
  }

  datatype State = Version | NMethods | Methods | Done | Error

  /** struct hello_parser; `selected` is what its `data` pointer refers to. */
  datatype Raw = Raw(state: State, engine: Engine, remaining: byte, selected: byte) {
    predicate Terminal() {
      state.Done? || state.Error?
    }

    ghost predicate Wf() {
      && engine.state < |DEFINITION.states|
      && |engine.e1.data| == 3
      && match state
         case Version => engine.state == HELLO_VERSION && engine.e1.kind == 0
         case NMethods => engine.state == HELLO_NMETHODS && engine.e1.kind == 0
         case Methods => engine.state == HELLO_METHODS && remaining > 0
         case Done => true
         case Error => true
    }
  }

  /** After hello_read_init. */
  function Initial(): Raw {
    Raw(Version, Engine(HELLO_VERSION, BLANK, BLANK), 0, NO_ACCEPTABLE_METHODS)
  }

  type Parser = p: Raw | p.Wf() witness Initial()

  /** on_hello_method: a password method wins; no authentication only replaces nothing. */
  function OnMethod(selected: byte, offered: byte): byte {
    if offered == USERNAME_PASSWORD then offered
    else if offered == NO_AUTHENTICATION && selected == NO_ACCEPTABLE_METHODS then offered
    else selected
  }

  /** One turn of the loop in hello_consume; `kind` is the engine's class lookup. */
  function StepKind(p: Parser, c: byte, kind: bv32): (q: Parser) {
    if p.Terminal() then p
    else
      DefinitionValid();
      var g := FeedEngine(DEFINITION, p.engine, c, kind);
      EngineKnown(p, c, kind);
      var e := g.e1;
      if e.kind == EVENT_ERROR then p.(engine := g, state := Error)
      else if e.kind == EVENT_NMETHODS then
        p.(engine := g, remaining := e.data[0], state := if e.data[0] == 0 then Error else Methods)
      else if e.kind == EVENT_METHOD then
        var left: byte := (p.remaining - 1) % 256;
        p.(engine := g, selected := OnMethod(p.selected, e.data[0]), remaining := left,
           state := if left == 0 then Done else p.state)
      else p.(engine := g, state := if p.state.Version? then NMethods else p.state)
  }

  /** What the engine makes of one byte in each of the states the loop can be in. */
  lemma EngineKnown(p: Parser, c: byte, kind: bv32)
    requires !p.Terminal() && DEFINITION.Valid()
    ensures var g := FeedEngine(DEFINITION, p.engine, c, kind);
            && |g.e1.data| == 3
            && match p.state
               case Version =>
                 if c == VERSION then g.state == HELLO_NMETHODS && g.e1.kind == 0
                 else g.e1.kind == EVENT_ERROR
               case NMethods => g.state == HELLO_METHODS && g.e1.kind == EVENT_NMETHODS && g.e1.data[0] == c
               case Methods => g.state == HELLO_METHODS && g.e1.kind == EVENT_METHOD && g.e1.data[0] == c
  {
    var ts := DEFINITION.states[p.engine.state];
    if p.state.Version? {
      FirstMatchUnique(ts, c, kind, if c == VERSION then 0 else 1);
    } else {
      FirstMatchUnique(ts, c, kind, 0);
    }
  }

  function Step(p: Parser, c: byte): Parser {
    StepKind(p, c, 0)
  }

  lemma KindIrrelevant(p: Parser, c: byte, kind: bv32)
    ensures StepKind(p, c, kind) == Step(p, c)
  {
    if !p.Terminal() {
      DefinitionValid();
      ClassesIrrelevant(DEFINITION, p.engine, c, kind, 0);
    }
  }

  const MACHINE: Machine<Parser> := Machine((p, c) => Step(p, c), (p: Parser) => p.Terminal())

  function Parse(p: Parser, bs: seq<byte>): Parser {
    Feed(MACHINE, p, bs)
  }

  function Taken(p: Parser, bs: seq<byte>): nat {
    Consumed(MACHINE, p, bs)
  }

  /** One turn of the loop, and its end. */
  lemma Turn(p: Parser, bs: seq<byte>)
    ensures if bs == [] || p.Terminal() then Parse(p, bs) == p && Taken(p, bs) == 0
            else Parse(p, bs) == Parse(Step(p, bs[0]), bs[1..]) && Taken(p, bs) == 1 + Taken(Step(p, bs[0]), bs[1..])
  {
  }

  // ---------------------------------------------------------------- meaning

  /** The method a server that knows these two must choose. */
  function Choose(methods: seq<byte>): byte {
    if USERNAME_PASSWORD in methods then USERNAME_PASSWORD
    else if NO_AUTHENTICATION in methods then NO_AUTHENTICATION
    else NO_ACCEPTABLE_METHODS
  }

  /** The message of section 3 of RFC 1928. */
  predicate IsGreeting(bs: seq<byte>) {
    |bs| >= 3 && bs[0] == VERSION && |bs| == 2 + bs[1] as int
  }

  predicate Malformed(bs: seq<byte>) {
    (|bs| >= 1 && bs[0] != VERSION) || (|bs| >= 2 && bs[1] == 0)
  }

  /** The parser `p` is where reading `seen` from the start leads. */
  ghost predicate Describes(p: Parser, seen: seq<byte>) {
    match p.state
    case Version => seen == [] && p.selected == NO_ACCEPTABLE_METHODS
    case NMethods => seen == [VERSION] && p.selected == NO_ACCEPTABLE_METHODS
    case Methods =>
      && |seen| >= 2 && seen[0] == VERSION && |seen| + p.remaining as int == 2 + seen[1] as int
      && p.selected == Choose(seen[2..])
    case Done => IsGreeting(seen) && p.selected == Choose(seen[2..])
    case Error => 1 <= |seen| <= 2 && Malformed(seen)
  }

  lemma StepDescribes(p: Parser, seen: seq<byte>, c: byte)
    requires !p.Terminal() && Describes(p, seen)
    ensures Describes(Step(p, c), seen + [c])
  {
    DefinitionValid();
    EngineKnown(p, c, 0);
    match p.state
    case Version =>
    case NMethods => assert (seen + [c])[2..] == [];
    case Methods => assert (seen + [c])[2..] == seen[2..] + [c];
  }

  lemma FeedDescribes(p: Parser, seen: seq<byte>, bs: seq<byte>)
    requires Describes(p, seen)
    ensures Describes(Parse(p, bs), seen + bs[..Taken(p, bs)])
  {
    var inv := (q: Parser, s: seq<byte>) => Describes(q, s);
    forall q: Parser, s: seq<byte>, c: byte | inv(q, s) && !MACHINE.halted(q)
      ensures inv(MACHINE.step(q, c), s + [c])
    {
      StepDescribes(q, s, c);
    }
    FeedInvariant(MACHINE, inv, p, seen, bs);
  }

  /**
   * Accepted are exactly the streams that start with a greeting, rejected exactly the malformed
   * ones, and the method selected is the one to choose among those offered.
   */
  lemma GreetingAccepted(bs: seq<byte>)
    ensures var p := Parse(Initial(), bs);
            var k := Taken(Initial(), bs);
            && (p.state.Error? <==> Malformed(bs))
            && (p.state.Done? <==> !Malformed(bs) && |bs| >= 2 && |bs| >= 2 + bs[1] as int)
            && (p.state.Done? ==> IsGreeting(bs[..k]) && p.selected == Choose(bs[2..k]))
  {
    var p := Parse(Initial(), bs);
    var k := Taken(Initial(), bs);
    FeedDescribes(Initial(), [], bs);
    var seen := [] + bs[..k];
    assert seen == bs[..k] && forall i | 0 <= i < k :: seen[i] == bs[i];
    if p.state.Done? {
      assert seen[2..] == bs[2..k];
    }
  }

  /** A greeting is taken whole and nothing behind it is. */
  lemma GreetingTaken(bs: seq<byte>)
    requires !Malformed(bs) && |bs| >= 2 && |bs| >= 2 + bs[1] as int
    ensures Taken(Initial(), bs) == 2 + bs[1] as int
  {
    GreetingAccepted(bs);
    var k := Taken(Initial(), bs);
    assert bs[..k][1] == bs[1];
  }

  /** The same over any split of the stream: accepted with the method to choose, and nothing behind the greeting taken. */
  lemma AnySplit(chunks: seq<seq<byte>>)
    ensures var bs := Concat(chunks);
            var (p, left) := FeedChunks(MACHINE, Initial(), [], chunks);
            && (p.state.Error? <==> Malformed(bs))
            && (p.state.Done? <==> exists n | 3 <= n <= |bs| :: IsGreeting(bs[..n]))
            && (p.state.Done? ==>
                  && 2 + bs[1] as int <= |bs| && p.selected == Choose(bs[2..2 + bs[1] as int])
                  && left == bs[2 + bs[1] as int..])
            && (!p.Terminal() ==> left == [])
  {
    hide Feed, Consumed;
    var bs := Concat(chunks);
    ChunkingIrrelevant(MACHINE, Initial(), [], chunks);
    assert [] + bs == bs;
    GreetingAccepted(bs);
    if Parse(Initial(), bs).state.Done? {
      GreetingTaken(bs);
      assert IsGreeting(bs[..2 + bs[1] as int]);
    }
  }

  /** hello_marshall */
  function Answer(chosen: byte): seq<byte> {
    [VERSION, chosen]
  }

  // ---------------------------------------------------------------- the parser and the marshaller in place

  class HelloParser {
    var state: State
    var parser: Parsers.Parser
    var remaining: byte
    var selected: byte

    ghost function View(): Raw
      reads this, parser
    {
      Raw(state, parser.View(), remaining, selected)
    }

    ghost predicate Valid()
      reads this, parser
    {
      parser.Valid() && parser.def == DEFINITION && View().Wf()
    }

    constructor (classes: array<bv32>)
      ensures Valid() && fresh(parser) && View() == Initial()
    {
      DefinitionValid();
      state, remaining, selected := Version, 0, NO_ACCEPTABLE_METHODS;
      parser := new Parsers.Parser(classes, DEFINITION);
    }

    /** hello_read_init and hello_parser_init: a new engine every time. */
    method Init(classes: array<bv32>)
      modifies this
      ensures Valid() && fresh(parser) && View() == Initial()
    {
      DefinitionValid();
      selected := NO_ACCEPTABLE_METHODS;
      parser := new Parsers.Parser(classes, DEFINITION);
      remaining := 0;
      state := Version;
    }

    /** Whatever methods have been offered so far, the choice among them becomes the choice with one more. */
    method OnAuthenticationMethod(offered: byte)
      modifies this`selected
      ensures selected == OnMethod(old(selected), offered)
      ensures forall offers :: old(selected) == Choose(offers) ==> selected == Choose(offers + [offered])
    {
      if offered == USERNAME_PASSWORD {
        selected := offered;
      } else if offered == NO_AUTHENTICATION && selected == NO_ACCEPTABLE_METHODS {
        selected := offered;
      }
    }

    method Accept(c: byte)
      requires Valid() && !View().Terminal()
      modifies this, parser
      ensures Valid() && View() == Step(old(View()), c)
      ensures parser == old(parser)
    {
      ghost var p := View();
      var e, kind := parser.Feed(c);
      DefinitionValid();
      EngineKnown(p, c, kind);
      KindIrrelevant(p, c, kind);
      if e.kind == EVENT_ERROR {
        state := Error;
      } else if e.kind == EVENT_NMETHODS {
        remaining := e.data[0];
        state := Methods;
        if remaining == 0 {
          state := Error;
        }
      } else if e.kind == EVENT_METHOD {
        OnAuthenticationMethod(e.data[0]);
        remaining := remaining - 1;
        if remaining == 0 {
          state := Done;
        }
      } else if state.Version? {
        state := NMethods;
      }
    }

    method Consume(b: Buffer) returns (st: State, errored: bool)
      requires Valid() && b.Valid()
      modifies this, parser, b, b.data
      ensures Valid() && b.Valid() && parser == old(parser)
      ensures View() == Parse(old(View()), old(b.View().queue))
      ensures b.View() == old(b.View()).Drop(Taken(old(View()), old(b.View().queue)))
      ensures st == state && (!old(View()).Terminal() ==> (errored <==> st.Error?))
      ensures !View().Terminal() ==> b.View() == EmptyFifo(b.data.Length)
    {
      hide Step, Feed, Consumed;
      ghost var p0, f0 := View(), b.View();
      ghost var k := 0;
      errored := false;
      DropDrop(f0, 0, 0);
      var more := b.CanRead();
      while more && !state.Done? && !state.Error?
        invariant Valid() && b.Valid() && parser == old(parser)
        invariant k <= |f0.queue| && b.View() == f0.Drop(k)
        invariant more <==> b.View().queue != []
        invariant b.View().queue == f0.queue[k..]
        invariant Parse(p0, f0.queue) == Parse(View(), f0.queue[k..])
        invariant Taken(p0, f0.queue) == k + Taken(View(), f0.queue[k..])
        invariant !p0.Terminal() ==> (errored <==> state.Error?)
        decreases |f0.queue| - k
      {
        Turn(View(), f0.queue[k..]);
        var c := b.Read();
        assert f0.queue[k..][0] == f0.queue[k] && f0.queue[k..][1..] == f0.queue[k + 1..];
        DropDrop(f0, k, 1);
        Accept(c);
        errored := state.Error?;
        k := k + 1;
        more := b.CanRead();
      }
      Turn(View(), f0.queue[k..]);
      return state, errored;
    }
  }

  method Marshall(b: Buffer, chosen: byte) returns (ok: bool)
    requires b.Valid()
    modifies b, b.data
    ensures b.Valid()
    ensures b.View() == old(b.View()).Put(Answer(chosen))
    ensures ok <==> old(b.View().space) >= 2
  {
    ok := b.WriteAll([VERSION, chosen]);
  }
}
