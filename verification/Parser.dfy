/**
 * src/shared/parser.c: the table-driven engine. A definition lists, per state, transitions that
 * are tried in order; the first that matches runs its actions on the events the engine reuses.
 */
module Parsers {
  import opened Common

  const ANY: int := 512

  /** struct parser_event, with `next` reduced to whether it points to the second event. */
  datatype Event = Event(kind: nat, data: seq<byte>, n: byte, next: bool)

  const BLANK := Event(0, [0, 0, 0], 0, false)

  type Action = (Event, byte) -> Event

  datatype Transition = Transition(when: int, dest: nat, act1: Action, act2: Option<Action>)

  datatype Definition = Definition(states: seq<seq<Transition>>, start: nat) {
    ghost predicate Valid() {
      && start < |states|
      && forall s, i | 0 <= s < |states| && 0 <= i < |states[s]| :: states[s][i].dest < |states|
    }

    /** No transition tests a character class, so the class table cannot matter. */
    ghost predicate Classless() {
      forall s, i | 0 <= s < |states| && 0 <= i < |states[s]| ::
        states[s][i].when <= 0xFF || states[s][i].when == ANY
    }
  }

  datatype Engine = Engine(state: nat, e1: Event, e2: Event)

  /** `kind & when` for the class test; `kind` is the byte's entry in the class table. */
  function ClassBits(kind: bv32, when: int): bool {
    0 <= when < 0x1_0000_0000 && kind & (when as bv32) != 0
  }

  predicate Matches(t: Transition, c: byte, kind: bv32) {
    if t.when <= 0xFF then c == t.when
    else if t.when == ANY then true
    else ClassBits(kind, t.when)
  }

  /** The index of the first matching transition, or the number of transitions. */
  function FirstMatch(ts: seq<Transition>, c: byte, kind: bv32): (i: nat)
    ensures i <= |ts|
    ensures i < |ts| ==> Matches(ts[i], c, kind)
    ensures forall j | 0 <= j < i :: !Matches(ts[j], c, kind)
  {
    if ts == [] || Matches(ts[0], c, kind) then 0 else 1 + FirstMatch(ts[1..], c, kind)
  }

  /** parser_feed; the event it returns is the `e1` of the result. */
  function FeedEngine(def: Definition, g: Engine, c: byte, kind: bv32): (h: Engine)
    requires def.Valid() && g.state < |def.states|
    ensures h.state < |def.states|
  {
    var ts := def.states[g.state];
    var i := FirstMatch(ts, c, kind);
    var e1, e2 := g.e1.(next := false), g.e2.(next := false);
    if i == |ts| then Engine(g.state, e1, e2)
    else
      var t := ts[i];
      match t.act2
      case None => Engine(t.dest, t.act1(e1, c), e2)
      case Some(act2) => Engine(t.dest, t.act1(e1, c).(next := true), act2(e2, c))
  }

  /** A whole input, with the class-table entry that each byte happened to find. */
  function RunEngine(def: Definition, g: Engine, bs: seq<byte>, kinds: seq<bv32>): (h: Engine)
    requires def.Valid() && g.state < |def.states| && |kinds| == |bs|
    ensures h.state < |def.states|
  {
    if bs == [] then g
    else
      var n := |bs| - 1;
      FeedEngine(def, RunEngine(def, g, bs[..n], kinds[..n]), bs[n], kinds[n])
  }

  lemma FirstMatchUnique(ts: seq<Transition>, c: byte, kind: bv32, i: nat)
    requires i < |ts| && Matches(ts[i], c, kind)
    requires forall j | 0 <= j < i :: !Matches(ts[j], c, kind)
    ensures FirstMatch(ts, c, kind) == i
  {
  }

  /**
   * `parser_no_classes` has 255 entries (parser.c:96) where parser.h:63 asks for 256, so byte 0xFF
   * reads one past its end. What it finds there cannot matter to a definition without class tests.
   */
  lemma ClassesIrrelevant(def: Definition, g: Engine, c: byte, k1: bv32, k2: bv32)
    requires def.Valid() && def.Classless() && g.state < |def.states|
    ensures FeedEngine(def, g, c, k1) == FeedEngine(def, g, c, k2)
  {
    var ts := def.states[g.state];
    forall i | 0 <= i < |ts|
      ensures Matches(ts[i], c, k1) == Matches(ts[i], c, k2)
    {
      assert ts[i] == def.states[g.state][i];
    }
    var i, j := FirstMatch(ts, c, k1), FirstMatch(ts, c, k2);
    assert i == j;
  }

  class Parser {
    const classes: array<bv32>
    const def: Definition
    var state: nat
    var e1: Event
    var e2: Event

    ghost predicate Valid()
      reads this
    {
      def.Valid() && state < |def.states|
    }

    ghost function View(): Engine
      reads this
    {
      Engine(state, e1, e2)
    }

    constructor (classes: array<bv32>, def: Definition)
      requires def.Valid()
      ensures Valid() && this.classes == classes && this.def == def
      ensures View() == Engine(def.start, BLANK, BLANK)
    {
      this.classes, this.def := classes, def;
      state, e1, e2 := def.start, BLANK, BLANK;
    }

    method Reset()
      requires Valid()
      modifies this
      ensures Valid() && View() == old(View()).(state := def.start)
    {
      state := def.start;
    }

    /** The entry of the class table, or whatever lies behind its end. */
    method Classify(c: byte) returns (kind: bv32)
      ensures c < classes.Length ==> kind == classes[c]
    {
      if c < classes.Length {
        kind := classes[c];
      } else {
        kind := *;
      }
    }

    method Feed(c: byte) returns (e: Event, ghost kind: bv32)
      requires Valid()
      modifies this
      ensures Valid() && e == e1
      ensures c < classes.Length ==> kind == classes[c]
      ensures View() == FeedEngine(def, old(View()), c, kind)
    {
      var cls := Classify(c);
      kind := cls;
      e1, e2 := e1.(next := false), e2.(next := false);
      var ts := def.states[state];
      var i := 0;
      while i < |ts|
        invariant 0 <= i <= |ts| && state == old(state) && ts == def.states[state]
        invariant e1 == old(e1).(next := false) && e2 == old(e2).(next := false)
        invariant forall j | 0 <= j < i :: !Matches(ts[j], c, cls)
      {
        var t := ts[i];
        var matched := if t.when <= 0xFF then c == t.when
                       else if t.when == ANY then true
                       else ClassBits(cls, t.when);
        if matched {
          FirstMatchUnique(ts, c, cls, i);
          e1 := t.act1(e1, c);
          match t.act2 {
            case None =>
            case Some(act2) =>
              e1 := e1.(next := true);
              e2 := act2(e2, c);
          }
          state := t.dest;
          break;
        }
        i := i + 1;
      }
      e := e1;
    }
  }
}
