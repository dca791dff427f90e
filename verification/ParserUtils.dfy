/** src/shared/parser_utils.c: an automaton that compares its input with a string ignoring case. */
module ParserUtils {
  import opened Common
  import opened Parsers

  const MAYEQ: nat := 0
  const EQ: nat := 1
  const NEQ: nat := 2

  /** tolower and toupper in the C locale. */
  function Lower(c: byte): byte {
    if 65 <= c <= 90 then c + 32 else c
  }

  function Upper(c: byte): byte {
    if 97 <= c <= 122 then c - 32 else c
  }

  function Emit(kind: nat): Action {
    (e: Event, c: byte) => e.(kind := kind, n := 1, data := if |e.data| == 0 then [c] else e.data[0 := c])
  }

  predicate Ascii(s: seq<byte>) {
    forall i | 0 <= i < |s| :: 0 < s[i] < 128
  }

  predicate EqualIgnoringCase(a: seq<byte>, b: seq<byte>) {
    |a| == |b| && forall i | 0 <= i < |a| :: Lower(a[i]) == Lower(b[i])
  }

  /** What the automaton for `s` must report after reading `bs`. */
  function Verdict(s: seq<byte>, bs: seq<byte>): nat {
    if |bs| < |s| && EqualIgnoringCase(bs, s[..|bs|]) then MAYEQ
    else if |bs| == |s| && EqualIgnoringCase(bs, s) then EQ
    else NEQ
  }

  function Sink(n: nat): seq<Transition> {
    [Transition(ANY, n + 1, Emit(NEQ), None)]
  }

  function Row(s: seq<byte>, i: nat): seq<Transition>
    requires i < |s|
  {
    var kind := if i + 1 == |s| then EQ else MAYEQ;
    [Transition(Lower(s[i]), i + 1, Emit(kind), None),
     Transition(Upper(s[i]), i + 1, Emit(kind), None)] + Sink(|s|)
  }

  /** The table that parser_utils_strcmpi fills: one row per character, then the two sinks. */
  ghost predicate Compares(def: Definition, s: seq<byte>) {
    && def.start == 0 && |def.states| == |s| + 2
    && (forall i | 0 <= i < |s| :: def.states[i] == Row(s, i))
    && def.states[|s|] == Sink(|s|) && def.states[|s| + 1] == Sink(|s|)
  }

  method StrCmpI(s: seq<byte>) returns (def: Definition)
    ensures def.Valid() && def.Classless() && Compares(def, s)
  {
    var n := |s|;
    var stEq, stNeq := n, n + 1;
    var states: seq<seq<Transition>> := [];
    var i := 0;
    while i < n
      invariant 0 <= i <= n && |states| == i
      invariant forall j | 0 <= j < i :: states[j] == Row(s, j)
    {
      var dest := if i + 1 == n then stEq else i + 1;
      var act := Emit(if i + 1 == n then EQ else MAYEQ);
      states := states + [[Transition(Lower(s[i]), dest, act, None),
                           Transition(Upper(s[i]), dest, act, None),
                           Transition(ANY, stNeq, Emit(NEQ), None)]];
      i := i + 1;
    }
    states := states + [[Transition(ANY, stNeq, Emit(NEQ), None)]];
    states := states + [[Transition(ANY, stNeq, Emit(NEQ), None)]];
    def := Definition(states, 0);
    ComparesValid(def, s);
  }

  lemma ComparesValid(def: Definition, s: seq<byte>)
    requires Compares(def, s)
    ensures def.Valid() && def.Classless()
  {
    forall st, i | 0 <= st < |def.states| && 0 <= i < |def.states[st]|
      ensures def.states[st][i].dest < |def.states|
      ensures def.states[st][i].when <= 0xFF || def.states[st][i].when == ANY
    {
      if st < |s| {
        assert def.states[st] == Row(s, st);
      }
    }
  }

  lemma RowMatch(s: seq<byte>, i: nat, c: byte, kind: bv32)
    requires i < |s| && Ascii(s)
    ensures var k := FirstMatch(Row(s, i), c, kind);
            if Lower(c) == Lower(s[i]) then k < 2 else k == 2
  {
    var row := Row(s, i);
    assert Ascii(s) ==> 0 < s[i] < 128;
    assert row[0].when == Lower(s[i]) && row[1].when == Upper(s[i]) && row[2].when == ANY;
    assert (c == Lower(s[i]) || c == Upper(s[i])) <==> Lower(c) == Lower(s[i]);
    var k := FirstMatch(row, c, kind);
    assert Matches(row[2], c, kind);
    if k < 2 {
      assert Matches(row[k], c, kind);
    } else {
      assert !Matches(row[0], c, kind) && !Matches(row[1], c, kind);
    }
  }

  /** One byte in a character's row, and in either sink. */
  lemma FeedRow(def: Definition, s: seq<byte>, g: Engine, c: byte, kind: bv32)
    requires Compares(def, s) && def.Valid() && Ascii(s) && g.state <= |s| + 1
    ensures var h := FeedEngine(def, g, c, kind);
            && |h.e1.data| > 0 && h.e1.data[0] == c && h.e1.n == 1 && !h.e1.next
            && if g.state < |s| && Lower(c) == Lower(s[g.state])
               then h.state == g.state + 1 && h.e1.kind == if h.state == |s| then EQ else MAYEQ
               else h.state == |s| + 1 && h.e1.kind == NEQ
  {
    var ts := def.states[g.state];
    if g.state < |s| {
      assert ts == Row(s, g.state);
      RowMatch(s, g.state, c, kind);
      hide Compares, FirstMatch, Ascii;
    } else {
      assert ts == Sink(|s|);
      FirstMatchUnique(ts, c, kind, 0);
    }
  }

  /** Where the automaton stands after `bs`: as far as it has matched, or in the failure sink. */
  function Position(s: seq<byte>, bs: seq<byte>): nat {
    if |bs| <= |s| && EqualIgnoringCase(bs, s[..|bs|]) then |bs| else |s| + 1
  }

  /** For every string and every input: the verdict after each byte, in the sink or not. */
  lemma {:induction false} StrCmpIVerdict(def: Definition, s: seq<byte>, bs: seq<byte>, kinds: seq<bv32>)
    requires Compares(def, s) && def.Valid() && Ascii(s) && |kinds| == |bs|
    ensures var g := RunEngine(def, Engine(def.start, BLANK, BLANK), bs, kinds);
            && g.state == Position(s, bs)
            && (bs != [] ==> g.e1.kind == Verdict(s, bs) && |g.e1.data| > 0 && g.e1.data[0] == bs[|bs| - 1])
            && (bs != [] ==> g.e1.n == 1 && !g.e1.next)
    decreases |bs|
  {
    if bs == [] {
      assert s[..0] == [];
    } else {
      hide FeedEngine, Compares, EqualIgnoringCase;
      var n := |bs| - 1;
      var pre := bs[..n];
      StrCmpIVerdict(def, s, pre, kinds[..n]);
      var g := RunEngine(def, Engine(def.start, BLANK, BLANK), pre, kinds[..n]);
      FeedRow(def, s, g, bs[n], kinds[n]);
      if g.state < |s| {
        Extend(s, bs);
        assert s[..|s|] == s && pre == bs[..n];
      } else {
        Sunk(s, bs);
      }
    }
  }

  lemma Extend(s: seq<byte>, bs: seq<byte>)
    requires 0 < |bs| <= |s|
    ensures EqualIgnoringCase(bs, s[..|bs|]) <==>
            EqualIgnoringCase(bs[..|bs| - 1], s[..|bs| - 1]) && Lower(bs[|bs| - 1]) == Lower(s[|bs| - 1])
  {
    var n := |bs| - 1;
    if EqualIgnoringCase(bs[..n], s[..n]) && Lower(bs[n]) == Lower(s[n]) {
      forall i | 0 <= i < |bs|
        ensures Lower(bs[i]) == Lower(s[..|bs|][i])
      {
        if i < n {
          assert bs[..n][i] == bs[i] && s[..n][i] == s[i];
        }
      }
    }
    if EqualIgnoringCase(bs, s[..|bs|]) {
      forall i | 0 <= i < n
        ensures Lower(bs[..n][i]) == Lower(s[..n][i])
      {
        assert Lower(bs[i]) == Lower(s[..|bs|][i]);
      }
      assert Lower(bs[n]) == Lower(s[..|bs|][n]);
    }
  }

  lemma Sunk(s: seq<byte>, bs: seq<byte>)
    requires bs != [] && Position(s, bs[..|bs| - 1]) >= |s|
    ensures Position(s, bs) == |s| + 1 && Verdict(s, bs) == NEQ
  {
    if |bs| <= |s| {
      Extend(s, bs);
    }
    assert s[..|s|] == s;
  }
}
