/** src/server/monitor.c: the ACCESS-LOG response against the 16384-byte write buffer. */
module Monitor {
  import opened Common
  import opened Buffers
  import opened AccessLogs

  const BUFF_SIZE := 16384
  const LINE_SIZE := 512

  predicate Latin(s: string) {
    forall i | 0 <= i < |s| :: s[i] < 256 as char
  }

  function Text(s: string): (t: seq<byte>)
    requires Latin(s)
    ensures |t| == |s|
  {
    seq(|s|, i requires 0 <= i < |s| => s[i] as int)
  }

  function LineText(e: Entry): seq<byte> {
    e.timestamp + Text(" user=") + e.username + Text(" dst=") + e.destination
    + Text(" port=") + Decimal(e.port) + Text(" status=") + e.status + Text("\n")
  }

  /** snprintf into char line[512] */
  function Line(e: Entry): seq<byte> {
    LineText(e)[..Min(|LineText(e)|, LINE_SIZE - 1)]
  }

  function Lines(entries: seq<Entry>): seq<byte> {
    if entries == [] then [] else LineText(entries[0]) + Lines(entries[1..])
  }

  /** The response in full, no line cut. */
  function Response(entries: seq<Entry>): seq<byte> {
    Text("access_log:") + Decimal(|entries|) + Text("\n") + Lines(entries) + Text("+OK\n")
  }

  lemma LineBound(e: Entry)
    requires e.Valid()
    ensures |LineText(e)| <= 401 && Line(e) == LineText(e)
  {
    PortDigits(e.port);
  }

  lemma {:induction false} LinesBound(entries: seq<Entry>)
    requires forall e | e in entries :: e.Valid()
    ensures |Lines(entries)| <= 401 * |entries|
  {
    if entries != [] {
      LineBound(entries[0]);
      LinesBound(entries[1..]);
    }
  }

  lemma {:induction false} LinesSnoc(entries: seq<Entry>, e: Entry)
    ensures Lines(entries + [e]) == Lines(entries) + LineText(e)
  {
    if entries == [] {
      assert ([e])[1..] == [];
    } else {
      assert (entries + [e])[1..] == entries[1..] + [e];
      LinesSnoc(entries[1..], e);
    }
  }

  /** At most 12850 bytes, so the answer fits the write buffer. */
  lemma ResponseBound(entries: seq<Entry>)
    requires |entries| <= MAX_ENTRIES && forall e | e in entries :: e.Valid()
    ensures |Response(entries)| <= 12850 < BUFF_SIZE
  {
    hide LineText;
    CountDigits(|entries|);
    LinesBound(entries);
  }

  lemma NextLine(entries: seq<Entry>, i: nat, done: seq<byte>)
    requires i < |entries| && forall e | e in entries :: e.Valid()
    ensures |Line(entries[i])| <= 401
    ensures done + Lines(entries[..i + 1]) == (done + Lines(entries[..i])) + Line(entries[i])
  {
    LineBound(entries[i]);
    LinesSnoc(entries[..i], entries[i]);
    assert entries[..i + 1] == entries[..i] + [entries[i]];
  }

  lemma CountDigits(n: nat)
    requires n <= MAX_ENTRIES
    ensures |Decimal(n)| <= 2
  {
    assert Power10(2) == 100;
    DecimalDigits(n, 2, 100);
  }

  // ---------------------------------------------------------------- what a reader gets

  /** The pieces of a text between separators. */
  function Split(s: seq<byte>, sep: byte): (r: seq<seq<byte>>)
    ensures |r| >= 1
  {
    if s == [] then [[]]
    else
      var r := Split(s[1..], sep);
      if s[0] == sep then [[]] + r else [[s[0]] + r[0]] + r[1..]
  }

  lemma {:induction false} SplitAt(a: seq<byte>, sep: byte, b: seq<byte>)
    requires sep !in a
    ensures Split(a + [sep] + b, sep) == [a] + Split(b, sep)
  {
    var s := a + [sep] + b;
    if a == [] {
      assert s[0] == sep && s[1..] == b;
      assert Split(s, sep) == [[]] + Split(b, sep);
    } else {
      SplitAt(a[1..], sep, b);
      assert s[0] == a[0] != sep && [a[0]] + a[1..] == a;
      assert (a + [sep] + b)[1..] == a[1..] + [sep] + b;
      assert ([a[1..]] + Split(b, sep))[1..] == Split(b, sep);
    }
  }

  lemma {:induction false} SplitNone(a: seq<byte>, sep: byte)
    requires sep !in a
    ensures Split(a, sep) == [a]
  {
    if a != [] {
      SplitNone(a[1..], sep);
      assert [a[0]] + a[1..] == a;
    }
  }

  /** No field contains this byte. */
  predicate Without(e: Entry, sep: byte) {
    sep !in e.timestamp && sep !in e.username && sep !in e.destination && sep !in e.status
  }

  const SPACE: byte := 32
  const NEWLINE: byte := 10

  lemma {:induction false} DecimalHasDigits(n: nat)
    ensures forall c | c in Decimal(n) :: 48 <= c <= 57
  {
    if n >= 10 {
      DecimalHasDigits(n / 10);
    }
  }

  /** The words of the format strings. */
  lemma Labels()
    ensures Text(" user=") == [SPACE] + Text("user=") && Text(" dst=") == [SPACE] + Text("dst=")
    ensures Text(" port=") == [SPACE] + Text("port=") && Text(" status=") == [SPACE] + Text("status=")
    ensures Text("\n") == [NEWLINE] && Text("+OK\n") == Text("+OK") + [NEWLINE] + []
  {
  }

  lemma NotInText(s: string, c: byte)
    requires Latin(s) && forall i | 0 <= i < |s| :: s[i] as int != c
    ensures c !in Text(s)
  {
  }

  /** A line as its five words, and the newline at the end of the last. */
  function Words(e: Entry): seq<seq<byte>> {
    [e.timestamp, Text("user=") + e.username, Text("dst=") + e.destination, Text("port=") + Decimal(e.port),
     Text("status=") + e.status + [NEWLINE]]
  }

  /** If no field has a space in it, the words of a line say who connected where, on which port, and what came of it. */
  lemma LineReads(e: Entry)
    requires Without(e, SPACE)
    ensures Split(LineText(e), SPACE) == Words(e) && Numeral(Decimal(e.port), e.port)
  {
    DecimalHasDigits(e.port);
    DecimalIsNumeral(e.port);
    var w := Words(e);
    hide Decimal, Split, Numeral, Text;
    Labels();
    NotInText("user=", SPACE);
    NotInText("dst=", SPACE);
    NotInText("port=", SPACE);
    NotInText("status=", SPACE);
    assert forall k | 0 <= k < 5 :: SPACE !in w[k];
    var l3 := w[3] + [SPACE] + w[4];
    var l2 := w[2] + [SPACE] + l3;
    var l1 := w[1] + [SPACE] + l2;
    assert LineText(e) == w[0] + [SPACE] + l1;
    SplitNone(w[4], SPACE);
    SplitAt(w[3], SPACE, w[4]);
    SplitAt(w[2], SPACE, l3);
    SplitAt(w[1], SPACE, l2);
    SplitAt(w[0], SPACE, l1);
  }

  lemma LineHasNoNewline(e: Entry)
    requires Without(e, NEWLINE)
    ensures NEWLINE !in LineText(e)[..|LineText(e)| - 1]
    ensures LineText(e) == LineText(e)[..|LineText(e)| - 1] + [NEWLINE]
  {
    DecimalHasDigits(e.port);
    hide Decimal, Text;
    Labels();
    NotInText(" user=", NEWLINE);
    NotInText(" dst=", NEWLINE);
    NotInText(" port=", NEWLINE);
    NotInText(" status=", NEWLINE);
    var t := e.timestamp + Text(" user=") + e.username + Text(" dst=") + e.destination
             + Text(" port=") + Decimal(e.port) + Text(" status=") + e.status;
    assert LineText(e) == t + [NEWLINE] && LineText(e)[..|t|] == t;
  }

  lemma {:induction false} LinesRead(entries: seq<Entry>, rest: seq<byte>)
    requires forall e | e in entries :: Without(e, NEWLINE)
    ensures Split(Lines(entries) + rest, NEWLINE)
         == seq(|entries|, i requires 0 <= i < |entries| => LineText(entries[i])[..|LineText(entries[i])| - 1]) + Split(rest, NEWLINE)
  {
    hide LineText, Split;
    if entries == [] {
      assert Lines(entries) + rest == rest;
    } else {
      var e := entries[0];
      LineHasNoNewline(e);
      LinesRead(entries[1..], rest);
      var t := LineText(e)[..|LineText(e)| - 1];
      SplitAt(t, NEWLINE, Lines(entries[1..]) + rest);
      assert Lines(entries) + rest == t + [NEWLINE] + (Lines(entries[1..]) + rest);
    }
  }

  /** If no field has a newline in it, the lines of the answer are the count, one for each entry, and +OK. */
  lemma ResponseReads(entries: seq<Entry>)
    requires forall e | e in entries :: Without(e, NEWLINE)
    ensures Split(Response(entries), NEWLINE)
         == [Text("access_log:") + Decimal(|entries|)]
            + seq(|entries|, i requires 0 <= i < |entries| => LineText(entries[i])[..|LineText(entries[i])| - 1])
            + [Text("+OK"), []]
    ensures Numeral(Decimal(|entries|), |entries|)
  {
    DecimalHasDigits(|entries|);
    DecimalIsNumeral(|entries|);
    hide Decimal, Split, Numeral, LineText, Lines, Text;
    Labels();
    NotInText("access_log:", NEWLINE);
    NotInText("+OK", NEWLINE);
    var header, rest := Text("access_log:") + Decimal(|entries|), Lines(entries) + Text("+OK\n");
    assert Response(entries) == header + [NEWLINE] + rest;
    SplitAt(header, NEWLINE, rest);
    LinesRead(entries, Text("+OK\n"));
    SplitAt(Text("+OK"), NEWLINE, []);
    SplitNone([], NEWLINE);
  }

  /** monitor_write_str: what does not fit is dropped. */
  method WriteStr(b: Buffer, str: seq<byte>)
    requires b.Valid()
    modifies b, b.data
    ensures b.Valid() && b.View() == old(b.View()).Put(str)
  {
    var _ := b.WriteAll(str);
  }

  /** A writer that drops nothing when there is room. */
  method WriteFitting(b: Buffer, str: seq<byte>, ghost done: seq<byte>)
    requires b.Valid() && b.View().queue == done && |str| <= b.View().space
    modifies b, b.data
    ensures b.Valid() && b.View().queue == done + str && b.View().space == old(b.View().space) - |str|
  {
    WriteStr(b, str);
    assert str[..|str|] == str;
  }

  method WriteEntries(b: Buffer, entries: seq<Entry>, ghost done: seq<byte>)
    requires b.Valid() && (forall e | e in entries :: e.Valid())
    requires b.View().queue == done && 401 * |entries| <= b.View().space
    modifies b, b.data
    ensures b.Valid() && b.View().queue == done + Lines(entries)
    ensures b.View().space >= old(b.View().space) - 401 * |entries|
  {
    assert Lines(entries[..0]) == [];
    hide Lines, LineText, Line, Text, Decimal;
    var i := 0;
    while i < |entries|
      invariant 0 <= i <= |entries| && b.Valid()
      invariant b.View().queue == done + Lines(entries[..i])
      invariant b.View().space >= old(b.View().space) - 401 * i
    {
      NextLine(entries, i, done);
      WriteFitting(b, Line(entries[i]), done + Lines(entries[..i]));
      i := i + 1;
    }
    assert entries[..i] == entries;
  }

  /** From an empty write buffer the answer to ACCESS-LOG goes out whole. */
  method AccessLogCommand(b: Buffer, log: AccessLog)
    requires b.Valid() && b.View() == EmptyFifo(BUFF_SIZE) && log.Valid()
    modifies b, b.data
    ensures b.Valid() && log.Valid()
    ensures b.View().queue == Response(Recent(log.history))
  {
    hide Lines, LineText, Text, Decimal;
    var entries := log.Copy(MAX_ENTRIES);
    assert entries == Recent(log.history);
    assert forall e | e in entries :: e in log.history;
    CountDigits(|entries|);
    var header := Text("access_log:") + Decimal(|entries|) + Text("\n");
    WriteFitting(b, header, []);
    WriteEntries(b, entries, header);
    WriteFitting(b, Text("+OK\n"), header + Lines(entries));
  }
}
