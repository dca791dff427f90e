/** src/server/access_log.c: a ring of the last 32 entries. */
module AccessLogs {
  import opened Common

  const MAX_ENTRIES := 32
  const MAX_USERNAME := 64
  const MAX_DESTINATION := 255
  const MAX_STATUS := 32
  const TIMESTAMP_LEN := 20
  const DASH: byte := 45

  /** struct access_log_entry; each field without its terminating zero. */
  datatype Entry = Entry(timestamp: seq<byte>, username: seq<byte>, destination: seq<byte>, port: nat, status: seq<byte>) {
    predicate Valid() {
      && |timestamp| < TIMESTAMP_LEN && |username| <= MAX_USERNAME
      && |destination| <= MAX_DESTINATION && |status| <= MAX_STATUS && port < 65536
    }
  }

  /** What a field of this size holds of a text: a dash for nothing, else as much of its beginning as fits. */
  predicate Holds(max: nat, src: seq<byte>, dst: seq<byte>) {
    if src == [] then dst == [DASH]
    else dst <= src && (|src| <= max ==> dst == src) && (|src| > max ==> |dst| == max)
  }

  /** copy_field: of a C string, a C string that fits; an empty field becomes a dash, a long one is cut. */
  function CopyField(max: nat, src: seq<byte>): (dst: seq<byte>)
    requires max > 0
    ensures 0 < |dst| <= max && Holds(max, src, dst)
    ensures 0 !in src ==> 0 !in dst
  {
    if src == [] then [DASH] else src[..Min(|src|, max)]
  }

  function MakeEntry(timestamp: seq<byte>, username: seq<byte>, destination: seq<byte>, port: nat, status: seq<byte>): (e: Entry)
    requires |timestamp| < TIMESTAMP_LEN && port < 65536
    ensures e.Valid() && e.timestamp == timestamp && e.port == port
    ensures Holds(64, username, e.username) && Holds(255, destination, e.destination) && Holds(32, status, e.status)
  {
    Entry(timestamp, CopyField(MAX_USERNAME, username), CopyField(MAX_DESTINATION, destination),
          port, CopyField(MAX_STATUS, status))
  }

  /** The last 32 of all additions, oldest first. */
  function Recent(history: seq<Entry>): (r: seq<Entry>)
    ensures |r| == Min(|history|, MAX_ENTRIES)
  {
    history[|history| - Min(|history|, MAX_ENTRIES)..]
  }

  class AccessLog {
    const entries: array<Entry>
    var nextEntry: nat
    var entryCount: nat
    ghost var history: seq<Entry>

    ghost predicate Valid()
      reads this, entries
    {
      && entries.Length == MAX_ENTRIES
      && entryCount == Min(|history|, MAX_ENTRIES)
      && nextEntry == |history| % MAX_ENTRIES
      && (forall e | e in history :: e.Valid())
      && forall j | |history| - entryCount <= j < |history| :: entries[j % MAX_ENTRIES] == history[j]
    }

    constructor ()
      ensures Valid() && fresh(entries) && history == []
    {
      entries := new Entry[MAX_ENTRIES](i => Entry([], [], [], 0, []));
      nextEntry, entryCount, history := 0, 0, [];
    }

    method Add(timestamp: seq<byte>, username: seq<byte>, destination: seq<byte>, port: nat, status: seq<byte>)
      requires Valid() && |timestamp| < TIMESTAMP_LEN && port < 65536
      modifies this, entries
      ensures Valid()
      ensures history == old(history) + [MakeEntry(timestamp, username, destination, port, status)]
    {
      var entry := MakeEntry(timestamp, username, destination, port, status);
      NextSlot(|history|);
      entries[nextEntry] := entry;
      nextEntry := (nextEntry + 1) % MAX_ENTRIES;
      if entryCount < MAX_ENTRIES {
        entryCount := entryCount + 1;
      }
      ghost var n := |history|;
      history := history + [entry];
      forall j | |history| - entryCount <= j < |history|
        ensures entries[j % MAX_ENTRIES] == history[j]
      {
        if j < n {
          DistinctSlots(j, n);
        }
      }
    }

    lemma NextSlot(n: nat)
      ensures (n % MAX_ENTRIES + 1) % MAX_ENTRIES == (n + 1) % MAX_ENTRIES
    {
    }

    lemma DistinctSlots(j: nat, n: nat)
      requires n - MAX_ENTRIES < j < n
      ensures j % MAX_ENTRIES != n % MAX_ENTRIES
    {
    }

    /** The oldest `max` of the entries held, oldest first; all of them when `max` is 32. */
    method Copy(max: nat) returns (out: seq<Entry>)
      requires Valid()
      ensures out == Recent(history)[..Min(entryCount, max)]
    {
      var count := if entryCount < max then entryCount else max;
      var first := if entryCount == MAX_ENTRIES then nextEntry else 0;
      out := [];
      ghost var base := |history| - entryCount;
      assert base % MAX_ENTRIES == first;
      var i := 0;
      while i < count
        invariant 0 <= i <= count && |out| == i
        invariant forall k | 0 <= k < i :: out[k] == history[base + k]
      {
        var idx := (first + i) % MAX_ENTRIES;
        assert idx == (base + i) % MAX_ENTRIES;
        out := out + [entries[idx]];
        i := i + 1;
      }
    }
  }
}
