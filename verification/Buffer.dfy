/**
 * src/shared/buffer.c: a byte array with a read and a write pointer.
 * `Fifo` is what a caller can see of it; `Buffer` is the array itself.
 */
module Buffers {
  import opened Common

  /**
   * A bounded queue. `space` is what the next write may take without compacting first, which
   * can be less than `cap - |queue|`.
   */
  datatype Fifo = Fifo(queue: seq<byte>, space: nat, cap: nat) {
    ghost predicate Wf() {
      && |queue| + space <= cap
      && (queue == [] ==> space == cap)
    }

    function Append(bs: seq<byte>): Fifo
      requires |bs| <= space
    {
      Fifo(queue + bs, space - |bs|, cap)
    }

    /** Consuming the last byte gives the whole array back. */
    function Drop(k: nat): Fifo
      requires k <= |queue|
    {
      if k == |queue| then Fifo([], cap, cap) else Fifo(queue[k..], space, cap)
    }

    function Compact(): Fifo
      requires |queue| <= cap
    {
      Fifo(queue, cap - |queue|, cap)
    }

    function Reset(): Fifo {
      Fifo([], cap, cap)
    }

    /** What a bounded writer leaves: the bytes that fit. */
    function Put(bs: seq<byte>): Fifo {
      Append(bs[..Min(|bs|, space)])
    }
  }

  function EmptyFifo(cap: nat): Fifo {
    Fifo([], cap, cap)
  }

  lemma DropDrop(f: Fifo, i: nat, j: nat)
    requires f.Wf() && i + j <= |f.queue|
    ensures f.Drop(0) == f
    ensures f.Drop(i).Drop(j) == f.Drop(i + j)
  {
    assert f.queue[0..] == f.queue;
    if i < |f.queue| {
      assert f.queue[i..][j..] == f.queue[i + j..];
    }
  }

  /** The calls a client makes, as data: `Fill` is a recv into the write pointer. */
  datatype Op = Fill(bytes: seq<byte>) | Take(n: nat) | Squeeze | Clear

  predicate Allowed(f: Fifo, op: Op) {
    match op
    case Fill(bs) => |bs| <= f.space
    case Take(n) => n <= |f.queue|
    case Squeeze => |f.queue| <= f.cap
    case Clear => true
  }

  function Apply(f: Fifo, op: Op): Fifo
    requires Allowed(f, op)
  {
    match op
    case Fill(bs) => f.Append(bs)
    case Take(n) => f.Drop(n)
    case Squeeze => f.Compact()
    case Clear => f.Reset()
  }

  ghost predicate AllAllowed(f: Fifo, ops: seq<Op>)
    decreases |ops|
  {
    ops == [] || (Allowed(f, ops[0]) && AllAllowed(Apply(f, ops[0]), ops[1..]))
  }

  ghost function RunOps(f: Fifo, ops: seq<Op>): Fifo
    requires AllAllowed(f, ops)
    decreases |ops|
  {
    if ops == [] then f else RunOps(Apply(f, ops[0]), ops[1..])
  }

  function In(op: Op): seq<byte> {
    if op.Fill? then op.bytes else []
  }

  /** What one call takes out of the queue: read by the client, or thrown away by a reset. */
  function Out(f: Fifo, op: Op): seq<byte>
    requires Allowed(f, op)
  {
    match op
    case Take(n) => f.queue[..n]
    case Clear => f.queue
    case _ => []
  }

  /** Everything ever put in, in order. */
  function Written(ops: seq<Op>): seq<byte> {
    if ops == [] then [] else In(ops[0]) + Written(ops[1..])
  }

  /** Everything that ever left, in order. */
  ghost function Removed(f: Fifo, ops: seq<Op>): seq<byte>
    requires AllAllowed(f, ops)
    decreases |ops|
  {
    if ops == [] then [] else Out(f, ops[0]) + Removed(Apply(f, ops[0]), ops[1..])
  }

  lemma OneOp(f: Fifo, op: Op)
    requires f.Wf() && Allowed(f, op)
    ensures Apply(f, op).Wf() && Apply(f, op).cap == f.cap
    ensures f.queue + In(op) == Out(f, op) + Apply(f, op).queue
  {
    match op
    case Take(n) => assert f.queue == f.queue[..n] + f.queue[n..];
    case _ =>
  }

  lemma Regroup(q: seq<byte>, i: seq<byte>, w: seq<byte>, o: seq<byte>, g: seq<byte>, r: seq<byte>, e: seq<byte>)
    requires q + i == o + g && g + w == r + e
    ensures q + (i + w) == (o + r) + e
  {
    assert q + (i + w) == (q + i) + w;
    assert (o + g) + w == o + (g + w);
    assert o + (r + e) == (o + r) + e;
  }

  /** Over any sequence of calls: first in, first out, nothing lost, duplicated or reordered. */
  lemma {:induction false} FifoLaw(f: Fifo, ops: seq<Op>)
    requires f.Wf() && AllAllowed(f, ops)
    ensures RunOps(f, ops).Wf() && RunOps(f, ops).cap == f.cap
    ensures f.queue + Written(ops) == Removed(f, ops) + RunOps(f, ops).queue
    decreases |ops|
  {
    if ops == [] {
    } else {
      var g := Apply(f, ops[0]);
      OneOp(f, ops[0]);
      FifoLaw(g, ops[1..]);
      Regroup(f.queue, In(ops[0]), Written(ops[1..]), Out(f, ops[0]), g.queue,
              Removed(g, ops[1..]), RunOps(g, ops[1..]).queue);
    }
  }

  class Buffer {
    const data: array<byte>
    var read: nat
    var write: nat

    ghost predicate Valid()
      reads this
    {
      && read <= write <= data.Length
      && (read == write ==> read == 0)
    }

    ghost function View(): (f: Fifo)
      requires Valid()
      reads this, data
      ensures f.Wf() && f.cap == data.Length
    {
      Fifo(data[read..write], data.Length - write, data.Length)
    }

    constructor (raw: array<byte>)
      ensures Valid() && data == raw
      ensures View() == EmptyFifo(raw.Length)
    {
      data := raw;
      read, write := 0, 0;
    }

    method Reset()
      modifies this
      ensures Valid() && View() == EmptyFifo(data.Length)
    {
      read, write := 0, 0;
    }

    function CanWrite(): (b: bool)
      requires Valid()
      reads this, data
      ensures b <==> View().space > 0
    {
      data.Length - write > 0
    }

    function CanRead(): (b: bool)
      requires Valid()
      reads this, data
      ensures b <==> View().queue != []
    {
      write - read > 0
    }

    /** The room behind the write pointer, which is the count passed to recv. */
    function WriteRoom(): (count: nat)
      requires Valid()
      reads this, data
      ensures count == View().space
    {
      data.Length - write
    }

    /** The bytes between the pointers, which is the count passed to send. */
    function Pending(): (count: nat)
      requires Valid()
      reads this, data
      ensures count == |View().queue|
    {
      write - read
    }

    /** The bytes a kernel copies behind the write pointer; the pointer does not move yet. */
    method KernelFill(bs: seq<byte>)
      requires Valid() && |bs| <= View().space
      modifies data
      ensures Valid() && View() == old(View())
      ensures data[write..write + |bs|] == bs
    {
      forall i | 0 <= i < |bs| {
        data[write + i] := bs[i];
      }
    }

    method WriteAdv(bytes: int)
      requires Valid() && bytes <= View().space
      modifies this
      ensures Valid()
      ensures View() == if bytes > -1 then old(View().Append(data[write..write + bytes])) else old(View())
    {
      if bytes > -1 {
        write := write + bytes;
      }
    }

    method Compact()
      requires read <= write <= data.Length
      modifies this, data
      ensures Valid()
      ensures View() == Fifo(old(data[read..write]), data.Length - old(write - read), data.Length)
    {
      if read == 0 {
      } else if read == write {
        read, write := 0, 0;
      } else {
        var n := write - read;
        // memmove: source and target may overlap
        forall i | 0 <= i < n {
          data[i] := data[read + i];
        }
        read, write := 0, n;
      }
    }

    method ReadAdv(bytes: int)
      requires Valid() && bytes <= |View().queue|
      modifies this, data
      ensures Valid()
      ensures View() == if bytes > -1 then old(View()).Drop(bytes) else old(View())
    {
      if bytes > -1 {
        read := read + bytes;
        if read == write {
          Compact();
        }
      }
    }

    method Read() returns (c: byte)
      requires Valid()
      modifies this, data
      ensures Valid()
      ensures old(View().queue) != [] ==> c == old(View().queue[0]) && View() == old(View()).Drop(1)
      ensures old(View().queue) == [] ==> c == 0 && View() == old(View())
    {
      var some := CanRead();
      if some {
        c := data[read];
        ReadAdv(1);
      } else {
        c := 0;
      }
    }

    method Write(c: byte)
      requires Valid()
      modifies this, data
      ensures Valid()
      ensures View() == old(View()).Put([c])
    {
      var some := CanWrite();
      if some {
        data[write] := c;
        WriteAdv(1);
      }
    }

    /** recv: the kernel fills at most the room there is and the caller advances by as much. */
    method Receive(bs: seq<byte>)
      requires Valid() && |bs| <= View().space
      modifies this, data
      ensures Valid() && View() == old(View()).Append(bs)
    {
      KernelFill(bs);
      WriteAdv(|bs|);
    }

    /** The marshallers' loop: one byte at a time, giving up at the first that does not fit. */
    method WriteAll(bs: seq<byte>) returns (ok: bool)
      requires Valid()
      modifies this, data
      ensures Valid() && View() == old(View()).Put(bs)
      ensures ok <==> |bs| <= old(View().space)
    {
      var i := 0;
      assert old(View()).Put(bs[..0]) == View();
      while i < |bs|
        invariant 0 <= i <= |bs| && i <= old(View().space)
        invariant Valid() && View() == old(View()).Append(bs[..i])
      {
        var some := CanWrite();
        if !some {
          return false;
        }
        Write(bs[i]);
        assert bs[..i + 1] == bs[..i] + [bs[i]];
        i := i + 1;
      }
      assert bs[..|bs|] == bs;
      return true;
    }
  }
}
