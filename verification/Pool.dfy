/**
 * The pool of struct socks5 in src/server/socks5nio.c, a list linked through `next`, and the two
 * connection counters of src/server/metrics.c that it moves.
 */
module Pools {
  import opened Common
  import opened Buffers
  import opened Selectors
  import opened Connections
  import opened Socks5s

  const MAX_POOL := 50

  class Metrics {
    var historic: nat
    var concurrent: nat

    constructor ()
      ensures historic == 0 && concurrent == 0
    {
      historic, concurrent := 0, 0;
    }

    method RegisterNewConnection()
      modifies this
      ensures historic == old(historic) + 1 && concurrent == old(concurrent) + 1
    {
      historic := historic + 1;
      concurrent := concurrent + 1;
    }

    method RegisterClosedConnection()
      modifies this`concurrent
      ensures concurrent == if old(concurrent) > 0 then old(concurrent) - 1 else 0
    {
      if concurrent > 0 {
        concurrent := concurrent - 1;
      }
    }
  }

  ghost function At(blocks: seq<Block>, i: nat): Block? {
    if i < |blocks| then blocks[i] else null
  }

  class Pool {
    var head: Block?
    var size: nat
    ghost var blocks: seq<Block>

    /** The list from `head` is `blocks`: no block twice, so it ends. */
    ghost predicate Valid()
      reads this, blocks
    {
      && |blocks| == size <= MAX_POOL
      && (forall i, j | 0 <= i < j < |blocks| :: blocks[i] != blocks[j])
      && head == At(blocks, 0)
      && (forall i | 0 <= i < |blocks| :: blocks[i].Shape())
      && (forall i {:trigger blocks[i].next} | 0 <= i < |blocks| :: blocks[i].next == At(blocks, i + 1))
    }

    constructor ()
      ensures Valid() && blocks == []
    {
      head, size, blocks := null, 0, [];
    }

    method Pop() returns (b: Block)
      requires Valid() && head != null
      modifies this, head
      ensures Valid() && b == old(blocks[0]) && blocks == old(blocks[1..]) && b.Shape() && b !in blocks
    {
      ghost var all := blocks;
      b := head;
      assert b == all[0] && b.next == At(all, 1);
      head := b.next;
      b.next := null;
      size := size - 1;
      blocks := blocks[1..];
      forall i | 0 <= i < |blocks|
        ensures blocks[i].next == At(blocks, i + 1)
      {
        assert blocks[i] == all[i + 1] && all[i + 1] != all[0] && all[i + 1].next == At(all, i + 2);
      }
    }

    method Push(b: Block)
      requires Valid() && b !in blocks && b.Shape() && size < MAX_POOL
      modifies this, b
      ensures Valid() && blocks == [b] + old(blocks)
    {
      b.next := head;
      head := b;
      size := size + 1;
      ghost var rest := blocks;
      blocks := [b] + blocks;
      forall i | 0 <= i < |blocks|
        ensures blocks[i].next == At(blocks, i + 1)
      {
        assert i > 0 ==> blocks[i] == rest[i - 1] && rest[i - 1] in rest;
      }
    }

    /** The first block of the pool, or one from malloc if the pool is empty */
    method Obtain(classes: array<bv32>, memory: bool) returns (b: Block?)
      requires Valid()
      modifies this, this.head
      ensures Valid()
      ensures b == null <==> old(blocks) == [] && !memory
      ensures b != null ==> b.Shape() && b !in blocks
      ensures if old(blocks) == [] then blocks == [] && (b != null ==> fresh(b))
              else b == old(blocks)[0] && blocks == old(blocks)[1..]
    {
      if head != null {
        b := Pop();
      } else if memory {
        b := new Block(classes);
      } else {
        b := null;
      }
    }

    /** socks5_new */
    method New(fd: int, classes: array<bv32>, memory: bool, metrics: Metrics) returns (s: Socks5?)
      requires Valid()
      modifies this, this.head, metrics
      ensures Valid()
      ensures s == null <==> old(blocks) == [] && !memory
      ensures s == null ==>
                blocks == [] && metrics.historic == old(metrics.historic) && metrics.concurrent == old(metrics.concurrent)
      ensures s != null ==> fresh(s) && s.Valid() && s.View() == Opened(fd).(clientReg := None) && s.block !in blocks
      ensures s != null ==> metrics.historic == old(metrics.historic) + 1 && metrics.concurrent == old(metrics.concurrent) + 1
      ensures s != null && old(blocks) != [] ==> s.block == old(blocks)[0] && blocks == old(blocks)[1..]
      ensures s != null && old(blocks) == [] ==> fresh(s.block) && blocks == []
    {
      hide Block.Shape, Socks5.View, Socks5.Valid, Opened;
      var b := Obtain(classes, memory);
      if b == null {
        return null;
      }
      metrics.RegisterNewConnection();
      s := new Socks5(b, fd);
    }

    /** The object is over: one connection less, and its block to the pool, or freed if the pool is full. */
    method GiveBack(b: Block, metrics: Metrics)
      requires Valid() && b !in blocks && b.Shape()
      modifies this, b, metrics`concurrent
      ensures Valid() && blocks == if |old(blocks)| < MAX_POOL then [b] + old(blocks) else old(blocks)
      ensures metrics.concurrent == if old(metrics.concurrent) > 0 then old(metrics.concurrent) - 1 else 0
    {
      metrics.RegisterClosedConnection();
      if size < MAX_POOL {
        Push(b);
      }
    }

    lemma Apart(s: Socks5, metrics: Metrics)
      ensures s.Repr() !! {this, s.block, metrics}
    {
    }

    /** socks5_destroy: one holder lets go */
    method Destroy(s: Socks5, metrics: Metrics)
      requires Valid() && s.Valid() && s.block !in blocks && s.block.Shape()
      modifies this, s.block, s`references, s`retired, metrics`concurrent
      ensures Valid() && s.Valid() && s.View() == Connections.Release(old(s.View()))
      ensures blocks == if old(s.references) == 1 && |old(blocks)| < MAX_POOL then [s.block] + old(blocks) else old(blocks)
      ensures metrics.concurrent == if old(s.references) == 1 && old(metrics.concurrent) > 0 then old(metrics.concurrent) - 1
                                    else old(metrics.concurrent)
    {
      hide Pool.Valid, Socks5.View, Socks5.Valid, Block.Shape, Connections.Release;
      Apart(s, metrics);
      if s.references == 1 {
        GiveBack(s.block, metrics);
      }
      s.Release();
    }

    /** The list has no cycle: `n` steps along `next` from the head lead to its block `n`, and to the end after the last. */
    ghost function Walk(n: nat): (b: Block?)
      requires Valid()
      reads this, blocks
      ensures b == At(blocks, n)
    {
      if n == 0 then head
      else
        var before := Walk(n - 1);
        if before == null then null else assert before == blocks[n - 1]; before.next
    }
  }
}
