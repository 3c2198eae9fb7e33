/** The pool of coroutine frames (include/rtos/pool.hpp): fixed-size blocks, the free ones
    linked through themselves. */
module Pool {
  import opened Sequences

  ghost function LinkAt(chain: seq<nat>, i: nat): Option<nat> {
    if i < |chain| then Some(chain[i]) else None
  }

  ghost predicate Linked(next: seq<Option<nat>>, chain: seq<nat>, i: nat)
    requires i < |chain|
  {
    chain[i] < |next| && next[chain[i]] == LinkAt(chain, i + 1)
  }

  /** The free list from its head on: each block links to the one behind it, the last to
      nothing. Blocks are known by their index. */
  ghost predicate Chained(next: seq<Option<nat>>, first: Option<nat>, chain: seq<nat>) {
    first == LinkAt(chain, 0) && forall i :: 0 <= i < |chain| ==> Linked(next, chain, i)
  }

  lemma ChainTail(next: seq<Option<nat>>, first: Option<nat>, chain: seq<nat>)
    requires Chained(next, first, chain) && chain != []
    ensures chain[0] < |next| && Chained(next, next[chain[0]], chain[1..])
  {
    assert Linked(next, chain, 0);
    forall i | 0 <= i < |chain| - 1 ensures Linked(next, chain[1..], i) {
      assert Linked(next, chain, i + 1);
    }
  }

  lemma ChainPush(next: seq<Option<nat>>, first: Option<nat>, chain: seq<nat>, b: nat)
    requires Chained(next, first, chain) && b < |next| && b !in chain
    ensures Chained(next[b := first], Some(b), [b] + chain)
  {
    var next', longer := next[b := first], [b] + chain;
    forall i | 0 <= i < |longer| ensures Linked(next', longer, i) {
      if i > 0 { assert Linked(next, chain, i - 1); }
    }
  }

  ghost function Indices(n: nat): (s: set<nat>)
    ensures |s| == n && forall b: nat :: b in s <==> b < n
  {
    if n == 0 then {} else Indices(n - 1) + {n - 1}
  }

  ghost function Members(s: seq<nat>): set<nat> {
    set b | b in s
  }

  lemma {:induction false} DistinctSize(s: seq<nat>)
    requires NoDup(s)
    ensures |Members(s)| == |s|
  {
    if s != [] {
      assert Members(s) == Members(s[1..]) + {s[0]};
      assert s[0] !in s[1..];
      DistinctSize(s[1..]);
    }
  }

  /** Free and live blocks partition the pool. */
  ghost predicate Partition(chain: seq<nat>, live: set<nat>, count: nat) {
    && NoDup(chain)
    && (forall b :: b in chain ==> b !in live)
    && (forall b: nat :: b < count <==> b in chain || b in live)
  }

  /** The number of free blocks is what the live ones leave. */
  lemma PartitionSize(chain: seq<nat>, live: set<nat>, count: nat)
    requires Partition(chain, live, count)
    ensures |chain| + |live| == count
  {
    DistinctSize(chain);
    assert Indices(count) == Members(chain) + live && Members(chain) !! live;
  }

  lemma PartitionTake(chain: seq<nat>, live: set<nat>, count: nat)
    requires Partition(chain, live, count) && chain != []
    ensures Partition(chain[1..], live + {chain[0]}, count) && chain[0] < count && chain[0] !in live
  {
    assert forall b :: b in chain <==> b == chain[0] || b in chain[1..];
  }

  lemma PartitionGive(chain: seq<nat>, live: set<nat>, count: nat, b: nat)
    requires Partition(chain, live, count) && b in live
    ensures Partition([b] + chain, live - {b}, count) && b < count && b !in chain
  {
    assert forall c :: c in [b] + chain <==> c == b || c in chain;
  }

  /** A block chain of all indices in order is a whole pool. */
  lemma PartitionFull(chain: seq<nat>, count: nat)
    requires |chain| == count && forall j :: 0 <= j < count ==> chain[j] == j
    ensures Partition(chain, {}, count)
  {
    forall b: nat | b < count ensures b in chain {
      assert chain[b] == b;
    }
  }

  class FramePool {
    const blockSize: nat
    const blockCount: nat
    var next: array<Option<nat>>
    var first: Option<nat>
    var initialized: bool
    ghost var chain: seq<nat>
    ghost var live: set<nat>

    constructor (blockSize: nat, blockCount: nat)
      ensures Valid() && live == {} && !initialized && this.blockSize == blockSize && this.blockCount == blockCount
      ensures fresh(next)
    {
      this.blockSize, this.blockCount := blockSize, blockCount;
      next := new Option<nat>[blockCount](i => None);
      first, initialized, chain, live := None, false, [], {};
    }

    /** Before its first use the pool has no free list; then its blocks are free or live. */
    ghost predicate Valid()
      reads this, next
    {
      && next.Length == blockCount
      && Chained(next[..], first, chain)
      && (if initialized then Partition(chain, live, blockCount) else chain == [] && live == {})
    }

    method Initialize()
      requires Valid() && !initialized
      modifies this`first, this`initialized, this`chain, next
      ensures Valid() && initialized && |chain| == blockCount
    {
      var i := blockCount;
      while i > 0
        invariant 0 <= i <= blockCount
        invariant Chained(next[..], first, chain)
        invariant |chain| == blockCount - i && forall j :: 0 <= j < |chain| ==> chain[j] == i + j
      {
        ChainPush(next[..], first, chain, i - 1);
        ghost var was := next[..];
        next[i - 1] := first;
        assert next[..] == was[i - 1 := first];
        first := Some(i - 1);
        chain := [i - 1] + chain;
        i := i - 1;
      }
      PartitionFull(chain, blockCount);
      initialized := true;
    }

    /** Fails exactly if the frame does not fit a block or all blocks are live; otherwise the
        block handed out was not live. */
    method Allocate(n: nat) returns (b: Option<nat>)
      requires Valid()
      modifies this`first, this`initialized, this`chain, this`live, next
      ensures Valid()
      ensures b == None <==> n > blockSize || |old(live)| == blockCount
      ensures b == None ==> live == old(live)
      ensures b.Some? ==> b.value < blockCount && b.value !in old(live) && live == old(live) + {b.value}
      ensures initialized == (old(initialized) || n <= blockSize)
    {
      if n > blockSize {
        return None;
      }
      if !initialized {
        Initialize();
      }
      PartitionSize(chain, live, blockCount);
      b := first;
      if b.Some? {
        ChainTail(next[..], first, chain);
        PartitionTake(chain, live, blockCount);
        first := next[b.value];
        live := live + {b.value};
        chain := chain[1..];
      }
    }

    /** Only live blocks may be given back; a null pointer is ignored. */
    method Deallocate(b: Option<nat>)
      requires Valid() && (b.Some? ==> b.value in live)
      modifies this`first, this`chain, this`live, next
      ensures Valid()
      ensures live == if b.Some? then old(live) - {b.value} else old(live)
      ensures b.Some? ==> first == b
    {
      if b == None {
        return;
      }
      PartitionGive(chain, live, blockCount, b.value);
      ChainPush(next[..], first, chain, b.value);
      next[b.value] := first;
      assert next[..] == old(next[..])[b.value := old(first)];
      first := b;
      live := live - {b.value};
      chain := [b.value] + chain;
    }

    /** Once initialised, the walk along the free list counts what the live blocks leave. */
    method FreeCount() returns (n: nat)
      requires Valid()
      ensures n == if initialized then blockCount - |live| else 0
    {
      if initialized { PartitionSize(chain, live, blockCount); }
      n := 0;
      var b := first;
      while b.Some?
        invariant n <= |chain|
        invariant b == LinkAt(chain, n)
        decreases |chain| - n
      {
        assert Linked(next[..], chain, n);
        b := next[b.value];
        n := n + 1;
      }
    }
  }
}
