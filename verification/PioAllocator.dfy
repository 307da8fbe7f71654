/** Allocation of state machines: blocks are dedicated to one program length and filled in order. */
module PioAllocator {

  const PER_BLOCK := 4

  /** pio_memory (0 for a block not yet dedicated) and pio_claimed. */
  datatype Pool = Pool(memory: seq<nat>, claimed: seq<bool>)

  /** The scan from slot i on: the pool after it, and the slot granted, or -1. */
  function Scan(p: Pool, length: nat, i: nat): (Pool, int)
    requires |p.claimed| == PER_BLOCK * |p.memory| && i <= |p.claimed|
    decreases |p.claimed| - i
  {
    if i == |p.claimed| then (p, -1)
    else
      var b := i / PER_BLOCK;
      var q := if p.memory[b] == 0 then p.(memory := p.memory[b := length]) else p;
      if q.memory[b] == length && !q.claimed[i] then (q.(claimed := q.claimed[i := true]), i)
      else Scan(q, length, i + 1)
  }

  /** The two cases of one slot of the scan. */
  lemma ScanSlot(p: Pool, length: nat, i: nat)
    requires |p.claimed| == PER_BLOCK * |p.memory| && i < |p.claimed|
    ensures var b := i / PER_BLOCK;
            var q := if p.memory[b] == 0 then p.(memory := p.memory[b := length]) else p;
            var free := q.memory[b] == length && !q.claimed[i];
            Scan(p, length, i) == if free then (q.(claimed := q.claimed[i := true]), i) else Scan(q, length, i + 1)
  {
  }

  class Allocator {
    const memory: array<nat>
    const claimed: array<bool>

    ghost predicate Valid()
      reads this
    {
      claimed.Length == PER_BLOCK * memory.Length
    }

    ghost function State(): Pool
      reads this, memory, claimed
    {
      Pool(memory[..], claimed[..])
    }

    constructor (blocks: nat)
      ensures Valid() && memory.Length == blocks && State() == Empty(blocks) && fresh(memory) && fresh(claimed)
    {
      memory := new nat[blocks](_ => 0);
      claimed := new bool[PER_BLOCK * blocks](_ => false);
    }

    /** The next free state machine for a program of this length; sm is 255 when there is none. */
    method GetNextPio(length: nat) returns (block: nat, sm: nat)
      requires Valid()
      modifies memory, claimed
      ensures var (p, slot) := Scan(old(State()), length, 0);
              && State() == p
              && (if slot >= 0 then sm < PER_BLOCK && slot == block * PER_BLOCK + sm else sm == 255)
    {
      hide Scan;
      ghost var start := State();
      block, sm := 0, 255;
      for p := 0 to memory.Length
        invariant Scan(start, length, 0) == Scan(State(), length, p * PER_BLOCK)
      {
        for s := 0 to PER_BLOCK
          invariant Scan(start, length, 0) == Scan(State(), length, p * PER_BLOCK + s)
        {
          var slot := p * PER_BLOCK + s;
          assert slot / PER_BLOCK == p;
          ScanSlot(State(), length, slot);
          if memory[p] == 0 {
            memory[p] := length;
          }
          if memory[p] == length {
            if !claimed[slot] {
              claimed[slot] := true;
              return p, s;
            }
          }
        }
      }
      ScanEnds(State(), length);
    }
  }

  lemma ScanEnds(p: Pool, length: nat)
    requires |p.claimed| == PER_BLOCK * |p.memory|
    ensures Scan(p, length, |p.claimed|) == (p, -1)
  {
  }

  function Empty(blocks: nat): (p: Pool)
    ensures |p.claimed| == PER_BLOCK * |p.memory|
  {
    Pool(Zeros(blocks), seq(PER_BLOCK * blocks, _ => false))
  }

  // ---------- the shape every run keeps ----------

  /** `fill[b]` state machines of block b are taken, from 0 on. */
  ghost predicate Shape(p: Pool, fill: seq<nat>, dedicated: nat) {
    && |fill| == |p.memory| && |p.claimed| == PER_BLOCK * |p.memory| && dedicated <= |fill|
    && (forall b :: 0 <= b < |fill| ==> fill[b] <= PER_BLOCK)
    && (forall b :: 0 <= b < |fill| ==> (p.memory[b] != 0 <==> b < dedicated))
    && (forall b :: 0 <= b < |fill| ==> (fill[b] > 0 <==> b < dedicated))
    && (forall a, b :: 0 <= a < b < dedicated && p.memory[a] == p.memory[b] ==> fill[a] == PER_BLOCK)
    && (forall i :: 0 <= i < |p.claimed| ==> (p.claimed[i] <==> i % PER_BLOCK < fill[i / PER_BLOCK]))
  }

  /** The block of a length that still has room, or the first undedicated block. */
  ghost predicate Target(p: Pool, fill: seq<nat>, dedicated: nat, length: nat, b: nat) {
    && b < |fill| == |p.memory| && dedicated <= |fill|
    && ((b < dedicated && p.memory[b] == length && fill[b] < PER_BLOCK)
        || (b == dedicated && forall a :: 0 <= a < dedicated && p.memory[a] == length ==> fill[a] == PER_BLOCK))
  }

  /** The scan passes over everything before the target's first free slot. */
  lemma {:induction false} ScanFinds(p: Pool, fill: seq<nat>, dedicated: nat, length: nat, b: nat, i: nat)
    requires length > 0 && Shape(p, fill, dedicated) && Target(p, fill, dedicated, length, b)
    requires i <= b * PER_BLOCK + fill[b]
    ensures Scan(p, length, i) ==
            (Pool(p.memory[b := length], p.claimed[b * PER_BLOCK + fill[b] := true]), b * PER_BLOCK + fill[b])
    decreases b * PER_BLOCK + fill[b] - i
  {
    var a, slot := i / PER_BLOCK, b * PER_BLOCK + fill[b];
    if i < slot {
      assert a <= b;
      if a < b {
        assert p.memory[a] == length ==> fill[a] == PER_BLOCK;
      } else {
        assert i % PER_BLOCK < fill[b];
      }
      ScanFinds(p, fill, dedicated, length, b, i + 1);
    } else {
      assert a == b && i % PER_BLOCK == fill[b];
      if b < dedicated {
        assert p.memory[b := length] == p.memory;
      }
    }
  }

  /** Without a target every block is dedicated, and those of this length are full. */
  lemma NoTarget(p: Pool, fill: seq<nat>, dedicated: nat, length: nat)
    requires Shape(p, fill, dedicated)
    requires forall b :: 0 <= b < |fill| ==> !Target(p, fill, dedicated, length, b)
    ensures dedicated == |fill|
    ensures forall a :: 0 <= a < |fill| && p.memory[a] == length ==> fill[a] == PER_BLOCK
  {
    assert forall a :: 0 <= a < dedicated && p.memory[a] == length && fill[a] < PER_BLOCK ==>
                         Target(p, fill, dedicated, length, a);
    assert dedicated < |fill| ==> Target(p, fill, dedicated, length, dedicated);
  }

  /** With no target the scan changes nothing and fails. */
  lemma {:induction false} ScanFails(p: Pool, fill: seq<nat>, dedicated: nat, length: nat, i: nat)
    requires length > 0 && Shape(p, fill, dedicated) && i <= |p.claimed|
    requires forall b :: 0 <= b < |fill| ==> !Target(p, fill, dedicated, length, b)
    ensures Scan(p, length, i) == (p, -1)
    decreases |p.claimed| - i
  {
    NoTarget(p, fill, dedicated, length);
    if i < |p.claimed| {
      ScanFails(p, fill, dedicated, length, i + 1);
    }
  }

  lemma GrantKeepsShape(p: Pool, fill: seq<nat>, dedicated: nat, length: nat, b: nat)
    requires length > 0 && Shape(p, fill, dedicated) && Target(p, fill, dedicated, length, b)
    ensures Shape(Pool(p.memory[b := length], p.claimed[b * PER_BLOCK + fill[b] := true]), fill[b := fill[b] + 1],
                  if b == dedicated then dedicated + 1 else dedicated)
  {
    var slot := b * PER_BLOCK + fill[b];
    assert slot / PER_BLOCK == b && slot % PER_BLOCK == fill[b];
    var q := Pool(p.memory[b := length], p.claimed[slot := true]);
    forall i | 0 <= i < |q.claimed|
      ensures q.claimed[i] <==> i % PER_BLOCK < fill[b := fill[b] + 1][i / PER_BLOCK]
    {
      if i / PER_BLOCK == b && i % PER_BLOCK == fill[b] {
        assert i == slot;
      }
    }
  }

  // ---------- counting ----------

  function Count(reqs: seq<nat>, length: nat): nat {
    if reqs == [] then 0
    else Count(reqs[..|reqs| - 1], length) + if reqs[|reqs| - 1] == length then 1 else 0
  }

  function Ceil4(n: nat): nat {
    (n + 3) / 4
  }

  /** Blocks needed: for every length in the list, a quarter of its requests, rounded up. */
  function Demand(lengths: seq<nat>, reqs: seq<nat>): nat {
    if lengths == [] then 0 else Ceil4(Count(reqs, lengths[0])) + Demand(lengths[1..], reqs)
  }

  ghost predicate Distinct(s: seq<nat>) {
    forall i, j :: 0 <= i < j < |s| ==> s[i] != s[j]
  }

  ghost predicate Covers(lengths: seq<nat>, reqs: seq<nat>) {
    forall r :: r in reqs ==> r > 0 && r in lengths
  }

  lemma CountAppend(reqs: seq<nat>, r: nat, length: nat)
    ensures Count(reqs + [r], length) == Count(reqs, length) + if r == length then 1 else 0
  {
    assert (reqs + [r])[..|reqs|] == reqs;
  }

  /** One more request needs one more block exactly when its length's blocks are all full. */
  lemma {:induction false} DemandAppend(lengths: seq<nat>, reqs: seq<nat>, r: nat)
    requires Distinct(lengths)
    ensures Demand(lengths, reqs + [r])
         == Demand(lengths, reqs) + if r in lengths && Count(reqs, r) % 4 == 0 then 1 else 0
  {
    hide Count;
    if lengths != [] {
      CountAppend(reqs, r, lengths[0]);
      DemandAppend(lengths[1..], reqs, r);
      assert lengths == [lengths[0]] + lengths[1..];
    }
  }

  /** State machines taken in the first n blocks by programs of a length. */
  function Taken(memory: seq<nat>, fill: seq<nat>, length: nat, n: nat): nat
    requires n <= |memory| == |fill|
  {
    if n == 0 then 0
    else Taken(memory, fill, length, n - 1) + if memory[n - 1] == length then fill[n - 1] else 0
  }

  lemma {:induction false} TakenFull(memory: seq<nat>, fill: seq<nat>, length: nat, n: nat)
    requires n <= |memory| == |fill|
    requires forall a :: 0 <= a < n && memory[a] == length ==> fill[a] == PER_BLOCK
    ensures Taken(memory, fill, length, n) % 4 == 0
  {
    if n > 0 {
      TakenFull(memory, fill, length, n - 1);
    }
  }

  lemma {:induction false} TakenPart(memory: seq<nat>, fill: seq<nat>, length: nat, n: nat, b: nat)
    requires b < n <= |memory| == |fill| && memory[b] == length
    requires forall a :: 0 <= a < n && a != b && memory[a] == length ==> fill[a] == PER_BLOCK
    ensures Taken(memory, fill, length, n) % 4 == fill[b] % 4
  {
    if n - 1 == b {
      TakenFull(memory, fill, length, n - 1);
    } else {
      TakenPart(memory, fill, length, n - 1, b);
    }
  }

  /** Another state machine of block b: the tally of its length grows by one, the others stay. */
  lemma {:induction false} TakenGrows(memory: seq<nat>, fill: seq<nat>, given: nat, b: nat, length: nat, n: nat)
    requires n <= |memory| == |fill| && b < |fill| && length > 0
    requires memory[b] == given || (memory[b] == 0 && fill[b] == 0)
    ensures Taken(memory[b := given], fill[b := fill[b] + 1], length, n)
         == Taken(memory, fill, length, n) + if length == given && b < n then 1 else 0
  {
    if n > 0 {
      TakenGrows(memory, fill, given, b, length, n - 1);
    }
  }

  // ---------- whole runs ----------

  /** The pool after a sequence of requests, the lengths granted and the slots they got. */
  datatype Outcome = Outcome(pool: Pool, granted: seq<nat>, slots: seq<nat>)

  function Serve(o: Outcome, length: nat): Outcome
    requires |o.pool.claimed| == PER_BLOCK * |o.pool.memory|
  {
    var (p, slot) := Scan(o.pool, length, 0);
    if slot >= 0 then Outcome(p, o.granted + [length], o.slots + [slot]) else o.(pool := p)
  }

  lemma {:induction false} ScanSizes(p: Pool, length: nat, i: nat)
    requires |p.claimed| == PER_BLOCK * |p.memory| && i <= |p.claimed|
    ensures var q := Scan(p, length, i).0; |q.memory| == |p.memory| && |q.claimed| == |p.claimed|
    decreases |p.claimed| - i
  {
    if i < |p.claimed| {
      var b := i / PER_BLOCK;
      var q := if p.memory[b] == 0 then p.(memory := p.memory[b := length]) else p;
      ScanSizes(q, length, i + 1);
    }
  }

  function Run(blocks: nat, reqs: seq<nat>): (o: Outcome)
    ensures |o.pool.memory| == blocks && |o.pool.claimed| == PER_BLOCK * blocks
  {
    if reqs == [] then Outcome(Empty(blocks), [], []) else
      var before := Run(blocks, reqs[..|reqs| - 1]);
      ScanSizes(before.pool, reqs[|reqs| - 1], 0);
      Serve(before, reqs[|reqs| - 1])
  }

  /** The run's picture: the shape, the tallies, the blocks in use, and who holds what. */
  ghost predicate Picture(o: Outcome, fill: seq<nat>, dedicated: nat, lengths: seq<nat>) {
    && Shape(o.pool, fill, dedicated)
    && (forall l :: l > 0 ==> Taken(o.pool.memory, fill, l, |fill|) == Count(o.granted, l))
    && dedicated == Demand(lengths, o.granted)
    && |o.slots| == |o.granted| && Distinct(o.slots)
    && (forall k :: 0 <= k < |o.slots| ==>
          o.slots[k] < |o.pool.claimed| && o.pool.claimed[o.slots[k]]
          && o.pool.memory[o.slots[k] / PER_BLOCK] == o.granted[k])
  }

  /** The target has room exactly when the tally of its length is not a multiple of four. */
  lemma TargetTally(p: Pool, fill: seq<nat>, dedicated: nat, length: nat, b: nat)
    requires length > 0 && Shape(p, fill, dedicated) && Target(p, fill, dedicated, length, b)
    ensures Taken(p.memory, fill, length, |fill|) % 4 == 0 <==> b == dedicated
  {
    if b == dedicated {
      TakenFull(p.memory, fill, length, |fill|);
    } else {
      TakenPart(p.memory, fill, length, |fill|, b);
    }
  }

  lemma GrantKeepsPicture(o: Outcome, fill: seq<nat>, dedicated: nat, lengths: seq<nat>, length: nat, b: nat)
    requires Picture(o, fill, dedicated, lengths) && Distinct(lengths) && length > 0 && length in lengths
    requires Target(o.pool, fill, dedicated, length, b)
    ensures Picture(Serve(o, length), fill[b := fill[b] + 1], if b == dedicated then dedicated + 1 else dedicated,
                    lengths)
    ensures Serve(o, length).granted == o.granted + [length]
  {
    hide Scan, Taken, Count, Demand;
    var p, slot := o.pool, b * PER_BLOCK + fill[b];
    var n := Serve(o, length);
    ScanFinds(p, fill, dedicated, length, b, 0);
    GrantKeepsShape(p, fill, dedicated, length, b);
    TargetTally(p, fill, dedicated, length, b);
    DemandAppend(lengths, o.granted, length);
    forall l | l > 0
      ensures Taken(n.pool.memory, fill[b := fill[b] + 1], l, |fill|) == Count(n.granted, l)
    {
      TakenGrows(p.memory, fill, length, b, l, |fill|);
      CountAppend(o.granted, length, l);
    }
    assert slot / PER_BLOCK == b && slot % PER_BLOCK == fill[b] && !p.claimed[slot];
  }

  lemma RefusalMeansFull(o: Outcome, fill: seq<nat>, dedicated: nat, lengths: seq<nat>, length: nat)
    requires Picture(o, fill, dedicated, lengths) && length > 0
    requires forall b :: 0 <= b < |fill| ==> !Target(o.pool, fill, dedicated, length, b)
    ensures Serve(o, length) == o && dedicated == |fill| && Count(o.granted, length) % 4 == 0
  {
    hide Scan;
    ScanFails(o.pool, fill, dedicated, length, 0);
    NoTarget(o.pool, fill, dedicated, length);
    TakenFull(o.pool.memory, fill, length, |fill|);
  }

  lemma CoversParts(lengths: seq<nat>, reqs: seq<nat>)
    requires Covers(lengths, reqs) && reqs != []
    ensures Covers(lengths, reqs[..|reqs| - 1])
    ensures reqs[|reqs| - 1] > 0 && reqs[|reqs| - 1] in lengths
  {
    var before := reqs[..|reqs| - 1];
    assert reqs[|reqs| - 1] in reqs;
    forall r | r in before
      ensures r > 0 && r in lengths
    {
      var k :| 0 <= k < |before| && before[k] == r;
      assert reqs[k] == r && r in reqs;
    }
  }

  lemma EmptyPicture(blocks: nat, lengths: seq<nat>)
    ensures Picture(Run(blocks, []), Zeros(blocks), 0, lengths)
  {
    NothingTaken(blocks);
    NothingDemanded(lengths);
  }

  /** Every run of requests of nonzero length keeps the picture. */
  lemma {:induction false} RunKeepsPicture(blocks: nat, reqs: seq<nat>, lengths: seq<nat>)
    returns (fill: seq<nat>, dedicated: nat)
    requires Distinct(lengths) && Covers(lengths, reqs)
    ensures |fill| == blocks && Picture(Run(blocks, reqs), fill, dedicated, lengths)
  {
    hide Scan, Serve, Picture, Shape, Target, Covers;
    if reqs == [] {
      fill, dedicated := Zeros(blocks), 0;
      EmptyPicture(blocks, lengths);
    } else {
      var before, r := reqs[..|reqs| - 1], reqs[|reqs| - 1];
      CoversParts(lengths, reqs);
      fill, dedicated := RunKeepsPicture(blocks, before, lengths);
      var o := Run(blocks, before);
      if b :| 0 <= b < |fill| && Target(o.pool, fill, dedicated, r, b) {
        GrantKeepsPicture(o, fill, dedicated, lengths, r, b);
        fill, dedicated := fill[b := fill[b] + 1], if b == dedicated then dedicated + 1 else dedicated;
      } else {
        RefusalMeansFull(o, fill, dedicated, lengths, r);
      }
    }
  }

  function Zeros(n: nat): (z: seq<nat>)
    ensures |z| == n
  {
    seq(n, _ => 0)
  }

  lemma NothingTaken(blocks: nat)
    ensures forall l :: Taken(Zeros(blocks), Zeros(blocks), l, blocks) == 0
  {
    forall l
      ensures Taken(Zeros(blocks), Zeros(blocks), l, blocks) == 0
    {
      NothingTakenOf(blocks, l, blocks);
    }
  }

  lemma {:induction false} NothingTakenOf(blocks: nat, l: nat, n: nat)
    requires n <= blocks
    ensures Taken(Zeros(blocks), Zeros(blocks), l, n) == 0
  {
    if n > 0 {
      NothingTakenOf(blocks, l, n - 1);
    }
  }

  lemma {:induction false} NothingDemanded(lengths: seq<nat>)
    ensures Demand(lengths, []) == 0
  {
    if lengths != [] {
      NothingDemanded(lengths[1..]);
    }
  }

  /**
   No state machine is handed out twice, and a block only ever serves the length it was first dedicated to: at the end
   of any run the granted slots are distinct and each lies in a block still dedicated to the length granted.
   */
  lemma GrantsAreExclusive(blocks: nat, reqs: seq<nat>, lengths: seq<nat>)
    requires Distinct(lengths) && Covers(lengths, reqs)
    ensures var o := Run(blocks, reqs);
            && Distinct(o.slots) && |o.slots| == |o.granted|
            && forall k :: 0 <= k < |o.slots| ==> o.slots[k] < PER_BLOCK * blocks
                                                  && o.pool.memory[o.slots[k] / PER_BLOCK] == o.granted[k]
  {
    var fill, dedicated := RunKeepsPicture(blocks, reqs, lengths);
  }

  lemma {:induction false} DemandGrows(lengths: seq<nat>, reqs: seq<nat>)
    requires Distinct(lengths) && reqs != []
    ensures Demand(lengths, reqs[..|reqs| - 1]) <= Demand(lengths, reqs)
  {
    hide Demand;
    DemandAppend(lengths, reqs[..|reqs| - 1], reqs[|reqs| - 1]);
    assert reqs == reqs[..|reqs| - 1] + [reqs[|reqs| - 1]];
  }

  lemma PictureBounds(o: Outcome, fill: seq<nat>, dedicated: nat, lengths: seq<nat>)
    requires Picture(o, fill, dedicated, lengths)
    ensures Demand(lengths, o.granted) == dedicated <= |fill| == |o.pool.memory|
  {
    hide Demand, Taken, Count;
  }

  /** Capacity: every request is granted if and only if the demand of all of them is at most the number of blocks. */
  lemma {:induction false} Capacity(blocks: nat, reqs: seq<nat>, lengths: seq<nat>)
    requires Distinct(lengths) && Covers(lengths, reqs)
    ensures Run(blocks, reqs).granted == reqs <==> Demand(lengths, reqs) <= blocks
  {
    hide Scan, Serve, Demand, Picture, Shape, Target, Covers;
    var fill, dedicated := RunKeepsPicture(blocks, reqs, lengths);
    PictureBounds(Run(blocks, reqs), fill, dedicated, lengths);
    if reqs != [] && Demand(lengths, reqs) <= blocks {
      var before, r := reqs[..|reqs| - 1], reqs[|reqs| - 1];
      CoversParts(lengths, reqs);
      DemandGrows(lengths, reqs);
      Capacity(blocks, before, lengths);
      var o := Run(blocks, before);
      var f, d := RunKeepsPicture(blocks, before, lengths);
      PictureBounds(o, f, d, lengths);
      assert reqs == before + [r];
      if b :| 0 <= b < |f| && Target(o.pool, f, d, r, b) {
        GrantKeepsPicture(o, f, d, lengths, r, b);
      } else {
        RefusalMeansFull(o, f, d, lengths, r);
        DemandAppend(lengths, before, r);
        assert false;
      }
    }
  }
}
