/**
 The firmware's side of the step pipeline: one packet's command words offered to the state machines' FIFOs with a
 bounded wait, the position and overflow accounting, and the DIR set-up count computed from nanoseconds.
 */
module StepFirmware {
  import opened Bits
  import opened PioMachine
  import opened StepProgram
  import opened StepAccount
  import ChecksumGate

  // ---------- DIR set-up time ----------

  function DirCycles(ns: nat, mhz: nat): nat {
    ns * mhz / 1000
  }

  function DirCount(cycles: nat): nat {
    var n := if cycles > 2 then (cycles - 2 + 65) / 66 else 0;
    if n > 31 then 31 else n
  }

  /** The set-up provided covers the requested cycles exactly when at most 2053 are requested. */
  lemma SetupCovers(t: Timing, cycles: nat)
    requires t.dirN == DirCount(cycles)
    ensures SetupCycles(t) >= cycles <==> cycles <= 2053
  {
  }

  /** The count is the least whose loop alone, with the two cycles that leave it, takes the cycles requested, or 31. */
  lemma DirCountIsLeast(cycles: nat)
    ensures var n := DirCount(cycles);
            && n <= 31 && (n < 31 ==> 66 * n + 2 >= cycles)
            && forall k :: 0 <= k < n ==> 66 * k + 2 < cycles
  {
  }

  /**
   In nanoseconds, from the driver's pin (cut to 16 bits in the packet) to the pins: the set-up time is honoured
   exactly when the request is at most 2053 clock cycles long.
   */
  lemma SetupHonoured(t: Timing, pin: nat, mhz: nat)
    requires mhz >= 32
    requires t.dirN == DirCount(DirCycles(pin % 65536, mhz))
    ensures SetupCycles(t) * 1000 >= pin * mhz <==> pin * mhz <= 2_053_000
  {
    var ns := pin % 65536;
    if pin >= 65536 {
      Longer(65536, pin, mhz);
      Longer(32, mhz, 65536);
    }
  }

  lemma Longer(a: nat, b: nat, k: nat)
    requires a <= b
    ensures a * k <= b * k && k * a <= k * b
  {
  }

  // ---------- one word, one axis ----------

  const POLLS := 1000

  /**
   Polls k.. of the wait for FIFO room; the state machine runs gaps(k) instructions before poll k.
   The second result tells whether room was found.
   */
  function Wait(t: Timing, sm: Sm, gaps: nat -> nat, k: nat): (Sm, bool)
    requires k < POLLS
    decreases POLLS - k
  {
    var m := Steps(t, sm, gaps(k));
    if |m.tx| < FIFO_DEPTH then (m, true)
    else if k + 1 == POLLS then (m, false)
    else Wait(t, m, gaps, k + 1)
  }

  /** Instructions run before poll j, counting from poll k. */
  function Elapsed(gaps: nat -> nat, k: nat, j: nat): nat
    requires k <= j
    decreases j - k
  {
    gaps(k) + if k == j then 0 else Elapsed(gaps, k + 1, j)
  }

  ghost predicate FullAt(t: Timing, sm: Sm, gaps: nat -> nat, k: nat, j: nat)
    requires k <= j
  {
    |Steps(t, sm, Elapsed(gaps, k, j)).tx| >= FIFO_DEPTH
  }

  /** A wait only runs the machine. */
  lemma {:induction false} WaitRuns(t: Timing, sm: Sm, gaps: nat -> nat, k: nat) returns (n: nat)
    requires k < POLLS
    ensures Wait(t, sm, gaps, k).0 == Steps(t, sm, n)
    ensures Wait(t, sm, gaps, k).1 <==> |Wait(t, sm, gaps, k).0.tx| < FIFO_DEPTH
    decreases POLLS - k
  {
    hide Go;
    var m := Steps(t, sm, gaps(k));
    n := gaps(k);
    if |m.tx| >= FIFO_DEPTH && k + 1 < POLLS {
      var rest := WaitRuns(t, m, gaps, k + 1);
      StepsCompose(t, sm, n, rest);
      n := n + rest;
    }
  }

  /** It fails exactly when every one of its polls finds the FIFO full. */
  lemma {:induction false} WaitFails(t: Timing, sm: Sm, gaps: nat -> nat, k: nat)
    requires k < POLLS
    ensures !Wait(t, sm, gaps, k).1 <==> forall j :: k <= j < POLLS ==> FullAt(t, sm, gaps, k, j)
    decreases POLLS - k
  {
    hide Go;
    var m := Steps(t, sm, gaps(k));
    assert FullAt(t, sm, gaps, k, k) <==> |m.tx| >= FIFO_DEPTH;
    if |m.tx| >= FIFO_DEPTH && k + 1 < POLLS {
      WaitFails(t, m, gaps, k + 1);
      forall j | k + 1 <= j < POLLS
        ensures FullAt(t, m, gaps, k + 1, j) == FullAt(t, sm, gaps, k, j)
      {
        StepsCompose(t, sm, gaps(k), Elapsed(gaps, k + 1, j));
      }
      if Wait(t, sm, gaps, k).1 {
        var j :| k + 1 <= j < POLLS && !FullAt(t, m, gaps, k + 1, j);
        assert !FullAt(t, sm, gaps, k, j);
      } else {
        assert forall j :: k <= j < POLLS ==> FullAt(t, sm, gaps, k, j);
      }
    }
  }

  /** The word put into the FIFO of an axis. */
  function Wired(w: nat, inverted: bool): nat {
    if inverted then Xor(w, 1024) else w
  }

  /** Inversion flips the DIR level only, so that the axis still counts the same steps. */
  lemma WiredFields(w: nat, inverted: bool)
    ensures var v := Wired(w, inverted);
            && Count(v) == Count(w) && Low(v) == Low(w) && Turning(v) == Turning(w)
            && Dir(v) == (if inverted then 1 - Dir(w) else Dir(w))
            && WordSteps(v, inverted) == WordSteps(w, false)
  {
    hide Xor;
    Powers();
    XorBit(w / 1024, 10, w % 1024);
    Refield(w);
    Fields(Low(w), FlipFirst(2 * Turning(w) + Dir(w)), Count(w));
  }

  function FlipFirst(m: nat): nat {
    if m % 2 == 0 then m + 1 else m - 1
  }

  lemma Refield(w: nat)
    ensures w / 1024 == Low(w) * 4 + 2 * Turning(w) + Dir(w)
    ensures w == w / 1024 * 1024 + Count(w)
    ensures FlipFirst(w / 1024) == Low(w) * 4 + FlipFirst(2 * Turning(w) + Dir(w))
  {
    assert w / 2048 == w / 1024 / 2 && w / 4096 == w / 2048 / 2;
  }

  /** The software and hardware state of one axis. */
  datatype Channel = Channel(sm: Sm, position: int, overflow: bool)

  /** One command word: ignored if zero, else queued and counted, or dropped and flagged. */
  function Offer(t: Timing, inverted: bool, c: Channel, w: nat, gaps: nat -> nat): Channel {
    if w == 0 then c else
      var (m, ok) := Wait(t, c.sm, gaps, 0);
      if ok then
        c.(sm := m.(tx := m.tx + [Wired(w, inverted)]), position := S32(c.position + Signed(Dir(w), Count(w), false)))
      else
        c.(sm := m, overflow := true)
  }

  /** A nonzero word is dropped, and its overflow flag raised, exactly when all thousand polls find the FIFO full. */
  lemma RefusedIffFull(t: Timing, inverted: bool, c: Channel, w: nat, gaps: nat -> nat)
    requires !c.overflow
    ensures Offer(t, inverted, c, w, gaps).overflow
       <==> w != 0 && forall j :: 0 <= j < POLLS ==> FullAt(t, c.sm, gaps, 0, j)
  {
    hide Wait, FullAt, Xor;
    WaitFails(t, c.sm, gaps, 0);
  }

  /** What the firmware reports back after a packet. */
  datatype Report = Report(positions: seq<int>, overflow: seq<bool>)

  class Firmware {
    const timing: Timing
    const inverted: seq<bool>
    const machines: array<Sm>
    const position: array<int>
    const overflow: array<bool>
    var gate: ChecksumGate.Gate

    ghost predicate Valid()
      reads this, machines, position, overflow
    {
      machines.Length == position.Length == overflow.Length == |inverted|
    }

    ghost function At(i: nat): Channel
      requires Valid() && i < |inverted|
      reads this, machines, position, overflow
    {
      Channel(machines[i], position[i], overflow[i])
    }

    /** All machines start at address 0 with the given register contents; nothing has been counted. */
    constructor (timing: Timing, inverted: seq<bool>, start: Sm)
      ensures Valid() && this.timing == timing && this.inverted == inverted && gate == ChecksumGate.OPEN
      ensures forall i :: 0 <= i < |inverted| ==> At(i) == Channel(start, 0, false)
      ensures fresh(machines) && fresh(position) && fresh(overflow)
    {
      this.timing := timing;
      this.inverted := inverted;
      machines := new Sm[|inverted|](_ => start);
      position := new int[|inverted|](_ => 0);
      overflow := new bool[|inverted|](_ => false);
      gate := ChecksumGate.OPEN;
    }

    /** The word of axis i; the axis's state machine runs gaps(k) instructions before poll k of its FIFO. */
    method ApplyWord(i: nat, word: nat, gaps: nat -> nat)
      requires Valid() && i < |inverted|
      modifies machines, position, overflow
      ensures Valid() && At(i) == Offer(timing, inverted[i], old(At(i)), word, gaps)
      ensures forall k :: 0 <= k < |inverted| && k != i ==> At(k) == old(At(k))
    {
      hide Go, Steps, Xor;
      if word == 0 {
        return;
      }
      var timeout := POLLS;
      var poll := 0;
      machines[i] := Steps(timing, machines[i], gaps(poll));
      while |machines[i].tx| >= FIFO_DEPTH
        invariant poll + timeout == POLLS && 0 < timeout
        invariant forall k :: 0 <= k < |inverted| && k != i ==> At(k) == old(At(k))
        invariant position[i] == old(position[i]) && overflow[i] == old(overflow[i])
        invariant Wait(timing, old(machines[i]), gaps, 0)
               == if |machines[i].tx| < FIFO_DEPTH then (machines[i], true)
                  else if poll + 1 == POLLS then (machines[i], false)
                  else Wait(timing, machines[i], gaps, poll + 1)
        decreases timeout
      {
        timeout := timeout - 1;
        if timeout == 0 {
          break;
        }
        poll := poll + 1;
        machines[i] := Steps(timing, machines[i], gaps(poll));
      }
      if timeout > 0 {
        var cmd := if inverted[i] then Xor(word, 1024) else word;
        machines[i] := machines[i].(tx := machines[i].tx + [cmd]);
        var steps := word % 1024;
        position[i] := S32(position[i] + if (word / 1024) % 2 == 1 then steps else -steps);
      } else {
        overflow[i] := true;
      }
    }

    /** All words of a packet, unless the checksum gate is shut. */
    method ApplyCommands(commands: seq<nat>, gaps: (nat, nat) -> nat)
      requires Valid() && |commands| == |inverted|
      modifies machines, position, overflow
      ensures Valid()
      ensures forall i :: 0 <= i < |inverted| ==>
                At(i) == if gate.error then old(At(i))
                         else Offer(timing, inverted[i], old(At(i)), commands[i], k => gaps(i, k))
    {
      hide Offer;
      if gate.error {
        return;
      }
      for i := 0 to |inverted|
        invariant Valid()
        invariant forall k :: 0 <= k < i ==>
                    At(k) == Offer(timing, inverted[k], old(At(k)), commands[k], j => gaps(k, j))
        invariant forall k :: i <= k < |inverted| ==> At(k) == old(At(k))
      {
        ApplyWord(i, commands[i], j => gaps(i, j));
      }
    }

    method UpdateGate(good: bool)
      modifies this`gate
      ensures gate == ChecksumGate.Next(old(gate), good)
    {
      if !good {
        gate := ChecksumGate.Gate(true, 0);
      } else if gate.error {
        gate := if gate.okCount + 1 >= ChecksumGate.RECOVERY then ChecksumGate.OPEN
                else gate.(okCount := gate.okCount + 1);
      }
    }

    /** One packet in direct mode: the gate, then the commands, then the report, which clears the overflow flags. */
    method HandleData(good: bool, commands: seq<nat>, gaps: (nat, nat) -> nat) returns (r: Report)
      requires Valid() && |commands| == |inverted|
      modifies this`gate, machines, position, overflow
      ensures Valid() && gate == ChecksumGate.Next(old(gate), good)
      ensures |r.positions| == |r.overflow| == |inverted|
      ensures forall i :: 0 <= i < |inverted| ==>
                var c := if gate.error then old(At(i))
                         else Offer(timing, inverted[i], old(At(i)), commands[i], k => gaps(i, k));
                && At(i) == c.(overflow := false)
                && r.positions[i] == c.position && r.overflow[i] == c.overflow
    {
      hide Offer;
      UpdateGate(good);
      if !gate.error {
        ApplyCommands(commands, gaps);
      }
      r := Report(position[..], overflow[..]);
      for i := 0 to |inverted|
        modifies overflow
        invariant forall k :: 0 <= k < i ==> !overflow[k]
        invariant forall k :: i <= k < |inverted| ==> overflow[k] == r.overflow[k]
      {
        overflow[i] := false;
      }
    }
  }
}
