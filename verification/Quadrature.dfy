/**
 Quadrature decoding: the 24-instruction PIO program with its computed jump, the interrupt handler's transition
 table, and the motion both are meant to follow.
 */
module Quadrature {
  import opened Bits
  import opened PioMachine

  // ---------- motion and decoding ----------

  /** The two pins at a position: the Gray code that the decoder counts upwards along. */
  function Gray(position: int): (pins: nat)
    ensures pins < 4
  {
    match position % 4
    case 0 => 0
    case 1 => 2
    case 2 => 3
    case _ => 1
  }

  /** The interrupt handler's table, indexed by old state and new state. */
  function Transition(old_: nat, new_: nat): (d: int)
    ensures -1 <= d <= 1
  {
    match 4 * old_ + new_
    case 1 => -1 case 2 => 1
    case 4 => 1 case 7 => -1
    case 8 => -1 case 11 => 1
    case 13 => 1 case 14 => -1
    case _ => 0
  }

  /** Exchange of the two pins. */
  function Swap(raw: nat): (s: nat)
    ensures s < 4
  {
    (raw / 2) % 2 + 2 * (raw % 2)
  }

  /** Between two samples the decoder counts the true displacement exactly when that is at most one step. */
  lemma DecodesMotion(p: int, q: int)
    ensures Transition(Gray(p), Gray(q)) == q - p <==> -1 <= q - p <= 1
  {
    if -1 <= q - p <= 1 {
      assert q % 4 == (p % 4 + (q - p)) % 4;
    }
  }

  /** Exchanging the pins reverses every transition. */
  lemma SwapNegates(a: nat, b: nat)
    requires a < 4 && b < 4
    ensures Transition(Swap(a), Swap(b)) == -Transition(a, b)
  {
    SwapValue(a);
    SwapValue(b);
    match 4 * a + b
    case 0 => case 1 => case 2 => case 3 => case 4 => case 5 => case 6 => case 7 =>
    case 8 => case 9 => case 10 => case 11 => case 12 => case 13 => case 14 => case 15 =>
    case _ =>
  }

  lemma SwapValue(a: nat)
    requires a < 4
    ensures Swap(a) == if a == 1 then 2 else if a == 2 then 1 else a
  {
  }

  // ---------- the PIO program ----------

  function Word(pc: nat): nat {
    match pc
    case 0 => 0x000f case 1 => 0x000e case 2 => 0x0015 case 3 => 0x000f
    case 4 => 0x0015 case 5 => 0x000f case 6 => 0x000f case 7 => 0x000e
    case 8 => 0x000e case 9 => 0x000f case 10 => 0x000f case 11 => 0x0015
    case 12 => 0x000f case 13 => 0x0015 case 14 => 0x008f case 15 => 0xa0c2
    case 16 => 0x8000 case 17 => 0x60c2 case 18 => 0x4002 case 19 => 0xa0e6
    case 20 => 0xa0a6 case 21 => 0xa04a case 22 => 0x0097 case 23 => 0xa04a
    case _ => 0
  }

  const UPDATE := 15
  const INCREMENT := 21
  const DECREMENT := 14

  /** Where the computed jump lands for each pair of samples. */
  function Action(index: nat): nat {
    match index
    case 1 => DECREMENT case 7 => DECREMENT case 8 => DECREMENT case 14 => DECREMENT
    case 2 => INCREMENT case 4 => INCREMENT case 11 => INCREMENT case 13 => INCREMENT
    case _ => UPDATE
  }

  /** The program, disassembled. Addresses 0-13 are jumps; 14 decrements and is its own target. */
  function Code(pc: nat): Instruction {
    if pc < 14 then Instruction(Jmp(Always, Action(pc)), 0)
    else match pc
         case 14 => Instruction(Jmp(YDec, 15), 0)
         case 15 => Instruction(Mov(Isr, false, Y), 0)
         case 16 => Instruction(PushNoblock, 0)
         case 17 => Instruction(Out(Isr, 2), 0)
         case 18 => Instruction(In(2), 0)
         case 19 => Instruction(Mov(Osr, false, Isr), 0)
         case 20 => Instruction(Mov(Pc, false, Isr), 0)
         case 21 => Instruction(Mov(Y, true, Y), 0)
         case 22 => Instruction(Jmp(YDec, 23), 0)
         case 23 => Instruction(Mov(Y, true, Y), 0)
         case _ => Instruction(Unused, 0)
  }

  lemma DecodedJumps(pc: nat)
    requires pc < 15
    ensures Decode(Word(pc)) == Code(pc)
  {
    match pc
    case 0 => case 1 => case 2 => case 3 => case 4 => case 5 => case 6 => case 7 =>
    case 8 => case 9 => case 10 => case 11 => case 12 => case 13 => case 14 =>
    case _ =>
  }

  lemma DecodedLoop(pc: nat)
    requires 15 <= pc < 24
    ensures Decode(Word(pc)) == Code(pc)
  {
    match pc
    case 15 => case 16 => case 17 => case 18 => case 19 => case 20 => case 21 => case 22 => case 23 =>
    case _ =>
  }

  /** The disassembly is that of the words. */
  lemma Decoded(pc: nat)
    requires pc < 24
    ensures Decode(Word(pc)) == Code(pc)
  {
    if pc < 15 {
      DecodedJumps(pc);
    } else {
      DecodedLoop(pc);
    }
  }

  /** One instruction; the input pins carry the Gray code of the position at the cycle it executes. */
  function Go(motion: nat -> int, s: Sm): Sm {
    Exec(Code(s.pc), 15, 23, Gray(motion(s.cycles)), s)
  }

  function Steps(motion: nat -> int, s: Sm, k: nat): Sm
    decreases k
  {
    if k == 0 then s else Steps(motion, Go(motion, s), k - 1)
  }

  lemma {:induction false} StepsCompose(motion: nat -> int, s: Sm, a: nat, b: nat)
    ensures Steps(motion, s, a + b) == Steps(motion, Steps(motion, s, a), b)
    decreases a
  {
    hide Go;
    if a > 0 {
      StepsCompose(motion, Go(motion, s), a - 1, b);
    }
  }

  // ---------- one round of the sampling loop ----------

  /** What the four-bit computed address is when this round samples. */
  function Index(motion: nat -> int, s: Sm): (i: nat)
    ensures i < 16
  {
    4 * (s.osr % 4) + Gray(motion(s.cycles + 3))
  }

  /** Cycles, and instructions, of a round: at most ten. */
  function RoundLength(index: nat): (n: nat)
    ensures n <= 10
  {
    if index >= 14 then (if index == 14 then 7 else 6)
    else if Action(index) == UPDATE then 7 else if Action(index) == DECREMENT then 8 else 10
  }

  function Round(motion: nat -> int, s: Sm): Sm {
    Steps(motion, s, RoundLength(Index(motion, s)))
  }

  lemma Reports(motion: nat -> int, s: Sm)
    requires s.pc == UPDATE
    ensures Steps(motion, s, 3) == s.(pc := 18, isr := s.osr % 4, osr := s.osr / 4, cycles := s.cycles + 3,
                                      rx := if |s.rx| < FIFO_DEPTH then s.rx + [s.y] else s.rx)
  {
    hide Gray, U32;
    var r := if |s.rx| < FIFO_DEPTH then s.rx + [s.y] else s.rx;
    var s1 := Go(motion, s);
    assert s1 == s.(pc := 16, isr := s.y, cycles := s.cycles + 1);
    var s2 := Go(motion, s1);
    assert s2 == s.(pc := 17, isr := 0, rx := r, cycles := s.cycles + 2);
    LastSampleOut(motion, s2);
    hide Go;
    assert Steps(motion, s, 3) == Go(motion, s2);
  }

  /** Address 17 takes the last sample out of the shift register. */
  lemma LastSampleOut(motion: nat -> int, s: Sm)
    requires s.pc == 17
    ensures Go(motion, s) == s.(pc := 18, isr := s.osr % 4, osr := s.osr / 4, cycles := s.cycles + 1)
  {
    hide Gray;
    Four();
  }

  /** Address 18 shifts the pins in behind the last sample. */
  lemma ShiftsIn(motion: nat -> int, s: Sm)
    requires s.pc == 18 && s.isr < 4
    ensures Go(motion, s) == s.(pc := 19, isr := 4 * s.isr + Gray(motion(s.cycles)), cycles := s.cycles + 1)
  {
    hide Gray, ShiftIn, U32, Pow2;
    InShifts(s.isr, Gray(motion(s.cycles)));
  }

  /** Addresses 19 and 20 keep both samples and jump to them. */
  lemma JumpsTo(motion: nat -> int, s: Sm)
    requires s.pc == 19 && s.isr < 16
    ensures Go(motion, Go(motion, s)) == s.(pc := s.isr, osr := s.isr, cycles := s.cycles + 2)
  {
    hide Gray, U32, Pow2;
    assert Go(motion, s) == s.(pc := 20, osr := s.isr, cycles := s.cycles + 1);
    assert s.isr % 32 == s.isr;
  }

  lemma Samples(motion: nat -> int, s: Sm)
    requires s.pc == 18 && s.isr < 4
    ensures var i := 4 * s.isr + Gray(motion(s.cycles));
            Steps(motion, s, 3) == s.(pc := i, isr := i, osr := i, cycles := s.cycles + 3)
  {
    hide Gray, Go;
    var s1 := Go(motion, s);
    ShiftsIn(motion, s);
    JumpsTo(motion, s1);
    assert Steps(motion, s, 3) == Go(motion, Go(motion, s1));
  }

  lemma Sampled(motion: nat -> int, s: Sm)
    requires s.pc == UPDATE
    ensures var i := Index(motion, s);
            Steps(motion, s, 6) == s.(pc := i, isr := i, osr := i, cycles := s.cycles + 6,
                                      rx := if |s.rx| < FIFO_DEPTH then s.rx + [s.y] else s.rx)
  {
    hide Go, Gray;
    Reports(motion, s);
    Samples(motion, Steps(motion, s, 3));
    StepsCompose(motion, s, 3, 3);
  }

  lemma Four()
    ensures Pow2(2) == 4
  {
    assert Pow2(1) == 2;
  }

  lemma InShifts(before: nat, pins: nat)
    requires before < 4 && pins < 4
    ensures ShiftIn(before, 2, pins) == 4 * before + pins
  {
    Four();
  }

  lemma Decremented(motion: nat -> int, s: Sm)
    requires s.pc == DECREMENT && s.y < WORD
    ensures Steps(motion, s, 1) == s.(pc := UPDATE, y := U32(s.y - 1), cycles := s.cycles + 1)
  {
    hide Transition;
    DecWraps(s.y);
    hide U32, Dec;
    assert Steps(motion, s, 1) == Go(motion, s);
  }

  lemma DecWraps(y: nat)
    requires y < WORD
    ensures Dec(y) == U32(y - 1)
  {
  }

  lemma Complemented(motion: nat -> int, s: Sm)
    requires s.pc == 21 || s.pc == 23
    ensures Go(motion, s) == s.(pc := if s.pc == 21 then 22 else UPDATE, y := Not(s.y), cycles := s.cycles + 1)
  {
  }

  lemma CountedDown(motion: nat -> int, s: Sm)
    requires s.pc == 22
    ensures Go(motion, s) == s.(pc := 23, y := Dec(s.y), cycles := s.cycles + 1)
  {
  }

  /** Complement, decrement, complement adds one, also across wrap-around. */
  lemma Incremented(motion: nat -> int, s: Sm)
    requires s.pc == INCREMENT && s.y < WORD
    ensures Steps(motion, s, 3) == s.(pc := UPDATE, y := U32(s.y + 1), cycles := s.cycles + 3)
  {
    hide Go, Not, Dec, U32;
    var s1 := Go(motion, s);
    Complemented(motion, s);
    var s2 := Go(motion, s1);
    CountedDown(motion, s1);
    Complemented(motion, s2);
    assert Steps(motion, s, 3) == Go(motion, s2);
    NotDecNot(s.y);
  }

  lemma NotDecNot(y: nat)
    requires y < WORD
    ensures Not(Dec(Not(y))) == U32(y + 1)
  {
  }

  lemma Jumped(motion: nat -> int, s: Sm)
    requires s.pc < 14
    ensures Steps(motion, s, 1) == s.(pc := Action(s.pc), cycles := s.cycles + 1)
  {
    assert Steps(motion, s, 1) == Go(motion, s);
  }

  lemma ActionCounts(i: nat)
    requires i < 16
    ensures i < 14 ==> Transition(i / 4, i % 4)
                       == (if Action(i) == UPDATE then 0 else if Action(i) == DECREMENT then -1 else 1)
    ensures i == 14 ==> Transition(i / 4, i % 4) == -1
    ensures i == 15 ==> Transition(i / 4, i % 4) == 0
  {
    assert 4 * (i / 4) + i % 4 == i;
  }

  /** One round does to the count what the interrupt handler's table says for the last and the new sample. */
  lemma RoundCounts(motion: nat -> int, s: Sm)
    requires s.pc == UPDATE && s.y < WORD
    ensures var i := Index(motion, s); var e := Round(motion, s);
            && e == s.(pc := UPDATE, isr := i, osr := i,
                       y := U32(s.y + Transition(s.osr % 4, Gray(motion(s.cycles + 3)))),
                       cycles := s.cycles + RoundLength(i), rx := e.rx)
            && e.osr % 4 == Gray(motion(s.cycles + 3))
  {
    hide Go, Transition, Action;
    var i := Index(motion, s);
    Sampled(motion, s);
    ActionCounts(i);
    var s6 := Steps(motion, s, 6);
    var s7 := if i < 14 then Steps(motion, s6, 1) else s6;
    if i < 14 {
      Jumped(motion, s6);
      StepsCompose(motion, s, 6, 1);
    }
    ActionTargets(i);
    if s7.pc == DECREMENT {
      Decremented(motion, s7);
      StepsCompose(motion, s, if i < 14 then 7 else 6, 1);
    } else if s7.pc == INCREMENT {
      Incremented(motion, s7);
      StepsCompose(motion, s, 7, 3);
    }
  }

  lemma ActionTargets(i: nat)
    ensures Action(i) in {UPDATE, DECREMENT, INCREMENT}
  {
  }

  // ---------- whole runs ----------

  function Rounds(motion: nat -> int, s: Sm, n: nat): Sm {
    if n == 0 then s else Round(motion, Rounds(motion, s, n - 1))
  }

  /** The cycle at which the pins were last sampled, `at` before any round. */
  function LastSample(motion: nat -> int, s: Sm, at: int, n: nat): int {
    if n == 0 then at else Rounds(motion, s, n - 1).cycles + 3
  }

  /** The pin states sampled by n rounds. */
  function Seen(motion: nat -> int, s: Sm, n: nat): seq<nat> {
    if n == 0 then [] else Seen(motion, s, n - 1) + [Gray(motion(Rounds(motion, s, n - 1).cycles + 3))]
  }

  /** What the table makes of a sequence of samples, from a state on. */
  function Net(start: nat, samples: seq<nat>): int {
    if samples == [] then 0
    else Net(start, samples[..|samples| - 1])
         + Transition(Last(start, samples[..|samples| - 1]), samples[|samples| - 1])
  }

  function Last(start: nat, samples: seq<nat>): nat {
    if samples == [] then start else samples[|samples| - 1]
  }

  lemma U32Adds(a: int, d: int)
    ensures U32(U32(a) + d) == U32(a + d)
  {
    ModShift(a + d, -(a / WORD));
  }

  /** The program refines the table: on any motion whatever, the count changes by the table's total over its samples. */
  lemma {:induction false} ProgramRefinesTable(motion: nat -> int, s: Sm, n: nat)
    requires s.pc == UPDATE && s.y < WORD
    ensures var e := Rounds(motion, s, n);
            && e.pc == UPDATE && e.osr % 4 == Last(s.osr % 4, Seen(motion, s, n))
            && e.y == U32(s.y + Net(s.osr % 4, Seen(motion, s, n)))
  {
    hide Round, Transition, Gray;
    if n > 0 {
      ProgramRefinesTable(motion, s, n - 1);
      RoundCounts(motion, Rounds(motion, s, n - 1));
      var before := Seen(motion, s, n - 1);
      var samples := Seen(motion, s, n);
      assert samples[..|samples| - 1] == before;
      U32Adds(s.y + Net(s.osr % 4, before), Transition(Last(s.osr % 4, before), samples[|samples| - 1]));
    }
  }

  /** At most one quadrature step in any ten cycles. */
  ghost predicate WithinRate(motion: nat -> int) {
    forall a: nat, b: nat :: a <= b <= a + 10 ==> -1 <= motion(b) - motion(a) <= 1
  }

  /**
   The rate the program is documented for, one step per ten cycles: at every return to the loop start the count has
   changed, modulo 2^32, by exactly the distance travelled between the first sample and the last.
   */
  lemma {:induction false} TracksMotion(motion: nat -> int, s: Sm, at: nat, n: nat)
    requires WithinRate(motion)
    requires s.pc == UPDATE && s.y < WORD && at <= s.cycles + 3 <= at + 10 && s.osr % 4 == Gray(motion(at))
    ensures var e := Rounds(motion, s, n); var last := LastSample(motion, s, at, n);
            && e.pc == UPDATE && e.y == U32(s.y + motion(last) - motion(at))
            && 0 <= last <= e.cycles + 3 <= last + 10 && e.osr % 4 == Gray(motion(last))
  {
    hide Round, Transition, Gray;
    if n > 0 {
      TracksMotion(motion, s, at, n - 1);
      var before, from := Rounds(motion, s, n - 1), LastSample(motion, s, at, n - 1);
      var to := before.cycles + 3;
      RoundCounts(motion, before);
      assert -1 <= motion(to) - motion(from) <= 1;
      DecodesMotion(motion(from), motion(to));
      U32Adds(s.y + motion(from) - motion(at), motion(to) - motion(from));
    }
  }

  // ---------- reading the count ----------

  /** Register facts at each address, from the loop start on. */
  ghost predicate Sane(s: Sm) {
    && s.pc < 24 && s.y < WORD && |s.rx| <= FIFO_DEPTH
    && (s.pc == 16 ==> s.isr == s.y)
    && (s.pc == 18 ==> s.isr < 4)
    && (s.pc in {19, 20} ==> s.isr < 16)
  }

  lemma GoKeepsSane(motion: nat -> int, s: Sm)
    requires Sane(s)
    ensures Sane(Go(motion, s))
    ensures Go(motion, s).rx == if s.pc == 16 && |s.rx| < FIFO_DEPTH then s.rx + [s.y] else s.rx
  {
    Four();
    if s.pc == 18 {
      InShifts(s.isr, Gray(motion(s.cycles)));
    } else if s.pc < 14 {
      ActionTargets(s.pc);
    }
  }

  datatype Event = Instruct | Poll

  /** A call of quadrature_encoder_get_count under way; `seen` are the counts at the instructions run during it. */
  datatype Call = Call(sm: Sm, level: nat, toRead: nat, ret: nat, seen: seq<nat>)

  /** The call samples the FIFO level and will read one entry more. */
  function Begin(sm: Sm): Call {
    Call(sm, |sm.rx|, |sm.rx| + 1, 0, [])
  }

  /** The machine runs an instruction, or the caller polls and takes an entry if it still wants one and there is one. */
  function Happen(motion: nat -> int, c: Call, e: Event): Call {
    match e
    case Instruct => c.(sm := Go(motion, c.sm), seen := c.seen + [c.sm.y])
    case Poll =>
      if c.toRead > 0 && c.sm.rx != [] then
        c.(toRead := c.toRead - 1, ret := c.sm.rx[0], sm := c.sm.(rx := c.sm.rx[1..]))
      else c
  }

  function HappenAll(motion: nat -> int, c: Call, es: seq<Event>): Call {
    if es == [] then c else Happen(motion, HappenAll(motion, c, es[..|es| - 1]), es[|es| - 1])
  }

  /** Entries still in the FIFO that were pushed before the call began. */
  function Stale(c: Call): nat {
    if c.toRead == 0 then 0 else c.toRead - 1
  }

  /** Behind the stale entries the FIFO holds counts seen during the call. */
  ghost predicate Fresh(c: Call) {
    && Sane(c.sm)
    && c.toRead <= c.level + 1
    && Stale(c) <= |c.sm.rx|
    && (forall i :: Stale(c) <= i < |c.sm.rx| ==> c.sm.rx[i] in c.seen)
    && (c.toRead == 0 ==> c.ret in c.seen)
  }

  lemma HappenKeepsFresh(motion: nat -> int, c: Call, e: Event)
    requires Fresh(c)
    ensures Fresh(Happen(motion, c, e))
  {
    hide Go;
    GoKeepsSane(motion, c.sm);
  }

  /**
   For every interleaving of instructions and polls, whatever was stale in the FIFO when the call began and however
   many pushes found it full: when the call has read its entries, the value it returns is the machine's count at some
   instruction executed during the call.
   */
  lemma {:induction false} CountIsFresh(motion: nat -> int, sm: Sm, es: seq<Event>)
    requires Sane(sm)
    ensures var c := HappenAll(motion, Begin(sm), es); Fresh(c) && (c.toRead == 0 ==> c.ret in c.seen)
  {
    hide Happen;
    if es != [] {
      CountIsFresh(motion, sm, es[..|es| - 1]);
      HappenKeepsFresh(motion, HappenAll(motion, Begin(sm), es[..|es| - 1]), es[|es| - 1]);
    }
  }

  function Polls(n: nat): (es: seq<Event>)
    ensures |es| == n
  {
    seq(n, _ => Poll)
  }

  /** The call reads exactly the stale entries and one more: polling alone empties the FIFO and then waits. */
  lemma {:induction false} DrainsStale(motion: nat -> int, sm: Sm, n: nat)
    ensures var c := HappenAll(motion, Begin(sm), Polls(n));
            var k := Min(n, |sm.rx|);
            && c.toRead == |sm.rx| + 1 - k && c.sm == sm.(rx := sm.rx[k..]) && c.seen == []
            && (k > 0 ==> c.ret == sm.rx[k - 1])
  {
    hide Go;
    if n > 0 {
      DrainsStale(motion, sm, n - 1);
      assert Polls(n)[..n - 1] == Polls(n - 1);
    }
  }

  /** The caller's loop: takes entries until it has read level + 1; out of events, it is still waiting. */
  method GetCount(motion: nat -> int, sm: Sm, es: seq<Event>) returns (done: bool, ret: nat, after: Sm)
    requires Sane(sm)
    ensures var c := HappenAll(motion, Begin(sm), es);
            (done <==> c.toRead == 0) && after == c.sm && (done ==> ret == c.ret && ret in c.seen)
  {
    hide Go;
    var n := |sm.rx| + 1;
    ret, after := 0, sm;
    ghost var c := Begin(sm);
    for k := 0 to |es|
      invariant c == HappenAll(motion, Begin(sm), es[..k])
      invariant c.sm == after && c.toRead == n && c.ret == ret
    {
      assert es[..k + 1][..k] == es[..k];
      if es[k].Instruct? {
        after := Go(motion, after);
      } else if n > 0 && after.rx != [] {
        ret := after.rx[0];
        after := after.(rx := after.rx[1..]);
        n := n - 1;
      }
      c := Happen(motion, c, es[k]);
    }
    assert es[..|es|] == es;
    CountIsFresh(motion, sm, es);
    done := n == 0;
  }
}
