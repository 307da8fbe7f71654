/**
 The step generator's 23-instruction PIO program: what one command word makes it do, edge by edge and
 cycle by cycle, and what every single instruction preserves however words arrive.
 */
module StepProgram {
  import opened Bits
  import opened PioMachine

  /** The patchable operands: DIR set-up loop count, and the two operands of the STEP high time. */
  datatype Timing = Timing(dirN: nat, sety: nat, nop: nat)

  ghost predicate ValidTiming(t: Timing) {
    t.dirN < 32 && t.sety < 32 && t.nop < 32
  }

  /** The instruction words in memory after the firmware patched addresses 7, 10, 11, 16 and 17. */
  function Word(t: Timing, pc: nat): nat {
    match pc
    case 0 => 0xe081
    case 1 => 0x80a0
    case 2 => 0x602a
    case 3 => 0x6041
    case 4 => 0xa002
    case 5 => 0x6041
    case 6 => 0x006d
    case 7 => 0xe040 + t.dirN
    case 8 => 0x008a
    case 9 => 0x000d
    case 10 => 0xa042 + 31 * 256
    case 11 => 0xa042 + 31 * 256
    case 12 => 0x0008
    case 13 => 0x004f
    case 14 => 0x0001
    case 15 => 0xe001
    case 16 => 0xe040 + t.sety
    case 17 => 0xa042 + 256 * t.nop
    case 18 => 0x0091
    case 19 => 0xe000
    case 20 => 0xa047
    case 21 => 0x0095
    case 22 => 0x000d
    case _ => 0
  }

  /** The same program, disassembled. */
  function Code(t: Timing, pc: nat): Instruction {
    match pc
    case 0 => Instruction(Set(PinDirs, 1), 0)
    case 1 => Instruction(PullBlock, 0)
    case 2 => Instruction(Out(X, 10), 0)
    case 3 => Instruction(Out(Y, 1), 0)
    case 4 => Instruction(Mov(Pins, false, Y), 0)
    case 5 => Instruction(Out(Y, 1), 0)
    case 6 => Instruction(Jmp(NotY, 13), 0)
    case 7 => Instruction(Set(Y, t.dirN), 0)
    case 8 => Instruction(Jmp(YDec, 10), 0)
    case 9 => Instruction(Jmp(Always, 13), 0)
    case 10 => Instruction(Mov(Y, false, Y), 31)
    case 11 => Instruction(Mov(Y, false, Y), 31)
    case 12 => Instruction(Jmp(Always, 8), 0)
    case 13 => Instruction(Jmp(XDec, 15), 0)
    case 14 => Instruction(Jmp(Always, 1), 0)
    case 15 => Instruction(Set(Pins, 1), 0)
    case 16 => Instruction(Set(Y, t.sety), 0)
    case 17 => Instruction(Mov(Y, false, Y), t.nop)
    case 18 => Instruction(Jmp(YDec, 17), 0)
    case 19 => Instruction(Set(Pins, 0), 0)
    case 20 => Instruction(Mov(Y, false, Osr), 0)
    case 21 => Instruction(Jmp(YDec, 21), 0)
    case 22 => Instruction(Jmp(Always, 13), 0)
    case _ => Instruction(Unused, 0)
  }

  lemma DecodedLow(t: Timing, pc: nat)
    requires ValidTiming(t) && 0 <= pc < 12
    ensures Decode(Word(t, pc)) == Code(t, pc)
  {
    match pc
    case 0 =>
    case 1 =>
    case 2 =>
    case 3 =>
    case 4 =>
    case 5 =>
    case 6 =>
    case 7 => SetY(t.dirN);
    case 8 =>
    case 9 =>
    case 10 =>
    case 11 =>
    case _ =>
  }

  lemma DecodedHigh(t: Timing, pc: nat)
    requires ValidTiming(t) && 12 <= pc < 23
    ensures Decode(Word(t, pc)) == Code(t, pc)
  {
    match pc
    case 12 =>
    case 13 =>
    case 14 =>
    case 15 =>
    case 16 => SetY(t.sety);
    case 17 => SetNop(t.nop);
    case 18 =>
    case 19 =>
    case 20 =>
    case 21 =>
    case 22 =>
    case _ =>
  }

  /** The disassembly is that of the patched words. */
  lemma Decoded(t: Timing, pc: nat)
    requires ValidTiming(t) && pc < 23
    ensures Decode(Word(t, pc)) == Code(t, pc)
  {
    if pc < 12 {
      DecodedLow(t, pc);
    } else {
      DecodedHigh(t, pc);
    }
  }

  lemma SetNop(n: nat)
    requires n < 32
    ensures Decode(0xa042 + 256 * n) == Instruction(Mov(Y, false, Y), n)
  {
    var w := 0xa042 + 256 * n;
    assert w / 8192 == 5 && w / 256 == 160 + n && w / 32 == 1282 + 8 * n;
  }

  lemma SetY(n: nat)
    requires n < 32
    ensures Decode(0xe040 + n) == Instruction(Set(Y, n), 0)
  {
    var w := 0xe040 + n;
    assert w / 8192 == 7 && w / 256 == 224 && w / 32 == 1794;
  }

  /** One instruction of the program; it wraps from 22 to 0 and reads no input pins. */
  function Go(t: Timing, s: Sm): Sm {
    Exec(Code(t, s.pc), 0, 22, 0, s)
  }

  function Steps(t: Timing, s: Sm, k: nat): Sm
    decreases k
  {
    if k == 0 then s else Steps(t, Go(t, s), k - 1)
  }

  lemma {:induction false} StepsCompose(t: Timing, s: Sm, a: nat, b: nat)
    ensures Steps(t, s, a + b) == Steps(t, Steps(t, s, a), b)
    decreases a
  {
    hide Go;
    if a > 0 {
      StepsCompose(t, Go(t, s), a - 1, b);
    }
  }

  lemma Powers()
    ensures Pow2(1) == 2 && Pow2(2) == 4 && Pow2(10) == 1024
  {
    assert Pow2(5) == 32;
  }

  // ---------- the loops ----------

  lemma NextMultiple(n: nat, m: nat)
    ensures (n + 1) * m == n * m + m
  {
  }

  lemma HighRound(t: Timing, s: Sm)
    requires s.pc == 17
    ensures Steps(t, s, 2) == s.(pc := if s.y != 0 then 17 else 19, y := Dec(s.y), cycles := s.cycles + t.nop + 2)
  {
    var s1 := Go(t, s);
    assert s1 == s.(pc := 18, cycles := s.cycles + 1 + t.nop);
    assert Steps(t, s, 2) == Go(t, s1);
  }

  lemma {:induction false} HighLoop(t: Timing, s: Sm)
    requires s.pc == 17
    ensures Steps(t, s, 2 * (s.y + 1)) == s.(pc := 19, y := WORD - 1, cycles := s.cycles + (s.y + 1) * (t.nop + 2))
    decreases s.y
  {
    hide Go;
    HighRound(t, s);
    StepsCompose(t, s, 2, 2 * s.y);
    NextMultiple(s.y, t.nop + 2);
    if s.y > 0 {
      HighLoop(t, Steps(t, s, 2));
    }
  }

  lemma {:induction false} LowLoop(t: Timing, s: Sm)
    requires s.pc == 21
    ensures Steps(t, s, s.y + 1) == s.(pc := 22, y := WORD - 1, cycles := s.cycles + s.y + 1)
    decreases s.y
  {
    assert Steps(t, s, s.y + 1) == Steps(t, Go(t, s), s.y);
    if s.y > 0 {
      LowLoop(t, Go(t, s));
    }
  }

  lemma SetupRound(t: Timing, s: Sm)
    requires s.pc == 8
    ensures s.y == 0 ==> Steps(t, s, 2) == s.(pc := 13, y := WORD - 1, cycles := s.cycles + 2)
    ensures s.y > 0 ==> Steps(t, s, 4) == s.(y := s.y - 1, cycles := s.cycles + 66)
  {
    var s1 := Go(t, s);
    assert s1 == s.(pc := if s.y != 0 then 10 else 9, y := Dec(s.y), cycles := s.cycles + 1);
    assert Steps(t, s, 2) == Go(t, s1);
    if s.y > 0 {
      var s2 := Go(t, s1);
      assert s2 == s1.(pc := 11, cycles := s.cycles + 33);
      var s3 := Go(t, s2);
      assert s3 == s1.(pc := 12, cycles := s.cycles + 65);
      assert Steps(t, s, 4) == Go(t, s3);
    }
  }

  lemma {:induction false} SetupLoop(t: Timing, s: Sm)
    requires s.pc == 8
    ensures Steps(t, s, 4 * s.y + 2) == s.(pc := 13, y := WORD - 1, cycles := s.cycles + 66 * s.y + 2)
    decreases s.y
  {
    hide Go;
    SetupRound(t, s);
    if s.y > 0 {
      SetupLoop(t, Steps(t, s, 4));
      StepsCompose(t, s, 4, 4 * (s.y - 1) + 2);
    }
  }

  // ---------- one command word ----------

  /** Cycles STEP stays high: 2+(sety+1)(nop+2). */
  function High(t: Timing): nat {
    2 + (t.sety + 1) * (t.nop + 2)
  }

  /** The fields of a command word. */
  function Count(w: nat): nat { w % 1024 }
  function Dir(w: nat): nat { (w / 1024) % 2 }
  function Turning(w: nat): nat { (w / 2048) % 2 }
  function Low(w: nat): nat { w / 4096 }

  /** The fields of a word assembled arithmetically: Low, the two flags, Count. */
  lemma Fields(low: nat, flags: nat, count: nat)
    requires flags < 4 && count < 1024
    ensures var w := (low * 4 + flags) * 1024 + count;
            Count(w) == count && Dir(w) == flags % 2 && Turning(w) == flags / 2 && Low(w) == low
  {
    var w := (low * 4 + flags) * 1024 + count;
    var top := low * 4 + flags;
    assert w / 1024 == top && w % 1024 == count;
    assert w / 2048 == top / 2 && w / 4096 == top / 4;
    assert top % 2 == flags % 2 && top / 2 == low * 2 + flags / 2 && top / 4 == low;
  }

  /** A train of n STEP pulses, the first rising at cycle `at`. */
  function Pulses(t: Timing, low: nat, dir: nat, at: nat, n: nat): (es: seq<Edge>)
    decreases n
  {
    if n == 0 then [] else
      [Rise(at, dir), Fall(at + High(t))] + Pulses(t, low, dir, at + High(t) + low + 5, n - 1)
  }

  /** Cycles from the DIR write to the first possible STEP edge. */
  function Lead(t: Timing, w: nat): nat {
    if Turning(w) == 1 then 66 * t.dirN + 7 else 4
  }

  /** Instructions executed for one pulse, and for a whole word. */
  function PulseLength(t: Timing, low: nat): nat { 2 * t.sety + low + 9 }
  function WordLength(t: Timing, w: nat): nat {
    Count(w) * PulseLength(t, Low(w)) + (if Turning(w) == 1 then 4 * t.dirN + 11 else 8)
  }

  lemma PulseRise(t: Timing, s: Sm)
    requires s.pc == 13 && 0 < s.x < WORD && s.step == 0
    ensures Steps(t, s, 3) == s.(pc := 17, x := s.x - 1, y := t.sety, step := 1, cycles := s.cycles + 3,
                                 log := s.log + [Rise(s.cycles + 1, s.dir)])
  {
    var s1 := Go(t, s);
    assert s1 == s.(pc := 15, x := s.x - 1, cycles := s.cycles + 1);
    var s2 := Go(t, s1);
    assert Steps(t, s, 3) == Go(t, s2);
  }

  lemma PulseFall(t: Timing, s: Sm)
    requires s.pc == 19 && s.step == 1
    ensures Steps(t, s, s.osr + 4) == s.(pc := 13, y := WORD - 1, step := 0, cycles := s.cycles + s.osr + 4,
                                         log := s.log + [Fall(s.cycles)])
  {
    hide Go;
    var s2 := s.(pc := 21, y := s.osr, step := 0, cycles := s.cycles + 2, log := s.log + [Fall(s.cycles)]);
    StepLow(t, s);
    var s3 := s2.(pc := 22, y := WORD - 1, cycles := s2.cycles + s2.y + 1);
    LowLoop(t, s2);
    PulseEnd(t, s3);
    var s4 := s3.(pc := 13, cycles := s3.cycles + 1);
    Chain(t, s2, s.osr + 1, s3, 1, s4);
    Chain(t, s, 2, s2, s.osr + 2, s4);
  }

  lemma StepLow(t: Timing, s: Sm)
    requires s.pc == 19 && s.step == 1
    ensures Steps(t, s, 2)
         == s.(pc := 21, y := s.osr, step := 0, cycles := s.cycles + 2, log := s.log + [Fall(s.cycles)])
  {
    var s1 := Go(t, s);
    assert s1 == s.(pc := 20, step := 0, cycles := s.cycles + 1, log := s.log + [Fall(s.cycles)]);
    assert Steps(t, s, 2) == Go(t, s1);
  }

  lemma PulseEnd(t: Timing, s: Sm)
    requires s.pc == 22
    ensures Steps(t, s, 1) == s.(pc := 13, cycles := s.cycles + 1)
  {
    assert Steps(t, s, 1) == Go(t, s);
  }

  lemma Chain(t: Timing, a: Sm, j: nat, b: Sm, k: nat, c: Sm)
    requires Steps(t, a, j) == b && Steps(t, b, k) == c
    ensures Steps(t, a, j + k) == c
  {
    StepsCompose(t, a, j, k);
  }

  lemma OnePulse(t: Timing, s: Sm)
    requires s.pc == 13 && 0 < s.x < WORD && s.step == 0
    ensures Steps(t, s, PulseLength(t, s.osr)) ==
            s.(x := s.x - 1, y := WORD - 1, cycles := s.cycles + High(t) + s.osr + 5,
               log := s.log + [Rise(s.cycles + 1, s.dir)] + [Fall(s.cycles + 1 + High(t))])
  {
    hide Go;
    var s3 := s.(pc := 17, x := s.x - 1, y := t.sety, step := 1, cycles := s.cycles + 3,
                                 log := s.log + [Rise(s.cycles + 1, s.dir)]);
    PulseRise(t, s);
    var s4 := s3.(pc := 19, y := WORD - 1, cycles := s.cycles + 1 + High(t));
    HighLoop(t, s3);
    assert Steps(t, s3, 2 * (t.sety + 1)) == s4;
    var s5 := s4.(pc := 13, step := 0, cycles := s4.cycles + s.osr + 4, log := s4.log + [Fall(s4.cycles)]);
    PulseFall(t, s4);
    assert Steps(t, s4, s.osr + 4) == s5;
    Chain(t, s3, 2 * (t.sety + 1), s4, s.osr + 4, s5);
    Chain(t, s, 3, s3, 2 * (t.sety + 1) + s.osr + 4, s5);
  }

  lemma NoPulse(t: Timing, s: Sm)
    requires s.pc == 13 && s.x == 0
    ensures Steps(t, s, 2) == s.(pc := 1, x := WORD - 1, cycles := s.cycles + 2, log := s.log + [])
  {
    assert Steps(t, s, 2) == Go(t, Go(t, s));
    assert s.log + [] == s.log;
  }

  lemma {:induction false} AllPulses(t: Timing, s: Sm)
    requires s.pc == 13 && s.x < WORD && s.step == 0
    ensures Steps(t, s, s.x * PulseLength(t, s.osr) + 2) ==
            s.(pc := 1, x := WORD - 1, y := if s.x == 0 then s.y else WORD - 1,
               cycles := s.cycles + s.x * (High(t) + s.osr + 5) + 2,
               log := s.log + Pulses(t, s.osr, s.dir, s.cycles + 1, s.x))
    decreases s.x
  {
    hide Go;
    if s.x == 0 {
      NoPulse(t, s);
    } else {
      var l := PulseLength(t, s.osr);
      var n := Steps(t, s, l);
      OnePulse(t, s);
      AllPulses(t, n);
      NextMultiple(s.x - 1, l);
      NextMultiple(s.x - 1, High(t) + s.osr + 5);
      StepsCompose(t, s, l, (s.x - 1) * l + 2);
      var pulse := [Rise(s.cycles + 1, s.dir), Fall(s.cycles + 1 + High(t))];
      var others := Pulses(t, s.osr, s.dir, s.cycles + 1 + High(t) + s.osr + 5, s.x - 1);
      assert s.log + [Rise(s.cycles + 1, s.dir)] + [Fall(s.cycles + 1 + High(t))] + others == s.log + (pulse + others);
    }
  }

  /** A machine waiting for its next word, with STEP low. */
  ghost predicate Idle(s: Sm) {
    s.pc == 1 && s.step == 0 && s.dir < 2
  }

  /** The pins' history while word w runs on an idle machine: DIR first if it changes, then the pulse train. */
  function Waveform(t: Timing, w: nat, at: nat, dir: nat): seq<Edge> {
    (if Dir(w) != dir then [Turn(at + 3, Dir(w))] else [])
    + Pulses(t, Low(w), Dir(w), at + 3 + Lead(t, w), Count(w))
  }

  lemma LoadWord(t: Timing, s: Sm)
    requires Idle(s) && s.tx != []
    ensures var w := s.tx[0];
            Steps(t, s, 3)
            == s.(pc := 4, x := Count(w), y := Dir(w), osr := w / 2048, tx := s.tx[1..], cycles := s.cycles + 3)
  {
    Powers();
    var w := s.tx[0];
    assert w / 1024 / 2 == w / 2048;
    var s1 := Go(t, s);
    assert s1 == s.(pc := 2, osr := w, tx := s.tx[1..], cycles := s.cycles + 1);
    var s2 := Go(t, s1);
    assert s2 == s1.(pc := 3, x := Count(w), osr := w / 1024, cycles := s.cycles + 2);
    assert Steps(t, s, 3) == Go(t, s2);
  }

  lemma SetDir(t: Timing, s: Sm)
    requires s.pc == 4 && s.y < 2
    ensures Steps(t, s, 3) == s.(pc := if s.osr % 2 == 0 then 13 else 7, y := s.osr % 2, osr := s.osr / 2, dir := s.y,
                                 cycles := s.cycles + 3,
                                 log := s.log + if s.y != s.dir then [Turn(s.cycles, s.y)] else [])
  {
    Powers();
    var s1 := Go(t, s);
    assert s.log + [] == s.log;
    assert s1 == s.(pc := 5, dir := s.y, cycles := s.cycles + 1,
                    log := s.log + if s.y != s.dir then [Turn(s.cycles, s.y)] else []);
    var s2 := Go(t, s1);
    assert s2 == s1.(pc := 6, y := s.osr % 2, osr := s.osr / 2, cycles := s.cycles + 2);
    assert Steps(t, s, 3) == Go(t, s2);
  }

  lemma LoadSetup(t: Timing, s: Sm)
    requires s.pc == 7
    ensures Steps(t, s, 1) == s.(pc := 8, y := t.dirN, cycles := s.cycles + 1)
  {
    assert Steps(t, s, 1) == Go(t, s);
  }

  /** The machine state after the header of a word, at the pulse loop. */
  lemma Header(t: Timing, s: Sm)
    requires Idle(s) && s.tx != []
    ensures var w := s.tx[0];
            Steps(t, s, if Turning(w) == 1 then 4 * t.dirN + 9 else 6) ==
            s.(pc := 13, x := Count(w), y := if Turning(w) == 1 then WORD - 1 else 0, osr := Low(w),
               dir := Dir(w), tx := s.tx[1..], cycles := s.cycles + 2 + Lead(t, w),
               log := s.log + if Dir(w) != s.dir then [Turn(s.cycles + 3, Dir(w))] else [])
  {
    hide Go;
    var w := s.tx[0];
    assert w / 2048 / 2 == w / 4096;
    LoadWord(t, s);
    var s3 := Steps(t, s, 3);
    SetDir(t, s3);
    var s6 := Steps(t, s3, 3);
    Chain(t, s, 3, s3, 3, s6);
    if Turning(w) == 1 {
      LoadSetup(t, s6);
      var s7 := Steps(t, s6, 1);
      SetupLoop(t, s7);
      var s8 := Steps(t, s7, 4 * t.dirN + 2);
      Chain(t, s6, 1, s7, 4 * t.dirN + 2, s8);
      Chain(t, s, 6, s6, 4 * t.dirN + 3, s8);
    }
  }

  /**
   One command word, on an idle machine: exactly Count(w) pulses of High(t) cycles, DIR at its new level before the
   first of them, and the machine idle again after Count(w)*(High+Low+5)+8 cycles (66*dirN+3 more if bit 11 is set).
   */
  lemma WordRuns(t: Timing, s: Sm)
    requires Idle(s) && s.tx != []
    ensures var w := s.tx[0]; var e := Steps(t, s, WordLength(t, w));
            && Idle(e) && e.tx == s.tx[1..] && e.dir == Dir(w)
            && e.cycles == s.cycles + Count(w) * (High(t) + Low(w) + 5) + 4 + Lead(t, w)
            && e.log == s.log + Waveform(t, w, s.cycles, s.dir)
  {
    hide Go, Steps, Pulses;
    var w := s.tx[0];
    var h := if Turning(w) == 1 then 4 * t.dirN + 9 else 6;
    Header(t, s);
    var m := Steps(t, s, h);
    AllPulses(t, m);
    var k := Count(w) * PulseLength(t, Low(w)) + 2;
    StepsCompose(t, s, h, k);
    assert WordLength(t, w) == h + k;
    var turn := if Dir(w) != s.dir then [Turn(s.cycles + 3, Dir(w))] else [];
    var train := Pulses(t, Low(w), Dir(w), s.cycles + 3 + Lead(t, w), Count(w));
    assert (s.log + turn) + train == s.log + (turn + train);
  }
}
