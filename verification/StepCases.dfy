/**
 Concrete runs of the step pipeline: a lost word that breaks DIR set-up on the pins, and an overflow bit that no report
 carries.
 */
module StepCases {
  import opened Bits
  import opened PioMachine
  import opened StepProgram
  import opened StepAccount
  import opened StepHost
  import opened StepFirmware
  import opened StepPipeline
  import opened StepSetup
  import ChecksumGate
  import StepRing

  /** The first poll comes at once; the waits it is used for end there. */
  const AT_ONCE: nat -> nat := _ => 0

  lemma WaitAtOnce(t: Timing, sm: Sm)
    requires |sm.tx| < FIFO_DEPTH
    ensures Wait(t, sm, AT_ONCE, 0) == (sm, true)
  {
    assert Steps(t, sm, 0) == sm;
  }

  /** The axis moves one step: the word's fields. */
  lemma SingleStep(c: Config, prev: int, lastDir: int, forward: bool)
    requires ValidConfig(c)
    ensures var there, sign := if forward then prev + 1 else prev - 1, if forward then 1 else 0;
            var (b, w) := Cycle(Axis(prev, lastDir, false), Position(0, there), c.table);
            && b == Axis(there, sign, false)
            && Dir(w) == sign && Turning(w) == (if sign != lastDir then 1 else 0)
            && Count(w) == (if Capacity(c.total, c.spacing) >= 1 then 1 else 0) && Low(w) == Low(c.table[1])
            && (Turning(w) == 1 || Count(w) == 1 ==> w != 0)
  {
    hide Or, Entry, Capacity;
    EntryFields(c.table, c.total, c.spacing, 1);
    PackFields(c.table[1], (if forward then 1 else 0) != lastDir, if forward then 1 else 0);
  }

  lemma RunOne(c: Config, p: Pipe, es: seq<Event>, e: Event)
    requires ValidConfig(c)
    ensures Run(c, p, []) == p && Run(c, p, es + [e]) == Next(c, Run(c, p, es), e)
  {
    hide Next;
    assert (es + [e])[..|es|] == es;
  }

  lemma Four(c: Config, p: Pipe, a: Event, b: Event, d: Event, e: Event)
    requires ValidConfig(c)
    ensures Run(c, p, [a, b, d, e]) == Next(c, Next(c, Next(c, Next(c, p, a), b), d), e)
  {
    hide Next, Run;
    RunOne(c, p, [], a);
    RunOne(c, p, [a], b);
    RunOne(c, p, [a, b], d);
    RunOne(c, p, [a, b, d], e);
    assert [] + [a] == [a] && [a] + [b] == [a, b] && [a, b] + [d] == [a, b, d] && [a, b, d] + [e] == [a, b, d, e];
  }

  // ---------- a lost change of direction ----------

  /** The host asks for a position and the packet arrives, good or bad. */
  function Round(target: int, good: bool): seq<Event> {
    [Send(Position(0, target)), Deliver(good, AT_ONCE, 0, -1), ReadFlag, ClearFlag]
  }

  ghost predicate Ready(c: Config, p: Pipe) {
    p.wire == [] && p.phase.Waiting? && |p.channel.sm.tx| < FIFO_DEPTH && !c.timerMode
  }

  lemma RoundRuns(c: Config, p: Pipe, target: int, good: bool)
    requires ValidConfig(c) && Ready(c, p)
    ensures var q, g := Run(c, p, Round(target, good)), ChecksumGate.Next(p.gate, good);
            var (b, w) := Cycle(p.host, Position(0, target), c.table);
            var entering := if g.error then [] else Entering(c, w);
            && q.host == b && q.wire == [] && q.phase.Waiting? && q.gate == g
            && q.accepted == p.accepted + entering && q.channel.sm.tx == p.channel.sm.tx + entering
  {
    hide Cycle, Intent, Fits, Wait, Wired;
    Four(c, p, Send(Position(0, target)), Deliver(good, AT_ONCE, 0, -1), ReadFlag, ClearFlag);
    WaitAtOnce(c.t, p.channel.sm);
    assert (p.wire + [Cycle(p.host, Position(0, target), c.table).1])[1..] == [];
    assert p.accepted + [] == p.accepted && p.channel.sm.tx + [] == p.channel.sm.tx;
  }

  /** The axis stands still for k good packets. */
  function Still(k: nat): seq<Event> {
    if k == 0 then [] else Still(k - 1) + Round(0, true)
  }

  lemma {:induction false} StillRuns(c: Config, p: Pipe, k: nat)
    requires ValidConfig(c) && Ready(c, p) && p.host == Axis(0, 0, false)
    requires p.gate == ChecksumGate.Gate(true, 0) && k < ChecksumGate.RECOVERY
    ensures var q := Run(c, p, Still(k));
            && q.host == p.host && q.wire == [] && q.phase.Waiting? && q.gate == ChecksumGate.Gate(true, k)
            && q.accepted == p.accepted && q.channel.sm.tx == p.channel.sm.tx
  {
    hide Round, Run, Cycle;
    if k == 0 {
      RunOne(c, p, [], ClearFlag);
    } else {
      StillRuns(c, p, k - 1);
      StandsStill(c.table);
      RunCompose(c, p, Still(k - 1), Round(0, true));
      RoundRuns(c, Run(c, p, Still(k - 1)), 0, true);
    }
  }

  lemma StandsStill(table: seq<nat>)
    requires |table| == TABLE
    ensures Cycle(Axis(0, 0, false), Position(0, 0), table) == (Axis(0, 0, false), 0)
  {
  }

  /**
   One step forward; the step back is lost to a bad packet; the axis stands still while the gate recovers; one more step
   back. That word changes DIR on the pins without its flag, and its STEP edge comes too soon.
   */
  lemma LossBreaksSetup(c: Config, start: Pipe) returns (es: seq<Event>)
    requires ValidConfig(c) && Start(start) && !c.timerMode && Capacity(c.total, c.spacing) >= 1
    ensures !SetupKept(Run(c, start, es).channel.sm.log, SetupCycles(c.t))
  {
    hide Cycle, Capacity, Round, Still, Wired, Breaks, SetupKept, Run;
    var e1, e2, e3, e4 := Round(1, true), Round(0, false), Still(9), Round(-1, true);
    SingleStep(c, 0, -1, true);
    SingleStep(c, 1, 1, false);
    SingleStep(c, 0, 0, false);
    Enabled(start.host, 1, c.table);
    var w1 := Cycle(Axis(0, -1, false), Position(0, 1), c.table).1;
    var w3 := Cycle(Axis(0, 0, false), Position(0, -1), c.table).1;

    RoundRuns(c, start, 1, true);
    var p1 := Run(c, start, e1);
    RoundRuns(c, p1, 0, false);
    var p2 := Run(c, p1, e2);
    StillRuns(c, p2, 9);
    var p3 := Run(c, p2, e3);
    RoundRuns(c, p3, -1, true);
    var p4 := Run(c, p3, e4);
    es := e1 + e2 + e3 + e4;
    RunCompose(c, start, e1, e2);
    RunCompose(c, start, e1 + e2, e3);
    RunCompose(c, start, e1 + e2 + e3, e4);

    var v1, v3 := Wired(w1, c.inverted), Wired(w3, c.inverted);
    WiredFields(w1, c.inverted);
    WiredFields(w3, c.inverted);
    assert p4.accepted == [v1, v3];
    TwoBreak(start.channel.sm.dir, v1, v3);
    var n := SetupIffFlagged(c, start, es);
    es := es + [Execute(n)];
  }

  lemma Enabled(a: Axis, target: int, table: seq<nat>)
    requires |table| == TABLE
    ensures Cycle(a, Position(0, target), table)
         == Cycle(Axis(Place(a, 0), a.lastDir, false), Position(0, target), table)
  {
  }

  lemma TwoBreak(d: int, v: nat, w: nat)
    requires Unprepared(Dir(v), w)
    ensures Breaks(d, [v, w])
  {
    assert [v, w][1..] == [w];
    assert Breaks(Dir(v), [w]);
  }

  // ---------- an overflow bit erased ----------

  /** In its low-time loop the machine only counts. */
  lemma {:induction false} CountsLow(t: Timing, sm: Sm, n: nat)
    requires sm.pc == 21 && n <= sm.y
    ensures Steps(t, sm, n) == sm.(y := sm.y - n, cycles := sm.cycles + n)
    decreases n
  {
    if n > 0 {
      CountsLow(t, Go(t, sm), n - 1);
    }
  }

  /** A wait that the low time outlasts fails on a full FIFO, with the machine running all the while. */
  lemma {:induction false} WaitInLow(t: Timing, sm: Sm, gaps: nat -> nat, k: nat)
    requires k < POLLS && sm.pc == 21 && |sm.tx| >= FIFO_DEPTH && Elapsed(gaps, k, POLLS - 1) <= sm.y
    ensures !Wait(t, sm, gaps, k).1
    decreases POLLS - k
  {
    hide Go, Steps;
    CountsLow(t, sm, gaps(k));
    if k + 1 < POLLS {
      WaitInLow(t, Steps(t, sm, gaps(k)), gaps, k + 1);
    }
  }

  /** From power-on the first word takes the machine into its low-time loop. */
  lemma IntoLow(t: Timing, sm: Sm) returns (n: nat)
    requires ValidTiming(t) && Sane(sm) && sm.pc == 0 && sm.tx != [] && Count(sm.tx[0]) > 0
    ensures var m := Steps(t, sm, n); m.pc == 21 && m.y == Low(sm.tx[0]) && m.tx == sm.tx[1..]
  {
    hide Go, Steps, Count, Low, Dir, Turning;
    var w := sm.tx[0];
    var s1 := sm.(pc := 1, cycles := sm.cycles + 1);
    FirstInstruction(t, sm);
    var h := if Turning(w) == 1 then 4 * t.dirN + 9 else 6;
    Header(t, s1);
    var s2 := Steps(t, s1, h);
    StepCount(w);
    PulseRise(t, s2);
    var s3 := Steps(t, s2, 3);
    HighLoop(t, s3);
    var s4 := Steps(t, s3, 2 * (s3.y + 1));
    StepLow(t, s4);
    var s5 := Steps(t, s4, 2);
    Chain(t, s3, 2 * (s3.y + 1), s4, 2, s5);
    Chain(t, s2, 3, s3, 2 * (s3.y + 1) + 2, s5);
    Chain(t, s1, h, s2, 2 * (s3.y + 1) + 5, s5);
    n := 1 + (h + (2 * (s3.y + 1) + 5));
    Chain(t, sm, 1, s1, n - 1, s5);
  }

  lemma FirstInstruction(t: Timing, sm: Sm)
    requires sm.pc == 0
    ensures Steps(t, sm, 1) == sm.(pc := 1, cycles := sm.cycles + 1)
  {
    assert Steps(t, Go(t, sm), 0) == Go(t, sm);
  }

  lemma StepCount(w: nat)
    ensures Count(w) < WORD
  {
  }

  /** A word of one step. */
  ghost predicate OneStep(c: Config, w: nat)
    requires ValidConfig(c)
  {
    w != 0 && Count(w) == 1 && Low(w) == Low(c.table[1])
  }

  /** Timer mode, nothing dropped so far: `rows` rows of one step in the ring, `words` words in the FIFO. */
  ghost predicate Stage(c: Config, p: Pipe, rows: nat, words: nat)
    requires ValidConfig(c)
  {
    && c.timerMode && p.wire == [] && p.phase.Waiting? && p.gate == ChecksumGate.OPEN
    && |p.ring.queue| == rows && |p.channel.sm.tx| == words
    && (forall i :: 0 <= i < rows ==> |p.ring.queue[i]| == 1 && OneStep(c, p.ring.queue[i][0]))
    && p.ring.lastUs == 0 && p.ring.alarm == (if p.ring.started then 0 else -1)
    && p.dropped == p.unread == p.erased == p.reported == p.flagged == 0 && !p.channel.overflow
  }

  /** A step against the last direction. */
  function Back(a: Axis): int {
    if a.lastDir == 1 then Place(a, 0) - 1 else Place(a, 0) + 1
  }

  lemma BackWord(c: Config, a: Axis)
    requires ValidConfig(c) && Capacity(c.total, c.spacing) >= 1
    ensures OneStep(c, Cycle(a, Position(0, Back(a)), c.table).1)
  {
    hide Cycle, Capacity;
    SingleStep(c, Place(a, 0), a.lastDir, a.lastDir != 1);
    Enabled(a, Back(a), c.table);
  }

  /** A packet up to the report's reading of the bits. */
  function Head(a: Axis): seq<Event> {
    [Send(Position(0, Back(a))), Deliver(true, AT_ONCE, 0, 0), ReadFlag]
  }

  lemma HeadRuns(c: Config, p: Pipe, rows: nat, words: nat)
    requires ValidConfig(c) && Capacity(c.total, c.spacing) >= 1
    requires Stage(c, p, rows, words) && rows < StepRing.SLOTS
    ensures var q := Run(c, p, Head(p.host));
            && Stage(c, q.(phase := Waiting), rows + 1, words) && q.phase.Clearing?
            && q.channel.sm == p.channel.sm
            && q.ring.started == (p.ring.started || rows + 1 == StepRing.SLOTS)
  {
    hide Cycle, Intent, Fits, Back, StepRing.Smooth, Capacity, Run, Count, Low;
    BackWord(c, p.host);
    var a, b := Send(Position(0, Back(p.host))), Deliver(true, AT_ONCE, 0, 0);
    var w := Cycle(p.host, Position(0, Back(p.host)), c.table).1;
    assert (p.wire + [w])[0] == w && (p.wire + [w])[1..] == [];
    assert StepRing.Measured(p.ring, 0, c.timeoutUs) == -1;
    RunOne(c, p, [], a);
    RunOne(c, p, [a], b);
    RunOne(c, p, [a, b], ReadFlag);
    assert [] + [a] == [a] && [a] + [b] == [a, b] && [a, b] + [ReadFlag] == Head(p.host);
  }

  lemma PacketRuns(c: Config, p: Pipe, rows: nat, words: nat)
    requires ValidConfig(c) && Capacity(c.total, c.spacing) >= 1
    requires Stage(c, p, rows, words) && rows < StepRing.SLOTS
    ensures var q := Run(c, p, Head(p.host) + [ClearFlag]);
            && Stage(c, q, rows + 1, words) && q.channel.sm == p.channel.sm
            && q.ring.started == (p.ring.started || rows + 1 == StepRing.SLOTS)
  {
    hide Run, Head, Capacity;
    HeadRuns(c, p, rows, words);
    RunOne(c, p, Head(p.host), ClearFlag);
  }

  /** A tick moves a row into the FIFO while that has room. */
  lemma TickRuns(c: Config, p: Pipe, rows: nat, words: nat)
    requires ValidConfig(c)
    requires Stage(c, p, rows, words) && p.ring.started && rows > 0 && words < FIFO_DEPTH
    ensures var q := Run(c, p, [Alarm(0, 0, AT_ONCE)]);
            && Stage(c, q, rows - 1, words + 1) && q.ring.started
            && q.channel.sm == p.channel.sm.(tx := p.channel.sm.tx + [Wired(p.ring.queue[0][0], c.inverted)])
  {
    hide Wait, Wired, Count, Low, Run;
    WaitAtOnce(c.t, p.channel.sm);
    RunOne(c, p, [], Alarm(0, 0, AT_ONCE));
    assert [] + [Alarm(0, 0, AT_ONCE)] == [Alarm(0, 0, AT_ONCE)];
  }

  /** Ticks and packets fill the FIFO during a low time. */
  lemma {:induction false} FillRuns(c: Config, p: Pipe, rows: nat, words: nat) returns (es: seq<Event>)
    requires ValidConfig(c) && Capacity(c.total, c.spacing) >= 1
    requires Stage(c, p, rows, words) && p.ring.started && rows + words <= FIFO_DEPTH
    ensures var q := Run(c, p, es);
            && Stage(c, q, 0, FIFO_DEPTH) && q.ring.started
            && q.channel.sm.pc == p.channel.sm.pc && q.channel.sm.y == p.channel.sm.y
    decreases FIFO_DEPTH - words, if rows == 0 then 1 else 0
  {
    hide Next, Stage, Head, Run, Wired, Capacity;
    RunOne(c, p, [], ClearFlag);
    if words == FIFO_DEPTH {
      es := [];
    } else if rows == 0 {
      var packet := Head(p.host) + [ClearFlag];
      PacketRuns(c, p, 0, words);
      var more := FillRuns(c, Run(c, p, packet), 1, words);
      es := packet + more;
      RunCompose(c, p, packet, more);
    } else {
      var tick := [Alarm(0, 0, AT_ONCE)];
      StageRow(c, p, rows, words);
      TickRuns(c, p, rows, words);
      var more := FillRuns(c, Run(c, p, tick), rows - 1, words + 1);
      es := tick + more;
      RunCompose(c, p, tick, more);
    }
  }

  lemma StageRow(c: Config, p: Pipe, rows: nat, words: nat)
    requires ValidConfig(c) && Stage(c, p, rows, words) && rows > 0
    ensures p.ring.queue != [] && |p.ring.queue[0]| == 1 && OneStep(c, p.ring.queue[0][0])
  {
  }

  /** The first tick, and the machine runs into the low time of its word. */
  lemma StartRuns(c: Config, p: Pipe) returns (es: seq<Event>)
    requires ValidConfig(c) && Stage(c, p, 3, 0) && p.ring.started && Sane(p.channel.sm) && p.channel.sm.pc == 0
    ensures var q := Run(c, p, es);
            Stage(c, q, 2, 0) && q.ring.started && q.channel.sm.pc == 21 && q.channel.sm.y == Low(c.table[1])
  {
    hide Run, Wired, Count, Low, Steps, Account;
    var tick, w := Alarm(0, 0, AT_ONCE), p.ring.queue[0][0];
    TickRuns(c, p, 3, 0);
    WiredFields(w, c.inverted);
    var m := Run(c, p, [tick]).channel.sm;
    assert m.tx == [Wired(w, c.inverted)];
    var n := IntoLow(c.t, m);
    es := [tick] + [Execute(n)];
    RunOne(c, p, [tick], Execute(n));
  }

  /** With the FIFO full, a tick between the reading and the clearing of the bits drops a word that no report tells. */
  lemma WindowErases(c: Config, p: Pipe, gaps: nat -> nat)
    requires ValidConfig(c) && Capacity(c.total, c.spacing) >= 1
    requires Stage(c, p, 0, FIFO_DEPTH) && p.ring.started
    requires p.channel.sm.pc == 21 && Elapsed(gaps, 0, POLLS - 1) <= p.channel.sm.y
    ensures var q := Run(c, p, Head(p.host) + [Alarm(0, 0, gaps)] + [ClearFlag]);
            q.dropped == 1 && q.erased == 1 && q.flagged == 0 && !q.channel.overflow
  {
    hide Run, Head, Wait, Elapsed, Capacity, Count, Low;
    HeadRuns(c, p, 0, FIFO_DEPTH);
    var q := Run(c, p, Head(p.host));
    WaitInLow(c.t, q.channel.sm, gaps, 0);
    RunOne(c, p, Head(p.host), Alarm(0, 0, gaps));
    RunOne(c, p, Head(p.host) + [Alarm(0, 0, gaps)], ClearFlag);
  }

  /**
   In timer mode, whatever the machine executes between the polls of a wait: if the low time of a single step outlasts
   the thousand polls, there is a run from power-on that drops a word, and no report has carried or is going to carry
   its bit.
   */
  lemma DropUnreported(c: Config, start: Pipe, gaps: nat -> nat) returns (es: seq<Event>)
    requires ValidConfig(c) && Start(start) && c.timerMode && Capacity(c.total, c.spacing) >= 1
    requires Elapsed(gaps, 0, POLLS - 1) <= Low(c.table[1])
    ensures var q := Run(c, start, es);
            q.dropped == 1 && q.erased == 1 && q.flagged == 0 && !q.channel.overflow
  {
    hide Next, Head, Run, Capacity, Elapsed, Low;
    assert Stage(c, start, 0, 0);
    hide Stage;
    PacketRuns(c, start, 0, 0);
    var e1 := Head(start.host) + [ClearFlag];
    var p1 := Run(c, start, e1);
    PacketRuns(c, p1, 1, 0);
    var e2 := Head(p1.host) + [ClearFlag];
    var p2 := Run(c, p1, e2);
    PacketRuns(c, p2, 2, 0);
    var e3 := Head(p2.host) + [ClearFlag];
    var p3 := Run(c, p2, e3);
    var e4 := StartRuns(c, p3);
    var p4 := Run(c, p3, e4);
    var e5 := FillRuns(c, p4, 2, 0);
    var p5 := Run(c, p4, e5);
    WindowErases(c, p5, gaps);
    var e6 := Head(p5.host) + [Alarm(0, 0, gaps)] + [ClearFlag];
    es := e1 + e2 + e3 + e4 + e5 + e6;
    RunCompose(c, start, e1, e2);
    RunCompose(c, start, e1 + e2, e3);
    RunCompose(c, start, e1 + e2 + e3, e4);
    RunCompose(c, start, e1 + e2 + e3 + e4, e5);
    RunCompose(c, start, e1 + e2 + e3 + e4 + e5, e6);
  }

  /**
   Such tables are the usual ones: one step in `total` cycles has a low time of what the high time and the dormant
   cycles leave, and m instructions between two polls take 1000*m of it.
   */
  lemma LowOutlastsPolls(c: Config, m: nat)
    requires ValidConfig(c) && c.total < 0x10_0000 && Capacity(c.total, c.spacing) >= 1
    requires 1000 * m <= c.total - c.spacing.high - c.spacing.dormant
    ensures Elapsed(_ => m, 0, POLLS - 1) <= Low(c.table[1])
  {
    hide Low, Count, Dir, Turning, Capacity, Elapsed;
    TableExact(c.total, c.spacing, 1);
    SteadyPolls(_ => m, m, 0);
  }

  lemma {:induction false} SteadyPolls(gaps: nat -> nat, m: nat, k: nat)
    requires k < POLLS && forall j :: gaps(j) == m
    ensures Elapsed(gaps, k, POLLS - 1) == (POLLS - k) * m
    decreases POLLS - k
  {
    if k + 1 < POLLS {
      SteadyPolls(gaps, m, k + 1);
      assert (POLLS - k) * m == (POLLS - (k + 1)) * m + m;
    }
  }
}
