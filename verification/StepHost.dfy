/**
 The host driver's side of the step pipeline: the timing table, the position-mode loop with its clamp, the packing
 of command words, and the feedback accumulated from the firmware's wrapping position counter.
 */
module StepHost {
  import opened Bits
  import opened PioMachine
  import opened StepProgram
  import opened StepAccount

  const TABLE := 1024
  const MAX_STEPS := 1023

  // ---------- the timing table ----------

  /** What a table is built for: STEP's high time, and the cycles allowed for the program's other instructions. */
  datatype Spacing = Spacing(high: nat, dormant: nat)

  /** `dormant_cycles` in direct mode and in timer mode. */
  const DIRECT_MODE := 6
  const TIMER_MODE := 0

  /** The least cycles per step. */
  function Width(sp: Spacing): nat {
    2 * sp.high + sp.dormant
  }

  /** The command word for i steps in `total` cycles, or 0 when the pulses do not fit. */
  function Entry(total: nat, sp: Spacing, i: nat): nat
    requires 0 < i < TABLE
  {
    var perStep := total / i;
    if perStep >= Width(sp) then Or((perStep - sp.high - sp.dormant) % 0x10_0000 * 4096, i) else 0
  }

  /** The most steps one servo period can carry. */
  function Capacity(total: nat, sp: Spacing): nat {
    if Width(sp) > 0 && total / Width(sp) < MAX_STEPS then total / Width(sp) else MAX_STEPS
  }

  lemma Scale(a: int, b: int, k: nat)
    requires a <= b
    ensures a * k <= b * k
  {
  }

  lemma DivBounds(n: nat, d: nat)
    requires d > 0
    ensures (n / d) * d <= n < (n / d) * d + d && n == (n / d) * d + n % d
  {
  }

  lemma QuotientsAgree(total: nat, i: nat, m: nat)
    requires i > 0 && m > 0
    ensures total / i >= m <==> i <= total / m
  {
    DivBounds(total, i);
    DivBounds(total, m);
    var q, p := total / i, total / m;
    if q >= m {
      Scale(m, q, i);
      if p < i {
        Scale(p + 1, i, m);
      }
    } else {
      Scale(q + 1, m, i);
      if i <= p {
        Scale(i, p, m);
      }
    }
  }

  lemma FitsUpTo(total: nat, sp: Spacing, i: nat)
    requires 0 < i < TABLE
    ensures total / i >= Width(sp) <==> i <= Capacity(total, sp)
  {
    var width := Width(sp);
    hide Width;
    if width > 0 {
      QuotientsAgree(total, i, width);
    }
  }

  /**
   Soundness and completeness of the table: the nonzero entries are exactly those for 1..Capacity, each carries its
   own step count and no flags, and it carries the intended low count exactly when that fits its 20-bit field.
   */
  lemma TableExact(total: nat, sp: Spacing, i: nat)
    requires 0 < i < TABLE
    ensures Entry(total, sp, i) != 0 <==> i <= Capacity(total, sp)
    ensures Entry(total, sp, i) != 0 ==>
              var e := Entry(total, sp, i);
              && Count(e) == i && Dir(e) == 0 && Turning(e) == 0
              && (Low(e) == total / i - sp.high - sp.dormant <==> total / i - sp.high - sp.dormant < 0x10_0000)
  {
    hide Or, Count, Dir, Turning, Low;
    FitsUpTo(total, sp, i);
    var q := total / i;
    if q >= Width(sp) {
      PackLow((q - sp.high - sp.dormant) % 0x10_0000, i);
    }
  }

  lemma PackLow(c: nat, i: nat)
    requires i < TABLE
    ensures var e := Or(c * 4096, i);
            e == c * 4096 + i && Count(e) == i && Dir(e) == 0 && Turning(e) == 0 && Low(e) == c
  {
    hide Or;
    Powers();
    assert Pow2(12) == 4096;
    OrDisjoint(c, 12, i);
    Fields(c, 0, i);
  }

  /** Cycles the machine needs for a word that leaves DIR alone: see StepProgram.WordRuns. */
  function BurstCycles(t: Timing, w: nat): nat {
    Count(w) * (High(t) + Low(w) + 5) + 4 + Lead(t, w)
  }

  /** The high time the settings table lists for its operands: two cycles less than the program takes. */
  function ListedHigh(t: Timing): (h: nat)
    ensures h + 2 == High(t)
  {
    (t.sety + 1) * (t.nop + 2)
  }

  /**
   What a table promises on the pins of a machine whose real high time is High(t): n steps without a DIR change take
   this many cycles, and between pulses STEP is low for at least five cycles more than the table's high time.
   */
  lemma BurstTiming(t: Timing, total: nat, sp: Spacing, n: nat)
    requires 0 < n <= Capacity(total, sp) && total < 0x10_0000
    ensures var w := Entry(total, sp, n);
            && BurstCycles(t, w) == n * (total / n) + n * (High(t) - sp.high + 5 - sp.dormant) + 8
            && Low(w) == total / n - sp.high - sp.dormant >= sp.high
  {
    hide High, Entry, Capacity, Count, Dir, Turning, Low;
    var q := total / n;
    CapacityFits(total, sp, n);
    TableExact(total, sp, n);
    assert High(t) + Low(Entry(total, sp, n)) + 5 == q + (High(t) - sp.high + 5 - sp.dormant);
    Distribute(n, q, High(t) - sp.high + 5 - sp.dormant);
  }

  lemma CapacityFits(total: nat, sp: Spacing, n: nat)
    requires 0 < n <= Capacity(total, sp)
    ensures n < TABLE && Width(sp) <= total / n <= total
  {
    FitsUpTo(total, sp, n);
    DivBounds(total, n);
    Scale(1, n, total / n);
  }

  lemma Distribute(n: nat, q: int, d: int)
    ensures n * (q + d) == n * q + n * d
  {
  }

  /**
   With the true high time in the table, the burst would fit the servo period exactly when n plus the division's
   remainder reaches 8 in direct mode, and never in timer mode.
   */
  lemma TrueHighFits(t: Timing, total: nat, dormant: nat, n: nat)
    requires 0 < n <= Capacity(total, Spacing(High(t), dormant)) && total < 0x10_0000
    ensures var w := Entry(total, Spacing(High(t), dormant), n);
            && (dormant == DIRECT_MODE ==> (BurstCycles(t, w) <= total <==> n + total % n >= 8))
            && (dormant == TIMER_MODE ==> BurstCycles(t, w) > total)
  {
    hide High, Entry, BurstCycles, Capacity;
    BurstTiming(t, total, Spacing(High(t), dormant), n);
    DivBounds(total, n);
    var whole := total / n * n;
    assert n * (total / n) == whole;
    var slack: int := 5 - dormant;
    assert High(t) - High(t) + 5 - dormant == slack;
    if dormant == DIRECT_MODE {
      assert n * slack == 0 - n;
    } else if dormant == TIMER_MODE {
      assert n * slack == 5 * n;
    }
  }

  /**
   With the listed high time every burst overruns the servo period, in direct mode by n + 8 cycles less the division's
   remainder, in timer mode by 6n more; STEP is still low at least as long as high.
   */
  lemma ListedHighOverruns(t: Timing, total: nat, dormant: nat, n: nat)
    requires 0 < n <= Capacity(total, Spacing(ListedHigh(t), dormant)) && total < 0x10_0000
    requires dormant in {DIRECT_MODE, TIMER_MODE}
    ensures var w := Entry(total, Spacing(ListedHigh(t), dormant), n);
            && BurstCycles(t, w) == total + n * (7 - dormant) + 8 - total % n > total
            && Low(w) + 5 >= High(t)
  {
    hide Entry, BurstCycles;
    var sp := Spacing(ListedHigh(t), dormant);
    hide ListedHigh, High;
    BurstTiming(t, total, sp, n);
    DivBounds(total, n);
    assert n * (total / n) == (total / n) * n;
    assert High(t) - sp.high + 5 - dormant == 7 - dormant;
  }

  // ---------- one axis, one servo cycle ----------

  datatype Axis = Axis(prev: int, lastDir: int, first: bool)

  /** `home` is the step position an axis is taken to be at when it is enabled. */
  datatype Request =
    | Disabled
    | Position(home: int, target: int)
    | Velocity(home: int, forward: bool, steps: nat)

  /** Conversion of the step difference to int32; out of range it gives the most negative integer. */
  function Cast32(d: int): int {
    if -HALF <= d < HALF then d else -HALF
  }

  /** Steps to send this cycle: the magnitude of the difference, at most 1023. */
  function ClampSteps(prev: int, target: int): (n: nat)
    ensures n <= MAX_STEPS
  {
    var steps := Cast32(prev - target);
    var steps := if steps < 0 then S32(-steps) else steps;
    if steps < 0 || steps > MAX_STEPS then MAX_STEPS else steps
  }

  function Pack(timing: seq<nat>, steps: nat, turned: bool, sign: nat): nat
    requires steps < |timing|
  {
    Or(Or(timing[steps], if turned then 2048 else 0), sign * 1024)
  }

  function Cycle(a: Axis, r: Request, timing: seq<nat>): (Axis, nat)
    requires |timing| == TABLE
  {
    match r
    case Disabled => (a.(first := true), 0)
    case Position(home, target) =>
      var prev := if a.first then home else a.prev;
      var steps, sign := ClampSteps(prev, target), if prev < target then 1 else 0;
      if steps > 0 then
        (Axis(if sign == 1 then prev + steps else prev - steps, sign, false),
         Pack(timing, steps, sign != a.lastDir, sign))
      else
        (Axis(target, a.lastDir, false), 0)
    case Velocity(home, forward, requested) =>
      var prev := if a.first then home else a.prev;
      var steps, sign := if requested > MAX_STEPS then MAX_STEPS else requested, if forward then 1 else 0;
      if steps > 0 then
        (Axis(prev, sign, false), Pack(timing, steps, sign != a.lastDir, sign))
      else
        (Axis(prev, a.lastDir, false), 0)
  }

  /** A table as the driver builds it. */
  ghost predicate IsTable(timing: seq<nat>, total: nat, sp: Spacing) {
    && |timing| == TABLE && timing[0] == 0
    && (forall i :: 0 < i < TABLE ==> timing[i] == Entry(total, sp, i))
  }

  lemma Unpack(e: nat)
    requires Dir(e) == 0 && Turning(e) == 0
    ensures e == Low(e) * 4 * 1024 + Count(e)
  {
    assert e / 2048 == e / 1024 / 2 && e / 4096 == e / 2048 / 2;
  }

  /** OR on the bits from 10 up. */
  lemma OrAbove(a: nat, b: nat, lo: nat)
    requires lo < 1024
    ensures Or(a * 1024 + lo, b * 1024) == Or(a, b) * 1024 + lo
  {
    hide Or;
    Powers();
    OrSplits(a, b, 10, lo);
  }

  /** OR of the two flags above a field's end. */
  lemma OrFlags(hi: nat, b: nat, sign: nat)
    requires b < 2 && sign < 2
    ensures Or(Or(hi * 4, 2 * b), sign) == hi * 4 + (2 * b + sign)
  {
    hide Or;
    Powers();
    OrDisjoint(hi, 2, 2 * b);
    OrDisjoint(hi * 2 + b, 1, sign);
  }

  lemma PackFields(e: nat, turned: bool, sign: nat)
    requires Dir(e) == 0 && Turning(e) == 0 && sign < 2
    ensures var w := Or(Or(e, if turned then 2048 else 0), sign * 1024);
            && Count(w) == Count(e) && Low(w) == Low(e) && Dir(w) == sign && Turning(w) == (if turned then 1 else 0)
  {
    hide Or;
    var b := if turned then 1 else 0;
    var hi, lo := Low(e), Count(e);
    Unpack(e);
    OrAbove(hi * 4, 2 * b, lo);
    OrAbove(Or(hi * 4, 2 * b), sign, lo);
    OrFlags(hi, b, sign);
    Fields(hi, 2 * b + sign, lo);
  }

  lemma EntryFields(timing: seq<nat>, total: nat, sp: Spacing, n: nat)
    requires IsTable(timing, total, sp) && n < TABLE
    ensures Dir(timing[n]) == 0 && Turning(timing[n]) == 0
    ensures Count(timing[n]) == if n <= Capacity(total, sp) then n else 0
    ensures Count(timing[n]) == 0 ==> timing[n] == 0
  {
    hide Or, Entry;
    if n > 0 {
      TableExact(total, sp, n);
    }
  }

  function Clamp(d: int): int {
    if d < -MAX_STEPS then -MAX_STEPS else if d > MAX_STEPS then MAX_STEPS else d
  }

  /** In position mode prev moves by exactly the clamped difference. */
  lemma CycleMoves(a: Axis, home: int, target: int, timing: seq<nat>)
    requires |timing| == TABLE
    ensures var prev := if a.first then home else a.prev;
            Cycle(a, Position(home, target), timing).0.prev == prev + Clamp(target - prev)
  {
  }

  /**
   The word stands for the movement of prev exactly when the clamped request is within the table's capacity. Beyond
   it the table entry is 0 and prev still advances, so those steps are lost.
   */
  lemma WordMatchesMove(a: Axis, home: int, target: int, timing: seq<nat>, total: nat, sp: Spacing)
    requires IsTable(timing, total, sp)
    ensures var prev := if a.first then home else a.prev;
            var (b, w) := Cycle(a, Position(home, target), timing);
            WordSteps(w, false) == b.prev - prev <==> ClampSteps(prev, target) <= Capacity(total, sp)
  {
    hide Or, Entry;
    var prev := if a.first then home else a.prev;
    var n := ClampSteps(prev, target);
    EntryFields(timing, total, sp, n);
    if n > 0 {
      var sign := if prev < target then 1 else 0;
      PackFields(timing[n], sign != a.lastDir, sign);
    }
  }

  /** A request the table cannot carry loses its steps: five steps where only four fit. */
  lemma ExcessIsLost(timing: seq<nat>)
    requires IsTable(timing, 1000, Spacing(100, DIRECT_MODE))
    ensures var (b, w) := Cycle(Axis(0, 1, false), Position(0, 5), timing); b.prev == 5 && Count(w) == 0
  {
    hide Or, Entry;
    EntryFields(timing, 1000, Spacing(100, DIRECT_MODE), 5);
    PackFields(timing[5], false, 1);
  }

  /**
   In every mode, across zero-step cycles and disables: a word that is sent carries bit 11 exactly when its DIR level
   differs from that of the last word sent, and lastDir is always the level of the last word sent (-1 before any).
   */
  lemma WordFlagged(a: Axis, r: Request, timing: seq<nat>, total: nat, sp: Spacing)
    requires IsTable(timing, total, sp)
    ensures var (b, w) := Cycle(a, r, timing);
            if w == 0 then b.lastDir == a.lastDir
            else b.lastDir == Dir(w) && (Turning(w) == 1 <==> Dir(w) != a.lastDir)
  {
    hide Or, Entry, Capacity, Count, Low, Dir, Turning;
    if r.Disabled? {
      return;
    }
    var prev := if a.first then r.home else a.prev;
    var n := if r.Position? then ClampSteps(prev, r.target) else if r.steps > MAX_STEPS then MAX_STEPS else r.steps;
    var sign := if r.Position? then (if prev < r.target then 1 else 0) else if r.forward then 1 else 0;
    if n > 0 {
      EntryFields(timing, total, sp, n);
      PackFields(timing[n], sign != a.lastDir, sign);
      ZeroWord();
    }
  }

  lemma ZeroWord()
    ensures Count(0) == 0 && Dir(0) == 0 && Turning(0) == 0
  {
  }

  // ---------- what a word is worth ----------

  /** The position a request is measured from. */
  function Place(a: Axis, home: int): int {
    if a.first then home else a.prev
  }

  /** The steps a request asks for. */
  function Intent(a: Axis, r: Request): int {
    match r
    case Disabled => 0
    case Position(home, target) => Clamp(target - Place(a, home))
    case Velocity(_, forward, steps) => Signed(if forward then 1 else 0, Min(steps, MAX_STEPS), false)
  }

  lemma CycleWord(a: Axis, r: Request, table: seq<nat>)
    requires |table| == TABLE
    ensures var n := Abs(Intent(a, r));
            && n <= MAX_STEPS
            && Cycle(a, r, table).1 == if n == 0 then 0
                                       else var sign := if Intent(a, r) > 0 then 1 else 0;
                                            Pack(table, n, sign != a.lastDir, sign)
  {
    hide Pack, ClampSteps, S32, Cast32;
    if r.Position? {
      ClampMagnitude(if a.first then r.home else a.prev, r.target);
    }
  }

  lemma ClampMagnitude(prev: int, target: int)
    ensures ClampSteps(prev, target) == Abs(Clamp(target - prev))
  {
  }

  /** In every mode the word is worth what was asked if the table can carry it, and nothing if not. */
  lemma WordWorth(a: Axis, r: Request, timing: seq<nat>, total: nat, sp: Spacing)
    requires IsTable(timing, total, sp)
    ensures WordSteps(Cycle(a, r, timing).1, false)
         == if Abs(Intent(a, r)) <= Capacity(total, sp) then Intent(a, r) else 0
  {
    hide Or, Entry, Cycle, Capacity, Intent;
    CycleWord(a, r, timing);
    var n := Abs(Intent(a, r));
    if n > 0 {
      EntryFields(timing, total, sp, n);
      var sign := if Intent(a, r) > 0 then 1 else 0;
      PackFields(timing[n], sign != a.lastDir, sign);
    }
  }

  // ---------- a history of requests ----------

  const POWER_ON := Axis(0, -1, true)

  /** Where request i of a history finds the axis: at its home if the axis is being enabled, else where it was left. */
  function Origin(rs: seq<Request>, i: nat): int
    requires i < |rs| && !rs[i].Disabled?
    decreases i, 0
  {
    if i == 0 || rs[i - 1].Disabled? then rs[i].home else Left(rs, i - 1)
  }

  /** Where it leaves it: in position mode nearer the target by at most 1023 steps, in velocity mode unchanged. */
  function Left(rs: seq<Request>, i: nat): int
    requires i < |rs| && !rs[i].Disabled?
    decreases i, 1
  {
    if rs[i].Position? then Origin(rs, i) + Clamp(rs[i].target - Origin(rs, i)) else Origin(rs, i)
  }

  /** The steps it asks for. */
  function Asked(rs: seq<Request>, i: nat): int
    requires i < |rs|
  {
    if rs[i].Disabled? then 0
    else if rs[i].Position? then Clamp(rs[i].target - Origin(rs, i))
    else if rs[i].forward then Min(rs[i].steps, MAX_STEPS)
    else 0 - Min(rs[i].steps, MAX_STEPS)
  }

  function Blank(): (t: seq<nat>)
    ensures |t| == TABLE
  {
    seq(TABLE, _ => 0)
  }

  /** The driver's fields after a history; they do not depend on the table. */
  function After(a: Axis, rs: seq<Request>): Axis {
    if rs == [] then a else Cycle(After(a, rs[..|rs| - 1]), rs[|rs| - 1], Blank()).0
  }

  lemma StateIgnoresTable(a: Axis, r: Request, timing: seq<nat>)
    requires |timing| == TABLE
    ensures Cycle(a, r, timing).0 == Cycle(a, r, Blank()).0
  {
    hide Pack;
  }

  lemma AfterAppend(a: Axis, rs: seq<Request>, r: Request, timing: seq<nat>)
    requires |timing| == TABLE
    ensures After(a, rs + [r]) == Cycle(After(a, rs), r, timing).0
  {
    hide Cycle;
    assert (rs + [r])[..|rs|] == rs;
    StateIgnoresTable(After(a, rs), r, timing);
  }

  /** Origin and Left of a request depend on the requests up to it only. */
  lemma {:induction false} OriginOfPrefix(rs: seq<Request>, n: nat, i: nat)
    requires i < n <= |rs| && !rs[i].Disabled?
    ensures Origin(rs[..n], i) == Origin(rs, i) && Left(rs[..n], i) == Left(rs, i)
    decreases i
  {
    assert rs[..n][i] == rs[i];
    if i > 0 {
      assert rs[..n][i - 1] == rs[i - 1];
      if !rs[i - 1].Disabled? {
        OriginOfPrefix(rs, n, i - 1);
      }
    }
  }

  /**
   After any history of an axis that was off: it is marked for re-basing exactly if no request has come or the last one
   was Disabled, and otherwise its position is where the history leaves it.
   */
  lemma {:induction false} HistoryState(a: Axis, rs: seq<Request>)
    requires a.first
    ensures var b := After(a, rs);
            && (b.first <==> rs == [] || rs[|rs| - 1].Disabled?)
            && (!b.first ==> b.prev == Left(rs, |rs| - 1))
  {
    hide Pack, Clamp, ClampSteps;
    if rs != [] {
      var front, n := rs[..|rs| - 1], |rs| - 1;
      var r := rs[n];
      HistoryState(a, front);
      if n > 0 && !rs[n - 1].Disabled? {
        OriginOfPrefix(rs, n, n - 1);
        assert front[n - 1] == rs[n - 1];
      }
      if r.Position? {
        CycleMoves(After(a, front), r.home, r.target, Blank());
      }
    }
  }

  /**
   What every request of every history does, read off the requests alone: an enabled request whose predecessor was
   Disabled, or that is the first, is measured from its own home, every other from where its predecessor left the axis;
   the driver's position becomes Left, and the word is worth Asked if the table can carry that, and nothing if not.
   */
  lemma HistoryMoves(a: Axis, rs: seq<Request>, i: nat, timing: seq<nat>, total: nat, sp: Spacing)
    requires a.first && i < |rs| && IsTable(timing, total, sp)
    ensures var (b, w) := Cycle(After(a, rs[..i]), rs[i], timing);
            && b == After(a, rs[..i + 1])
            && (!rs[i].Disabled? ==> b.prev == Left(rs, i) && !b.first)
            && (rs[i].Disabled? ==> b.first && w == 0)
            && WordSteps(w, false) == if Abs(Asked(rs, i)) <= Capacity(total, sp) then Asked(rs, i) else 0
  {
    hide Pack, Entry, Capacity, Cycle, Clamp;
    var before, now := rs[..i], rs[..i + 1];
    assert now[..|now| - 1] == before && now[i] == rs[i];
    StateIgnoresTable(After(a, before), rs[i], timing);
    HistoryState(a, before);
    HistoryState(a, now);
    WordWorth(After(a, before), rs[i], timing, total, sp);
    if !rs[i].Disabled? {
      OriginOfPrefix(rs, i + 1, i);
      if i > 0 && !rs[i - 1].Disabled? {
        OriginOfPrefix(rs, i, i - 1);
        assert before[i - 1] == rs[i - 1];
      }
    } else {
      DisabledSendsNothing(After(a, before), timing);
    }
  }

  lemma DisabledSendsNothing(a: Axis, timing: seq<nat>)
    requires |timing| == TABLE
    ensures Cycle(a, Disabled, timing).1 == 0
  {
  }

  // ---------- catching up with a fixed target ----------

  function CyclesTo(a: Axis, target: int, timing: seq<nat>, k: nat): Axis
    requires |timing| == TABLE
  {
    if k == 0 then a else Cycle(CyclesTo(a, target, timing, k - 1), Position(0, target), timing).0
  }

  function Abs(d: int): nat {
    if d < 0 then -d else d
  }

  /**
   With a fixed target the distance shrinks by 1023 a cycle without ever changing sign, so the target is reached after
   ceil(|d|/1023) cycles and no earlier, and from then on the words are zero.
   */
  lemma {:induction false} CatchUp(a: Axis, target: int, timing: seq<nat>, k: nat)
    requires |timing| == TABLE && !a.first
    ensures var d, e := target - a.prev, CyclesTo(a, target, timing, k);
            && !e.first
            && (d >= 0 ==> e.prev <= target) && (d <= 0 ==> e.prev >= target)
            && Abs(target - e.prev) == (if Abs(d) <= MAX_STEPS * k then 0 else Abs(d) - MAX_STEPS * k)
            && (e.prev == target <==> (Abs(d) + MAX_STEPS - 1) / MAX_STEPS <= k)
            && (e.prev == target ==> Cycle(e, Position(0, target), timing) == (e, 0))
  {
    if k > 0 {
      CatchUp(a, target, timing, k - 1);
      CycleMoves(CyclesTo(a, target, timing, k - 1), 0, target, timing);
    }
  }

  // ---------- feedback ----------

  /** Sum of the wrapped differences of successive int32 position reports. */
  function Feedback(last: int, reports: seq<int>): int
    decreases |reports|
  {
    if reports == [] then 0 else S32(reports[0] - last) + Feedback(reports[0], reports[1..])
  }

  function Wrapped(positions: seq<int>): seq<int> {
    if positions == [] then [] else [S32(positions[0])] + Wrapped(positions[1..])
  }

  /** Each position is within 2^31 of the one before it. */
  ghost predicate Traceable(start: int, positions: seq<int>)
    decreases |positions|
  {
    positions == [] || (-HALF <= positions[0] - start < HALF && Traceable(positions[0], positions[1..]))
  }

  /** Feedback follows the true position through wrap-around while it moves less than 2^31 between reports. */
  lemma {:induction false} FeedbackTracks(start: int, positions: seq<int>)
    requires Traceable(start, positions)
    ensures Feedback(S32(start), Wrapped(positions))
         == if positions == [] then 0 else positions[|positions| - 1] - start
    decreases |positions|
  {
    if positions != [] {
      FeedbackTracks(positions[0], positions[1..]);
      WrappedDifference(positions[0], start);
    }
  }

  lemma WrappedDifference(p: int, q: int)
    requires -HALF <= p - q < HALF
    ensures S32(S32(p) - S32(q)) == p - q
  {
    S32Absorbs(p, -S32(q));
    S32Absorbs(q, -p);
    var k := (q + HALF) / WORD;
    assert S32(q) == q - WORD * k;
    ModShift(p - q + HALF, k);
    S32Congruent(p - q);
  }

  // ---------- the driver's state ----------

  class Host {
    const axes: nat
    const timing: array<nat>
    const prevPos: array<int>
    const lastDir: array<int>
    const firstData: array<bool>
    ghost var past: seq<seq<Request>>  // the requests of every send so far

    ghost predicate Valid()
      reads this, timing, prevPos, lastDir, firstData
    {
      && timing.Length == TABLE
      && prevPos.Length == lastDir.Length == firstData.Length == axes
      && prevPos != lastDir
    }

    /** The fields of every axis are those its requests so far lead to. */
    ghost predicate UpToDate()
      requires Valid()
      reads this, timing, prevPos, lastDir, firstData
    {
      && (forall k :: 0 <= k < |past| ==> |past[k]| == axes)
      && (forall i :: 0 <= i < axes ==> At(i) == After(POWER_ON, History(past, i)))
    }

    ghost function At(i: nat): Axis
      requires Valid() && i < axes
      reads this, timing, prevPos, lastDir, firstData
    {
      Axis(prevPos[i], lastDir[i], firstData[i])
    }

    constructor (axes: nat)
      ensures Valid() && this.axes == axes && past == [] && UpToDate()
      ensures fresh(timing) && fresh(prevPos) && fresh(lastDir) && fresh(firstData)
      ensures forall i :: 0 <= i < axes ==> At(i) == Axis(0, -1, true)
    {
      this.axes := axes;
      timing := new nat[TABLE];
      prevPos := new int[axes](_ => 0);
      lastDir := new int[axes](_ => -1);
      firstData := new bool[axes](_ => true);
      past := [];
    }

    /** Fills the table when the pulse width changes; returns the most steps per cycle it can carry. */
    method BuildTiming(total: nat, sp: Spacing) returns (maxSteps: nat)
      requires Valid()
      modifies timing
      ensures IsTable(timing[..], total, sp) && maxSteps == Capacity(total, sp)
      ensures old(UpToDate()) ==> UpToDate()
    {
      for i := 0 to TABLE
        invariant forall k :: 0 <= k < i ==> timing[k] == 0
      {
        timing[i] := 0;
      }
      maxSteps := 0;
      for i := 1 to TABLE
        invariant timing[0] == 0
        invariant forall k :: 0 < k < i ==> timing[k] == Entry(total, sp, k)
        invariant forall k :: i <= k < TABLE ==> timing[k] == 0
        invariant maxSteps == if Capacity(total, sp) < i then Capacity(total, sp) else i - 1
      {
        FitsUpTo(total, sp, i);
        var perStep := total / i;
        if perStep >= Width(sp) {
          var counter := perStep - sp.high - sp.dormant;
          timing[i] := Or(counter % 0x10_0000 * 4096, i);
          maxSteps := i;
        }
      }
    }

    /** One axis of ProcessSend. */
    method SendAxis(i: nat, request: Request) returns (word: nat)
      requires Valid() && i < axes
      modifies prevPos, lastDir, firstData
      ensures Valid() && (At(i), word) == Cycle(old(At(i)), request, timing[..])
      ensures forall k :: 0 <= k < axes && k != i ==> At(k) == old(At(k))
    {
      hide Or, Pack, Cast32, S32;
      word := 0;
      if request.Disabled? {
        firstData[i] := true;
        return;
      }
      if firstData[i] {
        prevPos[i] := request.home;
        firstData[i] := false;
      }
      if request.Position? {
        var steps := Cast32(prevPos[i] - request.target);
        if steps < 0 {
          steps := S32(-steps);
        }
        if steps < 0 {
          steps := MAX_STEPS;
        }
        if steps > MAX_STEPS {
          steps := MAX_STEPS;
        }
        var sign := if prevPos[i] < request.target then 1 else 0;
        if steps > 0 {
          word := Pack(timing[..], steps, sign != lastDir[i], sign);
          lastDir[i] := sign;
          prevPos[i] := if sign == 1 then prevPos[i] + steps else prevPos[i] - steps;
        } else {
          prevPos[i] := request.target;
        }
      } else {
        var steps := if request.steps > MAX_STEPS then MAX_STEPS else request.steps;
        var sign := if request.forward then 1 else 0;
        if steps > 0 {
          word := Pack(timing[..], steps, sign != lastDir[i], sign);
          lastDir[i] := sign;
        }
      }
    }

    /**
     The stepgen part of one send: the command word of every axis. Over all sends so far, each axis is where its
     requests leave it.
     */
    method ProcessSend(requests: seq<Request>) returns (cmd: seq<nat>)
      requires Valid() && UpToDate() && |requests| == axes
      modifies prevPos, lastDir, firstData, this`past
      ensures Valid() && UpToDate() && past == old(past) + [requests] && |cmd| == axes
      ensures forall i :: 0 <= i < axes ==> (At(i), cmd[i]) == Cycle(old(At(i)), requests[i], timing[..])
      ensures forall i :: 0 <= i < axes ==>
                firstData[i] == requests[i].Disabled?
                && (!requests[i].Disabled? ==> prevPos[i] == Left(History(past, i), |past| - 1))
      ensures forall i, total, sp :: 0 <= i < axes && IsTable(timing[..], total, sp) ==>
                var n := Asked(History(past, i), |past| - 1);
                WordSteps(cmd[i], false) == if Abs(n) <= Capacity(total, sp) then n else 0
    {
      hide Cycle, After, Origin, Left, Asked, Capacity, WordSteps, IsTable;
      cmd := [];
      ghost var before := past;
      for i := 0 to axes
        modifies prevPos, lastDir, firstData
        invariant |cmd| == i
        invariant forall k :: 0 <= k < i ==> (At(k), cmd[k]) == Cycle(old(At(k)), requests[k], timing[..])
        invariant forall k :: i <= k < axes ==> At(k) == old(At(k))
      {
        var word := SendAxis(i, requests[i]);
        cmd := cmd + [word];
      }
      past := past + [requests];
      forall i | 0 <= i < axes
        ensures At(i) == After(POWER_ON, History(past, i))
        ensures firstData[i] == requests[i].Disabled?
        ensures !requests[i].Disabled? ==> prevPos[i] == Left(History(past, i), |past| - 1)
      {
        HistoryGrows(before, requests, i, timing[..]);
        HistoryState(POWER_ON, History(past, i));
      }
      forall i, total, sp | 0 <= i < axes && IsTable(timing[..], total, sp)
        ensures var n := Asked(History(past, i), |past| - 1);
                WordSteps(cmd[i], false) == if Abs(n) <= Capacity(total, sp) then n else 0
      {
        HistoryGrows(before, requests, i, timing[..]);
        assert History(past, i)[..|past| - 1] == History(before, i);
        HistoryMoves(POWER_ON, History(past, i), |past| - 1, timing[..], total, sp);
      }
    }
  }

  /** The feedback of every axis, accumulated from the firmware's position reports. */
  class Follower {
    const axes: nat
    const lastActual: array<int>
    const feedback: array<int>
    ghost var past: seq<seq<int>>  // the reports so far

    ghost predicate Valid()
      reads this, lastActual, feedback
    {
      && lastActual.Length == feedback.Length == axes && lastActual != feedback
      && (forall k :: 0 <= k < |past| ==> |past[k]| == axes)
      && (forall i :: 0 <= i < axes ==> lastActual[i] == LastReport(0, Reports(past, i)))
      && (forall i :: 0 <= i < axes ==> feedback[i] == Feedback(0, Reports(past, i)))
    }

    constructor (axes: nat)
      ensures Valid() && this.axes == axes && past == [] && fresh(lastActual) && fresh(feedback)
    {
      this.axes := axes;
      lastActual := new int[axes](_ => 0);
      feedback := new int[axes](_ => 0);
      past := [];
    }

    /** The stepgen part of one receive. */
    method ProcessRecv(reports: seq<int>)
      requires Valid() && |reports| == axes
      modifies lastActual, feedback, this`past
      ensures Valid() && past == old(past) + [reports]
      ensures forall i :: 0 <= i < axes ==> feedback[i] == Feedback(0, Reports(past, i))
      ensures forall i :: 0 <= i < axes ==>
                lastActual[i] == reports[i]
                && feedback[i] == old(feedback[i]) + S32(reports[i] - old(lastActual[i]))
    {
      hide Feedback;
      ghost var before := past;
      for i := 0 to axes
        modifies lastActual, feedback
        invariant forall k :: i <= k < axes ==>
                    lastActual[k] == old(lastActual[k]) && feedback[k] == old(feedback[k])
        invariant forall k :: 0 <= k < i ==>
                    lastActual[k] == reports[k]
                    && feedback[k] == old(feedback[k]) + S32(reports[k] - old(lastActual[k]))
      {
        var actual := reports[i];
        var delta := S32(actual - lastActual[i]);
        lastActual[i] := actual;
        feedback[i] := feedback[i] + delta;
      }
      past := past + [reports];
      forall i | 0 <= i < axes
        ensures lastActual[i] == LastReport(0, Reports(past, i)) && feedback[i] == Feedback(0, Reports(past, i))
      {
        assert Reports(past, i) == Reports(before, i) + [reports[i]];
        FeedbackAppend(0, Reports(before, i), reports[i]);
      }
    }
  }

  /** The reports of axis i. */
  ghost function Reports(past: seq<seq<int>>, i: nat): (rs: seq<int>)
    requires forall k :: 0 <= k < |past| ==> i < |past[k]|
    ensures |rs| == |past|
  {
    seq(|past|, k requires 0 <= k < |past| => past[k][i])
  }

  function LastReport(last: int, reports: seq<int>): int {
    if reports == [] then last else reports[|reports| - 1]
  }

  lemma {:induction false} FeedbackAppend(last: int, reports: seq<int>, r: int)
    ensures Feedback(last, reports + [r]) == Feedback(last, reports) + S32(r - LastReport(last, reports))
    decreases |reports|
  {
    if reports == [] {
      assert [r][1..] == [];
    } else {
      assert (reports + [r])[1..] == reports[1..] + [r];
      FeedbackAppend(reports[0], reports[1..], r);
    }
  }

  /** The requests of axis i. */
  ghost function History(past: seq<seq<Request>>, i: nat): (rs: seq<Request>)
    requires forall k :: 0 <= k < |past| ==> i < |past[k]|
    ensures |rs| == |past|
  {
    seq(|past|, k requires 0 <= k < |past| => past[k][i])
  }

  lemma HistoryGrows(past: seq<seq<Request>>, requests: seq<Request>, i: nat, timing: seq<nat>)
    requires (forall k :: 0 <= k < |past| ==> i < |past[k]|) && i < |requests| && |timing| == TABLE
    ensures History(past + [requests], i) == History(past, i) + [requests[i]]
    ensures After(POWER_ON, History(past + [requests], i))
         == Cycle(After(POWER_ON, History(past, i)), requests[i], timing).0
  {
    hide Cycle, After;
    var h := History(past, i);
    assert History(past + [requests], i) == h + [requests[i]];
    AfterAppend(POWER_ON, h, requests[i], timing);
  }
}
