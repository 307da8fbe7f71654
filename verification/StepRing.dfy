/**
 Timer mode: a three-slot ring between the packet handler and a periodic alarm, with priming, underflow and overflow.
 The class is the code's circular buffer; RingState is the queue it refines; Trace runs it together with the gate.
 */
module StepRing {
  import opened Bits
  import ChecksumGate

  const SLOTS := 3

  type Commands = seq<nat>

  datatype Popped = Nothing | Commands(row: Commands)

  /** `alarm` is the claimed hardware alarm, or -1. */
  datatype RingState = RingState(queue: seq<Commands>, started: bool, period: nat, lastUs: nat, deadline: nat,
                                 overflow: bool, underflow: bool, alarm: int)

  const INITIAL := RingState([], false, 1000, 0, 0, false, false, -1)

  // ---------- what the handlers do to the queue ----------

  /** The packet spacing taken into account, if any. */
  function Measured(s: RingState, nowUs: nat, timeoutUs: nat): int {
    var m := U32(U32(nowUs) - s.lastUs);
    if s.lastUs != 0 && 50 < m < timeoutUs then m else -1
  }

  /** The measured spacing is the true one, also when the 32-bit clock wraps between the packets. */
  lemma MeasuresSpacing(s: RingState, before: nat, now: nat, timeoutUs: nat)
    requires s.lastUs == U32(before) && s.lastUs != 0 && before <= now < before + WORD
    ensures Measured(s, now, timeoutUs) == if 50 < now - before < timeoutUs then now - before else -1
  {
    var k := now / WORD - before / WORD;
    assert U32(now) - U32(before) == now - before - WORD * k;
    ModShift(now - before, -k);
  }

  function Smooth(period: nat, measured: nat): nat {
    U32(period * 3 + measured + 2) / 4
  }

  /** Starts the alarm one period from now, claiming one first if none is held; `free` is -1 if none can be had. */
  function Arm(s: RingState, nowUs: nat, free: int): RingState {
    var alarm := if s.alarm < 0 then free else s.alarm;
    if alarm < 0 then s.(alarm := alarm) else s.(alarm := alarm, started := true, deadline := nowUs + s.period)
  }

  function Enqueue(s: RingState, row: Commands, nowUs: nat, timeoutUs: nat, free: int): RingState {
    var m := Measured(s, nowUs, timeoutUs);
    var s := s.(period := if m >= 0 then Smooth(s.period, m) else s.period, lastUs := U32(nowUs));
    if |s.queue| < SLOTS then
      var s := s.(queue := s.queue + [row], overflow := false);
      if !s.started && |s.queue| == SLOTS then Arm(s.(underflow := false), nowUs, free) else s
    else
      s.(overflow := true)
  }

  function Tick(s: RingState, number: int, nowUs: nat): (RingState, Popped) {
    if number != s.alarm then (s, Nothing)
    else if s.queue == [] then (s.(started := false, underflow := true), Nothing)
    else (s.(queue := s.queue[1..], deadline := nowUs + s.period), Popped.Commands(s.queue[0]))
  }

  function Stop(s: RingState): RingState {
    s.(alarm := -1, started := false, queue := [], lastUs := 0, overflow := false, underflow := false)
  }

  // ---------- the circular buffer ----------

  /** `count` slots from `tail` on, wrapping around. */
  ghost function Window(slots: seq<Commands>, tail: nat, count: nat): seq<Commands>
    requires |slots| == SLOTS
  {
    seq(count, i requires 0 <= i < count => slots[(tail + i) % SLOTS])
  }

  class Ring {
    const timeoutUs: nat
    const ring: array<Commands>
    var head: nat
    var tail: nat
    var count: nat
    var started: bool
    var period: nat
    var lastUs: nat
    var deadline: nat
    var overflow: bool
    var underflow: bool
    var alarm: int

    ghost predicate Valid()
      reads this
    {
      ring.Length == SLOTS && tail < SLOTS && count <= SLOTS && head == (tail + count) % SLOTS && -1 <= alarm
    }

    /** The rows between tail and head, oldest first. */
    ghost function Contents(): seq<Commands>
      requires Valid()
      reads this, ring
    {
      Window(ring[..], tail, count)
    }

    ghost function State(): RingState
      requires Valid()
      reads this, ring
    {
      RingState(Contents(), started, period, lastUs, deadline, overflow, underflow, alarm)
    }

    constructor (timeoutUs: nat)
      ensures Valid() && State() == INITIAL && this.timeoutUs == timeoutUs && fresh(ring)
    {
      this.timeoutUs := timeoutUs;
      ring := new Commands[SLOTS](_ => []);
      head, tail, count := 0, 0, 0;
      started, overflow, underflow := false, false, false;
      period, lastUs, deadline, alarm := 1000, 0, 0, -1;
    }

    method ArmStepTimer(nowUs: nat, free: int)
      requires Valid() && -1 <= free
      modifies this`alarm, this`started, this`deadline
      ensures Valid() && State() == Arm(old(State()), nowUs, free)
    {
      if alarm < 0 {
        alarm := free;
        if alarm < 0 {
          return;
        }
      }
      deadline := nowUs + period;
      started := true;
    }

    /** The ring write of EnqueueStepgenCommands. */
    method Push(row: Commands)
      requires Valid() && count < SLOTS
      modifies this`head, this`count, ring
      ensures Valid() && count == old(count) + 1 && Contents() == old(Contents()) + [row]
    {
      ghost var before := Contents();
      ring[head] := row;
      head := (head + 1) % SLOTS;
      count := count + 1;
      assert Contents() == before + [row];
    }

    method EnqueueStepgenCommands(row: Commands, nowUs: nat, free: int)
      requires Valid() && -1 <= free
      modifies this, ring
      ensures Valid() && State() == Enqueue(old(State()), row, nowUs, timeoutUs, free)
    {
      var now := U32(nowUs);
      var shouldArm := false;
      if lastUs != 0 {
        var measured := U32(now - lastUs);
        if measured > 50 && measured < timeoutUs {
          period := U32(period * 3 + measured + 2) / 4;
        }
      }
      lastUs := now;
      if count < SLOTS {
        Push(row);
        overflow := false;
        if !started && count == SLOTS {
          shouldArm := true;
          underflow := false;
        }
      } else {
        overflow := true;
      }
      if shouldArm {
        ArmStepTimer(nowUs, free);
      }
    }

    method TimerCallback(number: int, nowUs: nat) returns (p: Popped)
      requires Valid()
      modifies this
      ensures Valid() && (State(), p) == Tick(old(State()), number, nowUs)
    {
      ghost var before := Contents();
      p := Nothing;
      if number != alarm {
        return;
      }
      if count == 0 {
        started := false;
        underflow := true;
        return;
      }
      p := Popped.Commands(ring[tail]);
      tail := (tail + 1) % SLOTS;
      count := count - 1;
      deadline := nowUs + period;
      assert Contents() == before[1..];
    }

    method StopTimer()
      requires Valid()
      modifies this
      ensures Valid() && State() == Stop(old(State()))
    {
      if alarm >= 0 {
        alarm := -1;
      }
      started := false;
      head, tail, count := 0, 0, 0;
      lastUs := 0;
      overflow, underflow := false, false;
    }
  }

  // ---------- whole runs ----------

  datatype Event =
    | Packet(good: bool, row: Commands, nowUs: nat, free: int)
    | Alarm(number: int, nowUs: nat)
    | Disconnect

  /** One command taken off the ring, and whether the gate let it through to the step generators. */
  datatype Outcome = Outcome(row: Commands, executed: bool)

  /** The ring and the gate, with the commands accepted and taken off since the last disconnect. */
  datatype Timer = Timer(ring: RingState, gate: ChecksumGate.Gate, accepted: seq<Commands>, taken: seq<Outcome>,
                         refused: nat)

  const POWER_ON := Timer(INITIAL, ChecksumGate.OPEN, [], [], 0)

  function Next(t: Timer, e: Event, timeoutUs: nat): Timer {
    match e
    case Packet(good, row, nowUs, free) =>
      var g := ChecksumGate.Next(t.gate, good);
      if g.error then t.(gate := g) else
        var r := Enqueue(t.ring, row, nowUs, timeoutUs, free);
        if r.overflow then t.(gate := g, ring := r, refused := t.refused + 1)
        else t.(gate := g, ring := r, accepted := t.accepted + [row])
    case Alarm(number, nowUs) =>
      var (r, p) := Tick(t.ring, number, nowUs);
      (match p
       case Nothing => t.(ring := r)
       case Commands(row) => t.(ring := r, taken := t.taken + [Outcome(row, !t.gate.error)]))
    case Disconnect =>
      Timer(Stop(t.ring), t.gate.(error := false), [], [], 0)
  }

  function Run(es: seq<Event>, timeoutUs: nat): Timer {
    if es == [] then POWER_ON else Next(Run(es[..|es| - 1], timeoutUs), es[|es| - 1], timeoutUs)
  }

  function Rows(os: seq<Outcome>): seq<Commands> {
    if os == [] then [] else Rows(os[..|os| - 1]) + [os[|os| - 1].row]
  }

  /** Alarms are numbered from 0; claiming one yields a number or -1. */
  ghost predicate Proper(e: Event) {
    (e.Packet? ==> -1 <= e.free) && (e.Alarm? ==> 0 <= e.number)
  }

  ghost predicate Inv(t: Timer) {
    && |t.ring.queue| <= SLOTS && -1 <= t.ring.alarm
    && t.accepted == Rows(t.taken) + t.ring.queue
    && (t.ring.started ==> t.ring.alarm >= 0)
    && (t.ring.overflow ==> t.refused > 0)
    && (!t.ring.started && |t.ring.queue| == SLOTS ==> t.ring.alarm < 0)
  }

  lemma PacketKeepsInv(t: Timer, e: Event, timeoutUs: nat)
    requires Inv(t) && Proper(e) && e.Packet?
    ensures Inv(Next(t, e, timeoutUs))
  {
    hide Smooth, Measured, Rows;
    assert Rows(t.taken) + (t.ring.queue + [e.row]) == Rows(t.taken) + t.ring.queue + [e.row];
  }

  lemma AlarmKeepsInv(t: Timer, e: Event, timeoutUs: nat)
    requires Inv(t) && Proper(e) && e.Alarm?
    ensures Inv(Next(t, e, timeoutUs))
  {
    hide Rows;
    if e.number == t.ring.alarm && t.ring.queue != [] {
      var row := t.ring.queue[0];
      RowsAppend(t.taken, Outcome(row, !t.gate.error));
      assert Rows(t.taken) + t.ring.queue == Rows(t.taken) + [row] + t.ring.queue[1..];
    }
  }

  lemma RowsAppend(os: seq<Outcome>, o: Outcome)
    ensures Rows(os + [o]) == Rows(os) + [o.row]
  {
    assert (os + [o])[..|os|] == os;
  }

  lemma NextKeepsInv(t: Timer, e: Event, timeoutUs: nat)
    requires Inv(t) && Proper(e)
    ensures Inv(Next(t, e, timeoutUs))
  {
    if e.Packet? {
      PacketKeepsInv(t, e, timeoutUs);
    } else if e.Alarm? {
      AlarmKeepsInv(t, e, timeoutUs);
    }
  }

  /**
   Over any interleaving of packets, alarms and disconnects: the rows taken off, in order, followed by the rows in the
   ring are the rows accepted since the last disconnect; and a full ring whose timer is not running means that no
   alarm could be claimed.
   */
  lemma {:induction false} RunKeepsInv(es: seq<Event>, timeoutUs: nat)
    requires forall i :: 0 <= i < |es| ==> Proper(es[i])
    ensures Inv(Run(es, timeoutUs))
  {
    hide Next;
    if es != [] {
      RunKeepsInv(es[..|es| - 1], timeoutUs);
      NextKeepsInv(Run(es[..|es| - 1], timeoutUs), es[|es| - 1], timeoutUs);
    }
  }

  /** The event is a packet that passes the gate, and puts the third row into a ring that is not running. */
  predicate Primes(t: Timer, e: Event, n: Timer) {
    e.Packet? && !n.gate.error && !t.ring.started && |t.ring.queue| == SLOTS - 1
  }

  /** The event is a tick of the held alarm. */
  predicate Ticks(t: Timer, e: Event) {
    e.Alarm? && e.number == t.ring.alarm
  }

  /**
   What one event does. Rows: a packet that passes the gate adds its row, or is refused exactly when the ring is full; a
   tick of the held alarm takes the oldest row off. Timer: it starts only on the third row, with an alarm held or to be
   had, and stops by itself only at a tick on an empty ring; whenever it starts or takes a row off, the next tick is set
   one period ahead. Flags: overflow tells whether the last packet that passed was refused; underflow is raised by
   stopping and lowered by the third row. A disconnect clears everything.
   */
  ghost predicate Rules(t: Timer, e: Event, n: Timer) {
    && (e.Packet? && !n.gate.error ==>
          && (n.refused == t.refused + 1 <==> |t.ring.queue| == SLOTS)
          && (n.refused == t.refused + 1 <==> n.ring.overflow)
          && n.ring.queue == (if n.ring.overflow then t.ring.queue else t.ring.queue + [e.row]))
    && (e.Packet? && n.gate.error ==> n.ring == t.ring)
    && (Ticks(t, e) && t.ring.queue != [] ==>
          n.ring.queue == t.ring.queue[1..] && n.taken == t.taken + [Outcome(t.ring.queue[0], !t.gate.error)])
    && (e.Alarm? && (!Ticks(t, e) || t.ring.queue == []) ==> n.taken == t.taken && n.ring.queue == t.ring.queue)
    && (!t.ring.started && n.ring.started <==> Primes(t, e, n) && (t.ring.alarm >= 0 || e.free >= 0))
    && (t.ring.started && !n.ring.started <==> t.ring.started && ((Ticks(t, e) && t.ring.queue == []) || e.Disconnect?))
    && (!e.Disconnect? && (n.taken != t.taken || (!t.ring.started && n.ring.started)) ==>
          n.ring.deadline == e.nowUs + n.ring.period)
    && (n.ring.alarm == if e.Disconnect? then -1
                        else if Primes(t, e, n) && t.ring.alarm < 0 then e.free else t.ring.alarm)
    && (n.ring.overflow != t.ring.overflow ==> (e.Packet? && !n.gate.error) || e.Disconnect?)
    && (n.ring.underflow == if Ticks(t, e) && t.ring.queue == [] then true
                            else if Primes(t, e, n) || e.Disconnect? then false else t.ring.underflow)
    && (e.Disconnect? ==> n.ring.queue == [] && !n.ring.started && !n.ring.overflow && !n.gate.error)
  }

  lemma StepRules(t: Timer, e: Event, timeoutUs: nat)
    requires Inv(t) && Proper(e)
    ensures Rules(t, e, Next(t, e, timeoutUs))
  {
    hide Smooth, Measured;
  }

  /** Packets since the last disconnect that passed the gate. */
  function Admitted(es: seq<Event>, timeoutUs: nat): nat {
    if es == [] || es[|es| - 1].Disconnect? then 0
    else
      Admitted(es[..|es| - 1], timeoutUs)
      + if es[|es| - 1].Packet? && !Run(es, timeoutUs).gate.error then 1 else 0
  }

  /**
   The rules hold at every step of every run; and since the last disconnect every packet that passed the gate was
   accepted or refused, once.
   */
  lemma {:induction false} RunRules(es: seq<Event>, timeoutUs: nat)
    requires forall i :: 0 <= i < |es| ==> Proper(es[i])
    ensures var t := Run(es, timeoutUs); |t.accepted| + t.refused == Admitted(es, timeoutUs)
    ensures es != [] ==> Rules(Run(es[..|es| - 1], timeoutUs), es[|es| - 1], Run(es, timeoutUs))
  {
    hide Rules, Smooth, Measured;
    if es != [] {
      var before, e := es[..|es| - 1], es[|es| - 1];
      RunRules(before, timeoutUs);
      RunKeepsInv(before, timeoutUs);
      StepRules(Run(before, timeoutUs), e, timeoutUs);
    }
  }

  // ---------- a ring without an alarm ----------

  ghost predicate Undisturbed(es: seq<Event>) {
    forall i :: 0 <= i < |es| ==> Proper(es[i]) && !es[i].Disconnect?
  }

  /** After a failed claim the full ring is dead: it refuses every later row and yields none, until a disconnect. */
  lemma {:induction false} DeadWithoutAlarm(t: Timer, es: seq<Event>, timeoutUs: nat)
    requires Inv(t) && |t.ring.queue| == SLOTS && !t.ring.started && Undisturbed(es)
    ensures var n := Continue(t, es, timeoutUs);
            n.ring.queue == t.ring.queue && n.taken == t.taken && n.accepted == t.accepted
    decreases |es|
  {
    hide Smooth, Measured;
    if es != [] {
      var t1 := Next(t, es[0], timeoutUs);
      NextKeepsInv(t, es[0], timeoutUs);
      assert t1.ring.queue == t.ring.queue && !t1.ring.started && t1.taken == t.taken && t1.accepted == t.accepted;
      DeadWithoutAlarm(t1, es[1..], timeoutUs);
    }
  }

  /** A full ring that holds an alarm is running, and yields its oldest row at that alarm's tick. */
  lemma LiveWithAlarm(t: Timer, nowUs: nat, timeoutUs: nat)
    requires Inv(t) && |t.ring.queue| == SLOTS && t.ring.alarm >= 0
    ensures t.ring.started
    ensures Next(t, Alarm(t.ring.alarm, nowUs), timeoutUs).taken
         == t.taken + [Outcome(t.ring.queue[0], !t.gate.error)]
  {
  }

  /** So a full ring is dead until a disconnect exactly when it holds no alarm. */
  lemma DeadIffNoAlarm(t: Timer, timeoutUs: nat)
    requires Inv(t) && |t.ring.queue| == SLOTS
    ensures t.ring.alarm < 0 <==> forall es | Undisturbed(es) :: Continue(t, es, timeoutUs).taken == t.taken
  {
    hide Next, Continue;
    if t.ring.alarm < 0 {
      forall es | Undisturbed(es)
        ensures Continue(t, es, timeoutUs).taken == t.taken
      {
        DeadWithoutAlarm(t, es, timeoutUs);
      }
    } else {
      var e := Alarm(t.ring.alarm, 0);
      LiveWithAlarm(t, 0, timeoutUs);
      Continues(t, [e], timeoutUs);
      Continues0(Next(t, e, timeoutUs), timeoutUs);
      assert [e][1..] == [] && Undisturbed([e]);
    }
  }

  lemma Continues0(t: Timer, timeoutUs: nat)
    ensures Continue(t, [], timeoutUs) == t
  {
  }

  /** The dead state is reached by three packets, when no alarm can be claimed at the third. */
  lemma DeadReached(row: Commands, timeoutUs: nat)
    ensures var e := Packet(true, row, 0, -1);
            var t := Continue(POWER_ON, [e, e, e], timeoutUs);
            Inv(t) && |t.ring.queue| == SLOTS && t.ring.alarm < 0 && !t.ring.started
  {
    hide Smooth, Rows;
    var e := Packet(true, row, 0, -1);
    assert Rows([]) == [] by { NoRows(); }
    var t1 := Next(POWER_ON, e, timeoutUs);
    var t2 := Next(t1, e, timeoutUs);
    var t3 := Next(t2, e, timeoutUs);
    assert t3.ring.queue == [row, row, row] && t3.accepted == [row, row, row] && t3.taken == [];
    assert [e, e, e][1..] == [e, e] && [e, e][1..] == [e] && [e][1..] == [];
    Continues(POWER_ON, [e, e, e], timeoutUs);
    Continues(t1, [e, e], timeoutUs);
    Continues(t2, [e], timeoutUs);
    Continues0(t3, timeoutUs);
  }

  lemma NoRows()
    ensures Rows([]) == []
  {
  }

  function Continue(t: Timer, es: seq<Event>, timeoutUs: nat): Timer
    decreases |es|
  {
    if es == [] then t else Continue(Next(t, es[0], timeoutUs), es[1..], timeoutUs)
  }

  // ---------- rows that meet a shut gate ----------

  /** Whether each packet since the last disconnect was good. */
  function Goods(es: seq<Event>): seq<bool> {
    if es == [] || es[|es| - 1].Disconnect? then []
    else Goods(es[..|es| - 1]) + if es[|es| - 1].Packet? then [es[|es| - 1].good] else []
  }

  lemma {:induction false} GoodsJoin(a: seq<Event>, b: seq<Event>)
    requires forall i :: 0 <= i < |b| ==> !b[i].Disconnect?
    ensures Goods(a + b) == Goods(a) + Goods(b)
  {
    if b == [] {
      assert a + b == a;
    } else {
      GoodsJoin(a, b[..|b| - 1]);
      assert (a + b)[..|a + b| - 1] == a + b[..|b| - 1];
    }
  }

  /** The gate of a run is that of the packets since the last disconnect, but for a count left behind by it. */
  lemma {:induction false} GateFollows(es: seq<Event>, timeoutUs: nat) returns (left: ChecksumGate.Gate)
    ensures Run(es, timeoutUs).gate == ChecksumGate.From(left.(error := false), Goods(es))
  {
    hide Smooth, Measured, Enqueue, Tick;
    if es == [] {
      left := ChecksumGate.OPEN;
    } else {
      var before, e := es[..|es| - 1], es[|es| - 1];
      left := GateFollows(before, timeoutUs);
      if e.Disconnect? {
        left := Run(before, timeoutUs).gate;
      } else if e.Packet? {
        assert Goods(es)[..|Goods(es)| - 1] == Goods(before);
      } else {
        assert Goods(es) == Goods(before);
      }
    }
  }

  /** At every point of every run the gate is shut exactly if one of the last ten packets since a disconnect is bad. */
  lemma GateIsWindow(es: seq<Event>, timeoutUs: nat)
    ensures Run(es, timeoutUs).gate.error <==> ChecksumGate.BadWithin(Goods(es), ChecksumGate.RECOVERY)
  {
    hide Run, Goods;
    var left := GateFollows(es, timeoutUs);
    ChecksumGate.DisconnectForgets(left, Goods(es));
    ChecksumGate.SlidingWindow(Goods(es));
  }

  lemma {:induction false} AcceptedGrows(a: seq<Event>, b: seq<Event>, timeoutUs: nat)
    requires forall i :: 0 <= i < |b| ==> !b[i].Disconnect?
    ensures Run(a, timeoutUs).accepted <= Run(a + b, timeoutUs).accepted
  {
    hide Smooth, Measured, Enqueue, Tick;
    if b == [] {
      assert a + b == a;
    } else {
      AcceptedGrows(a, b[..|b| - 1], timeoutUs);
      assert (a + b)[..|a + b| - 1] == a + b[..|b| - 1];
    }
  }

  /**
   The fate of an accepted row, in every run: when its tick comes it is executed, or lost with no flag; lost exactly if
   a bad packet arrived after it and is among the last ten. `later` is what happened between the row's packet and its
   tick, which takes it off since as many rows were taken before it as were accepted before it.
   */
  lemma RowFate(before: seq<Event>, packet: Event, later: seq<Event>, nowUs: nat, timeoutUs: nat)
    requires forall i :: 0 <= i < |before| ==> Proper(before[i])
    requires Proper(packet) && packet.Packet? && Undisturbed(later)
    requires Run(before + [packet], timeoutUs).accepted == Run(before, timeoutUs).accepted + [packet.row]
    requires var t := Run(before + [packet] + later, timeoutUs);
             |t.taken| == |Run(before, timeoutUs).accepted| && t.ring.alarm >= 0 && t.ring.queue != []
    ensures var t := Run(before + [packet] + later, timeoutUs);
            var executed := !ChecksumGate.BadWithin(Goods(later), ChecksumGate.RECOVERY);
            Run(before + [packet] + later + [Alarm(t.ring.alarm, nowUs)], timeoutUs).taken
            == t.taken + [Outcome(packet.row, executed)]
  {
    hide Run, Goods, Rows, ChecksumGate.BadWithin;
    var first := before + [packet];
    var es := first + later;
    var t := Run(es, timeoutUs);
    RunKeepsInv(es, timeoutUs);
    RowsLength(t.taken);
    AcceptedGrows(first, later, timeoutUs);
    assert t.accepted[|t.taken|] == packet.row == t.ring.queue[0];
    AcceptedOpen(before, packet, timeoutUs);
    GateIsWindow(first, timeoutUs);
    GateIsWindow(es, timeoutUs);
    GoodsJoin(first, later);
    ChecksumGate.OnlyLater(Goods(first), Goods(later));
    RunOne(es, Alarm(t.ring.alarm, nowUs), timeoutUs);
  }

  lemma RunOne(es: seq<Event>, e: Event, timeoutUs: nat)
    ensures Run(es + [e], timeoutUs) == Next(Run(es, timeoutUs), e, timeoutUs)
  {
    hide Next;
    assert (es + [e])[..|es|] == es;
  }

  lemma AcceptedOpen(before: seq<Event>, packet: Event, timeoutUs: nat)
    requires packet.Packet?
    requires Run(before + [packet], timeoutUs).accepted == Run(before, timeoutUs).accepted + [packet.row]
    ensures !Run(before + [packet], timeoutUs).gate.error
  {
    hide Run, Enqueue;
    RunOne(before, packet, timeoutUs);
  }

  lemma {:induction false} RowsLength(os: seq<Outcome>)
    ensures |Rows(os)| == |os|
  {
    if os != [] {
      RowsLength(os[..|os| - 1]);
    }
  }

  /** So in timer mode accepted rows can be lost with no flag: here a bad packet arrives before the first tick. */
  lemma TimerModeLosesRows(row: Commands)
    ensures var es := [Packet(true, row, 1000, 0), Packet(true, row, 2000, 0), Packet(true, row, 3000, 0),
                       Packet(false, row, 4000, 0), Alarm(0, 4100)];
            var t := Continue(POWER_ON, es, 100000);
            t.accepted == [row, row, row] && t.taken == [Outcome(row, false)] && t.refused == 0 && !t.ring.overflow
  {
    hide Smooth, Measured;
    var t1 := Next(POWER_ON, Packet(true, row, 1000, 0), 100000);
    var t2 := Next(t1, Packet(true, row, 2000, 0), 100000);
    var t3 := Next(t2, Packet(true, row, 3000, 0), 100000);
    assert t3.ring.queue == [row, row, row] && t3.ring.started && t3.ring.alarm == 0 && t3.accepted == [row, row, row];
    var t4 := Next(t3, Packet(false, row, 4000, 0), 100000);
    var t5 := Next(t4, Alarm(0, 4100), 100000);
    assert t5.taken == [Outcome(row, false)];
    Continues(POWER_ON, [Packet(true, row, 1000, 0), Packet(true, row, 2000, 0), Packet(true, row, 3000, 0),
                         Packet(false, row, 4000, 0), Alarm(0, 4100)], 100000);
    Continues(t1, [Packet(true, row, 2000, 0), Packet(true, row, 3000, 0), Packet(false, row, 4000, 0),
                   Alarm(0, 4100)], 100000);
    Continues(t2, [Packet(true, row, 3000, 0), Packet(false, row, 4000, 0), Alarm(0, 4100)], 100000);
    Continues(t3, [Packet(false, row, 4000, 0), Alarm(0, 4100)], 100000);
    Continues(t4, [Alarm(0, 4100)], 100000);
  }

  lemma Continues(t: Timer, es: seq<Event>, timeoutUs: nat)
    requires es != []
    ensures Continue(t, es, timeoutUs) == Continue(Next(t, es[0], timeoutUs), es[1..], timeoutUs)
  {
  }

  // ---------- the period, from event times ----------

  /** Event i is a packet that passes the gate: none of it and the nine before it since the disconnect is bad. */
  ghost predicate Passes(es: seq<Event>, i: nat)
    requires i < |es|
  {
    es[i].Packet? && !ChecksumGate.BadWithin(Goods(es[..i + 1]), ChecksumGate.RECOVERY)
  }

  /** The last packet of a run that passed since the last disconnect, or -1. */
  ghost function LastPassed(es: seq<Event>): (i: int)
    ensures -1 <= i < |es| && (i >= 0 ==> es[i].Packet?)
  {
    if es == [] || es[|es| - 1].Disconnect? then -1
    else if Passes(es, |es| - 1) then |es| - 1
    else LastPassed(es[..|es| - 1])
  }

  lemma PassesOpen(es: seq<Event>, timeoutUs: nat)
    requires es != [] && es[|es| - 1].Packet?
    ensures Passes(es, |es| - 1) <==> !Run(es, timeoutUs).gate.error
  {
    assert es[..|es|] == es;
    GateIsWindow(es, timeoutUs);
  }

  /** What an event does to the period and to the time of the last packet. */
  lemma NextTimes(t: Timer, e: Event, timeoutUs: nat)
    ensures var n := Next(t, e, timeoutUs);
            && n.ring.period == (if e.Packet? && !n.gate.error && Measured(t.ring, e.nowUs, timeoutUs) >= 0
                                 then Smooth(t.ring.period, Measured(t.ring, e.nowUs, timeoutUs)) else t.ring.period)
            && n.ring.lastUs == (if e.Disconnect? then 0
                                 else if e.Packet? && !n.gate.error then U32(e.nowUs) else t.ring.lastUs)
  {
    hide Smooth, Measured;
  }

  lemma {:induction false} LastTime(es: seq<Event>, timeoutUs: nat)
    ensures var i := LastPassed(es); Run(es, timeoutUs).ring.lastUs == if i < 0 then 0 else U32(es[i].nowUs)
  {
    hide Next, Passes;
    if es != [] {
      var before, e := es[..|es| - 1], es[|es| - 1];
      LastTime(before, timeoutUs);
      NextTimes(Run(before, timeoutUs), e, timeoutUs);
      if e.Packet? {
        PassesOpen(es, timeoutUs);
      } else {
        assert !Passes(es, |es| - 1) by { OnlyPackets(es); }
      }
    }
  }

  lemma OnlyPackets(es: seq<Event>)
    requires es != [] && !es[|es| - 1].Packet?
    ensures !Passes(es, |es| - 1)
  {
  }

  /**
   In every run, from the times of the events alone. If a packet passes the gate at t1, the last one that passed since
   the disconnect came at t0, not at 0 modulo 2^32, less than 2^32 before, and 50 < t1 - t0 < timeout, the new period is
   (3p + (t1 - t0) + 2) / 4, in 32-bit arithmetic. Otherwise, at a first packet, a spacing out of these bounds, a packet
   that does not pass, a tick or a disconnect, it stays.
   */
  lemma PeriodFollows(es: seq<Event>, timeoutUs: nat)
    requires es != []
    ensures var n := |es| - 1;
            var before, e, i := es[..n], es[n], LastPassed(es[..n]);
            var p, p1 := Run(before, timeoutUs).ring.period, Run(es, timeoutUs).ring.period;
            && (!Passes(es, n) || i < 0 || U32(es[i].nowUs) == 0 ==> p1 == p)
            && (Passes(es, n) && i >= 0 && U32(es[i].nowUs) != 0 && 0 <= e.nowUs - es[i].nowUs < WORD ==>
                  var m := e.nowUs - es[i].nowUs;
                  p1 == if 50 < m < timeoutUs then U32(3 * p + m + 2) / 4 else p)
  {
    hide Next, Passes, LastPassed;
    var n := |es| - 1;
    var before, e := es[..n], es[n];
    var t := Run(before, timeoutUs);
    LastTime(before, timeoutUs);
    NextTimes(t, e, timeoutUs);
    if e.Packet? {
      PassesOpen(es, timeoutUs);
      var i := LastPassed(before);
      if i >= 0 && U32(es[i].nowUs) != 0 && 0 <= e.nowUs - es[i].nowUs < WORD {
        assert before[i] == es[i];
        MeasuresSpacing(t.ring, es[i].nowUs, e.nowUs, timeoutUs);
      }
    } else {
      OnlyPackets(es);
    }
  }

  // ---------- the smoothed period ----------

  /** Every spacing the run takes into account lies in [lo, hi]. */
  ghost predicate SpacingsWithin(es: seq<Event>, timeoutUs: nat, lo: nat, hi: nat) {
    forall i :: 0 <= i < |es| && es[i].Packet? ==>
      var m := Measured(Run(es[..i], timeoutUs).ring, es[i].nowUs, timeoutUs);
      m < 0 || lo <= m <= hi
  }

  lemma SmoothWithin(period: nat, m: nat, lo: nat, hi: nat)
    requires lo <= period <= hi < 0x4000_0000 && lo <= m <= hi
    ensures lo <= Smooth(period, m) <= hi
  {
    assert U32(period * 3 + m + 2) == period * 3 + m + 2;
  }

  lemma NextPeriod(t: Timer, e: Event, timeoutUs: nat)
    ensures var p := Next(t, e, timeoutUs).ring.period;
            p == t.ring.period
            || (e.Packet? && var m := Measured(t.ring, e.nowUs, timeoutUs); m >= 0 && p == Smooth(t.ring.period, m))
  {
    hide Smooth, Measured;
  }

  /** The tick period stays within the bounds of its initial value and the spacings taken into account. */
  lemma {:induction false} PeriodWithin(es: seq<Event>, timeoutUs: nat, lo: nat, hi: nat)
    requires lo <= INITIAL.period <= hi < 0x4000_0000 && SpacingsWithin(es, timeoutUs, lo, hi)
    ensures lo <= Run(es, timeoutUs).ring.period <= hi
  {
    hide Next, Smooth, Measured;
    if es != [] {
      var before, e := es[..|es| - 1], es[|es| - 1];
      assert forall i :: 0 <= i < |before| ==> before[..i] == es[..i];
      PeriodWithin(before, timeoutUs, lo, hi);
      var t := Run(before, timeoutUs);
      NextPeriod(t, e, timeoutUs);
      if t.ring.period != Run(es, timeoutUs).ring.period {
        SmoothWithin(t.ring.period, Measured(t.ring, e.nowUs, timeoutUs), lo, hi);
      }
    }
  }

  /** Under a steady spacing m the period rests exactly on m-1..m+2, and from elsewhere moves strictly towards it. */
  lemma SteadySpacing(period: nat, m: nat)
    requires period < 0x4000_0000 && m < 0x4000_0000
    ensures Smooth(period, m) == period <==> m <= period + 1 && period <= m + 2
    ensures period > m + 2 ==> m + 2 <= Smooth(period, m) < period
    ensures period + 1 < m ==> period < Smooth(period, m) <= m - 1
  {
    assert U32(period * 3 + m + 2) == period * 3 + m + 2;
  }

  /** Ticks, and good packets m apart, the one before the first at t0. */
  ghost predicate Steady(t0: nat, m: nat, es: seq<Event>)
    decreases |es|
  {
    es == []
    || (es[0].Alarm? && Steady(t0, m, es[1..]))
    || (es[0].Packet? && es[0].good && es[0].nowUs == t0 + m && Steady(t0 + m, m, es[1..]))
  }

  /** Spacings such a run takes into account: all but those that begin at a clock reading of 0. */
  function Readings(t0: nat, es: seq<Event>): nat
    decreases |es|
  {
    if es == [] then 0
    else if es[0].Packet? then Readings(es[0].nowUs, es[1..]) + if U32(t0) != 0 then 1 else 0
    else Readings(t0, es[1..])
  }

  /** Steps from a period to the interval it rests in, one at a time. */
  function Distance(period: nat, m: nat): nat {
    if period > m + 2 then period - (m + 2) else if period + 1 < m then m - 1 - period else 0
  }

  lemma SmoothNears(period: nat, m: nat)
    requires period < 0x4000_0000 && m < 0x4000_0000
    ensures Smooth(period, m) < 0x4000_0000
    ensures Distance(period, m) == 0 ==> Distance(Smooth(period, m), m) == 0
    ensures Distance(period, m) > 0 ==> Distance(Smooth(period, m), m) < Distance(period, m)
  {
    assert U32(period * 3 + m + 2) == period * 3 + m + 2;
  }

  /**
   Under a steady spacing m within the bounds, with any ticks between, the period of the run reaches m-1..m+2 within as
   many readings as it is away from it, and stays there.
   */
  lemma {:induction false} SteadyRun(t: Timer, t0: nat, m: nat, es: seq<Event>, timeoutUs: nat)
    requires !t.gate.error && t.ring.lastUs == U32(t0) && t.ring.period < 0x4000_0000
    requires 50 < m < timeoutUs && m < 0x4000_0000 && Steady(t0, m, es)
    ensures var p := Continue(t, es, timeoutUs).ring.period;
            && Distance(p, m) <= Distance(t.ring.period, m)
            && (Readings(t0, es) >= Distance(t.ring.period, m) ==> m - 1 <= p <= m + 2)
    decreases |es|
  {
    hide Next, Smooth, Measured, Distance;
    DistanceZero(Continue(t, es, timeoutUs).ring.period, m);
    if es != [] {
      var n := Next(t, es[0], timeoutUs);
      NextTimes(t, es[0], timeoutUs);
      StaysOpen(t, es[0], timeoutUs);
      Continues(t, es, timeoutUs);
      if es[0].Packet? {
        if U32(t0) != 0 {
          MeasuresSpacing(t.ring, t0, t0 + m, timeoutUs);
          SmoothNears(t.ring.period, m);
        } else {
          assert Measured(t.ring, es[0].nowUs, timeoutUs) < 0 by { NothingMeasured(t.ring, es[0].nowUs, timeoutUs); }
        }
        SteadyRun(n, t0 + m, m, es[1..], timeoutUs);
      } else {
        SteadyRun(n, t0, m, es[1..], timeoutUs);
      }
    }
  }

  /**
   So in a run from power-on, once a packet has passed at t0 and packets m apart follow, with any ticks between: the
   period reaches m-1..m+2 within as many readings as it is away from it, and stays there.
   */
  lemma RunSettles(es: seq<Event>, m: nat, more: seq<Event>, timeoutUs: nat)
    requires es != [] && Passes(es, |es| - 1) && Steady(es[|es| - 1].nowUs, m, more)
    requires 50 < m < timeoutUs <= 0x4000_0000
    ensures var p0, p := Run(es, timeoutUs).ring.period, Run(es + more, timeoutUs).ring.period;
            && Distance(p, m) <= Distance(p0, m)
            && (Readings(es[|es| - 1].nowUs, more) >= Distance(p0, m) ==> m - 1 <= p <= m + 2)
  {
    hide Next, Passes, Steady, Readings, Distance;
    OnlyPacketsPass(es);
    var t0 := es[|es| - 1].nowUs;
    LastTime(es, timeoutUs);
    PassesOpen(es, timeoutUs);
    PeriodBounded(es, timeoutUs);
    SteadyRun(Run(es, timeoutUs), t0, m, more, timeoutUs);
    RunContinues(es, more, timeoutUs);
  }

  lemma OnlyPacketsPass(es: seq<Event>)
    requires es != [] && Passes(es, |es| - 1)
    ensures es[|es| - 1].Packet? && LastPassed(es) == |es| - 1
  {
  }

  lemma {:induction false} RunContinues(es: seq<Event>, more: seq<Event>, timeoutUs: nat)
    ensures Run(es + more, timeoutUs) == Continue(Run(es, timeoutUs), more, timeoutUs)
    decreases |more|
  {
    hide Next;
    if more == [] {
      assert es + more == es;
    } else {
      assert es + [more[0]] + more[1..] == es + more;
      RunOne(es, more[0], timeoutUs);
      RunContinues(es + [more[0]], more[1..], timeoutUs);
    }
  }

  /** Only spacings below the timeout are taken into account. */
  lemma PeriodBounded(es: seq<Event>, timeoutUs: nat)
    requires timeoutUs <= 0x4000_0000
    ensures Run(es, timeoutUs).ring.period < 0x4000_0000
  {
    hide Run, Smooth;
    PeriodWithin(es, timeoutUs, 0, 0x4000_0000 - 1);
  }

  lemma DistanceZero(period: nat, m: nat)
    ensures Distance(period, m) == 0 <==> m - 1 <= period <= m + 2
  {
  }

  lemma NothingMeasured(s: RingState, nowUs: nat, timeoutUs: nat)
    requires s.lastUs == 0
    ensures Measured(s, nowUs, timeoutUs) < 0
  {
  }

  lemma StaysOpen(t: Timer, e: Event, timeoutUs: nat)
    requires !t.gate.error && (e.Alarm? || (e.Packet? && e.good))
    ensures !Next(t, e, timeoutUs).gate.error
  {
    hide Enqueue, Tick;
  }
}
