/**
 All axes together: hosts, packets with a word for every axis, gate, ring and state machines, in both modes; the timer
 mode's handlers as the code runs them; and the proof that every axis, seen alone, is a run of the step pipeline.
 */
module StepSystem {
  import opened Bits
  import opened PioMachine
  import opened StepProgram
  import opened StepAccount
  import opened StepHost
  import opened StepFirmware
  import P = StepPipeline
  import ChecksumGate
  import StepRing

  type Row = seq<nat>

  /** What is common to the axes, and which of them are inverted. */
  datatype Setup = Setup(common: P.Config, inverted: seq<bool>)

  function AxisConfig(s: Setup, i: nat): P.Config
    requires i < |s.inverted|
  {
    s.common.(inverted := s.inverted[i])
  }

  datatype System = System(hosts: seq<Axis>, wire: seq<Row>, gate: ChecksumGate.Gate, ring: StepRing.RingState,
                           channels: seq<Channel>, phase: P.Phase)

  datatype Event =
    | Send(requests: seq<Request>)
    | Deliver(good: bool, gaps: (nat, nat) -> nat, nowUs: nat, free: int)
    | Miss
    | ReadFlags
    | ClearFlags
    | Alarm(number: int, nowUs: nat, gaps: (nat, nat) -> nat)
    | Disconnect
    | Execute(instructions: nat -> nat)

  // ---------- one event ----------

  ghost predicate Sized(s: Setup, y: System) {
    && |y.hosts| == |y.channels| == |s.inverted| && |s.common.table| == TABLE
    && (forall k :: 0 <= k < |y.wire| ==> |y.wire[k]| == |s.inverted|)
    && (forall k :: 0 <= k < |y.ring.queue| ==> |y.ring.queue[k]| == |s.inverted|)
  }

  /** A row applied to every axis. */
  function ApplyRow(s: Setup, cs: seq<Channel>, row: Row, gaps: (nat, nat) -> nat): (r: seq<Channel>)
    requires |cs| == |row| == |s.inverted|
    ensures |r| == |cs|
  {
    seq(|cs|, i requires 0 <= i < |cs| => Offer(s.common.t, s.inverted[i], cs[i], row[i], k => gaps(i, k)))
  }

  function Apply(s: Setup, y: System, row: Row, gaps: (nat, nat) -> nat): System
    requires |y.channels| == |row| == |s.inverted|
  {
    if y.gate.error then y else y.(channels := ApplyRow(s, y.channels, row, gaps))
  }

  function SendAll(s: Setup, y: System, requests: seq<Request>): System
    requires |requests| == |y.hosts| && |s.common.table| == TABLE
  {
    var n := |requests|;
    y.(hosts := seq(n, i requires 0 <= i < n => Cycle(y.hosts[i], requests[i], s.common.table).0),
       wire := y.wire + [seq(n, i requires 0 <= i < n => Cycle(y.hosts[i], requests[i], s.common.table).1)])
  }

  function Arrive(s: Setup, y: System, e: Event): System
    requires e.Deliver? && y.wire != [] && |y.wire[0]| == |y.channels| == |s.inverted|
  {
    var z := y.(wire := y.wire[1..], gate := ChecksumGate.Next(y.gate, e.good), phase := P.Reporting);
    if z.gate.error then z
    else if s.common.timerMode then
      z.(ring := StepRing.Enqueue(y.ring, y.wire[0], e.nowUs, s.common.timeoutUs, e.free))
    else Apply(s, z, y.wire[0], e.gaps)
  }

  function Tick(s: Setup, y: System, e: Event): System
    requires e.Alarm? && Sized(s, y)
  {
    var (r, popped) := StepRing.Tick(y.ring, e.number, e.nowUs);
    if popped.Commands? then Apply(s, y.(ring := r), y.ring.queue[0], e.gaps) else y.(ring := r)
  }

  function Next(s: Setup, y: System, e: Event): System
    requires Sized(s, y)
  {
    match e
    case Send(requests) => if |requests| == |y.hosts| then SendAll(s, y, requests) else y
    case Deliver(_, _, _, _) => if y.wire == [] || !y.phase.Waiting? then y else Arrive(s, y, e)
    case Miss => if y.wire == [] then y else y.(wire := y.wire[1..])
    case ReadFlags => if y.phase.Reporting? then y.(phase := P.Clearing) else y
    case ClearFlags =>
      if y.phase.Clearing? then
        y.(phase := P.Waiting,
           channels := seq(|y.channels|, i requires 0 <= i < |y.channels| => y.channels[i].(overflow := false)))
      else y
    case Alarm(_, _, _) => if s.common.timerMode then Tick(s, y, e) else y
    case Disconnect => y.(ring := StepRing.Stop(y.ring), gate := y.gate.(error := false))
    case Execute(ns) =>
      y.(channels := seq(|y.channels|, i requires 0 <= i < |y.channels| =>
                                         y.channels[i].(sm := Steps(s.common.t, y.channels[i].sm, ns(i)))))
  }

  lemma NextSized(s: Setup, y: System, e: Event)
    requires Sized(s, y)
    ensures Sized(s, Next(s, y, e))
  {
    hide Cycle, Offer, Steps, StepRing.Smooth, StepRing.Measured;
  }

  // ---------- one axis ----------

  /** Axis i's words of some rows. */
  function Column(rows: seq<Row>, i: nat): (c: seq<nat>)
    requires forall k :: 0 <= k < |rows| ==> i < |rows[k]|
    ensures |c| == |rows|
  {
    seq(|rows|, k requires 0 <= k < |rows| => rows[k][i])
  }

  /** The ring as axis i sees it. */
  function Slice(ring: StepRing.RingState, i: nat): StepRing.RingState
    requires forall k :: 0 <= k < |ring.queue| ==> i < |ring.queue[k]|
  {
    ring.(queue := seq(|ring.queue|, k requires 0 <= k < |ring.queue| => [ring.queue[k][i]]))
  }

  function AxisEvent(e: Event, i: nat): P.Event {
    match e
    case Send(requests) => P.Send(if i < |requests| then requests[i] else Disabled)
    case Deliver(good, gaps, nowUs, free) => P.Deliver(good, k => gaps(i, k), nowUs, free)
    case Miss => P.Miss
    case ReadFlags => P.ReadFlag
    case ClearFlags => P.ClearFlag
    case Alarm(number, nowUs, gaps) => P.Alarm(number, nowUs, k => gaps(i, k))
    case Disconnect => P.Disconnect
    case Execute(ns) => P.Execute(ns(i))
  }

  function AxisEvents(es: seq<Event>, i: nat): (r: seq<P.Event>)
    ensures |r| == |es|
  {
    seq(|es|, k requires 0 <= k < |es| => AxisEvent(es[k], i))
  }

  /** p is axis i of the system. */
  ghost predicate IsAxis(s: Setup, y: System, i: nat, p: P.Pipe) {
    && Sized(s, y) && i < |s.inverted|
    && p.host == y.hosts[i] && p.wire == Column(y.wire, i) && p.gate == y.gate && p.ring == Slice(y.ring, i)
    && p.channel == y.channels[i] && p.phase == y.phase
  }

  lemma TickSlices(ring: StepRing.RingState, i: nat, number: int, nowUs: nat)
    requires forall k :: 0 <= k < |ring.queue| ==> i < |ring.queue[k]|
    ensures var (r, p) := StepRing.Tick(ring, number, nowUs);
            var (r1, p1) := StepRing.Tick(Slice(ring, i), number, nowUs);
            && (p.Nothing? ==> p1.Nothing? && r.queue == ring.queue && r1 == r.(queue := Slice(ring, i).queue))
            && (p.Commands? ==> ring.queue != [] && p.row == ring.queue[0] && p1 == StepRing.Popped.Commands([p.row[i]])
                                && r.queue == ring.queue[1..] && r1 == Slice(r, i))
  {
  }

  lemma EnqueueSlices(ring: StepRing.RingState, i: nat, row: Row, nowUs: nat, timeoutUs: nat, free: int)
    requires (forall k :: 0 <= k < |ring.queue| ==> i < |ring.queue[k]|) && i < |row|
    ensures var r := StepRing.Enqueue(ring, row, nowUs, timeoutUs, free);
            && (r.queue == ring.queue || r.queue == ring.queue + [row])
            && StepRing.Enqueue(Slice(ring, i), [row[i]], nowUs, timeoutUs, free) == Slice(r, i)
  {
    hide StepRing.Smooth;
  }

  lemma ApplyIsAxis(s: Setup, y: System, i: nat, p: P.Pipe, row: Row, gaps: (nat, nat) -> nat)
    requires IsAxis(s, y, i, p) && |row| == |s.inverted|
    ensures IsAxis(s, Apply(s, y, row, gaps), i, P.Apply(AxisConfig(s, i), p, row[i], k => gaps(i, k)))
  {
    hide Offer, P.Dropped, Slice, Column;
  }

  lemma ArriveIsAxis(s: Setup, y: System, i: nat, p: P.Pipe, e: Event)
    requires IsAxis(s, y, i, p) && e.Deliver? && y.wire != []
    ensures IsAxis(s, Arrive(s, y, e), i, P.Arrive(AxisConfig(s, i), p, AxisEvent(e, i)))
  {
    hide Apply, P.Apply, StepRing.Enqueue, ApplyRow;
    var row, g := y.wire[0], ChecksumGate.Next(y.gate, e.good);
    var z := y.(wire := y.wire[1..], gate := g, phase := P.Reporting);
    var q := p.(wire := p.wire[1..], gate := g, phase := P.Reporting);
    assert Column(z.wire, i) == q.wire;
    if !g.error {
      if s.common.timerMode {
        EnqueueSlices(y.ring, i, row, e.nowUs, s.common.timeoutUs, e.free);
      } else {
        ApplyIsAxis(s, z, i, q, row, e.gaps);
      }
    }
  }

  lemma TickIsAxis(s: Setup, y: System, i: nat, p: P.Pipe, e: Event)
    requires IsAxis(s, y, i, p) && e.Alarm?
    ensures IsAxis(s, Tick(s, y, e), i, P.Tick(AxisConfig(s, i), p, AxisEvent(e, i)))
  {
    hide Apply, P.Apply, StepRing.Tick, ApplyRow;
    TickSlices(y.ring, i, e.number, e.nowUs);
    var (r, popped) := StepRing.Tick(y.ring, e.number, e.nowUs);
    if popped.Commands? {
      ApplyIsAxis(s, y.(ring := r), i, p.(ring := Slice(r, i)), popped.row, e.gaps);
    }
  }

  lemma SendIsAxis(s: Setup, y: System, i: nat, p: P.Pipe, requests: seq<Request>)
    requires IsAxis(s, y, i, p) && |requests| == |s.inverted|
    ensures IsAxis(s, SendAll(s, y, requests), i, P.Next(AxisConfig(s, i), p, P.Send(requests[i])))
  {
    hide Cycle, Slice, Intent, P.Fits, P.Entering;
    var z := SendAll(s, y, requests);
    assert Column(z.wire, i) == Column(y.wire, i) + [Cycle(y.hosts[i], requests[i], s.common.table).1];
  }

  /** One event of the system is one event of every axis. */
  lemma NextIsAxis(s: Setup, y: System, i: nat, p: P.Pipe, e: Event)
    requires IsAxis(s, y, i, p) && (e.Send? ==> |e.requests| == |s.inverted|)
    ensures IsAxis(s, Next(s, y, e), i, P.Next(AxisConfig(s, i), p, AxisEvent(e, i)))
  {
    hide Arrive, P.Arrive, Tick, P.Tick, SendAll, Cycle, Steps;
    NextSized(s, y, e);
    match e
    case Send(requests) => SendIsAxis(s, y, i, p, requests);
    case Deliver(_, _, _, _) =>
      if y.wire != [] && y.phase.Waiting? {
        ArriveIsAxis(s, y, i, p, e);
      }
    case Alarm(_, _, _) =>
      if s.common.timerMode {
        TickIsAxis(s, y, i, p, e);
      }
    case Miss =>
      if y.wire != [] {
        assert Column(y.wire[1..], i) == p.wire[1..];
      }
    case _ =>
  }

  // ---------- whole runs ----------

  function Run(s: Setup, y: System, es: seq<Event>): (z: System)
    requires Sized(s, y)
    ensures Sized(s, z)
  {
    if es == [] then y else
      var before := Run(s, y, es[..|es| - 1]);
      NextSized(s, before, es[|es| - 1]);
      Next(s, before, es[|es| - 1])
  }

  /**
   In every run of the whole system, in both modes, each axis is a run of the step pipeline, on the axis's share of the
   events: so everything proved of the pipeline holds of every axis.
   */
  lemma {:induction false} RunIsAxis(s: Setup, y: System, i: nat, p: P.Pipe, es: seq<Event>)
    requires IsAxis(s, y, i, p)
    requires forall k :: 0 <= k < |es| && es[k].Send? ==> |es[k].requests| == |s.inverted|
    ensures IsAxis(s, Run(s, y, es), i, P.Run(AxisConfig(s, i), p, AxisEvents(es, i)))
  {
    hide Next, P.Next;
    if es != [] {
      var before, e := es[..|es| - 1], es[|es| - 1];
      RunIsAxis(s, y, i, p, before);
      NextIsAxis(s, Run(s, y, before), i, P.Run(AxisConfig(s, i), p, AxisEvents(before, i)), e);
      assert AxisEvents(es, i)[..|es| - 1] == AxisEvents(before, i);
    }
  }

  /** Power-on. */
  ghost predicate Fresh(s: Setup, y: System) {
    && Sized(s, y) && y.wire == [] && y.gate == ChecksumGate.OPEN && y.ring == StepRing.INITIAL && y.phase.Waiting?
    && (forall i :: 0 <= i < |y.hosts| ==> y.hosts[i].lastDir == -1 && y.hosts[i].first)
    && (forall i :: 0 <= i < |y.channels| ==>
          var c := y.channels[i];
          c.position == 0 && !c.overflow && Sane(c.sm) && c.sm.pc == 0 && c.sm.tx == [] && c.sm.log == [])
  }

  lemma FreshAxis(s: Setup, y: System, i: nat) returns (p: P.Pipe)
    requires Fresh(s, y) && i < |s.inverted|
    ensures P.Start(p) && IsAxis(s, y, i, p)
  {
    p := P.Pipe(y.hosts[i], [], ChecksumGate.OPEN, StepRing.INITIAL, y.channels[i], P.Waiting,
                0, 0, 0, 0, 0, 0, 0, 0, 0, 0, 0, 0, 0, [], []);
    assert Column([], i) == [] && Slice(StepRing.INITIAL, i) == StepRing.INITIAL;
  }

  /**
   For example: at every reachable state of the whole system every axis's position is, modulo 2^32, its signed pulses
   emitted plus the signed steps in its FIFO and machine; and no FIFO is ever overrun.
   */
  lemma EveryAxis(s: Setup, y: System, i: nat, es: seq<Event>)
    requires Fresh(s, y) && i < |s.inverted| && P.ValidConfig(s.common)
    requires forall k :: 0 <= k < |es| && es[k].Send? ==> |es[k].requests| == |s.inverted|
    ensures var c := Run(s, y, es).channels[i];
            c.position == S32(Account(c.sm, s.inverted[i])) && |c.sm.tx| <= FIFO_DEPTH
  {
    hide Run, P.Run, Account, P.Start, Fresh, Slice, Column;
    var p := FreshAxis(s, y, i);
    RunIsAxis(s, y, i, p, es);
    P.RunConserves(AxisConfig(s, i), p, AxisEvents(es, i));
    P.FifoFits(AxisConfig(s, i), p, AxisEvents(es, i));
  }

  // ---------- timer mode, as the code runs it ----------

  /** The objects hold what the system says. */
  ghost predicate Shows(ring: StepRing.Ring, firmware: Firmware, s: Setup, y: System)
    reads ring, ring.ring, firmware, firmware.machines, firmware.position, firmware.overflow
  {
    && ring.Valid() && firmware.Valid() && Sized(s, y)
    && firmware.timing == s.common.t && firmware.inverted == s.inverted && ring.timeoutUs == s.common.timeoutUs
    && ring.State() == y.ring && firmware.gate == y.gate
    && forall i :: 0 <= i < |s.inverted| ==> firmware.At(i) == y.channels[i]
  }

  /** timer_callback, with the row it applies. */
  method TimerCallback(ring: StepRing.Ring, firmware: Firmware, number: int, nowUs: nat, gaps: (nat, nat) -> nat,
                       ghost s: Setup, ghost y: System)
    requires Shows(ring, firmware, s, y)
    modifies ring, firmware.machines, firmware.position, firmware.overflow
    ensures Shows(ring, firmware, s, Tick(s, y, Alarm(number, nowUs, gaps)))
  {
    hide Offer;
    var p := ring.TimerCallback(number, nowUs);
    if p.Commands? {
      firmware.ApplyCommands(p.row, gaps);
    }
  }

  /** handle_data in timer mode, up to its report: the gate, and the row into the ring. */
  method HandlePacket(ring: StepRing.Ring, firmware: Firmware, good: bool, row: Row, nowUs: nat, free: int,
                      ghost s: Setup, ghost y: System)
    requires Shows(ring, firmware, s, y) && s.common.timerMode && y.wire != [] && y.wire[0] == row && -1 <= free
    modifies ring, ring.ring, firmware`gate
    ensures Shows(ring, firmware, s, Arrive(s, y, Deliver(good, (i, k) => 0, nowUs, free)))
  {
    hide StepRing.Smooth, StepRing.Measured;
    firmware.UpdateGate(good);
    if !firmware.gate.error {
      ring.EnqueueStepgenCommands(row, nowUs, free);
    }
  }
}
