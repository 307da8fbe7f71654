/**
 One axis of the whole step pipeline, from position targets to edges: host, packets under way, checksum gate, in timer
 mode the ring, firmware accounting, FIFO and state machine. Whole-run conservation, DIR set-up and completion.
 */
module StepPipeline {
  import opened Bits
  import opened PioMachine
  import opened StepProgram
  import opened StepAccount
  import opened StepHost
  import opened StepFirmware
  import ChecksumGate
  import StepRing

  /** `timerMode` puts the ring between packets and FIFO. */
  datatype Config = Config(t: Timing, total: nat, spacing: Spacing, inverted: bool, table: seq<nat>,
                           timerMode: bool, timeoutUs: nat)

  ghost predicate ValidConfig(c: Config) {
    ValidTiming(c.t) && IsTable(c.table, c.total, c.spacing)
  }

  /** Where the packet handler stands: the report's reading and clearing of the overflow bits are separate steps. */
  datatype Phase = Waiting | Reporting | Clearing

  /** The fields from `asked` on only keep score. */
  datatype Pipe = Pipe(
    host: Axis, wire: seq<nat>, gate: ChecksumGate.Gate, ring: StepRing.RingState, channel: Channel, phase: Phase,
    asked: int,          // steps requested of the host so far
    excess: int,         // of these, steps of requests the table could not carry
    counted: int,        // the firmware's position without wrap-around
    lost: int,           // steps of words that never reached the FIFO
    missed: nat,         // packets the link never delivered
    gated: nat,          // packets and rows that met a shut gate
    crowded: nat,        // rows refused by a full ring
    cut: nat,            // disconnects that emptied the ring of rows
    dropped: nat,        // words refused by a full FIFO
    unread: nat,         // of these, those since the overflow bit was last read or cleared,
    reported: nat,       //   those covered by a reading that found it set,
    erased: nat,         //   and those whose bit was cleared without having been read
    flagged: nat,        // readings that found the bit set
    sent: seq<nat>,      // the nonzero words sent, as they enter the FIFO
    accepted: seq<nat>)  // those that entered it

  datatype Event =
    | Send(request: Request)
    | Deliver(good: bool, gaps: nat -> nat, nowUs: nat, free: int)
    | Miss
    | ReadFlag
    | ClearFlag
    | Alarm(number: int, nowUs: nat, gaps: nat -> nat)
    | Disconnect
    | Execute(instructions: nat)

  /** The request is one the timing table can carry. */
  predicate Fits(c: Config, a: Axis, r: Request) {
    Abs(Intent(a, r)) <= Capacity(c.total, c.spacing)
  }

  /** The words of the rows in the ring; a row of one axis is one word. */
  function Words(rows: seq<StepRing.Commands>): seq<nat> {
    if rows == [] then [] else rows[0] + Words(rows[1..])
  }

  /** The words between host and FIFO, oldest first. */
  function Pending(p: Pipe): seq<nat> {
    Words(p.ring.queue) + p.wire
  }

  /** The FIFO stays full for all polls of the wait. */
  predicate Dropped(c: Config, ch: Channel, w: nat, gaps: nat -> nat) {
    w != 0 && !Wait(c.t, ch.sm, gaps, 0).1
  }

  function Lose(p: Pipe, w: nat): Pipe {
    p.(lost := p.lost + WordSteps(w, false))
  }

  /** A word as it enters the FIFO; zero words do not. */
  function Entering(c: Config, w: nat): seq<nat> {
    if w == 0 then [] else [Wired(w, c.inverted)]
  }

  function Apply(c: Config, p: Pipe, w: nat, gaps: nat -> nat): Pipe {
    if p.gate.error then Lose(p, w).(gated := p.gated + 1)
    else
      var q := p.(channel := Offer(c.t, c.inverted, p.channel, w, gaps));
      if Dropped(c, p.channel, w, gaps) then Lose(q, w).(dropped := p.dropped + 1, unread := p.unread + 1)
      else q.(counted := p.counted + WordSteps(w, false), accepted := p.accepted + Entering(c, w))
  }

  function Store(c: Config, p: Pipe, w: nat, nowUs: nat, free: int): Pipe {
    var r := StepRing.Enqueue(p.ring, [w], nowUs, c.timeoutUs, free);
    if r.overflow then Lose(p, w).(ring := r, crowded := p.crowded + 1) else p.(ring := r)
  }

  /** A packet, up to its report. */
  function Arrive(c: Config, p: Pipe, e: Event): Pipe
    requires e.Deliver? && p.wire != []
  {
    var w, g := p.wire[0], ChecksumGate.Next(p.gate, e.good);
    var q := p.(wire := p.wire[1..], gate := g, phase := Reporting);
    if g.error then Lose(q, w).(gated := p.gated + 1)
    else if c.timerMode then Store(c, q, w, e.nowUs, e.free)
    else Apply(c, q, w, e.gaps)
  }

  /** A packet the link never delivers; the firmware takes up the next one's identifier and goes on. */
  function Skip(p: Pipe): Pipe
    requires p.wire != []
  {
    Lose(p, p.wire[0]).(wire := p.wire[1..], missed := p.missed + 1)
  }

  /** The report copies the overflow bit. */
  function Copy(p: Pipe): Pipe {
    var q := p.(phase := Clearing, reported := p.reported + p.unread, unread := 0);
    if p.channel.overflow then q.(flagged := p.flagged + 1) else q
  }

  /** And then clears it, whether or not it has been set since. */
  function Clear(p: Pipe): Pipe {
    p.(phase := Waiting, channel := p.channel.(overflow := false), erased := p.erased + p.unread, unread := 0)
  }

  function Tick(c: Config, p: Pipe, e: Event): Pipe
    requires e.Alarm?
  {
    var (r, popped) := StepRing.Tick(p.ring, e.number, e.nowUs);
    var q := p.(ring := r);
    if popped.Commands? && |popped.row| == 1 then Apply(c, q, popped.row[0], e.gaps) else q
  }

  function Next(c: Config, p: Pipe, e: Event): Pipe
    requires |c.table| == TABLE
  {
    match e
    case Send(r) =>
      var (b, w) := Cycle(p.host, r, c.table);
      p.(host := b, wire := p.wire + [w], asked := p.asked + Intent(p.host, r),
         excess := p.excess + (if Fits(c, p.host, r) then 0 else Intent(p.host, r)),
         sent := p.sent + Entering(c, w))
    case Deliver(_, _, _, _) => if p.wire == [] || !p.phase.Waiting? then p else Arrive(c, p, e)
    case Miss => if p.wire == [] then p else Skip(p)
    case ReadFlag => if p.phase.Reporting? then Copy(p) else p
    case ClearFlag => if p.phase.Clearing? then Clear(p) else p
    case Alarm(_, _, _) => if c.timerMode then Tick(c, p, e) else p
    case Disconnect =>
      p.(ring := StepRing.Stop(p.ring), gate := p.gate.(error := false),
         lost := p.lost + QueueSteps(Words(p.ring.queue), false),
         cut := p.cut + if p.ring.queue == [] then 0 else 1)
    case Execute(n) =>
      p.(channel := p.channel.(sm := Steps(c.t, p.channel.sm, n)))
  }

  function Run(c: Config, p: Pipe, es: seq<Event>): Pipe
    requires |c.table| == TABLE
  {
    if es == [] then p else Next(c, Run(c, p, es[..|es| - 1]), es[|es| - 1])
  }

  lemma {:induction false} RunCompose(c: Config, p: Pipe, a: seq<Event>, b: seq<Event>)
    requires |c.table| == TABLE
    ensures Run(c, p, a + b) == Run(c, Run(c, p, a), b)
  {
    hide Next;
    if b == [] {
      assert a + b == a;
    } else {
      var most := b[..|b| - 1];
      RunCompose(c, p, a, most);
      assert (a + b)[..|a + b| - 1] == a + most;
    }
  }

  /** Power-on: a machine about to start the program, nothing requested, counted or sent. */
  ghost predicate Start(p: Pipe) {
    && p == Pipe(Axis(p.host.prev, -1, true), [], ChecksumGate.OPEN, StepRing.INITIAL,
                 Channel(p.channel.sm, 0, false), Waiting, 0, 0, 0, 0, 0, 0, 0, 0, 0, 0, 0, 0, 0, [], [])
    && Sane(p.channel.sm) && p.channel.sm.pc == 0 && p.channel.sm.tx == [] && p.channel.sm.log == []
  }

  /** No word was lost, neither on the link nor at the gate, by the ring, a disconnect or the FIFO. */
  predicate Lossless(p: Pipe) {
    p.missed == 0 && p.gated == 0 && p.crowded == 0 && p.cut == 0 && p.dropped == 0
  }

  // ---------- the ring's words ----------

  ghost predicate SingleWords(rows: seq<StepRing.Commands>) {
    forall i :: 0 <= i < |rows| ==> |rows[i]| == 1
  }

  lemma {:induction false} WordsAppend(rows: seq<StepRing.Commands>, w: nat)
    ensures Words(rows + [[w]]) == Words(rows) + [w]
  {
    if rows == [] {
      assert rows + [[w]] == [[w]] && [[w]][1..] == [];
      assert Words([[w]]) == [w] + Words([]);
    } else {
      assert (rows + [[w]])[1..] == rows[1..] + [[w]];
      WordsAppend(rows[1..], w);
      assert rows[0] + (Words(rows[1..]) + [w]) == rows[0] + Words(rows[1..]) + [w];
    }
  }

  lemma Enqueued(s: StepRing.RingState, row: StepRing.Commands, nowUs: nat, timeoutUs: nat, free: int)
    ensures var r := StepRing.Enqueue(s, row, nowUs, timeoutUs, free);
            && (r.overflow <==> |s.queue| >= StepRing.SLOTS)
            && r.queue == (if r.overflow then s.queue else s.queue + [row])
  {
    hide StepRing.Smooth, StepRing.Measured;
  }

  // ---------- conservation ----------

  ghost predicate Conserved(c: Config, p: Pipe) {
    && Sane(p.channel.sm) && SingleWords(p.ring.queue)
    && p.asked == QueueSteps(p.wire, false) + QueueSteps(Words(p.ring.queue), false) + p.lost + p.excess + p.counted
    && p.counted == Account(p.channel.sm, c.inverted)
    && p.channel.position == S32(p.counted)
    && (Lossless(p) ==> p.lost == 0)
  }

  /** The word of a cycle is worth what was asked if the table can carry the request, and nothing if not. */
  lemma WordMatchesIntent(c: Config, a: Axis, r: Request)
    requires ValidConfig(c)
    ensures WordSteps(Cycle(a, r, c.table).1, false) == if Fits(c, a, r) then Intent(a, r) else 0
    ensures WordSteps(Cycle(a, r, c.table).1, false) == Intent(a, r) <==> Fits(c, a, r)
  {
    hide Cycle, Capacity, Intent, WordSteps;
    WordWorth(a, r, c.table, c.total, c.spacing);
    if !Fits(c, a, r) {
      assert Intent(a, r) != 0;
    }
  }

  /** What an offered word does to a channel. */
  lemma OfferKeeps(c: Config, ch: Channel, w: nat, gaps: nat -> nat)
    requires ValidConfig(c) && Sane(ch.sm)
    ensures var d, dropped := Offer(c.t, c.inverted, ch, w, gaps), Dropped(c, ch, w, gaps);
            && Sane(d.sm) && d.overflow == (ch.overflow || dropped)
            && Account(d.sm, c.inverted) == Account(ch.sm, c.inverted) + (if dropped then 0 else WordSteps(w, false))
            && d.position == (if dropped || w == 0 then ch.position else S32(ch.position + WordSteps(w, false)))
  {
    hide Wait, Steps;
    if w != 0 {
      var n := WaitRuns(c.t, ch.sm, gaps, 0);
      StepsKeepAccount(c.t, ch.sm, c.inverted, n);
      var m := Steps(c.t, ch.sm, n);
      WiredFields(w, c.inverted);
      QueueAppend(m.tx, Wired(w, c.inverted), c.inverted);
    }
  }

  /** A word on its way into the FIFO: p's books balance but for w. */
  lemma ApplyConserves(c: Config, p: Pipe, w: nat, gaps: nat -> nat)
    requires ValidConfig(c) && Conserved(c, p.(asked := p.asked - WordSteps(w, false)))
    ensures Conserved(c, Apply(c, p, w, gaps))
  {
    hide Offer, Dropped, Sane, Account, QueueSteps, Words, SingleWords;
    OfferKeeps(c, p.channel, w, gaps);
    S32Absorbs(p.counted, WordSteps(w, false));
    assert WordSteps(0, false) == 0;
  }

  lemma ArriveConserves(c: Config, p: Pipe, e: Event)
    requires ValidConfig(c) && Conserved(c, p) && e.Deliver? && p.wire != []
    ensures Conserved(c, Arrive(c, p, e))
  {
    hide Apply, Sane, Account, Words, StepRing.Enqueue;
    var w, g := p.wire[0], ChecksumGate.Next(p.gate, e.good);
    var q := p.(wire := p.wire[1..], gate := g, phase := Reporting);
    if !g.error {
      if c.timerMode {
        Enqueued(p.ring, [w], e.nowUs, c.timeoutUs, e.free);
        WordsAppend(p.ring.queue, w);
        QueueAppend(Words(p.ring.queue), w, false);
      } else {
        ApplyConserves(c, q, w, e.gaps);
      }
    }
  }

  lemma TickConserves(c: Config, p: Pipe, e: Event)
    requires ValidConfig(c) && Conserved(c, p) && e.Alarm?
    ensures Conserved(c, Tick(c, p, e))
  {
    hide Apply, Sane, Account;
    var (r, popped) := StepRing.Tick(p.ring, e.number, e.nowUs);
    if popped.Commands? {
      var w := p.ring.queue[0][0];
      assert p.ring.queue[0] == [w];
      FirstWord(w, Words(p.ring.queue[1..]));
      ApplyConserves(c, p.(ring := r), w, e.gaps);
    }
  }

  lemma FirstWord(w: nat, ws: seq<nat>)
    ensures QueueSteps([w] + ws, false) == WordSteps(w, false) + QueueSteps(ws, false)
  {
    assert ([w] + ws)[1..] == ws;
  }

  lemma NextConserves(c: Config, p: Pipe, e: Event)
    requires ValidConfig(c) && Conserved(c, p)
    ensures Conserved(c, Next(c, p, e))
  {
    hide Cycle, Arrive, Tick, Steps, Sane, Account, Intent, Fits;
    match e
    case Send(r) =>
      WordMatchesIntent(c, p.host, r);
      QueueAppend(p.wire, Cycle(p.host, r, c.table).1, false);
    case Deliver(_, _, _, _) =>
      if p.wire != [] {
        ArriveConserves(c, p, e);
      }
    case Miss =>
    case ReadFlag =>
    case ClearFlag =>
    case Alarm(_, _, _) =>
      if c.timerMode {
        TickConserves(c, p, e);
      }
    case Disconnect =>
    case Execute(n) =>
      StepsKeepAccount(c.t, p.channel.sm, c.inverted, n);
  }

  /**
   The losses that are counted are real: only the link misses a packet; a packet or a row is gated only by a shut gate;
   a row is crowded out only by a full ring, cut off only by a disconnect, and a word dropped only by a FIFO that every
   poll finds full.
   */
  lemma LossesAreReal(c: Config, p: Pipe, e: Event)
    requires ValidConfig(c) && SingleWords(p.ring.queue)
    ensures var q := Next(c, p, e);
            && (q.missed > p.missed ==> e.Miss?)
            && (q.gated > p.gated ==> q.gate.error && (e.Deliver? || e.Alarm?))
            && (q.crowded > p.crowded ==> e.Deliver? && c.timerMode && |p.ring.queue| >= StepRing.SLOTS)
            && (q.cut > p.cut ==> e.Disconnect? && p.ring.queue != [])
            && (q.dropped > p.dropped ==>
                  (e.Deliver? || e.Alarm?) && forall k :: 0 <= k < POLLS ==> FullAt(c.t, p.channel.sm, e.gaps, 0, k))
  {
    hide Wait, FullAt, Steps, Cycle, Intent, Fits, Entering, Words, StepRing.Smooth, StepRing.Measured;
    if e.Deliver? || e.Alarm? {
      WaitFails(c.t, p.channel.sm, e.gaps, 0);
    }
  }

  /** Whether each packet that arrived since the last disconnect was good. */
  function Goods(c: Config, p: Pipe, es: seq<Event>): seq<bool>
    requires |c.table| == TABLE
  {
    if es == [] || es[|es| - 1].Disconnect? then []
    else
      var before := es[..|es| - 1];
      var b := Run(c, p, before);
      Goods(c, p, before)
      + if es[|es| - 1].Deliver? && b.wire != [] && b.phase.Waiting? then [es[|es| - 1].good] else []
  }

  lemma {:induction false} GateFollows(c: Config, p: Pipe, es: seq<Event>) returns (left: ChecksumGate.Gate)
    requires ValidConfig(c) && Start(p)
    ensures Run(c, p, es).gate == ChecksumGate.From(left.(error := false), Goods(c, p, es))
  {
    if es == [] {
      left := ChecksumGate.OPEN;
    } else {
      var before, e := es[..|es| - 1], es[|es| - 1];
      var b := Run(c, p, before);
      left := GateFollows(c, p, before);
      NextGate(c, b, e);
      hide Next, ChecksumGate.Next;
      if e.Disconnect? {
        left := b.gate;
      } else if e.Deliver? && b.wire != [] && b.phase.Waiting? {
        var goods := Goods(c, p, es);
        assert goods[..|goods| - 1] == Goods(c, p, before);
      } else {
        assert Goods(c, p, es) == Goods(c, p, before);
      }
    }
  }

  lemma NextGate(c: Config, p: Pipe, e: Event)
    requires ValidConfig(c)
    ensures Next(c, p, e).gate == if e.Disconnect? then p.gate.(error := false)
                                  else if e.Deliver? && p.wire != [] && p.phase.Waiting?
                                  then ChecksumGate.Next(p.gate, e.good) else p.gate
  {
    hide Offer, Dropped, Cycle, Steps, Intent, Fits, Entering, Words, StepRing.Enqueue, StepRing.Tick,
         ChecksumGate.Next;
  }

  /** In every run the gate is shut exactly if one of the last ten arrivals since a disconnect is bad. */
  lemma GateIsWindow(c: Config, p: Pipe, es: seq<Event>)
    requires ValidConfig(c) && Start(p)
    ensures Run(c, p, es).gate.error <==> ChecksumGate.BadWithin(Goods(c, p, es), ChecksumGate.RECOVERY)
  {
    hide Run, Goods, Start;
    var left := GateFollows(c, p, es);
    ChecksumGate.DisconnectForgets(left, Goods(c, p, es));
    ChecksumGate.SlidingWindow(Goods(c, p, es));
  }

  lemma {:induction false} RunConserves(c: Config, p: Pipe, es: seq<Event>)
    requires ValidConfig(c) && Start(p)
    ensures Conserved(c, Run(c, p, es))
  {
    hide Next;
    if es == [] {
      S32Congruent(0);
    } else {
      RunConserves(c, p, es[..|es| - 1]);
      NextConserves(c, Run(c, p, es[..|es| - 1]), es[|es| - 1]);
    }
  }

  /**
   End to end, in both modes and at every reachable state, whatever was requested: the steps asked of the host are those
   under way, in the ring, lost, in excess of the table, and counted by the firmware; its int32 position is, modulo
   2^32, the signed pulses emitted plus the signed steps in the FIFO and in the machine; and steps are lost only to the
   link, a shut gate, a full ring, a disconnect or a full FIFO.
   */
  lemma EndToEnd(c: Config, start: Pipe, es: seq<Event>)
    requires ValidConfig(c) && Start(start)
    ensures var p := Run(c, start, es); var sm := p.channel.sm;
            && p.asked == QueueSteps(p.wire, false) + QueueSteps(Words(p.ring.queue), false)
                          + p.lost + p.excess + p.counted
            && p.counted == Emitted(sm.log, c.inverted) + InProgress(sm, c.inverted) + QueueSteps(sm.tx, c.inverted)
            && p.channel.position == S32(p.counted)
            && (Lossless(p) ==> p.lost == 0)
            && (p.wire == [] && p.ring.queue == [] ==> p.channel.position == S32(p.asked - p.lost - p.excess))
  {
    hide Run, Start, Emitted, InProgress, QueueSteps, Words, Sane;
    RunConserves(c, start, es);
    Empty();
    NoWords();
  }

  /** Completion: left alone, the machine emits every step the firmware counted, and ends idle. */
  lemma Completes(c: Config, start: Pipe, es: seq<Event>) returns (n: nat)
    requires ValidConfig(c) && Start(start)
    ensures var p := Run(c, start, es + [Execute(n)]); var sm := p.channel.sm;
            && Idle(sm) && sm.tx == []
            && Emitted(sm.log, c.inverted) == p.counted
            && (p.wire == [] && p.ring.queue == [] ==> Emitted(sm.log, c.inverted) == p.asked - p.lost - p.excess)
  {
    hide Steps, Emitted, QueueSteps;
    RunConserves(c, start, es);
    var q := Run(c, start, es);
    n := Drains(c.t, q.channel.sm, c.inverted);
    var all := es + [Execute(n)];
    assert all[..|all| - 1] == es;
    Empty();
  }

  lemma Empty()
    ensures QueueSteps([], false) == 0
  {
  }

  // ---------- a position-mode epoch ----------

  /**
   Part of a run in which the axis stays enabled in position mode. If it is being enabled, the first request takes it to
   be at `home`.
   */
  ghost predicate Epoch(p: Pipe, es: seq<Event>, home: int) {
    forall i :: 0 <= i < |es| && es[i].Send? ==>
      es[i].request.Position? && (p.host.first ==> es[i].request.home == home)
  }

  /** Only sending changes the host. */
  lemma KeepsHost(c: Config, p: Pipe, e: Event)
    requires ValidConfig(c) && !e.Send?
    ensures Next(c, p, e).host == p.host && Next(c, p, e).asked == p.asked
  {
    hide Offer, Steps, Dropped, StepRing.Enqueue, StepRing.Tick;
  }

  /** The requests of a run. */
  function Requests(es: seq<Event>): seq<Request> {
    if es == [] then []
    else Requests(es[..|es| - 1]) + if es[|es| - 1].Send? then [es[|es| - 1].request] else []
  }

  /**
   In every run from power-on the host is where its requests alone leave it: marked for re-basing exactly if the last
   one was Disabled or none has come, and otherwise at Left.
   */
  lemma {:induction false} HostFollows(c: Config, p: Pipe, es: seq<Event>)
    requires ValidConfig(c) && Start(p)
    ensures var h, rs := Run(c, p, es).host, Requests(es);
            && h == After(p.host, rs)
            && (h.first <==> rs == [] || rs[|rs| - 1].Disabled?)
            && (!h.first ==> h.prev == Left(rs, |rs| - 1))
  {
    hide Run, Requests, Left, After, Start;
    StartsOff(p);
    HostAfter(c, p, es);
    HistoryState(p.host, Requests(es));
  }

  lemma {:induction false} HostAfter(c: Config, p: Pipe, es: seq<Event>)
    requires ValidConfig(c)
    ensures Run(c, p, es).host == After(p.host, Requests(es))
  {
    hide Next, Cycle;
    if es != [] {
      var before, e := es[..|es| - 1], es[|es| - 1];
      HostAfter(c, p, before);
      hide After;
      if e.Send? {
        AfterAppend(p.host, Requests(before), e.request, c.table);
        SendMovesHost(c, Run(c, p, before), e.request);
      } else {
        KeepsHost(c, Run(c, p, before), e);
        assert Requests(before) + [] == Requests(before);
      }
    }
  }

  lemma StartsOff(p: Pipe)
    requires Start(p)
    ensures p.host.first
  {
  }

  lemma SendMovesHost(c: Config, p: Pipe, r: Request)
    requires ValidConfig(c)
    ensures Next(c, p, Send(r)).host == Cycle(p.host, r, c.table).0
  {
    hide Cycle;
  }

  /** From any state on, the host's position moves by exactly the steps asked for during the epoch. */
  lemma {:induction false} EpochMoves(c: Config, p: Pipe, es: seq<Event>, home: int)
    requires ValidConfig(c) && Epoch(p, es, home)
    ensures var q := Run(c, p, es);
            && Place(q.host, home) - Place(p.host, home) == q.asked - p.asked
            && (q.host.first ==> p.host.first)
  {
    hide Arrive, Tick, Steps, Or, Entry, Sane;
    if es != [] {
      var before := es[..|es| - 1];
      EpochMoves(c, p, before, home);
      var q := Run(c, p, before);
      if es[|es| - 1].Send? {
        var r := es[|es| - 1].request;
        CycleMoves(q.host, r.home, r.target, c.table);
        assert q.host.first ==> r.home == home;
      } else {
        KeepsHost(c, q, es[|es| - 1]);
      }
    }
  }

  /** Signed steps emitted, pending anywhere, lost, or in excess. */
  function Whereabouts(c: Config, p: Pipe): int {
    Emitted(p.channel.sm.log, c.inverted) + InProgress(p.channel.sm, c.inverted)
    + QueueSteps(p.channel.sm.tx, c.inverted) + QueueSteps(Words(p.ring.queue), false) + QueueSteps(p.wire, false)
    + p.lost + p.excess
  }

  /**
   Across all three layers, for an epoch after any earlier history: the movement of the host's prev_pos since it began
   is the growth of signed pulses emitted, steps in the machine, in its FIFO, in the ring and on the way, lost, and in
   excess of the table. If nothing is on the way at its two ends and nothing was lost or in excess between them, the
   firmware's position moves by the same, modulo 2^32.
   */
  lemma PositionEpoch(c: Config, start: Pipe, history: seq<Event>, es: seq<Event>, home: int)
    requires ValidConfig(c) && Start(start) && Epoch(Run(c, start, history), es, home)
    ensures var p, q := Run(c, start, history), Run(c, start, history + es);
            var moved := Place(q.host, home) - Place(p.host, home);
            && moved == Whereabouts(c, q) - Whereabouts(c, p)
            && (p.wire == q.wire == [] && p.ring.queue == q.ring.queue == [] && q.lost + q.excess == p.lost + p.excess
                ==> q.channel.position == S32(p.channel.position + moved))
  {
    hide Run, Start, Epoch, Emitted, InProgress, QueueSteps, Words;
    var p, q := Run(c, start, history), Run(c, start, history + es);
    RunCompose(c, start, history, es);
    EpochMoves(c, p, es, home);
    EndToEnd(c, start, history);
    EndToEnd(c, start, history + es);
    Empty();
    NoWords();
    S32Absorbs(p.counted, q.counted - p.counted);
  }

  lemma NoWords()
    ensures Words([]) == []
  {
  }

  // ---------- the FIFO ----------

  lemma {:induction false} StepsTakeWords(t: Timing, s: Sm, n: nat)
    ensures |Steps(t, s, n).tx| <= |s.tx|
    decreases n
  {
    hide Go;
    if n > 0 {
      GoTakesWords(t, s);
      StepsTakeWords(t, Go(t, s), n - 1);
    }
  }

  lemma GoTakesWords(t: Timing, s: Sm)
    ensures |Go(t, s).tx| <= |s.tx|
  {
    hide Pow2;
  }

  lemma OfferFits(c: Config, ch: Channel, w: nat, gaps: nat -> nat)
    requires |ch.sm.tx| <= FIFO_DEPTH
    ensures |Offer(c.t, c.inverted, ch, w, gaps).sm.tx| <= FIFO_DEPTH
  {
    hide Wait, Wired;
    if w != 0 {
      var n := WaitRuns(c.t, ch.sm, gaps, 0);
      StepsTakeWords(c.t, ch.sm, n);
    }
  }

  lemma NextFits(c: Config, p: Pipe, e: Event)
    requires ValidConfig(c) && |p.channel.sm.tx| <= FIFO_DEPTH
    ensures |Next(c, p, e).channel.sm.tx| <= FIFO_DEPTH
  {
    hide Offer, Dropped, Cycle, Steps, StepRing.Enqueue, StepRing.Tick;
    if e.Execute? {
      StepsTakeWords(c.t, p.channel.sm, e.instructions);
    } else if e.Alarm? {
      var popped := StepRing.Tick(p.ring, e.number, e.nowUs).1;
      if popped.Commands? && |popped.row| == 1 {
        OfferFits(c, p.channel, popped.row[0], e.gaps);
      }
    } else if e.Deliver? && p.wire != [] {
      OfferFits(c, p.channel, p.wire[0], e.gaps);
    }
  }

  /** The firmware never overruns the TX FIFO, in any run. */
  lemma {:induction false} FifoFits(c: Config, p: Pipe, es: seq<Event>)
    requires ValidConfig(c) && Start(p)
    ensures |Run(c, p, es).channel.sm.tx| <= FIFO_DEPTH
  {
    hide Next;
    if es != [] {
      FifoFits(c, p, es[..|es| - 1]);
      NextFits(c, Run(c, p, es[..|es| - 1]), es[|es| - 1]);
    }
  }
}
