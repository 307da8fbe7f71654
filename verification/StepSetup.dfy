/**
 DIR set-up over whole runs of the step pipeline: it is kept on the pins exactly when the words that reached the FIFO
 carry the set-up flag wherever they change DIR, and that is a matter of which words were lost.
 */
module StepSetup {
  import opened Bits
  import opened PioMachine
  import opened StepProgram
  import opened StepAccount
  import opened StepHost
  import opened StepFirmware
  import opened StepPipeline
  import ChecksumGate
  import StepRing

  // ---------- what the accepted words do to the pins ----------

  /** The machine's future set-up is that of the accepted words, from the DIR level d it started at. */
  ghost predicate Foretold(t: Timing, d: int, accepted: seq<nat>, sm: Sm) {
    && Sane(sm)
    && LastDir(ComingDir(sm), sm.tx) == LastDir(d, accepted)
    && (Flagged(d, accepted) ==> SetupInv(t, sm))
    && (if Breaks(d, accepted) then Doomed(t, sm) else Eased(t, sm))
  }

  lemma StepsForetold(t: Timing, d: int, accepted: seq<nat>, sm: Sm, n: nat)
    requires ValidTiming(t) && Foretold(t, d, accepted, sm)
    ensures Foretold(t, d, accepted, Steps(t, sm, n))
  {
    hide Steps, Flagged, LastDir, Breaks, SetupInv, Doomed, Eased, ComingDir, Sane;
    StepsKeepLast(t, sm, n);
    if Flagged(d, accepted) {
      assert sm.tx + [] == sm.tx;
      InvFlags(t, sm);
      StepsKeepSetup(t, sm, [], n);
    }
    if Breaks(d, accepted) {
      StepsKeepDoom(t, sm, n);
    } else {
      StepsKeepEase(t, sm, n);
    }
  }

  lemma InvFlags(t: Timing, sm: Sm)
    requires SetupInv(t, sm)
    ensures Flagged(ComingDir(sm), sm.tx)
  {
  }

  /** One more word in the FIFO. */
  lemma PutForetold(t: Timing, d: int, accepted: seq<nat>, sm: Sm, v: nat)
    requires ValidTiming(t) && Foretold(t, d, accepted, sm)
    ensures Foretold(t, d, accepted + [v], sm.(tx := sm.tx + [v]))
  {
    hide Flagged, LastDir, Breaks, SetupKept, Hasty, SinceTurn, TurnsBefore, ComingDir, Eased;
    var m := sm.(tx := sm.tx + [v]);
    assert ComingDir(m) == ComingDir(sm) by { PutComing(sm, v); }
    assert Hasty(m) == Hasty(sm) by { PutComing(sm, v); }
    FlaggedAppend(d, accepted, v);
    FlaggedAppend(ComingDir(sm), sm.tx, v);
    BreaksAppend(d, accepted, v);
    BreaksAppend(ComingDir(sm), sm.tx, v);
    if Flagged(d, accepted + [v]) {
      PutKeepsSetup(t, sm, v);
    }
    if !Breaks(d, accepted + [v]) {
      EasedGoes(t, sm);
      PutKeepsEase(t, sm, v);
    }
  }

  lemma EasedGoes(t: Timing, sm: Sm)
    requires Eased(t, sm)
    ensures !Breaks(ComingDir(sm), sm.tx)
  {
  }

  lemma PutKeepsEase(t: Timing, m: Sm, v: nat)
    requires Eased(t, m) && !Breaks(ComingDir(m), m.tx + [v])
    ensures Eased(t, m.(tx := m.tx + [v]))
  {
    hide Breaks;
  }

  lemma PutComing(sm: Sm, v: nat)
    ensures ComingDir(sm.(tx := sm.tx + [v])) == ComingDir(sm) && Hasty(sm.(tx := sm.tx + [v])) == Hasty(sm)
  {
  }

  lemma PutKeepsSetup(t: Timing, m: Sm, v: nat)
    requires SetupInv(t, m) && Flagged(ComingDir(m), m.tx + [v])
    ensures SetupInv(t, m.(tx := m.tx + [v]))
  {
  }

  lemma OfferForetold(c: Config, d: int, accepted: seq<nat>, ch: Channel, w: nat, gaps: nat -> nat)
    requires ValidConfig(c) && Foretold(c.t, d, accepted, ch.sm)
    ensures Foretold(c.t, d, accepted + (if Dropped(c, ch, w, gaps) then [] else Entering(c, w)),
                     Offer(c.t, c.inverted, ch, w, gaps).sm)
  {
    hide Foretold, Wait, Steps, Wired;
    assert accepted + [] == accepted;
    if w != 0 {
      var n := WaitRuns(c.t, ch.sm, gaps, 0);
      StepsForetold(c.t, d, accepted, ch.sm, n);
      PutForetold(c.t, d, accepted, Steps(c.t, ch.sm, n), Wired(w, c.inverted));
    }
  }

  lemma ApplyForetold(c: Config, d: int, p: Pipe, w: nat, gaps: nat -> nat)
    requires ValidConfig(c) && Foretold(c.t, d, p.accepted, p.channel.sm)
    ensures var q := Apply(c, p, w, gaps); Foretold(c.t, d, q.accepted, q.channel.sm)
  {
    hide Foretold, Offer, Dropped, Entering;
    OfferForetold(c, d, p.accepted, p.channel, w, gaps);
    assert p.accepted + [] == p.accepted;
  }

  lemma NextForetold(c: Config, d: int, p: Pipe, e: Event)
    requires ValidConfig(c) && Foretold(c.t, d, p.accepted, p.channel.sm)
    ensures var q := Next(c, p, e); Foretold(c.t, d, q.accepted, q.channel.sm)
  {
    hide Foretold, Apply, Cycle, Steps, Intent, Fits, StepRing.Enqueue;
    if e.Deliver? && p.wire != [] && p.phase.Waiting? {
      var q := p.(wire := p.wire[1..], gate := ChecksumGate.Next(p.gate, e.good), phase := Reporting);
      if !q.gate.error && !c.timerMode {
        ApplyForetold(c, d, q, p.wire[0], e.gaps);
      }
    } else if e.Alarm? && c.timerMode {
      var (r, popped) := StepRing.Tick(p.ring, e.number, e.nowUs);
      if popped.Commands? && |popped.row| == 1 {
        ApplyForetold(c, d, p.(ring := r), popped.row[0], e.gaps);
      }
    } else if e.Execute? {
      StepsForetold(c.t, d, p.accepted, p.channel.sm, e.instructions);
    }
  }

  lemma {:induction false} RunForetold(c: Config, p: Pipe, es: seq<Event>)
    requires ValidConfig(c) && Start(p)
    ensures var q := Run(c, p, es); Foretold(c.t, p.channel.sm.dir, q.accepted, q.channel.sm)
  {
    hide Next;
    if es != [] {
      RunForetold(c, p, es[..|es| - 1]);
      NextForetold(c, p.channel.sm.dir, Run(c, p, es[..|es| - 1]), es[|es| - 1]);
    }
  }

  /**
   When DIR set-up is kept, in both modes, whatever was requested, lost or interleaved. While the accepted words are
   flagged, every STEP edge so far came at least 66*dirN+7 cycles after every earlier DIR change; while those among them
   that have steps are, at least 12 (or all 7, with dirN = 0). Once the machine has emptied its FIFO, an accepted word
   that has steps and changes DIR unflagged has broken the set-up on the pins. So the set-up is kept exactly if the
   accepted words are flagged, when every one of them has steps; and exactly if those with steps are, when dirN = 0.
   */
  lemma SetupIffFlagged(c: Config, start: Pipe, es: seq<Event>) returns (n: nat)
    requires ValidConfig(c) && Start(start)
    ensures var d, p := start.channel.sm.dir, Run(c, start, es);
            && (Flagged(d, p.accepted) ==> SetupKept(p.channel.sm.log, SetupCycles(c.t)))
            && (!Breaks(d, p.accepted) ==> SetupKept(p.channel.sm.log, Margin(c.t)))
    ensures var d, q := start.channel.sm.dir, Run(c, start, es + [Execute(n)]);
            var kept := SetupKept(q.channel.sm.log, SetupCycles(c.t));
            && Idle(q.channel.sm) && q.channel.sm.tx == [] && q.accepted == Run(c, start, es).accepted
            && (Flagged(d, q.accepted) ==> kept)
            && (if Breaks(d, q.accepted) then !kept else SetupKept(q.channel.sm.log, Margin(c.t)))
            && ((forall i :: 0 <= i < |q.accepted| ==> Count(q.accepted[i]) > 0) ==> (kept <==> Flagged(d, q.accepted)))
            && (c.t.dirN == 0 ==> (kept <==> !Breaks(d, q.accepted)))
  {
    hide Steps, Emitted, SetupKept, Flagged, Breaks, LastDir, Start;
    RunForetold(c, start, es);
    n := Completes(c, start, es);
    var all := es + [Execute(n)];
    assert all[..|all| - 1] == es;
    RunForetold(c, start, all);
    var q := Run(c, start, all);
    assert !Breaks(ComingDir(q.channel.sm), []) by { NothingBreaks(ComingDir(q.channel.sm)); }
    if forall i :: 0 <= i < |q.accepted| ==> Count(q.accepted[i]) > 0 {
      BreaksUnlessFlagged(start.channel.sm.dir, q.accepted);
    }
  }

  lemma NothingBreaks(d: int)
    ensures !Breaks(d, [])
  {
  }

  /** A word that has steps and changes DIR without the flag breaks the set-up on the pins. */
  lemma UnflaggedBreaksSetup(t: Timing, s: Sm)
    requires Idle(s) && s.tx != [] && Unprepared(s.dir, s.tx[0])
    ensures !SetupKept(Steps(t, s, WordLength(t, s.tx[0])).log, SetupCycles(t))
  {
    hide Go, Steps;
    var w := s.tx[0];
    WordRuns(t, s);
    var log := s.log + Waveform(t, w, s.cycles, s.dir);
    var i := |s.log|;
    assert log[i] == Turn(s.cycles + 3, Dir(w)) && log[i + 1] == Rise(s.cycles + 7, Dir(w));
  }

  /** One word with steps, on a machine that has kept the set-up: it still has afterwards exactly if the word may. */
  lemma OneWordKeepsSetup(t: Timing, s: Sm)
    requires ValidTiming(t) && Idle(s) && SetupInv(t, s.(tx := [])) && |s.tx| == 1 && Count(s.tx[0]) > 0
    ensures SetupKept(Steps(t, s, WordLength(t, s.tx[0])).log, SetupCycles(t))
       <==> (Dir(s.tx[0]) != s.dir ==> Turning(s.tx[0]) == 1)
  {
    hide Go, Steps, SetupKept, Dir, Turning, Count;
    var w := s.tx[0];
    FlagIsBit(w);
    if Dir(w) != s.dir && Turning(w) == 0 {
      UnflaggedBreaksSetup(t, s);
    } else {
      var m := s.(tx := []);
      FlaggedAppend(ComingDir(m), [], w);
      assert [] + [w] == s.tx == m.tx + [w] && m.(tx := s.tx) == s;
      assert ComingDir(m) == s.dir && LastDir(s.dir, []) == s.dir && Flagged(s.dir, []);
      PutKeepsSetup(t, m, w);
      InvFlags(t, s);
      assert s.tx + [] == s.tx;
      StepsKeepSetup(t, s, [], WordLength(t, w));
    }
  }

  // ---------- which words reach the FIFO ----------

  /** The nonzero words of a list, as they enter the FIFO. */
  function Outgoing(c: Config, ws: seq<nat>): seq<nat> {
    if ws == [] then [] else Entering(c, ws[0]) + Outgoing(c, ws[1..])
  }

  lemma {:induction false} OutgoingJoin(c: Config, a: seq<nat>, b: seq<nat>)
    ensures Outgoing(c, a + b) == Outgoing(c, a) + Outgoing(c, b)
  {
    hide Entering;
    if a == [] {
      assert a + b == b;
    } else {
      var first := Entering(c, a[0]);
      assert (a + b)[1..] == a[1..] + b;
      OutgoingJoin(c, a[1..], b);
      assert first + (Outgoing(c, a[1..]) + Outgoing(c, b)) == first + Outgoing(c, a[1..]) + Outgoing(c, b);
    }
  }

  lemma OutgoingOne(c: Config, w: nat)
    ensures Outgoing(c, [w]) == Entering(c, w)
  {
    assert [w][1..] == [];
    assert Outgoing(c, []) == [];
  }

  /** Accepted words, then those on their way. */
  function Line(c: Config, p: Pipe): seq<nat> {
    p.accepted + Outgoing(c, Pending(p))
  }

  /** Places in b, in order, at which the elements of a stand. */
  ghost predicate Embeds(places: seq<nat>, a: seq<nat>, b: seq<nat>) {
    && |places| == |a|
    && (forall i, j :: 0 <= i < j < |places| ==> places[i] < places[j])
    && (forall k :: 0 <= k < |places| ==> places[k] < |b| && a[k] == b[places[k]])
  }

  /** The line is what is left of the words sent, in order, and all of them if none was lost. */
  ghost predicate InLine(c: Config, p: Pipe, places: seq<nat>) {
    && Embeds(places, Line(c, p), p.sent)
    && (Lossless(p) ==> Line(c, p) == p.sent)
    && SingleWords(p.ring.queue) && (!c.timerMode ==> p.ring.queue == [])
  }

  lemma Removed(places: seq<nat>, x: seq<nat>, y: seq<nat>, z: seq<nat>, b: seq<nat>) returns (left: seq<nat>)
    requires Embeds(places, x + y + z, b)
    ensures Embeds(left, x + z, b)
  {
    left := places[..|x|] + places[|x| + |y|..];
    var all := x + y + z;
    forall k | 0 <= k < |left|
      ensures left[k] < |b| && (x + z)[k] == b[left[k]]
    {
      var j := if k < |x| then k else k + |y|;
      assert left[k] == places[j] && all[j] == (x + z)[k];
    }
  }

  /** A step that takes y out of the line, or leaves the line as it is. */
  lemma LineStep(c: Config, p: Pipe, q: Pipe, x: seq<nat>, y: seq<nat>, z: seq<nat>, places: seq<nat>)
    returns (left: seq<nat>)
    requires InLine(c, p, places) && Line(c, p) == x + y + z && q.sent == p.sent
    requires Line(c, q) == x + y + z || (Line(c, q) == x + z && !Lossless(q))
    requires Lossless(q) ==> Lossless(p)
    requires SingleWords(q.ring.queue) && (!c.timerMode ==> q.ring.queue == [])
    ensures InLine(c, q, left)
  {
    hide Line, SingleWords;
    if Line(c, q) == x + y + z {
      left := places;
    } else {
      left := Removed(places, x, y, z, p.sent);
    }
  }

  lemma SendInLine(c: Config, p: Pipe, r: Request, places: seq<nat>) returns (left: seq<nat>)
    requires ValidConfig(c) && InLine(c, p, places)
    ensures InLine(c, Next(c, p, Send(r)), left)
  {
    hide Cycle, Outgoing, Wired, Words, Intent, Fits, Embeds;
    var w := Cycle(p.host, r, c.table).1;
    var q := Next(c, p, Send(r));
    assert Pending(q) == Pending(p) + [w];
    OutgoingJoin(c, Pending(p), [w]);
    OutgoingOne(c, w);
    assert Line(c, q) == Line(c, p) + Entering(c, w);
    if w == 0 {
      left := places;
      assert Line(c, q) == Line(c, p) && q.sent == p.sent;
    } else {
      left := places + [|p.sent|];
      Placed(places, Line(c, p), p.sent, Wired(w, c.inverted));
    }
  }

  lemma Placed(places: seq<nat>, a: seq<nat>, b: seq<nat>, v: nat)
    requires Embeds(places, a, b)
    ensures Embeds(places + [|b|], a + [v], b + [v])
  {
  }

  /** The next word to be applied, first of those on the way. */
  lemma ApplyInLine(c: Config, p: Pipe, q: Pipe, w: nat, later: seq<nat>, gaps: nat -> nat, places: seq<nat>)
    returns (left: seq<nat>)
    requires InLine(c, p, places) && Pending(p) == [w] + later && Pending(q) == later
    requires q.sent == p.sent && q.accepted == p.accepted && (Lossless(q) ==> Lossless(p))
    requires SingleWords(q.ring.queue) && (!c.timerMode ==> q.ring.queue == [])
    ensures InLine(c, Apply(c, q, w, gaps), left)
  {
    hide Outgoing, Entering, Words, Offer, Dropped, SingleWords, Embeds;
    OutgoingJoin(c, [w], later);
    OutgoingOne(c, w);
    var x, y, z := p.accepted, Entering(c, w), Outgoing(c, later);
    assert x + (y + z) == x + y + z;
    var a := Apply(c, q, w, gaps);
    assert Pending(a) == later;
    left := LineStep(c, p, a, x, y, z, places);
  }

  /** The line around the word at the head of the wire. */
  lemma LineAround(c: Config, accepted: seq<nat>, ring: seq<nat>, w: nat, rest: seq<nat>)
    ensures accepted + Outgoing(c, ring + [w] + rest)
         == accepted + Outgoing(c, ring) + Entering(c, w) + Outgoing(c, rest)
    ensures accepted + Outgoing(c, ring + rest) == accepted + Outgoing(c, ring) + Outgoing(c, rest)
  {
    hide Outgoing, Entering;
    var y, z := Entering(c, w), Outgoing(c, rest);
    OutgoingJoin(c, ring + [w], rest);
    OutgoingJoin(c, ring, [w]);
    OutgoingOne(c, w);
    OutgoingJoin(c, ring, rest);
    assert accepted + (Outgoing(c, ring) + y + z) == accepted + Outgoing(c, ring) + y + z;
    assert accepted + (Outgoing(c, ring) + z) == accepted + Outgoing(c, ring) + z;
  }

  lemma ArriveInLine(c: Config, p: Pipe, e: Event, places: seq<nat>) returns (left: seq<nat>)
    requires InLine(c, p, places) && e.Deliver? && p.wire != []
    ensures InLine(c, Arrive(c, p, e), left)
  {
    hide Outgoing, Entering, Words, Apply, StepRing.Enqueue, Embeds;
    var w, ring, rest := p.wire[0], Words(p.ring.queue), p.wire[1..];
    var q := p.(wire := rest, gate := ChecksumGate.Next(p.gate, e.good), phase := Reporting);
    var a := Arrive(c, p, e);
    assert Pending(p) == ring + [w] + rest;
    if !q.gate.error && !c.timerMode {
      NoWords();
      assert Pending(p) == [w] + rest && Pending(q) == rest;
      left := ApplyInLine(c, p, q, w, rest, e.gaps, places);
      return;
    }
    var x, y, z := p.accepted + Outgoing(c, ring), Entering(c, w), Outgoing(c, rest);
    LineAround(c, p.accepted, ring, w, rest);
    if !q.gate.error {
      Enqueued(p.ring, [w], e.nowUs, c.timeoutUs, e.free);
      WordsAppend(p.ring.queue, w);
    }
    left := LineStep(c, p, a, x, y, z, places);
  }

  lemma SkipInLine(c: Config, p: Pipe, places: seq<nat>) returns (left: seq<nat>)
    requires InLine(c, p, places) && p.wire != []
    ensures InLine(c, Skip(p), left)
  {
    hide Outgoing, Entering, Words, Embeds;
    var w, ring, rest := p.wire[0], Words(p.ring.queue), p.wire[1..];
    var x, y, z := p.accepted + Outgoing(c, ring), Entering(c, w), Outgoing(c, rest);
    assert Pending(p) == ring + [w] + rest;
    LineAround(c, p.accepted, ring, w, rest);
    left := LineStep(c, p, Skip(p), x, y, z, places);
  }

  lemma TickInLine(c: Config, p: Pipe, e: Event, places: seq<nat>) returns (left: seq<nat>)
    requires InLine(c, p, places) && e.Alarm? && c.timerMode
    ensures InLine(c, Tick(c, p, e), left)
  {
    hide Outgoing, Apply, Embeds;
    var (r, popped) := StepRing.Tick(p.ring, e.number, e.nowUs);
    left := places;
    if popped.Commands? {
      var w := p.ring.queue[0][0];
      var later := Words(p.ring.queue[1..]) + p.wire;
      assert p.ring.queue[0] == [w];
      assert Pending(p) == [w] + later;
      left := ApplyInLine(c, p, p.(ring := r), w, later, e.gaps, places);
    }
  }

  lemma DisconnectInLine(c: Config, p: Pipe, places: seq<nat>) returns (left: seq<nat>)
    requires ValidConfig(c) && InLine(c, p, places)
    ensures InLine(c, Next(c, p, Disconnect), left)
  {
    hide Outgoing, Embeds;
    var x, y, z := p.accepted, Outgoing(c, Words(p.ring.queue)), Outgoing(c, p.wire);
    var q := Next(c, p, Disconnect);
    OutgoingJoin(c, Words(p.ring.queue), p.wire);
    assert x + (y + z) == x + y + z;
    assert Pending(q) == p.wire;
    if p.ring.queue == [] {
      assert Pending(p) == p.wire;
    }
    left := LineStep(c, p, q, x, y, z, places);
  }

  lemma NextInLine(c: Config, p: Pipe, e: Event, places: seq<nat>) returns (left: seq<nat>)
    requires ValidConfig(c) && InLine(c, p, places)
    ensures InLine(c, Next(c, p, e), left)
  {
    hide Arrive, Tick, Cycle, Steps, Intent, Fits, Embeds, Outgoing;
    left := places;
    match e
    case Send(r) => left := SendInLine(c, p, r, places);
    case Deliver(_, _, _, _) =>
      if p.wire != [] && p.phase.Waiting? {
        left := ArriveInLine(c, p, e, places);
      }
    case Miss =>
      if p.wire != [] {
        left := SkipInLine(c, p, places);
      }
    case Alarm(_, _, _) =>
      if c.timerMode {
        left := TickInLine(c, p, e, places);
      }
    case Disconnect => left := DisconnectInLine(c, p, places);
    case _ =>
  }

  /** The words accepted are words sent, in the order sent; all those not still under way, if none was lost. */
  lemma {:induction false} RunInLine(c: Config, p: Pipe, es: seq<Event>) returns (places: seq<nat>)
    requires ValidConfig(c) && Start(p)
    ensures InLine(c, Run(c, p, es), places)
  {
    hide Next;
    if es == [] {
      places := [];
      NoWords();
    } else {
      places := RunInLine(c, p, es[..|es| - 1]);
      places := NextInLine(c, Run(c, p, es[..|es| - 1]), es[|es| - 1], places);
    }
  }

  // ---------- the host's flags ----------

  /** The DIR level that carries the host's direction. */
  function Level(dir: int, inverted: bool): int {
    if inverted then 1 - dir else dir
  }

  /** The DIR level before word k of a list that starts at level d. */
  function Before(d: int, ws: seq<nat>, k: nat): int
    requires k < |ws|
  {
    if k == 0 then d else Dir(ws[k - 1])
  }

  /** A word sent carries the flag exactly if it is the first or goes another way than the word sent before it. */
  ghost predicate Chained(sent: seq<nat>) {
    forall i :: 0 <= i < |sent| ==> (Turning(sent[i]) == 1 <==> Dir(sent[i]) != Before(-1, sent, i))
  }

  lemma ChainedAppend(sent: seq<nat>, v: nat)
    requires Chained(sent)
    requires Turning(v) == 1 <==> sent == [] || Dir(v) != Dir(sent[|sent| - 1])
    ensures Chained(sent + [v])
  {
    hide Turning, Dir, Before;
    var all := sent + [v];
    forall i | 0 <= i < |all|
      ensures Turning(all[i]) == 1 <==> Dir(all[i]) != Before(-1, all, i)
    {
      if i < |sent| {
        assert all[i] == sent[i];
        SameBefore(sent, all, i);
      } else {
        LastBefore(sent, v);
      }
    }
  }

  lemma SameBefore(a: seq<nat>, b: seq<nat>, i: nat)
    requires a <= b && i < |a|
    ensures Before(-1, a, i) == Before(-1, b, i)
  {
  }

  lemma LastBefore(sent: seq<nat>, v: nat)
    ensures Before(-1, sent + [v], |sent|) == if sent == [] then -1 else Dir(sent[|sent| - 1])
  {
  }

  ghost predicate HostInStep(c: Config, p: Pipe) {
    && Chained(p.sent)
    && (p.sent == [] <==> p.host.lastDir == -1)
    && (p.sent != [] ==> Dir(p.sent[|p.sent| - 1]) == Level(p.host.lastDir, c.inverted) && p.host.lastDir in {0, 1})
  }

  lemma SendInStep(c: Config, p: Pipe, r: Request)
    requires ValidConfig(c) && HostInStep(c, p)
    ensures HostInStep(c, Next(c, p, Send(r)))
  {
    hide Cycle, Wired, Intent, Fits, Dir, Turning, Count, Low, Chained;
    var w := Cycle(p.host, r, c.table).1;
    WordFlagged(p.host, r, c.table, c.total, c.spacing);
    if w != 0 {
      WiredFields(w, c.inverted);
      DirIsBit(w);
      ChainedAppend(p.sent, Wired(w, c.inverted));
    } else {
      assert p.sent + [] == p.sent;
    }
  }

  lemma DirIsBit(w: nat)
    ensures Dir(w) < 2
  {
  }

  lemma OthersKeepSent(c: Config, p: Pipe, e: Event)
    requires ValidConfig(c) && !e.Send?
    ensures Next(c, p, e).sent == p.sent && Next(c, p, e).host == p.host
  {
    hide Offer, Dropped, Steps, Entering, StepRing.Enqueue, StepRing.Tick;
  }

  lemma {:induction false} RunInStep(c: Config, p: Pipe, es: seq<Event>)
    requires ValidConfig(c) && Start(p)
    ensures HostInStep(c, Run(c, p, es))
  {
    hide Next, HostInStep;
    if es == [] {
      assert HostInStep(c, p) by { StartInStep(c, p); }
    } else {
      var before, e := Run(c, p, es[..|es| - 1]), es[|es| - 1];
      RunInStep(c, p, es[..|es| - 1]);
      if e.Send? {
        SendInStep(c, before, e.request);
      } else {
        OthersKeepSent(c, before, e);
        SameStep(c, before, Next(c, before, e));
      }
    }
  }

  lemma StartInStep(c: Config, p: Pipe)
    requires Start(p)
    ensures HostInStep(c, p)
  {
  }

  lemma SameStep(c: Config, p: Pipe, q: Pipe)
    requires HostInStep(c, p) && q.sent == p.sent && q.host == p.host
    ensures HostInStep(c, q)
  {
  }

  // ---------- which losses break the set-up ----------

  /**
   Accepted word k, sent at places[k], goes the way of the word sent just before it, but not the way of the word
   accepted just before it: the change of direction itself was lost.
   */
  ghost predicate Stranded(d: int, accepted: seq<nat>, sent: seq<nat>, places: seq<nat>, k: nat)
    requires Embeds(places, accepted, sent) && k < |accepted|
  {
    && Dir(accepted[k]) != Before(d, accepted, k)
    && Dir(accepted[k]) == Before(-1, sent, places[k])
  }

  lemma {:induction false} FlaggedAt(d: int, ws: seq<nat>)
    ensures Flagged(d, ws) <==>
            forall k :: 0 <= k < |ws| ==> Dir(ws[k]) != Before(d, ws, k) ==> Turning(ws[k]) == 1
    decreases |ws|
  {
    hide Dir, Turning;
    if ws != [] {
      var front, w := ws[..|ws| - 1], ws[|ws| - 1];
      FlaggedAt(d, front);
      assert front + [w] == ws;
      FlaggedAppend(d, front, w);
      LastIsBefore(d, ws);
      assert forall k :: 0 <= k < |front| ==> front[k] == ws[k] && Before(d, front, k) == Before(d, ws, k);
    }
  }

  lemma {:induction false} LastIsBefore(d: int, ws: seq<nat>)
    requires ws != []
    ensures LastDir(d, ws[..|ws| - 1]) == Before(d, ws, |ws| - 1)
    decreases |ws|
  {
    hide Dir;
    if |ws| > 1 {
      var rest := ws[1..];
      LastIsBefore(Dir(ws[0]), rest);
      assert ws[..|ws| - 1][1..] == rest[..|rest| - 1];
    }
  }

  /** The stranded words are those that change DIR without the flag. */
  lemma StrandedUnlessFlagged(d: int, accepted: seq<nat>, sent: seq<nat>, places: seq<nat>)
    requires Embeds(places, accepted, sent) && Chained(sent)
    ensures forall k :: 0 <= k < |accepted| ==>
              (Stranded(d, accepted, sent, places, k) <==>
               Dir(accepted[k]) != Before(d, accepted, k) && Turning(accepted[k]) == 0)
    ensures Flagged(d, accepted) <==> forall k :: 0 <= k < |accepted| ==> !Stranded(d, accepted, sent, places, k)
  {
    hide Flagged, Turning;
    FlaggedAt(d, accepted);
    forall k | 0 <= k < |accepted|
      ensures Stranded(d, accepted, sent, places, k) <==>
              Dir(accepted[k]) != Before(d, accepted, k) && Turning(accepted[k]) == 0
    {
      assert accepted[k] == sent[places[k]];
      FlagIsBit(accepted[k]);
    }
  }

  /** A list breaks the set-up exactly if one of its words is unprepared for the level before it. */
  lemma {:induction false} BreaksAt(d: int, ws: seq<nat>)
    ensures Breaks(d, ws) <==> exists k :: 0 <= k < |ws| && Unprepared(Before(d, ws, k), ws[k])
    decreases |ws|
  {
    hide Unprepared;
    if ws != [] {
      var front, w := ws[..|ws| - 1], ws[|ws| - 1];
      BreaksAt(d, front);
      assert front + [w] == ws;
      BreaksAppend(d, front, w);
      LastIsBefore(d, ws);
      assert forall k :: 0 <= k < |front| ==> front[k] == ws[k] && Before(d, front, k) == Before(d, ws, k);
    }
  }

  lemma StrandedBreaks(d: int, accepted: seq<nat>, sent: seq<nat>, places: seq<nat>)
    requires Embeds(places, accepted, sent) && Chained(sent)
    ensures Breaks(d, accepted) <==>
            exists k :: 0 <= k < |accepted| && Stranded(d, accepted, sent, places, k) && Count(accepted[k]) > 0
  {
    hide Flagged, Breaks, Stranded, Chained, Embeds, Before, Dir, Turning, Count;
    StrandedUnlessFlagged(d, accepted, sent, places);
    BreaksAt(d, accepted);
    if k :| 0 <= k < |accepted| && Unprepared(Before(d, accepted, k), accepted[k]) {
      assert Stranded(d, accepted, sent, places, k);
    }
    if k :| 0 <= k < |accepted| && Stranded(d, accepted, sent, places, k) && Count(accepted[k]) > 0 {
      assert Unprepared(Before(d, accepted, k), accepted[k]);
    }
  }

  /** A stranded word was sent right behind a lost one. */
  lemma StrandedBehindLoss(d: int, accepted: seq<nat>, sent: seq<nat>, places: seq<nat>, k: nat)
    requires Embeds(places, accepted, sent) && k < |accepted| && Stranded(d, accepted, sent, places, k)
    ensures places[k] > 0 && places[k] - 1 !in places
  {
  }

  /**
   DIR set-up on the pins, read back as a condition on losses, for every run in both modes. A word is stranded if it was
   sent behind a lost word of its own direction, with the last accepted word going the other way. Once the FIFO has
   drained, the set-up has been kept if no accepted word is stranded, and broken if one that has steps is: so exactly
   so, if every accepted word has steps or dirN = 0. If only words without steps are stranded, every STEP edge still
   came at least 12 cycles (all 7, with dirN = 0) after every earlier DIR change. With no loss none is stranded.
   */
  lemma SetupIffNoneStranded(c: Config, start: Pipe, es: seq<Event>) returns (n: nat, places: seq<nat>)
    requires ValidConfig(c) && Start(start)
    ensures var d, q := start.channel.sm.dir, Run(c, start, es + [Execute(n)]);
            var a, log := q.accepted, q.channel.sm.log;
            var kept := SetupKept(log, SetupCycles(c.t));
            && Embeds(places, a, q.sent) && Idle(q.channel.sm) && q.channel.sm.tx == []
            && (Lossless(q) ==> a <= q.sent)
            && ((forall k :: 0 <= k < |a| ==> !Stranded(d, a, q.sent, places, k)) ==> kept)
            && (if exists k :: 0 <= k < |a| && Stranded(d, a, q.sent, places, k) && Count(a[k]) > 0
                then !kept else SetupKept(log, Margin(c.t)))
            && (forall k :: 0 <= k < |a| && Stranded(d, a, q.sent, places, k) ==>
                  places[k] > 0 && places[k] - 1 !in places)
  {
    hide Flagged, Breaks, SetupKept, Stranded, Run, Line, Count, Margin, Chained, Level, InLine, Idle, Lossless;
    n := SetupIffFlagged(c, start, es);
    var all := es + [Execute(n)];
    var d, q := start.channel.sm.dir, Run(c, start, all);
    var line := RunInLine(c, start, all);
    places := FrontEmbeds(c, q, line);
    RunInStep(c, start, all);
    StrandedUnlessFlagged(d, q.accepted, q.sent, places);
    StrandedBreaks(d, q.accepted, q.sent, places);
    forall k | 0 <= k < |q.accepted| && Stranded(d, q.accepted, q.sent, places, k)
      ensures places[k] > 0 && places[k] - 1 !in places
    {
      StrandedBehindLoss(d, q.accepted, q.sent, places, k);
    }
  }

  lemma FrontEmbeds(c: Config, p: Pipe, line: seq<nat>) returns (places: seq<nat>)
    requires InLine(c, p, line)
    ensures Embeds(places, p.accepted, p.sent) && (Lossless(p) ==> p.accepted <= p.sent)
  {
    hide Outgoing;
    places := line[..|p.accepted|];
    assert forall k :: 0 <= k < |p.accepted| ==> Line(c, p)[k] == p.accepted[k];
  }

  /** In a run in which no word was lost the set-up is kept at every reachable state, whatever was requested. */
  lemma RunKeepsSetup(c: Config, p: Pipe, es: seq<Event>)
    requires ValidConfig(c) && Start(p)
    ensures var q := Run(c, p, es);
            Lossless(q) ==> Flagged(p.channel.sm.dir, q.accepted) && SetupKept(q.channel.sm.log, SetupCycles(c.t))
  {
    hide Flagged, Breaks, SetupKept, Run, Line, Embeds, Chained, Lossless, Start, InLine, Level;
    var n := SetupIffFlagged(c, p, es);
    var q := Run(c, p, es);
    var line := RunInLine(c, p, es);
    var places := FrontEmbeds(c, q, line);
    RunInStep(c, p, es);
    if Lossless(q) {
      PrefixFlagged(p.channel.sm.dir, q.accepted, q.sent);
    }
  }

  lemma PrefixFlagged(d: int, a: seq<nat>, sent: seq<nat>)
    requires Chained(sent) && a <= sent
    ensures Flagged(d, a)
  {
    hide Turning, Flagged;
    FlaggedAt(d, a);
    forall k | 0 <= k < |a| && Dir(a[k]) != Before(d, a, k)
      ensures Turning(a[k]) == 1
    {
      assert a[k] == sent[k] && Before(-1, a, k) == Before(-1, sent, k);
    }
  }
}
