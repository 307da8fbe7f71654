/**
 The overflow bits over whole runs of the step pipeline: a report reads and clears them in two steps, and in timer mode
 a tick may come between.
 */
module StepReport {
  import opened StepHost
  import opened StepProgram
  import opened StepFirmware
  import opened StepPipeline
  import ChecksumGate
  import StepRing

  // ---------- what survives ----------

  ghost predicate FlagsKept(c: Config, p: Pipe) {
    && p.dropped == p.reported + p.erased + p.unread
    && (p.reported > 0 <==> p.flagged > 0)
    && (p.unread > 0 ==> p.channel.overflow)
    && (!p.phase.Clearing? && p.channel.overflow ==> p.unread > 0)
    && (!c.timerMode ==> p.erased == 0 && (p.phase.Clearing? ==> p.unread == 0))
  }

  lemma ApplyKeepsFlags(c: Config, p: Pipe, w: nat, gaps: nat -> nat)
    requires FlagsKept(c, p) && (!c.timerMode ==> !p.phase.Clearing?)
    ensures FlagsKept(c, Apply(c, p, w, gaps)) && Apply(c, p, w, gaps).phase == p.phase
  {
    hide Wait, Wired;
  }

  lemma NextKeepsFlags(c: Config, p: Pipe, e: Event)
    requires ValidConfig(c) && FlagsKept(c, p)
    ensures FlagsKept(c, Next(c, p, e))
  {
    hide Apply, Cycle, Steps, Intent, Fits, StepRing.Enqueue;
    if e.Deliver? && p.wire != [] && p.phase.Waiting? {
      var q := p.(wire := p.wire[1..], gate := ChecksumGate.Next(p.gate, e.good), phase := Reporting);
      if !q.gate.error && !c.timerMode {
        ApplyKeepsFlags(c, q, p.wire[0], e.gaps);
      }
    } else if e.Alarm? && c.timerMode {
      var (r, popped) := StepRing.Tick(p.ring, e.number, e.nowUs);
      if popped.Commands? && |popped.row| == 1 {
        ApplyKeepsFlags(c, p.(ring := r), popped.row[0], e.gaps);
      }
    }
  }

  /**
   Every word dropped by a full FIFO is covered by a report with the overflow bit set, or the bit is still waiting to be
   read, or it was erased: set by a tick between a report's reading of the bit and its clearing. Reports carry the bit
   only for dropped words, and in direct mode none is erased.
   */
  lemma {:induction false} RunKeepsFlags(c: Config, p: Pipe, es: seq<Event>)
    requires ValidConfig(c) && Start(p)
    ensures var q := Run(c, p, es);
            && q.dropped == q.reported + q.erased + q.unread
            && (q.reported > 0 <==> q.flagged > 0)
            && (q.unread > 0 ==> q.channel.overflow)
            && (!c.timerMode ==> q.erased == 0)
            && FlagsKept(c, q)
  {
    hide Next;
    if es != [] {
      RunKeepsFlags(c, p, es[..|es| - 1]);
      NextKeepsFlags(c, Run(c, p, es[..|es| - 1]), es[|es| - 1]);
    }
  }

  // ---------- when a bit is erased ----------

  /**
   A tick between the reading and the clearing of the overflow bits that takes a word off the ring, finds the gate open
   and the FIFO full at every poll.
   */
  ghost predicate Untimely(c: Config, p: Pipe, e: Event) {
    && c.timerMode && p.phase.Clearing? && e.Alarm? && e.number == p.ring.alarm && p.ring.queue != [] && !p.gate.error
    && |p.ring.queue[0]| == 1 && p.ring.queue[0][0] != 0
    && forall k :: 0 <= k < POLLS ==> FullAt(c.t, p.channel.sm, e.gaps, 0, k)
  }

  /** Event i of the run was such a tick. */
  ghost predicate UntimelyAt(c: Config, p: Pipe, es: seq<Event>, i: nat)
    requires |c.table| == TABLE
  {
    i < |es| && Untimely(c, Run(c, p, es[..i]), es[i])
  }

  /** And the bits have not been cleared since. */
  ghost predicate StillSet(c: Config, p: Pipe, es: seq<Event>, i: nat)
    requires |c.table| == TABLE
  {
    UntimelyAt(c, p, es, i) && forall j :: i < j < |es| ==> !es[j].ClearFlag?
  }

  ghost predicate SomeStillSet(c: Config, p: Pipe, es: seq<Event>)
    requires |c.table| == TABLE
  {
    exists i: nat :: StillSet(c, p, es, i)
  }

  /** Some such tick was followed by a clearing. */
  ghost predicate SomeCleared(c: Config, p: Pipe, es: seq<Event>)
    requires |c.table| == TABLE
  {
    exists i: nat, j: nat :: UntimelyAt(c, p, es, i) && i < j < |es| && es[j].ClearFlag?
  }

  lemma UntimelyDrops(c: Config, p: Pipe, e: Event)
    requires ValidConfig(c) && p.phase.Clearing? && e.Alarm?
    ensures var q := Next(c, p, e);
            q.phase.Clearing? && q.erased == p.erased && q.unread == p.unread + if Untimely(c, p, e) then 1 else 0
  {
    hide Wait, FullAt, Wired;
    WaitFails(c.t, p.channel.sm, e.gaps, 0);
  }

  /** Between the reading and the clearing, no other event touches the words not read; outside it none is untimely. */
  lemma OthersKeepUnread(c: Config, p: Pipe, e: Event)
    requires ValidConfig(c) && !e.Alarm? && !e.ClearFlag?
    ensures var q := Next(c, p, e);
            && q.erased == p.erased && (p.phase.Clearing? ==> q.phase.Clearing? && q.unread == p.unread)
            && (!p.phase.Clearing? && q.phase.Clearing? ==> q.unread == 0)
  {
    hide Offer, Dropped, Cycle, Steps, Entering, Intent, Fits, StepRing.Enqueue, StepRing.Stop;
  }

  lemma TicksKeepPhase(c: Config, p: Pipe, e: Event)
    requires ValidConfig(c) && e.Alarm?
    ensures Next(c, p, e).phase == p.phase && Next(c, p, e).erased == p.erased
  {
    hide Offer, Dropped, Entering, StepRing.Tick;
  }

  lemma {:induction false} FrontUntimely(c: Config, p: Pipe, es: seq<Event>, i: nat)
    requires ValidConfig(c) && es != [] && i < |es| - 1
    ensures UntimelyAt(c, p, es, i) <==> UntimelyAt(c, p, es[..|es| - 1], i)
  {
    assert es[..|es| - 1][..i] == es[..i];
  }

  /** One more event, that is not a clearing. */
  lemma OneMore(c: Config, p: Pipe, es: seq<Event>)
    requires ValidConfig(c) && es != [] && !es[|es| - 1].ClearFlag?
    ensures var before := es[..|es| - 1];
            && (SomeCleared(c, p, es) <==> SomeCleared(c, p, before))
            && (SomeStillSet(c, p, es) <==>
                SomeStillSet(c, p, before) || Untimely(c, Run(c, p, before), es[|es| - 1]))
  {
    hide Untimely, Run;
    var before, n := es[..|es| - 1], |es| - 1;
    forall i: nat | i < n
      ensures UntimelyAt(c, p, es, i) == UntimelyAt(c, p, before, i)
      ensures StillSet(c, p, es, i) == StillSet(c, p, before, i)
    {
      FrontUntimely(c, p, es, i);
    }
    assert StillSet(c, p, es, n) <==> Untimely(c, Run(c, p, before), es[n]);
    if SomeStillSet(c, p, before) {
      var i: nat :| StillSet(c, p, before, i);
      assert StillSet(c, p, es, i);
    }
    if SomeStillSet(c, p, es) {
      var i: nat :| StillSet(c, p, es, i);
      assert i < n ==> StillSet(c, p, before, i);
    }
    if SomeCleared(c, p, before) {
      var i: nat, j: nat :| UntimelyAt(c, p, before, i) && i < j < |before| && before[j].ClearFlag?;
      assert UntimelyAt(c, p, es, i) && es[j].ClearFlag?;
    }
    if SomeCleared(c, p, es) {
      var i: nat, j: nat :| UntimelyAt(c, p, es, i) && i < j < |es| && es[j].ClearFlag?;
      assert UntimelyAt(c, p, before, i) && before[j].ClearFlag?;
    }
  }

  /** After a clearing no bit is still set. */
  lemma NoneStillSet(c: Config, p: Pipe, es: seq<Event>)
    requires ValidConfig(c) && es != [] && es[|es| - 1].ClearFlag?
    ensures !SomeStillSet(c, p, es)
  {
    hide Run, Untimely;
    forall i: nat
      ensures !StillSet(c, p, es, i)
    {
      if UntimelyAt(c, p, es, i) {
        assert i != |es| - 1 by { OnlyTicks(c, p, es, i); }
      }
    }
  }

  lemma OnlyTicks(c: Config, p: Pipe, es: seq<Event>, i: nat)
    requires ValidConfig(c) && UntimelyAt(c, p, es, i)
    ensures i < |es| && es[i].Alarm?
  {
    hide Run;
  }

  lemma ClearingCompletes(c: Config, p: Pipe, es: seq<Event>)
    requires ValidConfig(c) && es != [] && es[|es| - 1].ClearFlag?
    requires SomeCleared(c, p, es[..|es| - 1]) || SomeStillSet(c, p, es[..|es| - 1])
    ensures SomeCleared(c, p, es)
  {
    hide Run, UntimelyAt;
    var before, n := es[..|es| - 1], |es| - 1;
    if SomeStillSet(c, p, before) {
      var i: nat :| StillSet(c, p, before, i);
      Within(c, p, before, i);
      FrontUntimely(c, p, es, i);
      assert UntimelyAt(c, p, es, i) && es[n].ClearFlag?;
    } else {
      var i: nat, j: nat :| UntimelyAt(c, p, before, i) && i < j < |before| && before[j].ClearFlag?;
      FrontUntimely(c, p, es, i);
      assert UntimelyAt(c, p, es, i) && es[j].ClearFlag?;
    }
  }

  lemma ClearingNeeds(c: Config, p: Pipe, es: seq<Event>)
    requires ValidConfig(c) && es != [] && es[|es| - 1].ClearFlag? && SomeCleared(c, p, es)
    ensures SomeCleared(c, p, es[..|es| - 1]) || SomeStillSet(c, p, es[..|es| - 1])
  {
    hide Run, UntimelyAt;
    var before := es[..|es| - 1];
    var i: nat, j: nat :| UntimelyAt(c, p, es, i) && i < j < |es| && es[j].ClearFlag?;
    FrontUntimely(c, p, es, i);
    if k: nat :| i < k < |before| && before[k].ClearFlag? {
      assert SomeCleared(c, p, before);
    } else {
      assert StillSet(c, p, before, i);
    }
  }

  /** One more clearing. */
  lemma OneClearing(c: Config, p: Pipe, es: seq<Event>)
    requires ValidConfig(c) && es != [] && es[|es| - 1].ClearFlag?
    ensures var before := es[..|es| - 1];
            && (SomeCleared(c, p, es) <==> SomeCleared(c, p, before) || SomeStillSet(c, p, before))
            && !SomeStillSet(c, p, es)
  {
    hide SomeCleared, SomeStillSet;
    NoneStillSet(c, p, es);
    if SomeCleared(c, p, es) {
      ClearingNeeds(c, p, es);
    }
    if SomeCleared(c, p, es[..|es| - 1]) || SomeStillSet(c, p, es[..|es| - 1]) {
      ClearingCompletes(c, p, es);
    }
  }

  lemma Within(c: Config, p: Pipe, es: seq<Event>, i: nat)
    requires ValidConfig(c) && UntimelyAt(c, p, es, i)
    ensures i < |es|
  {
  }

  /**
   Exactly when an overflow bit is erased without a report having carried it: when some tick between a report's reading
   and clearing of the bits drops a word, and the clearing follows.
   */
  lemma {:induction false} ErasedIffUntimely(c: Config, p: Pipe, es: seq<Event>)
    requires ValidConfig(c) && Start(p)
    ensures var q := Run(c, p, es);
            && (q.erased > 0 <==> SomeCleared(c, p, es))
            && (q.phase.Clearing? && q.unread > 0 <==> SomeStillSet(c, p, es))
  {
    hide Next, Untimely, SomeCleared, SomeStillSet;
    if es == [] {
      NothingYet(c, p);
    } else {
      var before, e := es[..|es| - 1], es[|es| - 1];
      var b := Run(c, p, before);
      ErasedIffUntimely(c, p, before);
      if e.ClearFlag? {
        OneClearing(c, p, es);
        Clears(c, b);
      } else {
        OneMore(c, p, es);
        if e.Alarm? {
          TicksKeepPhase(c, b, e);
          if b.phase.Clearing? {
            UntimelyDrops(c, b, e);
          }
        } else {
          OthersKeepUnread(c, b, e);
        }
        if Untimely(c, b, e) {
          OnlyInWindow(c, b, e);
        }
      }
    }
  }

  lemma NothingYet(c: Config, p: Pipe)
    requires ValidConfig(c)
    ensures !SomeCleared(c, p, []) && !SomeStillSet(c, p, [])
  {
  }

  lemma OnlyInWindow(c: Config, p: Pipe, e: Event)
    requires Untimely(c, p, e)
    ensures p.phase.Clearing? && e.Alarm?
  {
  }

  lemma Clears(c: Config, p: Pipe)
    requires ValidConfig(c)
    ensures var q := Next(c, p, ClearFlag);
            !q.phase.Clearing? && q.erased == p.erased + if p.phase.Clearing? then p.unread else 0
  {
  }
}
