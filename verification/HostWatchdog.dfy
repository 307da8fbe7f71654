/** The host driver's watchdog: the three exported functions as they touch the clock, the link and the expiry flag. */
module HostWatchdog {

  const TIMEOUT := 10

  /** The watchdog fields, and the number of packets sent. */
  datatype State = State(now: nat, lastReceived: nat, expired: bool, running: bool, sent: nat)

  const INITIAL := State(0, 0, false, false, 0)

  /** `valid` is the checksum of the reply, or debug mode that ignores it. */
  datatype Event = Watchdog | Receive(valid: bool) | Send

  function Tick(s: State): State {
    var now := s.now + 1;
    s.(now := now, running := true, expired := now - s.lastReceived > TIMEOUT)
  }

  /** Whether a reply is accepted now: not once expired, and before the first one was timed its checksum is ignored. */
  predicate Accepts(s: State, valid: bool) {
    !s.expired && (valid || s.lastReceived == 0)
  }

  function Next(s: State, e: Event): State {
    match e
    case Watchdog => Tick(s)
    case Receive(valid) => if Accepts(s, valid) then s.(lastReceived := s.now) else s
    case Send => if s.expired || !s.running then s else s.(sent := s.sent + 1)
  }

  function Run(es: seq<Event>): State {
    if es == [] then INITIAL else Next(Run(es[..|es| - 1]), es[|es| - 1])
  }

  // ---------- the law, on events alone ----------

  /** Ticks of a run. */
  function Ticks(es: seq<Event>): nat {
    if es == [] then 0 else Ticks(es[..|es| - 1]) + if es[|es| - 1].Watchdog? then 1 else 0
  }

  /**
   The last event is a reply that counts: the link has never been silent too long, and its checksum is good, or no reply
   has counted since the first tick.
   */
  ghost predicate Counts(es: seq<Event>)
    decreases |es|, 0
  {
    && es != [] && es[|es| - 1].Receive?
    && !WentSilent(es[..|es| - 1]) && (es[|es| - 1].valid || !Timed(es[..|es| - 1]))
  }

  /** Some reply has counted since the first tick. */
  ghost predicate Timed(es: seq<Event>)
    decreases |es|, 1
  {
    es != [] && (Timed(es[..|es| - 1]) || (Counts(es) && Ticks(es) > 0))
  }

  /** Ticks since the last reply that counted, or since the start. */
  ghost function Silence(es: seq<Event>): nat
    decreases |es|, 1
  {
    if es == [] || Counts(es) then 0 else Silence(es[..|es| - 1]) + if es[|es| - 1].Watchdog? then 1 else 0
  }

  /** At some point of the run more than ten ticks had passed without a reply that counted. */
  ghost predicate WentSilent(es: seq<Event>)
    decreases |es|, 2
  {
    Silence(es) > TIMEOUT || (es != [] && WentSilent(es[..|es| - 1]))
  }

  /** In other words, some prefix of the run ends in such a silence. */
  lemma {:induction false} SilentPrefix(es: seq<Event>)
    ensures WentSilent(es) <==> exists k :: 0 <= k <= |es| && Silence(es[..k]) > TIMEOUT
  {
    hide Silence;
    assert es[..|es|] == es;
    if es != [] {
      var before := es[..|es| - 1];
      SilentPrefix(before);
      assert forall k :: 0 <= k < |es| ==> es[..k] == before[..k];
      if k :| 0 <= k <= |before| && Silence(before[..k]) > TIMEOUT {
        assert Silence(es[..k]) > TIMEOUT;
      }
    }
  }

  /** The driver's fields are what the events say. */
  ghost predicate Agrees(s: State, es: seq<Event>) {
    && s.now == Ticks(es) && s.lastReceived <= s.now && s.now - s.lastReceived == Silence(es)
    && (s.lastReceived != 0 <==> Timed(es))
    && (s.expired <==> WentSilent(es)) && (s.expired <==> Silence(es) > TIMEOUT)
    && (s.running <==> Ticks(es) > 0)
  }

  lemma {:induction false} RunAgrees(es: seq<Event>)
    ensures Agrees(Run(es), es)
  {
    if es != [] {
      RunAgrees(es[..|es| - 1]);
    }
  }

  /** The watchdog is expired exactly when the link has at some point been silent for more than ten ticks. */
  lemma ExpiredIffSilent(es: seq<Event>)
    ensures Run(es).expired <==> WentSilent(es)
    ensures Run(es).expired <==> exists k :: 0 <= k <= |es| && Silence(es[..k]) > TIMEOUT
  {
    RunAgrees(es);
    SilentPrefix(es);
  }

  /** Once expired, it stays expired through any further events, and no packet is sent and no reply accepted. */
  lemma {:induction false} Latches(es: seq<Event>, more: seq<Event>)
    requires Run(es).expired
    ensures var s := Run(es + more);
            s.expired && s.sent == Run(es).sent && s.lastReceived == Run(es).lastReceived && s.now >= Run(es).now
  {
    if more == [] {
      assert es + more == es;
    } else {
      var most := more[..|more| - 1];
      Latches(es, most);
      assert (es + more)[..|es + more| - 1] == es + most;
      RunAgrees(es);
    }
  }

  /** Once a reply has counted since the first tick, a bad one changes nothing. */
  lemma BadRepliesIgnored(es: seq<Event>)
    requires Timed(es)
    ensures Run(es + [Receive(false)]) == Run(es)
    ensures Timed(es + [Receive(false)]) && Silence(es + [Receive(false)]) == Silence(es)
  {
    hide Silence, Timed, WentSilent;
    var more := es + [Receive(false)];
    assert more[..|more| - 1] == es;
    RunAgrees(es);
    BadReplyCountsNot(es);
  }

  lemma BadReplyCountsNot(es: seq<Event>)
    requires Timed(es)
    ensures var more := es + [Receive(false)];
            !Counts(more) && Timed(more) && Silence(more) == Silence(es)
  {
    var more := es + [Receive(false)];
    assert more[..|more| - 1] == es;
  }

  /** So a link that goes on delivering only bad replies expires at the eleventh tick, whatever came before. */
  lemma {:induction false} CorruptLinkExpires(es: seq<Event>, more: seq<Event>)
    requires Timed(es) && forall i :: 0 <= i < |more| ==> !more[i].Receive? || !more[i].valid
    ensures var all := es + more; Timed(all) && Silence(all) == Silence(es) + Ticks(more)
    ensures Ticks(more) > TIMEOUT ==> Run(es + more).expired
  {
    hide Silence, Timed, WentSilent;
    RunAgrees(es + more);
    if more == [] {
      assert es + more == es;
    } else {
      var most, e := more[..|more| - 1], more[|more| - 1];
      CorruptLinkExpires(es, most);
      assert es + more == es + most + [e];
      if e.Receive? {
        BadReplyCountsNot(es + most);
      } else {
        OtherEvents(es + most, e);
      }
    }
  }

  lemma OtherEvents(es: seq<Event>, e: Event)
    requires !e.Receive?
    ensures var more := es + [e];
            (Timed(more) <==> Timed(es)) && Silence(more) == Silence(es) + if e.Watchdog? then 1 else 0
  {
    var more := es + [e];
    assert more[..|more| - 1] == es;
  }

  /** Sends of a run that come after the first tick and before any silence. */
  ghost function Sends(es: seq<Event>): nat {
    if es == [] then 0
    else
      var before := es[..|es| - 1];
      Sends(before) + if es[|es| - 1].Send? && Ticks(before) > 0 && !WentSilent(before) then 1 else 0
  }

  /** A running driver that has not expired sends at every call, and at no other. */
  lemma {:induction false} SendsAtEveryCall(es: seq<Event>)
    ensures Run(es).sent == Sends(es)
  {
    hide Ticks, WentSilent;
    if es != [] {
      SendsAtEveryCall(es[..|es| - 1]);
      RunAgrees(es[..|es| - 1]);
    }
  }

  // ---------- the driver's functions ----------

  class Driver {
    var now: int
    var lastReceived: int
    var expired: bool
    var running: bool
    ghost var sent: nat

    ghost predicate Valid()
      reads this
    {
      0 <= lastReceived <= now
    }

    ghost function Fields(): State
      requires Valid()
      reads this
    {
      State(now, lastReceived, expired, running, sent)
    }

    constructor ()
      ensures Valid() && Fields() == INITIAL
    {
      now, lastReceived, expired, running, sent := 0, 0, false, false, 0;
    }

    method WatchdogProcess()
      requires Valid()
      modifies this
      ensures Valid() && Fields() == Next(old(Fields()), Watchdog)
    {
      now := now + 1;
      running := true;
      var elapsed := now - lastReceived;
      if elapsed < 0 {
        elapsed := 0;
      }
      if elapsed > TIMEOUT {
        expired := true;
      } else {
        expired := false;
      }
    }

    method ProcessRecv(checksumOk: bool, debugMode: bool) returns (accepted: bool)
      requires Valid()
      modifies this
      ensures Valid() && Fields() == Next(old(Fields()), Receive(checksumOk || debugMode))
      ensures accepted <==> !old(expired) && (checksumOk || debugMode || old(lastReceived) == 0)
      ensures lastReceived == if accepted then now else old(lastReceived)
    {
      if expired {
        return false;
      }
      if lastReceived != 0 && !checksumOk && !debugMode {
        return false;
      }
      lastReceived := now;
      return true;
    }

    method ProcessSend() returns (sends: bool)
      requires Valid()
      modifies this
      ensures Valid() && Fields() == Next(old(Fields()), Send) && (sends <==> sent == old(sent) + 1)
    {
      if expired {
        return false;
      }
      if running {
        sent := sent + 1;
        return true;
      }
      return false;
    }
  }
}
