/** The firmware's checksum gate: after a bad packet nothing takes effect until ten good ones in a row have arrived. */
module ChecksumGate {

  const RECOVERY := 10

  datatype Gate = Gate(error: bool, okCount: nat)

  const OPEN := Gate(false, 0)

  /** The gate after a packet whose checksum is good or bad. */
  function Next(g: Gate, good: bool): Gate {
    if !good then Gate(true, 0)
    else if !g.error then g
    else if g.okCount + 1 >= RECOVERY then OPEN
    else Gate(true, g.okCount + 1)
  }

  /** The gate after a sequence of packets. */
  function From(g: Gate, packets: seq<bool>): Gate {
    if packets == [] then g else Next(From(g, packets[..|packets| - 1]), packets[|packets| - 1])
  }

  function After(packets: seq<bool>): Gate {
    From(OPEN, packets)
  }

  /** Some packet among the last n is bad. */
  ghost predicate BadWithin(packets: seq<bool>, n: nat) {
    exists i :: 0 <= i < |packets| && |packets| - n <= i && !packets[i]
  }

  /** The good packets since the last bad one are counted exactly, while the gate is shut. */
  lemma {:induction false} Counts(packets: seq<bool>)
    ensures var g := After(packets);
            && g.okCount < RECOVERY && (!g.error ==> g.okCount == 0)
            && (g.error ==> g.okCount < |packets| && !packets[|packets| - 1 - g.okCount]
                            && forall i :: |packets| - g.okCount <= i < |packets| ==> packets[i])
            && (!g.error ==> !BadWithin(packets, RECOVERY))
  {
    if packets != [] {
      var before := packets[..|packets| - 1];
      Counts(before);
      assert forall i :: 0 <= i < |before| ==> before[i] == packets[i];
      var g := After(packets);
      if !g.error && BadWithin(packets, RECOVERY) {
        var i :| 0 <= i < |packets| && |packets| - RECOVERY <= i && !packets[i];
        assert !before[i];
        if !After(before).error {
          assert BadWithin(before, RECOVERY);
        }
      }
    }
  }

  /** A packet takes effect if and only if none of it and the nine packets before it is bad. */
  lemma SlidingWindow(packets: seq<bool>)
    ensures !After(packets).error <==> !BadWithin(packets, RECOVERY)
  {
    Counts(packets);
    var g := After(packets);
    if g.error {
      assert !packets[|packets| - 1 - g.okCount];
    }
  }

  /**
   A disconnect opens the gate but leaves the count of good packets as it is. The stale count never matters: from then
   on the gate lets through what a new one would.
   */
  lemma {:induction false} DisconnectForgets(g: Gate, packets: seq<bool>)
    ensures var h := From(g.(error := false), packets);
            h.error == After(packets).error && (h.error ==> h == After(packets))
  {
    if packets != [] {
      DisconnectForgets(g, packets[..|packets| - 1]);
    }
  }

  /** After an open gate only later packets matter. */
  lemma OnlyLater(a: seq<bool>, b: seq<bool>)
    requires !BadWithin(a, RECOVERY)
    ensures BadWithin(a + b, RECOVERY) <==> BadWithin(b, RECOVERY)
  {
    var all := a + b;
    if i :| 0 <= i < |all| && |all| - RECOVERY <= i && !all[i] {
      if i >= |a| {
        assert !b[i - |a|];
      }
    }
    if i :| 0 <= i < |b| && |b| - RECOVERY <= i && !b[i] {
      assert !all[|a| + i];
    }
  }
}
