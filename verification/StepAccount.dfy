/**
 What every single instruction of the step program keeps, whatever words arrive and whenever: no step is lost or
 invented, and no STEP edge comes sooner after a DIR change than the set-up time.
 */
module StepAccount {
  import opened Bits
  import opened PioMachine
  import opened StepProgram

  /** The register ranges at each address. */
  ghost predicate Sane(s: Sm) {
    && s.pc < 23 && s.dir < 2
    && s.step == (if 16 <= s.pc <= 19 then 1 else 0)
    && (3 <= s.pc != 14 ==> s.x < 1024)
    && (s.pc == 14 ==> s.x == WORD - 1)
    && (s.pc == 4 ==> s.y < 2)
  }

  // ---------- steps ----------

  /** +n or -n steps for a DIR level; an inverted axis counts the other way. */
  function Signed(dir: nat, n: int, inverted: bool): int {
    if (dir == 1) != inverted then n else -n
  }

  function WordSteps(w: nat, inverted: bool): int {
    Signed(Dir(w), Count(w), inverted)
  }

  function QueueSteps(ws: seq<nat>, inverted: bool): int {
    if ws == [] then 0 else WordSteps(ws[0], inverted) + QueueSteps(ws[1..], inverted)
  }

  function EdgeSteps(e: Edge, inverted: bool): int {
    if e.Rise? then Signed(e.dir, 1, inverted) else 0
  }

  /** Signed STEP pulses on the pins. */
  function Emitted(log: seq<Edge>, inverted: bool): int {
    if log == [] then 0
    else Emitted(log[..|log| - 1], inverted)
         + EdgeSteps(log[|log| - 1], inverted)
  }

  /** Signed steps of the word being executed that have not reached the STEP pin. */
  function InProgress(s: Sm, inverted: bool): int {
    if s.pc <= 1 || s.pc == 14 then 0
    else if s.pc == 2 then WordSteps(s.osr, inverted)
    else if s.pc == 3 then Signed(s.osr % 2, s.x, inverted)
    else if s.pc == 4 then Signed(s.y, s.x, inverted)
    else if s.pc == 15 then Signed(s.dir, s.x + 1, inverted)
    else Signed(s.dir, s.x, inverted)
  }

  function Account(s: Sm, inverted: bool): int {
    Emitted(s.log, inverted) + InProgress(s, inverted) + QueueSteps(s.tx, inverted)
  }

  lemma EmittedAppend(log: seq<Edge>, e: Edge, inverted: bool)
    ensures Emitted(log + [e], inverted) == Emitted(log, inverted) + EdgeSteps(e, inverted)
  {
    assert (log + [e])[..|log|] == log;
  }

  lemma {:induction false} QueueAppend(ws: seq<nat>, w: nat, inverted: bool)
    ensures QueueSteps(ws + [w], inverted) == QueueSteps(ws, inverted) + WordSteps(w, inverted)
  {
    if ws == [] {
    } else {
      assert (ws + [w])[1..] == ws[1..] + [w];
      QueueAppend(ws[1..], w, inverted);
    }
  }

  /** Every instruction keeps the register ranges and the number of signed steps emitted plus pending. */
  lemma GoKeepsAccount(t: Timing, s: Sm, inverted: bool)
    requires ValidTiming(t) && Sane(s)
    ensures Sane(Go(t, s)) && Account(Go(t, s), inverted) == Account(s, inverted)
  {
    hide QueueSteps, Emitted;
    Powers();
    if s.pc < 5 {
      KeepsHeader(t, s, inverted);
    } else if s.pc < 15 {
      KeepsSetup(t, s, inverted);
    } else {
      KeepsPulse(t, s, inverted);
    }
  }

  lemma KeepsHeader(t: Timing, s: Sm, inverted: bool)
    requires ValidTiming(t) && Sane(s) && s.pc < 5
    ensures Sane(Go(t, s)) && Account(Go(t, s), inverted) == Account(s, inverted)
  {
    hide Emitted;
    Powers();
    var e := Turn(s.cycles, s.y);
    EmittedAppend(s.log, e, inverted);
    match s.pc
    case 2 => assert s.osr / 1024 % 2 == Dir(s.osr);
    case _ =>
  }

  lemma KeepsSetup(t: Timing, s: Sm, inverted: bool)
    requires ValidTiming(t) && Sane(s) && 5 <= s.pc < 15
    ensures Sane(Go(t, s)) && Account(Go(t, s), inverted) == Account(s, inverted)
  {
    hide QueueSteps, Emitted;
    Powers();
  }

  lemma KeepsPulse(t: Timing, s: Sm, inverted: bool)
    requires ValidTiming(t) && Sane(s) && 15 <= s.pc
    ensures Sane(Go(t, s)) && Account(Go(t, s), inverted) == Account(s, inverted)
  {
    hide QueueSteps, Emitted;
    EmittedAppend(s.log, Rise(s.cycles, s.dir), inverted);
    EmittedAppend(s.log, Fall(s.cycles), inverted);
  }

  // ---------- DIR set-up ----------

  /** Every word that changes DIR, from level d on, carries the set-up flag, bit 11. */
  ghost predicate Flagged(d: int, ws: seq<nat>)
    decreases |ws|
  {
    ws == [] || ((Dir(ws[0]) != d ==> Turning(ws[0]) == 1) && Flagged(Dir(ws[0]), ws[1..]))
  }

  /** The DIR level the words so far lead to. */
  function LastDir(d: int, ws: seq<nat>): int
    decreases |ws|
  {
    if ws == [] then d else LastDir(Dir(ws[0]), ws[1..])
  }

  lemma {:induction false} FlaggedAppend(d: int, ws: seq<nat>, w: nat)
    ensures Flagged(d, ws + [w]) <==> Flagged(d, ws) && (Dir(w) != LastDir(d, ws) ==> Turning(w) == 1)
    ensures LastDir(d, ws + [w]) == Dir(w)
    decreases |ws|
  {
    if ws == [] {
      assert ([w])[1..] == [];
    } else {
      assert (ws + [w])[1..] == ws[1..] + [w];
      FlaggedAppend(Dir(ws[0]), ws[1..], w);
    }
  }

  /** The set-up time the patched program provides, in cycles. */
  function SetupCycles(t: Timing): nat {
    66 * t.dirN + 7
  }

  /** The DIR level once the word being executed has set it. */
  function ComingDir(s: Sm): int {
    if s.pc == 2 then Dir(s.osr) else if s.pc == 3 then s.osr % 2 else if s.pc == 4 then s.y else s.dir
  }

  /** Between fetch and DIR write: the flag of the word being executed, if it will change DIR. */
  ghost predicate ComingFlag(s: Sm) {
    && (s.pc == 2 && Dir(s.osr) != s.dir ==> Turning(s.osr) == 1)
    && (s.pc == 3 && s.osr % 2 != s.dir ==> (s.osr / 2) % 2 == 1)
    && (s.pc == 4 && s.y != s.dir ==> s.osr % 2 == 1)
  }

  /** At least this many cycles passed since the last DIR change, address by address. */
  function SinceTurn(t: Timing, s: Sm): int {
    if s.pc == 5 && s.osr % 2 == 1 then 1
    else if s.pc == 6 && s.y != 0 then 2
    else if s.pc == 7 then 3
    else if s.pc == 8 then 4 + 66 * (t.dirN - s.y)
    else if s.pc == 9 then 5 + 66 * t.dirN
    else if s.pc == 10 then 5 + 66 * (t.dirN - 1 - s.y)
    else if s.pc == 11 then 37 + 66 * (t.dirN - 1 - s.y)
    else if s.pc == 12 then 69 + 66 * (t.dirN - 1 - s.y)
    else if s.pc == 15 then SetupCycles(t)
    else SetupCycles(t) - 1
  }

  ghost predicate TurnsBefore(log: seq<Edge>, at: int) {
    forall e :: e in log && e.Turn? ==> e.at <= at
  }

  /** No STEP edge comes sooner than `setup` cycles after an earlier DIR change. */
  ghost predicate SetupKept(log: seq<Edge>, setup: nat) {
    forall i, j :: 0 <= i < j < |log| && log[i].Turn? && log[j].Rise? ==> log[j].at - log[i].at >= setup
  }

  ghost predicate SetupInv(t: Timing, s: Sm) {
    && Sane(s)
    && (s.pc == 8 ==> s.y <= t.dirN)
    && (s.pc in {10, 11, 12} ==> s.y < t.dirN)
    && ComingFlag(s)
    && Flagged(ComingDir(s), s.tx)
    && TurnsBefore(s.log, s.cycles - SinceTurn(t, s))
    && SetupKept(s.log, SetupCycles(t))
  }

  /** Every instruction keeps the DIR set-up time, given flagged words. */
  lemma GoKeepsSetup(t: Timing, s: Sm)
    requires ValidTiming(t) && SetupInv(t, s)
    ensures SetupInv(t, Go(t, s))
  {
    GoKeepsAccount(t, s, false);
    if s.pc < 3 {
      SetupFetch(t, s);
    } else if s.pc < 5 {
      SetupTurn(t, s);
    } else if s.pc < 9 {
      SetupFlag(t, s);
    } else if s.pc < 15 {
      SetupDelay(t, s);
    } else {
      SetupPulse(t, s);
    }
  }

  lemma SetupFetch(t: Timing, s: Sm)
    requires ValidTiming(t) && SetupInv(t, s) && s.pc < 3 && Sane(Go(t, s))
    ensures SetupInv(t, Go(t, s))
  {
    Powers();
    if s.pc == 2 {
      assert s.osr / 1024 % 2 == Dir(s.osr) && s.osr / 1024 / 2 == s.osr / 2048;
    }
  }

  lemma SetupTurn(t: Timing, s: Sm)
    requires ValidTiming(t) && SetupInv(t, s) && 3 <= s.pc < 5 && Sane(Go(t, s))
    ensures SetupInv(t, Go(t, s))
  {
    hide Flagged;
    Powers();
  }

  lemma SetupFlag(t: Timing, s: Sm)
    requires ValidTiming(t) && SetupInv(t, s) && 5 <= s.pc < 9 && Sane(Go(t, s))
    ensures SetupInv(t, Go(t, s))
  {
    hide Flagged;
    Powers();
  }

  lemma SetupDelay(t: Timing, s: Sm)
    requires ValidTiming(t) && SetupInv(t, s) && 9 <= s.pc < 15 && Sane(Go(t, s))
    ensures SetupInv(t, Go(t, s))
  {
    hide Flagged, Pow2;
  }

  lemma SetupPulse(t: Timing, s: Sm)
    requires ValidTiming(t) && SetupInv(t, s) && 15 <= s.pc && Sane(Go(t, s))
    ensures SetupInv(t, Go(t, s))
  {
    hide Flagged;
  }

  // ---------- runs of the machine alone ----------

  lemma {:induction false} StepsKeepAccount(t: Timing, s: Sm, inverted: bool, n: nat)
    requires ValidTiming(t) && Sane(s)
    ensures Sane(Steps(t, s, n)) && Account(Steps(t, s, n), inverted) == Account(s, inverted)
    decreases n
  {
    hide Go, Account;
    if n > 0 {
      GoKeepsAccount(t, s, inverted);
      StepsKeepAccount(t, Go(t, s), inverted, n - 1);
    }
  }

  lemma ComingInHeader(t: Timing, s: Sm)
    requires ValidTiming(t) && Sane(s) && 2 <= s.pc < 5
    ensures Go(t, s).tx == s.tx && ComingDir(Go(t, s)) == ComingDir(s)
  {
    Powers();
    if s.pc == 2 {
      assert s.osr / 1024 % 2 == Dir(s.osr);
    }
  }

  lemma ComingInBody(t: Timing, s: Sm)
    requires ValidTiming(t) && Sane(s) && (s.pc == 0 || 5 <= s.pc)
    ensures Go(t, s).tx == s.tx && ComingDir(Go(t, s)) == ComingDir(s)
  {
    hide Pow2;
  }

  lemma Fetched(t: Timing, s: Sm)
    requires s.pc == 1 && s.tx != []
    ensures Go(t, s).tx == s.tx[1..] && ComingDir(Go(t, s)) == Dir(s.tx[0])
    ensures ComingDir(s) == s.dir
  {
  }

  /** The words the machine will still fetch stay flagged, and lead to the same DIR level, also with more to come. */
  lemma GoKeepsFlags(t: Timing, s: Sm, later: seq<nat>)
    requires ValidTiming(t) && Sane(s)
    ensures Flagged(ComingDir(s), s.tx + later) ==> Flagged(ComingDir(Go(t, s)), Go(t, s).tx + later)
    ensures LastDir(ComingDir(Go(t, s)), Go(t, s).tx + later) == LastDir(ComingDir(s), s.tx + later)
  {
    if 2 <= s.pc < 5 {
      ComingInHeader(t, s);
    } else if s.pc != 1 {
      ComingInBody(t, s);
    } else if s.tx != [] {
      hide Go, ComingDir;
      Fetched(t, s);
      assert (s.tx + later)[1..] == s.tx[1..] + later;
    }
  }

  /** Any number of instructions leads to the DIR level the queued words led to. */
  lemma {:induction false} StepsKeepLast(t: Timing, s: Sm, n: nat)
    requires ValidTiming(t) && Sane(s)
    ensures Sane(Steps(t, s, n))
    ensures LastDir(ComingDir(Steps(t, s, n)), Steps(t, s, n).tx) == LastDir(ComingDir(s), s.tx)
    decreases n
  {
    hide Go, LastDir, ComingDir, Account;
    if n > 0 {
      GoKeepsAccount(t, s, false);
      GoKeepsFlags(t, s, []);
      assert s.tx + [] == s.tx && Go(t, s).tx + [] == Go(t, s).tx;
      StepsKeepLast(t, Go(t, s), n - 1);
    }
  }

  lemma {:induction false} StepsKeepSetup(t: Timing, s: Sm, later: seq<nat>, n: nat)
    requires ValidTiming(t) && SetupInv(t, s) && Flagged(ComingDir(s), s.tx + later)
    ensures var e := Steps(t, s, n);
            && SetupInv(t, e) && Flagged(ComingDir(e), e.tx + later)
            && LastDir(ComingDir(e), e.tx + later) == LastDir(ComingDir(s), s.tx + later)
    decreases n
  {
    hide Go, Flagged, LastDir, ComingDir, SinceTurn;
    if n > 0 {
      GoKeepsSetup(t, s);
      GoKeepsFlags(t, s, later);
      StepsKeepSetup(t, Go(t, s), later, n - 1);
    }
  }

  // ---------- a DIR change without its flag ----------

  /** A word that has steps and changes DIR from level d, without the set-up flag. */
  predicate Unprepared(d: int, w: nat) {
    Dir(w) != d && Turning(w) == 0 && Count(w) > 0
  }

  /** Some word of the list is one, from level d on. */
  ghost predicate Breaks(d: int, ws: seq<nat>)
    decreases |ws|
  {
    ws != [] && (Unprepared(d, ws[0]) || Breaks(Dir(ws[0]), ws[1..]))
  }

  lemma {:induction false} BreaksAppend(d: int, ws: seq<nat>, w: nat)
    ensures Breaks(d, ws + [w]) <==> Breaks(d, ws) || Unprepared(LastDir(d, ws), w)
    decreases |ws|
  {
    if ws == [] {
      assert ([w])[1..] == [];
    } else {
      assert (ws + [w])[1..] == ws[1..] + [w];
      BreaksAppend(Dir(ws[0]), ws[1..], w);
    }
  }

  /** When every word has steps, the list breaks the set-up exactly when it is not flagged. */
  lemma {:induction false} BreaksUnlessFlagged(d: int, ws: seq<nat>)
    requires forall i :: 0 <= i < |ws| ==> Count(ws[i]) > 0
    ensures Breaks(d, ws) <==> !Flagged(d, ws)
    decreases |ws|
  {
    hide Count, Dir, Turning;
    if ws != [] {
      BreaksUnlessFlagged(Dir(ws[0]), ws[1..]);
      assert Turning(ws[0]) < 2 by { FlagIsBit(ws[0]); }
    }
  }

  lemma FlagIsBit(w: nat)
    ensures Turning(w) < 2
  {
  }

  ghost predicate TurnAt(log: seq<Edge>, at: int) {
    exists i :: 0 <= i < |log| && log[i].Turn? && log[i].at == at
  }

  /** The word being executed changes DIR without its flag: the first STEP edge will come four cycles after. */
  ghost predicate Hasty(s: Sm) {
    || (s.pc == 2 && Unprepared(s.dir, s.osr))
    || (s.pc == 3 && s.osr % 2 != s.dir && (s.osr / 2) % 2 == 0 && s.x > 0)
    || (s.pc == 4 && s.y != s.dir && s.osr % 2 == 0 && s.x > 0)
    || (s.pc == 5 && TurnAt(s.log, s.cycles - 1) && s.osr % 2 == 0 && s.x > 0)
    || (s.pc == 6 && TurnAt(s.log, s.cycles - 2) && s.y == 0 && s.x > 0)
    || (s.pc == 13 && TurnAt(s.log, s.cycles - 3) && s.x > 0)
    || (s.pc == 15 && TurnAt(s.log, s.cycles - 4))
  }

  /** The set-up time is broken on the pins, or will be by a word the machine already has. */
  ghost predicate Doomed(t: Timing, s: Sm) {
    !SetupKept(s.log, SetupCycles(t)) || Hasty(s) || Breaks(ComingDir(s), s.tx)
  }

  lemma StaysBroken(log: seq<Edge>, e: Edge, setup: nat)
    ensures !SetupKept(log, setup) ==> !SetupKept(log + [e], setup)
    ensures e.Rise? && TurnAt(log, e.at - 4) && setup > 4 ==> !SetupKept(log + [e], setup)
  {
    var after := log + [e];
    if !SetupKept(log, setup) {
      var i, j :| 0 <= i < j < |log| && log[i].Turn? && log[j].Rise? && log[j].at - log[i].at < setup;
      assert after[i] == log[i] && after[j] == log[j];
    }
    if e.Rise? && TurnAt(log, e.at - 4) && setup > 4 {
      var i :| 0 <= i < |log| && log[i].Turn? && log[i].at == e.at - 4;
      assert after[i] == log[i] && after[|log|] == e;
    }
  }

  /** Nothing the machine does saves the set-up time. */
  lemma GoKeepsDoom(t: Timing, s: Sm)
    requires ValidTiming(t) && Sane(s) && Doomed(t, s)
    ensures Doomed(t, Go(t, s))
  {
    if s.pc < 3 {
      DoomFetch(t, s);
    } else if s.pc < 5 {
      DoomTurn(t, s);
    } else if s.pc < 8 {
      DoomFlag(t, s);
    } else if s.pc < 15 {
      DoomDelay(t, s);
    } else {
      DoomPulse(t, s);
    }
  }

  lemma DoomFetch(t: Timing, s: Sm)
    requires ValidTiming(t) && Sane(s) && Doomed(t, s) && s.pc < 3
    ensures Doomed(t, Go(t, s))
  {
    hide SetupKept, TurnAt;
    Powers();
    if s.pc == 2 {
      assert s.osr / 1024 % 2 == Dir(s.osr) && s.osr / 1024 / 2 == s.osr / 2048;
    }
  }

  lemma DoomTurn(t: Timing, s: Sm)
    requires ValidTiming(t) && Sane(s) && Doomed(t, s) && 3 <= s.pc < 5
    ensures Doomed(t, Go(t, s))
  {
    hide SetupKept, Breaks;
    Powers();
    var e := Turn(s.cycles, s.y);
    StaysBroken(s.log, e, SetupCycles(t));
    assert (s.log + [e])[|s.log|] == e;
  }

  lemma DoomFlag(t: Timing, s: Sm)
    requires ValidTiming(t) && Sane(s) && Doomed(t, s) && 5 <= s.pc < 8
    ensures Doomed(t, Go(t, s))
  {
    hide SetupKept, Breaks, TurnAt;
    Powers();
  }

  lemma DoomDelay(t: Timing, s: Sm)
    requires ValidTiming(t) && Sane(s) && Doomed(t, s) && 8 <= s.pc < 15
    ensures Doomed(t, Go(t, s))
  {
    hide SetupKept, Breaks, TurnAt, Pow2;
  }

  lemma DoomPulse(t: Timing, s: Sm)
    requires ValidTiming(t) && Sane(s) && Doomed(t, s) && 15 <= s.pc
    ensures Doomed(t, Go(t, s))
  {
    hide SetupKept, Breaks, TurnAt;
    StaysBroken(s.log, Rise(s.cycles, s.dir), SetupCycles(t));
    StaysBroken(s.log, Fall(s.cycles), SetupCycles(t));
  }

  lemma {:induction false} StepsKeepDoom(t: Timing, s: Sm, n: nat)
    requires ValidTiming(t) && Sane(s) && Doomed(t, s)
    ensures Doomed(t, Steps(t, s, n))
    decreases n
  {
    hide Go, Doomed, Account;
    if n > 0 {
      GoKeepsAccount(t, s, false);
      GoKeepsDoom(t, s);
      StepsKeepDoom(t, Go(t, s), n - 1);
    }
  }

  // ---------- a DIR change without its flag and without steps ----------

  /** The distance from DIR change to STEP edge that is left when only words without steps change DIR unflagged. */
  function Margin(t: Timing): nat {
    if t.dirN == 0 then SetupCycles(t) else 12
  }

  /** At least this many cycles passed since the last DIR change then, address by address. */
  function SinceEasedTurn(t: Timing, s: Sm): int {
    if s.pc < 5 then (if s.pc == 0 then 5 else s.pc + 4)
    else if s.pc == 5 then (if s.osr % 2 == 1 || s.x == 0 then 1 else 9)
    else if s.pc == 6 then (if s.y != 0 || s.x == 0 then 2 else 10)
    else if s.pc < 13 then SinceTurn(t, s)
    else if s.pc == 13 then (if s.x == 0 then 3 else Margin(t) - 1)
    else if s.pc == 14 then 4
    else Margin(t)
  }

  /** Between fetch and DIR write: a word with steps that will change DIR carries the flag. */
  ghost predicate ComingPrepared(s: Sm) {
    && (s.pc == 2 ==> !Unprepared(s.dir, s.osr))
    && (s.pc == 3 && s.osr % 2 != s.dir && s.x > 0 ==> (s.osr / 2) % 2 == 1)
    && (s.pc == 4 && s.y != s.dir && s.x > 0 ==> s.osr % 2 == 1)
  }

  ghost predicate Eased(t: Timing, s: Sm) {
    && Sane(s)
    && (s.pc == 8 ==> s.y <= t.dirN)
    && (s.pc in {10, 11, 12} ==> s.y < t.dirN)
    && ComingPrepared(s)
    && !Breaks(ComingDir(s), s.tx)
    && TurnsBefore(s.log, s.cycles - SinceEasedTurn(t, s))
    && SetupKept(s.log, Margin(t))
  }

  /** Every instruction keeps that distance. */
  lemma GoKeepsEase(t: Timing, s: Sm)
    requires ValidTiming(t) && Eased(t, s)
    ensures Eased(t, Go(t, s))
  {
    GoKeepsAccount(t, s, false);
    if s.pc < 3 {
      EaseFetch(t, s);
    } else if s.pc < 5 {
      EaseTurn(t, s);
    } else if s.pc < 9 {
      EaseFlag(t, s);
    } else if s.pc < 15 {
      EaseDelay(t, s);
    } else {
      EasePulse(t, s);
    }
  }

  lemma EaseFetch(t: Timing, s: Sm)
    requires ValidTiming(t) && Eased(t, s) && s.pc < 3 && Sane(Go(t, s))
    ensures Eased(t, Go(t, s))
  {
    hide SetupKept;
    Powers();
    if s.pc == 2 {
      assert s.osr / 1024 % 2 == Dir(s.osr) && s.osr / 1024 / 2 == s.osr / 2048;
      FlagIsBit(s.osr);
    }
  }

  lemma EaseTurn(t: Timing, s: Sm)
    requires ValidTiming(t) && Eased(t, s) && 3 <= s.pc < 5 && Sane(Go(t, s))
    ensures Eased(t, Go(t, s))
  {
    hide Breaks;
    Powers();
  }

  lemma EaseFlag(t: Timing, s: Sm)
    requires ValidTiming(t) && Eased(t, s) && 5 <= s.pc < 9 && Sane(Go(t, s))
    ensures Eased(t, Go(t, s))
  {
    hide Breaks, SetupKept;
    Powers();
  }

  lemma EaseDelay(t: Timing, s: Sm)
    requires ValidTiming(t) && Eased(t, s) && 9 <= s.pc < 15 && Sane(Go(t, s))
    ensures Eased(t, Go(t, s))
  {
    hide Breaks, SetupKept, Pow2;
  }

  lemma EasePulse(t: Timing, s: Sm)
    requires ValidTiming(t) && Eased(t, s) && 15 <= s.pc && Sane(Go(t, s))
    ensures Eased(t, Go(t, s))
  {
    hide Breaks;
  }

  lemma {:induction false} StepsKeepEase(t: Timing, s: Sm, n: nat)
    requires ValidTiming(t) && Eased(t, s)
    ensures Eased(t, Steps(t, s, n))
    decreases n
  {
    hide Go, Eased;
    if n > 0 {
      GoKeepsEase(t, s);
      StepsKeepEase(t, Go(t, s), n - 1);
    }
  }

  /** How far an address is from the fetch, loops counted once. */
  function Rank(pc: nat): nat {
    match pc
    case 1 => 0 case 0 => 1 case 13 => 1 case 14 => 1
    case 22 => 2 case 21 => 3 case 20 => 4 case 19 => 5 case 17 => 6 case 18 => 7 case 16 => 7 case 15 => 8
    case 9 => 2 case 8 => 2 case 12 => 3 case 11 => 4 case 10 => 5
    case 7 => 3 case 6 => 4 case 5 => 5 case 4 => 6 case 3 => 7 case 2 => 8
    case _ => 9
  }

  lemma GoLowersRankLow(t: Timing, s: Sm)
    requires ValidTiming(t) && Sane(s) && s.pc < 10 && s.pc !in {1, 8}
    ensures Rank(Go(t, s).pc) < Rank(s.pc) && Go(t, s).tx == s.tx
  {
    hide Pow2;
  }

  lemma GoLowersRankDelay(t: Timing, s: Sm)
    requires ValidTiming(t) && Sane(s) && s.pc in {10, 11, 12, 14}
    ensures Rank(Go(t, s).pc) < Rank(s.pc) && Go(t, s).tx == s.tx
  {
    hide Pow2;
  }

  lemma GoLowersRankPulse(t: Timing, s: Sm)
    requires ValidTiming(t) && Sane(s) && s.pc in {15, 16, 18, 19, 20, 22}
    ensures Rank(Go(t, s).pc) < Rank(s.pc) && Go(t, s).tx == s.tx
  {
    hide Pow2;
  }

  /** From anywhere in the program the machine gets back to its fetch without touching the FIFO. */
  lemma Finishes(t: Timing, s: Sm) returns (n: nat)
    requires ValidTiming(t) && Sane(s)
    ensures Steps(t, s, n).pc == 1 && Steps(t, s, n).tx == s.tx
    decreases Rank(s.pc)
  {
    hide Go, Account;
    var k: nat;
    if s.pc == 1 {
      return 0;
    } else if s.pc == 13 {
      AllPulses(t, s);
      return s.x * PulseLength(t, s.osr) + 2;
    } else if s.pc == 8 {
      SetupLoop(t, s);
      k := 4 * s.y + 2;
    } else if s.pc == 17 {
      HighLoop(t, s);
      k := 2 * (s.y + 1);
    } else if s.pc == 21 {
      LowLoop(t, s);
      k := s.y + 1;
    } else {
      if s.pc < 10 {
        GoLowersRankLow(t, s);
      } else if s.pc < 15 {
        GoLowersRankDelay(t, s);
      } else {
        GoLowersRankPulse(t, s);
      }
      k := 1;
      assert Steps(t, s, 1) == Go(t, s) by { OneStep(t, s); }
    }
    StepsKeepAccount(t, s, false, k);
    var rest := Finishes(t, Steps(t, s, k));
    StepsCompose(t, s, k, rest);
    n := k + rest;
  }

  lemma OneStep(t: Timing, s: Sm)
    ensures Steps(t, s, 1) == Go(t, s)
  {
    hide Go;
    assert Steps(t, Go(t, s), 0) == Go(t, s);
  }

  /** With no more words the machine ends idle, and has then emitted every step it had accepted. */
  lemma Drains(t: Timing, s: Sm, inverted: bool) returns (n: nat)
    requires ValidTiming(t) && Sane(s)
    ensures var e := Steps(t, s, n); Idle(e) && e.tx == [] && Emitted(e.log, inverted) == Account(s, inverted)
    decreases |s.tx|
  {
    hide Go, Emitted;
    n := Finishes(t, s);
    StepsKeepAccount(t, s, inverted, n);
    var e := Steps(t, s, n);
    if e.tx != [] {
      WordRuns(t, e);
      var k := WordLength(t, e.tx[0]);
      StepsCompose(t, s, n, k);
      StepsKeepAccount(t, e, inverted, k);
      var rest := Drains(t, Steps(t, e, k), inverted);
      StepsCompose(t, s, n + k, rest);
      n := n + k + rest;
    }
  }
}
