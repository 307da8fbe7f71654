/** The interrupt-driven encoder: per-edge table lookup on swapped pins, and its agreement with the PIO decoder. */
module IrqEncoder {
  import opened Bits
  import opened Quadrature
  import PioMachine

  /** One encoder's registers. */
  datatype Decoder = Decoder(count: int, prev: nat)

  /** The effect of one handled edge that finds the pins at `raw`. */
  function OnEdge(d: Decoder, raw: nat): Decoder {
    Decoder(S32(d.count + Transition(d.prev, Swap(raw))), Swap(raw))
  }

  function OnEdges(d: Decoder, raws: seq<nat>): Decoder {
    if raws == [] then d else OnEdge(OnEdges(d, raws[..|raws| - 1]), raws[|raws| - 1])
  }

  ghost predicate Samples(raws: seq<nat>) {
    forall i :: 0 <= i < |raws| ==> raws[i] < 4
  }

  /** On any sequence of pin states the interrupt count moves exactly opposite to the table's total for the raw pins. */
  lemma {:induction false} CountsOpposite(count: int, start: nat, raws: seq<nat>)
    requires start < 4 && Samples(raws) && S32(count) == count
    ensures var e := OnEdges(Decoder(count, Swap(start)), raws);
            e == Decoder(S32(count - Net(start, raws)), Swap(Last(start, raws)))
  {
    hide Transition, Swap;
    if raws != [] {
      var before := raws[..|raws| - 1];
      CountsOpposite(count, start, before);
      SwapNegates(Last(start, before), raws[|raws| - 1]);
      S32Absorbs(count - Net(start, before), -Transition(Last(start, before), raws[|raws| - 1]));
    }
  }

  /** The samples that differ from the one before: those an edge interrupt sees. */
  function Changes(start: nat, samples: seq<nat>): seq<nat> {
    if samples == [] then []
    else
      var before := samples[..|samples| - 1];
      Changes(start, before)
      + if samples[|samples| - 1] == Last(start, before) then [] else [samples[|samples| - 1]]
  }

  /** Polling the same state again changes nothing, so a poller and an edge handler see the same total. */
  lemma {:induction false} RepeatsCountNothing(start: nat, samples: seq<nat>)
    requires start < 4 && Samples(samples)
    ensures Net(start, Changes(start, samples)) == Net(start, samples)
    ensures Last(start, Changes(start, samples)) == Last(start, samples)
  {
    hide Transition;
    if samples != [] {
      var before, x := samples[..|samples| - 1], samples[|samples| - 1];
      RepeatsCountNothing(start, before);
      var c := Changes(start, before);
      if x == Last(start, before) {
        StaysPut(x);
        assert c + [] == c;
      } else {
        assert (c + [x])[..|c|] == c;
      }
    }
  }

  lemma StaysPut(x: nat)
    requires x < 4
    ensures Transition(x, x) == 0
  {
  }

  /** The pin states along a trajectory. */
  function Grays(positions: seq<int>): (g: seq<nat>)
    ensures |g| == |positions| && Samples(g)
  {
    if positions == [] then [] else Grays(positions[..|positions| - 1]) + [Gray(positions[|positions| - 1])]
  }

  function End(start: int, positions: seq<int>): int {
    if positions == [] then start else positions[|positions| - 1]
  }

  /** Neighbouring positions are at most one step apart. */
  ghost predicate SingleSteps(start: int, positions: seq<int>) {
    positions == []
    || (var before := positions[..|positions| - 1];
        SingleSteps(start, before) && -1 <= End(start, positions) - End(start, before) <= 1)
  }

  /** Along single steps the table's total is the displacement. */
  lemma {:induction false} NetIsDisplacement(start: int, positions: seq<int>)
    requires SingleSteps(start, positions)
    ensures Net(Gray(start), Grays(positions)) == End(start, positions) - start
    ensures Last(Gray(start), Grays(positions)) == Gray(End(start, positions))
  {
    hide Gray, Transition;
    if positions != [] {
      var before := positions[..|positions| - 1];
      NetIsDisplacement(start, before);
      assert Grays(positions)[..|before|] == Grays(before);
      DecodesMotion(End(start, before), End(start, positions));
    }
  }

  /** So an edge handler that misses no edge counts minus the displacement, modulo 2^32. */
  lemma InterruptTracksMotion(count: int, start: int, positions: seq<int>)
    requires S32(count) == count && SingleSteps(start, positions)
    ensures var e := OnEdges(Decoder(count, Swap(Gray(start))), Changes(Gray(start), Grays(positions)));
            e.count == S32(count - (End(start, positions) - start))
  {
    hide Gray, Grays, Changes, OnEdges, Net, Swap, SingleSteps;
    var g := Grays(positions);
    GrayRange(start);
    ChangesAreSamples(Gray(start), g);
    CountsOpposite(count, Gray(start), Changes(Gray(start), g));
    RepeatsCountNothing(Gray(start), g);
    NetIsDisplacement(start, positions);
  }

  lemma GrayRange(p: int)
    ensures Gray(p) < 4
  {
  }

  lemma {:induction false} ChangesAreSamples(start: nat, samples: seq<nat>)
    requires Samples(samples)
    ensures Samples(Changes(start, samples))
  {
    if samples != [] {
      ChangesAreSamples(start, samples[..|samples| - 1]);
    }
  }

  /**
   The two decoders on the same motion, at any speed: the interrupt handler, woken by the changes the program's
   samples show, moves its count by exactly the opposite of the program's, modulo 2^32.
   */
  lemma ProgramAndInterruptOppose(motion: nat -> int, s: PioMachine.Sm, n: nat, count: int)
    requires s.pc == UPDATE && s.y < WORD && S32(count) == count
    ensures var start := s.osr % 4;
            var e := OnEdges(Decoder(count, Swap(start)), Changes(start, Seen(motion, s, n)));
            U32(Rounds(motion, s, n).y - s.y) == U32(count - e.count)
  {
    hide Rounds, Seen, Changes, OnEdges, Net, Swap, Gray;
    var start, samples := s.osr % 4, Seen(motion, s, n);
    SeenAreSamples(motion, s, n);
    ProgramRefinesTable(motion, s, n);
    ChangesAreSamples(start, samples);
    CountsOpposite(count, start, Changes(start, samples));
    RepeatsCountNothing(start, samples);
    var net := Net(start, samples);
    var y: int := s.y;
    U32Adds(y + net, -y);
    S32Congruent(count - net);
    U32Negated(S32(count - net), count - net, count);
  }

  lemma U32Negated(a: int, b: int, c: int)
    requires U32(a) == U32(b)
    ensures U32(c - a) == U32(c - b)
  {
    ModShift(c - a, a / WORD - b / WORD);
  }

  lemma {:induction false} SeenAreSamples(motion: nat -> int, s: PioMachine.Sm, n: nat)
    ensures Samples(Seen(motion, s, n))
  {
    hide Gray, Rounds;
    if n > 0 {
      SeenAreSamples(motion, s, n - 1);
      GrayRange(motion(Rounds(motion, s, n - 1).cycles + 3));
    }
  }

  const FIRST_HIGH_PIN := 32

  class Encoders {
    const basePin: seq<nat>
    const counter: array<int>
    const prevState: array<nat>

    ghost predicate Valid()
      reads this, counter, prevState
    {
      && counter.Length == prevState.Length && |basePin| <= counter.Length
      && (forall i :: 0 <= i < counter.Length ==> S32(counter[i]) == counter[i])
    }

    ghost function At(i: nat): Decoder
      requires Valid() && i < counter.Length
      reads this, counter, prevState
    {
      Decoder(counter[i], prevState[i])
    }

    /** The encoder is served by interrupts: configured, and on a pin the PIO decoder cannot reach. */
    predicate Served(i: nat) {
      i < |basePin| && basePin[i] >= FIRST_HIGH_PIN
    }

    constructor (basePin: seq<nat>, encoders: nat)
      requires |basePin| <= encoders
      ensures Valid() && this.basePin == basePin && counter.Length == encoders
      ensures forall i :: 0 <= i < encoders ==> At(i) == Decoder(0, 0)
      ensures fresh(counter) && fresh(prevState)
    {
      this.basePin := basePin;
      counter := new int[encoders](_ => 0);
      prevState := new nat[encoders](_ => 0);
    }

    /** An edge on pin `gpio`, with the encoder's two pins at `raw`. */
    method HandleEdge(i: nat, gpio: nat, raw: nat) returns (handled: bool)
      requires Valid()
      modifies counter, prevState
      ensures Valid() && (handled <==> Served(i) && (gpio == basePin[i] || gpio == basePin[i] + 1))
      ensures forall k :: 0 <= k < counter.Length ==>
                At(k) == if handled && k == i then OnEdge(old(At(k)), raw) else old(At(k))
    {
      if i >= |basePin| {
        return false;
      }
      if basePin[i] < FIRST_HIGH_PIN {
        return false;
      }
      if gpio != basePin[i] && gpio != basePin[i] + 1 {
        return false;
      }
      var cur := Swap(raw);
      counter[i] := S32(counter[i] + Transition(prevState[i], cur));
      prevState[i] := cur;
      S32Congruent(counter[i]);
      return true;
    }

    /** Enabling starts from zero at the present pin state. */
    method Enable(i: nat, raw: nat)
      requires Valid()
      modifies counter, prevState
      ensures Valid()
      ensures forall k :: 0 <= k < counter.Length ==>
                At(k) == if Served(i) && k == i then Decoder(0, Swap(raw)) else old(At(k))
    {
      if i >= |basePin| || basePin[i] < FIRST_HIGH_PIN {
        return;
      }
      prevState[i] := Swap(raw);
      counter[i] := 0;
    }

    /** Resetting zeroes any counter, and resamples the pins of one served by interrupts. */
    method ResetCount(i: nat, raw: nat)
      requires Valid() && i < counter.Length
      modifies counter, prevState
      ensures Valid()
      ensures forall k :: 0 <= k < counter.Length ==>
                At(k) == if k != i then old(At(k)) else Decoder(0, if Served(i) then Swap(raw) else old(At(i)).prev)
    {
      counter[i] := 0;
      if i < |basePin| && basePin[i] >= FIRST_HIGH_PIN {
        prevState[i] := Swap(raw);
      }
    }
  }
}
