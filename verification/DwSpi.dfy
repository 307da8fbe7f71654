/**
 The DesignWare SPI poll transfer against a device that shifts words between bounded FIFOs whenever it likes.
 */
module DwSpi {
  import opened Bits

  const TIMEOUT := 1_000_000

  function Width(nBytes: nat): (w: nat)
    ensures w > 0
  {
    if nBytes == 1 then 0x100 else if nBytes == 2 then 0x1_0000 else 0x1_0000_0000
  }

  /** Words of 1, 2 or 4 bytes are kept whole, and nothing wider is stored. */
  lemma WidthKeepsWords(nBytes: nat, word: nat)
    requires nBytes in {1, 2, 4}
    ensures word % Width(nBytes) < Pow2(8 * nBytes)
    ensures word < Pow2(8 * nBytes) ==> word % Width(nBytes) == word
  {
    assert Pow2(8) == 256 by { EightBits(0); }
    EightBits(8);
    EightBits(16);
    EightBits(24);
  }

  lemma EightBits(k: nat)
    ensures Pow2(k + 8) == 256 * Pow2(k)
    ensures Pow2(0) == 1
  {
    assert Pow2(k + 2) == 4 * Pow2(k);
    assert Pow2(k + 4) == 4 * Pow2(k + 2);
    assert Pow2(k + 6) == 4 * Pow2(k + 4);
    assert Pow2(k + 8) == 4 * Pow2(k + 6);
  }

  // ---------- the controller ----------

  /** Both FIFOs, the words shifted so far, and whether a FIFO was ever overrun or read empty. */
  datatype Device = Device(tx: seq<nat>, rx: seq<nat>, shifted: nat, fault: bool)

  /** The device shifts up to n words; `answer` is what comes back for each. */
  function Shift(d: Device, fifoLen: nat, answer: (nat, nat) -> nat, n: nat): Device
    decreases n
  {
    if n == 0 || d.tx == [] then d
    else if |d.rx| >= fifoLen then Shift(Device(d.tx[1..], d.rx, d.shifted + 1, true), fifoLen, answer, n - 1)
    else Shift(Device(d.tx[1..], d.rx + [answer(d.shifted, d.tx[0])], d.shifted + 1, d.fault), fifoLen, answer, n - 1)
  }

  function Put(d: Device, fifoLen: nat, word: nat): Device {
    if |d.tx| < fifoLen then d.(tx := d.tx + [word]) else d.(fault := true)
  }

  function Take(d: Device): (Device, nat) {
    if d.rx != [] then (d.(rx := d.rx[1..]), d.rx[0]) else (d.(fault := true), 0)
  }

  /**
   Where a transfer stands: `read` of the words' answers are read, `sent` words are written, and the FIFOs hold
   exactly the answers read..shifted and the words shifted..sent, never more than fit one FIFO together.
   */
  ghost predicate Consistent(d: Device, words: seq<nat>, answer: (nat, nat) -> nat, fifoLen: nat,
                             read: nat, sent: nat)
  {
    && !d.fault && read <= d.shifted <= sent <= |words| && sent - read <= fifoLen
    && d.tx == words[d.shifted..sent]
    && d.rx == Answers(words, answer)[read..d.shifted]
  }

  function Answers(words: seq<nat>, answer: (nat, nat) -> nat): (r: seq<nat>)
    ensures |r| == |words|
  {
    seq(|words|, i requires 0 <= i < |words| => answer(i, words[i]))
  }

  /** Shifting keeps the picture, moves at least one word when asked to and one is waiting, and never faults. */
  lemma {:induction false} ShiftConsistent(d: Device, words: seq<nat>, answer: (nat, nat) -> nat, fifoLen: nat,
                                           read: nat, sent: nat, n: nat)
    requires Consistent(d, words, answer, fifoLen, read, sent)
    ensures var e := Shift(d, fifoLen, answer, n);
            && Consistent(e, words, answer, fifoLen, read, sent)
            && e.shifted == Min(d.shifted + n, sent)
    decreases n
  {
    if n > 0 && d.tx != [] {
      var all := Answers(words, answer);
      var e := Device(d.tx[1..], d.rx + [answer(d.shifted, d.tx[0])], d.shifted + 1, d.fault);
      assert e.rx == all[read..d.shifted + 1];
      assert e.tx == words[d.shifted + 1..sent];
      ShiftConsistent(e, words, answer, fifoLen, read, sent, n - 1);
    }
  }

  lemma StartConsistent(words: seq<nat>, answer: (nat, nat) -> nat, fifoLen: nat)
    ensures Consistent(Device([], [], 0, false), words, answer, fifoLen, 0, 0)
  {
  }

  lemma WriteConsistent(d: Device, words: seq<nat>, answer: (nat, nat) -> nat, fifoLen: nat, read: nat, sent: nat)
    requires Consistent(d, words, answer, fifoLen, read, sent) && sent < |words| && sent - read < fifoLen
    ensures Consistent(Put(d, fifoLen, words[sent]), words, answer, fifoLen, read, sent + 1)
  {
  }

  lemma ReadConsistent(d: Device, words: seq<nat>, answer: (nat, nat) -> nat, fifoLen: nat, read: nat, sent: nat)
    requires Consistent(d, words, answer, fifoLen, read, sent) && read < d.shifted
    ensures Take(d).1 == Answers(words, answer)[read] && Take(d).0.shifted == d.shifted
    ensures Consistent(Take(d).0, words, answer, fifoLen, read + 1, sent)
  {
  }

  // ---------- the driver ----------

  datatype Buffer = Null | Words(words: seq<nat>)

  class Spi {
    const fifoLen: nat
    const nBytes: nat
    const len: nat
    const tx: Buffer
    const rx: array?<nat>
    var txLen: nat
    var rxLen: nat
    var txPos: nat
    var rxPos: nat
    // the device: it shifts schedule(k) words before register access k
    const answer: (nat, nat) -> nat
    const schedule: nat -> nat
    var device: Device
    var accesses: nat

    /** The words to send: the buffer's, or zeros. */
    ghost function Sending(): (s: seq<nat>)
    {
      if tx.Words? then tx.words else seq(len, _ => 0)
    }

    ghost predicate Valid()
      reads this, rx
    {
      && |Sending()| == len && (rx != null ==> rx.Length == len)
      && txLen <= rxLen <= len
      && (tx.Words? ==> txPos == len - txLen) && (rx != null ==> rxPos == len - rxLen)
      && Consistent(device, Sending(), answer, fifoLen, len - rxLen, len - txLen)
      && (rx != null ==> forall i :: 0 <= i < len - rxLen ==> rx[i] == Answers(Sending(), answer)[i] % Width(nBytes))
    }

    constructor (fifoLen: nat, nBytes: nat, len: nat, tx: Buffer, rx: array?<nat>,
                 answer: (nat, nat) -> nat, schedule: nat -> nat)
      requires (tx.Words? ==> |tx.words| == len) && (rx != null ==> rx.Length == len)
      ensures Valid() && this.fifoLen == fifoLen && this.nBytes == nBytes && this.len == len
      ensures this.tx == tx && this.rx == rx && this.answer == answer && this.schedule == schedule
      ensures txLen == rxLen == len && accesses == 0
    {
      hide Width, Shift, Answers, Consistent;
      this.fifoLen, this.nBytes, this.len := fifoLen, nBytes, len;
      this.tx, this.rx, this.answer, this.schedule := tx, rx, answer, schedule;
      txLen, rxLen, txPos, rxPos := len, len, 0, 0;
      device := Device([], [], 0, false);
      accesses := 0;
      new;
      StartConsistent(Sending(), answer, fifoLen);
    }

    /** What the device does before a register access. */
    method Elapse()
      requires Valid()
      modifies this`device, this`accesses
      ensures Valid() && accesses == old(accesses) + 1
      ensures device.shifted == Min(old(device.shifted) + schedule(old(accesses)), len - txLen) >= old(device.shifted)
    {
      ShiftConsistent(device, Sending(), answer, fifoLen, len - rxLen, len - txLen, schedule(accesses));
      device := Shift(device, fifoLen, answer, schedule(accesses));
      accesses := accesses + 1;
    }

    method ReadTxLevel() returns (level: nat)
      requires Valid()
      modifies this`device, this`accesses
      ensures Valid() && level == |device.tx| && accesses == old(accesses) + 1
      ensures device.shifted >= old(device.shifted)
    {
      Elapse();
      level := |device.tx|;
    }

    method ReadRxLevel() returns (level: nat)
      requires Valid()
      modifies this`device, this`accesses
      ensures Valid() && level == |device.rx| && accesses == old(accesses) + 1
      ensures device.shifted == Min(old(device.shifted) + schedule(old(accesses)), len - txLen)
    {
      Elapse();
      level := |device.rx|;
    }

    /**
     Room for writing: the words left, or if fewer the gap that keeps RX from overrunning. The free TX entries,
     which the code also takes into account, are never fewer.
     */
    method TxMax() returns (max: nat)
      requires Valid()
      modifies this`device, this`accesses
      ensures Valid() && accesses == old(accesses) + 1
      ensures max <= fifoLen - |device.tx| && max == Min(txLen, fifoLen - (rxLen - txLen))
      ensures max == 0 ==> txLen == 0 || rxLen - txLen == fifoLen
    {
      var level := ReadTxLevel();
      max := Min(txLen, Min(fifoLen - level, fifoLen - (rxLen - txLen)));
    }

    method RxMax() returns (max: nat)
      requires Valid()
      modifies this`device, this`accesses
      ensures Valid() && accesses == old(accesses) + 1 && max == Min(rxLen, device.shifted - (len - rxLen))
      ensures device.shifted == Min(old(device.shifted) + schedule(old(accesses)), len - txLen)
      ensures schedule(old(accesses)) > 0 && txLen < rxLen ==> max > 0
    {
      var level := ReadRxLevel();
      max := Min(rxLen, level);
      assert level == device.shifted - (len - rxLen);
    }

    /** The next word into the TX FIFO. */
    method WriteWord(word: nat)
      requires Valid() && txLen > 0 && rxLen - txLen < fifoLen && word == Sending()[len - txLen]
      modifies this`device, this`txLen, this`txPos
      ensures Valid() && txLen == old(txLen) - 1
    {
      hide Answers, Consistent, Width, Shift, Put;
      WriteConsistent(device, Sending(), answer, fifoLen, len - rxLen, len - txLen);
      device := Put(device, fifoLen, word);
      if tx.Words? {
        txPos := txPos + 1;
      }
      txLen := txLen - 1;
    }

    method Writer()
      requires Valid()
      modifies this`device, this`accesses, this`txLen, this`txPos
      ensures Valid() && txLen <= old(txLen) && accesses > old(accesses)
      ensures txLen == old(txLen) ==> txLen == 0 || rxLen - txLen == fifoLen
      ensures old(txLen) - txLen == Min(old(txLen), fifoLen - (rxLen - old(txLen)))
    {
      hide Answers, Consistent, Width, Shift, Put;
      var max := TxMax();
      var word := 0;
      ghost var start, before, first := txLen, accesses, max;
      assert first == Min(start, fifoLen - (rxLen - start));
      while max > 0
        invariant Valid() && 0 <= max <= txLen && max <= fifoLen - (rxLen - txLen) && accesses >= before
        invariant txLen == start - (first - max)
        invariant tx == Null ==> word == 0
      {
        max := max - 1;
        if tx.Words? {
          word := tx.words[txPos];
        }
        Elapse();
        WriteWord(word);
      }
    }

    /** One answer from the RX FIFO into the buffer. */
    method ReadWord()
      requires Valid() && len - rxLen < device.shifted && rxLen > 0
      modifies this`device, this`rxLen, this`rxPos, rx
      ensures Valid() && rxLen == old(rxLen) - 1 && device.shifted == old(device.shifted)
    {
      hide Answers, Consistent, Width, Shift, Take;
      ReadConsistent(device, Sending(), answer, fifoLen, len - rxLen, len - txLen);
      var (d, word) := Take(device);
      device := d;
      if rx != null {
        rx[rxPos] := word % Width(nBytes);
        rxPos := rxPos + 1;
      }
      rxLen := rxLen - 1;
    }

    method Reader()
      requires Valid()
      modifies this`device, this`accesses, this`rxLen, this`rxPos, rx
      ensures Valid() && rxLen <= old(rxLen) && accesses > old(accesses)
      ensures schedule(old(accesses)) > 0 && txLen < old(rxLen) ==> rxLen < old(rxLen)
      ensures var shifted := Min(old(device.shifted) + schedule(old(accesses)), len - txLen);
              old(rxLen) - rxLen == Min(old(rxLen), shifted - (len - old(rxLen)))
    {
      hide Sending, Answers, Consistent, Shift, Valid;
      var max := RxMax();
      ghost var start, before, first := rxLen, accesses, max;
      assert first == Min(start, device.shifted - (len - start));
      while max > 0
        invariant Valid() && 0 <= max <= device.shifted - (len - rxLen) && max <= rxLen <= len && accesses >= before
        invariant rxLen == start - (first - max)
      {
        max := max - 1;
        Elapse();
        ReadWord();
      }
    }

    /** The device shifts at every opportunity. */
    ghost predicate Live() {
      fifoLen > 0 && forall k :: schedule(k) > 0
    }

    lemma LiveAt(k: nat)
      requires Live()
      ensures schedule(k) > 0 && fifoLen > 0
    {
    }

    lemma Bounds()
      requires Valid()
      ensures txLen <= rxLen <= len && !device.fault
    {
    }

    /** And answers that fit the word size are stored whole. */
    lemma StoredWhole()
      requires Valid() && rxLen == 0 && rx != null && nBytes in {1, 2, 4}
      ensures forall i :: 0 <= i < len ==>
                var a := answer(i, if tx.Words? then tx.words[i] else 0);
                a < Pow2(8 * nBytes) ==> rx[i] == a
    {
      hide Width, Pow2, Consistent;
      Finished();
      forall i | 0 <= i < len
        ensures var a := answer(i, if tx.Words? then tx.words[i] else 0); a < Pow2(8 * nBytes) ==> rx[i] == a
      {
        WidthKeepsWords(nBytes, answer(i, Sending()[i]));
      }
    }

    /** With no answer left to read, everything is sent, shifted, read and stored. */
    lemma Finished()
      requires Valid() && rxLen == 0
      ensures txLen == 0 && device.shifted == len && device.tx == [] && device.rx == []
      ensures rx != null ==> forall i :: 0 <= i < len ==> rx[i] == answer(i, Sending()[i]) % Width(nBytes)
    {
    }

    /**
     The transfer. 0 means every word was sent once and in order and every answer is in place; -1 only after a million
     rounds. Whatever the schedule, no FIFO is overrun or read empty; and a device that shifts at every opportunity
     lets any transfer of at most a million words through.
     */
    method PollTransfer() returns (r: int, ghost rounds: nat)
      requires Valid() && rxLen == len
      modifies this`device, this`accesses, this`txLen, this`txPos, this`rxLen, this`rxPos, rx
      ensures Valid() && !device.fault
      ensures r == 0 || r == -1
      ensures 1 <= rounds <= TIMEOUT && (r == -1 ==> rounds == TIMEOUT)
      ensures r == 0 ==> txLen == 0 && rxLen == 0 && device.shifted == len && device.tx == [] && device.rx == []
      ensures r == 0 && rx != null ==>
                forall i :: 0 <= i < len ==> rx[i] == answer(i, Sending()[i]) % Width(nBytes)
      ensures r == 0 && rx != null && nBytes in {1, 2, 4} ==>
                forall i :: 0 <= i < len ==>
                  var a := answer(i, if tx.Words? then tx.words[i] else 0);
                  a < Pow2(8 * nBytes) ==> rx[i] == a
      ensures r == -1 ==> rxLen > 0 && accesses >= old(accesses) + 2 * rounds
      ensures Live() && len <= TIMEOUT ==> r == 0
    {
      hide Live, Valid, Sending, Answers, Consistent, Width, Shift;
      Bounds();
      var timeout := TIMEOUT;
      r, rounds := 0, 0;
      while true
        invariant rounds == TIMEOUT - timeout
        invariant Valid() && 0 < timeout <= TIMEOUT && rxLen <= len
        invariant accesses >= old(accesses) + 2 * (TIMEOUT - timeout)
        invariant Live() ==> rxLen <= len - (TIMEOUT - timeout)
        invariant rxLen > 0 || timeout == TIMEOUT
        decreases timeout
      {
        Bounds();
        rounds := rounds + 1;
        Writer();
        Bounds();
        if Live() {
          LiveAt(accesses);
        }
        Reader();
        Bounds();
        if rxLen > 0 {
          timeout := timeout - 1;
          if timeout == 0 {
            return -1, rounds;
          }
        }
        if rxLen == 0 {
          break;
        }
      }
      Finished();
      if rx != null && nBytes in {1, 2, 4} {
        StoredWhole();
      }
    }
  }
}
