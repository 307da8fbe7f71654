/**
 The BCM2835 auxiliary SPI transfer: up to three bytes per FIFO entry, packed left-aligned and read back
 right-aligned, with at most four entries under way, in separate buffers or in place.
 */
module AuxSpi {

  const DEPTH := 4

  // ---------- entries ----------

  /** Three bytes left-aligned below an eight-bit bit count. */
  function Assemble(a: bv8, b: bv8, c: bv8, bits: bv32): bv32 {
    ((a as bv32) << 16) | ((b as bv32) << 8) | (c as bv32) | (bits << 24)
  }

  function Bits(e: bv32): bv32 { e >> 24 }
  function Byte0(e: bv32): bv8 { ((e >> 16) & 0xFF) as bv8 }
  function Byte1(e: bv32): bv8 { ((e >> 8) & 0xFF) as bv8 }
  function Byte2(e: bv32): bv8 { (e & 0xFF) as bv8 }

  lemma Assembled(a: bv8, b: bv8, c: bv8, bits: bv32)
    requires bits <= 24
    ensures var w := Assemble(a, b, c, bits); Bits(w) == bits && Byte0(w) == a && Byte1(w) == b && Byte2(w) == c
  {
  }

  function At(bs: seq<bv8>, i: nat): bv8 {
    if i < |bs| then bs[i] else 0
  }

  function BitCount(count: nat): bv32 {
    if count == 1 then 8 else if count == 2 then 16 else 24
  }

  /** The entry for one to three bytes. */
  function Pack(bs: seq<bv8>): bv32 {
    Assemble(At(bs, 0), At(bs, 1), At(bs, 2), BitCount(|bs|))
  }

  /** The bytes the controller shifts out for an entry. */
  function Shifted(e: bv32): seq<bv8> {
    if Bits(e) == 8 then [Byte0(e)] else if Bits(e) == 16 then [Byte0(e), Byte1(e)] else [Byte0(e), Byte1(e), Byte2(e)]
  }

  /** The bytes it shifted in, right-aligned. */
  function Align(bs: seq<bv8>): bv32 {
    if |bs| == 1 then Assemble(0, 0, bs[0], 0)
    else if |bs| == 2 then Assemble(0, bs[0], bs[1], 0)
    else if |bs| == 3 then Assemble(bs[0], bs[1], bs[2], 0)
    else 0
  }

  /** What the driver takes from a received word when it expects `count` bytes. */
  function Extract(w: bv32, count: nat): seq<bv8> {
    (if count >= 3 then [Byte0(w)] else []) + (if count >= 2 then [Byte1(w)] else []) + [Byte2(w)]
  }

  lemma PackRoundTrip(bs: seq<bv8>)
    requires 1 <= |bs| <= 3
    ensures Shifted(Pack(bs)) == bs
  {
    hide Assemble, Bits, Byte0, Byte1, Byte2;
    Assembled(At(bs, 0), At(bs, 1), At(bs, 2), BitCount(|bs|));
  }

  lemma AlignRoundTrip(bs: seq<bv8>)
    requires 1 <= |bs| <= 3
    ensures Extract(Align(bs), |bs|) == bs
  {
    hide Assemble, Bits, Byte0, Byte1, Byte2;
    Assembled(0, 0, bs[0], 0);
    Assembled(0, bs[0], At(bs, 1), 0);
    Assembled(bs[0], At(bs, 1), At(bs, 2), 0);
  }

  // ---------- chunks of a message ----------

  /** The byte at which chunk k begins: 3, 3, ..., remainder. */
  function Offset(len: nat, k: nat): (o: nat)
    ensures o <= len
  {
    if 3 * k < len then 3 * k else len
  }

  function ChunkCount(len: nat): nat {
    (len + 2) / 3
  }

  function Chunk(m: seq<bv8>, k: nat): seq<bv8> {
    if Offset(|m|, k) <= Offset(|m|, k + 1) then m[Offset(|m|, k)..Offset(|m|, k + 1)] else []
  }

  /** The bytes the other side sends back for a message. */
  function Replies(m: seq<bv8>, reply: (nat, bv8) -> bv8): (r: seq<bv8>)
    ensures |r| == |m|
  {
    seq(|m|, i requires 0 <= i < |m| => reply(i, m[i]))
  }

  // ---------- the controller ----------

  /** The two FIFOs, entries and bytes shifted so far, and whether a FIFO was ever overrun or read empty. */
  datatype Device = Device(tx: seq<bv32>, rx: seq<bv32>, entries: nat, bytes: nat, fault: bool)

  /** What comes back for a chunk. */
  function Back(bs: seq<bv8>, at: nat, reply: (nat, bv8) -> bv8): seq<bv8> {
    seq(|bs|, j requires 0 <= j < |bs| => reply(at + j, bs[j]))
  }

  function ShiftOne(d: Device, reply: (nat, bv8) -> bv8): Device
    requires d.tx != []
  {
    var bs := Shifted(d.tx[0]);
    Device(d.tx[1..], if |d.rx| < DEPTH then d.rx + [Align(Back(bs, d.bytes, reply))] else d.rx,
           d.entries + 1, d.bytes + |bs|,
           d.fault || |d.rx| >= DEPTH)
  }

  function Shift(d: Device, reply: (nat, bv8) -> bv8, n: nat): Device
    decreases n
  {
    if n == 0 || d.tx == [] then d else Shift(ShiftOne(d, reply), reply, n - 1)
  }

  function Put(d: Device, e: bv32): Device {
    if |d.tx| < DEPTH then d.(tx := d.tx + [e]) else d.(fault := true)
  }

  function Take(d: Device): (Device, bv32) {
    if d.rx != [] then (d.(rx := d.rx[1..]), d.rx[0]) else (d.(fault := true), 0)
  }

  /** `read` chunks are read and `sent` written; the FIFOs hold exactly the chunks between, at most four in all. */
  ghost predicate Consistent(d: Device, m: seq<bv8>, reply: (nat, bv8) -> bv8, read: nat, sent: nat) {
    && !d.fault && read <= d.entries <= sent <= ChunkCount(|m|) && sent - read <= DEPTH
    && d.bytes == Offset(|m|, d.entries)
    && |d.tx| == sent - d.entries && |d.rx| == d.entries - read
    && (forall i :: 0 <= i < |d.tx| ==> d.tx[i] == Pack(Chunk(m, d.entries + i)))
    && (forall i :: 0 <= i < |d.rx| ==> d.rx[i] == Align(Chunk(Replies(m, reply), read + i)))
  }

  lemma Order(d: Device, m: seq<bv8>, reply: (nat, bv8) -> bv8, read: nat, sent: nat)
    requires Consistent(d, m, reply, read, sent)
    ensures read <= d.entries <= sent <= ChunkCount(|m|) && sent - read <= DEPTH
    ensures |d.tx| == sent - d.entries && |d.rx| == d.entries - read && !d.fault
  {
  }

  lemma ChunkSize(m: seq<bv8>, k: nat)
    requires k < ChunkCount(|m|)
    ensures 1 <= |Chunk(m, k)| <= 3 && Offset(|m|, k) + |Chunk(m, k)| == Offset(|m|, k + 1)
    ensures |Chunk(m, k)| == if |m| - Offset(|m|, k) < 3 then |m| - Offset(|m|, k) else 3
  {
  }

  lemma BackIsChunk(m: seq<bv8>, reply: (nat, bv8) -> bv8, k: nat)
    requires k < ChunkCount(|m|)
    ensures Back(Chunk(m, k), Offset(|m|, k), reply) == Chunk(Replies(m, reply), k)
  {
  }

  lemma ShiftOneConsistent(d: Device, m: seq<bv8>, reply: (nat, bv8) -> bv8, read: nat, sent: nat)
    requires Consistent(d, m, reply, read, sent) && d.tx != []
    ensures Consistent(ShiftOne(d, reply), m, reply, read, sent)
  {
    hide Shifted, Pack, Align, Extract, Chunk, Replies, Back, Offset, ChunkCount;
    var k := d.entries;
    assert d.tx[0] == Pack(Chunk(m, k + 0));
    ChunkSize(m, k);
    PackRoundTrip(Chunk(m, k));
    BackIsChunk(m, reply, k);
    var e := ShiftOne(d, reply);
    assert forall i :: 0 <= i < |e.tx| ==> e.tx[i] == d.tx[i + 1];
  }

  lemma {:induction false} ShiftConsistent(d: Device, m: seq<bv8>, reply: (nat, bv8) -> bv8,
                                           read: nat, sent: nat, n: nat)
    requires Consistent(d, m, reply, read, sent)
    ensures var e := Shift(d, reply, n);
            Consistent(e, m, reply, read, sent) && e.entries == (if d.entries + n < sent then d.entries + n else sent)
    decreases n
  {
    hide ShiftOne;
    if n > 0 && d.tx != [] {
      ShiftOneConsistent(d, m, reply, read, sent);
      ShiftOneCounts(d, reply);
      ShiftConsistent(ShiftOne(d, reply), m, reply, read, sent, n - 1);
    }
  }

  lemma ShiftOneCounts(d: Device, reply: (nat, bv8) -> bv8)
    requires d.tx != []
    ensures ShiftOne(d, reply).entries == d.entries + 1
  {
  }

  lemma PutConsistent(d: Device, m: seq<bv8>, reply: (nat, bv8) -> bv8, read: nat, sent: nat)
    requires Consistent(d, m, reply, read, sent) && sent < ChunkCount(|m|) && sent - read < DEPTH
    ensures Consistent(Put(d, Pack(Chunk(m, sent))), m, reply, read, sent + 1)
  {
    hide Pack, Align, Chunk, Offset, Replies;
    var e := Put(d, Pack(Chunk(m, sent)));
    assert forall i :: 0 <= i < |e.tx| ==> e.tx[i] == Pack(Chunk(m, d.entries + i));
  }

  lemma TakeConsistent(d: Device, m: seq<bv8>, reply: (nat, bv8) -> bv8, read: nat, sent: nat)
    requires Consistent(d, m, reply, read, sent) && read < d.entries
    ensures Consistent(Take(d).0, m, reply, read + 1, sent) && Take(d).0.entries == d.entries
    ensures Take(d).1 == Align(Chunk(Replies(m, reply), read))
  {
    hide Pack, Align, Chunk, Offset, Replies;
    assert d.rx[0] == Align(Chunk(Replies(m, reply), read + 0));
    var e := Take(d).0;
    assert forall i :: 0 <= i < |e.rx| ==> e.rx[i] == d.rx[i + 1];
  }

  /**
   The guard: while chunks are left to send, all sent so far were full, so `tx_len + 12 > rx_len` says exactly that
   fewer than four are under way.
   */
  lemma GuardBoundsEntries(len: nat, read: nat, sent: nat)
    requires read <= sent < ChunkCount(len)
    ensures (len - Offset(len, sent)) + DEPTH * 3 > len - Offset(len, read) <==> sent - read < DEPTH
  {
  }

  // ---------- the transfer ----------

  class Transfer {
    const tbuf: array?<bv8>
    const rbuf: array?<bv8>
    const len: nat
    const reply: (nat, bv8) -> bv8
    const schedule: seq<nat>  // entries the device shifts before each status read
    ghost const message: seq<bv8>
    var device: Device
    var polls: nat
    var txLen: nat
    var rxLen: nat
    var txPos: nat
    var rxPos: nat
    ghost var sent: nat
    ghost var read: nat

    ghost predicate Valid()
      reads this, tbuf, rbuf
    {
      && |message| == len && (tbuf != null ==> tbuf.Length >= len) && (rbuf != null ==> rbuf.Length >= len)
      && polls <= |schedule|
      && Consistent(device, message, reply, read, sent)
      && txLen == len - Offset(len, sent) && rxLen == len - Offset(len, read)
      && txPos <= len && rxPos <= len
      && (tbuf != null ==> txPos == len - txLen && forall i :: txPos <= i < len ==> tbuf[i] == message[i])
      && (tbuf == null ==> forall i :: 0 <= i < len ==> message[i] == 0)
      && (rbuf != null ==> rxPos == len - rxLen && forall i :: 0 <= i < rxPos ==> rbuf[i] == Replies(message, reply)[i])
    }

    constructor (tbuf: array?<bv8>, rbuf: array?<bv8>, len: nat, reply: (nat, bv8) -> bv8, schedule: seq<nat>)
      requires (tbuf != null ==> tbuf.Length >= len) && (rbuf != null ==> rbuf.Length >= len)
      ensures Valid() && sent == 0 && read == 0 && polls == 0
      ensures this.tbuf == tbuf && this.rbuf == rbuf && this.len == len
      ensures this.reply == reply && this.schedule == schedule
      ensures message == if tbuf != null then tbuf[..len] else seq(len, _ => 0)
    {
      this.tbuf, this.rbuf, this.len, this.reply, this.schedule := tbuf, rbuf, len, reply, schedule;
      message := if tbuf != null then tbuf[..len] else seq(len, _ => 0);
      device := Device([], [], 0, 0, false);
      polls, txLen, rxLen, txPos, rxPos, sent, read := 0, len, len, 0, 0, 0, 0;
    }

    /** The device runs until the next status read. */
    method Status()
      requires Valid() && polls < |schedule|
      modifies this`device, this`polls
      ensures Valid() && polls == old(polls) + 1
      ensures device.entries >= old(device.entries)
      ensures schedule[old(polls)] > 0 && sent > read ==> device.rx != []
    {
      hide Chunk, Replies, Pack, Align, Offset, ChunkCount;
      ShiftConsistent(device, message, reply, read, sent, schedule[polls]);
      device := Shift(device, reply, schedule[polls]);
      polls := polls + 1;
    }

    /** The next `count` bytes to send: the buffer's, or zeros. */
    method Gather(count: nat) returns (bs: seq<bv8>)
      requires tbuf != null ==> txPos + count <= tbuf.Length
      modifies this`txPos
      ensures |bs| == count
      ensures tbuf != null ==> txPos == old(txPos) + count && bs == tbuf[old(txPos)..txPos]
      ensures tbuf == null ==> txPos == old(txPos) && forall i :: 0 <= i < count ==> bs[i] == 0
    {
      bs := [];
      for i := 0 to count
        invariant |bs| == i
        invariant tbuf != null ==> txPos == old(txPos) + i && bs == tbuf[old(txPos)..txPos]
        invariant tbuf == null ==> txPos == old(txPos) && forall k :: 0 <= k < i ==> bs[k] == 0
      {
        var byte: bv8 := 0;
        if tbuf != null {
          byte := tbuf[txPos];
          txPos := txPos + 1;
        }
        bs := bs + [byte];
      }
    }

    /** Writes one entry of up to three bytes. */
    method SendEntry()
      requires Valid() && txLen > 0 && txLen + DEPTH * 3 > rxLen
      modifies this`device, this`txLen, this`txPos, this`sent
      ensures Valid() && sent == old(sent) + 1
    {
      hide Replies, Pack, Align, Consistent, Put;
      Order(device, message, reply, read, sent);
      GuardBoundsEntries(len, read, sent);
      ChunkSize(message, sent);
      var count := if txLen < 3 then txLen else 3;
      var bs := Gather(count);
      assert bs == Chunk(message, sent);
      PutConsistent(device, message, reply, read, sent);
      txLen := txLen - count;
      device := Put(device, Pack(bs));
      sent := sent + 1;
    }

    /** Stores the bytes of a received entry; in place this overwrites only bytes already sent. */
    method Store(bs: seq<bv8>)
      requires rbuf != null && rxPos + |bs| <= rbuf.Length
      modifies this`rxPos, rbuf
      ensures rxPos == old(rxPos) + |bs|
      ensures forall k :: 0 <= k < rbuf.Length ==>
                rbuf[k] == if old(rxPos) <= k < rxPos then bs[k - old(rxPos)] else old(rbuf[k])
    {
      for i := 0 to |bs|
        invariant rxPos == old(rxPos) + i
        invariant forall k :: 0 <= k < rbuf.Length ==>
                    rbuf[k] == if old(rxPos) <= k < rxPos then bs[k - old(rxPos)] else old(rbuf[k])
      {
        rbuf[rxPos] := bs[i];
        rxPos := rxPos + 1;
      }
    }

    /** Reads one entry and stores its bytes. */
    method ReadEntry()
      requires Valid() && rxLen > 0 && read < device.entries
      modifies this`device, this`rxLen, this`rxPos, this`read, rbuf
      ensures Valid() && read == old(read) + 1 && device.entries == old(device.entries)
    {
      hide Pack, Align, Extract, Take, Consistent, Replies, ChunkCount;
      var count := if rxLen < 3 then rxLen else 3;
      ghost var back := Replies(message, reply);
      Order(device, message, reply, read, sent);
      ChunkSize(back, read);
      TakeConsistent(device, message, reply, read, sent);
      AlignRoundTrip(Chunk(back, read));
      var (d, data) := Take(device);
      device := d;
      if rbuf != null {
        Store(Extract(data, count));
      }
      rxLen := rxLen - count;
      read := read + 1;
    }

    /** The first loop: fills the TX FIFO. Returns whether the schedule ran out. */
    method Fill() returns (out: bool)
      requires Valid()
      modifies this`device, this`polls, this`txLen, this`txPos, this`sent
      ensures Valid() && (out ==> polls == |schedule|)
      ensures old(sent) <= sent && polls == old(polls) + (sent - old(sent)) + (if out then 0 else 1)
      ensures out || txLen == 0 || sent > read
    {
      hide Consistent, Chunk, Replies, Offset, ChunkCount;
      ghost var s, p := sent, polls;
      while polls < |schedule|
        invariant Valid() && s <= sent && p <= polls == p + (sent - s)
        decreases |schedule| - polls
      {
        Status();
        Order(device, message, reply, read, sent);
        if |device.tx| >= DEPTH || txLen == 0 || txLen + DEPTH * 3 <= rxLen {
          if txLen > 0 {
            Waiting();
          }
          return false;
        }
        SendEntry();
      }
      return true;
    }

    /** With bytes left to send and nothing under way, neither the FIFO nor the guard stops the first loop. */
    lemma Waiting()
      requires Valid() && txLen > 0 && (|device.tx| >= DEPTH || txLen + DEPTH * 3 <= rxLen)
      ensures sent > read
    {
      Order(device, message, reply, read, sent);
      GuardBoundsEntries(len, read, sent);
    }

    /** The second loop, and the third (`idle`): read entries while there are any, or while the device is idle. */
    method Drain(idle: bool) returns (out: bool)
      requires Valid()
      modifies this`device, this`polls, this`rxLen, this`rxPos, this`read, rbuf
      ensures Valid() && (out ==> polls == |schedule|)
      ensures old(read) <= read && polls == old(polls) + (read - old(read)) + (if out then 0 else 1)
      ensures !idle && !out && sent > old(read) ==>
                old(polls) < |schedule| && (schedule[old(polls)] > 0 ==> read > old(read))
    {
      hide Consistent, Chunk, Replies, Offset, ChunkCount;
      ghost var r, p := read, polls;
      while polls < |schedule|
        invariant Valid() && r <= read && p <= polls == p + (read - r)
        decreases |schedule| - polls
      {
        Status();
        Order(device, message, reply, read, sent);
        if rxLen == 0 || (!idle && device.rx == []) || (idle && (device.tx != [] || txLen > 0)) {
          if read < sent {
            Unread();
          }
          return false;
        }
        if idle {
          AllShifted();
        }
        ReadEntry();
      }
      return true;
    }

    lemma Unread()
      requires Valid() && read < sent
      ensures rxLen > 0
    {
      Order(device, message, reply, read, sent);
    }

    /** Idle with everything sent and bytes still to read: the RX FIFO, which this loop does not test, is not empty. */
    lemma AllShifted()
      requires Valid() && rxLen > 0 && txLen == 0 && device.tx == []
      ensures read < device.entries
    {
      Order(device, message, reply, read, sent);
    }

    /**
     The whole transfer, for any prefix of any device behaviour: no FIFO is overrun or read empty; when it completes,
     every byte came back in its place, also when both buffers are the same; and a device that shifts an entry before
     every status read completes it within five reads an entry.
     */
    method Run() returns (done: bool)
      requires Valid() && sent == 0 && read == 0 && polls == 0
      modifies this`device, this`polls, this`txLen, this`txPos, this`sent, this`rxLen, this`rxPos, this`read, rbuf
      ensures Valid() && !device.fault
      ensures done ==> txLen == 0 && rxLen == 0 && device.tx == [] && device.rx == [] && device.bytes == len
      ensures done && rbuf != null ==> forall i :: 0 <= i < len ==> rbuf[i] == reply(i, message[i])
      ensures !done ==> polls == |schedule|
      ensures (forall k :: 0 <= k < |schedule| ==> schedule[k] > 0) && |schedule| > 5 * ChunkCount(len) ==> done
    {
      hide Consistent, Chunk, Offset, Replies, ChunkCount;
      ghost var live := forall k :: 0 <= k < |schedule| ==> schedule[k] > 0;
      ghost var rounds := 0;
      done := false;
      while txLen > 0 || rxLen > 0
        invariant Valid() && polls <= sent + read + 3 * rounds
        invariant live ==> rounds <= read
        decreases |schedule| - polls
      {
        Unfinished();
        var out := Fill();
        if !out {
          Unfinished();
          out := Drain(false);
        }
        if !out {
          out := Drain(true);
        }
        Order(device, message, reply, read, sent);
        if out {
          Finished();
          return;
        }
        rounds := rounds + 1;
      }
      Order(device, message, reply, read, sent);
      Finished();
      done := true;
    }

    lemma Unfinished()
      requires Valid() && (txLen > 0 || rxLen > 0)
      ensures rxLen > 0 && read < ChunkCount(len) && (txLen == 0 ==> sent > read)
    {
      Order(device, message, reply, read, sent);
    }

    lemma Finished()
      requires Valid()
      ensures !device.fault
      ensures txLen == 0 && rxLen == 0 ==> sent == read == device.entries && device.bytes == len
      ensures sent <= ChunkCount(len) && read <= ChunkCount(len)
      ensures rxLen == 0 && rbuf != null ==> forall i :: 0 <= i < len ==> rbuf[i] == reply(i, message[i])
    {
      hide Chunk, Pack, Align;
    }
  }

  /** In place: both buffers are the same. */
  method TransferInPlace(buf: array<bv8>, len: nat, reply: (nat, bv8) -> bv8, schedule: seq<nat>) returns (done: bool)
    requires buf.Length >= len
    modifies buf
    ensures done ==> forall i :: 0 <= i < len ==> buf[i] == reply(i, old(buf[i]))
    ensures (forall k :: 0 <= k < |schedule| ==> schedule[k] > 0) && |schedule| > 5 * ChunkCount(len) ==> done
  {
    var t := new Transfer(buf, buf, len, reply, schedule);
    ghost var message := buf[..len];
    done := t.Run();
  }

  /** Looped back, an in-place transfer is the identity. */
  method Loopback(buf: array<bv8>, len: nat, schedule: seq<nat>) returns (done: bool)
    requires buf.Length >= len
    modifies buf
    ensures done ==> buf[..len] == old(buf[..len])
  {
    done := TransferInPlace(buf, len, (_, b) => b, schedule);
  }
}
