/**
 Receiving UDP datagrams through the W5500: a ring of chip memory with 16-bit pointers, an eight-byte header before
 each payload, and recvfrom handing a datagram out over as many calls as the caller's buffer needs.
 */
module UdpSocket {
  import opened Bits

  const SPACE := 65536

  datatype Datagram = Datagram(ip: seq<nat>, port: nat, payload: seq<nat>)

  ghost predicate Proper(d: Datagram) {
    && |d.ip| == 4 && d.port < SPACE && |d.payload| < SPACE
  }

  /** The chip's header (address, port, length, high bytes first) and the payload. */
  function Encode(d: Datagram): (s: seq<nat>)
    requires |d.ip| == 4
    ensures |s| == 8 + |d.payload|
  {
    d.ip + [d.port / 256, d.port % 256, |d.payload| / 256, |d.payload| % 256] + d.payload
  }

  function EncodeAll(ds: seq<Datagram>): seq<nat>
    requires forall i :: 0 <= i < |ds| ==> |ds[i].ip| == 4
  {
    if ds == [] then [] else Encode(ds[0]) + EncodeAll(ds[1..])
  }

  lemma {:induction false} EncodeAppend(ds: seq<Datagram>, d: Datagram)
    requires (forall i :: 0 <= i < |ds| ==> |ds[i].ip| == 4) && |d.ip| == 4
    ensures EncodeAll(ds + [d]) == EncodeAll(ds) + Encode(d)
  {
    hide Encode;
    if ds == [] {
      assert ([d])[1..] == [];
    } else {
      assert (ds + [d])[1..] == ds[1..] + [d];
      EncodeAppend(ds[1..], d);
    }
  }

  // ---------- what recvfrom means ----------

  /** PACK_FIRST and PACK_REMAINED; neither set is PACK_COMPLETED. */
  datatype PackInfo = PackInfo(first: bool, remained: bool)

  const COMPLETED := PackInfo(false, false)

  datatype Result =
    | DataLen
    | Closed
    | Busy
    | Received(bytes: seq<nat>, origin: Origin)

  /** The peer, reported by the first call for a datagram only. */
  datatype Origin = Same | Peer(ip: seq<nat>, port: nat)

  /** What is left of the datagram being read, and the datagrams after it. */
  datatype Inbox = Inbox(rest: seq<nat>, queue: seq<Datagram>)

  /** One call on an open socket with room for len bytes. */
  function Receive(b: Inbox, len: nat): (Inbox, Result) {
    if len == 0 then (b, DataLen)
    else if b.rest == [] && b.queue == [] then (b, Busy)
    else
      var start := if b.rest == [] then Inbox(b.queue[0].payload, b.queue[1..]) else b;
      var origin := if b.rest == [] then Peer(b.queue[0].ip, b.queue[0].port) else Same;
      var n := Min(len, |start.rest|);
      (start.(rest := start.rest[n..]), Received(start.rest[..n], origin))
  }

  // ---------- whole runs ----------

  datatype Event = Arrive(d: Datagram) | Read(len: nat)

  /** An address and a port. */
  type Sender = (seq<nat>, nat)

  /**
   The inbox, the payloads put together so far, the one being put together, and the payloads that arrived; and the
   senders reported by the calls, and those of the datagrams that arrived.
   */
  datatype Session = Session(inbox: Inbox, whole: seq<seq<nat>>, part: seq<nat>, arrived: seq<seq<nat>>,
                             reported: seq<Sender>, senders: seq<Sender>)

  function Next(s: Session, e: Event): Session {
    match e
    case Arrive(d) =>
      s.(inbox := s.inbox.(queue := s.inbox.queue + [d]), arrived := s.arrived + [d.payload],
         senders := s.senders + [(d.ip, d.port)])
    case Read(len) =>
      var (b, r) := Receive(s.inbox, len);
      if !r.Received? then s
      else
        var reported := s.reported + (if r.origin.Peer? then [(r.origin.ip, r.origin.port)] else []);
        if b.rest == [] then s.(inbox := b, whole := s.whole + [s.part + r.bytes], part := [], reported := reported)
        else s.(inbox := b, part := s.part + r.bytes, reported := reported)
  }

  function Run(es: seq<Event>): Session {
    if es == [] then Session(Inbox([], []), [], [], [], [], []) else Next(Run(es[..|es| - 1]), es[|es| - 1])
  }

  function Payloads(ds: seq<Datagram>): (ps: seq<seq<nat>>)
    ensures |ps| == |ds| && forall i :: 0 <= i < |ds| ==> ps[i] == ds[i].payload
  {
    if ds == [] then [] else [ds[0].payload] + Payloads(ds[1..])
  }

  /** The datagram between `whole` and the queue, if one is partly read. */
  function Middle(s: Session): seq<seq<nat>> {
    if s.inbox.rest == [] then [] else [s.part + s.inbox.rest]
  }

  ghost predicate Reassembled(s: Session) {
    && s.arrived == s.whole + Middle(s) + Payloads(s.inbox.queue)
    && (s.inbox.rest == [] ==> s.part == [])
  }

  /** A call that begins a datagram behaves like one that continues it with nothing read of it yet. */
  function Opened(s: Session): Session {
    if s.inbox.rest == [] && s.inbox.queue != [] then
      s.(inbox := Inbox(s.inbox.queue[0].payload, s.inbox.queue[1..]), part := [])
    else s
  }

  /** What a successful call takes, from the front of the datagram it opens or continues. */
  lemma Takes(s: Session, len: nat)
    requires Receive(s.inbox, len).1.Received?
    ensures var ((b, r), o) := (Receive(s.inbox, len), Opened(s));
            && (s.inbox.rest != [] || s.inbox.queue != [])
            && b.queue == o.inbox.queue && o.inbox.rest == r.bytes + b.rest
  {
  }

  lemma OpenedStands(s: Session)
    requires Reassembled(s) && (s.inbox.rest != [] || s.inbox.queue != [])
    ensures var o := Opened(s); s.arrived == s.whole + [o.part + o.inbox.rest] + Payloads(o.inbox.queue)
  {
    hide Payloads;
    if s.inbox.rest == [] {
      var first := s.inbox.queue[0].payload;
      var more := Payloads(s.inbox.queue[1..]);
      FirstPayload(s.inbox.queue);
      assert [] + first == first;
      assert s.whole + [] + ([first] + more) == s.whole + [first] + more;
    }
  }

  lemma ReadKeepsReassembled(s: Session, len: nat)
    requires Reassembled(s)
    ensures Reassembled(Next(s, Read(len)))
  {
    hide Payloads, Receive;
    var (b, r) := Receive(s.inbox, len);
    if r.Received? {
      var o := Opened(s);
      Takes(s, len);
      OpenedStands(s);
      Joins(o.part, r.bytes, b.rest, o.inbox.rest);
    }
  }

  lemma FirstPayload(ds: seq<Datagram>)
    requires ds != []
    ensures Payloads(ds) == [ds[0].payload] + Payloads(ds[1..])
  {
  }

  lemma Joins(part: seq<nat>, bytes: seq<nat>, rest: seq<nat>, all: seq<nat>)
    requires all == bytes + rest
    ensures part + bytes + rest == part + all && (rest == [] ==> part + bytes == part + all)
  {
    assert part + bytes + rest == part + (bytes + rest);
  }

  /**
   For any arrivals and any read lengths in any interleaving: joining the pieces up to each one that leaves nothing
   remaining gives the payloads of the datagrams that arrived, whole and in order; the pieces since the last one
   together with what remains are the next payload; datagrams are never mixed.
   */
  lemma {:induction false} RunReassembles(es: seq<Event>)
    ensures Reassembled(Run(es))
  {
    if es != [] {
      var s, e := Run(es[..|es| - 1]), es[|es| - 1];
      RunReassembles(es[..|es| - 1]);
      if e.Read? {
        ReadKeepsReassembled(s, e.len);
      } else {
        assert Payloads(s.inbox.queue + [e.d]) == Payloads(s.inbox.queue) + [e.d.payload];
      }
    }
  }

  // ---------- who sent it, and how much ----------

  function Senders(ds: seq<Datagram>): (ps: seq<Sender>)
    ensures |ps| == |ds|
  {
    seq(|ds|, i requires 0 <= i < |ds| => (ds[i].ip, ds[i].port))
  }

  /** Datagrams opened so far: those put together, and the one being put together. */
  function OpenedCount(s: Session): nat {
    |s.whole| + if s.inbox.rest == [] then 0 else 1
  }

  ghost predicate Attributed(s: Session) {
    s.senders == s.reported + Senders(s.inbox.queue) && |s.reported| == OpenedCount(s)
  }

  lemma ReadKeepsAttributed(s: Session, len: nat)
    requires Attributed(s)
    ensures Attributed(Next(s, Read(len)))
  {
    if Receive(s.inbox, len).1.Received? && s.inbox.rest == [] {
      var first, more := (s.inbox.queue[0].ip, s.inbox.queue[0].port), s.inbox.queue[1..];
      assert Senders(s.inbox.queue) == [first] + Senders(more);
      assert s.reported + ([first] + Senders(more)) == s.reported + [first] + Senders(more);
    }
  }

  /**
   For any arrivals and reads in any interleaving: the senders reported, in order, are the addresses and ports of the
   datagrams in the order they arrived, one for each datagram opened so far.
   */
  lemma {:induction false} RunAttributes(es: seq<Event>)
    ensures var s := Run(es);
            && |s.reported| == OpenedCount(s) <= |s.senders| && s.reported == s.senders[..OpenedCount(s)]
            && Attributed(s)
  {
    hide Receive;
    if es != [] {
      var s, e := Run(es[..|es| - 1]), es[|es| - 1];
      RunAttributes(es[..|es| - 1]);
      if e.Read? {
        ReadKeepsAttributed(s, e.len);
      } else {
        assert Senders(s.inbox.queue + [e.d]) == Senders(s.inbox.queue) + [(e.d.ip, e.d.port)];
      }
    }
  }

  // ---------- the chip's memory ----------

  /** The buffer sizes the chip has. */
  ghost predicate BufferSize(n: nat) {
    n == 1024 || n == 2048 || n == 4096 || n == 8192 || n == 16384
  }

  /** n bytes of the ring from 16-bit pointer `at` on. */
  ghost function Window(memory: seq<nat>, at: nat, n: nat): (w: seq<nat>)
    requires BufferSize(|memory|)
    ensures |w| == n
  {
    seq(n, k requires 0 <= k < n => memory[(at + k) % SPACE % |memory|])
  }

  lemma PointerWraps(at: nat, a: nat, b: nat)
    ensures ((at + a) % SPACE + b) % SPACE == (at + (a + b)) % SPACE
  {
  }

  /** Splitting a window at a pointer that may have wrapped. */
  lemma WindowSplits(memory: seq<nat>, at: nat, a: nat, b: nat)
    requires BufferSize(|memory|)
    ensures Window(memory, at, a + b) == Window(memory, at, a) + Window(memory, (at + a) % SPACE, b)
  {
    var all, tail := Window(memory, at, a + b), Window(memory, (at + a) % SPACE, b);
    forall i | a <= i < |all|
      ensures all[i] == tail[i - a]
    {
      PointerWraps(at, a, i - a);
    }
  }

  /** Two places less than a buffer apart are different places. */
  lemma Apart(size: nat, i: nat, j: nat)
    requires BufferSize(size) && i < j < i + size
    ensures i % SPACE % size != j % SPACE % size
  {
    Collapses(size, i);
    Collapses(size, j);
    Differ(size, i, j);
  }

  lemma Collapses(size: nat, i: nat)
    requires BufferSize(size)
    ensures i % SPACE % size == i % size
  {
  }

  lemma Differ(size: nat, i: nat, j: nat)
    requires BufferSize(size) && i < j < i + size
    ensures i % size != j % size
  {
  }

  // ---------- the socket ----------

  /** Bytes between the read and the write pointer. */
  function Distance(from: nat, to: nat): (d: nat)
    requires from < SPACE && to < SPACE
    ensures d < SPACE
  {
    (to + SPACE - from) % SPACE
  }

  lemma DistanceShrinks(from: nat, to: nat, n: nat)
    requires from < SPACE && to < SPACE && n <= Distance(from, to)
    ensures Distance((from + n) % SPACE, to) == Distance(from, to) - n
  {
  }

  lemma DistanceGrows(from: nat, to: nat, n: nat)
    requires from < SPACE && to < SPACE && Distance(from, to) + n < SPACE
    ensures Distance(from, (to + n) % SPACE) == Distance(from, to) + n
    ensures (from + Distance(from, to)) % SPACE == to
  {
  }

  /** One call, on a socket that may be closed: closing only matters between datagrams. */
  function Call(open: bool, b: Inbox, len: nat): (Inbox, Result) {
    if len > 0 && b.rest == [] && !open then (b, Closed) else Receive(b, len)
  }

  /**
   A call fails exactly if it has no room (DataLen), or between datagrams on a closed socket (Closed), or with nothing
   to read (Busy); otherwise it reports the sender exactly if it opens a datagram, and returns fewer bytes than there
   was room for only if that is the rest of the datagram.
   */
  lemma CallReturns(open: bool, b: Inbox, len: nat)
    ensures var (c, r) := Call(open, b, len);
            && (r.DataLen? <==> len == 0)
            && (r.Closed? <==> len > 0 && b.rest == [] && !open)
            && (r.Busy? <==> len > 0 && b.rest == [] && open && b.queue == [])
            && (!r.Received? ==> c == b)
            && (r.Received? ==> (r.origin.Peer? <==> b.rest == []) && |r.bytes| <= len
                                && (|r.bytes| < len ==> c.rest == []))
  {
  }

  /** Bytes a call consumes from the chip, header included. */
  function Consumed(open: bool, b: Inbox, len: nat): nat {
    var r := Call(open, b, len).1;
    if r.Received? then |r.bytes| + (if r.origin.Peer? then 8 else 0) else 0
  }

  /** The inbox once the first datagram that fits has arrived, if it was empty. */
  function Waited(b: Inbox, room: nat, arrivals: seq<Datagram>): Inbox
    decreases |arrivals|
  {
    if b.rest != [] || b.queue != [] || arrivals == [] then b
    else if 8 + |arrivals[0].payload| <= room then b.(queue := [arrivals[0]])
    else Waited(b, room, arrivals[1..])
  }

  /** The wait ends with the first arrival that fits, if there is one, and otherwise goes on. */
  lemma {:induction false} WaitedFor(b: Inbox, room: nat, arrivals: seq<Datagram>)
    requires b.rest == [] && b.queue == []
    ensures Waited(b, room, arrivals).rest == []
    ensures forall k :: 0 <= k < |arrivals| && 8 + |arrivals[k].payload| <= room
                        && (forall j :: 0 <= j < k ==> 8 + |arrivals[j].payload| > room) ==>
              Waited(b, room, arrivals).queue == [arrivals[k]]
    ensures (forall k :: 0 <= k < |arrivals| ==> 8 + |arrivals[k].payload| > room) ==> Waited(b, room, arrivals) == b
    decreases |arrivals|
  {
    if arrivals != [] {
      var rest := arrivals[1..];
      WaitedFor(b, room, rest);
      assert forall k :: 0 < k < |arrivals| ==> arrivals[k] == rest[k - 1];
      assert forall j :: 0 <= j < |rest| ==> rest[j] == arrivals[j + 1];
    }
  }

  class Socket {
    // the chip
    const memory: array<nat>
    var readPointer: nat   // Sn_RX_RD as last written
    var released: nat      // the read pointer at the last RECV command
    var writePointer: nat
    // the driver
    var open: bool
    var remained: nat
    var packInfo: PackInfo
    ghost var inbox: Inbox

    ghost predicate Pointers()
      reads this`readPointer, this`released, this`writePointer
    {
      && BufferSize(memory.Length)
      && readPointer < SPACE && released < SPACE && writePointer < SPACE
      && Distance(released, writePointer) <= memory.Length
    }

    /** The unread bytes in the chip. */
    ghost function Unread(): seq<nat>
      requires Pointers()
      reads this`readPointer, this`released, this`writePointer, memory
    {
      Window(memory[..], released, Distance(released, writePointer))
    }

    ghost predicate Holds(b: Inbox)
      requires Pointers()
      reads this`readPointer, this`released, this`writePointer, memory
    {
      && (forall i :: 0 <= i < |b.queue| ==> Proper(b.queue[i]))
      && |b.rest| < SPACE
      && Unread() == b.rest + EncodeAll(b.queue)
    }

    ghost predicate Steady()
      reads this`readPointer, this`released, this`writePointer, this`remained, this`inbox, memory
    {
      Pointers() && readPointer == released && Holds(inbox) && remained == |inbox.rest|
    }

    ghost predicate Valid()
      reads this, memory
    {
      && Steady()
      && packInfo == (if remained > 0 then PackInfo(true, true) else COMPLETED)
    }

    constructor (size: nat, at: nat)
      requires BufferSize(size) && at < SPACE
      ensures Valid() && inbox == Inbox([], []) && open && fresh(memory) && readPointer == at
    {
      memory := new nat[size](_ => 0);
      readPointer, released, writePointer := at, at, at;
      open, remained, packInfo := true, 0, COMPLETED;
      inbox := Inbox([], []);
      new;
      assert Unread() == [];
    }

    /** The chip stores bytes behind the write pointer. */
    method Write(bytes: seq<nat>)
      requires Pointers() && Distance(released, writePointer) + |bytes| <= memory.Length
      modifies this`writePointer, memory
      ensures Pointers() && Unread() == old(Unread()) + bytes
    {
      ghost var before, level := memory[..], Distance(released, writePointer);
      DistanceGrows(released, writePointer, |bytes|);
      for i := 0 to |bytes|
        modifies memory
        invariant Window(memory[..], released, level + i) == Window(before, released, level) + bytes[..i]
      {
        ghost var was := memory[..];
        var place := (writePointer + i) % SPACE % memory.Length;
        memory[place] := bytes[i];
        PointerWraps(released, level, i);
        StoreExtends(was, released, level + i, bytes[i]);
        assert bytes[..i + 1] == bytes[..i] + [bytes[i]];
      }
      writePointer := (writePointer + |bytes|) % SPACE;
      assert bytes[..|bytes|] == bytes;
    }

    /** close(): the driver forgets the datagram being read; the chip drops what it holds and takes nothing in. */
    method Close()
      requires Valid()
      modifies this`open, this`remained, this`packInfo, this`inbox, this`readPointer, this`released
      ensures Valid() && !open && inbox == Inbox([], [])
    {
      open, remained, packInfo, inbox := false, 0, COMPLETED, Inbox([], []);
      readPointer, released := writePointer, writePointer;
      assert Unread() == [];
    }

    /** socket() on a closed socket opens it again, empty. */
    method Reopen()
      requires Valid() && !open
      modifies this`open, this`remained, this`packInfo, this`inbox, this`readPointer, this`released
      ensures Valid() && open && inbox == Inbox([], [])
    {
      Close();
      open := true;
    }

    /** A datagram arrives: stored whole, or dropped when the socket is closed or has no room for it. */
    method Arrive(d: Datagram)
      requires Valid() && Proper(d)
      modifies this`writePointer, this`inbox, memory
      ensures Valid()
      ensures inbox == if open && old(Distance(released, writePointer)) + 8 + |d.payload| <= memory.Length
                       then old(inbox).(queue := old(inbox).queue + [d]) else old(inbox)
    {
      var bytes := Encode(d);
      if open && Distance(released, writePointer) + |bytes| <= memory.Length {
        Write(bytes);
        EncodeAppend(inbox.queue, d);
        inbox := inbox.(queue := inbox.queue + [d]);
      }
    }

    /** wiz_recv_data: copies n bytes and advances the read pointer register. */
    method RecvData(n: nat) returns (bytes: seq<nat>)
      requires Pointers()
      modifies this`readPointer
      ensures Pointers() && bytes == Window(memory[..], old(readPointer), n)
      ensures readPointer == (old(readPointer) + n) % SPACE
    {
      bytes := [];
      if n == 0 {
        assert readPointer % SPACE == readPointer;
        return;
      }
      var pointer := readPointer;
      for k := 0 to n
        invariant bytes == Window(memory[..], pointer, k)
      {
        bytes := bytes + [memory[(pointer + k) % SPACE % memory.Length]];
      }
      readPointer := (pointer + n) % SPACE;
    }

    /** The RECV command: the chip takes over the read pointer. */
    method Release(ghost n: nat)
      requires Pointers() && readPointer == (released + n) % SPACE && n <= Distance(released, writePointer)
      modifies this`released
      ensures Pointers() && readPointer == released && Unread() == old(Unread())[n..]
    {
      DistanceShrinks(released, writePointer, n);
      WindowSplits(memory[..], released, n, Distance(released, writePointer) - n);
      released := readPointer;
    }

    /** Reads the header of the next datagram. */
    method ReadHeader() returns (origin: Origin)
      requires Steady() && remained == 0 && inbox.queue != []
      modifies this`readPointer, this`released, this`remained, this`packInfo, this`inbox
      ensures Steady() && readPointer == (old(readPointer) + 8) % SPACE && packInfo == PackInfo(true, false)
      ensures var d := old(inbox.queue[0]);
              inbox == Inbox(d.payload, old(inbox.queue[1..])) && origin == Peer(d.ip, d.port)
    {
      hide Encode, Window, EncodeAll, BufferSize;
      ghost var d, more := inbox.queue[0], EncodeAll(inbox.queue[1..]);
      ghost var unread := Unread();
      EmptyInbox(inbox.queue);
      assert unread == Encode(d) + more;
      HeaderOf(d, more);
      WindowSplits(memory[..], released, 8, |unread| - 8);
      var head := RecvData(8);
      Release(8);
      inbox := Inbox(d.payload, inbox.queue[1..]);
      origin := Peer(head[..4], head[4] * 256 + head[5]);
      remained := head[6] * 256 + head[7];
      packInfo := PackInfo(true, false);
    }

    /** Reads n bytes of the datagram under way. */
    method ReadPayload(n: nat) returns (bytes: seq<nat>)
      requires Steady() && n <= remained
      modifies this`readPointer, this`released, this`inbox, this`remained
      ensures Steady() && readPointer == (old(readPointer) + n) % SPACE
      ensures bytes == old(inbox.rest)[..n] && inbox == old(inbox).(rest := old(inbox.rest)[n..])
    {
      hide Encode, Window;
      ghost var unread, more := Unread(), EncodeAll(inbox.queue);
      assert unread[..n] == inbox.rest[..n] && unread[n..] == inbox.rest[n..] + more;
      WindowSplits(memory[..], released, n, |unread| - n);
      bytes := RecvData(n);
      Release(n);
      inbox := inbox.(rest := inbox.rest[n..]);
      remained := remained - n;
    }

    lemma Counts()
      requires Steady()
      ensures remained == |inbox.rest| && readPointer < SPACE && released < SPACE && writePointer < SPACE
    {
    }

    /** Between datagrams the level is zero exactly when none is waiting. */
    lemma Level()
      requires Steady() && remained == 0
      ensures released < SPACE && writePointer < SPACE
      ensures Distance(released, writePointer) == 0 <==> inbox.queue == []
    {
      EmptyInbox(inbox.queue);
    }

    /** The wait for a datagram: one may arrive before each look at the level. */
    method Await(arrivals: seq<Datagram>)
      requires Valid() && remained == 0 && open && forall i :: 0 <= i < |arrivals| ==> Proper(arrivals[i])
      modifies this`writePointer, this`inbox, memory
      ensures Valid() && inbox == Waited(old(inbox), memory.Length, arrivals)
    {
      hide Window, EncodeAll, Steady, Holds, Unread, Distance, Proper;
      var k := 0;
      Counts();
      Level();
      while k < |arrivals| && Distance(released, writePointer) == 0
        invariant Valid() && remained == 0 && k <= |arrivals|
        invariant released < SPACE && writePointer < SPACE && inbox.rest == []
        invariant Distance(released, writePointer) == 0 <==> inbox.queue == []
        invariant Waited(old(inbox), memory.Length, arrivals) == Waited(inbox, memory.Length, arrivals[k..])
      {
        assert arrivals[k..][0] == arrivals[k] && arrivals[k..][1..] == arrivals[k + 1..];
        Arrive(arrivals[k]);
        k := k + 1;
        Counts();
        Level();
      }
    }

    /** A blocking call waits while `arrivals` come in; Busy then means that it is still waiting. */
    method Recvfrom(len: nat, blocking: bool, arrivals: seq<Datagram>) returns (r: Result)
      requires Valid() && len < SPACE && forall i :: 0 <= i < |arrivals| ==> Proper(arrivals[i])
      modifies this`readPointer, this`released, this`remained, this`packInfo, this`inbox, this`writePointer, memory
      ensures var b := if blocking && open && len > 0 then Waited(old(inbox), memory.Length, arrivals) else old(inbox);
              && Valid() && (inbox, r) == Call(open, b, len)
              && readPointer == (old(readPointer) + Consumed(open, b, len)) % SPACE
      ensures r.Received? ==> (packInfo == COMPLETED <==> inbox.rest == [])
      ensures r.Received? && inbox.rest != [] ==> packInfo == PackInfo(true, true)
    {
      hide Window, EncodeAll, Steady, Pointers, Holds, Unread, Distance;
      Counts();
      if len == 0 {
        return DataLen;
      }
      var origin := Same;
      if remained == 0 {
        if !open {
          return Closed;
        }
        if blocking {
          Await(arrivals);
        }
        Counts();
        Level();
        if Distance(released, writePointer) == 0 {
          return Busy;
        }
        origin := ReadHeader();
        Counts();
      }
      var n := if len < remained then len else remained;
      var bytes := ReadPayload(n);
      Counts();
      PointerWraps(old(readPointer), if origin.Peer? then 8 else 0, n);
      packInfo := if remained != 0 then packInfo.(remained := true) else COMPLETED;
      r := Received(bytes, origin);
    }
  }

  lemma StoreExtends(memory: seq<nat>, at: nat, n: nat, b: nat)
    requires BufferSize(|memory|) && n < |memory|
    ensures Window(memory[(at + n) % SPACE % |memory| := b], at, n + 1) == Window(memory, at, n) + [b]
  {
    var place := (at + n) % SPACE % |memory|;
    var after := memory[place := b];
    forall k | 0 <= k < n
      ensures Window(after, at, n + 1)[k] == Window(memory, at, n)[k]
    {
      Apart(|memory|, at + k, at + n);
    }
  }

  lemma EmptyInbox(ds: seq<Datagram>)
    requires forall i :: 0 <= i < |ds| ==> |ds[i].ip| == 4
    ensures |EncodeAll(ds)| == 0 <==> ds == []
    ensures ds != [] ==> EncodeAll(ds) == Encode(ds[0]) + EncodeAll(ds[1..])
  {
  }

  /** The header read back from the front of the stream. */
  lemma HeaderOf(d: Datagram, more: seq<nat>)
    requires Proper(d)
    ensures var s := Encode(d) + more;
            && s[..4] == d.ip && s[4] * 256 + s[5] == d.port && s[6] * 256 + s[7] == |d.payload|
            && s[8..] == d.payload + more
  {
  }
}
