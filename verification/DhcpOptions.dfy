/** DHCP options: the client's writer with its back-patched host-name length, and its parser. */
module DhcpOptions {

  const PAD := 0
  const SUBNET := 1
  const ROUTERS := 3
  const DNS := 6
  const HOST_NAME := 12
  const REQUESTED_IP := 50
  const LEASE_TIME := 51
  const MESSAGE_TYPE := 53
  const SERVER_ID := 54
  const PARAMETERS := 55
  const CLIENT_ID := 61
  const END := 255

  const DISCOVER := 1
  const OFFER := 2
  const REQUEST := 3
  const DECLINE := 4
  const ACK := 5
  const NAK := 6

  // ---------- option lists ----------

  datatype Option = Padding | Option(code: nat, data: seq<nat>)

  function Encode(o: Option): (s: seq<nat>)
    ensures |s| > 0
  {
    match o
    case Padding => [PAD]
    case Option(code, data) => [code, |data|] + data
  }

  function EncodeAll(os: seq<Option>): seq<nat> {
    if os == [] then [] else Encode(os[0]) + EncodeAll(os[1..])
  }

  lemma {:induction false} EncodeJoin(a: seq<Option>, b: seq<Option>)
    ensures EncodeAll(a + b) == EncodeAll(a) + EncodeAll(b)
  {
    hide Encode;
    if a == [] {
      assert a + b == b;
    } else {
      assert (a + b)[1..] == a[1..] + b;
      EncodeJoin(a[1..], b);
    }
  }

  /** The lengths RFC 2132 gives the options the parser knows. */
  predicate ProperLength(code: nat, n: nat) {
    && (code == MESSAGE_TYPE ==> n == 1)
    && (code in {SUBNET, LEASE_TIME, SERVER_ID} ==> n == 4)
    && (code in {ROUTERS, DNS} ==> n >= 4)
  }

  predicate WellFormed(o: Option) {
    o.Option? ==> o.code != PAD && o.code != END && ProperLength(o.code, |o.data|)
  }

  predicate AllWellFormed(os: seq<Option>) {
    forall i :: 0 <= i < |os| ==> WellFormed(os[i])
  }

  // ---------- the parser ----------

  /** What a message leaves behind: the type, and the fields the options carry. */
  datatype Fields = Fields(kind: nat, subnet: seq<nat>, gateway: seq<nat>, dns: seq<nat>, lease: nat,
                           serverId: seq<nat>, serverAddress: seq<nat>)

  function Four(mem: nat -> nat, p: nat): (b: seq<nat>)
    ensures |b| == 4
  {
    [mem(p), mem(p + 1), mem(p + 2), mem(p + 3)]
  }

  function BigEndian(b: seq<nat>): nat
    requires |b| == 4
  {
    ((b[0] * 256 + b[1]) * 256 + b[2]) * 256 + b[3]
  }

  /** Where the parser goes on after the option at p. */
  function After(mem: nat -> nat, p: nat): (q: nat)
    ensures q > p
  {
    if mem(p) == PAD then p + 1
    else if mem(p) == MESSAGE_TYPE then p + 3
    else if mem(p) in {SUBNET, LEASE_TIME, SERVER_ID} then p + 6
    else p + 2 + mem(p + 1)
  }

  /** What it takes from the option at p. */
  function Take(mem: nat -> nat, p: nat, from: seq<nat>, f: Fields): Fields {
    if mem(p) == MESSAGE_TYPE then f.(kind := mem(p + 2))
    else if mem(p) == SUBNET then f.(subnet := Four(mem, p + 2))
    else if mem(p) == ROUTERS then f.(gateway := Four(mem, p + 2))
    else if mem(p) == DNS then f.(dns := Four(mem, p + 2))
    else if mem(p) == LEASE_TIME then f.(lease := BigEndian(Four(mem, p + 2)))
    else if mem(p) == SERVER_ID then f.(serverId := Four(mem, p + 2), serverAddress := from)
    else f
  }

  /** A number's four bytes, high first. */
  function FourBytes(n: nat): (b: seq<nat>)
    ensures |b| == 4
  {
    [n / 0x100_0000, n / 0x1_0000 % 0x100, n / 0x100 % 0x100, n % 0x100]
  }

  /** Reading a lease time undoes writing it, and the other way round. */
  lemma LeaseTimeRoundTrip(n: nat, b: seq<nat>)
    requires |b| == 4 && forall i :: 0 <= i < 4 ==> b[i] < 0x100
    ensures BigEndian(FourBytes(n)) == n
    ensures FourBytes(BigEndian(b)) == b
  {
    assert n / 0x1_0000 == n / 0x100 / 0x100 && n / 0x100_0000 == n / 0x1_0000 / 0x100;
    var high, mid := b[0] * 256 + b[1], (b[0] * 256 + b[1]) * 256 + b[2];
    assert BigEndian(b) / 0x100 == mid && mid / 0x100 == high && high / 0x100 == b[0];
    assert BigEndian(b) / 0x1_0000 == high && BigEndian(b) / 0x100_0000 == b[0];
  }

  /** The scan of addresses p..end of a message from server address `from`. */
  function Parse(mem: nat -> nat, p: nat, end: nat, from: seq<nat>, f: Fields): Fields
    decreases end - p
  {
    if p >= end || mem(p) == END then f
    else Parse(mem, After(mem, p), end, from, Take(mem, p, from, f))
  }

  /** The pointer lands on the next option exactly when a known option has its proper length. */
  lemma LandsOnNext(mem: nat -> nat, p: nat, o: Option)
    requires Stored(mem, p, Encode(o)) && o.Option? && o.code != PAD && o.code != END
    ensures After(mem, p) == p + |Encode(o)| <==>
            (o.code == MESSAGE_TYPE ==> |o.data| == 1) && (o.code in {SUBNET, LEASE_TIME, SERVER_ID} ==> |o.data| == 4)
  {
    Peek(mem, p, Encode(o), 0);
    Peek(mem, p, Encode(o), 1);
  }

  /** What an option list means: the last value of each known field. */
  function Meaning(os: seq<Option>, from: seq<nat>, f: Fields): Fields
    requires AllWellFormed(os)
  {
    if os == [] then f else Meaning(os[1..], from, Value(os[0], from, f))
  }

  function Value(o: Option, from: seq<nat>, f: Fields): Fields
    requires WellFormed(o)
  {
    if o.Padding? then f
    else if o.code == MESSAGE_TYPE then f.(kind := o.data[0])
    else if o.code == SUBNET then f.(subnet := o.data)
    else if o.code == ROUTERS then f.(gateway := o.data[..4])
    else if o.code == DNS then f.(dns := o.data[..4])
    else if o.code == LEASE_TIME then f.(lease := BigEndian(o.data))
    else if o.code == SERVER_ID then f.(serverId := o.data, serverAddress := from)
    else f
  }

  ghost predicate Stored(mem: nat -> nat, p: nat, s: seq<nat>) {
    forall k :: 0 <= k < |s| ==> mem(p + k) == s[k]
  }

  lemma Peek(mem: nat -> nat, p: nat, s: seq<nat>, k: nat)
    requires Stored(mem, p, s) && k < |s|
    ensures mem(p + k) == s[k]
  {
  }

  lemma StoredSplits(mem: nat -> nat, p: nat, a: seq<nat>, b: seq<nat>)
    requires Stored(mem, p, a + b)
    ensures Stored(mem, p, a) && Stored(mem, p + |a|, b)
  {
    forall k | 0 <= k < |a|
      ensures mem(p + k) == a[k]
    {
      assert (a + b)[k] == a[k];
    }
    forall k | 0 <= k < |b|
      ensures mem(p + |a| + k) == b[k]
    {
      assert (a + b)[|a| + k] == b[k];
    }
  }

  lemma TakesOption(mem: nat -> nat, p: nat, o: Option, from: seq<nat>, f: Fields)
    requires Stored(mem, p, Encode(o)) && WellFormed(o)
    ensures mem(p) != END && After(mem, p) == p + |Encode(o)| && Take(mem, p, from, f) == Value(o, from, f)
  {
    var s := Encode(o);
    Peek(mem, p, s, 0);
    if o.Option? {
      Peek(mem, p, s, 1);
      if |o.data| >= 1 {
        Peek(mem, p, s, 2);
      }
      if |o.data| >= 4 {
        Peek(mem, p, s, 3);
        Peek(mem, p, s, 4);
        Peek(mem, p, s, 5);
        assert Four(mem, p + 2) == o.data[..4];
      }
      if |o.data| == 4 {
        assert o.data[..4] == o.data;
      }
    }
  }

  /** The parser recovers the last value of every known field from any well-formed list, whatever follows its end. */
  lemma {:induction false} ParseRecovers(mem: nat -> nat, p: nat, end: nat, os: seq<Option>, from: seq<nat>, f: Fields)
    requires AllWellFormed(os)
    requires Stored(mem, p, EncodeAll(os) + [END]) && p + |EncodeAll(os)| < end
    ensures Parse(mem, p, end, from, f) == Meaning(os, from, f)
    decreases |os|
  {
    hide Encode, Take, After, Value;
    if os == [] {
      assert mem(p + 0) == (EncodeAll(os) + [END])[0];
    } else {
      var rest := EncodeAll(os[1..]) + [END];
      assert EncodeAll(os) + [END] == Encode(os[0]) + rest;
      StoredSplits(mem, p, Encode(os[0]), rest);
      TakesOption(mem, p, os[0], from, f);
      ParseRecovers(mem, p + |Encode(os[0])|, end, os[1..], from, Value(os[0], from, f));
    }
  }

  /** The scanning loop of parseDHCPMSG. */
  method ParseOptions(mem: nat -> nat, start: nat, end: nat, from: seq<nat>, initial: Fields) returns (f: Fields)
    ensures f == Parse(mem, start, end, from, initial)
  {
    hide Four, BigEndian;
    var p := start;
    f := initial;
    while p < end
      invariant Parse(mem, start, end, from, initial) == Parse(mem, p, end, from, f)
      decreases end - p
    {
      var code := mem(p);
      if code == END {
        p := end;
      } else if code == PAD {
        p := p + 1;
      } else if code == MESSAGE_TYPE {
        p := p + 2;
        f := f.(kind := mem(p));
        p := p + 1;
      } else if code == SUBNET {
        p := p + 2;
        f := f.(subnet := Four(mem, p));
        p := p + 4;
      } else if code == ROUTERS || code == DNS {
        var length := mem(p + 1);
        p := p + 2;
        f := if code == ROUTERS then f.(gateway := Four(mem, p)) else f.(dns := Four(mem, p));
        p := p + 4 + length - 4;
      } else if code == LEASE_TIME {
        p := p + 2;
        f := f.(lease := BigEndian(Four(mem, p)));
        p := p + 4;
      } else if code == SERVER_ID {
        p := p + 2;
        f := f.(serverId := Four(mem, p), serverAddress := from);
        p := p + 4;
      } else {
        var length := mem(p + 1);
        p := p + 2 + length;
      }
    }
  }

  // ---------- the writer ----------

  const OPT_SIZE := 312
  const OPT_OFFSET := 236  // of the options in the message
  const COOKIE := [0x63, 0x82, 0x53, 0x63]

  function NibbleToHex(nibble: nat): nat {
    var n := nibble % 16;
    if n <= 9 then n + 48 else n + 55
  }

  /** The last three bytes of the hardware address in hexadecimal. */
  function Suffix(chaddr: seq<nat>): (s: seq<nat>)
    requires |chaddr| == 6
    ensures |s| == 6
  {
    [NibbleToHex(chaddr[3] / 16), NibbleToHex(chaddr[3]), NibbleToHex(chaddr[4] / 16), NibbleToHex(chaddr[4]),
     NibbleToHex(chaddr[5] / 16), NibbleToHex(chaddr[5])]
  }

  /** The parts common to the client's messages. */
  function Opening(kind: nat, chaddr: seq<nat>): seq<Option> {
    [Option(MESSAGE_TYPE, [kind]), Option(CLIENT_ID, [1] + chaddr)]
  }

  function Addresses(ip: seq<nat>, sip: seq<nat>): seq<Option> {
    [Option(REQUESTED_IP, ip), Option(SERVER_ID, sip)]
  }

  function Host(chaddr: seq<nat>, host: seq<nat>): seq<Option>
    requires |chaddr| == 6
  {
    [Option(HOST_NAME, host + Suffix(chaddr))]
  }

  const DISCOVER_WISHES := [SUBNET, ROUTERS, DNS, 15, 58, 59]
  const REQUEST_WISHES := [SUBNET, ROUTERS, DNS, 15, 58, 59, 31, 33]

  function DiscoverOptions(chaddr: seq<nat>, host: seq<nat>): seq<Option>
    requires |chaddr| == 6
  {
    Opening(DISCOVER, chaddr) + Host(chaddr, host) + [Option(PARAMETERS, DISCOVER_WISHES)]
  }

  /** `addressed` is whether the request names the address and the server: when it is broadcast. */
  function RequestOptions(chaddr: seq<nat>, host: seq<nat>, addressed: bool, ip: seq<nat>, sip: seq<nat>): seq<Option>
    requires |chaddr| == 6
  {
    Opening(REQUEST, chaddr) + (if addressed then Addresses(ip, sip) else [])
    + Host(chaddr, host) + [Option(PARAMETERS, REQUEST_WISHES)]
  }

  function DeclineOptions(chaddr: seq<nat>, ip: seq<nat>, sip: seq<nat>): seq<Option> {
    Opening(DECLINE, chaddr) + Addresses(ip, sip)
  }

  /** The option area holds the cookie, the options, the end mark, and zeros. */
  ghost predicate Written(opt: seq<nat>, os: seq<Option>) {
    var s := COOKIE + EncodeAll(os) + [END];
    |opt| == OPT_SIZE && |s| <= OPT_SIZE && opt[..|s|] == s && forall i :: |s| <= i < OPT_SIZE ==> opt[i] == 0
  }

  lemma AppendOne(os: seq<Option>, o: Option)
    ensures EncodeAll(os + [o]) == EncodeAll(os) + Encode(o)
  {
    EncodeJoin(os, [o]);
    assert [o][1..] == [];
    assert Encode(o) + EncodeAll([]) == Encode(o);
  }

  lemma Regroup(s: seq<nat>, a: nat, b: nat, data: seq<nat>)
    ensures s + [a] + [b] + data == s + ([a, b] + data)
  {
  }

  /** Filling in the length byte of an option written with a zero there. */
  lemma Patched(s: seq<nat>, code: nat, host: seq<nat>, suffix: seq<nat>, n: nat)
    ensures (s + [code] + [0] + host + suffix)[|s| + 1 := n] == s + ([code, n] + (host + suffix))
  {
    var before := s + [code] + [0] + host + suffix;
    assert before == s + ([code, 0] + (host + suffix));
  }

  /** The option area under construction: `text` is what is written so far, `list` the options in it. */
  class Writer {
    const opt: array<nat>
    var k: nat
    ghost var text: seq<nat>
    ghost var list: seq<Option>

    ghost predicate Holds()
      reads this, opt
    {
      opt.Length == OPT_SIZE && k == |text| <= OPT_SIZE && opt[..k] == text
    }

    ghost predicate Valid()
      reads this, opt
    {
      Holds() && text == COOKIE + EncodeAll(list)
    }

    constructor ()
      ensures Valid() && k == 4 && list == [] && fresh(opt)
    {
      opt := new nat[OPT_SIZE](i => if 0 <= i < 4 then COOKIE[i] else 0);
      k := 4;
      text, list := COOKIE, [];
    }

    method Put(b: nat)
      requires Holds() && k < OPT_SIZE
      modifies this`k, this`text, opt
      ensures Holds() && text == old(text) + [b] && k == old(k) + 1
    {
      opt[k] := b;
      k := k + 1;
      text := text + [b];
    }

    method PutAll(bytes: seq<nat>)
      requires Holds() && k + |bytes| <= OPT_SIZE
      modifies this`k, this`text, opt
      ensures Holds() && text == old(text) + bytes && k == old(k) + |bytes|
    {
      for i := 0 to |bytes|
        invariant Holds() && text == old(text) + bytes[..i] && k == old(k) + i
      {
        Put(bytes[i]);
        assert bytes[..i + 1] == bytes[..i] + [bytes[i]];
      }
      assert bytes[..|bytes|] == bytes;
    }

    /** An option of known length. */
    method PutOption(code: nat, data: seq<nat>)
      requires Valid() && k + 2 + |data| <= OPT_SIZE
      modifies this, opt
      ensures Valid() && list == old(list) + [Option(code, data)] && k == old(k) + 2 + |data|
    {
      hide EncodeAll, Holds;
      Put(code);
      Put(|data|);
      PutAll(data);
      Regroup(old(text), code, |data|, data);
      AppendOne(list, Option(code, data));
      Added(Option(code, data));
    }

    /** Records that an option has been written. */
    ghost method Added(o: Option)
      requires Holds() && text == COOKIE + EncodeAll(list) + Encode(o)
      requires EncodeAll(list + [o]) == EncodeAll(list) + Encode(o)
      modifies this`list
      ensures Valid() && list == old(list) + [o]
    {
      hide EncodeAll, Encode;
      list := list + [o];
    }

    /** The host name: its length is only known afterwards, and patched back into place. */
    method PutHostName(chaddr: seq<nat>, host: seq<nat>)
      requires |chaddr| == 6 && |host| <= 249
      requires Valid() && k + 8 + |host| <= OPT_SIZE
      modifies this, opt
      ensures Valid() && list == old(list) + Host(chaddr, host) && k == old(k) + 8 + |host|
    {
      hide EncodeAll, Suffix, Holds;
      ghost var s := text;
      Put(HOST_NAME);
      Put(0);
      PutAll(host);
      PutAll(Suffix(chaddr));
      Patched(s, HOST_NAME, host, Suffix(chaddr), |host| + 6);
      SetLength(|host|, |s| + 1);
      AppendOne(list, Option(HOST_NAME, host + Suffix(chaddr)));
      Added(Option(HOST_NAME, host + Suffix(chaddr)));
    }

    /** Fills in the length byte, counted back from the write position. */
    method SetLength(i: nat, ghost place: nat)
      requires Holds() && k >= i + 7 && place == k - (i + 6 + 1)
      modifies this`text, opt
      ensures Holds() && text == old(text)[place := i + 6]
    {
      var length: nat := i + 6;
      opt[k - (i + 6 + 1)] := length;
      text := text[place := length];
    }

    /** The end mark, and zeros to the end of the area. */
    method Finish()
      requires Valid() && k < OPT_SIZE
      modifies this`k, this`text, opt
      ensures Written(opt[..], list)
    {
      hide EncodeAll;
      Put(END);
      for i := k to OPT_SIZE
        modifies opt
        invariant opt[..k] == text
        invariant forall j :: k <= j < i ==> opt[j] == 0
      {
        opt[i] := 0;
      }
    }
  }

  /** The options of send_DHCP_DISCOVER. */
  method WriteDiscover(chaddr: seq<nat>, host: seq<nat>) returns (opt: array<nat>)
    requires |chaddr| == 6 && |host| <= 249
    ensures Written(opt[..], DiscoverOptions(chaddr, host))
  {
    hide Written, EncodeAll, Suffix;
    var w := new Writer();
    w.PutOption(MESSAGE_TYPE, [DISCOVER]);
    w.PutOption(CLIENT_ID, [1] + chaddr);
    w.PutHostName(chaddr, host);
    w.PutOption(PARAMETERS, DISCOVER_WISHES);
    assert w.list == DiscoverOptions(chaddr, host);
    w.Finish();
    opt := w.opt;
  }

  /** Of send_DHCP_REQUEST: renewals go to the server's address, and name no addresses unless it ends in 255. */
  method WriteRequest(chaddr: seq<nat>, host: seq<nat>, renewing: bool, ip: seq<nat>, sip: seq<nat>)
    returns (opt: array<nat>)
    requires |chaddr| == 6 && |host| <= 249 && |ip| == 4 && |sip| == 4
    ensures Written(opt[..], RequestOptions(chaddr, host, !renewing || sip[3] == 255, ip, sip))
  {
    hide Written, EncodeAll, Suffix;
    var to := if renewing then sip else [255, 255, 255, 255];
    var w := new Writer();
    w.PutOption(MESSAGE_TYPE, [REQUEST]);
    w.PutOption(CLIENT_ID, [1] + chaddr);
    if to[3] == 255 {
      w.PutOption(REQUESTED_IP, ip);
      w.PutOption(SERVER_ID, sip);
    }
    assert w.list == Opening(REQUEST, chaddr) + if to[3] == 255 then Addresses(ip, sip) else [];
    w.PutHostName(chaddr, host);
    w.PutOption(PARAMETERS, REQUEST_WISHES);
    w.Finish();
    opt := w.opt;
  }

  /** Of send_DHCP_DECLINE. */
  method WriteDecline(chaddr: seq<nat>, ip: seq<nat>, sip: seq<nat>) returns (opt: array<nat>)
    requires |chaddr| == 6 && |ip| == 4 && |sip| == 4
    ensures Written(opt[..], DeclineOptions(chaddr, ip, sip))
  {
    hide Written, EncodeAll, Suffix;
    var w := new Writer();
    w.PutOption(MESSAGE_TYPE, [DECLINE]);
    w.PutOption(CLIENT_ID, [1] + chaddr);
    w.PutOption(REQUESTED_IP, ip);
    w.PutOption(SERVER_ID, sip);
    assert w.list == DeclineOptions(chaddr, ip, sip);
    w.Finish();
    opt := w.opt;
  }

  // ---------- the bytes ----------

  const DIGITS := "0123456789ABCDEF"

  /** The digits of a byte in hexadecimal, as characters. */
  function HexByte(b: nat): (s: seq<nat>)
    requires b < 256
    ensures |s| == 2
  {
    [DIGITS[b / 16] as nat, DIGITS[b % 16] as nat]
  }

  lemma NibbleIsDigit(nibble: nat)
    ensures NibbleToHex(nibble) == DIGITS[nibble % 16] as nat
  {
    var n := nibble % 16;
    assert DIGITS[0] as nat == 48 && DIGITS[10] as nat == 65;
    match n
    case 0 => case 1 => case 2 => case 3 => case 4 => case 5 => case 6 => case 7 =>
    case 8 => case 9 => case 10 => case 11 => case 12 => case 13 => case 14 => case 15 =>
    case _ =>
  }

  lemma SuffixIsHex(chaddr: seq<nat>)
    requires |chaddr| == 6 && forall i :: 0 <= i < 6 ==> chaddr[i] < 256
    ensures Suffix(chaddr) == HexByte(chaddr[3]) + HexByte(chaddr[4]) + HexByte(chaddr[5])
  {
    ByteIsHex(chaddr[3]);
    ByteIsHex(chaddr[4]);
    ByteIsHex(chaddr[5]);
    hide NibbleToHex, HexByte;
    assert HexByte(chaddr[3]) + HexByte(chaddr[4]) + HexByte(chaddr[5]) == Suffix(chaddr);
  }

  lemma ByteIsHex(b: nat)
    requires b < 256
    ensures HexByte(b) == [NibbleToHex(b / 16), NibbleToHex(b)]
  {
    hide NibbleToHex;
    NibbleIsDigit(b / 16);
    NibbleIsDigit(b);
  }

  lemma EncodeOne(o: Option)
    ensures EncodeAll([o]) == Encode(o) && EncodeAll([]) == []
  {
    assert [o][1..] == [];
    assert Encode(o) + EncodeAll([]) == Encode(o);
  }

  lemma EncodeTwo(a: Option, b: Option)
    ensures EncodeAll([a, b]) == Encode(a) + Encode(b)
  {
    hide Encode, EncodeAll;
    EncodeOne(a);
    AppendOne([a], b);
    assert [a] + [b] == [a, b];
  }

  /** Type and client identifier, and host name, in bytes. */
  function OpeningBytes(kind: nat, chaddr: seq<nat>): seq<nat> {
    [53, 1, kind, 61, |chaddr| + 1, 1] + chaddr
  }

  function HostBytes(chaddr: seq<nat>, host: seq<nat>): seq<nat>
    requires |chaddr| == 6 && forall i :: 0 <= i < 6 ==> chaddr[i] < 256
  {
    [12, |host| + 6] + (host + (HexByte(chaddr[3]) + HexByte(chaddr[4]) + HexByte(chaddr[5])))
  }

  lemma OpeningIs(kind: nat, chaddr: seq<nat>)
    requires |chaddr| == 6
    ensures EncodeAll(Opening(kind, chaddr)) == OpeningBytes(kind, chaddr)
  {
    hide EncodeAll;
    EncodeTwo(Opening(kind, chaddr)[0], Opening(kind, chaddr)[1]);
    assert [53, 1] + [kind] + ([61, |chaddr| + 1] + ([1] + chaddr)) == OpeningBytes(kind, chaddr);
  }

  lemma AddressesAre(ip: seq<nat>, sip: seq<nat>)
    requires |ip| == |sip| == 4
    ensures EncodeAll(Addresses(ip, sip)) == [50, 4] + ip + [54, 4] + sip
  {
    hide EncodeAll;
    EncodeTwo(Addresses(ip, sip)[0], Addresses(ip, sip)[1]);
    assert [50, 4] + ip + ([54, 4] + sip) == [50, 4] + ip + [54, 4] + sip;
  }

  lemma HostIs(chaddr: seq<nat>, host: seq<nat>)
    requires |chaddr| == 6 && forall i :: 0 <= i < 6 ==> chaddr[i] < 256
    ensures EncodeAll(Host(chaddr, host)) == HostBytes(chaddr, host)
  {
    hide EncodeAll, Suffix, HexByte;
    SuffixIsHex(chaddr);
    EncodeOne(Option(HOST_NAME, host + Suffix(chaddr)));
  }

  lemma WishesAre()
    ensures EncodeAll([Option(PARAMETERS, DISCOVER_WISHES)]) == [55, 6, 1, 3, 6, 15, 58, 59]
    ensures EncodeAll([Option(PARAMETERS, REQUEST_WISHES)]) == [55, 8, 1, 3, 6, 15, 58, 59, 31, 33]
  {
    hide EncodeAll;
    EncodeOne(Option(PARAMETERS, DISCOVER_WISHES));
    EncodeOne(Option(PARAMETERS, REQUEST_WISHES));
  }

  lemma EncodeThree(a: seq<Option>, b: seq<Option>, c: seq<Option>)
    ensures EncodeAll(a + b + c) == EncodeAll(a) + EncodeAll(b) + EncodeAll(c)
  {
    hide EncodeAll;
    EncodeJoin(a, b);
    EncodeJoin(a + b, c);
  }

  /** The bytes between the cookie and the end mark of DISCOVER. */
  lemma DiscoverBytes(chaddr: seq<nat>, host: seq<nat>)
    requires |chaddr| == 6 && forall i :: 0 <= i < 6 ==> chaddr[i] < 256
    ensures EncodeAll(DiscoverOptions(chaddr, host))
         == OpeningBytes(1, chaddr) + HostBytes(chaddr, host) + [55, 6, 1, 3, 6, 15, 58, 59]
  {
    OpeningIs(DISCOVER, chaddr);
    HostIs(chaddr, host);
    WishesAre();
    hide Opening, Host, OpeningBytes, HostBytes, EncodeAll;
    EncodeThree(Opening(DISCOVER, chaddr), Host(chaddr, host), [Option(PARAMETERS, DISCOVER_WISHES)]);
  }

  /** Of REQUEST, with the address requested and the server's identifier when broadcast. */
  lemma RequestBytes(chaddr: seq<nat>, host: seq<nat>, addressed: bool, ip: seq<nat>, sip: seq<nat>)
    requires |chaddr| == 6 && |ip| == |sip| == 4 && forall i :: 0 <= i < 6 ==> chaddr[i] < 256
    ensures EncodeAll(RequestOptions(chaddr, host, addressed, ip, sip))
         == OpeningBytes(3, chaddr) + (if addressed then [50, 4] + ip + [54, 4] + sip else [])
            + HostBytes(chaddr, host) + [55, 8, 1, 3, 6, 15, 58, 59, 31, 33]
  {
    OpeningIs(REQUEST, chaddr);
    AddressesAre(ip, sip);
    HostIs(chaddr, host);
    WishesAre();
    NoOptions();
    var o, a, h := Opening(REQUEST, chaddr), if addressed then Addresses(ip, sip) else [], Host(chaddr, host);
    var w := [Option(PARAMETERS, REQUEST_WISHES)];
    assert RequestOptions(chaddr, host, addressed, ip, sip) == o + a + h + w;
    hide Opening, Host, Addresses, OpeningBytes, HostBytes, EncodeAll, RequestOptions;
    EncodeThree(o + a, h, w);
    EncodeJoin(o, a);
  }

  lemma NoOptions()
    ensures EncodeAll([]) == []
  {
  }

  /** Of DECLINE. */
  lemma DeclineBytes(chaddr: seq<nat>, ip: seq<nat>, sip: seq<nat>)
    requires |chaddr| == 6 && |ip| == |sip| == 4
    ensures EncodeAll(DeclineOptions(chaddr, ip, sip)) == OpeningBytes(4, chaddr) + ([50, 4] + ip + [54, 4] + sip)
  {
    OpeningIs(DECLINE, chaddr);
    AddressesAre(ip, sip);
    hide Opening, Addresses, OpeningBytes, EncodeAll;
    EncodeJoin(Opening(DECLINE, chaddr), Addresses(ip, sip));
  }

  // ---------- round trip ----------

  const MESSAGE_SIZE := OPT_OFFSET + OPT_SIZE

  /** The parser on a written message, from behind the cookie to the message's end, recovers the list's meaning. */
  lemma WrittenIsParsed(mem: nat -> nat, opt: seq<nat>, os: seq<Option>, from: seq<nat>, f: Fields)
    requires Written(opt, os) && Stored(mem, OPT_OFFSET, opt)
    requires AllWellFormed(os)
    ensures Parse(mem, OPT_OFFSET + 4, MESSAGE_SIZE, from, f) == Meaning(os, from, f)
  {
    hide EncodeAll, Parse;
    var s := EncodeAll(os) + [END];
    assert opt == COOKIE + (s + opt[4 + |s|..]) by {
      assert COOKIE + EncodeAll(os) + [END] == COOKIE + s;
    }
    StoredSplits(mem, OPT_OFFSET, COOKIE, s + opt[4 + |s|..]);
    StoredSplits(mem, OPT_OFFSET + 4, s, opt[4 + |s|..]);
    ParseRecovers(mem, OPT_OFFSET + 4, MESSAGE_SIZE, os, from, f);
  }

  lemma {:induction false} MeaningJoin(a: seq<Option>, b: seq<Option>, from: seq<nat>, f: Fields)
    requires AllWellFormed(a) && AllWellFormed(b)
    ensures AllWellFormed(a + b) && Meaning(a + b, from, f) == Meaning(b, from, Meaning(a, from, f))
    decreases |a|
  {
    hide Value;
    if a == [] {
      assert a + b == b;
    } else {
      assert (a + b)[1..] == a[1..] + b;
      MeaningJoin(a[1..], b, from, Value(a[0], from, f));
    }
  }

  lemma PartsMean(kind: nat, chaddr: seq<nat>, host: seq<nat>, ip: seq<nat>, sip: seq<nat>, wishes: seq<nat>,
                  from: seq<nat>, f: Fields)
    requires |chaddr| == 6 && |sip| == 4
    ensures AllWellFormed(Opening(kind, chaddr)) && Meaning(Opening(kind, chaddr), from, f) == f.(kind := kind)
    ensures AllWellFormed(Addresses(ip, sip))
    ensures Meaning(Addresses(ip, sip), from, f) == f.(serverId := sip, serverAddress := from)
    ensures AllWellFormed(Host(chaddr, host)) && Meaning(Host(chaddr, host), from, f) == f
    ensures AllWellFormed([Option(PARAMETERS, wishes)]) && Meaning([Option(PARAMETERS, wishes)], from, f) == f
  {
    hide Suffix;
    var o, a := Opening(kind, chaddr), Addresses(ip, sip);
    assert o[1..] == [Option(CLIENT_ID, [1] + chaddr)] && a[1..] == [Option(SERVER_ID, sip)];
    assert Meaning(o[1..], from, f.(kind := kind)) == f.(kind := kind);
    assert Meaning(a[1..], from, f) == f.(serverId := sip, serverAddress := from);
  }

  /** What the client's own messages mean: the type written and, when addresses are named, the server identifier. */
  lemma DiscoverMeans(chaddr: seq<nat>, host: seq<nat>, from: seq<nat>, f: Fields)
    requires |chaddr| == 6
    ensures var os := DiscoverOptions(chaddr, host);
            AllWellFormed(os) && Meaning(os, from, f) == f.(kind := DISCOVER)
  {
    hide Opening, Host, Meaning;
    var g := f.(kind := DISCOVER);
    PartsMean(DISCOVER, chaddr, host, [], [0, 0, 0, 0], DISCOVER_WISHES, from, f);
    PartsMean(DISCOVER, chaddr, host, [], [0, 0, 0, 0], DISCOVER_WISHES, from, g);
    MeaningJoin(Opening(DISCOVER, chaddr), Host(chaddr, host), from, f);
    MeaningJoin(Opening(DISCOVER, chaddr) + Host(chaddr, host), [Option(PARAMETERS, DISCOVER_WISHES)], from, f);
  }

  lemma RequestMeans(chaddr: seq<nat>, host: seq<nat>, addressed: bool, ip: seq<nat>, sip: seq<nat>,
                     from: seq<nat>, f: Fields)
    requires |chaddr| == 6 && |sip| == 4
    ensures var os := RequestOptions(chaddr, host, addressed, ip, sip);
            && AllWellFormed(os)
            && Meaning(os, from, f) == (if addressed then f.(kind := REQUEST, serverId := sip, serverAddress := from)
                                        else f.(kind := REQUEST))
  {
    hide Opening, Host, Meaning, Addresses;
    var g := f.(kind := REQUEST);
    var h := if addressed then g.(serverId := sip, serverAddress := from) else g;
    PartsMean(REQUEST, chaddr, host, ip, sip, REQUEST_WISHES, from, f);
    PartsMean(REQUEST, chaddr, host, ip, sip, REQUEST_WISHES, from, g);
    PartsMean(REQUEST, chaddr, host, ip, sip, REQUEST_WISHES, from, h);
    var a := if addressed then Addresses(ip, sip) else [];
    assert Meaning([], from, g) == g by { Nothing(from, g); }
    MeaningJoin(Opening(REQUEST, chaddr), a, from, f);
    MeaningJoin(Opening(REQUEST, chaddr) + a, Host(chaddr, host), from, f);
    MeaningJoin(Opening(REQUEST, chaddr) + a + Host(chaddr, host), [Option(PARAMETERS, REQUEST_WISHES)], from, f);
  }

  lemma Nothing(from: seq<nat>, f: Fields)
    ensures Meaning([], from, f) == f
  {
  }

  lemma DeclineMeans(chaddr: seq<nat>, ip: seq<nat>, sip: seq<nat>, from: seq<nat>, f: Fields)
    requires |chaddr| == 6 && |sip| == 4
    ensures var os := DeclineOptions(chaddr, ip, sip);
            && AllWellFormed(os)
            && Meaning(os, from, f) == f.(kind := DECLINE, serverId := sip, serverAddress := from)
  {
    hide Opening, Meaning, Addresses;
    PartsMean(DECLINE, chaddr, [], ip, sip, [], from, f);
    PartsMean(DECLINE, chaddr, [], ip, sip, [], from, f.(kind := DECLINE));
    MeaningJoin(Opening(DECLINE, chaddr), Addresses(ip, sip), from, f);
  }
}
