/** The DHCP client's state machine (RFC 2131 section 4.4): what every run keeps, and rediscovery after silence. */
module DhcpClient {
  import opened DhcpOptions

  const MAX_RETRY := 2
  const WAIT_TIME := 10
  const INFINITE_LEASE := 0xFFFF_FFFF
  const SERVER_PORT := 67
  const ZERO_IP := [0, 0, 0, 0]

  datatype Phase = Init | Discovering | Requesting | Leased | Rerequesting | Stopped

  datatype Code = Failed | Running | IpLeased | IpChanged | StoppedCode

  datatype Packet = SentDiscover | SentRequest(ip: seq<nat>) | SentDecline(ip: seq<nat>)

  /** The last address handed to ip_assign. */
  datatype Installed = NoAddress | Address(ip: seq<nat>)

  /** The client's variables; `installed`, `updates` and `sent` record its callbacks and packets. */
  datatype Client = Client(phase: Phase, ip: seq<nat>, oldIp: seq<nat>, retry: nat, tick: nat, next: nat,
                           fields: Fields, installed: Installed, updates: nat, sent: seq<Packet>)

  /** A received datagram: its source, and the message buffer it was stored in. */
  datatype Message = Silence | Message(port: nat, source: seq<nat>, mem: nat -> nat, len: nat)

  datatype Event =
    | Tick
    | Poll(message: Message, unique: bool)  // `unique`: no one answers for the offered address
    | Stop

  // ---------- the parts of the state machine ----------

  function Initial(fields: Fields): Client {
    Client(Init, ZERO_IP, ZERO_IP, 0, 0, WAIT_TIME, fields, NoAddress, 0, [])
  }

  function ResetTimeout(c: Client): Client {
    c.(tick := 0, next := WAIT_TIME, retry := 0)
  }

  /** A new discovery forgets the server. */
  function SendDiscover(c: Client): Client {
    c.(fields := c.fields.(serverId := ZERO_IP, serverAddress := ZERO_IP), sent := c.sent + [SentDiscover])
  }

  function SendRequest(c: Client): Client {
    c.(sent := c.sent + [SentRequest(c.ip)])
  }

  /** Whether a message is for this client and from the server it deals with, if it has chosen one. */
  predicate Accepts(c: Client, chaddr: seq<nat>, m: Message) {
    && m.Message? && m.port == SERVER_PORT
    && chaddr == [m.mem(28), m.mem(29), m.mem(30), m.mem(31), m.mem(32), m.mem(33)]
    && (c.fields.serverId == ZERO_IP || m.source == c.fields.serverId || m.source == c.fields.serverAddress)
  }

  /** The fields after parsing a message; `kind` is its type, or 0. */
  function Parsed(c: Client, chaddr: seq<nat>, m: Message): Fields {
    if Accepts(c, chaddr, m) then Parse(m.mem, 240, m.len, m.source, c.fields.(kind := 0)) else c.fields.(kind := 0)
  }

  /** The address a message offers. */
  function Offered(m: Message): seq<nat> {
    if m.Message? then Four(m.mem, 16) else ZERO_IP
  }

  function CheckTimeout(c: Client): (Client, Code) {
    if c.retry < MAX_RETRY then
      if c.next < c.tick then
        var d := if c.phase.Discovering? then SendDiscover(c)
                 else if c.phase.Requesting? || c.phase.Rerequesting? then SendRequest(c)
                 else c;
        (d.(tick := 0, next := WAIT_TIME, retry := c.retry + 1), Running)
      else (c, Running)
    else
      match c.phase
      case Discovering => (ResetTimeout(c.(phase := Init)), Failed)
      case Requesting => (ResetTimeout(SendDiscover(c).(phase := Discovering)), Running)
      case Rerequesting => (ResetTimeout(SendDiscover(c).(phase := Discovering)), Running)
      case _ => (ResetTimeout(c), Running)
  }

  /** One call of DHCP_run. */
  function DhcpRun(c0: Client, chaddr: seq<nat>, m: Message, unique: bool): (Client, Code) {
    if c0.phase.Stopped? then (c0, StoppedCode) else
      var c := c0.(fields := Parsed(c0, chaddr, m));
      var kind := c.fields.kind;
      match c.phase
      case Init => (SendDiscover(c.(ip := ZERO_IP)).(phase := Discovering), Running)
      case Discovering =>
        if kind == OFFER then (SendRequest(c.(ip := Offered(m))).(phase := Requesting), Running) else CheckTimeout(c)
      case Requesting =>
        if kind == ACK then
          (if unique then (ResetTimeout(c.(installed := Address(c.ip))).(phase := Leased), Running)
           else (ResetTimeout(c.(sent := c.sent + [SentDecline(c.ip)])).(phase := Init), Running))
        else if kind == NAK then (ResetTimeout(c).(phase := Discovering), Running)
        else CheckTimeout(c)
      case Leased =>
        if c.fields.lease != INFINITE_LEASE && c.fields.lease / 2 < c.tick then
          (ResetTimeout(SendRequest(c.(oldIp := c.ip))).(phase := Rerequesting), IpLeased)
        else (c, IpLeased)
      case Rerequesting =>
        if kind == ACK then
          (if c.oldIp != c.ip then (ResetTimeout(c.(updates := c.updates + 1)).(phase := Leased), IpChanged)
           else (ResetTimeout(c).(phase := Leased), IpLeased))
        else if kind == NAK then (ResetTimeout(c).(phase := Discovering), IpLeased)
        else CheckTimeout(c)
      case Stopped => (c0, StoppedCode)
  }

  function Next(c: Client, chaddr: seq<nat>, e: Event): Client {
    match e
    case Tick => c.(tick := c.tick + 1)
    case Poll(m, unique) => DhcpRun(c, chaddr, m, unique).0
    case Stop => c.(phase := Stopped)
  }

  function RunAll(c: Client, chaddr: seq<nat>, es: seq<Event>): Client {
    if es == [] then c else Next(RunAll(c, chaddr, es[..|es| - 1]), chaddr, es[|es| - 1])
  }

  // ---------- what every run keeps ----------

  ghost predicate Inv(c: Client) {
    && c.retry <= MAX_RETRY && c.next == WAIT_TIME && c.updates == 0
    && (c.phase.Leased? || c.phase.Rerequesting? ==> c.installed == Address(c.ip))
    && (c.phase.Rerequesting? ==> c.oldIp == c.ip)
  }

  lemma NextKeepsInv(c: Client, chaddr: seq<nat>, e: Event)
    requires Inv(c)
    ensures Inv(Next(c, chaddr, e))
  {
    hide Parsed, Offered;
  }

  /**
   For every sequence of messages, ticks and polls: while leased or renewing, the client's address is the one last
   given to ip_assign; while renewing, the old address equals it, so that the address-changed branch is never taken;
   and the retry count stays within its limit.
   */
  lemma {:induction false} RunKeepsInv(fields: Fields, chaddr: seq<nat>, es: seq<Event>)
    ensures Inv(RunAll(Initial(fields), chaddr, es))
  {
    hide Next;
    if es != [] {
      RunKeepsInv(fields, chaddr, es[..|es| - 1]);
      NextKeepsInv(RunAll(Initial(fields), chaddr, es[..|es| - 1]), chaddr, es[|es| - 1]);
    }
  }

  /** The address is installed, and the lease begun, only by an accepted ACK for an address nobody else answers for. */
  lemma LeaseBegins(c: Client, chaddr: seq<nat>, e: Event)
    ensures var d := Next(c, chaddr, e);
            (d.installed != c.installed || (d.phase.Leased? && !HasLease(c))) ==>
              && c.phase.Requesting? && e.Poll? && e.unique && Accepts(c, chaddr, e.message)
              && Parsed(c, chaddr, e.message).kind == ACK && d.installed == Address(c.ip) && d.ip == c.ip
  {
    hide Parse, Offered;
  }

  /** Event i of the run was an accepted OFFER of this address, taken up by a discovering client. */
  ghost predicate OfferedAt(fields: Fields, chaddr: seq<nat>, es: seq<Event>, i: nat, ip: seq<nat>) {
    && i < |es| && es[i].Poll?
    && var c := RunAll(Initial(fields), chaddr, es[..i]);
       (c.phase.Discovering? && Accepts(c, chaddr, es[i].message)
        && Parsed(c, chaddr, es[i].message).kind == OFFER && ip == Offered(es[i].message))
  }

  predicate HasAddress(c: Client) {
    c.phase.Requesting? || c.phase.Leased? || c.phase.Rerequesting?
  }

  lemma AddressComesFrom(c: Client, chaddr: seq<nat>, e: Event)
    requires HasAddress(Next(c, chaddr, e))
    ensures var d := Next(c, chaddr, e);
            || (HasAddress(c) && d.ip == c.ip)
            || (c.phase.Discovering? && e.Poll? && Accepts(c, chaddr, e.message)
                && Parsed(c, chaddr, e.message).kind == OFFER && d.ip == Offered(e.message))
  {
    hide Parse, Offered;
  }

  /** The address being requested, leased or renewed is one offered to the client in this run. */
  lemma {:induction false} AddressWasOffered(fields: Fields, chaddr: seq<nat>, es: seq<Event>)
    ensures var c := RunAll(Initial(fields), chaddr, es);
            HasAddress(c) ==> exists i: nat :: OfferedAt(fields, chaddr, es, i, c.ip)
  {
    hide Next, Parsed, Accepts, Offered;
    var c := RunAll(Initial(fields), chaddr, es);
    if es != [] && HasAddress(c) {
      var before, e := es[..|es| - 1], es[|es| - 1];
      var b := RunAll(Initial(fields), chaddr, before);
      AddressWasOffered(fields, chaddr, before);
      AddressComesFrom(b, chaddr, e);
      if HasAddress(b) && c.ip == b.ip {
        var i: nat :| OfferedAt(fields, chaddr, before, i, b.ip);
        assert es[..i] == before[..i];
        assert OfferedAt(fields, chaddr, es, i, c.ip);
      } else {
        assert OfferedAt(fields, chaddr, es, |es| - 1, c.ip);
      }
    }
  }

  /** Event j of the run was an accepted ACK, no one else answering for the address the client was requesting. */
  ghost predicate AckedAt(fields: Fields, chaddr: seq<nat>, es: seq<Event>, j: nat, ip: seq<nat>) {
    && j < |es| && es[j].Poll? && es[j].unique
    && var c := RunAll(Initial(fields), chaddr, es[..j]);
       (c.phase.Requesting? && Accepts(c, chaddr, es[j].message)
        && Parsed(c, chaddr, es[j].message).kind == ACK && ip == c.ip)
  }

  predicate HasLease(c: Client) {
    c.phase.Leased? || c.phase.Rerequesting?
  }

  /** One event leaves a lease's address as it is. */
  lemma LeaseKeepsAddress(c: Client, chaddr: seq<nat>, e: Event)
    requires HasLease(c) && HasLease(Next(c, chaddr, e))
    ensures Next(c, chaddr, e).ip == c.ip
  {
    hide Parsed, Offered;
  }

  /** The address leased or renewed was acknowledged in this run, with no one else answering for it. */
  lemma {:induction false} LeaseWasAcked(fields: Fields, chaddr: seq<nat>, es: seq<Event>)
    ensures var c := RunAll(Initial(fields), chaddr, es);
            HasLease(c) ==> exists j: nat :: AckedAt(fields, chaddr, es, j, c.ip)
  {
    hide Next, Parsed, Accepts;
    var c := RunAll(Initial(fields), chaddr, es);
    if es != [] && HasLease(c) {
      var before, e := es[..|es| - 1], es[|es| - 1];
      var b := RunAll(Initial(fields), chaddr, before);
      LeaseWasAcked(fields, chaddr, before);
      if HasLease(b) {
        LeaseKeepsAddress(b, chaddr, e);
        var j: nat :| AckedAt(fields, chaddr, before, j, b.ip);
        assert es[..j] == before[..j];
        assert AckedAt(fields, chaddr, es, j, c.ip);
      } else {
        LeaseBegins(b, chaddr, e);
        LeaseFrom(b, chaddr, e);
        assert AckedAt(fields, chaddr, es, |es| - 1, c.ip);
      }
    }
  }

  lemma LeaseFrom(c: Client, chaddr: seq<nat>, e: Event)
    requires !HasLease(c) && HasLease(Next(c, chaddr, e))
    ensures Next(c, chaddr, e).phase.Leased?
  {
    hide Parsed, Offered;
  }

  // ---------- OFFER, then ACK ----------

  /** Nothing arrives, or nothing for this client from a server. */
  predicate Ignored(chaddr: seq<nat>, m: Message) {
    || m.Silence?
    || m.port != SERVER_PORT
    || chaddr != [m.mem(28), m.mem(29), m.mem(30), m.mem(31), m.mem(32), m.mem(33)]
  }

  /** Ticks, and polls that find nothing. */
  ghost predicate Quiet(chaddr: seq<nat>, es: seq<Event>) {
    forall i :: 0 <= i < |es| ==> es[i].Tick? || (es[i].Poll? && Ignored(chaddr, es[i].message))
  }

  lemma QuietKeepsAddress(c: Client, chaddr: seq<nat>, e: Event)
    requires Quiet(chaddr, [e]) && HasAddress(Next(c, chaddr, e))
    ensures HasAddress(c) && Next(c, chaddr, e).ip == c.ip
  {
    assert [e][0] == e;
    AddressComesFrom(c, chaddr, e);
  }

  lemma {:induction false} QuietRunKeepsAddress(c: Client, chaddr: seq<nat>, es: seq<Event>)
    requires Quiet(chaddr, es)
    ensures var d := RunAll(c, chaddr, es); HasAddress(d) ==> HasAddress(c) && d.ip == c.ip
  {
    hide Next, Ignored, HasAddress;
    if es != [] {
      var before, e := es[..|es| - 1], es[|es| - 1];
      QuietRunKeepsAddress(c, chaddr, before);
      if HasAddress(RunAll(c, chaddr, es)) {
        QuietKeepsAddress(RunAll(c, chaddr, before), chaddr, e);
      }
    }
  }

  /**
   An OFFER, any ticks and fruitless polls that do not make the client give up, and an ACK: the client is leased the
   address offered and has installed it if nobody answers for it; otherwise it declines it and starts over.
   */
  lemma {:induction false} OfferThenAck(c: Client, chaddr: seq<nat>, offer: Message, early: bool, es: seq<Event>,
                                        ack: Message, unique: bool)
    requires c.phase.Discovering? && Parsed(c, chaddr, offer).kind == OFFER && Quiet(chaddr, es)
    requires var d := RunAll(DhcpRun(c, chaddr, offer, early).0, chaddr, es);
             d.phase.Requesting? && Parsed(d, chaddr, ack).kind == ACK
    ensures var ip := Offered(offer);
            var d := RunAll(DhcpRun(c, chaddr, offer, early).0, chaddr, es);
            var e := DhcpRun(d, chaddr, ack, unique).0;
            && e.ip == ip && e.tick == 0 && e.retry == 0 && e.fields == Parsed(d, chaddr, ack)
            && (unique ==> e.phase.Leased? && e.installed == Address(ip) && e.sent == d.sent)
            && (!unique ==> e.phase.Init? && e.installed == d.installed && e.sent == d.sent + [SentDecline(ip)])
  {
    hide Parsed, Offered, RunAll;
    QuietRunKeepsAddress(DhcpRun(c, chaddr, offer, early).0, chaddr, es);
  }

  // ---------- a silent server ----------

  /** Ticks until the retransmission timer fires. */
  function UntilTimeout(tick: nat): nat {
    if tick >= WAIT_TIME then 1 else WAIT_TIME + 1 - tick
  }

  /** A bound on the polls, one per tick, until the next DISCOVER. */
  function Patience(c: Client): nat {
    match c.phase
    case Init => 1
    case Discovering => if c.retry < MAX_RETRY then UntilTimeout(c.tick) else 2
    case Requesting => Retries(c)
    case Rerequesting => Retries(c)
    case _ => 0
  }

  function Retries(c: Client): nat {
    if c.retry < MAX_RETRY then UntilTimeout(c.tick) + (MAX_RETRY - c.retry - 1) * (WAIT_TIME + 1) + 1 else 1
  }

  predicate Seeking(c: Client) {
    c.phase.Init? || c.phase.Discovering? || c.phase.Requesting? || c.phase.Rerequesting?
  }

  /** A poll that finds nothing sends DISCOVER, or brings the next one no farther away. */
  lemma PollProgress(c: Client, chaddr: seq<nat>, m: Message, unique: bool)
    requires Inv(c) && Seeking(c) && Ignored(chaddr, m)
    ensures var d := Next(c, chaddr, Poll(m, unique));
            && Inv(d) && Seeking(d)
            && (d.sent == c.sent + [SentDiscover] || (c.sent <= d.sent && Patience(d) <= Patience(c)))
  {
  }

  /** After a tick it sends DISCOVER, or brings the next one nearer. */
  lemma RoundProgress(c: Client, chaddr: seq<nat>, m: Message, unique: bool)
    requires Inv(c) && Seeking(c) && Ignored(chaddr, m)
    ensures var d := Next(Next(c, chaddr, Tick), chaddr, Poll(m, unique));
            && Inv(d) && Seeking(d)
            && (d.sent == c.sent + [SentDiscover] || (c.sent <= d.sent && Patience(d) < Patience(c)))
  {
  }

  function RunOn(c: Client, chaddr: seq<nat>, es: seq<Event>): Client
    decreases |es|
  {
    if es == [] then c else RunOn(Next(c, chaddr, es[0]), chaddr, es[1..])
  }

  /** Every tick but a last one is followed by a poll before the next. */
  ghost predicate Polled(es: seq<Event>) {
    forall i :: 0 <= i < |es| - 1 && es[i].Tick? ==> es[i + 1].Poll?
  }

  /** Ticks that have been followed by a poll. */
  function Rounds(es: seq<Event>): nat
    decreases |es|
  {
    if |es| < 2 then 0 else Rounds(es[1..]) + if es[0].Tick? then 1 else 0
  }

  lemma SentGrows(c: Client, chaddr: seq<nat>, e: Event)
    ensures c.sent <= Next(c, chaddr, e).sent
  {
    hide Parsed, Offered;
  }

  lemma {:induction false} SentKept(c: Client, chaddr: seq<nat>, es: seq<Event>)
    ensures c.sent <= RunOn(c, chaddr, es).sent
    decreases |es|
  {
    hide Next;
    if es != [] {
      SentGrows(c, chaddr, es[0]);
      SentKept(Next(c, chaddr, es[0]), chaddr, es[1..]);
    }
  }

  ghost predicate SentSince(before: seq<Packet>, now: seq<Packet>) {
    before <= now && SentDiscover in now[|before|..]
  }

  lemma JustSent(before: seq<Packet>, middle: seq<Packet>, now: seq<Packet>)
    requires middle == before + [SentDiscover] && middle <= now
    ensures SentSince(before, now)
  {
    assert now[|before|..][0] == SentDiscover;
  }

  lemma SentLater(before: seq<Packet>, middle: seq<Packet>, now: seq<Packet>)
    requires before <= middle && SentSince(middle, now)
    ensures SentSince(before, now)
  {
    var i :| 0 <= i < |now[|middle|..]| && now[|middle|..][i] == SentDiscover;
    assert now[|before|..][|middle| - |before| + i] == SentDiscover;
  }

  /**
   With a silent server every phase but leased and stopped sends DISCOVER again within 23 ticks, however many fruitless
   polls fall between them, as long as each tick is followed by one.
   */
  lemma {:induction false} Rediscovers(c: Client, chaddr: seq<nat>, es: seq<Event>)
    requires Inv(c) && Seeking(c) && Quiet(chaddr, es) && Polled(es)
    ensures Patience(c) <= 2 * (WAIT_TIME + 1) + 1
    ensures Rounds(es) >= Patience(c) ==> SentSince(c.sent, RunOn(c, chaddr, es).sent)
    decreases |es|
  {
    hide Next, Patience, Ignored, SentSince;
    PatienceBounds(c);
    if Rounds(es) >= Patience(c) {
      var step := if es[0].Tick? then 2 else 1;
      var d := if step == 1 then Next(c, chaddr, es[0]) else Next(Next(c, chaddr, es[0]), chaddr, es[1]);
      var rest := es[step..];
      Tails(c, chaddr, es, step);
      if step == 1 {
        PollProgress(c, chaddr, es[0].message, es[0].unique);
      } else {
        RoundProgress(c, chaddr, es[1].message, es[1].unique);
      }
      if d.sent == c.sent + [SentDiscover] {
        SentKept(d, chaddr, rest);
        JustSent(c.sent, d.sent, RunOn(d, chaddr, rest).sent);
      } else {
        Rediscovers(d, chaddr, rest);
        SentLater(c.sent, d.sent, RunOn(d, chaddr, rest).sent);
      }
    }
  }

  lemma PatienceBounds(c: Client)
    requires Inv(c) && Seeking(c)
    ensures 1 <= Patience(c) <= 2 * (WAIT_TIME + 1) + 1
  {
  }

  lemma Tails(c: Client, chaddr: seq<nat>, es: seq<Event>, step: nat)
    requires Quiet(chaddr, es) && Polled(es) && Rounds(es) > 0 && step == if es[0].Tick? then 2 else 1
    ensures |es| >= 2 && Quiet(chaddr, es[step..]) && Polled(es[step..])
    ensures Rounds(es[step..]) == Rounds(es) - (step - 1)
    ensures step == 1 ==> es[0].Poll? && RunOn(c, chaddr, es) == RunOn(Next(c, chaddr, es[0]), chaddr, es[1..])
    ensures step == 2 ==> es[1].Poll?
                          && RunOn(c, chaddr, es) == RunOn(Next(Next(c, chaddr, es[0]), chaddr, es[1]), chaddr, es[2..])
  {
    hide Next, Ignored;
    if step == 2 {
      assert es[1..][1..] == es[2..] && es[1..][0] == es[1];
    }
    assert forall i :: 0 <= i < |es| - step ==> es[step..][i] == es[i + step];
  }

  // ---------- messages that change nothing ----------

  /** What a poll with no message, or one the client must ignore, does instead of parsing. */
  predicate Foreign(c: Client, chaddr: seq<nat>, m: Message) {
    || Ignored(chaddr, m)
    || (c.fields.serverId != ZERO_IP && m.source != c.fields.serverId && m.source != c.fields.serverAddress)
  }

  /**
   A message not for this client, and once a server is chosen a message from any other, changes nothing: the poll is one
   that finds none. With no server chosen, as after every DISCOVER, a message from any server is read.
   */
  lemma ForeignIsSilence(c: Client, chaddr: seq<nat>, m: Message, unique: bool)
    ensures Foreign(c, chaddr, m) ==>
              DhcpRun(c, chaddr, m, unique) == DhcpRun(c, chaddr, Silence, unique)
              && Parsed(c, chaddr, m) == c.fields.(kind := 0)
    ensures !Foreign(c, chaddr, m) ==>
              Parsed(c, chaddr, m) == Parse(m.mem, 240, m.len, m.source, c.fields.(kind := 0))
    ensures SendDiscover(c).fields.serverId == ZERO_IP
  {
    hide Parse, CheckTimeout, Offered, Four;
  }

  // ---------- timers ----------

  /** Ticks, and polls that find nothing for this client from its server. */
  ghost predicate Unheard(c: Client, chaddr: seq<nat>, es: seq<Event>) {
    forall i :: 0 <= i < |es| ==> es[i].Tick? || (es[i].Poll? && Foreign(c, chaddr, es[i].message))
  }

  function TickCount(es: seq<Event>): nat
    decreases |es|
  {
    if es == [] then 0 else TickCount(es[1..]) + if es[0].Tick? then 1 else 0
  }

  /** Every poll comes while at most `limit` ticks have passed, `tick` of them before. */
  ghost predicate PolledBy(tick: nat, limit: nat, es: seq<Event>)
    decreases |es|
  {
    es == [] || ((es[0].Poll? ==> tick <= limit) && PolledBy(if es[0].Tick? then tick + 1 else tick, limit, es[1..]))
  }

  /** A waiting client: leased, or with a request or a discovery out and retries left. */
  predicate Waiting(c: Client) {
    c.phase.Leased? || ((c.phase.Discovering? || c.phase.Requesting? || c.phase.Rerequesting?) && c.retry < MAX_RETRY)
  }

  /** The ticks it waits. */
  function Limit(c: Client): nat {
    if c.phase.Leased? then c.fields.lease / 2 else WAIT_TIME
  }

  /** The clock has moved, and nothing else but the type of the last message read. */
  predicate Idled(c: Client, d: Client, ticks: nat) {
    d == c.(tick := c.tick + ticks, fields := d.fields) && d.fields == c.fields.(kind := d.fields.kind)
  }

  lemma IdlePoll(c: Client, chaddr: seq<nat>, m: Message, unique: bool)
    requires Inv(c) && Waiting(c) && Foreign(c, chaddr, m)
    requires c.tick <= Limit(c) || (c.phase.Leased? && c.fields.lease == INFINITE_LEASE)
    ensures Idled(c, DhcpRun(c, chaddr, m, unique).0, 0)
  {
    hide Parse, Offered;
    ForeignIsSilence(c, chaddr, m, unique);
  }

  /** While no poll comes late, a waiting client does nothing, whatever ticks and polls fall in. */
  lemma {:induction false} Idles(c: Client, chaddr: seq<nat>, es: seq<Event>)
    requires Inv(c) && Waiting(c) && Unheard(c, chaddr, es)
    requires PolledBy(c.tick, Limit(c), es) || (c.phase.Leased? && c.fields.lease == INFINITE_LEASE)
    ensures Idled(c, RunOn(c, chaddr, es), TickCount(es))
    decreases |es|
  {
    hide DhcpRun, Foreign;
    if es != [] {
      var d := Next(c, chaddr, es[0]);
      if es[0].Poll? {
        IdlePoll(c, chaddr, es[0].message, es[0].unique);
      }
      assert Idled(c, d, if es[0].Tick? then 1 else 0);
      IdledKeeps(c, chaddr, d, es[1..], if es[0].Tick? then 1 else 0);
      Idles(d, chaddr, es[1..]);
    }
  }

  lemma IdledKeeps(c: Client, chaddr: seq<nat>, d: Client, es: seq<Event>, ticks: nat)
    requires Inv(c) && Waiting(c) && Idled(c, d, ticks) && Unheard(c, chaddr, es)
    ensures Inv(d) && Waiting(d) && Unheard(d, chaddr, es) && Limit(d) == Limit(c)
  {
    assert forall m :: Foreign(c, chaddr, m) == Foreign(d, chaddr, m);
  }

  /**
   Renewal. From the moment a lease of L seconds (not infinite) begins, with any ticks and unanswered polls: through
   tick L/2 the client sends nothing and stays leased; the first poll with more than L/2 ticks since sends REQUEST for
   the leased address, and the client is renewing. An infinite lease is never renewed.
   */
  lemma RenewsAtHalf(c: Client, chaddr: seq<nat>, es: seq<Event>, m: Message, unique: bool)
    requires Inv(c) && c.phase.Leased? && c.tick == 0 && Unheard(c, chaddr, es) && Foreign(c, chaddr, m)
    requires PolledBy(0, c.fields.lease / 2, es) || c.fields.lease == INFINITE_LEASE
    ensures var d := RunOn(c, chaddr, es); var (e, code) := DhcpRun(d, chaddr, m, unique);
            && d.phase.Leased? && d.sent == c.sent && d.ip == c.ip && code == IpLeased && e.ip == c.ip
            && e.installed == c.installed
            && (if c.fields.lease != INFINITE_LEASE && TickCount(es) > c.fields.lease / 2
                then e.phase.Rerequesting? && e.sent == c.sent + [SentRequest(c.ip)] && e.tick == 0 && e.retry == 0
                else e.phase.Leased? && e.sent == c.sent)
  {
    hide Parse, Offered, RunOn;
    Idles(c, chaddr, es);
    var d := RunOn(c, chaddr, es);
    IdledKeeps(c, chaddr, d, [], TickCount(es));
    assert Foreign(d, chaddr, m);
    ForeignIsSilence(d, chaddr, m, unique);
  }

  /**
   An answer to a renewal: an accepted ACK returns the client to its lease, for the time the ACK gives, with the
   ticks restarted and nothing sent or installed; an accepted NAK, here or to a first request, takes it back to
   discovery.
   */
  lemma RenewalAnswered(c: Client, chaddr: seq<nat>, m: Message, unique: bool)
    requires Inv(c) && !Foreign(c, chaddr, m)
    ensures var read := Parse(m.mem, 240, m.len, m.source, c.fields.(kind := 0));
            var kind := read.kind;
            var d := DhcpRun(c, chaddr, m, unique).0;
            && (c.phase.Rerequesting? && kind == ACK ==>
                  d.phase.Leased? && d.fields == read && d.tick == 0 && d.retry == 0 && d.sent == c.sent && d.ip == c.ip
                  && d.installed == c.installed && d.updates == c.updates)
            && ((c.phase.Rerequesting? || c.phase.Requesting?) && kind == NAK ==>
                  d.phase.Discovering? && d.tick == 0 && d.retry == 0 && d.sent == c.sent
                  && d.installed == c.installed)
  {
    hide Parse, Offered;
    ForeignIsSilence(c, chaddr, m, unique);
  }

  /**
   An accepted OFFER in discovery: the address is taken and requested. The retransmission clock and the retries run on
   from the discovery, so that the request is repeated sooner and less often than a fresh one.
   */
  lemma OfferTaken(c: Client, chaddr: seq<nat>, m: Message, unique: bool)
    requires c.phase.Discovering? && !Foreign(c, chaddr, m)
    requires Parse(m.mem, 240, m.len, m.source, c.fields.(kind := 0)).kind == OFFER
    ensures var d := DhcpRun(c, chaddr, m, unique).0;
            && d.phase.Requesting? && d.ip == Offered(m) && d.sent == c.sent + [SentRequest(Offered(m))]
            && d.tick == c.tick && d.retry == c.retry && d.next == c.next && d.installed == c.installed
  {
    hide Parse, Offered;
    ForeignIsSilence(c, chaddr, m, unique);
  }

  /** Stopping is final: no event starts the client again, and it sends nothing. */
  lemma {:induction false} StopIsFinal(c: Client, chaddr: seq<nat>, es: seq<Event>)
    ensures var d := RunOn(Next(c, chaddr, Stop), chaddr, es); d.phase.Stopped? && d.sent == c.sent
    decreases |es|
  {
    if es != [] {
      hide DhcpRun;
      var s := Next(c, chaddr, Stop);
      var d := Next(s, chaddr, es[0]);
      assert d.phase.Stopped? && d.sent == c.sent by { StoppedStays(s, chaddr, es[0]); }
      StopIsFinal(d, chaddr, es[1..]);
      assert Next(d, chaddr, Stop) == d;
    }
  }

  lemma StoppedStays(c: Client, chaddr: seq<nat>, e: Event)
    requires c.phase.Stopped?
    ensures Next(c, chaddr, e).phase.Stopped? && Next(c, chaddr, e).sent == c.sent
  {
  }

  /** The message a waiting client repeats. */
  function Repeated(c: Client): Packet {
    if c.phase.Discovering? then SentDiscover else SentRequest(c.ip)
  }

  /**
   Retransmission. A client with a discovery or a request out repeats it at the first unanswered poll with more than ten
   ticks since it was sent, and not before; after two repeats the next such poll, at any tick, gives up: a discovery
   fails and starts over, a request or renewal turns to discovery.
   */
  lemma Retransmits(c: Client, chaddr: seq<nat>, es: seq<Event>, m: Message, unique: bool)
    requires Inv(c) && (c.phase.Discovering? || c.phase.Requesting? || c.phase.Rerequesting?)
    requires Unheard(c, chaddr, es) && Foreign(c, chaddr, m) && c.tick == 0 && c.retry < MAX_RETRY
    requires PolledBy(0, WAIT_TIME, es)
    ensures var d := RunOn(c, chaddr, es); var (e, code) := DhcpRun(d, chaddr, m, unique);
            && d.phase == c.phase && d.sent == c.sent && code == Running && e.phase == c.phase && e.ip == c.ip
            && (if TickCount(es) > WAIT_TIME
                then e.sent == c.sent + [Repeated(c)] && e.tick == 0 && e.retry == c.retry + 1
                else e.sent == c.sent && e.retry == c.retry)
  {
    hide Parse, Offered, RunOn;
    Idles(c, chaddr, es);
    var d := RunOn(c, chaddr, es);
    IdledKeeps(c, chaddr, d, [], TickCount(es));
    assert Foreign(d, chaddr, m);
    ForeignIsSilence(d, chaddr, m, unique);
  }

  lemma GivesUp(c: Client, chaddr: seq<nat>, m: Message, unique: bool)
    requires Inv(c) && (c.phase.Discovering? || c.phase.Requesting? || c.phase.Rerequesting?)
    requires Foreign(c, chaddr, m) && c.retry == MAX_RETRY
    ensures var (d, code) := DhcpRun(c, chaddr, m, unique);
            && d.tick == 0 && d.retry == 0
            && (c.phase.Discovering? ==> d.phase.Init? && code == Failed && d.sent == c.sent)
            && (!c.phase.Discovering? ==> d.phase.Discovering? && code == Running && d.sent == c.sent + [SentDiscover])
  {
    hide Parse, Offered;
    ForeignIsSilence(c, chaddr, m, unique);
  }

  /**
   The code a poll returns: stopped exactly for a stopped client; failed exactly when a discovery gives up; leased
   exactly in a lease and when a renewal is answered, not while one is unanswered; address changed never.
   */
  lemma CodeMeans(c: Client, chaddr: seq<nat>, m: Message, unique: bool)
    requires Inv(c)
    ensures var (d, code) := DhcpRun(c, chaddr, m, unique);
            && (code == StoppedCode <==> c.phase.Stopped?)
            && (code == Failed <==> c.phase.Discovering? && d.phase.Init?)
            && (code == IpLeased
                <==> c.phase.Leased? || (c.phase.Rerequesting? && Parsed(c, chaddr, m).kind in {ACK, NAK}))
            && code != IpChanged
            && (c.phase.Stopped? ==> d == c) && (c.phase.Leased? ==> d.phase.Leased? || d.phase.Rerequesting?)
            && (c.phase.Init? ==> d.phase.Discovering? && d.ip == ZERO_IP && d.sent == c.sent + [SentDiscover])
  {
    hide Parsed, Offered;
  }

  // ---------- a server's message ----------

  /** The fixed part of a BOOTP message (RFC 2131 section 2), as far as the client reads it. */
  datatype Header = Header(start: seq<nat>, yiaddr: seq<nat>, middle: seq<nat>, chaddr: seq<nat>, files: seq<nat>)

  /** start: op to ciaddr; middle: siaddr and giaddr; files: the rest of chaddr, sname, file. */
  ghost predicate ProperHeader(h: Header) {
    |h.start| == 16 && |h.yiaddr| == 4 && |h.middle| == 8 && |h.chaddr| == 6 && |h.files| == 10 + 64 + 128
  }

  /** The bytes of a message with these options. */
  function Bytes(h: Header, os: seq<Option>): seq<nat> {
    h.start + h.yiaddr + h.middle + h.chaddr + h.files + COOKIE + (EncodeAll(os) + [END])
  }

  lemma PartAt(mem: nat -> nat, a: seq<nat>, b: seq<nat>, rest: seq<nat>)
    requires Stored(mem, 0, a + b + rest)
    ensures Stored(mem, |a|, b)
  {
    StoredSplits(mem, 0, a + b, rest);
    StoredSplits(mem, 0, a, b);
  }

  /**
   A well-formed message for this client, from a server it listens to, is taken at its word: the client reads the
   options' meaning, and the address in yiaddr is the one offered.
   */
  lemma ServerIsHeard(c: Client, m: Message, h: Header, os: seq<Option>)
    requires m.Message? && ProperHeader(h) && AllWellFormed(os) && m.port == SERVER_PORT
    requires Stored(m.mem, 0, Bytes(h, os)) && m.len == |Bytes(h, os)|
    requires c.fields.serverId == ZERO_IP || m.source == c.fields.serverId || m.source == c.fields.serverAddress
    ensures !Foreign(c, h.chaddr, m) && Offered(m) == h.yiaddr
    ensures Parsed(c, h.chaddr, m) == Meaning(os, m.source, c.fields.(kind := 0))
  {
    hide Parse, Meaning, EncodeAll;
    var options := EncodeAll(os) + [END];
    var a, b := h.start, h.start + h.yiaddr + h.middle;
    assert Bytes(h, os) == a + h.yiaddr + (h.middle + h.chaddr + h.files + COOKIE + options);
    PartAt(m.mem, a, h.yiaddr, h.middle + h.chaddr + h.files + COOKIE + options);
    assert Bytes(h, os) == b + h.chaddr + (h.files + COOKIE + options);
    PartAt(m.mem, b, h.chaddr, h.files + COOKIE + options);
    StoredSplits(m.mem, 0, b + h.chaddr + h.files + COOKIE, options);
    FourAt(m.mem, 16, h.yiaddr);
    SixAt(m.mem, 28, h.chaddr);
    ParseRecovers(m.mem, 240, m.len, os, m.source, c.fields.(kind := 0));
    ForeignIsSilence(c, h.chaddr, m, true);
  }

  lemma FourAt(mem: nat -> nat, p: nat, b: seq<nat>)
    requires |b| == 4 && Stored(mem, p, b)
    ensures Four(mem, p) == b
  {
    Peek(mem, p, b, 0);
    Peek(mem, p, b, 1);
    Peek(mem, p, b, 2);
    Peek(mem, p, b, 3);
  }

  lemma SixAt(mem: nat -> nat, p: nat, b: seq<nat>)
    requires |b| == 6 && Stored(mem, p, b)
    ensures [mem(p), mem(p + 1), mem(p + 2), mem(p + 3), mem(p + 4), mem(p + 5)] == b
  {
    Peek(mem, p, b, 0);
    Peek(mem, p, b, 1);
    Peek(mem, p, b, 2);
    Peek(mem, p, b, 3);
    Peek(mem, p, b, 4);
    Peek(mem, p, b, 5);
  }

  // ---------- the code ----------

  class Dhcp {
    const chaddr: seq<nat>
    var phase: Phase
    var ip: seq<nat>
    var oldIp: seq<nat>
    var retry: nat
    var tick: nat
    var next: nat
    var fields: Fields
    ghost var installed: Installed
    ghost var updates: nat
    ghost var sent: seq<Packet>

    ghost function State(): Client
      reads this
    {
      Client(phase, ip, oldIp, retry, tick, next, fields, installed, updates, sent)
    }

    constructor (chaddr: seq<nat>, fields: Fields)
      ensures State() == Initial(fields) && this.chaddr == chaddr
    {
      this.chaddr, this.fields := chaddr, fields;
      phase, ip, oldIp, retry, tick, next := Init, ZERO_IP, ZERO_IP, 0, 0, WAIT_TIME;
      installed, updates, sent := NoAddress, 0, [];
    }

    method TimeHandler()
      modifies this
      ensures State() == Next(old(State()), chaddr, Tick)
    {
      tick := tick + 1;
    }

    method Stop()
      modifies this
      ensures State() == Next(old(State()), chaddr, Event.Stop)
    {
      phase := Stopped;
    }

    method ResetDhcpTimeout()
      modifies this
      ensures State() == ResetTimeout(old(State()))
    {
      tick := 0;
      next := WAIT_TIME;
      retry := 0;
    }

    method Discover()
      modifies this
      ensures State() == SendDiscover(old(State()))
    {
      fields := fields.(serverId := ZERO_IP, serverAddress := ZERO_IP);
      sent := sent + [SentDiscover];
    }

    method Request()
      modifies this
      ensures State() == SendRequest(old(State()))
    {
      sent := sent + [SentRequest(ip)];
    }

    /** parseDHCPMSG up to its option scan, which is DhcpOptions.ParseOptions. */
    method ParseMessage(m: Message) returns (kind: nat)
      modifies this`fields
      ensures fields == Parsed(old(State()), chaddr, m) && kind == fields.kind
    {
      hide Parse;
      fields := fields.(kind := 0);
      kind := 0;
      if m.Silence? || m.port != SERVER_PORT {
        return;
      }
      if [m.mem(28), m.mem(29), m.mem(30), m.mem(31), m.mem(32), m.mem(33)] != chaddr {
        return;
      }
      if fields.serverId != ZERO_IP && m.source != fields.serverId && m.source != fields.serverAddress {
        return;
      }
      fields := ParseOptions(m.mem, 240, m.len, m.source, fields);
      kind := fields.kind;
    }

    method CheckDhcpTimeout() returns (code: Code)
      modifies this
      ensures (State(), code) == CheckTimeout(old(State()))
    {
      code := Running;
      if retry < MAX_RETRY {
        if next < tick {
          match phase {
            case Discovering => Discover();
            case Requesting => Request();
            case Rerequesting => Request();
            case _ =>
          }
          tick := 0;
          next := tick + WAIT_TIME;
          retry := retry + 1;
        }
      } else {
        match phase {
          case Discovering =>
            phase := Init;
            code := Failed;
          case Requesting =>
            Discover();
            phase := Discovering;
          case Rerequesting =>
            Discover();
            phase := Discovering;
          case _ =>
        }
        ResetDhcpTimeout();
      }
    }

    method Run(m: Message, unique: bool) returns (code: Code)
      modifies this
      ensures (State(), code) == DhcpRun(old(State()), chaddr, m, unique)
    {
      hide Parsed, Offered, CheckTimeout;
      if phase == Stopped {
        return StoppedCode;
      }
      code := Running;
      var kind := ParseMessage(m);
      match phase {
        case Init =>
          ip := ZERO_IP;
          Discover();
          phase := Discovering;
        case Discovering =>
          if kind == OFFER {
            ip := Offered(m);
            Request();
            phase := Requesting;
          } else {
            code := CheckDhcpTimeout();
          }
        case Requesting =>
          if kind == ACK {
            if unique {
              installed := Address(ip);
              ResetDhcpTimeout();
              phase := Leased;
            } else {
              sent := sent + [SentDecline(ip)];
              ResetDhcpTimeout();
              phase := Init;
            }
          } else if kind == NAK {
            ResetDhcpTimeout();
            phase := Discovering;
          } else {
            code := CheckDhcpTimeout();
          }
        case Leased =>
          code := IpLeased;
          if fields.lease != INFINITE_LEASE && fields.lease / 2 < tick {
            oldIp := ip;
            Request();
            ResetDhcpTimeout();
            phase := Rerequesting;
          }
        case Rerequesting =>
          code := IpLeased;
          if kind == ACK {
            retry := 0;
            if oldIp != ip {
              code := IpChanged;
              updates := updates + 1;
            }
            ResetDhcpTimeout();
            phase := Leased;
          } else if kind == NAK {
            ResetDhcpTimeout();
            phase := Discovering;
          } else {
            code := CheckDhcpTimeout();
          }
        case Stopped =>
      }
    }
  }
}
