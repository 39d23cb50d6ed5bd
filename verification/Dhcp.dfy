/** The lease table of the DHCP server in src/dhcpserver.c, over a clock that
    wraps every 2^32 ms and an expiry of which only 16 bits are kept. */
module DhcpLeases {

  import opened Bytes

  const MAX_IP := 8
  const BASE_IP := 16
  const LEASE_MS := 86_400_000
  const TICK_WRAP := 0x1_0000_0000
  const HALF_WRAP := 0x8000_0000
  const STEP_MS := 0x1_0000

  type Mac = m: seq<byte> | |m| == 6 witness [0, 0, 0, 0, 0, 0]
  const FREE: Mac := [0, 0, 0, 0, 0, 0]

  type Expiry = e: int | 0 <= e < 0x1_0000
  datatype Lease = Lease(mac: Mac, expiry: Expiry)

  /** A table has one lease for each address the server may give out. */
  type Table = t: seq<Lease> | |t| == MAX_IP witness seq(MAX_IP, i => Lease(FREE, 0))

  /** A DISCOVER reads the clock once for each lease that it looks at. */
  type Readings = c: seq<nat> | |c| == MAX_IP witness seq(MAX_IP, i => 0)

  type Ip = a: seq<byte> | |a| == 4 witness [0, 0, 0, 0]
  datatype Asked = Nothing | Address(ip: Ip)
  datatype Reply = Ignored | Offer(yiaddr: Ip) | Ack(yiaddr: Ip)

  // The clock and the expiry

  /** What the 32-bit tick counter shows at time t. */
  function Ticks(t: nat): nat {
    t % TICK_WRAP
  }

  /** What a lease granted at time t keeps: the upper half of the 32-bit sum. */
  function ExpiryAt(t: nat): Expiry {
    (Ticks(t) + LEASE_MS) % TICK_WRAP / STEP_MS
  }

  /** The sign bit of the 32-bit difference between the end of the lease and now. */
  predicate Expired(l: Lease, now: nat) {
    (l.expiry * STEP_MS + (STEP_MS - 1) - Ticks(now)) % TICK_WRAP >= HALF_WRAP
  }

  /** How long after its nominal end a lease granted at time t still counts:
      what the 16-bit truncation adds. */
  function Grace(t: nat): (g: nat)
    ensures g < STEP_MS
  {
    STEP_MS - 1 - (t + LEASE_MS) % STEP_MS
  }

  lemma WrapTwice(a: nat, b: nat)
    ensures (a % TICK_WRAP + b) % TICK_WRAP == (a + b) % TICK_WRAP
  {
    SameTicks(a + b, a % TICK_WRAP + b, a / TICK_WRAP);
  }

  lemma SameTicks(a: int, b: int, k: int)
    requires a == b + TICK_WRAP * k
    ensures a % TICK_WRAP == b % TICK_WRAP
  {
    assert TICK_WRAP * (a / TICK_WRAP - b / TICK_WRAP - k) == b % TICK_WRAP - a % TICK_WRAP;
  }

  lemma SameStep(a: int, b: int, k: int)
    requires a == b + STEP_MS * k
    ensures a % STEP_MS == b % STEP_MS
  {
    assert STEP_MS * (a / STEP_MS - b / STEP_MS - k) == b % STEP_MS - a % STEP_MS;
  }

  lemma ExpiryIsRoundedUp(t: nat)
    ensures ExpiryAt(t) * STEP_MS + (STEP_MS - 1) == (t + LEASE_MS) % TICK_WRAP + Grace(t)
  {
    WrapTwice(t, LEASE_MS);
    var e := (t + LEASE_MS) % TICK_WRAP;
    SameStep(t + LEASE_MS, e, STEP_MS * ((t + LEASE_MS) / TICK_WRAP));
    assert e / STEP_MS * STEP_MS + e % STEP_MS == e;
  }

  /** Exactly when the table sees a lease of age `age` as expired: past the end
      and its grace, and for half a turn of the clock; then not for half a turn. */
  lemma ExpiredExactly(mac: Mac, t: nat, age: nat)
    ensures Expired(Lease(mac, ExpiryAt(t)), t + age)
            <==> (LEASE_MS + Grace(t) - age) % TICK_WRAP >= HALF_WRAP
  {
    hide ExpiryAt, Grace;
    ExpiryIsRoundedUp(t);
    var a, b := (t + LEASE_MS) / TICK_WRAP, (t + age) / TICK_WRAP;
    var lhs := ExpiryAt(t) * STEP_MS + (STEP_MS - 1) - Ticks(t + age);
    assert lhs == (LEASE_MS + Grace(t) - age) + TICK_WRAP * (b - a);
    SameTicks(lhs, LEASE_MS + Grace(t) - age, b - a);
  }

  /** A lease is never taken for expired within a day, and always is from
      one truncation step past the day until half a turn of the clock later. */
  lemma ExpiryWindow(mac: Mac, t: nat, age: nat)
    ensures age <= LEASE_MS ==> !Expired(Lease(mac, ExpiryAt(t)), t + age)
    ensures LEASE_MS + STEP_MS <= age <= LEASE_MS + HALF_WRAP
            ==> Expired(Lease(mac, ExpiryAt(t)), t + age)
  {
    ExpiredExactly(mac, t, age);
  }

  // DISCOVER

  /** The least index, from i on, of a lease of this MAC. */
  function FirstHeld(leases: Table, mac: Mac, i: nat): (k: nat)
    requires i <= MAX_IP
    ensures i <= k <= MAX_IP
    ensures k < MAX_IP ==> leases[k].mac == mac
    ensures forall j :: i <= j < k ==> leases[j].mac != mac
    decreases MAX_IP - i
  {
    if i == MAX_IP || leases[i].mac == mac then i else FirstHeld(leases, mac, i + 1)
  }

  predicate Reusable(l: Lease, now: nat) {
    l.mac == FREE || Expired(l, now)
  }

  /** The least index, from i on, of a lease that is free or expired when looked at. */
  function FirstReusable(leases: Table, clock: Readings, i: nat): (k: nat)
    requires i <= MAX_IP
    ensures i <= k <= MAX_IP
    ensures k < MAX_IP ==> Reusable(leases[k], clock[k])
    ensures forall j :: i <= j < k ==> !Reusable(leases[j], clock[j])
    decreases MAX_IP - i
  {
    if i == MAX_IP || Reusable(leases[i], clock[i]) then i else FirstReusable(leases, clock, i + 1)
  }

  /** The index that a DISCOVER offers; MAX_IP if there is none. */
  function Choice(leases: Table, mac: Mac, clock: Readings): (k: nat)
    ensures k <= MAX_IP
  {
    var held := FirstHeld(leases, mac, 0);
    if held < MAX_IP then held else FirstReusable(leases, clock, 0)
  }

  /** The table after a DISCOVER: an expired lease found before the MAC's own is cleared. */
  function AfterDiscover(leases: Table, mac: Mac, clock: Readings): Table {
    var k := FirstReusable(leases, clock, 0);
    if k < FirstHeld(leases, mac, 0) && Expired(leases[k], clock[k])
    then leases[k := leases[k].(mac := FREE)]
    else leases
  }

  function AddressOf(server: Ip, yi: nat): Ip
    requires yi < MAX_IP
  {
    server[3 := BASE_IP + yi]
  }

  function DiscoverReply(server: Ip, leases: Table, mac: Mac, clock: Readings): Reply {
    var yi := Choice(leases, mac, clock);
    if yi < MAX_IP then Offer(AddressOf(server, yi)) else Ignored
  }

  // REQUEST

  /** The index of the address asked for; MAX_IP if it is not one of the server's. */
  function Index(server: Ip, asked: Asked): (k: nat)
    ensures k <= MAX_IP
    ensures k < MAX_IP <==> exists yi: nat :: yi < MAX_IP && asked == Address(AddressOf(server, yi))
    ensures k < MAX_IP ==> asked == Address(AddressOf(server, k))
  {
    match asked
    case Nothing => MAX_IP
    case Address(ip) =>
      var yi: int := (ip[3] - BASE_IP) % 256;
      if ip[..3] == server[..3] && yi < MAX_IP then
        assert ip == AddressOf(server, yi);
        yi
      else
        assert forall k: nat | k < MAX_IP ::
                 AddressOf(server, k)[..3] == server[..3] && (AddressOf(server, k)[3] - BASE_IP) % 256 == k;
        MAX_IP
  }

  /** Whether a REQUEST of this MAC for the address with index yi is granted. */
  predicate Granted(leases: Table, mac: Mac, yi: nat)
    requires yi <= MAX_IP
  {
    yi < MAX_IP && (leases[yi].mac == mac || leases[yi].mac == FREE)
  }

  function AfterRequest(leases: Table, mac: Mac, yi: nat, now: nat): Table
    requires yi <= MAX_IP
  {
    if Granted(leases, mac, yi) then leases[yi := Lease(mac, ExpiryAt(now))] else leases
  }

  function RequestReply(server: Ip, leases: Table, mac: Mac, asked: Asked): Reply {
    var yi := Index(server, asked);
    if Granted(leases, mac, yi) then Ack(AddressOf(server, yi)) else Ignored
  }

  /** A DISCOVER clears at most one lease, only one that it saw as expired. */
  lemma DiscoverClearsOne(leases: Table, mac: Mac, clock: Readings, j: nat)
    requires j < MAX_IP && AfterDiscover(leases, mac, clock)[j] != leases[j]
    ensures Expired(leases[j], clock[j]) && leases[j].mac != mac
    ensures AfterDiscover(leases, mac, clock) == leases[j := leases[j].(mac := FREE)]
  {
  }

  /** An address that was offered is granted to the same MAC if it asks for it next. */
  lemma OfferIsHonoured(server: Ip, leases: Table, mac: Mac, clock: Readings)
    requires DiscoverReply(server, leases, mac, clock).Offer?
    ensures var offered := DiscoverReply(server, leases, mac, clock).yiaddr;
            RequestReply(server, AfterDiscover(leases, mac, clock), mac, Address(offered)) == Ack(offered)
  {
    var yi := Choice(leases, mac, clock);
    var ip := AddressOf(server, yi);
    var k := Index(server, Address(ip));
    assert ip[3] == BASE_IP + yi;
    assert AddressOf(server, k)[3] == BASE_IP + k;
    assert k == yi;
  }

  // Runs of the server

  datatype Event = Discover(mac: Mac, clock: Readings) | Request(mac: Mac, asked: Asked, now: nat) | Other

  /** An address that was acknowledged. */
  datatype Granting = Granting(yi: nat, mac: Mac, at: nat)

  /** The table, the acknowledgements so far, and when each address was last acknowledged. */
  datatype State = State(leases: Table, log: seq<Granting>, renewed: Readings)

  function Initial(): State {
    State(seq(MAX_IP, i => Lease(FREE, 0)), [], seq(MAX_IP, i => 0))
  }

  function Step(server: Ip, s: State, e: Event): State {
    match e
    case Discover(mac, clock) => s.(leases := AfterDiscover(s.leases, mac, clock))
    case Request(mac, asked, now) =>
      var yi := Index(server, asked);
      if Granted(s.leases, mac, yi)
      then State(AfterRequest(s.leases, mac, yi, now), s.log + [Granting(yi, mac, now)], s.renewed[yi := now])
      else s
    case Other => s
  }

  function Run(server: Ip, events: seq<Event>): State {
    if events == [] then Initial()
    else Step(server, Run(server, events[..|events| - 1]), events[|events| - 1])
  }

  /** The time after an event that starts at `now`. */
  function Later(e: Event, now: nat): nat {
    match e
    case Discover(_, clock) => clock[MAX_IP - 1]
    case Request(_, _, at) => at
    case Other => now
  }

  /** The readings of the clock within an event follow each other and `now`. */
  predicate InTime(e: Event, now: nat) {
    match e
    case Discover(_, clock) => now <= clock[0] && forall i, j :: 0 <= i < j < MAX_IP ==> clock[i] <= clock[j]
    case Request(_, _, at) => now <= at
    case Other => true
  }

  function Clock(events: seq<Event>): nat {
    if events == [] then 0 else Later(events[|events| - 1], Clock(events[..|events| - 1]))
  }

  /** Time never goes back over the events. */
  predicate Timely(events: seq<Event>) {
    events == [] ||
    (Timely(events[..|events| - 1]) && InTime(events[|events| - 1], Clock(events[..|events| - 1])))
  }

  /** The MAC still holds the address it was granted, or a day has passed. */
  predicate Covered(s: State, g: Granting, now: nat) {
    g.yi < MAX_IP && g.at <= now &&
    (g.mac == FREE || now > g.at + LEASE_MS || (s.leases[g.yi].mac == g.mac && s.renewed[g.yi] >= g.at))
  }

  predicate Invariant(s: State, now: nat) {
    (forall i :: 0 <= i < MAX_IP && s.leases[i].mac != FREE ==>
       s.renewed[i] <= now && s.leases[i].expiry == ExpiryAt(s.renewed[i])) &&
    (forall p :: 0 <= p < |s.log| ==> Covered(s, s.log[p], now))
  }

  /** No address goes to another MAC within a day of being acknowledged to one. */
  predicate Safe(log: seq<Granting>) {
    forall p, q :: 0 <= p < q < |log| && log[p].yi == log[q].yi && log[p].mac != FREE && log[q].mac != log[p].mac ==>
      log[q].at > log[p].at + LEASE_MS
  }

  lemma ClearedIsOld(server: Ip, s: State, g: Granting, mac: Mac, clock: Readings, now: nat)
    requires Invariant(s, now) && Covered(s, g, now) && InTime(Discover(mac, clock), now)
    ensures Covered(Step(server, s, Discover(mac, clock)), g, clock[MAX_IP - 1])
  {
    var after := AfterDiscover(s.leases, mac, clock);
    if after[g.yi] != s.leases[g.yi] && s.leases[g.yi].mac == g.mac != FREE {
      DiscoverClearsOne(s.leases, mac, clock, g.yi);
      var since := s.renewed[g.yi];
      ExpiryWindow(g.mac, since, clock[g.yi] - since);
    }
  }

  lemma StepKeeps(server: Ip, s: State, e: Event, now: nat)
    requires Invariant(s, now) && InTime(e, now)
    ensures Invariant(Step(server, s, e), Later(e, now))
  {
    hide Expired, ExpiryAt;
    var t := Step(server, s, e);
    match e {
      case Discover(mac, clock) =>
        forall p | 0 <= p < |t.log| ensures Covered(t, t.log[p], clock[MAX_IP - 1]) {
          ClearedIsOld(server, s, s.log[p], mac, clock, now);
        }
      case Request(mac, asked, at) =>
        forall p | 0 <= p < |t.log| ensures Covered(t, t.log[p], at) {
          if p < |s.log| { assert Covered(s, s.log[p], now); }
        }
      case Other =>
    }
  }

  lemma StepSafe(server: Ip, s: State, e: Event, now: nat)
    requires Invariant(s, now) && InTime(e, now) && Safe(s.log)
    ensures Safe(Step(server, s, e).log)
  {
    hide Expired, ExpiryAt;
    var t := Step(server, s, e);
    forall p, q | 0 <= p < q < |t.log| && t.log[p].yi == t.log[q].yi && t.log[p].mac != FREE && t.log[q].mac != t.log[p].mac
      ensures t.log[q].at > t.log[p].at + LEASE_MS
    {
      assert p < |s.log| && Covered(s, s.log[p], now);
    }
  }

  /** Lease safety over every run of the server. */
  lemma {:induction false} LeaseSafety(server: Ip, events: seq<Event>)
    requires Timely(events)
    ensures Invariant(Run(server, events), Clock(events))
    ensures Safe(Run(server, events).log)
  {
    if events == [] {
    } else {
      var init := events[..|events| - 1];
      LeaseSafety(server, init);
      StepKeeps(server, Run(server, init), events[|events| - 1], Clock(init));
      StepSafe(server, Run(server, init), events[|events| - 1], Clock(init));
    }
  }

  /** In every run: whoever had an address acknowledged within the last day gets it again when asking for it. */
  lemma RenewalIsGranted(server: Ip, events: seq<Event>, p: nat, now: nat)
    requires Timely(events) && p < |Run(server, events).log| && Clock(events) <= now
    requires var g := Run(server, events).log[p]; g.mac != FREE && now <= g.at + 86_400_000
    ensures var s, g := Run(server, events), Run(server, events).log[p];
            g.yi < 8 && RequestReply(server, s.leases, g.mac, Address(server[3 := 16 + g.yi])) == Ack(server[3 := 16 + g.yi])
  {
    LeaseSafety(server, events);
    var s := Run(server, events);
    var g := s.log[p];
    assert Covered(s, g, Clock(events));
    OwnIndex(server, g.yi);
  }

  lemma OwnIndex(server: Ip, yi: nat)
    requires yi < MAX_IP
    ensures Index(server, Address(AddressOf(server, yi))) == yi
  {
    var k := Index(server, Address(AddressOf(server, yi)));
    assert AddressOf(server, k)[3] == BASE_IP + k && AddressOf(server, yi)[3] == BASE_IP + yi;
  }

  /** Which of the eight addresses a DISCOVER offers: the first that the MAC holds; if it holds none, the first that
      nobody holds or whose lease is seen as expired; if there is none either, it is not answered. */
  lemma OfferedAddress(server: Ip, leases: Table, mac: Mac, clock: Readings)
    ensures var reply := DiscoverReply(server, leases, mac, clock);
            forall yi: nat | yi < 8 ::
              reply == Offer(server[3 := 16 + yi]) <==>
                (leases[yi].mac == mac && forall j | 0 <= j < yi :: leases[j].mac != mac) ||
                ((forall j | 0 <= j < 8 :: leases[j].mac != mac) &&
                 (leases[yi].mac == [0, 0, 0, 0, 0, 0] || Expired(leases[yi], clock[yi])) &&
                 (forall j | 0 <= j < yi :: leases[j].mac != [0, 0, 0, 0, 0, 0] && !Expired(leases[j], clock[j])))
    ensures DiscoverReply(server, leases, mac, clock) == Ignored <==>
            forall j | 0 <= j < 8 :: leases[j].mac != mac && leases[j].mac != [0, 0, 0, 0, 0, 0] && !Expired(leases[j], clock[j])
  {
    hide Expired;
    var k := Choice(leases, mac, clock);
    forall yi: nat | yi < 8 ensures Index(server, Address(AddressOf(server, yi))) == yi {
      OwnIndex(server, yi);
    }
  }

  /** Which REQUESTs are answered, and what is written: one for an address that the MAC holds or that nobody holds,
      expired or not; the lease then ends a day later, and nothing else changes. */
  lemma AcknowledgedIff(server: Ip, leases: Table, mac: Mac, asked: Asked, now: nat, yi: nat)
    requires yi < 8
    ensures var reply, after := RequestReply(server, leases, mac, asked), AfterRequest(leases, mac, Index(server, asked), now);
            (reply == Ack(server[3 := 16 + yi]) <==>
               asked == Address(server[3 := 16 + yi]) && leases[yi].mac in {mac, [0, 0, 0, 0, 0, 0]}) &&
            (reply == Ack(server[3 := 16 + yi]) ==> after == leases[yi := Lease(mac, ExpiryAt(now))]) &&
            (reply == Ignored ==> after == leases)
  {
    hide ExpiryAt;
    OwnIndex(server, yi);
    var k := Index(server, asked);
    if k < 8 { OwnIndex(server, k); }
  }

  /** The table without the lease at this index if it is seen as expired. */
  function Cleared(leases: Table, yi: nat, clock: Readings): Table {
    if yi < MAX_IP && Expired(leases[yi], clock[yi]) then leases[yi := leases[yi].(mac := FREE)] else leases
  }

  /** No lease before i is the MAC's own, and yi is the first of them that can be used again. */
  predicate Searched(leases: Table, mac: Mac, clock: Readings, i: nat, yi: nat) {
    i <= MAX_IP && yi <= MAX_IP && (forall j | 0 <= j < i :: leases[j].mac != mac) &&
    if yi == MAX_IP then (forall j | 0 <= j < i :: !Reusable(leases[j], clock[j])) else yi < i && yi == FirstReusable(leases, clock, 0)
  }

  lemma SearchStep(leases: Table, mac: Mac, clock: Readings, i: nat, yi: nat)
    requires i < MAX_IP && Searched(leases, mac, clock, i, yi)
    ensures leases[i].mac != mac ==>
              Searched(leases, mac, clock, i + 1, if yi == MAX_IP && Reusable(leases[i], clock[i]) then i else yi)
    ensures Reusable(leases[i], clock[i]) <==> leases[i].mac == FREE || Expired(leases[i], clock[i])
  {
    hide Expired, FirstReusable;
    var k := FirstReusable(leases, clock, 0);
  }

  lemma SearchEnds(leases: Table, mac: Mac, clock: Readings, i: nat, yi: nat)
    requires Searched(leases, mac, clock, i, yi) && (i < MAX_IP ==> leases[i].mac == mac)
    ensures Choice(leases, mac, clock) == (if i < MAX_IP then i else yi)
    ensures AfterDiscover(leases, mac, clock) == Cleared(leases, yi, clock)
  {
    hide Expired, FirstReusable, FirstHeld, Reusable;
    var held, k := FirstHeld(leases, mac, 0), FirstReusable(leases, clock, 0);
    assert held == i;
  }

  /** A message that got past the length and message-type checks. */
  datatype Message = DhcpDiscover(chaddr: Mac) | DhcpRequest(chaddr: Mac, asked: Asked) | DhcpOther

  class DhcpServer {
    const ip: Ip
    const lease: array<Lease>

    ghost predicate Valid()
      reads this
    {
      lease.Length == MAX_IP
    }

    ghost function Leases(): Table
      requires Valid()
      reads this, lease
    {
      lease[..]
    }

    constructor (ip: Ip)
      ensures Valid() && fresh(lease) && this.ip == ip && Leases() == Initial().leases
    {
      this.ip := ip;
      lease := new Lease[MAX_IP](i => Lease(FREE, 0));
    }

    /** The search of the DISCOVER branch: one pass, which clears as it goes. */
    method Search(mac: Mac, clock: Readings) returns (yi: nat)
      requires Valid()
      modifies lease
      ensures yi == Choice(old(Leases()), mac, clock)
      ensures Leases() == AfterDiscover(old(Leases()), mac, clock)
    {
      hide Expired, FirstHeld, FirstReusable, AfterDiscover, Choice, Reusable;
      ghost var was := Leases();
      yi := MAX_IP;
      for i := 0 to MAX_IP
        invariant Searched(was, mac, clock, i, yi)
        invariant lease[..] == Cleared(was, yi, clock)
      {
        assert lease[i] == was[i];
        SearchStep(was, mac, clock, i, yi);
        if lease[i].mac == mac {
          SearchEnds(was, mac, clock, i, yi);
          return i;
        }
        if yi == MAX_IP {
          if lease[i].mac == FREE {
            yi := i;
          }
          if Expired(lease[i], clock[i]) {
            lease[i] := lease[i].(mac := FREE);
            yi := i;
          }
        }
      }
      SearchEnds(was, mac, clock, MAX_IP, yi);
    }

    /** One message; `clock` is what the ticks show while it is handled. */
    method Process(m: Message, clock: Readings) returns (reply: Reply)
      requires Valid()
      modifies lease
      ensures m.DhcpDiscover? ==>
                reply == DiscoverReply(ip, old(Leases()), m.chaddr, clock) &&
                Leases() == AfterDiscover(old(Leases()), m.chaddr, clock)
      ensures m.DhcpRequest? ==>
                reply == RequestReply(ip, old(Leases()), m.chaddr, m.asked) &&
                Leases() == AfterRequest(old(Leases()), m.chaddr, Index(ip, m.asked), clock[0])
      ensures m.DhcpOther? ==> reply == Ignored && Leases() == old(Leases())
    {
      hide Expired, ExpiryAt;
      reply := Ignored;
      match m {
        case DhcpDiscover(mac) =>
          var yi := Search(mac, clock);
          if yi != MAX_IP {
            reply := Offer(AddressOf(ip, yi));
          }
        case DhcpRequest(mac, asked) =>
          if asked.Nothing? || asked.ip[..3] != ip[..3] {
            return;
          }
          var yi := (asked.ip[3] - BASE_IP) % 256;
          if yi >= MAX_IP {
            return;
          }
          if lease[yi].mac == mac {
          } else if lease[yi].mac == FREE {
            lease[yi] := lease[yi].(mac := mac);
          } else {
            return;
          }
          lease[yi] := lease[yi].(expiry := ExpiryAt(clock[0]));
          reply := Ack(AddressOf(ip, yi));
        case DhcpOther =>
      }
    }
  }
}
