/** A run in which a client receives the update of a topic before the announcement of it. */
module NtOvertaking {
  import Bytes
  import opened NtValues
  import opened Batching
  import opened Maybes
  import opened NtClient
  import opened NtClientLaws
  import opened NtServer
  import opened NtMetaTopics
  import opened NtFailures
  import opened NtTheorems
  import opened NtWire

  // ------------------------------------------------------------ what a client does not notice

  /** The client is exactly as it was. */
  predicate Untouched(s: Server, t: Server, g: Guid) {
    NamedRight(t.topics) && g in s.clients && g in t.clients && t.clients[g] == s.clients[g]
  }

  lemma SetMetaPassesBy(env: Env, s: Server, name: string, content: seq<Bytes.byte>, g: Guid)
    requires NamedRight(s.topics) && g in s.clients && name !in s.clients[g].topicData
    ensures Untouched(s, SetMeta(env, s, name, content), g)
  {
    hide SendUpdate, IsSubscribed, WithBin;
  }

  lemma SetMetaPlace(env: Env, s: Server, name: string, content: seq<Bytes.byte>)
    ensures var t := SetMeta(env, s, name, content);
            t.topics.Keys == s.topics.Keys && (forall n :: n in s.topics && n != name ==> t.topics[n] == s.topics[n]) &&
            t.ownPublishers == s.ownPublishers
  {
    hide FanOut, WithBin;
  }

  /** A topic that the client neither has nor subscribes to. */
  lemma IntroducePassesBy(s: Server, name: string, v: NTValue, p: Properties, g: Guid)
    requires NamedRight(s.topics) && g in s.clients && !IsSubscribed(s.clients[g].subscriptions, name, false)
    ensures Untouched(s, Introduce(s, name, v, p, Nothing), g)
  {
    hide AnnounceTopic, IsSubscribed;
  }

  lemma IntroducePlace(s: Server, name: string, v: NTValue, p: Properties)
    ensures var t := Introduce(s, name, v, p, Nothing);
            t.topics == (if name in s.topics then s.topics else s.topics[name := Topic(name, v, p, p.cached)]) &&
            t.ownPublishers == s.ownPublishers
  {
    hide AnnounceOne;
  }

  lemma FlushPassesBy(c: Client)
    requires c.text.cached == [] && c.binary.cached == []
    ensures FlushText(c) == c && FlushBinary(c) == c
  {
  }

  /** A client with these subscriptions for which nothing was ever queued. */
  predicate Quiet(c: Client, subs: map<int, Subscription>) {
    c == NewClient(c.name).(subscriptions := subs)
  }

  lemma {:induction false} CoveredPassesBy(env: Env, s: Server, sub: Subscription, order: seq<string>, g: Guid)
    requires NamedRight(s.topics) && g in s.clients && s.clients[g].topicData == map[]
    ensures Untouched(s, UpdateCovered(env, s, sub, order), g) && UpdateCovered(env, s, sub, order).topics.Keys == s.topics.Keys
  {
    hide SetMeta, Covers, IsMeta, TopicSub;
    if order == [] {
    } else {
      var init, n := order[..|order| - 1], order[|order| - 1];
      CoveredPassesBy(env, s, sub, init, g);
      var s1 := UpdateCovered(env, s, sub, init);
      SetMetaPassesBy(env, s1, TopicSub(n), env.enc.topicSubscriptions(Interests(s1.clients, n)), g);
      SetMetaPlace(env, s1, TopicSub(n), env.enc.topicSubscriptions(Interests(s1.clients, n)));
    }
  }

  /** None of these topics is of interest to the client. */
  predicate Uninteresting(topics: map<string, Topic>, subs: map<int, Subscription>) {
    forall n :: n in topics ==> topics[n].name == n && !IsSubscribed(subs, n, false)
  }

  lemma {:induction false} CachedPassesBy(c: Client, topics: map<string, Topic>, order: seq<string>)
    requires Uninteresting(topics, c.subscriptions)
    ensures AnnounceCached(c, topics, order) == c
  {
    hide IsSubscribed, AnnounceTopic;
    if order == [] {
    } else {
      CachedPassesBy(c, topics, order[..|order| - 1]);
    }
  }

  // ------------------------------------------------------------ the first events

  lemma ConnectIsQuiet(env: Env, s: Server, g: Guid, requested: string)
    requires NamedRight(s.topics) && env.order == []
    ensures var t := Connect(env, s, g, requested);
            NamedRight(t.topics) && g in t.clients && Quiet(t.clients[g], map[])
  {
    hide Introduce, SetMeta, IsSubscribed, Untouched, NameFor, ClientSub, ClientPub, FlushText, FlushBinary;
    var name := NameFor(s.clients, requested);
    var c := NewClient(name);
    var meta := BinV(MsgpackBin, []);
    assert forall n :: !IsSubscribed(c.subscriptions, n, false) by { NoSubscriptions(); }
    var s1 := WithClient(s, g, c);
    IntroducePassesBy(s1, ClientSub(name), meta, META_PROPERTIES, g);
    var s2 := IntroduceMeta(s1, ClientSub(name));
    UntouchedIs(s1, s2, g, c);
    IntroducePassesBy(s2, ClientPub(name), meta, META_PROPERTIES, g);
    var s3 := IntroduceMeta(s2, ClientPub(name));
    UntouchedIs(s2, s3, g, c);
    SetMetaPassesBy(env, s3, CLIENTS, env.enc.roster(Names(s3.clients)), g);
    var s4 := UpdateClients(env, s3);
    UntouchedIs(s3, s4, g, c);
    SetMetaPassesBy(env, s4, ClientSub(name), env.enc.subscriptions(c.subscriptions), g);
    var s5 := UpdateClientSub(env, s4, g);
    UntouchedIs(s4, s5, g, c);
    SetMetaPassesBy(env, s5, ClientPub(name), env.enc.publishers(c.publishers), g);
    var s6 := UpdateClientPub(env, s5, g);
    UntouchedIs(s5, s6, g, c);
    FlushPassesBy(c);
  }

  lemma NoSubscriptions()
    ensures forall n :: !IsSubscribed(map[], n, false)
  {
  }

  lemma UntouchedIs(s: Server, t: Server, g: Guid, c: Client)
    requires Untouched(s, t, g) && s.clients[g] == c
    ensures NamedRight(t.topics) && g in t.clients && t.clients[g] == c
  {
  }

  lemma SubscribeIsQuiet(env: Env, s: Server, g: Guid, sub: Subscription)
    requires NamedRight(s.topics) && g in s.clients && Quiet(s.clients[g], map[])
    requires Uninteresting(s.topics, map[sub.uid := sub])
    ensures var t := Subscribe(env, s, g, sub);
            NamedRight(t.topics) && t.topics.Keys == s.topics.Keys && g in t.clients && Quiet(t.clients[g], map[sub.uid := sub])
  {
    hide SetMeta, IsSubscribed, Untouched, ClientSub, UpdateCovered;
    var subs := map[sub.uid := sub];
    var c := s.clients[g].(subscriptions := subs);
    var s1 := WithSubscriptions(s, g, s.clients[g].subscriptions[sub.uid := sub]);
    assert s1.clients[g] == c;
    SetMetaPassesBy(env, s1, ClientSub(c.name), env.enc.subscriptions(c.subscriptions), g);
    SetMetaPlace(env, s1, ClientSub(c.name), env.enc.subscriptions(c.subscriptions));
    var s2 := UpdateClientSub(env, s1, g);
    UntouchedIs(s1, s2, g, c);
    CoveredPassesBy(env, s2, sub, env.order, g);
    var s3 := UpdateCovered(env, s2, sub, env.order);
    UntouchedIs(s2, s3, g, c);
    assert Uninteresting(s3.topics, subs);
    CachedPassesBy(c, s3.topics, env.order);
  }

  lemma EndOfTextIsQuiet(env: Env, s: Server, g: Guid)
    requires g in s.clients && s.clients[g].text.cached == [] && s.clients[g].binary.cached == [] && env.order == []
    ensures var t := EndOfText(env, s, g); t.topics == s.topics && g in t.clients && t.clients[g] == s.clients[g]
  {
    hide FlushText, FlushBinary;
    FlushPassesBy(s.clients[g]);
  }

  // ------------------------------------------------------------ publishing by a local call

  /** Only the one topic is of interest to the client. */
  ghost predicate OnlyInterest(c: Client, name: string) {
    forall n :: IsSubscribed(c.subscriptions, n, false) <==> n == name
  }

  lemma AnnouncedToOne(s: Server, name: string, v: NTValue, p: Properties, g: Guid)
    requires NamedRight(s.topics) && g in s.clients && name !in s.topics && IsSubscribed(s.clients[g].subscriptions, name, false)
    ensures var t := Introduce(s, name, v, p, Nothing);
            NamedRight(t.topics) && g in t.clients &&
            t.clients[g] == AnnounceTopic(s.clients[g], Topic(name, v, p, p.cached), Nothing)
  {
    hide AnnounceTopic, IsSubscribed;
  }

  lemma AnnouncedOnly(c: Client, t: Topic)
    requires c.topicData == map[]
    ensures AnnounceTopic(c, t, Nothing).topicData.Keys == {t.name} && AnnounceTopic(c, t, Nothing).subscriptions == c.subscriptions
  {
    hide Render, Put, Leaves;
  }

  /** What the meta-topics of a new topic do to a client that is interested in that topic only: nothing. */
  lemma MetaTopicsPassBy(env: Env, s1: Server, name: string, g: Guid)
    requires NamedRight(s1.topics) && g in s1.clients && s1.clients[g].topicData.Keys == {name}
    requires OnlyInterest(s1.clients[g], name) && !IsMeta(name) && name in s1.topics
    ensures var s3 := IntroduceMeta(IntroduceMeta(s1, TopicSub(name)), TopicPub(name));
            var t := UpdateServerPub(env, UpdateTopicPub(env, UpdateTopicSub(env, s3, name), name));
            g in t.clients && t.clients[g] == s1.clients[g] && name in t.topics && t.topics[name] == s1.topics[name] &&
            t.ownPublishers == s1.ownPublishers && NamedRight(t.topics)
  {
    hide Introduce, SetMeta, IsSubscribed, Untouched, TopicSub, TopicPub, IsMeta;
    MetaNames(name);
    assert IsMeta(SERVER_PUB) by { ServerPubIsMeta(); }
    var c := s1.clients[g];
    var meta := BinV(MsgpackBin, []);
    var sub, pub := TopicSub(name), TopicPub(name);
    IntroducePassesBy(s1, sub, meta, META_PROPERTIES, g);
    IntroducePlace(s1, sub, meta, META_PROPERTIES);
    var s2 := IntroduceMeta(s1, sub);
    UntouchedIs(s1, s2, g, c);
    IntroducePassesBy(s2, pub, meta, META_PROPERTIES, g);
    IntroducePlace(s2, pub, meta, META_PROPERTIES);
    var s3 := IntroduceMeta(s2, pub);
    UntouchedIs(s2, s3, g, c);
    RefreshPassesBy(env, s3, sub, env.enc.topicSubscriptions(Interests(s3.clients, name)), g, name);
    var s4 := UpdateTopicSub(env, s3, name);
    RefreshPassesBy(env, s4, pub, env.enc.topicPublishers(Supplies(s4.clients, name)), g, name);
    var s5 := UpdateTopicPub(env, s4, name);
    RefreshPassesBy(env, s5, SERVER_PUB, env.enc.publishers(s5.ownPublishers), g, name);
  }

  lemma ServerPubIsMeta()
    ensures IsMeta(SERVER_PUB)
  {
  }

  lemma RefreshPassesBy(env: Env, s: Server, meta: string, content: seq<Bytes.byte>, g: Guid, name: string)
    requires NamedRight(s.topics) && g in s.clients && meta !in s.clients[g].topicData && name in s.topics && name != meta
    ensures var t := SetMeta(env, s, meta, content);
            NamedRight(t.topics) && g in t.clients && t.clients[g] == s.clients[g] && name in t.topics &&
            t.topics[name] == s.topics[name] && t.ownPublishers == s.ownPublishers
  {
    hide SetMeta;
    SetMetaPassesBy(env, s, meta, content, g);
    SetMetaPlace(env, s, meta, content);
  }

  /** A new topic published by a local call: the client is announced it, and nothing else. */
  lemma LocalPublishAnnounces(env: Env, s: Server, pubuid: int, name: string, t: NTType, p: Properties, g: Guid)
    requires NamedRight(s.topics) && g in s.clients && name !in s.topics && !IsMeta(name)
    requires OnlyInterest(s.clients[g], name) && s.clients[g].topicData == map[]
    ensures var u := LocalPublish(env, s, pubuid, name, t, p);
            var topic := Topic(name, Default(t), p, p.cached);
            g in u.clients && u.clients[g] == AnnounceTopic(s.clients[g], topic, Nothing) && NamedRight(u.topics) &&
            name in u.topics && u.topics[name] == topic && pubuid in u.ownPublishers && u.ownPublishers[pubuid].topic == name
  {
    hide AnnounceTopic, IsSubscribed, Introduce, IntroduceMeta, SetMeta, Default, IsMeta;
    var s0 := s.(ownPublishers := s.ownPublishers[pubuid := Publisher(pubuid, name)]);
    AnnouncedToOne(s0, name, Default(t), p, g);
    IntroducePlace(s0, name, Default(t), p);
    AnnouncedOnly(s.clients[g], Topic(name, Default(t), p, p.cached));
    MetaTopicsPassBy(env, Introduce(s0, name, Default(t), p, Nothing), name, g);
  }

  // ------------------------------------------------------------ updating and flushing

  /** Announced, updated and flushed: the record is on the wire, the announcement is not. */
  lemma RecordLeavesFirst(c: Client, t: Topic, u: Topic, time: nat)
    requires c.text.cached == [] && c.binary.cached == [] && c.log.updates == [] && c.log.texts == []
    requires t.name !in c.topicData && u.name == t.name && IsSubscribed(c.subscriptions, t.name, true)
    ensures var x := TextMessage(Announce(t.name, c.nextTopicId, TypeName(TypeOf(t.value)), Nothing, t.properties));
            var y := Update(t.name, RecordOf(c.nextTopicId, time, u.value));
            var d := FlushBinary(FanOut(AnnounceTopic(c, t, Nothing), u, time));
            d.log == Log(c.log.wire + [y], [x], []) && d.queue == c.queue + [x] + [y] &&
            d.binary == Batch(c.binary.sent + [[EncRecord(y.record)]], [])
  {
    hide IsSubscribed, Render, EncRecord, TypeName, TypeOf;
    var text := Announce(t.name, c.nextTopicId, TypeName(TypeOf(t.value)), Nothing, t.properties);
    var bytes := EncRecord(RecordOf(c.nextTopicId, time, u.value));
    FirstInCache(TEXT, c.text, Render(text));
    FirstInCache(BINARY, c.binary, bytes);
    assert [] + [TextMessage(text)] == [TextMessage(text)] && [] + [bytes] == [bytes];
  }

  lemma UpdateAlone(x: Queued)
    requires x.Update?
    ensures !WireOrdered([] + [x])
  {
    Last([], x);
    assert Bindings([]) == map[];
  }

  // ------------------------------------------------------------ the run

  /** The names in some order. */
  ghost function Listed(names: set<string>): (r: seq<string>)
    ensures multiset(r) == multiset(names)
  {
    if names == {} then []
    else
      var n :| n in names;
      assert multiset(names) == multiset(names - {n}) + multiset{n};
      Listed(names - {n}) + [n]
  }

  const TO_X := Subscription(1, ["x"], SubscriptionOptions(100, false, false, false))

  function Connecting(): Input { Input(0, [], ConnectEvent(0, "a")) }
  ghost function Subscribing(enc: Encoders): Input {
    Input(0, Listed(Run(enc, [Connecting()]).topics.Keys), SubscribeEvent(0, TO_X))
  }
  function Ending(): Input { Input(0, [], EndOfTextEvent(0)) }
  function Publishing(v: NTValue, p: Properties): Input { Input(0, [], LocalPublishEvent(1, "x", TypeOf(v), p)) }
  function Updating(v: NTValue): Input { Input(0, [], LocalUpdateEvent(1, v, 7)) }
  function Flushing(): Input { Input(0, [], FlushEvent) }

  lemma OnlyX(n: string)
    ensures IsSubscribed(map[1 := TO_X], n, false) <==> n == "x"
  {
    if n == "x" { Covered(); }
  }

  lemma Covered()
    ensures IsSubscribed(map[1 := TO_X], "x", true)
  {
    var subs := map[1 := TO_X];
    assert "x" in TO_X.topics && Matches("x", false, "x");
    assert 1 in subs && Covers(subs[1], "x");
  }

  /** The client has subscribed, and there is no such topic yet. */
  predicate Ready(s: Server) {
    Sane(s) && NamedRight(s.topics) && 0 in s.clients && Quiet(s.clients[0], map[1 := TO_X]) && "x" !in s.topics
  }

  function TopicX(v: NTValue, p: Properties): Topic {
    Topic("x", v, p, p.cached)
  }

  /** A value that a topic of its type takes over as it is. */
  predicate Writable(v: NTValue) {
    Known(TypeOf(v)) && Valid(v) && Assign(Default(TypeOf(v)), v) == v
  }

  function Subscriber(name: string): Client {
    NewClient(name).(subscriptions := map[1 := TO_X])
  }

  predicate Offering(s: Server, v: NTValue, p: Properties) {
    Sane(s) && NamedRight(s.topics) && 0 in s.clients && "x" in s.topics && s.topics["x"] == TopicX(Default(TypeOf(v)), p) &&
    1 in s.ownPublishers && s.ownPublishers[1].topic == "x" &&
    s.clients[0] == AnnounceTopic(Subscriber(s.clients[0].name), TopicX(Default(TypeOf(v)), p), Nothing)
  }

  predicate Written(s: Server, v: NTValue, p: Properties) {
    Sane(s) && 0 in s.clients &&
    s.clients[0] == FanOut(AnnounceTopic(Subscriber(s.clients[0].name), TopicX(Default(TypeOf(v)), p), Nothing), TopicX(v, p), 7)
  }

  lemma Connected(enc: Encoders)
    ensures var s := Step(Env(enc, 0, []), Start(enc), Connecting().event);
            Sane(s) && NamedRight(s.topics) && 0 in s.clients && Quiet(s.clients[0], map[]) &&
            (forall n :: n in s.topics ==> IsMeta(n))
  {
    hide Connect, Sane, IsMeta, Quiet;
    StartSane(enc);
    StepFailsIff(enc, Start(enc), Connecting());
    SaneRuns(Start(enc));
    ConnectIsQuiet(Env(enc, 0, []), Start(enc), 0, "a");
    ConnectShape(Env(enc, 0, []), Start(enc), 0, "a");
    StartIsMeta(enc);
  }

  lemma StartIsMeta(enc: Encoders)
    ensures forall n :: n in Start(enc).topics ==> IsMeta(n)
    ensures NamedRight(Start(enc).topics)
  {
  }

  lemma Subscribed(enc: Encoders, s: Server, order: seq<string>)
    requires Sane(s) && NamedRight(s.topics) && 0 in s.clients && Quiet(s.clients[0], map[])
    requires multiset(order) == multiset(s.topics.Keys) && forall n :: n in s.topics ==> IsMeta(n)
    ensures Ready(Step(Env(enc, 0, order), s, SubscribeEvent(0, TO_X)))
  {
    hide Subscribe, Sane, IsMeta, Quiet, IsSubscribed;
    StepFailsIff(enc, s, Input(0, order, SubscribeEvent(0, TO_X)));
    SaneRuns(s);
    DollarX();
    forall n | n in s.topics ensures !IsSubscribed(map[1 := TO_X], n, false) {
      OnlyX(n);
    }
    SubscribeIsQuiet(Env(enc, 0, order), s, 0, TO_X);
  }

  lemma NothingToVisit(s: Server)
    requires Ready(s)
    ensures Sound(s, Ending())
  {
    hide Sane;
    assert s.clients[0].topicData == map[];
  }

  lemma Ended(enc: Encoders, s: Server)
    requires Ready(s)
    ensures Ready(Step(Env(enc, 0, []), s, Ending().event))
  {
    hide EndOfText, Sane;
    NothingToVisit(s);
    StepFailsIff(enc, s, Ending());
    SaneRuns(s);
    EndOfTextIsQuiet(Env(enc, 0, []), s, 0);
  }

  lemma AnnounceKeepsName(c: Client, t: Topic)
    ensures AnnounceTopic(c, t, Nothing).name == c.name
    ensures forall u: Topic, time: nat :: FanOut(c, u, time).name == c.name
  {
    hide Render, Put, Leaves, IsSubscribed, EncRecord;
  }

  lemma Offered(enc: Encoders, s: Server, v: NTValue, p: Properties)
    requires Ready(s) && Writable(v)
    ensures Offering(Step(Env(enc, 0, []), s, Publishing(v, p).event), v, p)
  {
    hide LocalPublish, Sane, IsMeta, IsSubscribed, AnnounceTopic, FanOut;
    StepFailsIff(enc, s, Publishing(v, p));
    SaneRuns(s);
    DollarX();
    forall n ensures IsSubscribed(s.clients[0].subscriptions, n, false) <==> n == "x" {
      OnlyX(n);
    }
    LocalPublishAnnounces(Env(enc, 0, []), s, 1, "x", TypeOf(v), p, 0);
    AnnounceKeepsName(Subscriber(s.clients[0].name), TopicX(Default(TypeOf(v)), p));
  }

  lemma LocalUpdateIs(s: Server, pubuid: int, name: string, v: NTValue, time: nat, g: Guid)
    requires pubuid in s.ownPublishers && s.ownPublishers[pubuid].topic == name && name in s.topics && Valid(v) && g in s.clients
    ensures var t := LocalUpdate(s, pubuid, v, time);
            g in t.clients &&
            t.clients[g] == FanOut(s.clients[g], s.topics[name].(value := Assign(s.topics[name].value, v)), time)
  {
    hide FanOut, Assign;
  }

  lemma Updated(enc: Encoders, s: Server, v: NTValue, p: Properties)
    requires Offering(s, v, p) && Writable(v)
    ensures Written(Step(Env(enc, 0, []), s, Updating(v).event), v, p)
  {
    hide LocalUpdate, Sane, AnnounceTopic, FanOut;
    StepFailsIff(enc, s, Updating(v));
    SaneRuns(s);
    LocalUpdateIs(s, 1, "x", v, 7, 0);
    AnnounceKeepsName(s.clients[0], TopicX(Default(TypeOf(v)), p));
  }

  function TheUpdate(v: NTValue): Queued {
    Update("x", RecordOf(0, 7, v))
  }

  function TheAnnouncement(v: NTValue, p: Properties): Queued {
    TextMessage(Announce("x", 0, TypeName(TypeOf(v)), Nothing, p))
  }

  /** The record has left, and the announcement waits. */
  predicate Holds(c: Client, v: NTValue, p: Properties) {
    c.log == Log([TheUpdate(v)], [TheAnnouncement(v, p)], []) && c.queue == [TheAnnouncement(v, p), TheUpdate(v)] &&
    c.binary == Batch([[EncRecord(RecordOf(0, 7, v))]], [])
  }

  lemma Flushed(enc: Encoders, s: Server, v: NTValue, p: Properties)
    requires Written(s, v, p)
    ensures var t := Step(Env(enc, 0, []), s, Flushing().event);
            !t.failed && 0 in t.clients &&
            Holds(t.clients[0], v, p)
  {
    hide Sane, AnnounceTopic, FanOut, FlushBinary, IsSubscribed, TypeName, EncRecord;
    StepFailsIff(enc, s, Flushing());
    SaneRuns(s);
    SaneRuns(Step(Env(enc, 0, []), s, Flushing().event));
    Covered();
    RecordLeavesFirst(Subscriber(s.clients[0].name), TopicX(Default(TypeOf(v)), p), TopicX(v, p), 7);
  }

  ghost function ReadyRun(enc: Encoders): seq<Input> {
    [Connecting()] + [Subscribing(enc)] + [Ending()]
  }

  ghost function OvertakingRun(enc: Encoders, v: NTValue, p: Properties): seq<Input> {
    ReadyRun(enc) + [Publishing(v, p)] + [Updating(v)] + [Flushing()]
  }

  lemma NoInput(enc: Encoders)
    ensures SoundRun(enc, []) && Run(enc, []) == Start(enc)
  {
    hide Start;
  }

  lemma RunIsReady(enc: Encoders)
    ensures SoundRun(enc, ReadyRun(enc)) && Ready(Run(enc, ReadyRun(enc)))
  {
    hide Step, Sane, Start, IsMeta, Quiet, Ready, Listed, Run, SoundRun, NamedRight;
    var r1 := [Connecting()];
    var r2 := r1 + [Subscribing(enc)];
    assert [] + [Connecting()] == r1;
    NoInput(enc);
    OneMore(enc, [], Connecting());
    Connected(enc);
    OneMore(enc, r1, Subscribing(enc));
    Subscribed(enc, Run(enc, r1), Subscribing(enc).order);
    OneMore(enc, r2, Ending());
    NothingToVisit(Run(enc, r2));
    Ended(enc, Run(enc, r2));
  }

  /** A client connects and subscribes to "x"; the program publishes "x", writes a value and flushes. The record is
      on the wire, and the announcement of its id is not. */
  lemma LocalUpdateOvertakes(enc: Encoders, v: NTValue, p: Properties)
    requires Writable(v)
    ensures var s := Run(enc, OvertakingRun(enc, v, p));
            SoundRun(enc, OvertakingRun(enc, v, p)) && !s.failed && 0 in s.clients && Holds(s.clients[0], v, p) &&
            !WireOrdered(s.clients[0].log.wire)
  {
    hide Step, Ready, Offering, Written, WireOrdered, Run, SoundRun, ReadyRun, Writable, TypeName, EncRecord;
    var r3 := ReadyRun(enc);
    var r4 := r3 + [Publishing(v, p)];
    var r5 := r4 + [Updating(v)];
    RunIsReady(enc);
    OneMore(enc, r3, Publishing(v, p));
    assert Known(TypeOf(v)) by { WritableIsKnown(v); }
    Offered(enc, Run(enc, r3), v, p);
    OneMore(enc, r4, Updating(v));
    Updated(enc, Run(enc, r4), v, p);
    OneMore(enc, r5, Flushing());
    Flushed(enc, Run(enc, r5), v, p);
    UpdateAlone(TheUpdate(v));
    assert [] + [TheUpdate(v)] == [TheUpdate(v)];
  }

  lemma WritableIsKnown(v: NTValue)
    requires Writable(v)
    ensures Known(TypeOf(v))
  {
  }
}
