/** Exactly which entries about a topic each event adds for a client, and so, over a whole run, all of them. */
module NtGains {
  import opened NtValues
  import opened Maybes
  import opened NtClient
  import opened NtClientLaws
  import opened NtServer
  import opened NtServerInvariant
  import opened NtNames
  import opened NtViews

  // ------------------------------------------------------------ what an event is to add

  function Announcement(t: Topic, id: nat, pubuid: Maybe<int>): Queued {
    TextMessage(Announce(t.name, id, TypeName(TypeOf(t.value)), pubuid, t.properties))
  }

  /** The announcement of a new topic: to its publisher, with the pubuid, and to subscribers. */
  function NewTopic(c: Client, t: Topic, id: nat, pubuid: Maybe<int>): seq<Queued> {
    if pubuid.Just? || IsSubscribed(c.subscriptions, t.name, false) then [Announcement(t, id, pubuid)] else []
  }

  function NewProperties(c: Client, n: string, p: Properties, ack: bool): seq<Queued> {
    if IsSubscribed(c.subscriptions, n, false) then [TextMessage(PropertyUpdate(n, ack, p))] else []
  }

  /** The value that the topic then holds, for a client that is due, if the publisher is one of this topic. */
  function NewValue(s: Server, c: Client, pubs: map<int, Publisher>, pubuid: int, v: NTValue, time: nat, n: string): seq<Queued> {
    if pubuid in pubs && pubs[pubuid].topic == n && n in s.topics && Valid(v) &&
       n in c.topicData && (c.topicData[n].initialPublish || IsSubscribed(c.subscriptions, n, true))
    then [Update(n, RecordOf(c.topicData[n].id, time, Assign(s.topics[n].value, v)))] else []
  }

  /** What the event adds to what the client h is sent about the topic n; the id is the one it then has for it. */
  function Gain(env: Env, s: Server, e: Event, h: Guid, n: string, id: nat): seq<Queued>
    requires h in s.clients
  {
    var c := s.clients[h];
    match e
    case SubscribeEvent(g, sub) =>
      if g == h && n in s.topics && s.topics[n].properties.cached && n !in c.topicData &&
         IsSubscribed(c.subscriptions[sub.uid := sub], n, false)
      then [Announcement(s.topics[n], id, Nothing)] else []
    case PublishEvent(g, pubuid, name, typeName, p) =>
      if name != n || g !in s.clients then []
      else if n !in s.topics then
        NewTopic(c, Topic(n, Default(ParseTypeName(typeName)), p, p.cached), id, if g == h then Just(pubuid) else Nothing)
      else if g == h then [Announcement(s.topics[n], id, Just(pubuid))]
      else []
    case LocalPublishEvent(_, name, t, p) =>
      if name != n || n in s.topics then [] else NewTopic(c, Topic(n, Default(t), p, p.cached), id, Nothing)
    case SetPropertiesEvent(g, name, persistent, retained, cached) =>
      if name != n || n !in s.topics then []
      else
        var p := s.topics[n].properties;
        NewProperties(c, n, Properties(if persistent.Just? then persistent.value else p.persistent,
          if retained.Just? then retained.value else p.retained, if cached.Just? then cached.value else p.cached), g == h)
    case LocalSetPropertiesEvent(name, p) =>
      if name != n || n !in s.topics then [] else NewProperties(c, n, p, false)
    case EndOfTextEvent(g) =>
      if g == h && n in s.topics && n in c.topicData && !c.topicData[n].initialPublish && IsSubscribed(c.subscriptions, n, true)
      then [Update(n, RecordOf(c.topicData[n].id, env.now, s.topics[n].value))] else []
    case ValueEvent(g, uid, v) =>
      if uid == -1 || g !in s.clients then [] else NewValue(s, c, s.clients[g].publishers, ToInt32(uid), v, env.now, n)
    case LocalUpdateEvent(pubuid, v, time) => NewValue(s, c, s.ownPublishers, pubuid, v, time, n)
    case _ => []
  }

  function IdIn(c: Client, n: string): nat {
    if n in c.topicData then c.topicData[n].id else 0
  }

  // ------------------------------------------------------------ what the events add

  /** What is queued for the client about the topic grows by this, and it has the topic under this id. */
  predicate Gains(s: Server, t: Server, h: Guid, n: string, gain: seq<Queued>, id: nat) {
    h in s.clients && h in t.clients && EntriesFor(t.clients[h].queue, n) == EntriesFor(s.clients[h].queue, n) + gain &&
    IdIn(t.clients[h], n) == id
  }

  lemma GainsNothing(s: Server, t: Server, h: Guid, n: string)
    requires LeavesAlone(s, t, n) && h in s.clients
    ensures Gains(s, t, h, n, [], IdIn(s.clients[h], n))
    ensures h in t.clients && IdIn(t.clients[h], n) == IdIn(s.clients[h], n)
  {
    hide EntriesFor;
    assert SameView(s.clients[h], t.clients[h], n);
  }

  lemma GainsAndStays(s: Server, t: Server, u: Server, h: Guid, n: string, gain: seq<Queued>, id: nat)
    requires Gains(s, t, h, n, gain, id) && LeavesAlone(t, u, n)
    ensures Gains(s, u, h, n, gain, id)
  {
    hide EntriesFor;
    assert SameView(t.clients[h], u.clients[h], n);
  }

  lemma StaysAndGains(s: Server, t: Server, u: Server, h: Guid, n: string, gain: seq<Queued>, id: nat)
    requires LeavesAlone(s, t, n) && h in s.clients && Gains(t, u, h, n, gain, id)
    ensures Gains(s, u, h, n, gain, id)
  {
    hide EntriesFor;
    assert SameView(s.clients[h], t.clients[h], n);
  }

  lemma FanOutGains(c: Client, t: Topic, time: nat)
    ensures var d := FanOut(c, t, time);
            EntriesFor(d.queue, t.name) == EntriesFor(c.queue, t.name) +
              (if WantsUpdate(c, t.name) then [Update(t.name, RecordOf(c.topicData[t.name].id, time, t.value))] else []) &&
            IdIn(d, t.name) == IdIn(c, t.name)
  {
    hide EntriesFor, IsSubscribed, EncRecord;
    if WantsUpdate(c, t.name) {
      OneMoreEntry(c.queue, Update(t.name, RecordOf(c.topicData[t.name].id, time, t.value)), t.name);
    }
  }

  lemma NotifyGains(c: Client, t: Topic, ack: bool)
    ensures var d := Notify(c, t, ack);
            EntriesFor(d.queue, t.name) == EntriesFor(c.queue, t.name) + NewProperties(c, t.name, t.properties, ack) &&
            IdIn(d, t.name) == IdIn(c, t.name)
  {
    hide EntriesFor, IsSubscribed, Render;
    OneMoreEntry(c.queue, TextMessage(PropertyUpdate(t.name, ack, t.properties)), t.name);
  }

  lemma AnnounceGains(c: Client, t: Topic, pubuid: Maybe<int>)
    ensures var d := AnnounceTopic(c, t, pubuid);
            t.name in d.topicData && d.subscriptions == c.subscriptions &&
            (t.name in c.topicData ==> IdIn(d, t.name) == IdIn(c, t.name)) &&
            EntriesFor(d.queue, t.name) == EntriesFor(c.queue, t.name) +
              (if t.name in c.topicData && pubuid.Nothing? then [] else [Announcement(t, IdIn(d, t.name), pubuid)])
  {
    hide EntriesFor, Render, TypeName, TypeOf;
    var d := WithId(c, t.name);
    OneMoreEntry(c.queue, TextMessage(AnnounceText(d, t, pubuid)), t.name);
  }

  /** A value assigned to the topic or to another one. */
  lemma AssignGains(s: Server, pubs: map<int, Publisher>, pubuid: int, v: NTValue, time: nat, h: Guid, n: string)
    requires NamedRight(s.topics) && h in s.clients
    ensures var t := if pubuid in pubs then AssignTopic(s, pubs[pubuid].topic, v, time) else s;
            NamedRight(t.topics) && Gains(s, t, h, n, NewValue(s, s.clients[h], pubs, pubuid, v, time, n), IdIn(s.clients[h], n))
  {
    hide EntriesFor, IsSubscribed, Assign, FanOut, IdIn;
    if pubuid in pubs && pubs[pubuid].topic in s.topics && Valid(v) {
      var name := pubs[pubuid].topic;
      var topic := s.topics[name].(value := Assign(s.topics[name].value, v));
      if name == n {
        FanOutGains(s.clients[h], topic, time);
      } else {
        OtherTopic(s.clients[h], topic, Nothing, time, false, n);
        SameId(s.clients[h], FanOut(s.clients[h], topic, time), n);
      }
    }
  }

  lemma SameId(c: Client, d: Client, n: string)
    requires SameView(c, d, n)
    ensures IdIn(c, n) == IdIn(d, n)
  {
  }

  lemma PropertiesGain(s: Server, name: string, p: Properties, updater: Maybe<Guid>, h: Guid, n: string)
    requires NamedRight(s.topics) && h in s.clients && name in s.topics
    ensures Gains(s, NotifyAll(WithProperties(s, name, p), name, updater), h, n,
                  if name == n then NewProperties(s.clients[h], n, p, updater == Just(h)) else [], IdIn(s.clients[h], n))
  {
    hide EntriesFor, Notify, NewProperties, IdIn;
    var topic := s.topics[name].(properties := p, keptCached := s.topics[name].keptCached && p.cached);
    NotifyOneGains(s.clients[h], topic, updater == Just(h), n);
  }

  lemma NotifyOneGains(c: Client, t: Topic, ack: bool, n: string)
    ensures var d := Notify(c, t, ack);
            EntriesFor(d.queue, n) == EntriesFor(c.queue, n) + (if t.name == n then NewProperties(c, n, t.properties, ack) else []) &&
            IdIn(d, n) == IdIn(c, n)
  {
    hide EntriesFor, Notify, NewProperties, IdIn;
    NotifyGains(c, t, ack);
    if t.name != n {
      OtherTopic(c, t, Nothing, 0, ack, n);
      SameId(c, Notify(c, t, ack), n);
    }
  }

  // ------------------------------------------------------------ loops

  predicate InitialDue(c: Client, topics: map<string, Topic>, n: string) {
    n in topics && n in c.topicData && !c.topicData[n].initialPublish && IsSubscribed(c.subscriptions, n, true)
  }

  function InitialGain(c: Client, topics: map<string, Topic>, time: nat, n: string): seq<Queued> {
    if InitialDue(c, topics, n) then [Update(n, RecordOf(c.topicData[n].id, time, topics[n].value))] else []
  }

  /** Of the values that are waited for, those in the order are sent, once. */
  lemma {:induction false} InitialGains(c: Client, topics: map<string, Topic>, order: seq<string>, time: nat, n: string)
    requires NamedRight(topics)
    ensures var d := PublishInitial(c, topics, order, time);
            d.subscriptions == c.subscriptions && IdIn(d, n) == IdIn(c, n) &&
            EntriesFor(d.queue, n) == EntriesFor(c.queue, n) + (if n in order then InitialGain(c, topics, time, n) else []) &&
            (InitialDue(d, topics, n) <==> InitialDue(c, topics, n) && n !in order)
  {
    hide EntriesFor, IsSubscribed, SendUpdate, TypeOf;
    if order == [] {
    } else {
      var init, m := order[..|order| - 1], order[|order| - 1];
      InitialGains(c, topics, init, time, n);
      InitialOneGains(PublishInitial(c, topics, init, time), topics, m, time, n);
      assert order == init + [m];
    }
  }

  lemma InitialOneGains(d: Client, topics: map<string, Topic>, m: string, time: nat, n: string)
    requires NamedRight(topics)
    ensures var e := InitialOne(d, topics, m, time);
            e.subscriptions == d.subscriptions && IdIn(e, n) == IdIn(d, n) &&
            EntriesFor(e.queue, n) == EntriesFor(d.queue, n) + (if n == m then InitialGain(d, topics, time, n) else []) &&
            (InitialDue(e, topics, n) <==> InitialDue(d, topics, n) && n != m)
  {
    hide EntriesFor, IsSubscribed, EncRecord;
    if InitialDue(d, topics, m) {
      OneMoreEntry(d.queue, Update(m, RecordOf(d.topicData[m].id, time, topics[m].value)), n);
    }
  }

  predicate AnnounceDue(c: Client, topics: map<string, Topic>, n: string) {
    n in topics && topics[n].properties.cached && n !in c.topicData && IsSubscribed(c.subscriptions, n, false)
  }

  lemma {:induction false} CachedGains(c: Client, topics: map<string, Topic>, order: seq<string>, n: string)
    requires NamedRight(topics)
    ensures var d := AnnounceCached(c, topics, order);
            d.subscriptions == c.subscriptions && (n in c.topicData ==> n in d.topicData && IdIn(d, n) == IdIn(c, n)) &&
            EntriesFor(d.queue, n) == EntriesFor(c.queue, n) +
              (if n in order && AnnounceDue(c, topics, n) then [Announcement(topics[n], IdIn(d, n), Nothing)] else []) &&
            (AnnounceDue(d, topics, n) <==> AnnounceDue(c, topics, n) && n !in order)
  {
    hide EntriesFor, IsSubscribed, AnnounceTopic, Announcement;
    if order == [] {
    } else {
      var init, m := order[..|order| - 1], order[|order| - 1];
      CachedGains(c, topics, init, n);
      var d := AnnounceCached(c, topics, init);
      assert order == init + [m];
      if m in topics {
        if m == n {
          AnnounceGains(d, topics[m], Nothing);
        } else {
          OtherTopic(d, topics[m], Nothing, 0, false, n);
        }
      }
    }
  }

  // ------------------------------------------------------------ events

  lemma SameOrder(order: seq<string>, names: set<string>, n: string)
    requires multiset(order) == multiset(names)
    ensures n in order <==> n in names
  {
    assert n in order <==> n in multiset(order);
  }

  lemma WithSubscriptionsLeaves(s: Server, g: Guid, subs: map<int, Subscription>, h: Guid, n: string)
    requires g in s.clients && h in s.clients
    ensures Gains(s, WithSubscriptions(s, g, subs), h, n, [], IdIn(s.clients[h], n))
  {
    hide EntriesFor;
  }

  lemma InitialValuesGain(env: Env, s: Server, g: Guid, h: Guid, n: string)
    requires NamedRight(s.topics) && h in s.clients
    ensures var gain := if g == h && n in env.order then InitialGain(s.clients[h], s.topics, env.now, n) else [];
            NamedRight(InitialValues(env, s, g).topics) && Gains(s, InitialValues(env, s, g), h, n, gain, IdIn(s.clients[h], n))
  {
    hide EntriesFor, PublishInitial, InitialGain, IdIn;
    if g in s.clients {
      InitialGains(s.clients[g], s.topics, env.order, env.now, n);
    }
  }

  lemma EndOfTextGains(env: Env, s: Server, g: Guid, h: Guid, n: string)
    requires NamedRight(s.topics) && h in s.clients
    requires g in s.clients ==> multiset(env.order) == multiset(s.clients[g].topicData.Keys)
    ensures Gains(s, EndOfText(env, s, g), h, n, if g == h then InitialGain(s.clients[h], s.topics, env.now, n) else [], IdIn(s.clients[h], n))
  {
    hide FlushTextAll, FlushBinaryAll, InitialValues, EntriesFor, Gains, LeavesAlone, IdIn, InitialGain;
    var s1 := FlushTextAll(s);
    FlushLeaves(s, n);
    StaysNamed(s, s1, n);
    AfterFlushing(s, h, n, env.now);
    var s2 := InitialValues(env, s1, g);
    InitialValuesGain(env, s1, g, h, n);
    FlushLeaves(s2, n);
    if g == h {
      SameOrder(env.order, s.clients[g].topicData.Keys, n);
      NotDue(s.clients[h], s.topics, env.now, n);
    }
    var gain := if g == h then InitialGain(s.clients[h], s.topics, env.now, n) else [];
    StaysAndGains(s, s1, s2, h, n, gain, IdIn(s.clients[h], n));
    GainsAndStays(s, s2, FlushBinaryAll(s2), h, n, gain, IdIn(s.clients[h], n));
  }

  lemma NotDue(c: Client, topics: map<string, Topic>, time: nat, n: string)
    ensures n !in c.topicData ==> InitialGain(c, topics, time, n) == []
  {
  }

  lemma AfterFlushing(s: Server, h: Guid, n: string, time: nat)
    requires h in s.clients
    ensures var t := FlushTextAll(s);
            h in t.clients && InitialGain(t.clients[h], t.topics, time, n) == InitialGain(s.clients[h], s.topics, time, n) &&
            IdIn(t.clients[h], n) == IdIn(s.clients[h], n)
  {
  }

  lemma AnnounceCachedGain(env: Env, s: Server, g: Guid, h: Guid, n: string)
    requires NamedRight(s.topics) && h in s.clients && multiset(env.order) == multiset(s.topics.Keys)
    ensures var t := AnnounceCachedTo(env, s, g);
            h in t.clients &&
            Gains(s, t, h, n, if g == h && AnnounceDue(s.clients[h], s.topics, n)
                              then [Announcement(s.topics[n], IdIn(t.clients[h], n), Nothing)] else [], IdIn(t.clients[h], n))
  {
    hide EntriesFor, AnnounceCached, Announcement, IdIn, IsSubscribed;
    SameOrder(env.order, s.topics.Keys, n);
    if g in s.clients {
      CachedGains(s.clients[g], s.topics, env.order, n);
    }
  }

  lemma SubscribeGains(env: Env, s: Server, g: Guid, sub: Subscription, h: Guid, n: string)
    requires NamedRight(s.topics) && h in s.clients && !IsMeta(n) && multiset(env.order) == multiset(s.topics.Keys)
    ensures var t := Subscribe(env, s, g, sub);
            var id := if h in t.clients then IdIn(t.clients[h], n) else 0;
            Gains(s, t, h, n, Gain(env, s, SubscribeEvent(g, sub), h, n, id), id)
  {
    hide EntriesFor, UpdateClientSub, UpdateCovered, AnnounceCachedTo, Announcement, IsMeta, IsSubscribed, LeavesAlone, IdIn;
    if g in s.clients {
      var subs := s.clients[g].subscriptions[sub.uid := sub];
      var s1 := WithSubscriptions(s, g, subs);
      WithSubscriptionsLeaves(s, g, subs, h, n);
      RefreshesLeave(env, s1, g, "", n);
      var s2 := UpdateClientSub(env, s1, g);
      StaysNamed(s1, s2, n);
      CoveredLeaves(env, s2, sub, env.order, n);
      var s3 := UpdateCovered(env, s2, sub, env.order);
      StaysNamed(s2, s3, n);
      LeavesTwice(s1, s2, s3, n);
      SameTopicNames(env, s1, g, sub);
      SubscribedView(s1, s3, h, n);
      AnnounceCachedGain(env, s3, g, h, n);
    } else {
      NothingGained(s, h, n);
    }
  }

  lemma NothingGained(s: Server, h: Guid, n: string)
    requires h in s.clients
    ensures Gains(s, s, h, n, [], IdIn(s.clients[h], n))
  {
  }

  lemma SubscribedView(s: Server, t: Server, h: Guid, n: string)
    requires LeavesAlone(s, t, n) && h in s.clients
    ensures h in t.clients && EntriesFor(t.clients[h].queue, n) == EntriesFor(s.clients[h].queue, n)
    ensures AnnounceDue(t.clients[h], t.topics, n) <==> AnnounceDue(s.clients[h], s.topics, n)
    ensures n in s.topics ==> n in t.topics && t.topics[n] == s.topics[n]
  {
    hide EntriesFor, IsSubscribed;
    assert SameView(s.clients[h], t.clients[h], n);
  }

  lemma SameTopicNames(env: Env, s: Server, g: Guid, sub: Subscription)
    ensures UpdateCovered(env, UpdateClientSub(env, s, g), sub, env.order).topics.Keys == s.topics.Keys
  {
    hide SetMeta;
    CoveredKeepsTopics(env, UpdateClientSub(env, s, g), sub, env.order);
    SetMetaKeepsTopics();
  }

  lemma SetMetaKeepsTopics()
    ensures forall env, s: Server, name, content :: SetMeta(env, s, name, content).topics.Keys == s.topics.Keys
  {
    hide FanOut, WithBin;
  }

  lemma {:induction false} CoveredKeepsTopics(env: Env, s: Server, sub: Subscription, order: seq<string>)
    ensures UpdateCovered(env, s, sub, order).topics.Keys == s.topics.Keys
  {
    hide SetMeta, Covers, IsMeta;
    SetMetaKeepsTopics();
    if order == [] {
    } else {
      CoveredKeepsTopics(env, s, sub, order[..|order| - 1]);
    }
  }

  lemma UnsubscribeGains(env: Env, s: Server, g: Guid, subuid: int, h: Guid, n: string)
    requires NamedRight(s.topics) && h in s.clients && !IsMeta(n)
    ensures Gains(s, Unsubscribe(env, s, g, subuid), h, n, [], IdIn(s.clients[h], n))
  {
    hide Gains, UpdateClientSub, UpdateCovered, IsMeta, LeavesAlone, IdIn;
    NothingGained(s, h, n);
    if g in s.clients && subuid in s.clients[g].subscriptions {
      var subs := s.clients[g].subscriptions - {subuid};
      var s1 := WithSubscriptions(s, g, subs);
      WithSubscriptionsLeaves(s, g, subs, h, n);
      RefreshesLeave(env, s1, g, "", n);
      var s2 := UpdateClientSub(env, s1, g);
      StaysNamed(s1, s2, n);
      CoveredLeaves(env, s2, s.clients[g].subscriptions[subuid], env.order, n);
      LeavesTwice(s1, s2, UpdateCovered(env, s2, s.clients[g].subscriptions[subuid], env.order), n);
      GainsAndStays(s, s1, Unsubscribe(env, s, g, subuid), h, n, [], IdIn(s.clients[h], n));
    }
  }

  lemma ValueGains(env: Env, s: Server, g: Guid, id: int, v: NTValue, h: Guid, n: string)
    requires NamedRight(s.topics) && h in s.clients
    ensures Gains(s, Value(env, s, g, id, v), h, n, Gain(env, s, ValueEvent(g, id, v), h, n, 0), IdIn(s.clients[h], n))
  {
    hide Gains, AssignTopic, FlushBinaryAll, ToInt32, NewValue, LeavesAlone, IdIn;
    NothingGained(s, h, n);
    if id != -1 && g in s.clients {
      var pubs := s.clients[g].publishers;
      AssignGains(s, pubs, ToInt32(id), v, env.now, h, n);
      var s1 := if ToInt32(id) in pubs then AssignTopic(s, pubs[ToInt32(id)].topic, v, env.now) else s;
      FlushLeaves(s1, n);
      GainsAndStays(s, s1, FlushBinaryAll(s1), h, n, NewValue(s, s.clients[h], pubs, ToInt32(id), v, env.now, n), IdIn(s.clients[h], n));
    }
  }

  // ------------------------------------------------------------ publishing

  /** The topic itself is introduced. */
  lemma IntroduceGains(s: Server, n: string, v: NTValue, p: Properties, publisher: Maybe<(Guid, int)>, h: Guid)
    requires NamedRight(s.topics) && n !in s.topics && h in s.clients && n !in s.clients[h].topicData
    ensures var t := Introduce(s, n, v, p, publisher);
            var pubuid := if publisher.Just? && publisher.value.0 == h then Just(publisher.value.1) else Nothing;
            NamedRight(t.topics) && h in t.clients &&
            Gains(s, t, h, n, NewTopic(s.clients[h], Topic(n, v, p, p.cached), IdIn(t.clients[h], n), pubuid), IdIn(t.clients[h], n))
  {
    hide EntriesFor, AnnounceTopic, Announcement, IsSubscribed, IdIn;
    var topic := Topic(n, v, p, p.cached);
    AnnounceGains(s.clients[h], topic, Nothing);
    if publisher.Just? { AnnounceGains(s.clients[h], topic, Just(publisher.value.1)); }
  }

  /** publishTopic for a topic that is not there yet. */
  lemma PublishTopicGains(env: Env, s: Server, name: string, v: NTValue, p: Properties, publisher: Maybe<(Guid, int)>, h: Guid, n: string)
    requires NamedRight(s.topics) && name !in s.topics && h in s.clients && !IsMeta(n)
    requires n !in s.topics ==> n !in s.clients[h].topicData
    ensures var t := PublishTopic(env, s, name, v, p, publisher);
            var pubuid := if publisher.Just? && publisher.value.0 == h then Just(publisher.value.1) else Nothing;
            NamedRight(t.topics) && h in t.clients &&
            Gains(s, t, h, n,
                  if name == n then NewTopic(s.clients[h], Topic(n, v, p, p.cached), IdIn(t.clients[h], n), pubuid) else [],
                  IdIn(t.clients[h], n))
  {
    hide Gains, PublishTopic, Introduce, NewTopic, IsMeta, LeavesAlone, IdIn, NamedRight;
    var s1 := Introduce(s, name, v, p, publisher);
    if name == n {
      IntroduceGains(s, n, v, p, publisher, h);
    } else {
      IntroduceLeaves(s, name, v, p, publisher, n);
      StaysNamed(s, s1, n);
      GainsNothing(s, s1, h, n);
    }
    var t := PublishTopic(env, s, name, v, p, publisher);
    PublishTopicLeaves(env, s, name, v, p, publisher, n);
    StaysNamed(s1, t, n);
    SameIdAfter(s1, t, h, n);
    var pubuid := if publisher.Just? && publisher.value.0 == h then Just(publisher.value.1) else Nothing;
    GainsAndStays(s, s1, t, h, n,
                  if name == n then NewTopic(s.clients[h], Topic(n, v, p, p.cached), IdIn(t.clients[h], n), pubuid) else [],
                  IdIn(t.clients[h], n));
  }

  lemma SameIdAfter(s: Server, t: Server, h: Guid, n: string)
    requires LeavesAlone(s, t, n)
    ensures h in s.clients <==> h in t.clients
    ensures h in s.clients ==> IdIn(t.clients[h], n) == IdIn(s.clients[h], n)
  {
    hide EntriesFor;
    if h in s.clients { assert SameView(s.clients[h], t.clients[h], n); }
  }

  lemma LocalPublishGains(env: Env, s: Server, pubuid: int, name: string, type_: NTType, p: Properties, h: Guid, n: string)
    requires NamedRight(s.topics) && h in s.clients && !IsMeta(n) && (n !in s.topics ==> n !in s.clients[h].topicData)
    ensures var t := LocalPublish(env, s, pubuid, name, type_, p);
            h in t.clients &&
            Gains(s, t, h, n, Gain(env, s, LocalPublishEvent(pubuid, name, type_, p), h, n, IdIn(t.clients[h], n)), IdIn(t.clients[h], n))
  {
    hide Gains, PublishTopic, NewTopic, IsMeta, LeavesAlone, IdIn, NamedRight, Default, UpdateServerPub;
    var s1 := s.(ownPublishers := s.ownPublishers[pubuid := Publisher(pubuid, name)]);
    var t := LocalPublish(env, s, pubuid, name, type_, p);
    if name !in s.topics {
      LocallyNew(env, s, s1, name, Default(type_), p, h, n);
    } else {
      RefreshesLeave(env, s1, 0, "", n);
      GainsNothing(s1, t, h, n);
      SameButOwn(s, s1, t, h, n, [], IdIn(s.clients[h], n));
    }
  }

  lemma LocallyNew(env: Env, s: Server, s1: Server, name: string, v: NTValue, p: Properties, h: Guid, n: string)
    requires NamedRight(s.topics) && h in s.clients && !IsMeta(n) && (n !in s.topics ==> n !in s.clients[h].topicData)
    requires name !in s.topics && s1.topics == s.topics && s1.clients == s.clients
    ensures var t := UpdateServerPub(env, PublishTopic(env, s1, name, v, p, Nothing));
            h in t.clients &&
            Gains(s, t, h, n,
                  if name == n then NewTopic(s.clients[h], Topic(n, v, p, p.cached), IdIn(t.clients[h], n), Nothing) else [],
                  IdIn(t.clients[h], n))
  {
    hide Gains, PublishTopic, NewTopic, IsMeta, LeavesAlone, IdIn, NamedRight, UpdateServerPub;
    PublishTopicGains(env, s1, name, v, p, Nothing, h, n);
    var s2 := PublishTopic(env, s1, name, v, p, Nothing);
    var t := UpdateServerPub(env, s2);
    RefreshesLeave(env, s2, 0, "", n);
    SameIdAfter(s2, t, h, n);
    var gain := if name == n then NewTopic(s.clients[h], Topic(n, v, p, p.cached), IdIn(t.clients[h], n), Nothing) else [];
    SameButOwn(s, s1, s2, h, n, gain, IdIn(t.clients[h], n));
    GainsAndStays(s, s2, t, h, n, gain, IdIn(t.clients[h], n));
  }

  lemma SameButOwn(s: Server, s1: Server, t: Server, h: Guid, n: string, gain: seq<Queued>, id: nat)
    requires s1.clients == s.clients && Gains(s1, t, h, n, gain, id)
    ensures Gains(s, t, h, n, gain, id)
  {
  }

  lemma AnnounceToPublisher(s: Server, g: Guid, pubuid: int, name: string, h: Guid, n: string)
    requires NamedRight(s.topics) && g in s.clients && name in s.topics && h in s.clients
    ensures var t := WithClient(s, g, AnnounceTopic(s.clients[g], s.topics[name], Just(pubuid)));
            Gains(s, t, h, n, if name == n && g == h then [Announcement(s.topics[n], IdIn(t.clients[h], n), Just(pubuid))] else [],
                  IdIn(t.clients[h], n))
  {
    hide EntriesFor, AnnounceTopic, Announcement, IdIn;
    AnnounceGains(s.clients[g], s.topics[name], Just(pubuid));
    if name != n {
      OtherTopic(s.clients[g], s.topics[name], Just(pubuid), 0, false, n);
    }
  }

  /** What publishing adds before the meta-topics are refreshed. */
  lemma PublishBegins(env: Env, s: Server, g: Guid, pubuid: int, name: string, typeName: string, p: Properties, h: Guid, n: string)
    requires NamedRight(s.topics) && g in s.clients && h in s.clients && !IsMeta(n)
    requires n !in s.topics ==> n !in s.clients[h].topicData
    ensures var s1 := WithPublishers(s, g, s.clients[g].publishers[pubuid := Publisher(pubuid, name)]);
            var t := if name !in s1.topics
                     then PublishTopic(env, s1, name, Default(ParseTypeName(typeName)), p, Just((g, pubuid)))
                     else WithClient(s1, g, AnnounceTopic(s1.clients[g], s1.topics[name], Just(pubuid)));
            NamedRight(t.topics) && h in t.clients &&
            Gains(s, t, h, n, Gain(env, s, PublishEvent(g, pubuid, name, typeName, p), h, n, IdIn(t.clients[h], n)), IdIn(t.clients[h], n))
  {
    hide Gains, PublishTopic, AnnounceTopic, NewTopic, IsMeta, IdIn, NamedRight, Default, ParseTypeName, Announcement;
    var s1 := WithPublishers(s, g, s.clients[g].publishers[pubuid := Publisher(pubuid, name)]);
    if name !in s1.topics {
      SameNewTopic(s1.clients[h], s.clients[h]);
      PublishTopicGains(env, s1, name, Default(ParseTypeName(typeName)), p, Just((g, pubuid)), h, n);
      var t := PublishTopic(env, s1, name, Default(ParseTypeName(typeName)), p, Just((g, pubuid)));
      SameQueues(s, s1, t, h, n, Gain(env, s, PublishEvent(g, pubuid, name, typeName, p), h, n, IdIn(t.clients[h], n)), IdIn(t.clients[h], n));
    } else {
      AnnounceToPublisher(s1, g, pubuid, name, h, n);
      var t := WithClient(s1, g, AnnounceTopic(s1.clients[g], s1.topics[name], Just(pubuid)));
      SameQueues(s, s1, t, h, n, Gain(env, s, PublishEvent(g, pubuid, name, typeName, p), h, n, IdIn(t.clients[h], n)), IdIn(t.clients[h], n));
    }
  }

  lemma SameNewTopic(c: Client, d: Client)
    requires c.subscriptions == d.subscriptions
    ensures forall t, id, pubuid :: NewTopic(c, t, id, pubuid) == NewTopic(d, t, id, pubuid)
  {
    hide IsSubscribed, Announcement;
  }

  lemma SameQueues(s: Server, s1: Server, t: Server, h: Guid, n: string, gain: seq<Queued>, id: nat)
    requires h in s.clients && h in s1.clients && s1.clients[h].queue == s.clients[h].queue && Gains(s1, t, h, n, gain, id)
    ensures Gains(s, t, h, n, gain, id)
  {
    hide EntriesFor;
  }

  lemma PublishGains(env: Env, s: Server, g: Guid, pubuid: int, name: string, typeName: string, p: Properties, h: Guid, n: string)
    requires NamedRight(s.topics) && h in s.clients && !IsMeta(n) && (n !in s.topics ==> n !in s.clients[h].topicData)
    ensures var t := Publish(env, s, g, pubuid, name, typeName, p);
            h in t.clients &&
            Gains(s, t, h, n, Gain(env, s, PublishEvent(g, pubuid, name, typeName, p), h, n, IdIn(t.clients[h], n)), IdIn(t.clients[h], n))
  {
    hide Gains, PublishTopic, AnnounceTopic, Gain, IsMeta, IdIn, LeavesAlone, NamedRight, Default, ParseTypeName, UpdateClientPub, UpdateTopicPub;
    var e := PublishEvent(g, pubuid, name, typeName, p);
    if g in s.clients {
      var s1 := WithPublishers(s, g, s.clients[g].publishers[pubuid := Publisher(pubuid, name)]);
      var s2 := if name !in s1.topics
                then PublishTopic(env, s1, name, Default(ParseTypeName(typeName)), p, Just((g, pubuid)))
                else WithClient(s1, g, AnnounceTopic(s1.clients[g], s1.topics[name], Just(pubuid)));
      PublishBegins(env, s, g, pubuid, name, typeName, p, h, n);
      var t := UpdateTopicPub(env, UpdateClientPub(env, s2, g), name);
      PublishersLeave(env, s2, g, name, n);
      SameIdAfter(s2, t, h, n);
      GainsAndStays(s, s2, t, h, n, Gain(env, s, e, h, n, IdIn(t.clients[h], n)), IdIn(t.clients[h], n));
    } else {
      NothingGained(s, h, n);
      UnknownGainsNothing(env, s, e, h, n, IdIn(s.clients[h], n));
    }
  }

  lemma UnknownGainsNothing(env: Env, s: Server, e: Event, h: Guid, n: string, id: nat)
    requires e.PublishEvent? && e.g !in s.clients && h in s.clients
    ensures Gain(env, s, e, h, n, id) == []
  {
  }

  lemma UnpublishGains(env: Env, s: Server, g: Guid, pubuid: int, h: Guid, n: string)
    requires NamedRight(s.topics) && h in s.clients && !IsMeta(n)
    ensures Gains(s, Unpublish(env, s, g, pubuid), h, n, [], IdIn(s.clients[h], n))
  {
    hide Gains, IsMeta, LeavesAlone, IdIn, NamedRight, UpdateClientPub, UpdateTopicPub;
    NothingGained(s, h, n);
    if g in s.clients && pubuid in s.clients[g].publishers {
      var name := s.clients[g].publishers[pubuid].topic;
      var s1 := WithPublishers(s, g, s.clients[g].publishers - {pubuid});
      var t := UpdateTopicPub(env, UpdateClientPub(env, s1, g), name);
      PublishersLeave(env, s1, g, name, n);
      GainsNothing(s1, t, h, n);
      SameTable(s.clients[h], s1.clients[h], n);
      SameQueues(s, s1, t, h, n, [], IdIn(s.clients[h], n));
    }
  }

  lemma SameTable(c: Client, d: Client, n: string)
    requires c.topicData == d.topicData
    ensures IdIn(c, n) == IdIn(d, n)
  {
  }

  // ------------------------------------------------------------ connecting

  /** Another client notices nothing of an arrival, and the one that arrives has nothing about the topic. */
  lemma ConnectGains(env: Env, s: Server, g: Guid, requested: string, h: Guid, n: string)
    requires NamedRight(s.topics) && !IsMeta(n) && (h in s.clients || h == g)
    ensures var t := Connect(env, s, g, requested);
            h in t.clients &&
            EntriesFor(t.clients[h].queue, n) == (if h == g then [] else EntriesFor(s.clients[h].queue, n))
  {
    hide IntroduceMeta, UpdateClients, UpdateClientSub, UpdateClientPub, FlushTextOf, FlushBinaryOf, InitialValues, NameFor, IsMeta,
         LeavesAlone, IdIn, Gains, NamedRight, EntriesFor, ClientSub, ClientPub;
    var name := NameFor(s.clients, requested);
    var s1 := WithClient(s, g, NewClient(name));
    ArrivalLeaves(env, s1, g, name, n);
    var s4 := UpdateClients(env, IntroduceMeta(IntroduceMeta(s1, ClientSub(name)), ClientPub(name)));
    var s7 := FlushTextOf(UpdateClientPub(env, UpdateClientSub(env, s4, g), g), g);
    ConnectEnds(env, s1, s7, g, name, h, n);
    assert EntriesFor(NewClient(name).queue, n) == [] by { NothingYet(n); }
  }

  /** Whoever arrives, nothing is queued about an ordinary topic for anybody before the first values. */
  lemma ArrivalLeaves(env: Env, s1: Server, g: Guid, name: string, n: string)
    requires NamedRight(s1.topics) && !IsMeta(n)
    ensures var s4 := UpdateClients(env, IntroduceMeta(IntroduceMeta(s1, ClientSub(name)), ClientPub(name)));
            LeavesAlone(s1, FlushTextOf(UpdateClientPub(env, UpdateClientSub(env, s4, g), g), g), n)
  {
    hide IntroduceMeta, UpdateClients, UpdateClientSub, UpdateClientPub, FlushTextOf, IsMeta, LeavesAlone, NamedRight, ClientSub, ClientPub;
    var s2 := IntroduceMeta(s1, ClientSub(name));
    RefreshesLeave(env, s1, g, name, n);
    StaysNamed(s1, s2, n);
    var s3 := IntroduceMeta(s2, ClientPub(name));
    RefreshesLeave(env, s2, g, name, n);
    StaysNamed(s2, s3, n);
    var s4 := UpdateClients(env, s3);
    RefreshesLeave(env, s3, g, name, n);
    StaysNamed(s3, s4, n);
    var s5 := UpdateClientSub(env, s4, g);
    RefreshesLeave(env, s4, g, name, n);
    StaysNamed(s4, s5, n);
    LeavesFour(s1, s2, s3, s4, s5, n);
    var s6 := UpdateClientPub(env, s5, g);
    RefreshesLeave(env, s5, g, name, n);
    StaysNamed(s5, s6, n);
    FlushOfLeaves(s6, g, n);
    LeavesTwice(s5, s6, FlushTextOf(s6, g), n);
    LeavesTwice(s1, s5, FlushTextOf(s6, g), n);
  }

  lemma NothingYet(n: string)
    ensures EntriesFor([], n) == []
  {
  }

  lemma ConnectEnds(env: Env, s1: Server, s7: Server, g: Guid, name: string, h: Guid, n: string)
    requires LeavesAlone(s1, s7, n) && h in s1.clients && g in s1.clients && s1.clients[g] == NewClient(name)
    ensures var t := FlushBinaryOf(InitialValues(env, s7, g), g);
            h in t.clients && EntriesFor(t.clients[h].queue, n) == EntriesFor(s1.clients[h].queue, n)
  {
    hide InitialValues, FlushBinaryOf, EntriesFor;
    assert SameView(s1.clients[g], s7.clients[g], n) && SameView(s1.clients[h], s7.clients[h], n);
    var s8 := InitialValues(env, s7, g);
    InitialValuesGain(env, s7, g, h, n);
    NotDue(s7.clients[h], s7.topics, env.now, n);
    FlushOfLeaves(s8, g, n);
    assert SameView(s8.clients[h], FlushBinaryOf(s8, g).clients[h], n);
  }

  lemma DisconnectGains(env: Env, s: Server, g: Guid, h: Guid, n: string)
    requires NamedRight(s.topics) && !IsMeta(n) && h in s.clients && h != g
    ensures var t := Disconnect(env, s, g);
            h in t.clients && EntriesFor(t.clients[h].queue, n) == EntriesFor(s.clients[h].queue, n)
  {
    hide UpdateClients, FlushBinaryAll, IsMeta, EntriesFor;
    if g in s.clients {
      LeavingLeaves(env, s.(clients := s.clients - {g}), n);
    }
  }

  lemma LeavingLeaves(env: Env, s1: Server, n: string)
    requires NamedRight(s1.topics) && !IsMeta(n)
    ensures LeavesAlone(s1, FlushBinaryAll(UpdateClients(env, s1)), n)
  {
    hide UpdateClients, FlushBinaryAll, IsMeta, LeavesAlone;
    var s2 := UpdateClients(env, s1);
    RefreshesLeave(env, s1, 0, "", n);
    StaysNamed(s1, s2, n);
    FlushLeaves(s2, n);
    LeavesTwice(s1, s2, FlushBinaryAll(s2), n);
  }

  // ------------------------------------------------------------ steps and runs

  /** What a client has been sent about the topic before, if it stays connected. */
  function Kept(s: Server, e: Event, h: Guid, n: string): seq<Queued> {
    if (e.ConnectEvent? && e.g == h && !s.failed) || h !in s.clients then [] else EntriesFor(s.clients[h].queue, n)
  }

  /** What the event adds for a client that stays connected. */
  function Added(env: Env, s: Server, e: Event, h: Guid, n: string, id: nat): seq<Queued> {
    if s.failed || h !in s.clients then [] else Gain(env, s, e, h, n, id)
  }

  lemma TopicsOnly(s: Server, h: Guid, n: string)
    requires Inv(s, Nothing) && h in s.clients
    ensures NamedRight(s.topics) && (n !in s.topics ==> n !in s.clients[h].topicData)
  {
    hide IdsOk, HistoryOk, CachesOk, Complete, Agrees, Known, TypeOf;
    assert ClientOk(s.clients[h], s.topics);
  }

  lemma GainsAdd(s: Server, t: Server, h: Guid, n: string)
    requires h in s.clients && h in t.clients
    ensures forall gain, id :: Gains(s, t, h, n, gain, id) ==> EntriesFor(t.clients[h].queue, n) == EntriesFor(s.clients[h].queue, n) + gain
  {
  }

  lemma GainsTell(s: Server, t: Server, h: Guid, n: string)
    ensures forall gain, id :: Gains(s, t, h, n, gain, id) ==> h in t.clients && IdIn(t.clients[h], n) == id
  {
    hide EntriesFor;
  }

  /** The events that are not about connecting. */
  lemma EventGains(enc: Encoders, s: Server, i: Input, h: Guid, n: string)
    requires NamedRight(s.topics) && h in s.clients && !IsMeta(n) && (n !in s.topics ==> n !in s.clients[h].topicData)
    requires Sound(s, i) && !i.event.ConnectEvent? && !i.event.DisconnectEvent?
    ensures var env := Env(enc, i.now, i.order);
            var t := Next(env, s, i.event);
            h in t.clients && Gains(s, t, h, n, Gain(env, s, i.event, h, n, IdIn(t.clients[h], n)), IdIn(t.clients[h], n))
  {
    hide Gains, IdIn, NamedRight, IsMeta, Subscribe, Unsubscribe, Publish, Unpublish, EndOfText, Value, LocalPublish, AssignTopic,
         NewTopic, NewValue, NewProperties, Announcement, UpdateServerSub, UpdateServerPub, FlushBinaryAll, NotifyAll;
    var env := Env(enc, i.now, i.order);
    NothingGained(s, h, n);
    match i.event {
      case SubscribeEvent(g, sub) => SubscribeGains(env, s, g, sub, h, n);
      case UnsubscribeEvent(g, uid) => UnsubscribeGains(env, s, g, uid, h, n);
      case PublishEvent(g, pubuid, name, typeName, p) => PublishGains(env, s, g, pubuid, name, typeName, p, h, n);
      case UnpublishEvent(g, pubuid) => UnpublishGains(env, s, g, pubuid, h, n);
      case EndOfTextEvent(g) => EndOfTextGains(env, s, g, h, n);
      case ValueEvent(g, id, v) => ValueGains(env, s, g, id, v, h, n);
      case LocalPublishEvent(pubuid, name, t, p) => LocalPublishGains(env, s, pubuid, name, t, p, h, n);
      case _ => OtherGains(env, s, i.event, h, n);
    }
    GainsTell(s, Next(env, s, i.event), h, n);
  }

  lemma OtherGains(env: Env, s: Server, e: Event, h: Guid, n: string)
    requires NamedRight(s.topics) && h in s.clients && !IsMeta(n)
    requires e.SetPropertiesEvent? || e.LocalSetPropertiesEvent? || e.LocalUpdateEvent? || e.LocalSubscribeEvent? ||
             e.LocalUnsubscribeEvent? || e.LocalUnpublishEvent? || e.FlushEvent?
    ensures Gains(s, Next(env, s, e), h, n, Gain(env, s, e, h, n, IdIn(s.clients[h], n)), IdIn(s.clients[h], n))
  {
    hide Gains, IdIn, IsMeta, Connect, AssignTopic, NewValue, NewProperties, FlushBinaryAll, NotifyAll, SetMeta, WithProperties, LeavesAlone;
    NothingGained(s, h, n);
    match e {
      case SetPropertiesEvent(g, name, persistent, retained, cached) =>
        if name in s.topics {
          var p := s.topics[name].properties;
          PropertiesGain(s, name, Properties(Or(persistent, p.persistent), Or(retained, p.retained), Or(cached, p.cached)), Just(g), h, n);
        }
      case LocalSetPropertiesEvent(name, p) =>
        if name in s.topics { PropertiesGain(s, name, p, Nothing, h, n); }
      case LocalUpdateEvent(pubuid, v, time) => AssignGains(s, s.ownPublishers, pubuid, v, time, h, n);
      case FlushEvent =>
        FlushLeaves(s, n);
        GainsNothing(s, FlushBinaryAll(s), h, n);
      case _ => OwnGains(env, s, e, h, n);
    }
  }

  lemma OwnGains(env: Env, s: Server, e: Event, h: Guid, n: string)
    requires NamedRight(s.topics) && h in s.clients && !IsMeta(n)
    requires e.LocalSubscribeEvent? || e.LocalUnsubscribeEvent? || e.LocalUnpublishEvent?
    ensures Gains(s, Next(env, s, e), h, n, [], IdIn(s.clients[h], n))
  {
    hide Gains, IdIn, IsMeta, Connect, UpdateServerSub, UpdateServerPub, NamedRight;
    NothingGained(s, h, n);
    match e {
      case LocalSubscribeEvent(sub) => OwnRefreshed(env, s, s.(ownSubscriptions := s.ownSubscriptions[sub.uid := sub]), h, n);
      case LocalUnsubscribeEvent(subuid) => OwnRefreshed(env, s, s.(ownSubscriptions := s.ownSubscriptions - {subuid}), h, n);
      case LocalUnpublishEvent(pubuid) => OwnRefreshed(env, s, s.(ownPublishers := s.ownPublishers - {pubuid}), h, n);
    }
  }

  lemma OwnRefreshed(env: Env, s: Server, s1: Server, h: Guid, n: string)
    requires NamedRight(s.topics) && h in s.clients && !IsMeta(n) && s1.clients == s.clients && s1.topics == s.topics
    ensures Gains(s, UpdateServerSub(env, s1), h, n, [], IdIn(s.clients[h], n))
    ensures Gains(s, UpdateServerPub(env, s1), h, n, [], IdIn(s.clients[h], n))
  {
    hide Gains, IdIn, IsMeta, UpdateServerSub, UpdateServerPub, LeavesAlone, NamedRight;
    RefreshesLeave(env, s1, 0, "", n);
    GainsNothing(s1, UpdateServerSub(env, s1), h, n);
    GainsNothing(s1, UpdateServerPub(env, s1), h, n);
    SameButOwn(s, s1, UpdateServerSub(env, s1), h, n, [], IdIn(s.clients[h], n));
    SameButOwn(s, s1, UpdateServerPub(env, s1), h, n, [], IdIn(s.clients[h], n));
  }

  /** Every step, from every state of a run: what is queued for a client about an ordinary topic is what there was,
      and exactly what the event adds. */
  lemma StepGains(enc: Encoders, s: Server, i: Input, h: Guid, n: string)
    requires Inv(s, Nothing) && Sound(s, i) && !IsMeta(n)
    ensures var env := Env(enc, i.now, i.order);
            var t := Step(env, s, i.event);
            h in t.clients ==>
              EntriesFor(t.clients[h].queue, n) == Kept(s, i.event, h, n) + Added(env, s, i.event, h, n, IdIn(t.clients[h], n))
  {
    hide Gains, Gain, IdIn, NamedRight, IsMeta, Inv, Next, EntriesFor, Sound;
    var env := Env(enc, i.now, i.order);
    var t := Step(env, s, i.event);
    ClientsAfter(env, s, i.event);
    if !s.failed && h in t.clients {
      match i.event {
        case ConnectEvent(g, requested) => StepConnects(env, s, g, requested, h, n);
        case DisconnectEvent(g) => StepDisconnects(env, s, g, h, n);
        case _ =>
          TopicsOnly(s, h, n);
          EventGains(enc, s, i, h, n);
          GainsAdd(s, t, h, n);
      }
    }
  }

  lemma StepConnects(env: Env, s: Server, g: Guid, requested: string, h: Guid, n: string)
    requires Inv(s, Nothing) && !IsMeta(n) && (h in s.clients || h == g)
    ensures var t := Next(env, s, ConnectEvent(g, requested));
            h in t.clients && EntriesFor(t.clients[h].queue, n) == (if h == g then [] else EntriesFor(s.clients[h].queue, n))
    ensures h in s.clients ==> forall id :: Gain(env, s, ConnectEvent(g, requested), h, n, id) == []
  {
    hide Connect, EntriesFor, ClientsRight, Complete, IsMeta;
    ConnectGains(env, s, g, requested, h, n);
  }

  lemma StepDisconnects(env: Env, s: Server, g: Guid, h: Guid, n: string)
    requires Inv(s, Nothing) && !IsMeta(n) && h in s.clients && h != g
    ensures var t := Next(env, s, DisconnectEvent(g));
            h in t.clients && EntriesFor(t.clients[h].queue, n) == EntriesFor(s.clients[h].queue, n)
    ensures forall id :: Gain(env, s, DisconnectEvent(g), h, n, id) == []
  {
    hide Disconnect, Connect, EntriesFor, ClientsRight, Complete, IsMeta;
    DisconnectGains(env, s, g, h, n);
  }

  /** All that the events of a run add, since the client last connected. */
  ghost function Sent(enc: Encoders, inputs: seq<Input>, h: Guid, n: string): seq<Queued> {
    if inputs == [] then []
    else
      var i := inputs[|inputs| - 1];
      var s, t := Run(enc, inputs[..|inputs| - 1]), Run(enc, inputs);
      var before := if i.event.ConnectEvent? && i.event.g == h && !s.failed then [] else Sent(enc, inputs[..|inputs| - 1], h, n);
      if h !in t.clients then [] else before + Added(Env(enc, i.now, i.order), s, i.event, h, n, IdIn(t.clients[h], n))
  }

  /** Over every run: what was ever queued for a client about an ordinary topic is exactly what the events since it
      connected add, in their order, and nothing else. */
  lemma {:induction false} RunGains(enc: Encoders, inputs: seq<Input>, h: Guid, n: string)
    requires SoundRun(enc, inputs) && !IsMeta(n) && h in Run(enc, inputs).clients
    ensures EntriesFor(Run(enc, inputs).clients[h].queue, n) == Sent(enc, inputs, h, n)
  {
    hide Step, Sound, Inv, EntriesFor, Added, IdIn, IsMeta;
    if inputs == [] {
    } else {
      var init, i := inputs[..|inputs| - 1], inputs[|inputs| - 1];
      var s := Run(enc, init);
      var env := Env(enc, i.now, i.order);
      RunKeeps(enc, init);
      ClientsAfter(env, s, i.event);
      StepGains(enc, s, i, h, n);
      if h in s.clients {
        RunGains(enc, init, h, n);
      }
    }
  }
}
