/** An induction principle: what every operation on a client keeps holds of the client after every run. */
module NtClientRules {
  import opened Bytes
  import opened NtValues
  import opened Maybes
  import opened NtClient
  import opened NtServer
  import opened NtNames

  type Rule = Client -> bool

  /** KeptByQueueing by all that is queued for a client; announcements come for topics that it subscribes to, or that it
      publishes itself. */
  ghost predicate KeptByQueueing(rule: Rule, published: string -> bool) {
    (forall c: Client, t: Topic, time {:trigger FanOut(c, t, time)} :: rule(c) ==> rule(FanOut(c, t, time))) &&
    (forall c: Client, t: Topic, u: Maybe<int> {:trigger AnnounceTopic(c, t, u)} ::
       rule(c) && (if u.Nothing? then IsSubscribed(c.subscriptions, t.name, false) else published(t.name)) ==> rule(AnnounceTopic(c, t, u))) &&
    (forall c: Client, t: Topic, ack {:trigger Notify(c, t, ack)} :: rule(c) ==> rule(Notify(c, t, ack))) &&
    (forall c: Client {:trigger FlushText(c)} :: rule(c) ==> rule(FlushText(c))) &&
    (forall c: Client {:trigger FlushBinary(c)} :: rule(c) ==> rule(FlushBinary(c))) &&
    (forall c: Client, topics, n, time {:trigger InitialOne(c, topics, n, time)} :: rule(c) ==> rule(InitialOne(c, topics, n, time)))
  }

  /** KeptByQueueing by the changes of its own maps. */
  ghost predicate KeptByMaps(rule: Rule, subscribed: Subscription -> bool) {
    (forall name :: rule(NewClient(name))) &&
    (forall c: Client, sub: Subscription {:trigger c.(subscriptions := c.subscriptions[sub.uid := sub])} ::
       rule(c) && subscribed(sub) ==> rule(c.(subscriptions := c.subscriptions[sub.uid := sub]))) &&
    (forall c: Client, u: int {:trigger c.(subscriptions := c.subscriptions - {u})} :: rule(c) ==> rule(c.(subscriptions := c.subscriptions - {u}))) &&
    (forall c: Client, pubs {:trigger c.(publishers := pubs)} :: rule(c) ==> rule(c.(publishers := pubs)))
  }

  /** The events that the rule allows for the client. */
  predicate Allowed(e: Event, h: Guid, subscribed: Subscription -> bool, published: string -> bool) {
    match e
    case SubscribeEvent(g, sub) => g == h ==> subscribed(sub)
    case PublishEvent(g, _, name, _, _) => g == h ==> published(name)
    case _ => true
  }

  predicate NamedTopics(s: Server) {
    forall n :: n in s.topics ==> s.topics[n].name == n
  }

  /** The client is not there, or the rule holds of it. */
  predicate Holds(s: Server, h: Guid, rule: Rule) {
    NamedTopics(s) && (h in s.clients ==> rule(s.clients[h]))
  }

  // ------------------------------------------------------------ the building blocks

  lemma SetMetaHolds(env: Env, s: Server, name: string, content: seq<byte>, h: Guid, rule: Rule, published: string -> bool)
    requires KeptByQueueing(rule, published) && Holds(s, h, rule)
    ensures Holds(SetMeta(env, s, name, content), h, rule)
  {
    hide FanOut, WithBin, AnnounceTopic, Notify, FlushText, FlushBinary, InitialOne;
    if name in s.topics && h in s.clients {
      var t := WithValue(s, name, WithBin(s.topics[name].value, content)).topics[name];
      assert rule(FanOut(s.clients[h], t, env.now));
    }
  }

  lemma AssignHolds(s: Server, name: string, v: NTValue, time: nat, h: Guid, rule: Rule, published: string -> bool)
    requires KeptByQueueing(rule, published) && Holds(s, h, rule)
    ensures Holds(AssignTopic(s, name, v, time), h, rule)
  {
    hide FanOut, Assign, AnnounceTopic, Notify, FlushText, FlushBinary, InitialOne;
    if name in s.topics && h in s.clients {
      var t := WithValue(s, name, Assign(s.topics[name].value, v)).topics[name];
      assert rule(FanOut(s.clients[h], t, time));
    }
  }

  lemma IntroduceHolds(s: Server, name: string, v: NTValue, p: Properties, publisher: Maybe<(Guid, int)>, h: Guid, rule: Rule,
                       published: string -> bool)
    requires KeptByQueueing(rule, published) && Holds(s, h, rule)
    requires publisher.Just? && publisher.value.0 == h ==> published(name)
    ensures Holds(Introduce(s, name, v, p, publisher), h, rule)
  {
    hide KeptByQueueing, AnnounceOne, NamedTopics;
    IntroduceNamed(s, name, v, p, publisher);
    if h in s.clients {
      AnnounceHolds(s.clients[h], Create(s, name, v, p).topics[name], h, publisher, rule, published);
    }
  }

  lemma IntroduceNamed(s: Server, name: string, v: NTValue, p: Properties, publisher: Maybe<(Guid, int)>)
    requires NamedTopics(s)
    ensures NamedTopics(Introduce(s, name, v, p, publisher)) && Create(s, name, v, p).topics[name].name == name
  {
    hide AnnounceOne;
  }

  lemma AnnounceHolds(c: Client, t: Topic, h: Guid, publisher: Maybe<(Guid, int)>, rule: Rule, published: string -> bool)
    requires KeptByQueueing(rule, published) && rule(c) && (publisher.Just? && publisher.value.0 == h ==> published(t.name))
    ensures rule(AnnounceOne(c, t, h, publisher))
  {
    hide FanOut, AnnounceTopic, Notify, FlushText, FlushBinary, InitialOne, IsSubscribed;
    if publisher.Just? && publisher.value.0 == h {
      assert rule(AnnounceTopic(c, t, Just(publisher.value.1)));
    } else if IsSubscribed(c.subscriptions, t.name, false) {
      assert rule(AnnounceTopic(c, t, Nothing));
    }
  }

  lemma PropertiesHold(s: Server, name: string, p: Properties, updater: Maybe<Guid>, h: Guid, rule: Rule, published: string -> bool)
    requires KeptByQueueing(rule, published) && Holds(s, h, rule) && name in s.topics
    ensures Holds(NotifyAll(WithProperties(s, name, p), name, updater), h, rule)
  {
    hide FanOut, AnnounceTopic, Notify, FlushText, FlushBinary, InitialOne, IsSubscribed;
  }

  lemma FlushHolds(s: Server, h: Guid, rule: Rule, published: string -> bool)
    requires KeptByQueueing(rule, published) && Holds(s, h, rule)
    ensures Holds(FlushTextAll(s), h, rule) && Holds(FlushBinaryAll(s), h, rule)
    ensures forall g :: Holds(FlushTextOf(s, g), h, rule) && Holds(FlushBinaryOf(s, g), h, rule)
  {
    hide FanOut, AnnounceTopic, Notify, FlushText, FlushBinary, InitialOne, IsSubscribed;
  }

  lemma {:induction false} LoopsHold(c: Client, topics: map<string, Topic>, order: seq<string>, time: nat, rule: Rule, published: string -> bool)
    requires KeptByQueueing(rule, published) && rule(c)
    ensures rule(AnnounceCached(c, topics, order)) && rule(PublishInitial(c, topics, order, time))
  {
    hide FanOut, AnnounceTopic, Notify, FlushText, FlushBinary, InitialOne, IsSubscribed;
    if order == [] {
    } else {
      LoopsHold(c, topics, order[..|order| - 1], time, rule, published);
    }
  }

  lemma LoopsOfOneHold(env: Env, s: Server, g: Guid, h: Guid, rule: Rule, published: string -> bool)
    requires KeptByQueueing(rule, published) && Holds(s, h, rule)
    ensures Holds(InitialValues(env, s, g), h, rule) && Holds(AnnounceCachedTo(env, s, g), h, rule)
  {
    hide KeptByQueueing, AnnounceCached, PublishInitial;
    if g in s.clients && g == h {
      LoopsHold(s.clients[g], s.topics, env.order, env.now, rule, published);
    }
  }

  lemma UpdateClientHolds(env: Env, s: Server, g: Guid, h: Guid, rule: Rule, published: string -> bool)
    requires KeptByQueueing(rule, published) && Holds(s, h, rule)
    ensures Holds(UpdateClientSub(env, s, g), h, rule) && Holds(UpdateClientPub(env, s, g), h, rule)
  {
    hide KeptByQueueing, Holds, SetMeta;
    if g in s.clients {
      SetMetaHolds(env, s, ClientSub(s.clients[g].name), env.enc.subscriptions(s.clients[g].subscriptions), h, rule, published);
      SetMetaHolds(env, s, ClientPub(s.clients[g].name), env.enc.publishers(s.clients[g].publishers), h, rule, published);
    }
  }

  lemma {:induction false} CoveredHolds(env: Env, s: Server, sub: Subscription, order: seq<string>, h: Guid, rule: Rule, published: string -> bool)
    requires KeptByQueueing(rule, published) && Holds(s, h, rule)
    ensures Holds(UpdateCovered(env, s, sub, order), h, rule)
  {
    hide KeptByQueueing, Holds, SetMeta, Covers, IsMeta;
    if order == [] {
    } else {
      var init, n := order[..|order| - 1], order[|order| - 1];
      CoveredHolds(env, s, sub, init, h, rule, published);
      var s1 := UpdateCovered(env, s, sub, init);
      SetMetaHolds(env, s1, TopicSub(n), env.enc.topicSubscriptions(Interests(s1.clients, n)), h, rule, published);
    }
  }

  lemma PublishTopicHolds(env: Env, s: Server, name: string, v: NTValue, p: Properties, publisher: Maybe<(Guid, int)>, h: Guid, rule: Rule,
                          published: string -> bool)
    requires KeptByQueueing(rule, published) && Holds(s, h, rule) && (publisher.Just? && publisher.value.0 == h ==> published(name))
    ensures Holds(PublishTopic(env, s, name, v, p, publisher), h, rule)
  {
    hide KeptByQueueing, Holds, SetMeta, Introduce, IsMeta;
    var meta := BinV(MsgpackBin, []);
    var s1 := Introduce(s, name, v, p, publisher);
    IntroduceHolds(s, name, v, p, publisher, h, rule, published);
    var s2 := IntroduceMeta(s1, TopicSub(name));
    IntroduceHolds(s1, TopicSub(name), meta, META_PROPERTIES, Nothing, h, rule, published);
    var s3 := IntroduceMeta(s2, TopicPub(name));
    IntroduceHolds(s2, TopicPub(name), meta, META_PROPERTIES, Nothing, h, rule, published);
    var s4 := UpdateTopicSub(env, s3, name);
    SetMetaHolds(env, s3, TopicSub(name), env.enc.topicSubscriptions(Interests(s3.clients, name)), h, rule, published);
    SetMetaHolds(env, s4, TopicPub(name), env.enc.topicPublishers(Supplies(s4.clients, name)), h, rule, published);
  }

  // ------------------------------------------------------------ the events

  /** What an event changes in the maps of its client, and in who is connected, before anything is queued. */
  ghost function Remapped(s: Server, e: Event): Server {
    match e
    case ConnectEvent(g, requested) => WithClient(s, g, NewClient(NameFor(s.clients, requested)))
    case DisconnectEvent(g) => s.(clients := s.clients - {g})
    case SubscribeEvent(g, sub) =>
      if g !in s.clients then s else WithSubscriptions(s, g, s.clients[g].subscriptions[sub.uid := sub])
    case UnsubscribeEvent(g, u) =>
      if g !in s.clients || u !in s.clients[g].subscriptions then s
      else WithSubscriptions(s, g, s.clients[g].subscriptions - {u})
    case PublishEvent(g, pubuid, name, _, _) =>
      if g !in s.clients then s else WithPublishers(s, g, s.clients[g].publishers[pubuid := Publisher(pubuid, name)])
    case UnpublishEvent(g, u) =>
      if g !in s.clients || u !in s.clients[g].publishers then s
      else WithPublishers(s, g, s.clients[g].publishers - {u})
    case _ => s
  }

  lemma ConnectHolds(env: Env, s: Server, g: Guid, requested: string, h: Guid, rule: Rule, published: string -> bool)
    requires KeptByQueueing(rule, published) && Holds(WithClient(s, g, NewClient(NameFor(s.clients, requested))), h, rule)
    ensures Holds(Connect(env, s, g, requested), h, rule)
  {
    hide KeptByQueueing, Holds, SetMeta, Introduce, FlushTextOf, FlushBinaryOf, InitialValues, UpdateClientSub, UpdateClientPub, NameFor;
    var name, meta := NameFor(s.clients, requested), BinV(MsgpackBin, []);
    var s1 := WithClient(s, g, NewClient(name));
    var s2 := IntroduceMeta(s1, ClientSub(name));
    IntroduceHolds(s1, ClientSub(name), meta, META_PROPERTIES, Nothing, h, rule, published);
    var s3 := IntroduceMeta(s2, ClientPub(name));
    IntroduceHolds(s2, ClientPub(name), meta, META_PROPERTIES, Nothing, h, rule, published);
    var s4 := UpdateClients(env, s3);
    SetMetaHolds(env, s3, CLIENTS, env.enc.roster(Names(s3.clients)), h, rule, published);
    var s5 := UpdateClientSub(env, s4, g);
    UpdateClientHolds(env, s4, g, h, rule, published);
    var s6 := UpdateClientPub(env, s5, g);
    UpdateClientHolds(env, s5, g, h, rule, published);
    var s7 := FlushTextOf(s6, g);
    FlushHolds(s6, h, rule, published);
    var s8 := InitialValues(env, s7, g);
    LoopsOfOneHold(env, s7, g, h, rule, published);
    FlushHolds(s8, h, rule, published);
  }

  lemma DisconnectHolds(env: Env, s: Server, g: Guid, h: Guid, rule: Rule, published: string -> bool)
    requires KeptByQueueing(rule, published) && Holds(s.(clients := s.clients - {g}), h, rule)
    ensures Holds(Disconnect(env, s, g), h, rule)
  {
    hide KeptByQueueing, SetMeta, FlushBinaryAll;
    if g in s.clients {
      var s1 := s.(clients := s.clients - {g});
      SetMetaHolds(env, s1, CLIENTS, env.enc.roster(Names(s1.clients)), h, rule, published);
      FlushHolds(UpdateClients(env, s1), h, rule, published);
    }
  }

  lemma SubscribeHolds(env: Env, s: Server, g: Guid, sub: Subscription, h: Guid, rule: Rule, published: string -> bool)
    requires KeptByQueueing(rule, published) && Holds(Remapped(s, SubscribeEvent(g, sub)), h, rule)
    ensures Holds(Subscribe(env, s, g, sub), h, rule)
  {
    hide KeptByQueueing, Holds, UpdateClientSub, UpdateCovered, AnnounceCachedTo;
    if g in s.clients {
      var s1 := WithSubscriptions(s, g, s.clients[g].subscriptions[sub.uid := sub]);
      var s2 := UpdateClientSub(env, s1, g);
      UpdateClientHolds(env, s1, g, h, rule, published);
      CoveredHolds(env, s2, sub, env.order, h, rule, published);
      LoopsOfOneHold(env, UpdateCovered(env, s2, sub, env.order), g, h, rule, published);
    }
  }

  lemma UnsubscribeHolds(env: Env, s: Server, g: Guid, u: int, h: Guid, rule: Rule, published: string -> bool)
    requires KeptByQueueing(rule, published) && Holds(Remapped(s, UnsubscribeEvent(g, u)), h, rule)
    ensures Holds(Unsubscribe(env, s, g, u), h, rule)
  {
    hide KeptByQueueing, Holds, UpdateClientSub, UpdateCovered;
    if g in s.clients && u in s.clients[g].subscriptions {
      var s1 := WithSubscriptions(s, g, s.clients[g].subscriptions - {u});
      UpdateClientHolds(env, s1, g, h, rule, published);
      CoveredHolds(env, UpdateClientSub(env, s1, g), s.clients[g].subscriptions[u], env.order, h, rule, published);
    }
  }

  lemma PublishHolds(env: Env, s: Server, g: Guid, pubuid: int, name: string, typeName: string, p: Properties, h: Guid, rule: Rule,
                     published: string -> bool)
    requires KeptByQueueing(rule, published) && (g == h ==> published(name))
    requires Holds(Remapped(s, PublishEvent(g, pubuid, name, typeName, p)), h, rule)
    ensures Holds(Publish(env, s, g, pubuid, name, typeName, p), h, rule)
  {
    hide KeptByQueueing, Holds, PublishTopic, AnnounceTopic, UpdateClientPub, SetMeta, Default, ParseTypeName;
    if g in s.clients {
      var pubs := s.clients[g].publishers[pubuid := Publisher(pubuid, name)];
      var s1 := WithPublishers(s, g, pubs);
      var s2 :=
        if name !in s1.topics
        then PublishTopic(env, s1, name, Default(ParseTypeName(typeName)), p, Just((g, pubuid)))
        else WithClient(s1, g, AnnounceTopic(s1.clients[g], s1.topics[name], Just(pubuid)));
      if name !in s1.topics {
        PublishTopicHolds(env, s1, name, Default(ParseTypeName(typeName)), p, Just((g, pubuid)), h, rule, published);
      } else {
        AnnounceToHolds(s1, g, pubuid, name, h, rule, published);
      }
      var s3 := UpdateClientPub(env, s2, g);
      UpdateClientHolds(env, s2, g, h, rule, published);
      SetMetaHolds(env, s3, TopicPub(name), env.enc.topicPublishers(Supplies(s3.clients, name)), h, rule, published);
    }
  }

  lemma AnnounceToHolds(s: Server, g: Guid, pubuid: int, name: string, h: Guid, rule: Rule, published: string -> bool)
    requires KeptByQueueing(rule, published) && Holds(s, h, rule) && (g == h ==> published(name)) && g in s.clients && name in s.topics
    ensures Holds(WithClient(s, g, AnnounceTopic(s.clients[g], s.topics[name], Just(pubuid))), h, rule)
  {
    hide FanOut, AnnounceTopic, Notify, FlushText, FlushBinary, InitialOne, IsSubscribed;
  }

  lemma UnpublishHolds(env: Env, s: Server, g: Guid, u: int, h: Guid, rule: Rule, published: string -> bool)
    requires KeptByQueueing(rule, published) && Holds(Remapped(s, UnpublishEvent(g, u)), h, rule)
    ensures Holds(Unpublish(env, s, g, u), h, rule)
  {
    hide KeptByQueueing, UpdateClientPub, SetMeta;
    if g in s.clients && u in s.clients[g].publishers {
      var name := s.clients[g].publishers[u].topic;
      var s1 := WithPublishers(s, g, s.clients[g].publishers - {u});
      var s2 := UpdateClientPub(env, s1, g);
      UpdateClientHolds(env, s1, g, h, rule, published);
      SetMetaHolds(env, s2, TopicPub(name), env.enc.topicPublishers(Supplies(s2.clients, name)), h, rule, published);
    }
  }

  lemma EndOfTextHolds(env: Env, s: Server, g: Guid, h: Guid, rule: Rule, published: string -> bool)
    requires KeptByQueueing(rule, published) && Holds(s, h, rule)
    ensures Holds(EndOfText(env, s, g), h, rule)
  {
    hide KeptByQueueing, Holds, FlushTextAll, FlushBinaryAll, InitialValues;
    FlushHolds(s, h, rule, published);
    LoopsOfOneHold(env, FlushTextAll(s), g, h, rule, published);
    FlushHolds(InitialValues(env, FlushTextAll(s), g), h, rule, published);
  }

  lemma ValueHolds(env: Env, s: Server, g: Guid, id: int, v: NTValue, h: Guid, rule: Rule, published: string -> bool)
    requires KeptByQueueing(rule, published) && Holds(s, h, rule)
    ensures Holds(Value(env, s, g, id, v), h, rule)
  {
    hide KeptByQueueing, Holds, AssignTopic, FlushBinaryAll, ToInt32;
    FlushHolds(s, h, rule, published);
    if id != -1 && g in s.clients && ToInt32(id) in s.clients[g].publishers {
      var name := s.clients[g].publishers[ToInt32(id)].topic;
      AssignHolds(s, name, v, env.now, h, rule, published);
      FlushHolds(AssignTopic(s, name, v, env.now), h, rule, published);
    }
  }

  lemma LocalHolds(env: Env, s: Server, e: Event, h: Guid, rule: Rule, published: string -> bool)
    requires KeptByQueueing(rule, published) && Holds(s, h, rule)
    requires e.LocalSubscribeEvent? || e.LocalUnsubscribeEvent? || e.LocalUnpublishEvent? || e.LocalPublishEvent?
    ensures Holds(Next(env, s, e), h, rule)
  {
    hide KeptByQueueing, SetMeta, PublishTopic, Connect, Default;
    match e {
      case LocalSubscribeEvent(sub) =>
        var s1 := s.(ownSubscriptions := s.ownSubscriptions[sub.uid := sub]);
        SetMetaHolds(env, s1, SERVER_SUB, env.enc.subscriptions(s1.ownSubscriptions), h, rule, published);
      case LocalUnsubscribeEvent(u) =>
        var s1 := s.(ownSubscriptions := s.ownSubscriptions - {u});
        SetMetaHolds(env, s1, SERVER_SUB, env.enc.subscriptions(s1.ownSubscriptions), h, rule, published);
      case LocalUnpublishEvent(u) =>
        var s1 := s.(ownPublishers := s.ownPublishers - {u});
        SetMetaHolds(env, s1, SERVER_PUB, env.enc.publishers(s1.ownPublishers), h, rule, published);
      case LocalPublishEvent(pubuid, name, t, p) =>
        var s1 := s.(ownPublishers := s.ownPublishers[pubuid := Publisher(pubuid, name)]);
        var s2 := if name !in s1.topics then PublishTopic(env, s1, name, Default(t), p, Nothing) else s1;
        PublishTopicHolds(env, s1, name, Default(t), p, Nothing, h, rule, published);
        SetMetaHolds(env, s2, SERVER_PUB, env.enc.publishers(s2.ownPublishers), h, rule, published);
    }
  }

  /** Everything but the change of the maps is queueing. */
  lemma NextHolds(env: Env, s: Server, e: Event, h: Guid, rule: Rule, published: string -> bool)
    requires KeptByQueueing(rule, published) && Holds(Remapped(s, e), h, rule) && Allowed(e, h, _ => true, published)
    ensures Holds(Next(env, s, e), h, rule)
  {
    hide KeptByQueueing, Connect, Disconnect, Subscribe, Unsubscribe, Publish, Unpublish, EndOfText, Value, AssignTopic, NotifyAll,
         WithProperties, FlushBinaryAll, LocalSubscribe, LocalUnsubscribe, LocalPublish, LocalUnpublish, NamedTopics;
    match e {
      case ConnectEvent(g, requested) => ConnectHolds(env, s, g, requested, h, rule, published);
      case DisconnectEvent(g) => DisconnectHolds(env, s, g, h, rule, published);
      case SubscribeEvent(g, sub) => SubscribeHolds(env, s, g, sub, h, rule, published);
      case UnsubscribeEvent(g, u) => UnsubscribeHolds(env, s, g, u, h, rule, published);
      case PublishEvent(g, pubuid, name, typeName, p) => PublishHolds(env, s, g, pubuid, name, typeName, p, h, rule, published);
      case UnpublishEvent(g, u) => UnpublishHolds(env, s, g, u, h, rule, published);
      case SetPropertiesEvent(g, name, p, r, c) =>
        if name in s.topics {
          var was := s.topics[name].properties;
          PropertiesHold(s, name, Properties(Or(p, was.persistent), Or(r, was.retained), Or(c, was.cached)), Just(g), h, rule, published);
        }
      case EndOfTextEvent(g) => EndOfTextHolds(env, s, g, h, rule, published);
      case ValueEvent(g, id, v) => ValueHolds(env, s, g, id, v, h, rule, published);
      case LocalSetPropertiesEvent(name, p) => if name in s.topics { PropertiesHold(s, name, p, Nothing, h, rule, published); }
      case LocalUpdateEvent(u, v, time) =>
        if u in s.ownPublishers { AssignHolds(s, s.ownPublishers[u].topic, v, time, h, rule, published); }
      case FlushEvent => FlushHolds(s, h, rule, published);
      case _ => LocalHolds(env, s, e, h, rule, published);
    }
  }

  lemma StepHolds(env: Env, s: Server, e: Event, h: Guid, rule: Rule, subscribed: Subscription -> bool, published: string -> bool)
    requires KeptByQueueing(rule, published) && KeptByMaps(rule, subscribed) && Holds(s, h, rule) && Allowed(e, h, subscribed, published)
    ensures Holds(Step(env, s, e), h, rule)
  {
    hide KeptByQueueing, Next, NameFor;
    assert Holds(Remapped(s, e), h, rule);
    hide Holds, KeptByMaps;
    NextHolds(env, s, e, h, rule, published);
  }

  /** What every operation on a client keeps, under what its own messages may subscribe to and publish, holds of it
      after every run. */
  lemma {:induction false} RunHolds(enc: Encoders, inputs: seq<Input>, h: Guid, rule: Rule, subscribed: Subscription -> bool,
                                    published: string -> bool)
    requires KeptByQueueing(rule, published) && KeptByMaps(rule, subscribed)
    requires forall i | i in inputs :: Allowed(i.event, h, subscribed, published)
    ensures Holds(Run(enc, inputs), h, rule)
  {
    hide KeptByQueueing, KeptByMaps, Step;
    if inputs == [] {
    } else {
      var init, i := inputs[..|inputs| - 1], inputs[|inputs| - 1];
      assert i in inputs && forall j | j in init :: j in inputs;
      RunHolds(enc, init, h, rule, subscribed, published);
      StepHolds(Env(enc, i.now, i.order), Run(enc, init), i.event, h, rule, subscribed, published);
    }
  }
}
