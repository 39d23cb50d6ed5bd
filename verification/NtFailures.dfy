/** Exactly when an assertion of the server fails. */
module NtFailures {
  import opened Bytes
  import opened NtValues
  import opened Maybes
  import opened NtClient
  import opened NtServer
  import opened NtMetaTopics

  predicate Sane(s: Server) {
    Rooted(s, {}) && !s.failed
  }

  /** The events that make an assertion fail: publishing a meta-topic whose list of publishers nobody has made,
      and a value of the unassigned type for a topic that there is. */
  predicate Stops(s: Server, e: Event) {
    match e
    case PublishEvent(g, _, name, _, _) => g in s.clients && IsMeta(name) && TopicPub(name) !in s.topics
    case ValueEvent(g, id, v) => id != -1 && g in s.clients && ToInt32(id) in s.clients[g].publishers && !Valid(v)
    case LocalUpdateEvent(pubuid, v, _) =>
      pubuid in s.ownPublishers && s.ownPublishers[pubuid].topic in s.topics && !Valid(v)
    case _ => false
  }

  lemma SaneSetMeta(env: Env, s: Server, name: string, content: seq<byte>)
    requires Sane(s) && name in s.topics
    ensures var t := SetMeta(env, s, name, content);
            Sane(t) && SameRest(s, t) && t.topics.Keys == s.topics.Keys
  {
    hide Rooted, SetMeta, SameClient;
    RootedSetMeta(env, s, name, content, {});
  }

  lemma SaneStays(s: Server, t: Server)
    requires Sane(s) && SameRest(s, t) && t.topics.Keys == s.topics.Keys
    ensures Sane(t)
  {
    hide Rooted;
    RootedStays(s, t, {});
  }

  lemma SaneClientTopics(s: Server, g: Guid)
    requires Sane(s) && g in s.clients
    ensures ClientSub(s.clients[g].name) in s.topics && ClientPub(s.clients[g].name) in s.topics
    ensures forall u | u in s.clients[g].publishers :: s.clients[g].publishers[u].topic in s.topics &&
                                                     TopicPub(s.clients[g].publishers[u].topic) in s.topics
  {
    assert ClientRooted(s.clients[g], s.topics, {});
  }

  lemma SaneTopicTopics(s: Server, n: string)
    requires Sane(s) && n in s.topics && !IsMeta(n)
    ensures TopicSub(n) in s.topics && TopicPub(n) in s.topics
  {
    assert TopicRooted(n, s.topics, {});
  }

  lemma SaneUpdateClient(env: Env, s: Server, g: Guid)
    requires Sane(s)
    ensures var t := UpdateClientSub(env, s, g); Sane(t) && SameRest(s, t) && t.topics.Keys == s.topics.Keys
    ensures var t := UpdateClientPub(env, s, g); Sane(t) && SameRest(s, t) && t.topics.Keys == s.topics.Keys
  {
    hide Sane, SetMeta, SameRest, ClientSub, ClientPub;
    NothingChanges(s);
    if g in s.clients {
      SaneClientTopics(s, g);
      SaneSetMeta(env, s, ClientSub(s.clients[g].name), env.enc.subscriptions(s.clients[g].subscriptions));
      SaneSetMeta(env, s, ClientPub(s.clients[g].name), env.enc.publishers(s.clients[g].publishers));
    }
  }

  lemma {:induction false} SaneUpdateCovered(env: Env, s: Server, sub: Subscription, order: seq<string>)
    requires Sane(s) && forall n | n in order :: n in s.topics
    ensures var t := UpdateCovered(env, s, sub, order); Sane(t) && SameRest(s, t) && t.topics.Keys == s.topics.Keys
  {
    hide Sane, SetMeta, SameRest, Covers, IsMeta, TopicSub;
    NothingChanges(s);
    if order == [] {
    } else {
      var init, n := order[..|order| - 1], order[|order| - 1];
      SaneUpdateCovered(env, s, sub, init);
      var s1 := UpdateCovered(env, s, sub, init);
      assert n in order;
      if !IsMeta(n) && Covers(sub, n) {
        SaneTopicTopics(s1, n);
        SaneSetMeta(env, s1, TopicSub(n), env.enc.topicSubscriptions(Interests(s1.clients, n)));
        SameTwice(s, s1, UpdateTopicSub(env, s1, n));
      }
    }
  }

  lemma InOrder(s: Server, order: seq<string>)
    requires multiset(order) == multiset(s.topics.Keys)
    ensures forall n | n in order :: n in s.topics
  {
    forall n | n in order ensures n in s.topics {
      assert n in multiset(order);
    }
  }

  lemma SaneSubscriptions(s: Server, g: Guid, subs: map<int, Subscription>)
    requires Sane(s) && g in s.clients
    ensures Sane(WithSubscriptions(s, g, subs))
  {
    hide IsMeta, ClientSub, ClientPub, TopicRooted;
    var t := WithSubscriptions(s, g, subs);
    forall h | h in t.clients ensures ClientRooted(t.clients[h], t.topics, {}) {
      assert ClientRooted(s.clients[h], s.topics, {});
    }
  }

  lemma RootedPublishers(s: Server, g: Guid, pubs: map<int, Publisher>, missing: set<string>)
    requires Rooted(s, {}) && g in s.clients
    requires PublishersRooted(pubs, s.topics, missing)
    ensures Rooted(WithPublishers(s, g, pubs), missing)
  {
    hide IsMeta, ClientSub, ClientPub, TopicSub, TopicPub;
    var t := WithPublishers(s, g, pubs);
    forall h | h in t.clients ensures ClientRooted(t.clients[h], t.topics, missing) {
      assert ClientRooted(s.clients[h], s.topics, {});
    }
    forall n | n in t.topics ensures TopicRooted(n, t.topics, missing) {
      assert TopicRooted(n, s.topics, {});
    }
  }

  lemma RootedArrival(s: Server, g: Guid, name: string)
    requires Rooted(s, {})
    ensures Rooted(WithClient(s, g, NewClient(name)), {ClientSub(name), ClientPub(name)})
  {
    hide IsMeta, ClientSub, ClientPub, TopicSub, TopicPub;
    var t := WithClient(s, g, NewClient(name));
    forall h | h in t.clients ensures ClientRooted(t.clients[h], t.topics, {ClientSub(name), ClientPub(name)}) {
      if h != g { assert ClientRooted(s.clients[h], s.topics, {}); }
    }
    forall n | n in t.topics ensures TopicRooted(n, t.topics, {ClientSub(name), ClientPub(name)}) {
      assert TopicRooted(n, s.topics, {});
    }
  }

  lemma SaneConnect(env: Env, s: Server, g: Guid, requested: string)
    requires Sane(s)
    ensures Sane(Connect(env, s, g, requested))
  {
    hide Introduce, SetMeta, Rooted, SameRest, SameClient, IsMeta, ClientSub, ClientPub, NameFor, FlushTextOf, FlushBinaryOf,
         InitialValues, UpdateClientSub, UpdateClientPub, WithClient;
    var name := NameFor(s.clients, requested);
    var sub, pub := ClientSub(name), ClientPub(name);
    MetaNames(name);
    var s1 := WithClient(s, g, NewClient(name));
    RootedArrival(s, g, name);
    var s2 := IntroduceMeta(s1, sub);
    RootedIntroduce(s1, sub, BinV(MsgpackBin, []), META_PROPERTIES, Nothing, {sub, pub});
    assert {sub, pub} - {sub} + {} == {pub};
    var s3 := IntroduceMeta(s2, pub);
    RootedIntroduce(s2, pub, BinV(MsgpackBin, []), META_PROPERTIES, Nothing, {pub});
    assert {pub} - {pub} + {} == {};
    assert !s3.failed by { NotFailedYet(s, g, name, s1, s2, s3); }
    assert CLIENTS in s3.topics by { RootedClients(s3); }
    SaneSetMeta(env, s3, CLIENTS, env.enc.roster(Names(s3.clients)));
    var s4 := UpdateClients(env, s3);
    SaneUpdateClient(env, s4, g);
    var s5 := UpdateClientSub(env, s4, g);
    SaneUpdateClient(env, s5, g);
    var s6 := UpdateClientPub(env, s5, g);
    SaneFinish(env, s6, g);
  }

  lemma NotFailedYet(s: Server, g: Guid, name: string, s1: Server, s2: Server, s3: Server)
    requires !s.failed && s1 == WithClient(s, g, NewClient(name)) && SameRest(s1, s2) && SameRest(s2, s3)
    ensures !s3.failed
  {
  }

  lemma RootedClients(s: Server)
    requires Rooted(s, {})
    ensures CLIENTS in s.topics && SERVER_SUB in s.topics && SERVER_PUB in s.topics
  {
  }

  lemma SaneFinish(env: Env, s: Server, g: Guid)
    requires Sane(s)
    ensures Sane(FlushBinaryOf(InitialValues(env, FlushTextOf(s, g), g), g))
  {
    hide Sane, SameRest, FlushTextOf, FlushBinaryOf, InitialValues;
    var s1 := FlushTextOf(s, g);
    OneClientShape(env, s, g);
    SaneStays(s, s1);
    var s2 := InitialValues(env, s1, g);
    OneClientShape(env, s1, g);
    SaneStays(s1, s2);
    OneClientShape(env, s2, g);
    SaneStays(s2, FlushBinaryOf(s2, g));
  }

  lemma SaneFlushBinary(s: Server)
    requires Sane(s)
    ensures Sane(FlushBinaryAll(s)) && Sane(FlushTextAll(s))
  {
    hide Sane, SameRest, FlushBinaryAll, FlushTextAll;
    FlushShape(s);
    SaneStays(s, FlushBinaryAll(s));
    SaneStays(s, FlushTextAll(s));
  }

  lemma SaneDisconnect(env: Env, s: Server, g: Guid)
    requires Sane(s)
    ensures Sane(Disconnect(env, s, g))
  {
    hide SetMeta, FlushBinaryAll, IsMeta, ClientRooted, TopicRooted;
    if g in s.clients {
      var s1 := s.(clients := s.clients - {g});
      assert Sane(s1);
      SaneSetMeta(env, s1, CLIENTS, env.enc.roster(Names(s1.clients)));
      SaneFlushBinary(UpdateClients(env, s1));
    }
  }

  lemma SaneSubscribe(env: Env, s: Server, g: Guid, sub: Subscription)
    requires Sane(s) && multiset(env.order) == multiset(s.topics.Keys)
    ensures Sane(Subscribe(env, s, g, sub))
  {
    hide Sane, UpdateClientSub, UpdateCovered, AnnounceCachedTo, SameRest;
    if g in s.clients {
      var s1 := WithSubscriptions(s, g, s.clients[g].subscriptions[sub.uid := sub]);
      SaneSubscriptions(s, g, s.clients[g].subscriptions[sub.uid := sub]);
      var s2 := UpdateClientSub(env, s1, g);
      SaneUpdateClient(env, s1, g);
      InOrder(s2, env.order);
      var s3 := UpdateCovered(env, s2, sub, env.order);
      SaneUpdateCovered(env, s2, sub, env.order);
      OneClientShape(env, s3, g);
      SaneStays(s3, AnnounceCachedTo(env, s3, g));
    }
  }

  lemma SaneUnsubscribe(env: Env, s: Server, g: Guid, subuid: int)
    requires Sane(s) && multiset(env.order) == multiset(s.topics.Keys)
    ensures Sane(Unsubscribe(env, s, g, subuid))
  {
    hide Sane, UpdateClientSub, UpdateCovered, SameRest;
    if g in s.clients && subuid in s.clients[g].subscriptions {
      var s1 := WithSubscriptions(s, g, s.clients[g].subscriptions - {subuid});
      SaneSubscriptions(s, g, s.clients[g].subscriptions - {subuid});
      var s2 := UpdateClientSub(env, s1, g);
      SaneUpdateClient(env, s1, g);
      InOrder(s2, env.order);
      SaneUpdateCovered(env, s2, s.clients[g].subscriptions[subuid], env.order);
    }
  }

  lemma PublishersPlusOne(s: Server, g: Guid, pubuid: int, name: string, missing: set<string>)
    requires Sane(s) && g in s.clients
    requires (name in s.topics || name in missing) && (TopicPub(name) in s.topics || TopicPub(name) in missing)
    ensures PublishersRooted(s.clients[g].publishers[pubuid := Publisher(pubuid, name)], s.topics, missing)
  {
    hide Rooted, TopicPub;
    SaneClientTopics(s, g);
  }

  lemma RootedLess(s: Server, missing: set<string>)
    requires Rooted(s, missing) && forall n | n in missing :: n in s.topics
    ensures Rooted(s, {})
  {
    hide IsMeta, ClientSub, ClientPub, TopicSub, TopicPub;
    forall g | g in s.clients ensures ClientRooted(s.clients[g], s.topics, {}) {
      assert ClientRooted(s.clients[g], s.topics, missing);
    }
    forall n | n in s.topics ensures TopicRooted(n, s.topics, {}) {
      assert TopicRooted(n, s.topics, missing);
    }
  }

  /** What a publish message has made of the topics and clients before it refreshes their meta-topics. */
  function AfterPublishing(env: Env, s: Server, g: Guid, pubuid: int, name: string, typeName: string, p: Properties): Server
    requires g in s.clients
  {
    var s1 := WithPublishers(s, g, s.clients[g].publishers[pubuid := Publisher(pubuid, name)]);
    if name !in s1.topics
    then PublishTopic(env, s1, name, Default(ParseTypeName(typeName)), p, Just((g, pubuid)))
    else WithClient(s1, g, AnnounceTopic(s1.clients[g], s1.topics[name], Just(pubuid)))
  }

  lemma PublishFirst(env: Env, s: Server, g: Guid, pubuid: int, name: string, typeName: string, p: Properties)
    requires g in s.clients
    ensures var s2 := AfterPublishing(env, s, g, pubuid, name, typeName, p);
            Publish(env, s, g, pubuid, name, typeName, p) == UpdateTopicPub(env, UpdateClientPub(env, s2, g), name)
  {
    hide PublishTopic, UpdateClientPub, SetMeta, AnnounceTopic, Default, ParseTypeName;
  }

  /** An ordinary topic that is new. */
  lemma SaneNewTopic(env: Env, s: Server, g: Guid, pubuid: int, name: string, typeName: string, p: Properties)
    requires Sane(s) && g in s.clients && !IsMeta(name) && name !in s.topics
    ensures var s2 := AfterPublishing(env, s, g, pubuid, name, typeName, p); Sane(s2) && name in s2.topics
  {
    hide IsMeta, Rooted, PublishTopic, SameClient, Default, ParseTypeName, PublishersRooted, TopicPub;
    var pubs := s.clients[g].publishers[pubuid := Publisher(pubuid, name)];
    PublishersPlusOne(s, g, pubuid, name, {name, TopicPub(name)});
    RootedPublishers(s, g, pubs, {name, TopicPub(name)});
    RootedPublishTopic(env, WithPublishers(s, g, pubs), name, Default(ParseTypeName(typeName)), p, Just((g, pubuid)));
  }

  /** A topic that there is already, or a meta-topic whose list of publishers is there. */
  lemma SaneOldTopic(env: Env, s: Server, g: Guid, pubuid: int, name: string, typeName: string, p: Properties)
    requires Sane(s) && g in s.clients && (IsMeta(name) || name in s.topics) && TopicPub(name) in s.topics
    ensures var s2 := AfterPublishing(env, s, g, pubuid, name, typeName, p); Sane(s2) && TopicPub(name) in s2.topics
  {
    hide Rooted, SameClient, AnnounceTopic, Default, ParseTypeName, PublishersRooted, TopicPub, Introduce;
    var pubs := s.clients[g].publishers[pubuid := Publisher(pubuid, name)];
    var s1 := WithPublishers(s, g, pubs);
    PublishersPlusOne(s, g, pubuid, name, {name});
    RootedPublishers(s, g, pubs, {name});
    if name !in s1.topics {
      RootedIntroduce(s1, name, Default(ParseTypeName(typeName)), p, Just((g, pubuid)), {name});
      assert {name} - {name} + {} == {};
    } else {
      RootedLess(s1, {name});
      OperationsKeep(s1.clients[g], s1.topics[name], Just(pubuid), 0, false);
      PutBack(s1, g, AnnounceTopic(s1.clients[g], s1.topics[name], Just(pubuid)));
      SaneStays(s1, WithClient(s1, g, AnnounceTopic(s1.clients[g], s1.topics[name], Just(pubuid))));
    }
  }

  lemma SanePublish(env: Env, s: Server, g: Guid, pubuid: int, name: string, typeName: string, p: Properties)
    requires Sane(s) && !(g in s.clients && IsMeta(name) && TopicPub(name) !in s.topics)
    ensures Sane(Publish(env, s, g, pubuid, name, typeName, p))
  {
    hide Sane, AfterPublishing, Publish, UpdateClientPub, SetMeta, IsMeta, SameRest, TopicPub;
    if g in s.clients {
      PublishFirst(env, s, g, pubuid, name, typeName, p);
      var s2 := AfterPublishing(env, s, g, pubuid, name, typeName, p);
      if name !in s.topics && !IsMeta(name) {
        SaneNewTopic(env, s, g, pubuid, name, typeName, p);
        SaneTopicTopics(s2, name);
      } else {
        if !IsMeta(name) { SaneTopicTopics(s, name); }
        SaneOldTopic(env, s, g, pubuid, name, typeName, p);
      }
      SaneUpdateClient(env, s2, g);
      var s3 := UpdateClientPub(env, s2, g);
      SaneSetMeta(env, s3, TopicPub(name), env.enc.topicPublishers(Supplies(s3.clients, name)));
    } else {
      PublishByNobody(env, s, g, pubuid, name, typeName, p);
    }
  }

  lemma PublishByNobody(env: Env, s: Server, g: Guid, pubuid: int, name: string, typeName: string, p: Properties)
    requires g !in s.clients
    ensures Publish(env, s, g, pubuid, name, typeName, p) == s
  {
  }

  lemma SaneUnpublish(env: Env, s: Server, g: Guid, pubuid: int)
    requires Sane(s)
    ensures Sane(Unpublish(env, s, g, pubuid))
  {
    hide Rooted, UpdateClientPub, SetMeta, SameClient, TopicPub;
    if g in s.clients && pubuid in s.clients[g].publishers {
      var name := s.clients[g].publishers[pubuid].topic;
      var s1 := WithPublishers(s, g, s.clients[g].publishers - {pubuid});
      SaneClientTopics(s, g);
      RootedPublishers(s, g, s.clients[g].publishers - {pubuid}, {});
      SaneUpdateClient(env, s1, g);
      var s2 := UpdateClientPub(env, s1, g);
      SaneSetMeta(env, s2, TopicPub(name), env.enc.topicPublishers(Supplies(s2.clients, name)));
    }
  }

  lemma SaneAssign(s: Server, name: string, v: NTValue, time: nat)
    requires Sane(s) && (name in s.topics ==> Valid(v))
    ensures Sane(AssignTopic(s, name, v, time))
  {
    hide Rooted, FanOutAll, Assign, SameRest;
    if name in s.topics {
      var w := Assign(s.topics[name].value, v);
      var t := WithValue(s, name, w);
      WithValueShape(s, name, w);
      SaneStays(s, t);
      FanOutAllShape(t, name, time);
      SaneStays(t, FanOutAll(t, name, time));
    }
  }

  lemma SaneProperties(s: Server, name: string, p: Properties, updater: Maybe<Guid>)
    requires Sane(s) && name in s.topics
    ensures Sane(NotifyAll(WithProperties(s, name, p), name, updater))
  {
    hide Rooted, NotifyAll;
    var t := WithProperties(s, name, p);
    SaneStays(s, t);
    NotifyAllShape(t, name, updater);
    SaneStays(t, NotifyAll(t, name, updater));
  }

  lemma SaneOwn(s: Server, t: Server)
    requires Sane(s) && t.topics == s.topics && t.clients == s.clients && t.failed == s.failed
    ensures Sane(t)
  {
  }

  /** A call on the server itself may publish any name. */
  lemma SaneLocalPublish(env: Env, s: Server, pubuid: int, name: string, t: NTType, p: Properties)
    requires Sane(s)
    ensures Sane(LocalPublish(env, s, pubuid, name, t, p))
  {
    hide Rooted, PublishTopic, SetMeta, SameRest, Introduce;
    var s1 := s.(ownPublishers := s.ownPublishers[pubuid := Publisher(pubuid, name)]);
    SaneOwn(s, s1);
    var s2 := if name !in s1.topics then PublishTopic(env, s1, name, Default(t), p, Nothing) else s1;
    if name !in s1.topics {
      SaneLocalTopic(env, s1, name, Default(t), p);
    }
    RootedClients(s2);
    SaneSetMeta(env, s2, SERVER_PUB, env.enc.publishers(s2.ownPublishers));
  }

  lemma SaneLocalTopic(env: Env, s: Server, name: string, v: NTValue, p: Properties)
    requires Sane(s)
    ensures Sane(PublishTopic(env, s, name, v, p, Nothing))
  {
    hide Rooted, SetMeta, SameClient, Introduce, IsMeta;
    if IsMeta(name) {
      RootedIntroduce(s, name, v, p, Nothing, {});
      assert {} - {name} + {} == {};
    } else {
      RootedMore(s, {name, TopicPub(name)});
      RootedPublishTopic(env, s, name, v, p, Nothing);
    }
  }

  lemma RootedMore(s: Server, missing: set<string>)
    requires Rooted(s, {})
    ensures Rooted(s, missing)
  {
    hide IsMeta, ClientSub, ClientPub, TopicSub, TopicPub;
    forall g | g in s.clients ensures ClientRooted(s.clients[g], s.topics, missing) {
      assert ClientRooted(s.clients[g], s.topics, {});
    }
    forall n | n in s.topics ensures TopicRooted(n, s.topics, missing) {
      assert TopicRooted(n, s.topics, {});
    }
  }

  lemma SaneLocal(env: Env, s: Server, e: Event)
    requires Sane(s) && (e.LocalSubscribeEvent? || e.LocalUnsubscribeEvent? || e.LocalUnpublishEvent?)
    ensures Sane(Next(env, s, e))
  {
    hide Rooted, SetMeta, SameRest, Connect;
    RootedClients(s);
    match e {
      case LocalSubscribeEvent(sub) =>
        var s1 := s.(ownSubscriptions := s.ownSubscriptions[sub.uid := sub]);
        SaneOwn(s, s1);
        SaneSetMeta(env, s1, SERVER_SUB, env.enc.subscriptions(s1.ownSubscriptions));
      case LocalUnsubscribeEvent(subuid) =>
        var s1 := s.(ownSubscriptions := s.ownSubscriptions - {subuid});
        SaneOwn(s, s1);
        SaneSetMeta(env, s1, SERVER_SUB, env.enc.subscriptions(s1.ownSubscriptions));
      case LocalUnpublishEvent(pubuid) =>
        var s1 := s.(ownPublishers := s.ownPublishers - {pubuid});
        SaneOwn(s, s1);
        SaneSetMeta(env, s1, SERVER_PUB, env.enc.publishers(s1.ownPublishers));
    }
  }

  lemma SaneValue(env: Env, s: Server, g: Guid, id: int, v: NTValue)
    requires Sane(s) && !Stops(s, ValueEvent(g, id, v))
    ensures Sane(Value(env, s, g, id, v))
  {
    hide Sane, AssignTopic, FlushBinaryAll, ToInt32;
    SaneFlushBinary(s);
    if id != -1 && g in s.clients && ToInt32(id) in s.clients[g].publishers {
      var name := s.clients[g].publishers[ToInt32(id)].topic;
      SaneAssign(s, name, v, env.now);
      SaneFlushBinary(AssignTopic(s, name, v, env.now));
    }
  }

  lemma SaneEndOfText(env: Env, s: Server, g: Guid)
    requires Sane(s)
    ensures Sane(EndOfText(env, s, g))
  {
    hide Sane, FlushTextAll, FlushBinaryAll, InitialValues, SameRest;
    var s1 := FlushTextAll(s);
    SaneFlushBinary(s);
    OneClientShape(env, s1, g);
    SaneStays(s1, InitialValues(env, s1, g));
    SaneFlushBinary(InitialValues(env, s1, g));
  }

  lemma SaneStep(enc: Encoders, s: Server, i: Input)
    requires Sane(s) && Sound(s, i) && !Stops(s, i.event)
    ensures Sane(Step(Env(enc, i.now, i.order), s, i.event))
  {
    hide Rooted, Connect, Disconnect, Subscribe, Unsubscribe, Publish, Unpublish, EndOfText, Value, AssignTopic, NotifyAll,
         WithProperties, FlushBinaryAll, LocalSubscribe, LocalUnsubscribe, LocalPublish, LocalUnpublish, TopicPub, IsMeta, ToInt32;
    var env := Env(enc, i.now, i.order);
    match i.event {
      case ConnectEvent(g, requested) => SaneConnect(env, s, g, requested);
      case DisconnectEvent(g) => SaneDisconnect(env, s, g);
      case SubscribeEvent(g, sub) => SaneSubscribe(env, s, g, sub);
      case UnsubscribeEvent(g, subuid) => SaneUnsubscribe(env, s, g, subuid);
      case PublishEvent(g, pubuid, name, typeName, p) => SanePublish(env, s, g, pubuid, name, typeName, p);
      case UnpublishEvent(g, pubuid) => SaneUnpublish(env, s, g, pubuid);
      case SetPropertiesEvent(g, name, p, r, c) =>
        if name in s.topics {
          var was := s.topics[name].properties;
          SaneProperties(s, name, Properties(Or(p, was.persistent), Or(r, was.retained), Or(c, was.cached)), Just(g));
        }
      case EndOfTextEvent(g) => SaneEndOfText(env, s, g);
      case ValueEvent(g, id, v) => SaneValue(env, s, g, id, v);
      case LocalPublishEvent(pubuid, name, t, p) => SaneLocalPublish(env, s, pubuid, name, t, p);
      case LocalSetPropertiesEvent(name, p) => if name in s.topics { SaneProperties(s, name, p, Nothing); }
      case LocalUpdateEvent(pubuid, v, time) =>
        if pubuid in s.ownPublishers { SaneAssign(s, s.ownPublishers[pubuid].topic, v, time); }
      case FlushEvent => SaneFlushBinary(s);
      case _ => SaneLocal(env, s, i.event);
    }
  }

  // ------------------------------------------------------------ the failing events

  lemma PublishFails(env: Env, s: Server, g: Guid, pubuid: int, name: string, typeName: string, p: Properties)
    requires Sane(s) && g in s.clients && IsMeta(name) && TopicPub(name) !in s.topics
    ensures Publish(env, s, g, pubuid, name, typeName, p).failed
  {
    hide Sane, Publish, PublishTopic, UpdateClientPub, SetMeta, AnnounceTopic, TopicPub, Default, ParseTypeName, ClientPub;
    PublishFirst(env, s, g, pubuid, name, typeName, p);
    var s1 := WithPublishers(s, g, s.clients[g].publishers[pubuid := Publisher(pubuid, name)]);
    var s2 := AfterPublishing(env, s, g, pubuid, name, typeName, p);
    MetaPublishShape(env, s1, g, pubuid, name, Default(ParseTypeName(typeName)), p);
    SaneRuns(s);
    SaneClientTopics(s, g);
    var s3 := UpdateClientPub(env, s2, g);
    UpdateClientPubShape(env, s2, g);
    LastLookup(env, s3, TopicPub(name), env.enc.topicPublishers(Supplies(s3.clients, name)));
    assert TopicPub(name) != name by { MetaNames(name); }
  }

  /** Publishing fails exactly for a meta-topic whose list of publishers nobody has made. */
  lemma PublishFailsIff(env: Env, s: Server, g: Guid, pubuid: int, name: string, typeName: string, p: Properties)
    requires Sane(s) && g in s.clients
    ensures Publish(env, s, g, pubuid, name, typeName, p).failed <==> IsMeta(name) && TopicPub(name) !in s.topics
  {
    hide Sane, Publish, TopicPub, IsMeta;
    if IsMeta(name) && TopicPub(name) !in s.topics {
      PublishFails(env, s, g, pubuid, name, typeName, p);
    } else {
      SanePublish(env, s, g, pubuid, name, typeName, p);
      SaneRuns(Publish(env, s, g, pubuid, name, typeName, p));
    }
  }

  lemma ValueFails(env: Env, s: Server, g: Guid, id: int, v: NTValue)
    requires Sane(s) && Stops(s, ValueEvent(g, id, v))
    ensures Value(env, s, g, id, v).failed
  {
    hide Sane, ToInt32, FanOutAll, TopicPub;
    SaneClientTopics(s, g);
  }

  /** From any state that has not failed: the step fails exactly on these events, and on all others the state stays
      such that this holds again. */
  lemma StepFailsIff(enc: Encoders, s: Server, i: Input)
    requires Sane(s) && Sound(s, i)
    ensures Step(Env(enc, i.now, i.order), s, i.event).failed <==> Stops(s, i.event)
    ensures !Stops(s, i.event) ==> Sane(Step(Env(enc, i.now, i.order), s, i.event))
  {
    hide Sane, Step, Stops, Sound;
    if !Stops(s, i.event) {
      SaneStep(enc, s, i);
      SaneRuns(Step(Env(enc, i.now, i.order), s, i.event));
    } else {
      StopsFails(Env(enc, i.now, i.order), s, i.event);
    }
  }

  lemma StopsFails(env: Env, s: Server, e: Event)
    requires Sane(s) && Stops(s, e)
    ensures Step(env, s, e).failed
  {
    hide Publish, Value, Rooted, Connect, TopicPub, ToInt32, FanOutAll, IsMeta;
    match e {
      case PublishEvent(g, pubuid, name, typeName, p) => PublishFails(env, s, g, pubuid, name, typeName, p);
      case ValueEvent(g, id, v) => ValueFails(env, s, g, id, v);
      case LocalUpdateEvent(pubuid, v, time) =>
    }
  }

  /** Whether the k-th event of a run stops the server. */
  ghost predicate StopsAt(enc: Encoders, inputs: seq<Input>, k: nat) {
    k < |inputs| && Stops(Run(enc, inputs[..k]), inputs[k].event)
  }

  /** A run fails exactly if one of its events is of this kind in the state that it meets. */
  lemma {:induction false} RunFailsIff(enc: Encoders, inputs: seq<Input>)
    requires SoundRun(enc, inputs)
    ensures Run(enc, inputs).failed <==> exists k: nat :: StopsAt(enc, inputs, k)
    ensures !Run(enc, inputs).failed ==> Sane(Run(enc, inputs))
  {
    hide Step, Sound, Rooted, Stops;
    if inputs == [] {
      StartSane(enc);
    } else {
      var init, last := inputs[..|inputs| - 1], |inputs| - 1;
      RunFailsIff(enc, init);
      forall k: nat | k < last ensures StopsAt(enc, inputs, k) <==> StopsAt(enc, init, k) {
        assert inputs[..k] == init[..k];
      }
      if Run(enc, init).failed {
        FailedStays(Env(enc, inputs[last].now, inputs[last].order), Run(enc, init), inputs[last].event);
        var k: nat :| StopsAt(enc, init, k);
        assert StopsAt(enc, inputs, k);
      } else {
        StepFailsIff(enc, Run(enc, init), inputs[last]);
        assert StopsAt(enc, inputs, last) <==> Run(enc, inputs).failed;
        assert forall k: nat | k < last :: !StopsAt(enc, init, k);
      }
    }
  }

  lemma FailedStays(env: Env, s: Server, e: Event)
    requires s.failed
    ensures Step(env, s, e) == s
  {
  }

  /** Publishing ordinary names and values with a type is enough. */
  predicate Ordinary(e: Event) {
    match e
    case PublishEvent(_, _, name, _, _) => !IsMeta(name)
    case ValueEvent(_, _, v) => Valid(v)
    case LocalUpdateEvent(_, v, _) => Valid(v)
    case _ => true
  }

  lemma RunNeverFails(enc: Encoders, inputs: seq<Input>)
    requires SoundRun(enc, inputs) && forall i | i in inputs :: Ordinary(i.event)
    ensures !Run(enc, inputs).failed
  {
    hide Run, SoundRun, Rooted;
    RunFailsIff(enc, inputs);
    forall k: nat | k < |inputs| ensures !StopsAt(enc, inputs, k) {
      assert inputs[k] in inputs;
    }
  }

  lemma StartSane(enc: Encoders)
    ensures Sane(Start(enc))
  {
    assert IsMeta(CLIENTS) && IsMeta(SERVER_SUB) && IsMeta(SERVER_PUB);
  }

  lemma SaneRuns(s: Server)
    requires Sane(s)
    ensures !s.failed
  {
  }

  lemma LastLookup(env: Env, s: Server, name: string, content: seq<byte>)
    requires !s.failed
    ensures SetMeta(env, s, name, content).failed <==> name !in s.topics
  {
    hide SameClients;
    if name in s.topics { SetMetaShape(env, s, name, content); }
  }

  lemma UpdateClientPubShape(env: Env, s: Server, g: Guid)
    requires g in s.clients && ClientPub(s.clients[g].name) in s.topics
    ensures var t := UpdateClientPub(env, s, g); t.failed == s.failed && t.topics.Keys == s.topics.Keys
  {
    hide SameClients, SetMeta, ClientPub;
    SetMetaShape(env, s, ClientPub(s.clients[g].name), env.enc.publishers(s.clients[g].publishers));
  }

  lemma MetaPublishShape(env: Env, s: Server, g: Guid, pubuid: int, name: string, v: NTValue, p: Properties)
    requires IsMeta(name) && g in s.clients
    ensures var t := if name !in s.topics then PublishTopic(env, s, name, v, p, Just((g, pubuid)))
                     else WithClient(s, g, AnnounceTopic(s.clients[g], s.topics[name], Just(pubuid)));
            SameRest(s, t) && t.topics.Keys == s.topics.Keys + {name}
  {
    hide Introduce, AnnounceTopic, SameRest;
    if name !in s.topics {
      IntroduceShape(s, name, v, p, Just((g, pubuid)));
    } else {
      OperationsKeep(s.clients[g], s.topics[name], Just(pubuid), 0, false);
      PutBack(s, g, AnnounceTopic(s.clients[g], s.topics[name], Just(pubuid)));
    }
  }

  // ------------------------------------------------------------ runs that fail

  lemma ConnectShape(env: Env, s: Server, g: Guid, requested: string)
    requires Sane(s)
    ensures var t := Connect(env, s, g, requested);
            g in t.clients && t.clients[g].publishers == map[] && t.clients[g].subscriptions == map[] &&
            forall n :: n in t.topics ==> n in s.topics || (IsMeta(n) && TopicPub("$x") != n)
  {
    hide Introduce, SetMeta, SameRest, Rooted, IsMeta, NameFor, FlushTextOf, FlushBinaryOf, InitialValues,
         UpdateClientSub, UpdateClientPub, TopicPub, ClientSub, ClientPub;
    var name := NameFor(s.clients, requested);
    var meta := BinV(MsgpackBin, []);
    MetaNames(name);
    var s1 := WithClient(s, g, NewClient(name));
    RootedArrival(s, g, name);
    var s2 := IntroduceMeta(s1, ClientSub(name));
    IntroduceShape(s1, ClientSub(name), meta, META_PROPERTIES, Nothing);
    RootedIntroduce(s1, ClientSub(name), meta, META_PROPERTIES, Nothing, {ClientSub(name), ClientPub(name)});
    assert {ClientSub(name), ClientPub(name)} - {ClientSub(name)} + {} == {ClientPub(name)};
    var s3 := IntroduceMeta(s2, ClientPub(name));
    IntroduceShape(s2, ClientPub(name), meta, META_PROPERTIES, Nothing);
    RootedIntroduce(s2, ClientPub(name), meta, META_PROPERTIES, Nothing, {ClientPub(name)});
    assert {ClientPub(name)} - {ClientPub(name)} + {} == {};
    assert !s3.failed by { NotFailedYet(s, g, name, s1, s2, s3); }
    assert CLIENTS in s3.topics by { RootedClients(s3); }
    var s4 := UpdateClients(env, s3);
    SaneSetMeta(env, s3, CLIENTS, env.enc.roster(Names(s3.clients)));
    var s5 := UpdateClientSub(env, s4, g);
    SaneUpdateClient(env, s4, g);
    var s6 := UpdateClientPub(env, s5, g);
    SaneUpdateClient(env, s5, g);
    var s7 := FlushTextOf(s6, g);
    OneClientShape(env, s6, g);
    var s8 := InitialValues(env, s7, g);
    OneClientShape(env, s7, g);
    OneClientShape(env, s8, g);
    SameChain(s1, s2, s3, s4, s5, s6, s7, s8, FlushBinaryOf(s8, g), g);
    ListIsOther(name);
  }

  lemma ListIsOther(client: string)
    ensures TopicPub("$x") != ClientSub(client) && TopicPub("$x") != ClientPub(client)
  {
    assert TopicPub("$x")[1] == 'p' && ClientSub(client)[1] == 'c' && ClientPub(client)[1] == 'c';
  }

  lemma SameChain(s1: Server, s2: Server, s3: Server, s4: Server, s5: Server, s6: Server, s7: Server, s8: Server, s9: Server, g: Guid)
    requires SameRest(s1, s2) && SameRest(s2, s3) && SameRest(s3, s4) && SameRest(s4, s5) && SameRest(s5, s6)
    requires SameRest(s6, s7) && SameRest(s7, s8) && SameRest(s8, s9) && g in s1.clients
    ensures g in s9.clients && SameClient(s1.clients[g], s9.clients[g])
  {
    hide SameRest;
    SameFive(s1, s2, s3, s4, s5, s6);
    SameTwice(s6, s7, s8);
    SameTwice(s6, s8, s9);
    SameTwice(s1, s6, s9);
    SameIsSame(s1, s9, g);
  }

  lemma SameIsSame(s: Server, t: Server, g: Guid)
    requires SameRest(s, t) && g in s.clients
    ensures g in t.clients && SameClient(s.clients[g], t.clients[g])
  {
  }

  /** A client that connects and publishes "$x" stops the server. */
  lemma MetaPublishStops(enc: Encoders, p: Properties)
    ensures var inputs := [Input(0, [], ConnectEvent(0, "a")), Input(0, [], PublishEvent(0, 1, "$x", "int", p))];
            SoundRun(enc, inputs) && Run(enc, inputs).failed
  {
    hide Connect, Publish, Rooted, TopicPub, IsMeta;
    var first := Input(0, [], ConnectEvent(0, "a"));
    var second := Input(0, [], PublishEvent(0, 1, "$x", "int", p));
    OneMore(enc, [], first);
    OneMore(enc, [first], second);
    assert [] + [first] == [first] && [first] + [second] == [first, second];
    var s := Run(enc, [first]);
    StartSane(enc);
    StepFailsIff(enc, Start(enc), first);
    ConnectShape(Env(enc, 0, []), Start(enc), 0, "a");
    assert TopicPub("$x") !in Start(enc).topics by { ListIsNew(enc); }
    assert IsMeta("$x") by { DollarX(); }
    StepFailsIff(enc, s, second);
  }

  lemma ListIsNew(enc: Encoders)
    ensures TopicPub("$x") !in Start(enc).topics
  {
    assert TopicPub("$x")[1] == 'p' && CLIENTS[1] == 'c' && SERVER_SUB[1] == 's' && SERVER_PUB[1] == 's';
  }

  lemma DollarX()
    ensures IsMeta("$x") && !IsMeta("x")
  {
  }

  lemma OneMore(enc: Encoders, inputs: seq<Input>, i: Input)
    ensures Run(enc, inputs + [i]) == Step(Env(enc, i.now, i.order), Run(enc, inputs), i.event)
    ensures SoundRun(enc, inputs + [i]) <==> SoundRun(enc, inputs) && Sound(Run(enc, inputs), i)
  {
    hide Step, Sound, Start;
    assert (inputs + [i])[..|inputs|] == inputs;
  }

  /** A client that connects, publishes an ordinary topic and sends a value of type 99 stops the server. */
  lemma UnassignedValueStops(enc: Encoders, p: Properties)
    ensures var inputs := [Input(0, [], ConnectEvent(0, "a")), Input(0, [], PublishEvent(0, 1, "x", "int", p)),
                           Input(0, [], ValueEvent(0, 1, OtherV(UNASSIGNED)))];
            SoundRun(enc, inputs) && Run(enc, inputs).failed
  {
    hide Connect, Publish, Value, Rooted, TopicPub, IsMeta, ToInt32;
    var first := Input(0, [], ConnectEvent(0, "a"));
    var second := Input(0, [], PublishEvent(0, 1, "x", "int", p));
    var third := Input(0, [], ValueEvent(0, 1, OtherV(UNASSIGNED)));
    OneMore(enc, [], first);
    OneMore(enc, [first], second);
    OneMore(enc, [first, second], third);
    assert [] + [first] == [first] && [first] + [second] == [first, second] && [first, second] + [third] == [first, second, third];
    StartSane(enc);
    StepFailsIff(enc, Start(enc), first);
    ConnectShape(Env(enc, 0, []), Start(enc), 0, "a");
    DollarX();
    StepFailsIff(enc, Run(enc, [first]), second);
    PublishKeepsPublisher(Env(enc, 0, []), Run(enc, [first]), 0, 1, "x", "int", p);
    assert ToInt32(1) == 1 by { One(); }
    StepFailsIff(enc, Run(enc, [first, second]), third);
  }

  lemma One()
    ensures ToInt32(1) == 1
  {
  }

  lemma PublishKeepsPublisher(env: Env, s: Server, g: Guid, pubuid: int, name: string, typeName: string, p: Properties)
    requires Sane(s) && g in s.clients && !IsMeta(name)
    ensures var t := Publish(env, s, g, pubuid, name, typeName, p);
            g in t.clients && pubuid in t.clients[g].publishers && t.clients[g].publishers[pubuid].topic == name
  {
    hide Sane, AfterPublishing, Publish, UpdateClientPub, SetMeta, IsMeta, SameRest, TopicPub;
    PublishFirst(env, s, g, pubuid, name, typeName, p);
    var s2 := AfterPublishing(env, s, g, pubuid, name, typeName, p);
    PublishingKeepsPublisher(env, s, g, pubuid, name, typeName, p);
    if name !in s.topics {
      SaneNewTopic(env, s, g, pubuid, name, typeName, p);
      SaneTopicTopics(s2, name);
    } else {
      SaneTopicTopics(s, name);
      SaneOldTopic(env, s, g, pubuid, name, typeName, p);
    }
    var s3 := UpdateClientPub(env, s2, g);
    SaneUpdateClient(env, s2, g);
    SaneSetMeta(env, s3, TopicPub(name), env.enc.topicPublishers(Supplies(s3.clients, name)));
    SameIsSame(s2, s3, g);
    SameIsSame(s3, UpdateTopicPub(env, s3, name), g);
  }

  lemma PublishingKeepsPublisher(env: Env, s: Server, g: Guid, pubuid: int, name: string, typeName: string, p: Properties)
    requires Sane(s) && g in s.clients && !IsMeta(name)
    ensures var t := AfterPublishing(env, s, g, pubuid, name, typeName, p);
            g in t.clients && pubuid in t.clients[g].publishers && t.clients[g].publishers[pubuid].topic == name
  {
    hide PublishTopic, AnnounceTopic, Default, ParseTypeName, Rooted, PublishersRooted, TopicPub, IsMeta;
    var pubs := s.clients[g].publishers[pubuid := Publisher(pubuid, name)];
    var s1 := WithPublishers(s, g, pubs);
    if name !in s.topics {
      PublishersPlusOne(s, g, pubuid, name, {name, TopicPub(name)});
      RootedPublishers(s, g, pubs, {name, TopicPub(name)});
      RootedPublishTopic(env, s1, name, Default(ParseTypeName(typeName)), p, Just((g, pubuid)));
      SameIsSame(s1, PublishTopic(env, s1, name, Default(ParseTypeName(typeName)), p, Just((g, pubuid))), g);
    } else {
      OperationsKeep(s1.clients[g], s1.topics[name], Just(pubuid), 0, false);
    }
  }
}
