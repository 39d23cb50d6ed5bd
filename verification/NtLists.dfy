/** Over every run: each event changes only the topics that it is about, the lists in which the server describes
    itself are what they were when they were last refreshed, and the list of clients is always right. */
module NtLists {
  import opened Bytes
  import opened NtValues
  import opened Maybes
  import opened NtClient
  import opened NtServer
  import opened NtMetaTopics
  import opened NtFailures
  import opened NtMirrors
  import NtNames
  import opened NtTopics

  // ------------------------------------------------------------ which topics an event is about

  ghost predicate Touches(s: Server, e: Event, m: string) {
    match e
    case ConnectEvent(_, requested) =>
      m == CLIENTS || m == ClientSub(NameFor(s.clients, requested)) || m == ClientPub(NameFor(s.clients, requested))
    case DisconnectEvent(g) => g in s.clients && m == CLIENTS
    case SubscribeEvent(g, sub) => g in s.clients && (m == ClientSub(s.clients[g].name) || IsCoveredList(s, sub, m))
    case UnsubscribeEvent(g, u) =>
      g in s.clients && u in s.clients[g].subscriptions &&
      (m == ClientSub(s.clients[g].name) || IsCoveredList(s, s.clients[g].subscriptions[u], m))
    case PublishEvent(g, _, name, _, _) =>
      g in s.clients && (m == ClientPub(s.clients[g].name) || m == TopicPub(name) ||
                         (name !in s.topics && (m == name || (!IsMeta(name) && m == TopicSub(name)))))
    case UnpublishEvent(g, u) =>
      g in s.clients && u in s.clients[g].publishers &&
      (m == ClientPub(s.clients[g].name) || m == TopicPub(s.clients[g].publishers[u].topic))
    case SetPropertiesEvent(_, name, _, _, _) => name in s.topics && m == name
    case EndOfTextEvent(_) => false
    case ValueEvent(g, id, _) =>
      id != -1 && g in s.clients && ToInt32(id) in s.clients[g].publishers && m == s.clients[g].publishers[ToInt32(id)].topic
    case LocalSubscribeEvent(_) => m == SERVER_SUB
    case LocalUnsubscribeEvent(u) => u in s.ownSubscriptions && m == SERVER_SUB
    case LocalPublishEvent(_, name, _, _) =>
      m == SERVER_PUB || (name !in s.topics && (m == name || (!IsMeta(name) && (m == TopicSub(name) || m == TopicPub(name)))))
    case LocalUnpublishEvent(u) => u in s.ownPublishers && m == SERVER_PUB
    case LocalSetPropertiesEvent(name, _) => name in s.topics && m == name
    case LocalUpdateEvent(u, _, _) => u in s.ownPublishers && m == s.ownPublishers[u].topic
    case FlushEvent => false
  }

  /** The list of subscribers of a topic that the subscription covers. */
  predicate IsCoveredList(s: Server, sub: Subscription, m: string) {
    exists n :: n in s.topics && !IsMeta(n) && Covers(sub, n) && TopicSub(n) == m
  }

  lemma KeptTwice(s: Server, t: Server, u: Server, m: string)
    requires TopicKept(s, t, m) && Apart(t, u, m)
    ensures TopicKept(s, u, m)
  {
    hide SameClients;
  }

  lemma UpdateClientApart(env: Env, s: Server, g: Guid, m: string)
    ensures g in s.clients ==> m != ClientSub(s.clients[g].name) ==> Apart(s, UpdateClientSub(env, s, g), m)
    ensures g in s.clients ==> m != ClientPub(s.clients[g].name) ==> Apart(s, UpdateClientPub(env, s, g), m)
  {
    hide SetMeta, Apart, ClientSub, ClientPub;
    if g in s.clients {
      if m != ClientSub(s.clients[g].name) {
        SetMetaApart(env, s, ClientSub(s.clients[g].name), env.enc.subscriptions(s.clients[g].subscriptions), m);
      }
      if m != ClientPub(s.clients[g].name) {
        SetMetaApart(env, s, ClientPub(s.clients[g].name), env.enc.publishers(s.clients[g].publishers), m);
      }
    }
  }

  lemma NameStays(s: Server, t: Server, g: Guid)
    requires SameClients(s, t) && g in s.clients
    ensures g in t.clients && t.clients[g].name == s.clients[g].name
  {
    assert SameClient(s.clients[g], t.clients[g]);
  }

  /** From the arrival of a client to the end of clientConnected. */
  lemma ArrivalApart(env: Env, s1: Server, g: Guid, name: string, m: string)
    requires g in s1.clients && s1.clients[g].name == name && m != ClientSub(name) && m != ClientPub(name)
    ensures var s3 := IntroduceMeta(IntroduceMeta(s1, ClientSub(name)), ClientPub(name));
            var s4 := UpdateClients(env, s3);
            var s6 := UpdateClientPub(env, UpdateClientSub(env, s4, g), g);
            var t := FlushBinaryOf(InitialValues(env, FlushTextOf(s6, g), g), g);
            Apart(s1, s3, m) && Apart(s4, t, m)
  {
    hide Introduce, SetMeta, Apart, UpdateClientSub, UpdateClientPub, FlushTextOf, FlushBinaryOf, InitialValues, ClientSub, ClientPub, SameClients;
    var meta := BinV(MsgpackBin, []);
    var s2 := IntroduceMeta(s1, ClientSub(name));
    IntroduceApart(s1, ClientSub(name), meta, META_PROPERTIES, Nothing, m);
    var s3 := IntroduceMeta(s2, ClientPub(name));
    IntroduceApart(s2, ClientPub(name), meta, META_PROPERTIES, Nothing, m);
    ApartTwice(s1, s2, s3, m);
    ApartKeeps(s1, s3, m);
    var s4 := UpdateClients(env, s3);
    SetMetaClients(env, s3, CLIENTS, env.enc.roster(Names(s3.clients)));
    NameStays(s1, s3, g);
    NameStays(s3, s4, g);
    var s5 := UpdateClientSub(env, s4, g);
    UpdateClientApart(env, s4, g, m);
    ApartKeeps(s4, s5, m);
    NameStays(s4, s5, g);
    var s6 := UpdateClientPub(env, s5, g);
    UpdateClientApart(env, s5, g, m);
    ApartTwice(s4, s5, s6, m);
    var s7 := FlushTextOf(s6, g);
    OneClientApart(env, s6, g, m);
    ApartTwice(s4, s6, s7, m);
    var s8 := InitialValues(env, s7, g);
    OneClientApart(env, s7, g, m);
    ApartTwice(s4, s7, s8, m);
    OneClientApart(env, s8, g, m);
    ApartTwice(s4, s8, FlushBinaryOf(s8, g), m);
  }

  lemma ConnectTopics(env: Env, s: Server, g: Guid, requested: string, m: string)
    requires m != ClientSub(NameFor(s.clients, requested)) && m != ClientPub(NameFor(s.clients, requested))
    ensures m != CLIENTS ==> TopicKept(s, Connect(env, s, g, requested), m)
    ensures m == CLIENTS && m in s.topics && Packed(s, Roster) ==> Current(env.enc, Connect(env, s, g, requested), Roster)
  {
    hide IntroduceMeta, SetMeta, Apart, TopicKept, UpdateClientSub, UpdateClientPub, FlushTextOf, FlushBinaryOf, InitialValues,
         ClientSub, ClientPub, SameClients, Packed, Current, NameFor;
    var name := NameFor(s.clients, requested);
    var s1 := WithClient(s, g, NewClient(name));
    assert TopicKept(s, s1, m) by { SameTopics(s, s1, m); }
    ArrivalApart(env, s1, g, name, m);
    var s3 := IntroduceMeta(IntroduceMeta(s1, ClientSub(name)), ClientPub(name));
    var s4 := UpdateClients(env, s3);
    var t := Connect(env, s, g, requested);
    KeptTwice(s, s1, s3, m);
    if m != CLIENTS {
      SetMetaApart(env, s3, CLIENTS, env.enc.roster(Names(s3.clients)), m);
      KeptTwice(s, s3, s4, m);
      KeptTwice(s, s4, t, m);
    } else if m in s.topics && Packed(s, Roster) {
      ApartPacks(s, s3, Roster);
      BecomesCurrent(env, s3, Roster);
      CurrentStays(env.enc, s4, t, Roster);
    }
  }

  lemma SameTopics(s: Server, t: Server, m: string)
    requires t.topics == s.topics
    ensures TopicKept(s, t, m)
  {
  }

  lemma DisconnectTopics(env: Env, s: Server, g: Guid, m: string)
    requires g in s.clients
    ensures m != CLIENTS ==> TopicKept(s, Disconnect(env, s, g), m)
    ensures m == CLIENTS && m in s.topics && Packed(s, Roster) ==> Current(env.enc, Disconnect(env, s, g), Roster)
  {
    hide SetMeta, Apart, TopicKept, FlushBinaryAll, Packed, Current;
    var s1 := s.(clients := s.clients - {g});
    assert TopicKept(s, s1, m) by { SameTopics(s, s1, m); }
    var s2 := UpdateClients(env, s1);
    OneClientApart(env, s2, g, m);
    if m != CLIENTS {
      SetMetaApart(env, s1, CLIENTS, env.enc.roster(Names(s1.clients)), m);
      KeptTwice(s, s1, s2, m);
      KeptTwice(s, s2, FlushBinaryAll(s2), m);
    } else if m in s.topics && Packed(s, Roster) {
      ApartPacks(s, s1, Roster);
      BecomesCurrent(env, s1, Roster);
      CurrentStays(env.enc, s2, FlushBinaryAll(s2), Roster);
    }
  }

  lemma InOrderIff(s: Server, order: seq<string>, n: string)
    requires multiset(order) == multiset(s.topics.Keys)
    ensures n in order <==> n in s.topics
  {
    assert n in order <==> n in multiset(order);
  }

  /** Subscribing and unsubscribing, up to the refreshing of the lists. */
  lemma CoveredTopics(env: Env, s: Server, g: Guid, subs: map<int, Subscription>, sub: Subscription, m: string)
    requires g in s.clients && m != ClientSub(s.clients[g].name) && (m == CLIENTS || multiset(env.order) == multiset(s.topics.Keys))
    ensures var t := UpdateCovered(env, UpdateClientSub(env, WithSubscriptions(s, g, subs), g), sub, env.order);
            (!IsCoveredList(s, sub, m) ==> TopicKept(s, t, m)) &&
            (forall n :: n in s.topics && !IsMeta(n) && Covers(sub, n) && m == TopicSub(n) && m in s.topics && Packed(s, Subscribers(n)) ==>
               Current(env.enc, t, Subscribers(n)))
  {
    hide SetMeta, Apart, TopicKept, Packed, Current, UpdateClientSub, UpdateCovered, IsMeta, Covers, ClientSub, TopicSub, SameClients;
    var s1 := WithSubscriptions(s, g, subs);
    assert TopicKept(s, s1, m) by { SameTopics(s, s1, m); }
    var s2 := UpdateClientSub(env, s1, g);
    UpdateClientApart(env, s1, g, m);
    KeptTwice(s, s1, s2, m);
    if !IsCoveredList(s, sub, m) {
      forall n | n in env.order && !IsMeta(n) && Covers(sub, n) ensures TopicSub(n) != m {
        ListNames(Roster, Subscribers(n));
        if m != CLIENTS { InOrderIff(s, env.order, n); }
      }
      CoveredApart(env, s2, sub, env.order, m);
      KeptTwice(s, s2, UpdateCovered(env, s2, sub, env.order), m);
    }
    forall n | n in s.topics && !IsMeta(n) && Covers(sub, n) && m == TopicSub(n) && m in s.topics && Packed(s, Subscribers(n))
      ensures Current(env.enc, UpdateCovered(env, s2, sub, env.order), Subscribers(n))
    {
      ListNames(Roster, Subscribers(n));
      InOrderIff(s, env.order, n);
      ListsOfTopic(n);
      ApartPacks(s, s2, Subscribers(n));
      CoveredRefreshes(env, s2, sub, env.order, n);
    }
  }

  lemma SubscribeTopics(env: Env, s: Server, g: Guid, sub: Subscription, m: string)
    requires g in s.clients && m != ClientSub(s.clients[g].name) && (m == CLIENTS || multiset(env.order) == multiset(s.topics.Keys))
    ensures var t := Subscribe(env, s, g, sub);
            (!IsCoveredList(s, sub, m) ==> TopicKept(s, t, m)) &&
            (forall n :: n in s.topics && !IsMeta(n) && Covers(sub, n) && m == TopicSub(n) && m in s.topics && Packed(s, Subscribers(n)) ==>
               Current(env.enc, t, Subscribers(n)))
  {
    hide Apart, TopicKept, Packed, Current, UpdateClientSub, UpdateCovered, AnnounceCachedTo, IsMeta, Covers, ClientSub, TopicSub, WithSubscriptions,
         IsCoveredList;
    var subs := s.clients[g].subscriptions[sub.uid := sub];
    CoveredTopics(env, s, g, subs, sub, m);
    var s3 := UpdateCovered(env, UpdateClientSub(env, WithSubscriptions(s, g, subs), g), sub, env.order);
    var t := AnnounceCachedTo(env, s3, g);
    OneClientApart(env, s3, g, m);
    if !IsCoveredList(s, sub, m) { KeptTwice(s, s3, t, m); }
    forall n | n in s.topics && !IsMeta(n) && Covers(sub, n) && m == TopicSub(n) && m in s.topics && Packed(s, Subscribers(n))
      ensures Current(env.enc, t, Subscribers(n))
    {
      ListsOfTopic(n);
      CurrentStays(env.enc, s3, t, Subscribers(n));
    }
  }

  /** Publishing up to the refreshing of the client's own meta-topic. */
  lemma PublishBegins(env: Env, s: Server, g: Guid, pubuid: int, name: string, typeName: string, p: Properties, m: string)
    requires g in s.clients && !IsMeta(name)
    ensures var s2 := AfterPublishing(env, s, g, pubuid, name, typeName, p);
            g in s2.clients && s2.clients[g].name == s.clients[g].name &&
            (m != TopicPub(name) && (name in s.topics || (m != name && m != TopicSub(name))) ==> TopicKept(s, s2, m)) &&
            (name in s.topics ==> TopicKept(s, s2, m)) &&
            (name !in s.topics && Packed(s, Subscribers(name)) && Packed(s, Publishers(name)) ==>
               Current(env.enc, s2, Subscribers(name)) && Current(env.enc, s2, Publishers(name)))
  {
    hide PublishTopic, AnnounceTopic, Default, ParseTypeName, Apart, TopicKept, Packed, Current, TopicSub, TopicPub, IsMeta, SameClients, ListName;
    var s1 := WithPublishers(s, g, s.clients[g].publishers[pubuid := Publisher(pubuid, name)]);
    assert TopicKept(s, s1, m) by { SameTopics(s, s1, m); }
    if name !in s.topics {
      var v := Default(ParseTypeName(typeName));
      var s2 := PublishTopic(env, s1, name, v, p, Just((g, pubuid)));
      if m != name && m != TopicSub(name) && m != TopicPub(name) {
        PublishTopicApart(env, s1, name, v, p, Just((g, pubuid)), m);
        KeptTwice(s, s1, s2, m);
      }
      assert Packed(s1, Subscribers(name)) == Packed(s, Subscribers(name)) && Packed(s1, Publishers(name)) == Packed(s, Publishers(name)) by {
        PackedTopics(s, s1);
      }
      PublishTopicClients(env, s1, name, v, p, Just((g, pubuid)));
      if Packed(s, Subscribers(name)) && Packed(s, Publishers(name)) {
        PublishTopicLists(env, s1, name, v, p, Just((g, pubuid)));
      }
      NameStays(s1, s2, g);
    } else {
      OperationsKeep(s1.clients[g], s1.topics[name], Just(pubuid), 0, false);
      var s2 := WithClient(s1, g, AnnounceTopic(s1.clients[g], s1.topics[name], Just(pubuid)));
      assert TopicKept(s, s2, m) by { SameTopics(s, s2, m); }
    }
  }

  lemma PackedTopics(s: Server, t: Server)
    requires t.topics == s.topics
    ensures forall l :: Packed(t, l) == Packed(s, l)
  {
  }

  lemma PublishTopicClients(env: Env, s: Server, name: string, v: NTValue, p: Properties, publisher: Maybe<(Guid, int)>)
    requires !IsMeta(name)
    ensures SameClients(s, PublishTopic(env, s, name, v, p, publisher))
  {
    hide Introduce, SetMeta, SameClients, TopicSub, TopicPub, IsMeta;
    var s1 := Introduce(s, name, v, p, publisher);
    var s2 := IntroduceMeta(s1, TopicSub(name));
    var s3 := IntroduceMeta(s2, TopicPub(name));
    var s4 := UpdateTopicSub(env, s3, name);
    ClientsThrough(env, s, name, v, p, publisher, s1, s2, s3, s4, UpdateTopicPub(env, s4, name));
  }

  /** The list of publishers is refreshed last. */
  lemma LastRefresh(env: Env, s: Server, g: Guid, name: string, m: string)
    requires !IsMeta(name) && g in s.clients && m != ClientPub(s.clients[g].name)
    ensures var t := UpdateTopicPub(env, UpdateClientPub(env, s, g), name);
            (m != TopicPub(name) ==> Apart(s, t, m)) &&
            (m == TopicPub(name) && m in s.topics && Packed(s, Publishers(name)) ==> Current(env.enc, t, Publishers(name)))
  {
    hide SetMeta, UpdateClientPub, Apart, Packed, Current, ClientPub, TopicPub, IsMeta, TopicKept, SameClients;
    var s3 := UpdateClientPub(env, s, g);
    UpdateClientApart(env, s, g, m);
    if m != TopicPub(name) {
      SetMetaApart(env, s3, TopicPub(name), env.enc.topicPublishers(Supplies(s3.clients, name)), m);
      ApartTwice(s, s3, UpdateTopicPub(env, s3, name), m);
    } else if m in s.topics && Packed(s, Publishers(name)) {
      ListsOfTopic(name);
      ApartKeeps(s, s3, m);
      ApartPacks(s, s3, Publishers(name));
      BecomesCurrent(env, s3, Publishers(name));
    }
  }

  lemma PublishTopics(env: Env, s: Server, g: Guid, pubuid: int, name: string, typeName: string, p: Properties, m: string)
    requires g in s.clients && !IsMeta(name) && m != ClientPub(s.clients[g].name)
    ensures var t := Publish(env, s, g, pubuid, name, typeName, p);
            m != TopicPub(name) && (name in s.topics || (m != name && m != TopicSub(name))) ==> TopicKept(s, t, m)
  {
    hide AfterPublishing, Publish, UpdateClientPub, UpdateTopicPub, Apart, TopicKept, Packed, Current, ClientPub, TopicSub, TopicPub, IsMeta;
    PublishFirst(env, s, g, pubuid, name, typeName, p);
    PublishBegins(env, s, g, pubuid, name, typeName, p, m);
    var s2 := AfterPublishing(env, s, g, pubuid, name, typeName, p);
    LastRefresh(env, s2, g, name, m);
    if m != TopicPub(name) && (name in s.topics || (m != name && m != TopicSub(name))) {
      KeptTwice(s, s2, Publish(env, s, g, pubuid, name, typeName, p), m);
    }
  }

  /** The lists of the topic that is published. */
  lemma PublishLists(env: Env, s: Server, g: Guid, pubuid: int, name: string, typeName: string, p: Properties)
    requires g in s.clients && !IsMeta(name) && Packed(s, Subscribers(name)) && Packed(s, Publishers(name))
    requires name in s.topics ==> TopicPub(name) in s.topics
    ensures var t := Publish(env, s, g, pubuid, name, typeName, p);
            Current(env.enc, t, Publishers(name)) && (name !in s.topics ==> Current(env.enc, t, Subscribers(name)))
  {
    hide AfterPublishing, Publish, UpdateClientPub, UpdateTopicPub, Apart, TopicKept, Packed, Current, ClientPub, TopicSub, TopicPub, IsMeta, ListName;
    ListsOfTopic(name);
    PublishFirst(env, s, g, pubuid, name, typeName, p);
    var sub, pub := TopicSub(name), TopicPub(name);
    NotAList(Subscribers(name), s.clients[g].name);
    NotAList(Publishers(name), s.clients[g].name);
    PublishBegins(env, s, g, pubuid, name, typeName, p, pub);
    PublishBegins(env, s, g, pubuid, name, typeName, p, sub);
    var s2 := AfterPublishing(env, s, g, pubuid, name, typeName, p);
    var t := Publish(env, s, g, pubuid, name, typeName, p);
    if name in s.topics {
      ApartPacks(s, s2, Publishers(name));
    } else {
      CurrentIsPacked(env.enc, s2, Publishers(name));
    }
    LastRefresh(env, s2, g, name, pub);
    LastRefresh(env, s2, g, name, sub);
    if name !in s.topics {
      CurrentStays(env.enc, s2, t, Subscribers(name));
    }
  }

  /** The topic that is published, if it is new. */
  lemma PublishNew(env: Env, s: Server, g: Guid, pubuid: int, name: string, typeName: string, p: Properties)
    requires g in s.clients && !IsMeta(name) && name !in s.topics
    ensures var t := Publish(env, s, g, pubuid, name, typeName, p);
            name in t.topics && t.topics[name] == Topic(name, Default(ParseTypeName(typeName)), p, p.cached)
  {
    hide PublishTopic, AnnounceTopic, Publish, UpdateClientPub, UpdateTopicPub, SameClients, ClientPub, TopicPub, IsMeta, Default, ParseTypeName;
    PublishFirst(env, s, g, pubuid, name, typeName, p);
    PublishBegins(env, s, g, pubuid, name, typeName, p, name);
    var s1 := WithPublishers(s, g, s.clients[g].publishers[pubuid := Publisher(pubuid, name)]);
    PublishTopicNew(env, s1, name, Default(ParseTypeName(typeName)), p, Just((g, pubuid)));
    var s2 := AfterPublishing(env, s, g, pubuid, name, typeName, p);
    MetaNames(name);
    MetaNames(s.clients[g].name);
    LastRefresh(env, s2, g, name, name);
  }

  lemma UnpublishTopics(env: Env, s: Server, g: Guid, u: int, m: string)
    requires g in s.clients && u in s.clients[g].publishers && !IsMeta(s.clients[g].publishers[u].topic)
    requires m != ClientPub(s.clients[g].name)
    ensures var t, name := Unpublish(env, s, g, u), s.clients[g].publishers[u].topic;
            (m != TopicPub(name) ==> TopicKept(s, t, m)) &&
            (m == TopicPub(name) && m in s.topics && Packed(s, Publishers(name)) ==> Current(env.enc, t, Publishers(name)))
  {
    hide UpdateClientPub, UpdateTopicPub, Apart, TopicKept, Packed, Current, ClientPub, TopicPub, IsMeta;
    var name := s.clients[g].publishers[u].topic;
    var s1 := WithPublishers(s, g, s.clients[g].publishers - {u});
    assert TopicKept(s, s1, m) by { SameTopics(s, s1, m); }
    PackedTopics(s, s1);
    LastRefresh(env, s1, g, name, m);
    if m != TopicPub(name) { KeptTwice(s, s1, Unpublish(env, s, g, u), m); }
  }

  lemma LocalPublishTopics(env: Env, s: Server, pubuid: int, name: string, type_: NTType, p: Properties, m: string)
    requires !IsMeta(name) && m != SERVER_PUB
    ensures var t := LocalPublish(env, s, pubuid, name, type_, p);
            (name in s.topics || (m != name && m != TopicSub(name) && m != TopicPub(name)) ==> TopicKept(s, t, m)) &&
            (name !in s.topics && m == name ==> m in t.topics && t.topics[m] == Topic(name, Default(type_), p, p.cached))
  {
    hide PublishTopic, SetMeta, Apart, TopicSub, TopicPub, IsMeta, Default, SameClients;
    var s1 := s.(ownPublishers := s.ownPublishers[pubuid := Publisher(pubuid, name)]);
    SameTopics(s, s1, m);
    var s2 := if name !in s.topics then PublishTopic(env, s1, name, Default(type_), p, Nothing) else s1;
    if name !in s.topics {
      if m == name {
        PublishTopicNew(env, s1, name, Default(type_), p, Nothing);
      } else if m != TopicSub(name) && m != TopicPub(name) {
        PublishTopicApart(env, s1, name, Default(type_), p, Nothing, m);
        KeptTwice(s, s1, s2, m);
      }
    }
    SetMetaApart(env, s2, SERVER_PUB, env.enc.publishers(s2.ownPublishers), m);
    ApartKeeps(s2, UpdateServerPub(env, s2), m);
  }

  lemma LocalPublishLists(env: Env, s: Server, pubuid: int, name: string, type_: NTType, p: Properties, l: List)
    requires !IsMeta(name) && name !in s.topics && Packed(s, Subscribers(name)) && Packed(s, Publishers(name))
    requires l == Subscribers(name) || l == Publishers(name)
    ensures Current(env.enc, LocalPublish(env, s, pubuid, name, type_, p), l)
  {
    hide PublishTopic, SetMeta, Apart, IsMeta, Default, SameClients, Packed, Current, ListName;
    var s1 := s.(ownPublishers := s.ownPublishers[pubuid := Publisher(pubuid, name)]);
    PackedTopics(s, s1);
    PublishTopicLists(env, s1, name, Default(type_), p, Nothing);
    var s2 := PublishTopic(env, s1, name, Default(type_), p, Nothing);
    NotAList(l, "");
    SetMetaApart(env, s2, SERVER_PUB, env.enc.publishers(s2.ownPublishers), ListName(l));
    CurrentStays(env.enc, s2, UpdateServerPub(env, s2), l);
  }

  // ------------------------------------------------------------ every event

  /** Clients and the program itself publish and write ordinary topics only. */
  predicate PlainEvent(s: Server, e: Event) {
    AllPlain(s.clients) && Plain(s.ownPublishers) &&
    match e
    case PublishEvent(g, _, name, _, _) => g in s.clients ==> !IsMeta(name)
    case LocalPublishEvent(_, name, _, _) => !IsMeta(name)
    case _ => true
  }

  lemma ValueTopics(env: Env, s: Server, g: Guid, id: int, v: NTValue, m: string)
    requires !(id != -1 && g in s.clients && ToInt32(id) in s.clients[g].publishers && m == s.clients[g].publishers[ToInt32(id)].topic)
    ensures TopicKept(s, Value(env, s, g, id, v), m)
  {
    hide AssignTopic, Apart, FlushBinaryAll, ToInt32, TopicKept;
    SameTopics(s, s, m);
    if id != -1 && g in s.clients {
      var pubs := s.clients[g].publishers;
      var s1 := if ToInt32(id) in pubs then AssignTopic(s, pubs[ToInt32(id)].topic, v, env.now) else s;
      if ToInt32(id) in pubs {
        AssignApart(s, pubs[ToInt32(id)].topic, v, env.now, m);
        ApartKeeps(s, s1, m);
      }
      OneClientApart(env, s1, 0, m);
      KeptTwice(s, s1, FlushBinaryAll(s1), m);
    }
  }

  lemma OwnTopics(env: Env, s: Server, e: Event, m: string)
    requires e.LocalSubscribeEvent? || e.LocalUnsubscribeEvent? || e.LocalUnpublishEvent?
    requires !Touches(s, e, m)
    ensures TopicKept(s, Next(env, s, e), m)
  {
    hide SetMeta, Apart, TopicKept, Connect;
    SameTopics(s, s, m);
    match e {
      case LocalSubscribeEvent(sub) =>
        var s1 := s.(ownSubscriptions := s.ownSubscriptions[sub.uid := sub]);
        OwnRefresh(env, s, s1, SERVER_SUB, env.enc.subscriptions(s1.ownSubscriptions), m);
      case LocalUnsubscribeEvent(u) =>
        var s1 := s.(ownSubscriptions := s.ownSubscriptions - {u});
        if u in s.ownSubscriptions { OwnRefresh(env, s, s1, SERVER_SUB, env.enc.subscriptions(s1.ownSubscriptions), m); }
      case LocalUnpublishEvent(u) =>
        var s1 := s.(ownPublishers := s.ownPublishers - {u});
        if u in s.ownPublishers { OwnRefresh(env, s, s1, SERVER_PUB, env.enc.publishers(s1.ownPublishers), m); }
    }
  }

  lemma OwnRefresh(env: Env, s: Server, s1: Server, name: string, content: seq<byte>, m: string)
    requires s1.topics == s.topics && name != m
    ensures TopicKept(s, SetMeta(env, s1, name, content), m)
  {
    hide SetMeta, Apart, TopicKept;
    SameTopics(s, s1, m);
    SetMetaApart(env, s1, name, content, m);
    KeptTwice(s, s1, SetMeta(env, s1, name, content), m);
  }

  /** An event leaves every topic alone that it is not about: its value, its properties, and whether it is there. */
  lemma StepKeepsTopic(enc: Encoders, s: Server, i: Input, m: string)
    requires PlainEvent(s, i.event) && (m == CLIENTS || Sound(s, i)) && !Touches(s, i.event, m)
    ensures TopicKept(s, Step(Env(enc, i.now, i.order), s, i.event), m)
  {
    hide Connect, Disconnect, Subscribe, UpdateCovered, UpdateClientSub, Publish, Unpublish, EndOfText, Value, AssignTopic, NotifyAll,
         WithProperties, FlushBinaryAll, LocalPublish, Apart, TopicKept, IsMeta, ClientSub, ClientPub, TopicSub, TopicPub, NameFor,
         IsCoveredList, ToInt32;
    var env := Env(enc, i.now, i.order);
    SameTopics(s, s, m);
    match i.event {
      case ConnectEvent(g, requested) => ConnectTopics(env, s, g, requested, m);
      case DisconnectEvent(g) => if g in s.clients { DisconnectTopics(env, s, g, m); } else { NobodyLeaves(env, s, g); }
      case SubscribeEvent(g, sub) => if g in s.clients { SubscribeTopics(env, s, g, sub, m); } else { NobodySubscribes(env, s, g, sub); }
      case UnsubscribeEvent(g, u) =>
        if g in s.clients && u in s.clients[g].subscriptions {
          CoveredTopics(env, s, g, s.clients[g].subscriptions - {u}, s.clients[g].subscriptions[u], m);
        }
      case PublishEvent(g, pubuid, name, typeName, p) =>
        if g in s.clients { PublishTopics(env, s, g, pubuid, name, typeName, p, m); } else { NobodyPublishes(env, s, g, pubuid, name, typeName, p); }
      case UnpublishEvent(g, u) =>
        if g in s.clients && u in s.clients[g].publishers {
          ItsPlain(s, g, u);
          UnpublishTopics(env, s, g, u, m);
        } else {
          NobodyUnpublishes(env, s, g, u);
        }
      case SetPropertiesEvent(g, name, p, r, c) =>
        if name in s.topics {
          var was := s.topics[name].properties;
          PropertiesApart(s, name, Properties(Or(p, was.persistent), Or(r, was.retained), Or(c, was.cached)), Just(g), m);
          ApartKeeps(s, SetProperties(s, g, name, p, r, c), m);
        }
      case EndOfTextEvent(g) => EndOfTextTopics(env, s, g, m);
      case ValueEvent(g, id, v) => ValueTopics(env, s, g, id, v, m);
      case LocalPublishEvent(pubuid, name, t, p) => LocalPublishTopics(env, s, pubuid, name, t, p, m);
      case LocalSetPropertiesEvent(name, p) =>
        if name in s.topics {
          PropertiesApart(s, name, p, Nothing, m);
          ApartKeeps(s, LocalSetProperties(s, name, p), m);
        }
      case LocalUpdateEvent(u, v, time) =>
        if u in s.ownPublishers {
          AssignApart(s, s.ownPublishers[u].topic, v, time, m);
          ApartKeeps(s, AssignTopic(s, s.ownPublishers[u].topic, v, time), m);
        }
      case FlushEvent =>
        OneClientApart(env, s, 0, m);
        ApartKeeps(s, FlushBinaryAll(s), m);
      case _ => OwnTopics(env, s, i.event, m);
    }
  }

  lemma ItsPlain(s: Server, g: Guid, u: int)
    requires AllPlain(s.clients) && g in s.clients && u in s.clients[g].publishers
    ensures !IsMeta(s.clients[g].publishers[u].topic)
  {
  }

  lemma NobodyLeaves(env: Env, s: Server, g: Guid)
    requires g !in s.clients
    ensures Disconnect(env, s, g) == s
  {
  }

  lemma NobodySubscribes(env: Env, s: Server, g: Guid, sub: Subscription)
    requires g !in s.clients
    ensures Subscribe(env, s, g, sub) == s
  {
  }

  lemma NobodyPublishes(env: Env, s: Server, g: Guid, pubuid: int, name: string, typeName: string, p: Properties)
    requires g !in s.clients
    ensures Publish(env, s, g, pubuid, name, typeName, p) == s
  {
  }

  lemma NobodyUnpublishes(env: Env, s: Server, g: Guid, u: int)
    requires !(g in s.clients && u in s.clients[g].publishers)
    ensures Unpublish(env, s, g, u) == s
  {
  }

  lemma EndOfTextTopics(env: Env, s: Server, g: Guid, m: string)
    ensures TopicKept(s, EndOfText(env, s, g), m)
  {
    hide FlushTextAll, FlushBinaryAll, InitialValues, Apart, TopicKept;
    var s1 := FlushTextAll(s);
    OneClientApart(env, s, g, m);
    ApartKeeps(s, s1, m);
    var s2 := InitialValues(env, s1, g);
    OneClientApart(env, s1, g, m);
    KeptTwice(s, s1, s2, m);
    OneClientApart(env, s2, g, m);
    KeptTwice(s, s2, FlushBinaryAll(s2), m);
  }

  // ------------------------------------------------------------ the lists after an event

  /** The events after which a list is as it should be. */
  predicate Refreshes(s: Server, e: Event, l: List) {
    match e
    case ConnectEvent(_, _) => l.Roster?
    case DisconnectEvent(g) => l.Roster? && g in s.clients
    case SubscribeEvent(g, sub) => g in s.clients && l.Subscribers? && l.n in s.topics && Covers(sub, l.n)
    case UnsubscribeEvent(g, u) =>
      g in s.clients && u in s.clients[g].subscriptions && l.Subscribers? && l.n in s.topics && Covers(s.clients[g].subscriptions[u], l.n)
    case PublishEvent(g, _, name, _, _) =>
      g in s.clients && (l == Publishers(name) || (l == Subscribers(name) && name !in s.topics))
    case UnpublishEvent(g, u) => g in s.clients && u in s.clients[g].publishers && l == Publishers(s.clients[g].publishers[u].topic)
    case LocalPublishEvent(_, name, _, _) => name !in s.topics && (l == Publishers(name) || l == Subscribers(name))
    case _ => false
  }

  lemma NotRefreshed(s: Server, e: Event, l: List)
    requires PlainEvent(s, e) && OrdinaryList(l) && !Refreshes(s, e, l)
    ensures Touches(s, e, ListName(l)) ==>
              ListName(l) in s.topics && ((e.SetPropertiesEvent? && e.name == ListName(l)) || (e.LocalSetPropertiesEvent? && e.name == ListName(l)))
  {
    hide Covers, IsMeta, TopicSub, TopicPub, ClientSub, ClientPub, ListName, NameFor, ToInt32;
    forall a ensures ListName(l) != ClientSub(a) && ListName(l) != ClientPub(a) && (!IsMeta(a) ==> ListName(l) != a) { NotAList(l, a); }
    NotAList(l, "");
    forall n ensures ListName(l) == TopicSub(n) <==> l == Subscribers(n) { ListNames(l, Subscribers(n)); NameOf(n); }
    forall n ensures ListName(l) == TopicPub(n) <==> l == Publishers(n) { ListNames(l, Publishers(n)); NameOf(n); }
    ListNames(l, Roster);
    NameOf("");
  }

  lemma NameOf(n: string)
    ensures ListName(Subscribers(n)) == TopicSub(n) && ListName(Publishers(n)) == TopicPub(n) && ListName(Roster) == CLIENTS
  {
  }

  predicate ValueKept(s: Server, t: Server, m: string) {
    (m in t.topics <==> m in s.topics) && (m in s.topics ==> t.topics[m].value == s.topics[m].value)
  }

  lemma PropertiesKeepValue(env: Env, s: Server, e: Event)
    requires e.SetPropertiesEvent? || e.LocalSetPropertiesEvent?
    ensures SameClients(s, Next(env, s, e)) && forall m :: ValueKept(s, Next(env, s, e), m)
  {
    hide Notify, Connect, SameClient;
    if e.SetPropertiesEvent? && e.name in s.topics {
      var was := s.topics[e.name].properties;
      var p := Properties(Or(e.persistent, was.persistent), Or(e.retained, was.retained), Or(e.cached, was.cached));
      NotifyAllShape(WithProperties(s, e.name, p), e.name, Just(e.g));
    }
    if e.LocalSetPropertiesEvent? && e.name in s.topics {
      NotifyAllShape(WithProperties(s, e.name, e.properties), e.name, Nothing);
    }
    ClientsItself(s);
  }

  lemma ClientsItself(s: Server)
    ensures SameClients(s, s)
  {
  }

  /** An event that does not refresh a list leaves what is in it alone. */
  lemma ListStays(enc: Encoders, s: Server, i: Input, l: List)
    requires PlainEvent(s, i.event) && (l.Roster? || Sound(s, i)) && OrdinaryList(l) && !Refreshes(s, i.event, l) && !s.failed
    ensures ValueKept(s, Step(Env(enc, i.now, i.order), s, i.event), ListName(l))
  {
    hide ListName, Touches, Refreshes, PlainEvent, Next, Sound;
    NotRefreshed(s, i.event, l);
    NameOf("");
    if Touches(s, i.event, ListName(l)) {
      NextIs(Env(enc, i.now, i.order), s, i.event);
      PropertiesKeepValue(Env(enc, i.now, i.order), s, i.event);
    } else {
      StepKeepsTopic(enc, s, i, ListName(l));
    }
  }

  /** A state of the server in which nothing has failed and nobody writes meta-topics. */
  predicate Settled(s: Server) {
    Sane(s) && MetaTyped(s.topics)
  }

  lemma SettledLists(s: Server, l: List)
    requires Settled(s) && OrdinaryList(l)
    ensures Packed(s, l) && !s.failed
    ensures l.Roster? || l.n in s.topics ==> ListName(l) in s.topics
    ensures !l.Roster? ==> ListName(Subscribers(l.n)) == TopicSub(l.n) && ListName(Publishers(l.n)) == TopicPub(l.n)
  {
    hide TopicSub, TopicPub, ClientRooted, ListOfMeta;
    NotAList(l, "");
    if !l.Roster? {
      NameOf(l.n);
      if l.n in s.topics { assert TopicRooted(l.n, s.topics, {}); }
    }
  }

  /** After every event each list either packs exactly who is meant now, or is what it was. */
  lemma StepLists(enc: Encoders, s: Server, i: Input, l: List)
    requires Settled(s) && PlainEvent(s, i.event) && Sound(s, i) && OrdinaryList(l)
    ensures var t := Step(Env(enc, i.now, i.order), s, i.event);
            if Refreshes(s, i.event, l) then Current(enc, t, l) else ValueKept(s, t, ListName(l))
  {
    hide Connect, Disconnect, Subscribe, Unsubscribe, Publish, Unpublish, LocalPublish, TopicKept, IsMeta, ListName, Current, Packed, Settled,
         ClientSub, ClientPub, TopicSub, TopicPub, Covers, NameFor, Step;
    SettledLists(s, l);
    if !Refreshes(s, i.event, l) {
      ListStays(enc, s, i, l);
    } else {
      NextIs(Env(enc, i.now, i.order), s, i.event);
      StepRefreshes(enc, s, i, l);
    }
  }

  lemma NextIs(env: Env, s: Server, e: Event)
    requires !s.failed
    ensures Step(env, s, e) == Next(env, s, e)
  {
    hide Next;
  }

  lemma StepRefreshes(enc: Encoders, s: Server, i: Input, l: List)
    requires Settled(s) && PlainEvent(s, i.event) && Sound(s, i) && OrdinaryList(l) && Refreshes(s, i.event, l)
    ensures Current(enc, Next(Env(enc, i.now, i.order), s, i.event), l)
  {
    hide Connect, Disconnect, Subscribe, UpdateCovered, UpdateClientSub, Publish, Unpublish, LocalPublish, TopicKept, IsMeta, ListName, Current,
         Packed, Settled, ClientSub, ClientPub, TopicSub, TopicPub, Covers, NameFor, IsCoveredList;
    var env := Env(enc, i.now, i.order);
    SettledLists(s, l);
    NameOf("");
    match i.event {
      case ConnectEvent(g, requested) =>
        NotAList(Roster, NameFor(s.clients, requested));
        ConnectTopics(env, s, g, requested, CLIENTS);
      case DisconnectEvent(g) => DisconnectTopics(env, s, g, CLIENTS);
      case SubscribeEvent(g, sub) =>
        NotAList(l, s.clients[g].name);
        SubscribeTopics(env, s, g, sub, TopicSub(l.n));
      case UnsubscribeEvent(g, u) =>
        NotAList(l, s.clients[g].name);
        CoveredTopics(env, s, g, s.clients[g].subscriptions - {u}, s.clients[g].subscriptions[u], TopicSub(l.n));
      case PublishEvent(g, pubuid, name, typeName, p) =>
        SettledLists(s, Publishers(name));
        SettledLists(s, Subscribers(name));
        PublishLists(env, s, g, pubuid, name, typeName, p);
      case UnpublishEvent(g, u) =>
        NotAList(l, s.clients[g].name);
        PublishedIsThere(s, g, u);
        UnpublishTopics(env, s, g, u, TopicPub(l.n));
      case LocalPublishEvent(pubuid, name, t, p) =>
        SettledLists(s, Publishers(name));
        SettledLists(s, Subscribers(name));
        LocalPublishLists(env, s, pubuid, name, t, p, l);
    }
  }

  lemma PublishedIsThere(s: Server, g: Guid, u: int)
    requires Settled(s) && g in s.clients && u in s.clients[g].publishers
    ensures s.clients[g].publishers[u].topic in s.topics
  {
    hide TopicPub;
    SaneClientTopics(s, g);
  }

  // ------------------------------------------------------------ the list of clients

  /** Every list that mirrors clients, and the list of clients itself, holds what it should. */
  predicate AllMirrored(enc: Encoders, s: Server) {
    Mirrored(enc, s, Nothing, Nothing) && Current(enc, s, Roster)
  }

  lemma MirroredIsPlain(enc: Encoders, s: Server, i: Input)
    requires Mirrored(enc, s, Nothing, Nothing) && Regular(s, i.event) && !Step(Env(enc, i.now, i.order), s, i.event).failed
    ensures PlainEvent(s, i.event)
  {
    hide Publish, Connect, Plain, MetaTyped, IsMeta, Distinct, MirrorsOwn;
    if i.event.PublishEvent? && i.event.g in s.clients && IsMeta(i.event.name) {
      var e := i.event;
      MetaPublishFails(Env(enc, i.now, i.order), s, e.g, e.pubuid, e.name, e.typeName, e.properties);
    }
  }

  lemma SameNames(env: Env, s: Server, e: Event)
    requires !e.ConnectEvent? && !(e.DisconnectEvent? && e.g in s.clients) && !s.failed
    ensures Names(Step(env, s, e).clients) == Names(s.clients)
  {
    hide Connect, Next;
    NtNames.ClientsAfter(env, s, e);
    NtNames.NextKept(env, s, e);
  }

  lemma RosterStays(enc: Encoders, s: Server, i: Input)
    requires Current(enc, s, Roster) && PlainEvent(s, i.event) && !s.failed
    ensures Current(enc, Step(Env(enc, i.now, i.order), s, i.event), Roster)
  {
    hide Step, Names, NameFor, ClientSub, ClientPub;
    var env := Env(enc, i.now, i.order);
    NameOf("");
    NextIs(env, s, i.event);
    if i.event.ConnectEvent? {
      NotAList(Roster, NameFor(s.clients, i.event.requested));
      NtNames.NextConnect(env, s, i.event);
      ConnectTopics(env, s, i.event.g, i.event.requested, CLIENTS);
    } else if i.event.DisconnectEvent? && i.event.g in s.clients {
      NextDisconnect(env, s, i.event);
      DisconnectTopics(env, s, i.event.g, CLIENTS);
    } else {
      ListStays(enc, s, i, Roster);
      SameNames(env, s, i.event);
    }
  }

  lemma NextDisconnect(env: Env, s: Server, e: Event)
    requires e.DisconnectEvent?
    ensures Next(env, s, e) == Disconnect(env, s, e.g)
  {
    hide Connect, Disconnect;
  }

  /** After every run that has not failed, in which names can be granted and the program itself publishes no meta-topic:
      every client has a name of its own, its two meta-topics hold its subscriptions and its publishers, the two topics
      of the server hold the server's, and the list of clients the names of exactly those who are connected. */
  lemma {:induction false} RunMirrored(enc: Encoders, inputs: seq<Input>)
    requires RegularRun(enc, inputs) && !Run(enc, inputs).failed
    ensures AllMirrored(enc, Run(enc, inputs))
  {
    hide Step, Mirrored, Regular, Current, PlainEvent;
    RunClientsMirrored(enc, inputs);
    if inputs == [] {
      StartRoster(enc);
    } else {
      var init, i := inputs[..|inputs| - 1], inputs[|inputs| - 1];
      var s := Run(enc, init);
      assert !s.failed by { FailedForGood(Env(enc, i.now, i.order), s, i.event); }
      RunMirrored(enc, init);
      MirroredIsPlain(enc, s, i);
      RosterStays(enc, s, i);
    }
  }

  lemma StartRoster(enc: Encoders)
    ensures Current(enc, Start(enc), Roster)
  {
    assert Names(map[]) == map[];
  }

  // ------------------------------------------------------------ an ordinary topic

  function Given(m: Maybe<bool>, b: bool): bool {
    if m.Just? then m.value else b
  }

  function WithThese(t: Topic, p: Properties): Topic {
    t.(properties := p, keptCached := t.keptCached && p.cached)
  }

  /** The topic that there is after an event, if any: a new one is as its publisher says, with an empty value; properties
      change as they are given; and a value is assigned if it comes from a publisher of this topic. */
  function TopicAfter(s: Server, e: Event, n: string): Maybe<Topic> {
    if n !in s.topics then
      match e
      case PublishEvent(g, _, name, typeName, p) =>
        if g in s.clients && name == n then Just(Topic(n, Default(ParseTypeName(typeName)), p, p.cached)) else Nothing
      case LocalPublishEvent(_, name, t, p) => if name == n then Just(Topic(n, Default(t), p, p.cached)) else Nothing
      case _ => Nothing
    else
      var t := s.topics[n];
      match e
      case SetPropertiesEvent(_, name, persistent, retained, cached) =>
        var p := t.properties;
        Just(if name == n then WithThese(t, Properties(Given(persistent, p.persistent), Given(retained, p.retained), Given(cached, p.cached)))
             else t)
      case LocalSetPropertiesEvent(name, p) => Just(if name == n then WithThese(t, p) else t)
      case ValueEvent(g, id, v) =>
        Just(if id != -1 && g in s.clients && PublishesAs(s.clients[g].publishers, ToInt32(id), n) && Valid(v)
             then t.(value := Assign(t.value, v)) else t)
      case LocalUpdateEvent(u, v, _) =>
        Just(if PublishesAs(s.ownPublishers, u, n) && Valid(v) then t.(value := Assign(t.value, v)) else t)
      case _ => Just(t)
  }

  predicate PublishesAs(pubs: map<int, Publisher>, u: int, n: string) {
    u in pubs && pubs[u].topic == n
  }

  predicate HasTopic(t: Server, n: string, topic: Maybe<Topic>) {
    if n in t.topics then topic == Just(t.topics[n]) else topic == Nothing
  }

  lemma HasOwn(s: Server, n: string)
    ensures HasTopic(s, n, if n in s.topics then Just(s.topics[n]) else Nothing)
  {
  }

  lemma KeptHas(s: Server, t: Server, n: string)
    requires TopicKept(s, t, n)
    ensures HasTopic(t, n, if n in s.topics then Just(s.topics[n]) else Nothing)
  {
  }

  lemma AssignHas(s: Server, name: string, v: NTValue, time: nat)
    requires name in s.topics
    ensures HasTopic(AssignTopic(s, name, v, time), name,
                     Just(if Valid(v) then s.topics[name].(value := Assign(s.topics[name].value, v)) else s.topics[name]))
  {
    hide FanOut, Assign;
  }

  lemma ValueHas(env: Env, s: Server, g: Guid, id: int, v: NTValue, n: string)
    requires n in s.topics && id != -1 && g in s.clients && PublishesAs(s.clients[g].publishers, ToInt32(id), n)
    ensures HasTopic(Value(env, s, g, id, v), n, Just(if Valid(v) then s.topics[n].(value := Assign(s.topics[n].value, v)) else s.topics[n]))
  {
    hide FlushBinary, AssignTopic, Assign, ToInt32;
    AssignHas(s, n, v, env.now);
  }

  lemma PropertiesHave(s: Server, n: string, p: Properties, updater: Maybe<Guid>)
    requires n in s.topics
    ensures HasTopic(NotifyAll(WithProperties(s, n, p), n, updater), n, Just(WithThese(s.topics[n], p)))
  {
    hide Notify;
  }

  /** Every event does to an ordinary topic exactly this. */
  lemma StepTopic(enc: Encoders, s: Server, i: Input, n: string)
    requires PlainEvent(s, i.event) && Sound(s, i) && !IsMeta(n) && !s.failed
    ensures HasTopic(Step(Env(enc, i.now, i.order), s, i.event), n, TopicAfter(s, i.event, n))
  {
    hide Connect, Disconnect, Subscribe, Unsubscribe, Publish, Unpublish, EndOfText, Value, AssignTopic, NotifyAll, WithProperties,
         FlushBinaryAll, LocalPublish, LocalSubscribe, LocalUnsubscribe, LocalUnpublish, HasTopic, IsMeta, ClientSub, ClientPub, TopicSub, TopicPub,
         NameFor, ToInt32, Assign, Default, ParseTypeName, WithThese, TopicKept;
    var env := Env(enc, i.now, i.order);
    var t := Step(env, s, i.event);
    if !Touches(s, i.event, n) {
      StepKeepsTopic(enc, s, i, n);
      KeptHas(s, t, n);
    } else {
      OrdinaryNames(s, i.event, n);
      match i.event {
        case PublishEvent(g, pubuid, name, typeName, p) =>
          PublishNew(env, s, g, pubuid, name, typeName, p);
          HasOwn(t, n);
        case LocalPublishEvent(pubuid, name, type_, p) =>
          ClientsIsMeta();
          LocalPublishTopics(env, s, pubuid, name, type_, p, n);
          HasOwn(t, n);
        case SetPropertiesEvent(g, name, p, r, c) =>
          var was := s.topics[name].properties;
          PropertiesHave(s, n, Properties(Or(p, was.persistent), Or(r, was.retained), Or(c, was.cached)), Just(g));
        case LocalSetPropertiesEvent(name, p) => PropertiesHave(s, n, p, Nothing);
        case ValueEvent(g, id, v) =>
          if n in s.topics { ValueHas(env, s, g, id, v, n); } else { NotThere(env, s, i.event, n); }
        case LocalUpdateEvent(u, v, time) =>
          if n in s.topics { AssignHas(s, n, v, time); } else { NotThere(env, s, i.event, n); }
        case _ =>
      }
    }
  }

  lemma NotThere(env: Env, s: Server, e: Event, n: string)
    requires (e.ValueEvent? || e.LocalUpdateEvent?) && n !in s.topics
    ensures HasTopic(Next(env, s, e), n, Nothing)
  {
    hide FanOut, FlushBinary, Assign, ToInt32, Connect;
  }

  /** The other names that an event is about are those of meta-topics. */
  lemma OrdinaryNames(s: Server, e: Event, n: string)
    requires PlainEvent(s, e) && !IsMeta(n) && Touches(s, e, n)
    ensures match e
            case PublishEvent(g, _, name, _, _) => g in s.clients && name == n && n !in s.topics
            case LocalPublishEvent(_, name, _, _) => name == n && n !in s.topics
            case SetPropertiesEvent(_, name, _, _, _) => name == n && n in s.topics
            case LocalSetPropertiesEvent(name, _) => name == n && n in s.topics
            case ValueEvent(g, id, _) => id != -1 && g in s.clients && PublishesAs(s.clients[g].publishers, ToInt32(id), n)
            case LocalUpdateEvent(u, _, _) => PublishesAs(s.ownPublishers, u, n)
            case _ => false
  {
    hide IsMeta, ClientSub, ClientPub, TopicSub, TopicPub, NameFor, ToInt32, Covers;
    forall a ensures TopicSub(a) != n && TopicPub(a) != n && ClientSub(a) != n && ClientPub(a) != n { MetaNames(a); }
    NotAList(Roster, n);
    NameOf("");
    ClientsIsMeta();
  }
}
