/** Client names are pairwise distinct, whatever topics are published. */
module NtNames {
  import opened Bytes
  import opened NtValues
  import opened Maybes
  import opened NtClient
  import opened NtServer
  import opened NtMetaTopics
  import opened NtFailures
  import opened Decimals

  /** Clients may leave, but none comes or changes its name. */
  predicate NamesKept(s: Server, t: Server) {
    forall g :: g in t.clients ==> g in s.clients && t.clients[g].name == s.clients[g].name
  }

  lemma KeptTwice(s: Server, t: Server, u: Server)
    requires NamesKept(s, t) && NamesKept(t, u)
    ensures NamesKept(s, u)
  {
  }

  lemma SameIsKept(s: Server, t: Server)
    requires SameRest(s, t)
    ensures NamesKept(s, t)
  {
    assert forall g :: g in s.clients ==> SameClient(s.clients[g], t.clients[g]);
  }

  lemma DistinctKept(s: Server, t: Server)
    requires Distinct(s.clients) && NamesKept(s, t)
    ensures Distinct(t.clients)
  {
  }

  lemma OneKept(s: Server, g: Guid, d: Client)
    requires g in s.clients && d.name == s.clients[g].name
    ensures NamesKept(s, WithClient(s, g, d))
  {
  }

  lemma SetMetaKept(env: Env, s: Server, name: string, content: seq<byte>)
    ensures NamesKept(s, SetMeta(env, s, name, content))
  {
    hide SameRest, FanOutAll, WithBin, NamesKept;
    if name in s.topics {
      SetMetaShape(env, s, name, content);
      SameIsKept(s, SetMeta(env, s, name, content));
    } else {
      FailureKept(s);
    }
  }

  lemma FailureKept(s: Server)
    ensures NamesKept(s, s) && NamesKept(s, s.(failed := true))
  {
  }

  lemma IntroduceKept(s: Server, name: string, v: NTValue, p: Properties, publisher: Maybe<(Guid, int)>)
    ensures NamesKept(s, Introduce(s, name, v, p, publisher))
  {
    hide SameRest, Introduce, NamesKept;
    IntroduceShape(s, name, v, p, publisher);
    SameIsKept(s, Introduce(s, name, v, p, publisher));
  }

  lemma UpdateClientKept(env: Env, s: Server, g: Guid)
    ensures NamesKept(s, UpdateClientSub(env, s, g)) && NamesKept(s, UpdateClientPub(env, s, g))
  {
    hide SetMeta, NamesKept;
    FailureKept(s);
    if g in s.clients {
      SetMetaKept(env, s, ClientSub(s.clients[g].name), env.enc.subscriptions(s.clients[g].subscriptions));
      SetMetaKept(env, s, ClientPub(s.clients[g].name), env.enc.publishers(s.clients[g].publishers));
    }
  }

  lemma PublishTopicKept(env: Env, s: Server, name: string, v: NTValue, p: Properties, publisher: Maybe<(Guid, int)>)
    ensures NamesKept(s, PublishTopic(env, s, name, v, p, publisher))
  {
    hide Introduce, SetMeta, NamesKept, IsMeta;
    var s1 := Introduce(s, name, v, p, publisher);
    IntroduceKept(s, name, v, p, publisher);
    var meta := BinV(MsgpackBin, []);
    var s2 := IntroduceMeta(s1, TopicSub(name));
    IntroduceKept(s1, TopicSub(name), meta, META_PROPERTIES, Nothing);
    KeptTwice(s, s1, s2);
    var s3 := IntroduceMeta(s2, TopicPub(name));
    IntroduceKept(s2, TopicPub(name), meta, META_PROPERTIES, Nothing);
    KeptTwice(s, s2, s3);
    var s4 := UpdateTopicSub(env, s3, name);
    SetMetaKept(env, s3, TopicSub(name), env.enc.topicSubscriptions(Interests(s3.clients, name)));
    KeptTwice(s, s3, s4);
    SetMetaKept(env, s4, TopicPub(name), env.enc.topicPublishers(Supplies(s4.clients, name)));
    KeptTwice(s, s4, UpdateTopicPub(env, s4, name));
  }

  lemma {:induction false} UpdateCoveredKept(env: Env, s: Server, sub: Subscription, order: seq<string>)
    ensures NamesKept(s, UpdateCovered(env, s, sub, order))
  {
    hide SetMeta, NamesKept, IsMeta, Covers;
    if order == [] {
      FailureKept(s);
    } else {
      var init, n := order[..|order| - 1], order[|order| - 1];
      UpdateCoveredKept(env, s, sub, init);
      var s1 := UpdateCovered(env, s, sub, init);
      SetMetaKept(env, s1, TopicSub(n), env.enc.topicSubscriptions(Interests(s1.clients, n)));
      KeptTwice(s, s1, UpdateTopicSub(env, s1, n));
    }
  }

  lemma FlushKept(s: Server)
    ensures NamesKept(s, FlushTextAll(s)) && NamesKept(s, FlushBinaryAll(s))
  {
  }

  lemma FinishKept(env: Env, s: Server, g: Guid)
    ensures NamesKept(s, FlushTextOf(s, g)) && NamesKept(s, FlushBinaryOf(s, g))
    ensures NamesKept(s, InitialValues(env, s, g)) && NamesKept(s, AnnounceCachedTo(env, s, g))
  {
    hide SameRest, FlushTextOf, FlushBinaryOf, InitialValues, AnnounceCachedTo, NamesKept;
    OneClientShape(env, s, g);
    SameIsKept(s, FlushTextOf(s, g));
    SameIsKept(s, FlushBinaryOf(s, g));
    SameIsKept(s, InitialValues(env, s, g));
    SameIsKept(s, AnnounceCachedTo(env, s, g));
  }

  lemma AssignKept(s: Server, name: string, v: NTValue, time: nat)
    ensures NamesKept(s, AssignTopic(s, name, v, time))
  {
    hide FanOutAll, SameRest, NamesKept, Assign;
    FailureKept(s);
    if name in s.topics && Valid(v) {
      var t := WithValue(s, name, Assign(s.topics[name].value, v));
      WithValueShape(s, name, Assign(s.topics[name].value, v));
      FanOutAllShape(t, name, time);
      SameTwice(s, t, FanOutAll(t, name, time));
      SameIsKept(s, FanOutAll(t, name, time));
    }
  }

  lemma PropertiesKept(s: Server, name: string, p: Properties, updater: Maybe<Guid>)
    requires name in s.topics
    ensures NamesKept(s, NotifyAll(WithProperties(s, name, p), name, updater))
  {
    hide NotifyAll, SameRest;
    var t := WithProperties(s, name, p);
    NotifyAllShape(t, name, updater);
    SameIsKept(t, NotifyAll(t, name, updater));
  }

  // ------------------------------------------------------------ the steps

  lemma SubscribeKept(env: Env, s: Server, g: Guid, sub: Subscription)
    ensures NamesKept(s, Subscribe(env, s, g, sub))
  {
    hide UpdateClientSub, UpdateCovered, AnnounceCachedTo, NamesKept;
    FailureKept(s);
    if g in s.clients {
      var subs := s.clients[g].subscriptions[sub.uid := sub];
      var s1 := WithSubscriptions(s, g, subs);
      OneKept(s, g, s.clients[g].(subscriptions := subs));
      var s2 := UpdateClientSub(env, s1, g);
      UpdateClientKept(env, s1, g);
      KeptTwice(s, s1, s2);
      var s3 := UpdateCovered(env, s2, sub, env.order);
      UpdateCoveredKept(env, s2, sub, env.order);
      KeptTwice(s, s2, s3);
      FinishKept(env, s3, g);
      KeptTwice(s, s3, AnnounceCachedTo(env, s3, g));
    }
  }

  lemma UnsubscribeKept(env: Env, s: Server, g: Guid, subuid: int)
    ensures NamesKept(s, Unsubscribe(env, s, g, subuid))
  {
    hide UpdateClientSub, UpdateCovered, NamesKept;
    FailureKept(s);
    if g in s.clients && subuid in s.clients[g].subscriptions {
      var subs := s.clients[g].subscriptions - {subuid};
      var s1 := WithSubscriptions(s, g, subs);
      OneKept(s, g, s.clients[g].(subscriptions := subs));
      var s2 := UpdateClientSub(env, s1, g);
      UpdateClientKept(env, s1, g);
      KeptTwice(s, s1, s2);
      UpdateCoveredKept(env, s2, s.clients[g].subscriptions[subuid], env.order);
      KeptTwice(s, s2, UpdateCovered(env, s2, s.clients[g].subscriptions[subuid], env.order));
    }
  }

  lemma PublishKept(env: Env, s: Server, g: Guid, pubuid: int, name: string, typeName: string, p: Properties)
    ensures NamesKept(s, Publish(env, s, g, pubuid, name, typeName, p))
  {
    hide PublishTopic, UpdateClientPub, SetMeta, AnnounceTopic, NamesKept, Default, ParseTypeName;
    FailureKept(s);
    if g in s.clients {
      var pubs := s.clients[g].publishers[pubuid := Publisher(pubuid, name)];
      var s1 := WithPublishers(s, g, pubs);
      OneKept(s, g, s.clients[g].(publishers := pubs));
      var s2 := if name !in s1.topics
                then PublishTopic(env, s1, name, Default(ParseTypeName(typeName)), p, Just((g, pubuid)))
                else WithClient(s1, g, AnnounceTopic(s1.clients[g], s1.topics[name], Just(pubuid)));
      if name !in s1.topics {
        PublishTopicKept(env, s1, name, Default(ParseTypeName(typeName)), p, Just((g, pubuid)));
      } else {
        OperationsKeep(s1.clients[g], s1.topics[name], Just(pubuid), 0, false);
        OneKept(s1, g, AnnounceTopic(s1.clients[g], s1.topics[name], Just(pubuid)));
      }
      KeptTwice(s, s1, s2);
      var s3 := UpdateClientPub(env, s2, g);
      UpdateClientKept(env, s2, g);
      KeptTwice(s, s2, s3);
      SetMetaKept(env, s3, TopicPub(name), env.enc.topicPublishers(Supplies(s3.clients, name)));
      KeptTwice(s, s3, UpdateTopicPub(env, s3, name));
    }
  }

  lemma UnpublishKept(env: Env, s: Server, g: Guid, pubuid: int)
    ensures NamesKept(s, Unpublish(env, s, g, pubuid))
  {
    hide UpdateClientPub, SetMeta, NamesKept;
    FailureKept(s);
    if g in s.clients && pubuid in s.clients[g].publishers {
      var name, pubs := s.clients[g].publishers[pubuid].topic, s.clients[g].publishers - {pubuid};
      var s1 := WithPublishers(s, g, pubs);
      OneKept(s, g, s.clients[g].(publishers := pubs));
      var s2 := UpdateClientPub(env, s1, g);
      UpdateClientKept(env, s1, g);
      KeptTwice(s, s1, s2);
      SetMetaKept(env, s2, TopicPub(name), env.enc.topicPublishers(Supplies(s2.clients, name)));
      KeptTwice(s, s2, UpdateTopicPub(env, s2, name));
    }
  }

  lemma DisconnectKept(env: Env, s: Server, g: Guid)
    ensures NamesKept(s, Disconnect(env, s, g))
  {
    hide SetMeta, FlushBinaryAll, NamesKept;
    FailureKept(s);
    if g in s.clients {
      var s1 := s.(clients := s.clients - {g});
      assert NamesKept(s, s1) by { LeavingKept(s, g); }
      var s2 := UpdateClients(env, s1);
      SetMetaKept(env, s1, CLIENTS, env.enc.roster(Names(s1.clients)));
      KeptTwice(s, s1, s2);
      FlushKept(s2);
      KeptTwice(s, s2, FlushBinaryAll(s2));
    }
  }

  lemma LeavingKept(s: Server, g: Guid)
    ensures NamesKept(s, s.(clients := s.clients - {g}))
  {
  }

  lemma ValueKept(env: Env, s: Server, g: Guid, id: int, v: NTValue)
    ensures NamesKept(s, Value(env, s, g, id, v))
  {
    hide AssignTopic, FlushBinaryAll, NamesKept, ToInt32;
    FailureKept(s);
    FlushKept(s);
    if id != -1 && g in s.clients && ToInt32(id) in s.clients[g].publishers {
      var s1 := AssignTopic(s, s.clients[g].publishers[ToInt32(id)].topic, v, env.now);
      AssignKept(s, s.clients[g].publishers[ToInt32(id)].topic, v, env.now);
      FlushKept(s1);
      KeptTwice(s, s1, FlushBinaryAll(s1));
    }
  }

  lemma EndOfTextKept(env: Env, s: Server, g: Guid)
    ensures NamesKept(s, EndOfText(env, s, g))
  {
    hide FlushTextAll, FlushBinaryAll, InitialValues, NamesKept;
    var s1 := FlushTextAll(s);
    FlushKept(s);
    var s2 := InitialValues(env, s1, g);
    FinishKept(env, s1, g);
    KeptTwice(s, s1, s2);
    FlushKept(s2);
    KeptTwice(s, s2, FlushBinaryAll(s2));
  }

  lemma OwnKept(s: Server, t: Server)
    requires t.clients == s.clients
    ensures NamesKept(s, t)
  {
  }

  lemma LocalKept(env: Env, s: Server, e: Event)
    requires e.LocalSubscribeEvent? || e.LocalUnsubscribeEvent? || e.LocalUnpublishEvent? || e.LocalPublishEvent?
    ensures NamesKept(s, Next(env, s, e))
  {
    hide SetMeta, PublishTopic, NamesKept, Connect, Default;
    FailureKept(s);
    match e {
      case LocalSubscribeEvent(sub) =>
        var s1 := s.(ownSubscriptions := s.ownSubscriptions[sub.uid := sub]);
        OwnKept(s, s1);
        SetMetaKept(env, s1, SERVER_SUB, env.enc.subscriptions(s1.ownSubscriptions));
        KeptTwice(s, s1, UpdateServerSub(env, s1));
      case LocalUnsubscribeEvent(subuid) =>
        var s1 := s.(ownSubscriptions := s.ownSubscriptions - {subuid});
        OwnKept(s, s1);
        SetMetaKept(env, s1, SERVER_SUB, env.enc.subscriptions(s1.ownSubscriptions));
        KeptTwice(s, s1, UpdateServerSub(env, s1));
      case LocalUnpublishEvent(pubuid) =>
        var s1 := s.(ownPublishers := s.ownPublishers - {pubuid});
        OwnKept(s, s1);
        SetMetaKept(env, s1, SERVER_PUB, env.enc.publishers(s1.ownPublishers));
        KeptTwice(s, s1, UpdateServerPub(env, s1));
      case LocalPublishEvent(pubuid, name, t, p) =>
        var s1 := s.(ownPublishers := s.ownPublishers[pubuid := Publisher(pubuid, name)]);
        OwnKept(s, s1);
        var s2 := if name !in s1.topics then PublishTopic(env, s1, name, Default(t), p, Nothing) else s1;
        PublishTopicKept(env, s1, name, Default(t), p, Nothing);
        KeptTwice(s, s1, PublishTopic(env, s1, name, Default(t), p, Nothing));
        SetMetaKept(env, s2, SERVER_PUB, env.enc.publishers(s2.ownPublishers));
        KeptTwice(s, s2, UpdateServerPub(env, s2));
    }
  }

  /** Everything but a connect. */
  lemma NextKept(env: Env, s: Server, e: Event)
    requires !e.ConnectEvent?
    ensures NamesKept(s, Next(env, s, e))
  {
    hide NamesKept, Connect, Disconnect, Subscribe, Unsubscribe, Publish, Unpublish, EndOfText, Value, AssignTopic, NotifyAll,
         WithProperties, FlushBinaryAll, LocalSubscribe, LocalUnsubscribe, LocalPublish, LocalUnpublish;
    FailureKept(s);
    match e {
      case DisconnectEvent(g) => DisconnectKept(env, s, g);
      case SubscribeEvent(g, sub) => SubscribeKept(env, s, g, sub);
      case UnsubscribeEvent(g, subuid) => UnsubscribeKept(env, s, g, subuid);
      case PublishEvent(g, pubuid, name, typeName, p) => PublishKept(env, s, g, pubuid, name, typeName, p);
      case UnpublishEvent(g, pubuid) => UnpublishKept(env, s, g, pubuid);
      case SetPropertiesEvent(g, name, p, r, c) =>
        if name in s.topics {
          var was := s.topics[name].properties;
          PropertiesKept(s, name, Properties(Or(p, was.persistent), Or(r, was.retained), Or(c, was.cached)), Just(g));
        }
      case EndOfTextEvent(g) => EndOfTextKept(env, s, g);
      case ValueEvent(g, id, v) => ValueKept(env, s, g, id, v);
      case LocalSetPropertiesEvent(name, p) => if name in s.topics { PropertiesKept(s, name, p, Nothing); }
      case LocalUpdateEvent(pubuid, v, time) =>
        if pubuid in s.ownPublishers { AssignKept(s, s.ownPublishers[pubuid].topic, v, time); }
      case FlushEvent => FlushKept(s);
      case _ => LocalKept(env, s, e);
    }
  }

  lemma ArrivalDistinct(s: Server, g: Guid, name: string)
    requires Distinct(s.clients) && !InUse(s.clients, name)
    ensures Distinct(WithClient(s, g, NewClient(name)).clients)
  {
  }

  /** After a client has arrived, all keep their names. */
  lemma ConnectKept(env: Env, s: Server, g: Guid, requested: string)
    ensures NamesKept(WithClient(s, g, NewClient(NameFor(s.clients, requested))), Connect(env, s, g, requested))
  {
    hide Introduce, SetMeta, NamesKept, NameFor, WithClient, UpdateClientSub, UpdateClientPub, FlushTextOf, FlushBinaryOf, InitialValues,
         ClientSub, ClientPub;
    var name := NameFor(s.clients, requested);
    var meta := BinV(MsgpackBin, []);
    var s1 := WithClient(s, g, NewClient(name));
    var s2 := IntroduceMeta(s1, ClientSub(name));
    IntroduceKept(s1, ClientSub(name), meta, META_PROPERTIES, Nothing);
    var s3 := IntroduceMeta(s2, ClientPub(name));
    IntroduceKept(s2, ClientPub(name), meta, META_PROPERTIES, Nothing);
    KeptTwice(s1, s2, s3);
    var s4 := UpdateClients(env, s3);
    SetMetaKept(env, s3, CLIENTS, env.enc.roster(Names(s3.clients)));
    KeptTwice(s1, s3, s4);
    var s5 := UpdateClientSub(env, s4, g);
    UpdateClientKept(env, s4, g);
    KeptTwice(s1, s4, s5);
    var s6 := UpdateClientPub(env, s5, g);
    UpdateClientKept(env, s5, g);
    KeptTwice(s1, s5, s6);
    var s7 := FlushTextOf(s6, g);
    FinishKept(env, s6, g);
    KeptTwice(s1, s6, s7);
    var s8 := InitialValues(env, s7, g);
    FinishKept(env, s7, g);
    KeptTwice(s1, s7, s8);
    FinishKept(env, s8, g);
    KeptTwice(s1, s8, FlushBinaryOf(s8, g));
  }

  lemma ConnectDistinct(env: Env, s: Server, g: Guid, requested: string)
    requires Distinct(s.clients) && Grantable(s.clients, requested)
    ensures Distinct(Connect(env, s, g, requested).clients)
  {
    hide Connect, NamesKept, NameFor, Grantable, InUse, Distinct;
    var name := NameFor(s.clients, requested);
    NameIsNewIff(s.clients, requested);
    ArrivalDistinct(s, g, name);
    ConnectKept(env, s, g, requested);
    DistinctKept(WithClient(s, g, NewClient(name)), Connect(env, s, g, requested));
  }

  /** The connects of a run ask for names that can be granted. */
  ghost predicate GrantableRun(enc: Encoders, inputs: seq<Input>) {
    inputs == [] ||
    (GrantableRun(enc, inputs[..|inputs| - 1]) &&
     var e := inputs[|inputs| - 1].event;
     (e.ConnectEvent? ==> Grantable(Run(enc, inputs[..|inputs| - 1]).clients, e.requested)))
  }

  /** After every such run, whatever else happens in it, all connected clients have different names. */
  lemma {:induction false} RunDistinct(enc: Encoders, inputs: seq<Input>)
    requires GrantableRun(enc, inputs)
    ensures Distinct(Run(enc, inputs).clients)
  {
    hide Next, Distinct, Grantable, NamesKept, Start;
    if inputs == [] {
      StartDistinct(enc);
    } else {
      var init, i := inputs[..|inputs| - 1], inputs[|inputs| - 1];
      RunDistinct(enc, init);
      var s, env := Run(enc, init), Env(enc, i.now, i.order);
      if i.event.ConnectEvent? {
        ConnectDistinct(env, s, i.event.g, i.event.requested);
        assert Next(env, s, i.event) == Connect(env, s, i.event.g, i.event.requested) by { NextConnect(env, s, i.event); }
      } else {
        NextKept(env, s, i.event);
        DistinctKept(s, Next(env, s, i.event));
      }
    }
  }

  lemma NextConnect(env: Env, s: Server, e: Event)
    requires e.ConnectEvent?
    ensures Next(env, s, e) == Connect(env, s, e.g, e.requested)
  {
    hide Connect;
  }

  lemma StartDistinct(enc: Encoders)
    ensures Distinct(Start(enc).clients)
  {
  }

  /** In particular after every run in which no requested name has an at sign. */
  lemma {:induction false} RunWithoutAtSigns(enc: Encoders, inputs: seq<Input>)
    requires forall i | i in inputs :: i.event.ConnectEvent? ==> '@' !in i.event.requested
    ensures GrantableRun(enc, inputs) && Distinct(Run(enc, inputs).clients)
  {
    hide Run, Distinct;
    if inputs == [] {
      RunDistinct(enc, inputs);
    } else {
      assert inputs[|inputs| - 1] in inputs;
      RunWithoutAtSigns(enc, inputs[..|inputs| - 1]);
      RunDistinct(enc, inputs);
    }
  }

  // ------------------------------------------------------------ which clients there are

  lemma BlocksKeepClients()
    ensures forall env, s: Server, name, content :: SetMeta(env, s, name, content).clients.Keys == s.clients.Keys
    ensures forall s: Server, name, v, p, publisher :: Introduce(s, name, v, p, publisher).clients.Keys == s.clients.Keys
    ensures forall s: Server :: FlushBinaryAll(s).clients.Keys == s.clients.Keys && FlushTextAll(s).clients.Keys == s.clients.Keys
  {
    hide FanOut, AnnounceOne, FlushText, FlushBinary, WithBin;
  }

  lemma {:induction false} CoveredKeepsClients(env: Env, s: Server, sub: Subscription, order: seq<string>)
    ensures UpdateCovered(env, s, sub, order).clients.Keys == s.clients.Keys
  {
    hide SetMeta, Covers, IsMeta;
    BlocksKeepClients();
    if order == [] {
    } else {
      CoveredKeepsClients(env, s, sub, order[..|order| - 1]);
    }
  }

  lemma PublishKeepsClients(env: Env, s: Server, name: string, v: NTValue, p: Properties, publisher: Maybe<(Guid, int)>)
    ensures PublishTopic(env, s, name, v, p, publisher).clients.Keys == s.clients.Keys
  {
    hide SetMeta, Introduce;
    BlocksKeepClients();
  }

  lemma AssignKeepsClients(s: Server, name: string, v: NTValue, time: nat)
    ensures AssignTopic(s, name, v, time).clients.Keys == s.clients.Keys
  {
    hide FanOut, Assign;
  }

  lemma SubscribeKeepsClients(env: Env, s: Server, g: Guid, sub: Subscription)
    ensures Subscribe(env, s, g, sub).clients.Keys == s.clients.Keys
  {
    hide SetMeta, UpdateCovered, AnnounceCached;
    BlocksKeepClients();
    if g in s.clients {
      var s1 := WithSubscriptions(s, g, s.clients[g].subscriptions[sub.uid := sub]);
      CoveredKeepsClients(env, UpdateClientSub(env, s1, g), sub, env.order);
    }
  }

  lemma UnsubscribeKeepsClients(env: Env, s: Server, g: Guid, uid: int)
    ensures Unsubscribe(env, s, g, uid).clients.Keys == s.clients.Keys
  {
    hide SetMeta, UpdateCovered;
    BlocksKeepClients();
    if g in s.clients && uid in s.clients[g].subscriptions {
      var s1 := WithSubscriptions(s, g, s.clients[g].subscriptions - {uid});
      CoveredKeepsClients(env, UpdateClientSub(env, s1, g), s.clients[g].subscriptions[uid], env.order);
    }
  }

  lemma OnPublishKeepsClients(env: Env, s: Server, g: Guid, pubuid: int, name: string, typeName: string, p: Properties)
    ensures Publish(env, s, g, pubuid, name, typeName, p).clients.Keys == s.clients.Keys
  {
    hide SetMeta, PublishTopic, AnnounceTopic, Default, ParseTypeName;
    BlocksKeepClients();
    if g in s.clients {
      var s1 := WithPublishers(s, g, s.clients[g].publishers[pubuid := Publisher(pubuid, name)]);
      PublishKeepsClients(env, s1, name, Default(ParseTypeName(typeName)), p, Just((g, pubuid)));
    }
  }

  lemma ConnectClients(env: Env, s: Server, g: Guid, requested: string)
    ensures Connect(env, s, g, requested).clients.Keys == s.clients.Keys + {g}
    ensures Disconnect(env, s, g).clients.Keys == s.clients.Keys - {g}
  {
    hide SetMeta, Introduce, FlushBinaryAll, PublishInitial, FlushText, FlushBinary, NameFor;
    BlocksKeepClients();
  }

  /** Only connecting and disconnecting change who is connected. */
  lemma ClientsAfter(env: Env, s: Server, e: Event)
    ensures Step(env, s, e).clients.Keys ==
            if s.failed then s.clients.Keys
            else match e
              case ConnectEvent(g, _) => s.clients.Keys + {g}
              case DisconnectEvent(g) => s.clients.Keys - {g}
              case _ => s.clients.Keys
  {
    hide SetMeta, Introduce, FlushBinaryAll, FlushTextAll, UpdateCovered, PublishTopic, AssignTopic, PublishInitial, AnnounceCached,
         Connect, Disconnect, Subscribe, Unsubscribe, Publish, AnnounceTopic, FlushText, FlushBinary, Notify, NameFor, Default,
         ParseTypeName, ToInt32;
    BlocksKeepClients();
    match e {
      case ConnectEvent(g, requested) => ConnectClients(env, s, g, requested);
      case DisconnectEvent(g) => ConnectClients(env, s, g, "");
      case SubscribeEvent(g, sub) => SubscribeKeepsClients(env, s, g, sub);
      case UnsubscribeEvent(g, uid) => UnsubscribeKeepsClients(env, s, g, uid);
      case PublishEvent(g, pubuid, name, typeName, p) => OnPublishKeepsClients(env, s, g, pubuid, name, typeName, p);
      case LocalPublishEvent(pubuid, name, t, p) =>
        PublishKeepsClients(env, s.(ownPublishers := s.ownPublishers[pubuid := Publisher(pubuid, name)]), name, Default(t), p, Nothing);
      case ValueEvent(g, id, v) =>
        if g in s.clients && ToInt32(id) in s.clients[g].publishers {
          AssignKeepsClients(s, s.clients[g].publishers[ToInt32(id)].topic, v, env.now);
        }
      case LocalUpdateEvent(pubuid, v, time) =>
        if pubuid in s.ownPublishers { AssignKeepsClients(s, s.ownPublishers[pubuid].topic, v, time); }
      case _ =>
    }
  }

  // ------------------------------------------------------------ a run with one name twice

  /** The names after a client has arrived. */
  lemma NamesAfter(env: Env, s: Server, g: Guid, requested: string)
    requires !s.failed
    ensures var t := Step(env, s, ConnectEvent(g, requested));
            t.clients.Keys == s.clients.Keys + {g} && t.clients[g].name == NameFor(s.clients, requested) &&
            (forall h | h in s.clients && h != g :: t.clients[h].name == s.clients[h].name)
  {
    hide Connect, NameFor;
    ClientsAfter(env, s, ConnectEvent(g, requested));
    ConnectKept(env, s, g, requested);
    NextConnect(env, s, ConnectEvent(g, requested));
  }

  lemma NameWithAtSign(clients: map<Guid, Client>)
    ensures NameFor(clients, "a@b") == "a@b@1"
  {
    assert "a@b"[1] == '@' && '@' in "a@b";
    assert Numbers(clients, "a@b") == {};
    assert Digits(1) == "1";
    assert "a@b" + "@" + "1" == "a@b@1";
  }

  /** Two clients ask for "a@b", and both get the same name. */
  lemma SameNameTwice(enc: Encoders)
    ensures var s := Run(enc, [Input(0, [], ConnectEvent(0, "a@b")), Input(0, [], ConnectEvent(1, "a@b"))]);
            !s.failed && s.clients.Keys == {0, 1} && s.clients[0].name == s.clients[1].name == "a@b@1" && !Distinct(s.clients)
  {
    hide Step, NameFor, Start, Sane;
    var first, second := Input(0, [], ConnectEvent(0, "a@b")), Input(0, [], ConnectEvent(1, "a@b"));
    assert [] + [first] == [first] && [first] + [second] == [first, second];
    OneMore(enc, [], first);
    OneMore(enc, [first], second);
    StartSane(enc);
    NobodyYet(enc);
    var s := Run(enc, [first]);
    StepFailsIff(enc, Start(enc), first);
    SaneRuns(Start(enc));
    NamesAfter(Env(enc, 0, []), Start(enc), 0, "a@b");
    NameWithAtSign(Start(enc).clients);
    StepFailsIff(enc, s, second);
    SaneRuns(s);
    NamesAfter(Env(enc, 0, []), s, 1, "a@b");
    NameWithAtSign(s.clients);
  }

  lemma NobodyYet(enc: Encoders)
    ensures Start(enc).clients == map[]
  {
  }
}
