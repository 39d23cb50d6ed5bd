/** The latest value: what was last sent to a client about a topic is what the topic holds. */
module NtFreshness {
  import Bytes
  import opened NtValues
  import opened Maybes
  import opened NtClient
  import opened NtClientLaws
  import opened NtServer
  import opened NtTheorems

  /** The value in the last update of a topic. */
  function LastValue(queue: seq<Queued>, n: string): Maybe<NTValue> {
    if queue == [] then Nothing
    else
      match queue[|queue| - 1]
      case Update(topic, r) => if topic == n then Just(r.value) else LastValue(queue[..|queue| - 1], n)
      case TextMessage(_) => LastValue(queue[..|queue| - 1], n)
  }

  predicate ClientFresh(c: Client, topics: map<string, Topic>) {
    forall n :: n in c.topicData && c.topicData[n].initialPublish ==> n in topics && LastValue(c.queue, n) == Just(topics[n].value)
  }

  /** No client that was sent a value of a topic is behind. */
  predicate Fresh(s: Server) {
    NamedRight(s.topics) && forall g :: g in s.clients ==> ClientFresh(s.clients[g], s.topics)
  }

  // ------------------------------------------------------------ one client

  lemma OneMoreValue(queue: seq<Queued>, x: Queued, n: string)
    ensures LastValue(queue + [x], n) == if x.Update? && x.topic == n then Just(x.record.value) else LastValue(queue, n)
  {
    Last(queue, x);
  }

  /** A topic changes its value, and the client is sent the new one if it was sent the old one. */
  lemma FanOutFresh(c: Client, topics: map<string, Topic>, t: Topic, time: nat)
    requires ClientFresh(c, topics)
    ensures ClientFresh(FanOut(c, t, time), topics[t.name := t])
  {
    hide LastValue, IsSubscribed, EncRecord;
    if WantsUpdate(c, t.name) {
      SendFresh(c, topics, t, time);
    }
  }

  lemma SendFresh(c: Client, topics: map<string, Topic>, t: Topic, time: nat)
    requires ClientFresh(c, topics) && t.name in c.topicData
    ensures ClientFresh(SendUpdate(c, t, time), topics[t.name := t])
  {
    hide LastValue, EncRecord;
    var x := Update(t.name, RecordOf(c.topicData[t.name].id, time, t.value));
    forall n { OneMoreValue(c.queue, x, n); }
  }

  lemma TextFresh(c: Client, x: Text, topics: map<string, Topic>)
    requires ClientFresh(c, topics)
    ensures ClientFresh(QueueText(c, x), topics)
  {
    hide LastValue, Render;
    forall n { OneMoreValue(c.queue, TextMessage(x), n); }
  }

  lemma AnnounceFresh(c: Client, t: Topic, pubuid: Maybe<int>, topics: map<string, Topic>)
    requires ClientFresh(c, topics)
    ensures ClientFresh(AnnounceTopic(c, t, pubuid), topics)
  {
    hide LastValue, QueueText;
    var d := WithId(c, t.name);
    TextFresh(d, AnnounceText(d, t, pubuid), topics);
  }

  lemma {:induction false} LoopsFresh(c: Client, topics: map<string, Topic>, order: seq<string>, time: nat)
    requires ClientFresh(c, topics) && NamedRight(topics)
    ensures ClientFresh(AnnounceCached(c, topics, order), topics)
    ensures ClientFresh(PublishInitial(c, topics, order, time), topics)
  {
    hide ClientFresh, AnnounceTopic, SendUpdate, IsSubscribed;
    if order == [] {
    } else {
      var init, n := order[..|order| - 1], order[|order| - 1];
      LoopsFresh(c, topics, init, time);
      var d := PublishInitial(c, topics, init, time);
      if n in topics {
        AnnounceFresh(AnnounceCached(c, topics, init), topics[n], Nothing, topics);
        assert topics[n := topics[n]] == topics;
        if n in d.topicData { SendFresh(d, topics, topics[n], time); }
      }
    }
  }

  /** The queue and the table of topics are all that matters. */
  lemma SameFresh(c: Client, d: Client, topics: map<string, Topic>)
    requires ClientFresh(c, topics) && d.queue == c.queue && d.topicData == c.topicData
    ensures ClientFresh(d, topics)
  {
  }

  // ------------------------------------------------------------ the building blocks

  /** The value of one topic changes, and goes to everyone. */
  lemma SpreadFresh(s: Server, name: string, v: NTValue, time: nat)
    requires Fresh(s) && name in s.topics
    ensures Fresh(FanOutAll(WithValue(s, name, v), name, time))
  {
    hide ClientFresh, FanOut;
    var t := s.topics[name].(value := v);
    forall g | g in s.clients ensures ClientFresh(FanOut(s.clients[g], t, time), s.topics[name := t]) {
      FanOutFresh(s.clients[g], s.topics, t, time);
    }
  }

  lemma SetMetaFresh(env: Env, s: Server, name: string, content: seq<Bytes.byte>)
    requires Fresh(s)
    ensures Fresh(SetMeta(env, s, name, content))
  {
    hide ClientFresh, FanOutAll, WithValue, WithBin;
    if name in s.topics { SpreadFresh(s, name, WithBin(s.topics[name].value, content), env.now); }
  }

  lemma AssignFresh(s: Server, name: string, v: NTValue, time: nat)
    requires Fresh(s)
    ensures Fresh(AssignTopic(s, name, v, time))
  {
    hide ClientFresh, FanOutAll, WithValue, Assign;
    if name in s.topics { SpreadFresh(s, name, Assign(s.topics[name].value, v), time); }
  }

  lemma MoreTopics(c: Client, topics: map<string, Topic>, t: Topic)
    requires ClientFresh(c, topics) && t.name !in topics
    ensures ClientFresh(c, topics[t.name := t])
  {
    hide LastValue;
  }

  lemma IntroduceFresh(s: Server, name: string, v: NTValue, p: Properties, publisher: Maybe<(Guid, int)>)
    requires Fresh(s)
    ensures Fresh(Introduce(s, name, v, p, publisher))
  {
    hide ClientFresh, AnnounceTopic, IsSubscribed;
    var t := Create(s, name, v, p);
    forall g | g in t.clients ensures ClientFresh(AnnounceOne(t.clients[g], t.topics[name], g, publisher), t.topics) {
      if name !in s.topics { MoreTopics(s.clients[g], s.topics, t.topics[name]); }
      AnnounceFresh(t.clients[g], t.topics[name], Nothing, t.topics);
      if publisher.Just? { AnnounceFresh(t.clients[g], t.topics[name], Just(publisher.value.1), t.topics); }
    }
  }

  lemma SameValues(c: Client, topics: map<string, Topic>, name: string, t: Topic)
    requires ClientFresh(c, topics) && name in topics && t.value == topics[name].value
    ensures ClientFresh(c, topics[name := t])
  {
    hide LastValue;
  }

  lemma PropertiesFresh(s: Server, name: string, p: Properties, updater: Maybe<Guid>)
    requires Fresh(s) && name in s.topics
    ensures Fresh(NotifyAll(WithProperties(s, name, p), name, updater))
  {
    hide ClientFresh, QueueText, IsSubscribed;
    var t := WithProperties(s, name, p);
    forall g | g in s.clients ensures ClientFresh(Notify(s.clients[g], t.topics[name], updater == Just(g)), t.topics) {
      SameValues(s.clients[g], s.topics, name, t.topics[name]);
      TextFresh(s.clients[g], PropertyUpdate(t.topics[name].name, updater == Just(g), t.topics[name].properties), t.topics);
    }
  }

  lemma FlushFresh(s: Server)
    requires Fresh(s)
    ensures Fresh(FlushTextAll(s)) && Fresh(FlushBinaryAll(s))
  {
    hide ClientFresh;
    forall g | g in s.clients
      ensures ClientFresh(FlushText(s.clients[g]), s.topics) && ClientFresh(FlushBinary(s.clients[g]), s.topics)
    {
      SameFresh(s.clients[g], FlushText(s.clients[g]), s.topics);
      SameFresh(s.clients[g], FlushBinary(s.clients[g]), s.topics);
    }
  }

  lemma OneClientFresh(s: Server, g: Guid, d: Client)
    requires Fresh(s) && ClientFresh(d, s.topics)
    ensures Fresh(WithClient(s, g, d))
  {
    hide ClientFresh;
  }

  lemma OfOneFresh(env: Env, s: Server, g: Guid)
    requires Fresh(s)
    ensures Fresh(FlushTextOf(s, g)) && Fresh(FlushBinaryOf(s, g))
    ensures Fresh(InitialValues(env, s, g)) && Fresh(AnnounceCachedTo(env, s, g))
  {
    hide ClientFresh, AnnounceCached, PublishInitial;
    if g in s.clients {
      var c := s.clients[g];
      SameFresh(c, FlushText(c), s.topics);
      SameFresh(c, FlushBinary(c), s.topics);
      LoopsFresh(c, s.topics, env.order, env.now);
    }
  }

  lemma UpdateClientFresh(env: Env, s: Server, g: Guid)
    requires Fresh(s)
    ensures Fresh(UpdateClientSub(env, s, g)) && Fresh(UpdateClientPub(env, s, g))
  {
    hide Fresh, SetMeta;
    if g in s.clients {
      SetMetaFresh(env, s, ClientSub(s.clients[g].name), env.enc.subscriptions(s.clients[g].subscriptions));
      SetMetaFresh(env, s, ClientPub(s.clients[g].name), env.enc.publishers(s.clients[g].publishers));
    }
  }

  lemma {:induction false} CoveredFresh(env: Env, s: Server, sub: Subscription, order: seq<string>)
    requires Fresh(s)
    ensures Fresh(UpdateCovered(env, s, sub, order))
  {
    hide Fresh, SetMeta, Covers, IsMeta;
    if order == [] {
    } else {
      var init, n := order[..|order| - 1], order[|order| - 1];
      CoveredFresh(env, s, sub, init);
      var s1 := UpdateCovered(env, s, sub, init);
      SetMetaFresh(env, s1, TopicSub(n), env.enc.topicSubscriptions(Interests(s1.clients, n)));
    }
  }

  lemma PublishTopicFresh(env: Env, s: Server, name: string, v: NTValue, p: Properties, publisher: Maybe<(Guid, int)>)
    requires Fresh(s)
    ensures Fresh(PublishTopic(env, s, name, v, p, publisher))
  {
    hide Fresh, SetMeta, Introduce, IsMeta;
    var meta := BinV(MsgpackBin, []);
    var s1 := Introduce(s, name, v, p, publisher);
    IntroduceFresh(s, name, v, p, publisher);
    var s2 := IntroduceMeta(s1, TopicSub(name));
    IntroduceFresh(s1, TopicSub(name), meta, META_PROPERTIES, Nothing);
    var s3 := IntroduceMeta(s2, TopicPub(name));
    IntroduceFresh(s2, TopicPub(name), meta, META_PROPERTIES, Nothing);
    var s4 := UpdateTopicSub(env, s3, name);
    SetMetaFresh(env, s3, TopicSub(name), env.enc.topicSubscriptions(Interests(s3.clients, name)));
    SetMetaFresh(env, s4, TopicPub(name), env.enc.topicPublishers(Supplies(s4.clients, name)));
  }

  // ------------------------------------------------------------ events

  lemma ConnectFresh(env: Env, s: Server, g: Guid, requested: string)
    requires Fresh(s)
    ensures Fresh(Connect(env, s, g, requested))
  {
    hide Fresh, SetMeta, Introduce, FlushTextOf, FlushBinaryOf, InitialValues, UpdateClientSub, UpdateClientPub, NameFor;
    var name, meta := NameFor(s.clients, requested), BinV(MsgpackBin, []);
    var s1 := WithClient(s, g, NewClient(name));
    OneClientFresh(s, g, NewClient(name));
    var s2 := IntroduceMeta(s1, ClientSub(name));
    IntroduceFresh(s1, ClientSub(name), meta, META_PROPERTIES, Nothing);
    var s3 := IntroduceMeta(s2, ClientPub(name));
    IntroduceFresh(s2, ClientPub(name), meta, META_PROPERTIES, Nothing);
    var s4 := UpdateClients(env, s3);
    SetMetaFresh(env, s3, CLIENTS, env.enc.roster(Names(s3.clients)));
    var s5 := UpdateClientSub(env, s4, g);
    UpdateClientFresh(env, s4, g);
    var s6 := UpdateClientPub(env, s5, g);
    UpdateClientFresh(env, s5, g);
    var s7 := FlushTextOf(s6, g);
    OfOneFresh(env, s6, g);
    OfOneFresh(env, s7, g);
    OfOneFresh(env, InitialValues(env, s7, g), g);
  }

  lemma DisconnectFresh(env: Env, s: Server, g: Guid)
    requires Fresh(s)
    ensures Fresh(Disconnect(env, s, g))
  {
    hide ClientFresh, SetMeta, FlushBinaryAll;
    if g in s.clients {
      var s1 := s.(clients := s.clients - {g});
      SetMetaFresh(env, s1, CLIENTS, env.enc.roster(Names(s1.clients)));
      FlushFresh(UpdateClients(env, s1));
    }
  }

  lemma WithSubscriptionsFresh(s: Server, g: Guid, subs: map<int, Subscription>, pubs: map<int, Publisher>)
    requires Fresh(s) && g in s.clients
    ensures Fresh(WithSubscriptions(s, g, subs)) && Fresh(WithPublishers(s, g, pubs))
  {
    hide ClientFresh;
    var c := s.clients[g];
    SameFresh(c, c.(subscriptions := subs), s.topics);
    SameFresh(c, c.(publishers := pubs), s.topics);
  }

  lemma SubscribeFresh(env: Env, s: Server, g: Guid, sub: Subscription)
    requires Fresh(s)
    ensures Fresh(Subscribe(env, s, g, sub))
  {
    hide Fresh, UpdateClientSub, UpdateCovered, AnnounceCachedTo;
    if g in s.clients {
      var subs := s.clients[g].subscriptions[sub.uid := sub];
      var s1 := WithSubscriptions(s, g, subs);
      WithSubscriptionsFresh(s, g, subs, map[]);
      var s2 := UpdateClientSub(env, s1, g);
      UpdateClientFresh(env, s1, g);
      CoveredFresh(env, s2, sub, env.order);
      OfOneFresh(env, UpdateCovered(env, s2, sub, env.order), g);
    }
  }

  lemma UnsubscribeFresh(env: Env, s: Server, g: Guid, subuid: int)
    requires Fresh(s)
    ensures Fresh(Unsubscribe(env, s, g, subuid))
  {
    hide Fresh, UpdateClientSub, UpdateCovered;
    if g in s.clients && subuid in s.clients[g].subscriptions {
      var subs := s.clients[g].subscriptions - {subuid};
      var s1 := WithSubscriptions(s, g, subs);
      WithSubscriptionsFresh(s, g, subs, map[]);
      UpdateClientFresh(env, s1, g);
      CoveredFresh(env, UpdateClientSub(env, s1, g), s.clients[g].subscriptions[subuid], env.order);
    }
  }

  lemma PublishFresh(env: Env, s: Server, g: Guid, pubuid: int, name: string, typeName: string, p: Properties)
    requires Fresh(s)
    ensures Fresh(Publish(env, s, g, pubuid, name, typeName, p))
  {
    hide Fresh, PublishTopic, AnnounceTopic, UpdateClientPub, SetMeta, Default, ParseTypeName;
    if g in s.clients {
      var pubs := s.clients[g].publishers[pubuid := Publisher(pubuid, name)];
      var s1 := WithPublishers(s, g, pubs);
      WithSubscriptionsFresh(s, g, map[], pubs);
      var s2 :=
        if name !in s1.topics
        then PublishTopic(env, s1, name, Default(ParseTypeName(typeName)), p, Just((g, pubuid)))
        else WithClient(s1, g, AnnounceTopic(s1.clients[g], s1.topics[name], Just(pubuid)));
      if name !in s1.topics {
        PublishTopicFresh(env, s1, name, Default(ParseTypeName(typeName)), p, Just((g, pubuid)));
      } else {
        ItsClientFresh(s1, g);
        AnnounceFresh(s1.clients[g], s1.topics[name], Just(pubuid), s1.topics);
        OneClientFresh(s1, g, AnnounceTopic(s1.clients[g], s1.topics[name], Just(pubuid)));
      }
      var s3 := UpdateClientPub(env, s2, g);
      UpdateClientFresh(env, s2, g);
      SetMetaFresh(env, s3, TopicPub(name), env.enc.topicPublishers(Supplies(s3.clients, name)));
    }
  }

  lemma ItsClientFresh(s: Server, g: Guid)
    requires Fresh(s) && g in s.clients
    ensures ClientFresh(s.clients[g], s.topics)
  {
  }

  lemma UnpublishFresh(env: Env, s: Server, g: Guid, pubuid: int)
    requires Fresh(s)
    ensures Fresh(Unpublish(env, s, g, pubuid))
  {
    hide Fresh, UpdateClientPub, SetMeta;
    if g in s.clients && pubuid in s.clients[g].publishers {
      var name := s.clients[g].publishers[pubuid].topic;
      var pubs := s.clients[g].publishers - {pubuid};
      var s1 := WithPublishers(s, g, pubs);
      WithSubscriptionsFresh(s, g, map[], pubs);
      var s2 := UpdateClientPub(env, s1, g);
      UpdateClientFresh(env, s1, g);
      SetMetaFresh(env, s2, TopicPub(name), env.enc.topicPublishers(Supplies(s2.clients, name)));
    }
  }

  lemma EndOfTextFresh(env: Env, s: Server, g: Guid)
    requires Fresh(s)
    ensures Fresh(EndOfText(env, s, g))
  {
    hide Fresh, FlushTextAll, FlushBinaryAll, InitialValues;
    FlushFresh(s);
    OfOneFresh(env, FlushTextAll(s), g);
    FlushFresh(InitialValues(env, FlushTextAll(s), g));
  }

  lemma ValueFresh(env: Env, s: Server, g: Guid, id: int, v: NTValue)
    requires Fresh(s)
    ensures Fresh(Value(env, s, g, id, v))
  {
    hide Fresh, AssignTopic, FlushBinaryAll, ToInt32;
    FlushFresh(s);
    if id != -1 && g in s.clients && ToInt32(id) in s.clients[g].publishers {
      var name := s.clients[g].publishers[ToInt32(id)].topic;
      AssignFresh(s, name, v, env.now);
      FlushFresh(AssignTopic(s, name, v, env.now));
    }
  }

  lemma OwnFresh(s: Server, t: Server)
    requires Fresh(s) && t.topics == s.topics && t.clients == s.clients
    ensures Fresh(t)
  {
  }

  lemma LocalFresh(env: Env, s: Server, e: Event)
    requires Fresh(s)
    requires e.LocalSubscribeEvent? || e.LocalUnsubscribeEvent? || e.LocalUnpublishEvent? || e.LocalPublishEvent?
    ensures Fresh(Next(env, s, e))
  {
    hide Fresh, SetMeta, PublishTopic, Connect, Default;
    match e {
      case LocalSubscribeEvent(sub) =>
        var s1 := s.(ownSubscriptions := s.ownSubscriptions[sub.uid := sub]);
        OwnFresh(s, s1);
        SetMetaFresh(env, s1, SERVER_SUB, env.enc.subscriptions(s1.ownSubscriptions));
      case LocalUnsubscribeEvent(subuid) =>
        var s1 := s.(ownSubscriptions := s.ownSubscriptions - {subuid});
        OwnFresh(s, s1);
        SetMetaFresh(env, s1, SERVER_SUB, env.enc.subscriptions(s1.ownSubscriptions));
      case LocalUnpublishEvent(pubuid) =>
        var s1 := s.(ownPublishers := s.ownPublishers - {pubuid});
        OwnFresh(s, s1);
        SetMetaFresh(env, s1, SERVER_PUB, env.enc.publishers(s1.ownPublishers));
      case LocalPublishEvent(pubuid, name, t, p) =>
        var s1 := s.(ownPublishers := s.ownPublishers[pubuid := Publisher(pubuid, name)]);
        OwnFresh(s, s1);
        var s2 := if name !in s1.topics then PublishTopic(env, s1, name, Default(t), p, Nothing) else s1;
        PublishTopicFresh(env, s1, name, Default(t), p, Nothing);
        SetMetaFresh(env, s2, SERVER_PUB, env.enc.publishers(s2.ownPublishers));
    }
  }

  lemma StepFresh(env: Env, s: Server, e: Event)
    requires Fresh(s)
    ensures Fresh(Step(env, s, e))
  {
    hide Fresh, Connect, Disconnect, Subscribe, Unsubscribe, Publish, Unpublish, EndOfText, Value, AssignTopic, NotifyAll,
         WithProperties, FlushBinaryAll, LocalSubscribe, LocalUnsubscribe, LocalPublish, LocalUnpublish;
    match e {
      case ConnectEvent(g, requested) => ConnectFresh(env, s, g, requested);
      case DisconnectEvent(g) => DisconnectFresh(env, s, g);
      case SubscribeEvent(g, sub) => SubscribeFresh(env, s, g, sub);
      case UnsubscribeEvent(g, subuid) => UnsubscribeFresh(env, s, g, subuid);
      case PublishEvent(g, pubuid, name, typeName, p) => PublishFresh(env, s, g, pubuid, name, typeName, p);
      case UnpublishEvent(g, pubuid) => UnpublishFresh(env, s, g, pubuid);
      case SetPropertiesEvent(g, name, p, r, c) =>
        if name in s.topics {
          var was := s.topics[name].properties;
          PropertiesFresh(s, name, Properties(Or(p, was.persistent), Or(r, was.retained), Or(c, was.cached)), Just(g));
        }
      case EndOfTextEvent(g) => EndOfTextFresh(env, s, g);
      case ValueEvent(g, id, v) => ValueFresh(env, s, g, id, v);
      case LocalSetPropertiesEvent(name, p) => if name in s.topics { PropertiesFresh(s, name, p, Nothing); }
      case LocalUpdateEvent(pubuid, v, time) => if pubuid in s.ownPublishers { AssignFresh(s, s.ownPublishers[pubuid].topic, v, time); }
      case FlushEvent => FlushFresh(s);
      case _ => LocalFresh(env, s, e);
    }
  }

  // ------------------------------------------------------------ runs

  lemma {:induction false} RunFresh(enc: Encoders, inputs: seq<Input>)
    ensures Fresh(Run(enc, inputs))
  {
    hide Fresh, Step, Start;
    if inputs == [] {
      StartFresh(enc);
    } else {
      var i := inputs[|inputs| - 1];
      RunFresh(enc, inputs[..|inputs| - 1]);
      StepFresh(Env(enc, i.now, i.order), Run(enc, inputs[..|inputs| - 1]), i.event);
    }
  }

  lemma StartFresh(enc: Encoders)
    ensures Fresh(Start(enc))
  {
  }

  lemma {:induction false} LastOfUpdates(queue: seq<Queued>, n: string)
    ensures LastValue(queue, n) == LastValue(UpdatesIn(queue), n)
  {
    if queue == [] {
    } else {
      var init, x := queue[..|queue| - 1], queue[|queue| - 1];
      LastOfUpdates(init, n);
      if x.Update? { Last(UpdatesIn(init), x); }
    }
  }

  lemma NoUpdatesWait(c: Client)
    requires LogOk(c) && c.binary.cached == []
    ensures c.log.updates == []
  {
    hide TextsIn, UpdatesIn, Texts;
    RecordsAreThere(c.log.updates);
  }

  lemma {:induction false} RecordsAreThere(updates: seq<Queued>)
    requires forall x :: x in updates ==> x.Update?
    ensures |Records(updates)| == |updates|
  {
    hide EncRecord;
    if updates == [] {
    } else {
      assert updates[|updates| - 1] in updates;
      RecordsAreThere(updates[..|updates| - 1]);
    }
  }

  /** In every run: the last update that was queued for a client about a topic carries the value that the topic has
      now; and whenever no update waits in its cache, so does the last one that has left for it. */
  lemma LatestValue(enc: Encoders, inputs: seq<Input>, s: Server, g: Guid, n: string)
    requires Reached(enc, inputs, s) && g in s.clients && n in s.clients[g].topicData && s.clients[g].topicData[n].initialPublish
    ensures var c := s.clients[g];
            n in s.topics && LastValue(c.queue, n) == Just(s.topics[n].value) &&
            (c.binary.cached == [] ==> LastValue(c.log.wire, n) == Just(s.topics[n].value))
  {
    hide Run, SoundRun, IdsOk, HistoryOk, TopicsOk, Texts, Records, TextsIn, UpdatesIn, LastValue;
    var c := s.clients[g];
    RunFresh(enc, inputs);
    RunClient(enc, inputs, s, g);
    if c.binary.cached == [] {
      NoUpdatesWait(c);
      LastOfUpdates(c.queue, n);
      LastOfUpdates(c.log.wire, n);
      assert UpdatesIn(c.log.wire) + [] == UpdatesIn(c.log.wire);
    }
  }
}
