/** What holds of the server after every step of every run. */
module NtServerInvariant {
  import opened Bytes
  import opened NtValues
  import opened Maybes
  import opened NtClient
  import opened NtClientLaws
  import opened NtServer

  predicate TopicsRight(topics: map<string, Topic>) {
    NamedRight(topics) &&
    (forall n :: n in topics ==> Known(TypeOf(topics[n].value)) && (topics[n].keptCached ==> topics[n].properties.cached))
  }

  ghost predicate ClientsRight(s: Server) {
    forall g :: g in s.clients ==> ClientOk(s.clients[g], s.topics)
  }

  predicate CompleteFor(c: Client, topics: map<string, Topic>) {
    forall n :: n in topics && topics[n].keptCached && IsSubscribed(c.subscriptions, n, false) ==> n in c.topicData
  }

  /** Every client, but possibly one, has been announced every topic that it subscribes to and that has been
      cached since its creation. */
  predicate Complete(s: Server, exempt: Maybe<Guid>) {
    forall g :: g in s.clients && exempt != Just(g) ==> CompleteFor(s.clients[g], s.topics)
  }

  ghost predicate Inv(s: Server, exempt: Maybe<Guid>) {
    TopicsRight(s.topics) && ClientsRight(s) && Complete(s, exempt)
  }

  /** Topics stay, with their types. */
  predicate Extends(topics: map<string, Topic>, more: map<string, Topic>) {
    forall n :: n in topics ==> n in more && TypeOf(more[n].value) == TypeOf(topics[n].value)
  }

  lemma ClientOkStays(c: Client, topics: map<string, Topic>, more: map<string, Topic>)
    requires ClientOk(c, topics) && Extends(topics, more)
    ensures ClientOk(c, more)
  {
    hide IdsOk, HistoryOk, CachesOk, TypeName, ApiCode;
    assert forall x :: x in c.queue ==> Agrees(x, topics);
  }

  /** The clients change as Follows allows, one by one. */
  predicate Evolves(s: Server, t: Server) {
    t.clients.Keys == s.clients.Keys &&
    (forall g :: g in s.clients ==> Follows(s.clients[g], t.clients[g])) &&
    Extends(s.topics, t.topics)
  }

  /** The topics are the same ones, with the same types, and none has become kept. */
  predicate SameTopics(s: Server, t: Server) {
    t.topics.Keys == s.topics.Keys && Extends(s.topics, t.topics) &&
    (forall n :: n in s.topics ==> (t.topics[n].keptCached ==> s.topics[n].keptCached))
  }

  lemma EvolvingKeeps(s: Server, t: Server, x: Maybe<Guid>)
    requires Inv(s, x) && Evolves(s, t) && SameTopics(s, t) && TopicsRight(t.topics) && ClientsRight(t)
    ensures Inv(t, x)
  {
    hide ClientOk, IsSubscribed;
    forall g | g in t.clients && x != Just(g) ensures CompleteFor(t.clients[g], t.topics) {
      assert CompleteFor(s.clients[g], s.topics) && Follows(s.clients[g], t.clients[g]);
    }
  }

  // ------------------------------------------------------------ single operations

  lemma FanOutAllKeeps(s: Server, name: string, time: nat, x: Maybe<Guid>)
    requires Inv(s, x) && name in s.topics
    ensures Inv(FanOutAll(s, name, time), x) && Evolves(s, FanOutAll(s, name, time))
  {
    hide ClientOk, IsSubscribed, FanOut, Follows, CompleteFor;
    var t := FanOutAll(s, name, time);
    forall g | g in s.clients
      ensures ClientOk(t.clients[g], t.topics) && Follows(s.clients[g], t.clients[g])
    {
      FanOutKeeps(s.clients[g], s.topics[name], time, s.topics);
    }
    EvolvingKeeps(s, t, x);
  }

  lemma NotifyAllKeeps(s: Server, name: string, updater: Maybe<Guid>, x: Maybe<Guid>)
    requires Inv(s, x) && name in s.topics
    ensures Inv(NotifyAll(s, name, updater), x) && Evolves(s, NotifyAll(s, name, updater))
  {
    hide ClientOk, IsSubscribed, Notify, Follows, CompleteFor;
    var t := NotifyAll(s, name, updater);
    forall g | g in s.clients
      ensures ClientOk(t.clients[g], t.topics) && Follows(s.clients[g], t.clients[g])
    {
      NotifyKeeps(s.clients[g], s.topics[name], updater == Just(g), s.topics);
    }
    EvolvingKeeps(s, t, x);
  }

  lemma FlushAllKeep(s: Server, x: Maybe<Guid>)
    requires Inv(s, x)
    ensures Inv(FlushTextAll(s), x) && Evolves(s, FlushTextAll(s))
    ensures Inv(FlushBinaryAll(s), x) && Evolves(s, FlushBinaryAll(s))
    ensures forall g | g in s.clients :: FlushTextAll(s).clients[g].text.cached == [] &&
                                         FlushBinaryAll(s).clients[g].binary.cached == []
  {
    hide ClientOk, IsSubscribed, FlushText, FlushBinary, Follows, CompleteFor;
    var t, b := FlushTextAll(s), FlushBinaryAll(s);
    forall g | g in s.clients
      ensures ClientOk(t.clients[g], t.topics) && Follows(s.clients[g], t.clients[g])
      ensures ClientOk(b.clients[g], b.topics) && Follows(s.clients[g], b.clients[g])
      ensures t.clients[g].text.cached == [] && b.clients[g].binary.cached == []
    {
      FlushesKeep(s.clients[g], s.topics);
    }
    EvolvingKeeps(s, t, x);
    EvolvingKeeps(s, b, x);
  }

  lemma OneClientKeeps(s: Server, g: Guid, d: Client, x: Maybe<Guid>)
    requires Inv(s, x) && g in s.clients && ClientOk(d, s.topics) && Follows(s.clients[g], d)
    ensures Inv(WithClient(s, g, d), x) && Evolves(s, WithClient(s, g, d))
  {
    hide ClientOk, IsSubscribed, Follows, CompleteFor;
    var t := WithClient(s, g, d);
    forall h | h in s.clients ensures Follows(s.clients[h], t.clients[h]) {
      FollowsItself(s.clients[h]);
    }
    EvolvingKeeps(s, t, x);
  }

  lemma EvolvesItself(s: Server)
    ensures Evolves(s, s)
  {
  }

  lemma FlushOfKeeps(s: Server, g: Guid, x: Maybe<Guid>)
    requires Inv(s, x)
    ensures Inv(FlushTextOf(s, g), x) && Evolves(s, FlushTextOf(s, g))
    ensures Inv(FlushBinaryOf(s, g), x) && Evolves(s, FlushBinaryOf(s, g))
  {
    hide ClientOk, FlushText, FlushBinary, Follows, Complete;
    if g in s.clients {
      FlushesKeep(s.clients[g], s.topics);
      OneClientKeeps(s, g, FlushText(s.clients[g]), x);
      OneClientKeeps(s, g, FlushBinary(s.clients[g]), x);
    } else {
      EvolvesItself(s);
    }
  }

  lemma InitialValuesKeeps(env: Env, s: Server, g: Guid, x: Maybe<Guid>)
    requires Inv(s, x)
    ensures Inv(InitialValues(env, s, g), x) && Evolves(s, InitialValues(env, s, g))
  {
    hide ClientOk, PublishInitial, Follows, Complete, IsSubscribed;
    if g in s.clients {
      PublishInitialKeeps(s.clients[g], s.topics, env.order, env.now);
      OneClientKeeps(s, g, PublishInitial(s.clients[g], s.topics, env.order, env.now), x);
    } else {
      EvolvesItself(s);
    }
  }

  lemma AnnounceCachedToKeeps(env: Env, s: Server, g: Guid, x: Maybe<Guid>)
    requires Inv(s, x)
    ensures Inv(AnnounceCachedTo(env, s, g), x) && Evolves(s, AnnounceCachedTo(env, s, g))
  {
    hide ClientOk, AnnounceCached, Follows, Complete, IsSubscribed;
    if g in s.clients {
      AnnounceCachedKeeps(s.clients[g], s.topics, env.order);
      OneClientKeeps(s, g, AnnounceCached(s.clients[g], s.topics, env.order), x);
    } else {
      EvolvesItself(s);
    }
  }

  /** The loop over the cached topics completes the exempt client. */
  lemma AnnounceCachedCompletes(env: Env, s: Server, g: Guid)
    requires Inv(s, Just(g)) && multiset(env.order) == multiset(s.topics.Keys)
    ensures Inv(AnnounceCachedTo(env, s, g), Nothing)
  {
    hide ClientOk, AnnounceCached, Follows, IsSubscribed;
    AnnounceCachedToKeeps(env, s, g, Just(g));
    var t := AnnounceCachedTo(env, s, g);
    if g in s.clients {
      var d := t.clients[g];
      AnnounceCachedKeeps(s.clients[g], s.topics, env.order);
      forall n | n in s.topics && s.topics[n].keptCached && IsSubscribed(d.subscriptions, n, false)
        ensures n in d.topicData
      {
        assert n in multiset(env.order);
        SameSubscriptions(s.clients[g], d);
      }
    }
  }

  lemma SameSubscriptions(c: Client, d: Client)
    requires Follows(c, d)
    ensures d.subscriptions == c.subscriptions && d.name == c.name && d.publishers == c.publishers
  {
  }

  lemma WithValueKeeps(s: Server, name: string, v: NTValue, x: Maybe<Guid>)
    requires Inv(s, x) && name in s.topics && TypeOf(v) == TypeOf(s.topics[name].value)
    ensures Inv(WithValue(s, name, v), x) && Evolves(s, WithValue(s, name, v)) && SameTopics(s, WithValue(s, name, v))
  {
    hide ClientOk, Follows, CompleteFor, Known, TypeOf;
    var t := WithValue(s, name, v);
    forall g | g in s.clients ensures ClientOk(t.clients[g], t.topics) && Follows(s.clients[g], t.clients[g]) {
      ClientOkStays(s.clients[g], s.topics, t.topics);
      FollowsItself(s.clients[g]);
    }
    EvolvingKeeps(s, t, x);
  }

  lemma WithPropertiesKeeps(s: Server, name: string, p: Properties, x: Maybe<Guid>)
    requires Inv(s, x) && name in s.topics
    ensures Inv(WithProperties(s, name, p), x) && Evolves(s, WithProperties(s, name, p))
  {
    hide ClientOk, Follows, CompleteFor, Known, TypeOf;
    var t := WithProperties(s, name, p);
    forall g | g in s.clients ensures ClientOk(t.clients[g], t.topics) && Follows(s.clients[g], t.clients[g]) {
      ClientOkStays(s.clients[g], s.topics, t.topics);
      FollowsItself(s.clients[g]);
    }
    EvolvingKeeps(s, t, x);
  }

  lemma EvolvesTwice(s: Server, t: Server, u: Server)
    requires Evolves(s, t) && Evolves(t, u)
    ensures Evolves(s, u)
  {
    hide Follows, TypeOf;
    forall g | g in s.clients ensures Follows(s.clients[g], u.clients[g]) {
      FollowsTwice(s.clients[g], t.clients[g], u.clients[g]);
    }
  }

  lemma SetMetaKeeps(env: Env, s: Server, name: string, content: seq<byte>, x: Maybe<Guid>)
    requires Inv(s, x)
    ensures var t := SetMeta(env, s, name, content);
            Inv(t, x) && Evolves(s, t) && t.topics.Keys == s.topics.Keys
  {
    hide Inv, Evolves, WithBin, FanOut, TypeOf;
    if name in s.topics {
      var v := WithBin(s.topics[name].value, content);
      var t := WithValue(s, name, v);
      WithValueKeeps(s, name, v, x);
      FanOutAllKeeps(t, name, env.now, x);
      EvolvesTwice(s, t, FanOutAll(t, name, env.now));
    } else {
      FailureKeeps(s, x);
    }
  }

  lemma FailureKeeps(s: Server, x: Maybe<Guid>)
    requires Inv(s, x)
    ensures Inv(s.(failed := true), x) && Evolves(s, s.(failed := true))
  {
  }

  lemma AssignKeeps(s: Server, name: string, v: NTValue, time: nat, x: Maybe<Guid>)
    requires Inv(s, x)
    ensures Inv(AssignTopic(s, name, v, time), x)
    ensures Evolves(s, AssignTopic(s, name, v, time))
  {
    hide Evolves, Assign, FanOut, TypeOf, ClientsRight, Complete;
    if name in s.topics && Valid(v) {
      var w := Assign(s.topics[name].value, v);
      KnownIsValid(s.topics[name].value);
      AssignKeepsType(s.topics[name].value, v);
      var t := WithValue(s, name, w);
      WithValueKeeps(s, name, w, x);
      FanOutAllKeeps(t, name, time, x);
      EvolvesTwice(s, t, FanOutAll(t, name, time));
    } else {
      FailureKeeps(s, x);
      EvolvesItself(s);
    }
  }

  lemma KnownIsValid(v: NTValue)
    requires Known(TypeOf(v))
    ensures Valid(v)
  {
  }

  // ------------------------------------------------------------ new topics

  /** Complete but for one topic. */
  predicate CompleteBut(c: Client, topics: map<string, Topic>, name: string) {
    forall n :: n in topics && n != name && topics[n].keptCached && IsSubscribed(c.subscriptions, n, false) ==> n in c.topicData
  }

  lemma CompleteWithOneMore(c: Client, topics: map<string, Topic>, more: map<string, Topic>, name: string)
    requires CompleteFor(c, topics)
    requires forall n :: n in more && n != name ==> n in topics && more[n] == topics[n]
    ensures CompleteBut(c, more, name)
  {
    hide IsSubscribed;
  }

  lemma CreateTopics(s: Server, name: string, value: NTValue, p: Properties)
    requires TopicsRight(s.topics) && Known(TypeOf(value))
    ensures var t := Create(s, name, value, p);
            TopicsRight(t.topics) && t.clients == s.clients && Extends(s.topics, t.topics) &&
            (forall n :: n in t.topics && n != name ==> n in s.topics && t.topics[n] == s.topics[n])
  {
    hide Known, TypeOf;
  }

  lemma CreateKeeps(s: Server, name: string, value: NTValue, p: Properties, x: Maybe<Guid>)
    requires Inv(s, x) && Known(TypeOf(value))
    ensures var t := Create(s, name, value, p);
            TopicsRight(t.topics) && ClientsRight(t) && t.clients == s.clients && Extends(s.topics, t.topics) &&
            (forall g | g in t.clients && x != Just(g) :: CompleteBut(t.clients[g], t.topics, name))
  {
    hide ClientOk, CompleteFor, CompleteBut, Known, TypeOf, Create, TopicsRight, Extends;
    var t := Create(s, name, value, p);
    CreateTopics(s, name, value, p);
    forall g | g in s.clients ensures ClientOk(t.clients[g], t.topics) {
      ClientOkStays(s.clients[g], s.topics, t.topics);
    }
    forall g | g in t.clients && x != Just(g) ensures CompleteBut(t.clients[g], t.topics, name) {
      CompleteWithOneMore(s.clients[g], s.topics, t.topics, name);
    }
  }

  lemma AnnounceOneKeeps(c: Client, t: Topic, g: Guid, publisher: Maybe<(Guid, int)>, topics: map<string, Topic>)
    requires ClientOk(c, topics) && t.name in topics && TypeOf(t.value) == TypeOf(topics[t.name].value)
    ensures var d := AnnounceOne(c, t, g, publisher);
            ClientOk(d, topics) && Follows(c, d) && (IsSubscribed(c.subscriptions, t.name, false) ==> t.name in d.topicData)
  {
    hide ClientOk, IsSubscribed, AnnounceTopic, Follows;
    AnnounceKeeps(c, t, Nothing, topics);
    FollowsItself(c);
    if publisher.Just? { AnnounceKeeps(c, t, Just(publisher.value.1), topics); }
  }

  lemma IntroduceKeeps(s: Server, name: string, value: NTValue, p: Properties, publisher: Maybe<(Guid, int)>, x: Maybe<Guid>)
    requires Inv(s, x) && Known(TypeOf(value))
    ensures Inv(Introduce(s, name, value, p, publisher), x) && Evolves(s, Introduce(s, name, value, p, publisher))
  {
    hide ClientOk, IsSubscribed, Create, AnnounceOne, Known, TypeOf;
    var t := Create(s, name, value, p);
    CreateKeeps(s, name, value, p, x);
    var u := AnnounceAll(t, name, publisher);
    forall g | g in s.clients
      ensures ClientOk(u.clients[g], u.topics) && Follows(s.clients[g], u.clients[g])
      ensures IsSubscribed(s.clients[g].subscriptions, name, false) ==> name in u.clients[g].topicData
    {
      AnnounceOneKeeps(t.clients[g], t.topics[name], g, publisher, t.topics);
    }
    forall g | g in u.clients && x != Just(g) ensures CompleteFor(u.clients[g], u.topics) {
      assert Follows(s.clients[g], u.clients[g]);
      assert CompleteBut(t.clients[g], t.topics, name);
    }
  }

  lemma IntroduceMetaKeeps(s: Server, name: string, x: Maybe<Guid>)
    requires Inv(s, x)
    ensures Inv(IntroduceMeta(s, name), x) && Evolves(s, IntroduceMeta(s, name))
  {
    IntroduceKeeps(s, name, BinV(MsgpackBin, []), META_PROPERTIES, Nothing, x);
  }

  // ------------------------------------------------------------ the steps

  lemma PublishTopicKeeps(env: Env, s: Server, name: string, value: NTValue, p: Properties,
                          publisher: Maybe<(Guid, int)>, x: Maybe<Guid>)
    requires Inv(s, x) && Known(TypeOf(value))
    ensures Inv(PublishTopic(env, s, name, value, p, publisher), x)
  {
    hide Inv, Introduce, IntroduceMeta, SetMeta, TypeOf, Evolves;
    var s1 := Introduce(s, name, value, p, publisher);
    IntroduceKeeps(s, name, value, p, publisher, x);
    var s2 := IntroduceMeta(s1, TopicSub(name));
    IntroduceMetaKeeps(s1, TopicSub(name), x);
    var s3 := IntroduceMeta(s2, TopicPub(name));
    IntroduceMetaKeeps(s2, TopicPub(name), x);
    var s4 := UpdateTopicSub(env, s3, name);
    SetMetaKeeps(env, s3, TopicSub(name), env.enc.topicSubscriptions(Interests(s3.clients, name)), x);
    SetMetaKeeps(env, s4, TopicPub(name), env.enc.topicPublishers(Supplies(s4.clients, name)), x);
  }

  lemma UpdateClientKeeps(env: Env, s: Server, g: Guid, x: Maybe<Guid>)
    requires Inv(s, x)
    ensures Inv(UpdateClientSub(env, s, g), x) && UpdateClientSub(env, s, g).topics.Keys == s.topics.Keys
    ensures Inv(UpdateClientPub(env, s, g), x) && UpdateClientPub(env, s, g).topics.Keys == s.topics.Keys
  {
    hide Inv, SetMeta, Evolves;
    if g in s.clients {
      SetMetaKeeps(env, s, ClientSub(s.clients[g].name), env.enc.subscriptions(s.clients[g].subscriptions), x);
      SetMetaKeeps(env, s, ClientPub(s.clients[g].name), env.enc.publishers(s.clients[g].publishers), x);
    }
  }

  lemma {:induction false} UpdateCoveredKeeps(env: Env, s: Server, sub: Subscription, order: seq<string>, x: Maybe<Guid>)
    requires Inv(s, x)
    ensures Inv(UpdateCovered(env, s, sub, order), x)
    ensures UpdateCovered(env, s, sub, order).topics.Keys == s.topics.Keys
  {
    hide Inv, SetMeta, Evolves, Covers, IsMeta;
    if order == [] {
    } else {
      var init, n := order[..|order| - 1], order[|order| - 1];
      UpdateCoveredKeeps(env, s, sub, init, x);
      var s1 := UpdateCovered(env, s, sub, init);
      SetMetaKeeps(env, s1, TopicSub(n), env.enc.topicSubscriptions(Interests(s1.clients, n)), x);
    }
  }

  /** A client in place of another with the same topic data and history. */
  lemma SameHistory(c: Client, d: Client, topics: map<string, Topic>)
    requires ClientOk(c, topics)
    requires d.topicData == c.topicData && d.nextTopicId == c.nextTopicId && d.queue == c.queue
    requires d.text == c.text && d.binary == c.binary && d.log == c.log
    ensures ClientOk(d, topics)
  {
    hide Orderly, Bindings, Updated, Texts, Records, Agrees;
  }

  lemma NewSubscriptions(s: Server, g: Guid, subs: map<int, Subscription>)
    requires Inv(s, Nothing) && g in s.clients
    ensures Inv(WithSubscriptions(s, g, subs), Just(g))
    ensures (forall n :: IsSubscribed(subs, n, false) ==> IsSubscribed(s.clients[g].subscriptions, n, false))
            ==> Inv(WithSubscriptions(s, g, subs), Nothing)
  {
    hide ClientOk, IsSubscribed;
    SameHistory(s.clients[g], s.clients[g].(subscriptions := subs), s.topics);
    assert CompleteFor(s.clients[g], s.topics);
  }

  lemma NewPublishers(s: Server, g: Guid, pubs: map<int, Publisher>, x: Maybe<Guid>)
    requires Inv(s, x) && g in s.clients
    ensures Inv(WithPublishers(s, g, pubs), x)
  {
    hide ClientOk, IsSubscribed;
    SameHistory(s.clients[g], s.clients[g].(publishers := pubs), s.topics);
    assert x != Just(g) ==> CompleteFor(s.clients[g], s.topics);
  }

  lemma ConnectKeeps(env: Env, s: Server, g: Guid, requested: string)
    requires Inv(s, Nothing)
    ensures Inv(Connect(env, s, g, requested), Nothing)
  {
    hide IntroduceMeta, SetMeta, FlushTextOf, FlushBinaryOf, InitialValues, Evolves, UpdateClientSub, UpdateClientPub, NameFor;
    var name := NameFor(s.clients, requested);
    var s1 := WithClient(s, g, NewClient(name));
    assert Inv(s1, Nothing) by { ArrivalKeeps(s, g, name); }
    hide Inv;
    var s2 := IntroduceMeta(s1, ClientSub(name));
    IntroduceMetaKeeps(s1, ClientSub(name), Nothing);
    var s3 := IntroduceMeta(s2, ClientPub(name));
    IntroduceMetaKeeps(s2, ClientPub(name), Nothing);
    var s4 := UpdateClients(env, s3);
    SetMetaKeeps(env, s3, CLIENTS, env.enc.roster(Names(s3.clients)), Nothing);
    UpdateClientKeeps(env, s4, g, Nothing);
    var s5 := UpdateClientSub(env, s4, g);
    UpdateClientKeeps(env, s5, g, Nothing);
    var s6 := UpdateClientPub(env, s5, g);
    FlushOfKeeps(s6, g, Nothing);
    InitialValuesKeeps(env, FlushTextOf(s6, g), g, Nothing);
    FlushOfKeeps(InitialValues(env, FlushTextOf(s6, g), g), g, Nothing);
  }

  lemma ArrivalKeeps(s: Server, g: Guid, name: string)
    requires Inv(s, Nothing)
    ensures Inv(WithClient(s, g, NewClient(name)), Nothing)
  {
    hide ClientOk, Covers;
    NewClientOk(name, s.topics);
  }

  lemma DisconnectKeeps(env: Env, s: Server, g: Guid)
    requires Inv(s, Nothing)
    ensures Inv(Disconnect(env, s, g), Nothing)
  {
    hide ClientOk, IsSubscribed, CompleteFor, SetMeta, FlushBinaryAll, Evolves;
    if g in s.clients {
      var s1 := s.(clients := s.clients - {g});
      assert Inv(s1, Nothing);
      SetMetaKeeps(env, s1, CLIENTS, env.enc.roster(Names(s1.clients)), Nothing);
      FlushAllKeep(UpdateClients(env, s1), Nothing);
    }
  }

  lemma SubscribeKeeps(env: Env, s: Server, g: Guid, sub: Subscription)
    requires Inv(s, Nothing) && multiset(env.order) == multiset(s.topics.Keys)
    ensures Inv(Subscribe(env, s, g, sub), Nothing)
  {
    hide Inv, UpdateClientSub, UpdateCovered, AnnounceCachedTo;
    if g in s.clients {
      var subs := s.clients[g].subscriptions[sub.uid := sub];
      var s1 := WithSubscriptions(s, g, subs);
      NewSubscriptions(s, g, subs);
      UpdateClientKeeps(env, s1, g, Just(g));
      var s2 := UpdateClientSub(env, s1, g);
      UpdateCoveredKeeps(env, s2, sub, env.order, Just(g));
      AnnounceCachedCompletes(env, UpdateCovered(env, s2, sub, env.order), g);
    }
  }

  lemma FewerSubscriptions(subs: map<int, Subscription>, uid: int, n: string)
    requires IsSubscribed(subs - {uid}, n, false)
    ensures IsSubscribed(subs, n, false)
  {
    hide Covers;
    var u :| u in subs - {uid} && Covers(subs[u], n);
    assert u in subs && Covers(subs[u], n);
  }

  lemma UnsubscribeKeeps(env: Env, s: Server, g: Guid, subuid: int)
    requires Inv(s, Nothing)
    ensures Inv(Unsubscribe(env, s, g, subuid), Nothing)
  {
    hide Inv, UpdateClientSub, UpdateCovered, IsSubscribed;
    if g in s.clients && subuid in s.clients[g].subscriptions {
      var subs := s.clients[g].subscriptions - {subuid};
      var s1 := WithSubscriptions(s, g, subs);
      forall n | IsSubscribed(subs, n, false) ensures IsSubscribed(s.clients[g].subscriptions, n, false) {
        FewerSubscriptions(s.clients[g].subscriptions, subuid, n);
      }
      NewSubscriptions(s, g, subs);
      UpdateClientKeeps(env, s1, g, Nothing);
      UpdateCoveredKeeps(env, UpdateClientSub(env, s1, g), s.clients[g].subscriptions[subuid], env.order, Nothing);
    }
  }

  lemma AnnounceToKeeps(s: Server, g: Guid, name: string, pubuid: int)
    requires Inv(s, Nothing) && g in s.clients && name in s.topics
    ensures Inv(WithClient(s, g, AnnounceTopic(s.clients[g], s.topics[name], Just(pubuid))), Nothing)
  {
    hide ClientOk, AnnounceTopic, Follows, Complete, Known, TypeOf;
    AnnounceKeeps(s.clients[g], s.topics[name], Just(pubuid), s.topics);
    OneClientKeeps(s, g, AnnounceTopic(s.clients[g], s.topics[name], Just(pubuid)), Nothing);
  }

  lemma ParsedIsKnown(typeName: string)
    ensures Known(TypeOf(Default(ParseTypeName(typeName))))
  {
  }

  lemma PublishKeeps(env: Env, s: Server, g: Guid, pubuid: int, name: string, typeName: string, p: Properties)
    requires Inv(s, Nothing)
    ensures Inv(Publish(env, s, g, pubuid, name, typeName, p), Nothing)
  {
    hide Inv, PublishTopic, UpdateClientPub, SetMeta, AnnounceTopic, Evolves, Default, ParseTypeName, Known;
    if g in s.clients {
      var pubs := s.clients[g].publishers[pubuid := Publisher(pubuid, name)];
      var s1 := WithPublishers(s, g, pubs);
      NewPublishers(s, g, pubs, Nothing);
      var s2 :=
        if name !in s1.topics
        then PublishTopic(env, s1, name, Default(ParseTypeName(typeName)), p, Just((g, pubuid)))
        else WithClient(s1, g, AnnounceTopic(s1.clients[g], s1.topics[name], Just(pubuid)));
      if name !in s1.topics {
        ParsedIsKnown(typeName);
        PublishTopicKeeps(env, s1, name, Default(ParseTypeName(typeName)), p, Just((g, pubuid)), Nothing);
      } else {
        AnnounceToKeeps(s1, g, name, pubuid);
      }
      UpdateClientKeeps(env, s2, g, Nothing);
      var s3 := UpdateClientPub(env, s2, g);
      SetMetaKeeps(env, s3, TopicPub(name), env.enc.topicPublishers(Supplies(s3.clients, name)), Nothing);
    }
  }

  lemma UnpublishKeeps(env: Env, s: Server, g: Guid, pubuid: int)
    requires Inv(s, Nothing)
    ensures Inv(Unpublish(env, s, g, pubuid), Nothing)
  {
    hide Inv, UpdateClientPub, SetMeta, Evolves;
    if g in s.clients && pubuid in s.clients[g].publishers {
      var name := s.clients[g].publishers[pubuid].topic;
      var s1 := WithPublishers(s, g, s.clients[g].publishers - {pubuid});
      NewPublishers(s, g, s.clients[g].publishers - {pubuid}, Nothing);
      UpdateClientKeeps(env, s1, g, Nothing);
      var s2 := UpdateClientPub(env, s1, g);
      SetMetaKeeps(env, s2, TopicPub(name), env.enc.topicPublishers(Supplies(s2.clients, name)), Nothing);
    }
  }

  lemma PropertiesKeep(s: Server, name: string, p: Properties, updater: Maybe<Guid>)
    requires Inv(s, Nothing) && name in s.topics
    ensures Inv(NotifyAll(WithProperties(s, name, p), name, updater), Nothing)
  {
    hide Inv, Evolves;
    WithPropertiesKeeps(s, name, p, Nothing);
    NotifyAllKeeps(WithProperties(s, name, p), name, updater, Nothing);
  }

  lemma EndOfTextKeeps(env: Env, s: Server, g: Guid)
    requires Inv(s, Nothing)
    ensures Inv(EndOfText(env, s, g), Nothing)
  {
    hide Inv, FlushTextAll, FlushBinaryAll, InitialValues, Evolves;
    FlushAllKeep(s, Nothing);
    InitialValuesKeeps(env, FlushTextAll(s), g, Nothing);
    FlushAllKeep(InitialValues(env, FlushTextAll(s), g), Nothing);
  }

  lemma ValueKeeps(env: Env, s: Server, g: Guid, id: int, v: NTValue)
    requires Inv(s, Nothing)
    ensures Inv(Value(env, s, g, id, v), Nothing)
  {
    hide Inv, AssignTopic, FlushBinaryAll, Evolves, ToInt32;
    FlushAllKeep(s, Nothing);
    if id != -1 && g in s.clients && ToInt32(id) in s.clients[g].publishers {
      var name := s.clients[g].publishers[ToInt32(id)].topic;
      AssignKeeps(s, name, v, env.now, Nothing);
      FlushAllKeep(AssignTopic(s, name, v, env.now), Nothing);
    }
  }

  /** The server's own subscriptions and publishers do not matter to its clients. */
  lemma OwnKeeps(s: Server, t: Server)
    requires Inv(s, Nothing) && t.topics == s.topics && t.clients == s.clients
    ensures Inv(t, Nothing)
  {
  }

  lemma LocalKeeps(env: Env, s: Server, e: Event)
    requires Inv(s, Nothing)
    requires e.LocalSubscribeEvent? || e.LocalUnsubscribeEvent? || e.LocalUnpublishEvent? || e.LocalPublishEvent?
    requires e.LocalPublishEvent? ==> Known(e.t)
    ensures Inv(Next(env, s, e), Nothing)
  {
    hide Inv, SetMeta, PublishTopic, Evolves, Connect;
    match e {
      case LocalSubscribeEvent(sub) =>
        var s1 := s.(ownSubscriptions := s.ownSubscriptions[sub.uid := sub]);
        OwnKeeps(s, s1);
        SetMetaKeeps(env, s1, SERVER_SUB, env.enc.subscriptions(s1.ownSubscriptions), Nothing);
      case LocalUnsubscribeEvent(subuid) =>
        var s1 := s.(ownSubscriptions := s.ownSubscriptions - {subuid});
        OwnKeeps(s, s1);
        SetMetaKeeps(env, s1, SERVER_SUB, env.enc.subscriptions(s1.ownSubscriptions), Nothing);
      case LocalUnpublishEvent(pubuid) =>
        var s1 := s.(ownPublishers := s.ownPublishers - {pubuid});
        OwnKeeps(s, s1);
        SetMetaKeeps(env, s1, SERVER_PUB, env.enc.publishers(s1.ownPublishers), Nothing);
      case LocalPublishEvent(pubuid, name, t, p) =>
        var s1 := s.(ownPublishers := s.ownPublishers[pubuid := Publisher(pubuid, name)]);
        OwnKeeps(s, s1);
        var s2 := if name !in s1.topics then PublishTopic(env, s1, name, Default(t), p, Nothing) else s1;
        if name !in s1.topics { PublishTopicKeeps(env, s1, name, Default(t), p, Nothing, Nothing); }
        SetMetaKeeps(env, s2, SERVER_PUB, env.enc.publishers(s2.ownPublishers), Nothing);
    }
  }

  lemma StepKeeps(enc: Encoders, s: Server, i: Input)
    requires Inv(s, Nothing) && Sound(s, i)
    ensures Inv(Step(Env(enc, i.now, i.order), s, i.event), Nothing)
  {
    hide Inv, Connect, Disconnect, Subscribe, Unsubscribe, Publish, Unpublish, EndOfText, Value, AssignTopic, NotifyAll,
         WithProperties, FlushBinaryAll, LocalSubscribe, LocalUnsubscribe, LocalPublish, LocalUnpublish, Evolves;
    var env := Env(enc, i.now, i.order);
    match i.event {
      case ConnectEvent(g, requested) => ConnectKeeps(env, s, g, requested);
      case DisconnectEvent(g) => DisconnectKeeps(env, s, g);
      case SubscribeEvent(g, sub) => SubscribeKeeps(env, s, g, sub);
      case UnsubscribeEvent(g, subuid) => UnsubscribeKeeps(env, s, g, subuid);
      case PublishEvent(g, pubuid, name, typeName, p) => PublishKeeps(env, s, g, pubuid, name, typeName, p);
      case UnpublishEvent(g, pubuid) => UnpublishKeeps(env, s, g, pubuid);
      case SetPropertiesEvent(g, name, p, r, c) =>
        if name in s.topics {
          var was := s.topics[name].properties;
          PropertiesKeep(s, name, Properties(Or(p, was.persistent), Or(r, was.retained), Or(c, was.cached)), Just(g));
        }
      case EndOfTextEvent(g) => EndOfTextKeeps(env, s, g);
      case ValueEvent(g, id, v) => ValueKeeps(env, s, g, id, v);
      case LocalSetPropertiesEvent(name, p) => if name in s.topics { PropertiesKeep(s, name, p, Nothing); }
      case LocalUpdateEvent(pubuid, v, time) =>
        if pubuid in s.ownPublishers { AssignKeeps(s, s.ownPublishers[pubuid].topic, v, time, Nothing); }
      case FlushEvent => FlushAllKeep(s, Nothing);
      case _ => LocalKeeps(env, s, i.event);
    }
  }

  // ------------------------------------------------------------ runs

  lemma StartKeeps(enc: Encoders)
    ensures Inv(Start(enc), Nothing)
  {
  }

  /** The invariant holds after every run. */
  lemma {:induction false} RunKeeps(enc: Encoders, inputs: seq<Input>)
    requires SoundRun(enc, inputs)
    ensures Inv(Run(enc, inputs), Nothing)
  {
    hide Inv, Step, Sound, Start;
    if inputs == [] {
      StartKeeps(enc);
    } else {
      RunKeeps(enc, inputs[..|inputs| - 1]);
      StepKeeps(enc, Run(enc, inputs[..|inputs| - 1]), inputs[|inputs| - 1]);
    }
  }
}
