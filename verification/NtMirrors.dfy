/** The meta-topics of the clients hold, after every step, what the clients subscribe to and publish. */
module NtMirrors {
  import opened Bytes
  import opened NtValues
  import opened Maybes
  import opened NtClient
  import opened NtServer
  import opened NtMetaTopics

  /** The topics about one client or the server. */
  predicate Mirroring(n: string) {
    (|n| > 1 && n[0] == '$' && n[1] == 'c' && n != CLIENTS) || n == SERVER_SUB || n == SERVER_PUB
  }

  lemma WhichMirror(n: string)
    ensures Mirroring(ClientSub(n)) && Mirroring(ClientPub(n))
    ensures !Mirroring(TopicSub(n)) && !Mirroring(TopicPub(n))
    ensures !Mirroring(CLIENTS) && Mirroring(SERVER_SUB) && Mirroring(SERVER_PUB)
    ensures !IsMeta(n) ==> !Mirroring(n)
  {
    assert |CLIENTS| == 8 && |ClientSub(n)| >= 11 && |ClientPub(n)| >= 11;
    assert ClientSub(n)[0] == '$' && ClientSub(n)[1] == 'c' && ClientPub(n)[0] == '$' && ClientPub(n)[1] == 'c';
    assert TopicSub(n)[1] == 's' && TopicPub(n)[1] == 'p' && TopicSub(n)[2] == 'u';
    assert SERVER_SUB[2] == 'e' && SERVER_PUB[2] == 'e' && SERVER_PUB[1] == 's' && SERVER_SUB[1] == 's';
    assert SERVER_SUB[0] == '$' && SERVER_PUB[0] == '$' && |CLIENTS| != |SERVER_SUB|;
  }

  lemma OwnMirrors(a: string, b: string)
    ensures ClientSub(a) == ClientSub(b) <==> a == b
    ensures ClientPub(a) == ClientPub(b) <==> a == b
    ensures ClientSub(a) != ClientPub(b)
    ensures ClientSub(a) != SERVER_SUB && ClientSub(a) != SERVER_PUB && ClientPub(a) != SERVER_SUB && ClientPub(a) != SERVER_PUB
    ensures SERVER_SUB != SERVER_PUB
  {
    assert ClientSub(a)[1] == 'c' && ClientPub(a)[1] == 'c' && SERVER_SUB[1] == 's' && SERVER_PUB[1] == 's';
    assert SERVER_SUB[7] == 's' && SERVER_PUB[7] == 'p';
    assert ClientSub(a)[11..] == a && ClientSub(b)[11..] == b && ClientPub(a)[11..] == a && ClientPub(b)[11..] == b;
    assert ClientSub(a)[7] == 's' && ClientPub(b)[7] == 'p';
  }

  predicate Holds(topics: map<string, Topic>, name: string, content: seq<byte>) {
    name in topics && topics[name].value == BinV(MsgpackBin, content)
  }

  /** The topic of a client holds its packed subscriptions. */
  predicate MirrorsSub(enc: Encoders, c: Client, topics: map<string, Topic>) {
    Holds(topics, ClientSub(c.name), enc.subscriptions(c.subscriptions))
  }

  predicate MirrorsPub(enc: Encoders, c: Client, topics: map<string, Topic>) {
    Holds(topics, ClientPub(c.name), enc.publishers(c.publishers))
  }

  /** The two topics of the server hold its own subscriptions and publishers. */
  predicate MirrorsOwn(enc: Encoders, s: Server) {
    Holds(s.topics, SERVER_SUB, enc.subscriptions(s.ownSubscriptions)) && Holds(s.topics, SERVER_PUB, enc.publishers(s.ownPublishers))
  }

  /** A list of the publishers of a meta-topic. */
  predicate ListOfMeta(n: string) {
    "$pub$" <= n && IsMeta(n[5..])
  }

  lemma WhichLists(n: string)
    ensures ListOfMeta(TopicPub(n)) <==> IsMeta(n)
    ensures !ListOfMeta(TopicSub(n)) && !ListOfMeta(ClientSub(n)) && !ListOfMeta(ClientPub(n))
    ensures ListOfMeta(n) ==> IsMeta(n)
  {
    assert TopicPub(n)[5..] == n;
    assert TopicSub(n)[1] == 's' && ClientSub(n)[1] == 'c' && ClientPub(n)[1] == 'c';
  }

  /** The meta-topics are of the right type, and none is about another one. */
  predicate MetaTyped(topics: map<string, Topic>) {
    forall n :: n in topics && IsMeta(n) ==> topics[n].value.BinV? && topics[n].value.binTag == MsgpackBin && !ListOfMeta(n)
  }

  predicate Plain(pubs: map<int, Publisher>) {
    forall u :: u in pubs ==> !IsMeta(pubs[u].topic)
  }

  predicate AllPlain(clients: map<Guid, Client>) {
    forall g :: g in clients ==> Plain(clients[g].publishers)
  }

  /** The server and every client is mirrored, except possibly the subscriptions of one client and the
      publishers of one. */
  predicate Mirrored(enc: Encoders, s: Server, noSub: Maybe<Guid>, noPub: Maybe<Guid>) {
    MirrorsOwn(enc, s) && MetaTyped(s.topics) && Plain(s.ownPublishers) && AllPlain(s.clients) && Distinct(s.clients) &&
    (forall g :: g in s.clients && noSub != Just(g) ==> MirrorsSub(enc, s.clients[g], s.topics)) &&
    (forall g :: g in s.clients && noPub != Just(g) ==> MirrorsPub(enc, s.clients[g], s.topics))
  }

  /** Names asked for get new names, and the program itself publishes no meta-topic. */
  predicate Regular(s: Server, e: Event) {
    match e
    case ConnectEvent(_, requested) => Grantable(s.clients, requested)
    case LocalPublishEvent(_, name, _, _) => !IsMeta(name)
    case _ => true
  }

  /** The mirroring topics keep their values, the clients their maps. */
  predicate KeepsMirrors(s: Server, t: Server) {
    SameClients(s, t) && t.ownSubscriptions == s.ownSubscriptions && t.ownPublishers == s.ownPublishers && MetaTyped(t.topics) &&
    (forall n :: n in s.topics && Mirroring(n) ==> n in t.topics && t.topics[n].value == s.topics[n].value)
  }

  lemma DistinctStays(s: Server, t: Server)
    requires SameClients(s, t)
    ensures Distinct(s.clients) ==> Distinct(t.clients)
  {
    assert forall g :: g in s.clients ==> SameClient(s.clients[g], t.clients[g]);
  }

  lemma DifferentNames(s: Server, g: Guid, h: Guid)
    requires Distinct(s.clients) && g in s.clients && h in s.clients
    ensures s.clients[g].name == s.clients[h].name <==> g == h
  {
  }

  lemma MirroredStays(enc: Encoders, s: Server, t: Server, noSub: Maybe<Guid>, noPub: Maybe<Guid>)
    requires Mirrored(enc, s, noSub, noPub) && KeepsMirrors(s, t)
    ensures Mirrored(enc, t, noSub, noPub)
  {
    hide IsMeta, ClientSub, ClientPub, Plain, Mirroring, MetaTyped, Distinct;
    DistinctStays(s, t);
    WhichMirror("");
    forall g | g in t.clients
      ensures Plain(t.clients[g].publishers)
      ensures noSub != Just(g) ==> MirrorsSub(enc, t.clients[g], t.topics)
      ensures noPub != Just(g) ==> MirrorsPub(enc, t.clients[g], t.topics)
    {
      assert SameClient(s.clients[g], t.clients[g]);
      WhichMirror(s.clients[g].name);
    }
  }

  lemma BinKeepsTag(v: NTValue, content: seq<byte>)
    requires v.BinV? && v.binTag == MsgpackBin
    ensures WithBin(v, content) == BinV(MsgpackBin, content)
  {
  }

  /** SetMeta, whether or not the topic is there. */
  lemma SetMetaEither(env: Env, s: Server, name: string, content: seq<byte>)
    requires MetaTyped(s.topics) && IsMeta(name)
    ensures var t := SetMeta(env, s, name, content);
            SameClients(s, t) && t.ownSubscriptions == s.ownSubscriptions && t.ownPublishers == s.ownPublishers &&
            MetaTyped(t.topics) && t.topics.Keys == s.topics.Keys &&
            (forall n :: n in s.topics && n != name ==> t.topics[n] == s.topics[n]) &&
            (name in s.topics ==> Holds(t.topics, name, content))
  {
    hide SetMeta, SameClient, IsMeta, WithBin;
    if name in s.topics {
      SetMetaShape(env, s, name, content);
      BinKeepsTag(s.topics[name].value, content);
    } else {
      SetMetaAbsent(env, s, name, content);
    }
  }

  lemma SetMetaAbsent(env: Env, s: Server, name: string, content: seq<byte>)
    requires name !in s.topics
    ensures var t := SetMeta(env, s, name, content);
            SameClients(s, t) && t.topics == s.topics &&
            t.ownSubscriptions == s.ownSubscriptions && t.ownPublishers == s.ownPublishers
  {
  }

  lemma OtherMeta(enc: Encoders, env: Env, s: Server, name: string, content: seq<byte>, noSub: Maybe<Guid>, noPub: Maybe<Guid>)
    requires Mirrored(enc, s, noSub, noPub) && IsMeta(name) && !Mirroring(name)
    ensures var t := SetMeta(env, s, name, content);
            Mirrored(enc, t, noSub, noPub) && t.topics.Keys == s.topics.Keys && SameClients(s, t)
  {
    hide SetMeta, SameClients, MetaTyped, Mirroring, IsMeta;
    SetMetaEither(env, s, name, content);
    MirroredStays(enc, s, SetMeta(env, s, name, content), noSub, noPub);
  }

  /** Refreshing the subscriptions of the exempt client. */
  lemma RefreshSub(env: Env, s: Server, g: Guid, noPub: Maybe<Guid>)
    requires Mirrored(env.enc, s, Just(g), noPub) && g in s.clients && ClientSub(s.clients[g].name) in s.topics
    ensures var t := UpdateClientSub(env, s, g);
            Mirrored(env.enc, t, Nothing, noPub) && t.topics.Keys == s.topics.Keys && SameClients(s, t)
  {
    hide SetMeta, MetaTyped, IsMeta, ClientSub, ClientPub, Plain, Distinct;
    var name := ClientSub(s.clients[g].name);
    OwnMirrors(s.clients[g].name, "");
    MetaNames(s.clients[g].name);
    SetMetaEither(env, s, name, env.enc.subscriptions(s.clients[g].subscriptions));
    var t := UpdateClientSub(env, s, g);
    DistinctStays(s, t);
    forall h | h in t.clients
      ensures Plain(t.clients[h].publishers) && MirrorsSub(env.enc, t.clients[h], t.topics)
      ensures noPub != Just(h) ==> MirrorsPub(env.enc, t.clients[h], t.topics)
    {
      assert SameClient(s.clients[h], t.clients[h]);
      DifferentNames(s, g, h);
      OwnMirrors(s.clients[g].name, s.clients[h].name);
    }
  }

  lemma RefreshPub(env: Env, s: Server, g: Guid, noSub: Maybe<Guid>)
    requires Mirrored(env.enc, s, noSub, Just(g)) && g in s.clients && ClientPub(s.clients[g].name) in s.topics
    ensures var t := UpdateClientPub(env, s, g);
            Mirrored(env.enc, t, noSub, Nothing) && t.topics.Keys == s.topics.Keys && SameClients(s, t)
  {
    hide SetMeta, MetaTyped, IsMeta, ClientSub, ClientPub, Plain, Distinct;
    var name := ClientPub(s.clients[g].name);
    OwnMirrors(s.clients[g].name, "");
    MetaNames(s.clients[g].name);
    SetMetaEither(env, s, name, env.enc.publishers(s.clients[g].publishers));
    var t := UpdateClientPub(env, s, g);
    DistinctStays(s, t);
    forall h | h in t.clients
      ensures Plain(t.clients[h].publishers) && MirrorsPub(env.enc, t.clients[h], t.topics)
      ensures noSub != Just(h) ==> MirrorsSub(env.enc, t.clients[h], t.topics)
    {
      assert SameClient(s.clients[h], t.clients[h]);
      DifferentNames(s, g, h);
      OwnMirrors(s.clients[h].name, s.clients[g].name);
      OwnMirrors(s.clients[g].name, s.clients[h].name);
    }
  }

  /** A new topic does not disturb the old ones. */
  lemma IntroduceMirrored(enc: Encoders, s: Server, name: string, v: NTValue, p: Properties, publisher: Maybe<(Guid, int)>,
                          noSub: Maybe<Guid>, noPub: Maybe<Guid>)
    requires Mirrored(enc, s, noSub, noPub) && (IsMeta(name) ==> v.BinV? && v.binTag == MsgpackBin && !ListOfMeta(name))
    ensures var t := Introduce(s, name, v, p, publisher);
            Mirrored(enc, t, noSub, noPub) && t.topics.Keys == s.topics.Keys + {name} && SameClients(s, t)
  {
    hide Introduce, Mirroring, IsMeta, SameClients, ListOfMeta;
    IntroduceShape(s, name, v, p, publisher);
    MirroredStays(enc, s, Introduce(s, name, v, p, publisher), noSub, noPub);
  }

  lemma SameClientsTwice(s: Server, t: Server, u: Server)
    requires SameClients(s, t) && SameClients(t, u)
    ensures SameClients(s, u)
  {
    assert forall g :: g in s.clients ==> SameClient(s.clients[g], t.clients[g]) && SameClient(t.clients[g], u.clients[g]);
  }

  lemma PublishTopicMirrored(env: Env, s: Server, name: string, v: NTValue, p: Properties, publisher: Maybe<(Guid, int)>,
                             noSub: Maybe<Guid>, noPub: Maybe<Guid>)
    requires Mirrored(env.enc, s, noSub, noPub) && !IsMeta(name)
    ensures var t := PublishTopic(env, s, name, v, p, publisher);
            Mirrored(env.enc, t, noSub, noPub) && SameClients(s, t) && forall n :: n in s.topics ==> n in t.topics
  {
    hide Introduce, SetMeta, Mirrored, SameClients, IsMeta, Mirroring, TopicSub, TopicPub, ListOfMeta;
    MetaNames(name);
    WhichMirror(name);
    WhichLists(name);
    var s1 := Introduce(s, name, v, p, publisher);
    IntroduceMirrored(env.enc, s, name, v, p, publisher, noSub, noPub);
    var s2 := IntroduceMeta(s1, TopicSub(name));
    IntroduceMirrored(env.enc, s1, TopicSub(name), BinV(MsgpackBin, []), META_PROPERTIES, Nothing, noSub, noPub);
    SameClientsTwice(s, s1, s2);
    var s3 := IntroduceMeta(s2, TopicPub(name));
    IntroduceMirrored(env.enc, s2, TopicPub(name), BinV(MsgpackBin, []), META_PROPERTIES, Nothing, noSub, noPub);
    SameClientsTwice(s, s2, s3);
    var s4 := UpdateTopicSub(env, s3, name);
    OtherMeta(env.enc, env, s3, TopicSub(name), env.enc.topicSubscriptions(Interests(s3.clients, name)), noSub, noPub);
    SameClientsTwice(s, s3, s4);
    OtherMeta(env.enc, env, s4, TopicPub(name), env.enc.topicPublishers(Supplies(s4.clients, name)), noSub, noPub);
    SameClientsTwice(s, s4, UpdateTopicPub(env, s4, name));
  }

  lemma {:induction false} UpdateCoveredMirrored(env: Env, s: Server, sub: Subscription, order: seq<string>)
    requires Mirrored(env.enc, s, Nothing, Nothing)
    ensures Mirrored(env.enc, UpdateCovered(env, s, sub, order), Nothing, Nothing)
  {
    hide Mirrored, SetMeta, SameClients, Covers, IsMeta, TopicSub, Mirroring;
    if order == [] {
    } else {
      var init, n := order[..|order| - 1], order[|order| - 1];
      UpdateCoveredMirrored(env, s, sub, init);
      var s1 := UpdateCovered(env, s, sub, init);
      MetaNames(n);
      WhichMirror(n);
      OtherMeta(env.enc, env, s1, TopicSub(n), env.enc.topicSubscriptions(Interests(s1.clients, n)), Nothing, Nothing);
    }
  }

  lemma MirroredSame(enc: Encoders, s: Server, t: Server)
    requires Mirrored(enc, s, Nothing, Nothing) && SameRest(s, t) && t.topics == s.topics
    ensures Mirrored(enc, t, Nothing, Nothing)
  {
    hide SameClients, Mirroring, IsMeta;
    MirroredStays(enc, s, t, Nothing, Nothing);
  }

  lemma MirroredClient(enc: Encoders, s: Server, g: Guid)
    requires Mirrored(enc, s, Nothing, Nothing) && g in s.clients
    ensures ClientSub(s.clients[g].name) in s.topics && ClientPub(s.clients[g].name) in s.topics
    ensures Plain(s.clients[g].publishers)
  {
    assert MirrorsSub(enc, s.clients[g], s.topics) && MirrorsPub(enc, s.clients[g], s.topics);
  }

  lemma NewSubscriptionsMirrored(enc: Encoders, s: Server, g: Guid, subs: map<int, Subscription>)
    requires Mirrored(enc, s, Nothing, Nothing) && g in s.clients
    ensures Mirrored(enc, WithSubscriptions(s, g, subs), Just(g), Nothing)
  {
    hide IsMeta, ClientSub, ClientPub, MetaTyped, Plain, Holds;
    var t := WithSubscriptions(s, g, subs);
    forall h | h in t.clients
      ensures Just(g) != Just(h) ==> MirrorsSub(enc, t.clients[h], t.topics)
      ensures MirrorsPub(enc, t.clients[h], t.topics)
    {
      assert MirrorsSub(enc, s.clients[h], s.topics) && MirrorsPub(enc, s.clients[h], s.topics);
    }
  }

  lemma NewPublishersMirrored(enc: Encoders, s: Server, g: Guid, pubs: map<int, Publisher>)
    requires Mirrored(enc, s, Nothing, Nothing) && g in s.clients && Plain(pubs)
    ensures Mirrored(enc, WithPublishers(s, g, pubs), Nothing, Just(g))
  {
    hide IsMeta, ClientSub, ClientPub, MetaTyped, Plain, Holds;
    var t := WithPublishers(s, g, pubs);
    forall h | h in t.clients
      ensures Just(g) != Just(h) ==> MirrorsPub(enc, t.clients[h], t.topics)
      ensures MirrorsSub(enc, t.clients[h], t.topics)
    {
      assert MirrorsSub(enc, s.clients[h], s.topics) && MirrorsPub(enc, s.clients[h], s.topics);
    }
  }

  lemma ArrivalMirrored(enc: Encoders, s: Server, g: Guid, name: string)
    requires Mirrored(enc, s, Nothing, Nothing) && !InUse(s.clients, name)
    ensures Mirrored(enc, WithClient(s, g, NewClient(name)), Just(g), Just(g))
  {
    hide IsMeta, ClientSub, ClientPub, MetaTyped;
    var t := WithClient(s, g, NewClient(name));
    forall h | h in t.clients
      ensures Just(g) != Just(h) ==> MirrorsPub(enc, t.clients[h], t.topics)
      ensures Just(g) != Just(h) ==> MirrorsSub(enc, t.clients[h], t.topics)
      ensures Plain(t.clients[h].publishers)
    {
      if h != g {
        assert MirrorsSub(enc, s.clients[h], s.topics) && MirrorsPub(enc, s.clients[h], s.topics);
      }
    }
  }

  lemma ConnectMirrored(env: Env, s: Server, g: Guid, requested: string)
    requires Mirrored(env.enc, s, Nothing, Nothing) && Grantable(s.clients, requested)
    ensures Mirrored(env.enc, Connect(env, s, g, requested), Nothing, Nothing)
  {
    hide Introduce, SetMeta, Mirrored, IsMeta, Mirroring, ClientSub, ClientPub, NameFor, Grantable, InUse, SameClient,
         UpdateClientSub, UpdateClientPub, FlushTextOf, FlushBinaryOf, InitialValues;
    var name := NameFor(s.clients, requested);
    NameIsNewIff(s.clients, requested);
    MetaNames(name);
    WhichMirror(name);
    var s1 := WithClient(s, g, NewClient(name));
    ArrivalMirrored(env.enc, s, g, name);
    var s2 := IntroduceMeta(s1, ClientSub(name));
    IntroduceMirrored(env.enc, s1, ClientSub(name), BinV(MsgpackBin, []), META_PROPERTIES, Nothing, Just(g), Just(g));
    var s3 := IntroduceMeta(s2, ClientPub(name));
    IntroduceMirrored(env.enc, s2, ClientPub(name), BinV(MsgpackBin, []), META_PROPERTIES, Nothing, Just(g), Just(g));
    var s4 := UpdateClients(env, s3);
    assert IsMeta(CLIENTS) by { ClientsIsMeta(); }
    OtherMeta(env.enc, env, s3, CLIENTS, env.enc.roster(Names(s3.clients)), Just(g), Just(g));
    assert g in s4.clients && s4.clients[g].name == name by { SameName(s1, s2, s3, s4, g); }
    RefreshSub(env, s4, g, Just(g));
    var s5 := UpdateClientSub(env, s4, g);
    assert g in s5.clients && s5.clients[g].name == name by { SameName(s4, s5, s5, s5, g); }
    RefreshPub(env, s5, g, Nothing);
    MirroredFinish(env, UpdateClientPub(env, s5, g), g);
  }

  lemma ClientsIsMeta()
    ensures IsMeta(CLIENTS) && IsMeta(SERVER_SUB) && IsMeta(SERVER_PUB)
  {
  }

  lemma SameName(s1: Server, s2: Server, s3: Server, s4: Server, g: Guid)
    requires SameClients(s1, s2) && (s3 == s2 || SameClients(s2, s3)) && (s4 == s3 || SameClients(s3, s4)) && g in s1.clients
    ensures g in s4.clients && s4.clients[g].name == s1.clients[g].name
  {
  }

  lemma MirroredFinish(env: Env, s: Server, g: Guid)
    requires Mirrored(env.enc, s, Nothing, Nothing)
    ensures Mirrored(env.enc, FlushBinaryOf(InitialValues(env, FlushTextOf(s, g), g), g), Nothing, Nothing)
  {
    hide Mirrored, SameRest, FlushTextOf, FlushBinaryOf, InitialValues;
    var s1 := FlushTextOf(s, g);
    OneClientShape(env, s, g);
    MirroredSame(env.enc, s, s1);
    var s2 := InitialValues(env, s1, g);
    OneClientShape(env, s1, g);
    MirroredSame(env.enc, s1, s2);
    OneClientShape(env, s2, g);
    MirroredSame(env.enc, s2, FlushBinaryOf(s2, g));
  }

  lemma FlushMirrored(enc: Encoders, s: Server)
    requires Mirrored(enc, s, Nothing, Nothing)
    ensures Mirrored(enc, FlushTextAll(s), Nothing, Nothing) && Mirrored(enc, FlushBinaryAll(s), Nothing, Nothing)
  {
    hide Mirrored, SameRest, FlushTextAll, FlushBinaryAll;
    FlushShape(s);
    MirroredSame(enc, s, FlushTextAll(s));
    MirroredSame(enc, s, FlushBinaryAll(s));
  }

  lemma DisconnectMirrored(env: Env, s: Server, g: Guid)
    requires Mirrored(env.enc, s, Nothing, Nothing)
    ensures Mirrored(env.enc, Disconnect(env, s, g), Nothing, Nothing)
  {
    hide SetMeta, FlushBinaryAll, IsMeta, MirrorsSub, MirrorsPub, MetaTyped, Plain, Mirroring, SameClients;
    if g in s.clients {
      var s1 := s.(clients := s.clients - {g});
      assert Mirrored(env.enc, s1, Nothing, Nothing);
      ClientsIsMeta();
      WhichMirror("");
      OtherMeta(env.enc, env, s1, CLIENTS, env.enc.roster(Names(s1.clients)), Nothing, Nothing);
      FlushMirrored(env.enc, UpdateClients(env, s1));
    }
  }

  lemma SubscriptionsMirrored(env: Env, s: Server, g: Guid, subs: map<int, Subscription>)
    requires Mirrored(env.enc, s, Nothing, Nothing) && g in s.clients
    ensures Mirrored(env.enc, UpdateClientSub(env, WithSubscriptions(s, g, subs), g), Nothing, Nothing)
  {
    hide Mirrored, UpdateClientSub, SameClients, ClientSub, ClientPub, Plain;
    MirroredClient(env.enc, s, g);
    NewSubscriptionsMirrored(env.enc, s, g, subs);
    RefreshSub(env, WithSubscriptions(s, g, subs), g, Nothing);
  }

  lemma SubscribeMirrored(env: Env, s: Server, g: Guid, sub: Subscription)
    requires Mirrored(env.enc, s, Nothing, Nothing)
    ensures Mirrored(env.enc, Subscribe(env, s, g, sub), Nothing, Nothing)
  {
    hide Mirrored, UpdateClientSub, UpdateCovered, AnnounceCachedTo, WithSubscriptions, SameRest;
    if g in s.clients {
      var subs := s.clients[g].subscriptions[sub.uid := sub];
      SubscriptionsMirrored(env, s, g, subs);
      var s2 := UpdateClientSub(env, WithSubscriptions(s, g, subs), g);
      UpdateCoveredMirrored(env, s2, sub, env.order);
      var s3 := UpdateCovered(env, s2, sub, env.order);
      OneClientShape(env, s3, g);
      MirroredSame(env.enc, s3, AnnounceCachedTo(env, s3, g));
    }
  }

  lemma UnsubscribeMirrored(env: Env, s: Server, g: Guid, subuid: int)
    requires Mirrored(env.enc, s, Nothing, Nothing)
    ensures Mirrored(env.enc, Unsubscribe(env, s, g, subuid), Nothing, Nothing)
  {
    hide Mirrored, UpdateClientSub, UpdateCovered, WithSubscriptions;
    if g in s.clients && subuid in s.clients[g].subscriptions {
      var subs := s.clients[g].subscriptions - {subuid};
      SubscriptionsMirrored(env, s, g, subs);
      UpdateCoveredMirrored(env, UpdateClientSub(env, WithSubscriptions(s, g, subs), g), s.clients[g].subscriptions[subuid], env.order);
    }
  }

  lemma PublishMirrored(env: Env, s: Server, g: Guid, pubuid: int, name: string, typeName: string, p: Properties)
    requires Mirrored(env.enc, s, Nothing, Nothing) && (g in s.clients ==> !IsMeta(name))
    ensures Mirrored(env.enc, Publish(env, s, g, pubuid, name, typeName, p), Nothing, Nothing)
  {
    hide Mirrored, PublishTopic, UpdateClientPub, SetMeta, AnnounceTopic, IsMeta, SameClient, TopicPub, Default, ParseTypeName,
         ClientSub, ClientPub, Mirroring;
    if g in s.clients {
      var pubs := s.clients[g].publishers[pubuid := Publisher(pubuid, name)];
      MirroredClient(env.enc, s, g);
      NewPublishersMirrored(env.enc, s, g, pubs);
      var s1 := WithPublishers(s, g, pubs);
      var s2 := if name !in s1.topics
                then PublishTopic(env, s1, name, Default(ParseTypeName(typeName)), p, Just((g, pubuid)))
                else WithClient(s1, g, AnnounceTopic(s1.clients[g], s1.topics[name], Just(pubuid)));
      if name !in s1.topics {
        PublishTopicMirrored(env, s1, name, Default(ParseTypeName(typeName)), p, Just((g, pubuid)), Nothing, Just(g));
      } else {
        OperationsKeep(s1.clients[g], s1.topics[name], Just(pubuid), 0, false);
        PutBack(s1, g, AnnounceTopic(s1.clients[g], s1.topics[name], Just(pubuid)));
        MirroredAnnounced(env.enc, s1, s2, g);
      }
      SameName(s1, s2, s2, s2, g);
      RefreshPub(env, s2, g, Nothing);
      var s3 := UpdateClientPub(env, s2, g);
      MetaNames(name);
      WhichMirror(name);
      OtherMeta(env.enc, env, s3, TopicPub(name), env.enc.topicPublishers(Supplies(s3.clients, name)), Nothing, Nothing);
    }
  }

  lemma KeysStay(env: Env, s: Server, name: string, content: seq<byte>)
    ensures SetMeta(env, s, name, content).topics.Keys == s.topics.Keys
    ensures name !in s.topics ==> SetMeta(env, s, name, content).failed
  {
    hide FanOut, WithBin;
  }

  /** There is no list of publishers to refresh. */
  lemma MetaPublishFails(env: Env, s: Server, g: Guid, pubuid: int, name: string, typeName: string, p: Properties)
    requires MetaTyped(s.topics) && g in s.clients && IsMeta(name)
    ensures Publish(env, s, g, pubuid, name, typeName, p).failed
  {
    hide SetMeta, Introduce, AnnounceTopic, TopicPub, ClientPub, Default, ParseTypeName, ListOfMeta, IsMeta;
    WhichLists(name);
    MetaNames(name);
    var pubs := s.clients[g].publishers[pubuid := Publisher(pubuid, name)];
    var s1 := WithPublishers(s, g, pubs);
    var v := Default(ParseTypeName(typeName));
    var s2 := if name !in s1.topics then PublishTopic(env, s1, name, v, p, Just((g, pubuid)))
              else WithClient(s1, g, AnnounceTopic(s1.clients[g], s1.topics[name], Just(pubuid)));
    IntroduceShape(s1, name, v, p, Just((g, pubuid)));
    if g in s2.clients {
      KeysStay(env, s2, ClientPub(s2.clients[g].name), env.enc.publishers(s2.clients[g].publishers));
    }
    var s3 := UpdateClientPub(env, s2, g);
    KeysStay(env, s3, TopicPub(name), env.enc.topicPublishers(Supplies(s3.clients, name)));
  }

  lemma MirroredAnnounced(enc: Encoders, s: Server, t: Server, g: Guid)
    requires Mirrored(enc, s, Nothing, Just(g)) && SameRest(s, t) && t.topics == s.topics
    ensures Mirrored(enc, t, Nothing, Just(g))
  {
    hide SameClients, Mirroring, IsMeta;
    MirroredStays(enc, s, t, Nothing, Just(g));
  }

  lemma UnpublishMirrored(env: Env, s: Server, g: Guid, pubuid: int)
    requires Mirrored(env.enc, s, Nothing, Nothing)
    ensures Mirrored(env.enc, Unpublish(env, s, g, pubuid), Nothing, Nothing)
  {
    hide Mirrored, UpdateClientPub, SetMeta, IsMeta, SameClients, TopicPub, ClientSub, ClientPub, Mirroring;
    if g in s.clients && pubuid in s.clients[g].publishers {
      var name := s.clients[g].publishers[pubuid].topic;
      var pubs := s.clients[g].publishers - {pubuid};
      MirroredClient(env.enc, s, g);
      NewPublishersMirrored(env.enc, s, g, pubs);
      var s1 := WithPublishers(s, g, pubs);
      RefreshPub(env, s1, g, Nothing);
      var s2 := UpdateClientPub(env, s1, g);
      MetaNames(name);
      WhichMirror(name);
      OtherMeta(env.enc, env, s2, TopicPub(name), env.enc.topicPublishers(Supplies(s2.clients, name)), Nothing, Nothing);
    }
  }

  /** A value for an ordinary topic. */
  lemma AssignMirrored(enc: Encoders, s: Server, name: string, v: NTValue, time: nat)
    requires Mirrored(enc, s, Nothing, Nothing) && !IsMeta(name)
    ensures Mirrored(enc, AssignTopic(s, name, v, time), Nothing, Nothing)
  {
    hide FanOutAll, Assign, IsMeta, Mirroring, SameClients;
    if name in s.topics && Valid(v) {
      var w := Assign(s.topics[name].value, v);
      var t := WithValue(s, name, w);
      WithValueShape(s, name, w);
      WhichMirror(name);
      MirroredStays(enc, s, t, Nothing, Nothing);
      FanOutAllShape(t, name, time);
      MirroredSame(enc, t, FanOutAll(t, name, time));
    }
  }

  lemma WithPropertiesShape(enc: Encoders, s: Server, name: string, p: Properties)
    requires Mirrored(enc, s, Nothing, Nothing) && name in s.topics
    ensures KeepsMirrors(s, WithProperties(s, name, p))
  {
    hide IsMeta, Mirroring, Distinct, MirrorsSub, MirrorsPub;
  }

  lemma PropertiesMirrored(enc: Encoders, s: Server, name: string, p: Properties, updater: Maybe<Guid>)
    requires Mirrored(enc, s, Nothing, Nothing) && name in s.topics
    ensures Mirrored(enc, NotifyAll(WithProperties(s, name, p), name, updater), Nothing, Nothing)
  {
    hide NotifyAll, IsMeta, Mirroring, Mirrored;
    var t := WithProperties(s, name, p);
    WithPropertiesShape(enc, s, name, p);
    MirroredStays(enc, s, t, Nothing, Nothing);
    NotifyAllShape(t, name, updater);
    MirroredSame(enc, t, NotifyAll(t, name, updater));
  }

  lemma ValueMirrored(env: Env, s: Server, g: Guid, id: int, v: NTValue)
    requires Mirrored(env.enc, s, Nothing, Nothing)
    ensures Mirrored(env.enc, Value(env, s, g, id, v), Nothing, Nothing)
  {
    hide Mirrored, AssignTopic, FlushBinaryAll, ToInt32, ClientSub, ClientPub;
    FlushMirrored(env.enc, s);
    if id != -1 && g in s.clients && ToInt32(id) in s.clients[g].publishers {
      var name := s.clients[g].publishers[ToInt32(id)].topic;
      MirroredClient(env.enc, s, g);
      AssignMirrored(env.enc, s, name, v, env.now);
      FlushMirrored(env.enc, AssignTopic(s, name, v, env.now));
    }
  }

  lemma EndOfTextMirrored(env: Env, s: Server, g: Guid)
    requires Mirrored(env.enc, s, Nothing, Nothing)
    ensures Mirrored(env.enc, EndOfText(env, s, g), Nothing, Nothing)
  {
    hide Mirrored, FlushTextAll, FlushBinaryAll, InitialValues, SameRest;
    var s1 := FlushTextAll(s);
    FlushMirrored(env.enc, s);
    OneClientShape(env, s1, g);
    MirroredSame(env.enc, s1, InitialValues(env, s1, g));
    FlushMirrored(env.enc, InitialValues(env, s1, g));
  }

  lemma OwnPlain(enc: Encoders, s: Server)
    requires Mirrored(enc, s, Nothing, Nothing)
    ensures Plain(s.ownPublishers)
  {
  }

  /** The steps do not look at the server's own maps. */
  lemma OwnDoesNotMatter(env: Env, s: Server, pubs: map<int, Publisher>, name: string, content: seq<byte>, v: NTValue, p: Properties)
    ensures SetMeta(env, s.(ownPublishers := pubs), name, content) == SetMeta(env, s, name, content).(ownPublishers := pubs)
    ensures Introduce(s.(ownPublishers := pubs), name, v, p, Nothing) == Introduce(s, name, v, p, Nothing).(ownPublishers := pubs)
  {
    hide FanOut, AnnounceOne;
  }

  lemma PublishWithOwn(env: Env, s: Server, pubs: map<int, Publisher>, name: string, v: NTValue, p: Properties)
    ensures PublishTopic(env, s.(ownPublishers := pubs), name, v, p, Nothing)
            == PublishTopic(env, s, name, v, p, Nothing).(ownPublishers := pubs)
  {
    hide Introduce, SetMeta, IsMeta;
    OwnDoesNotMatter(env, s, pubs, name, [], v, p);
    var s1 := Introduce(s, name, v, p, Nothing);
    var meta := BinV(MsgpackBin, []);
    OwnDoesNotMatter(env, s1, pubs, TopicSub(name), [], meta, META_PROPERTIES);
    var s2 := IntroduceMeta(s1, TopicSub(name));
    OwnDoesNotMatter(env, s2, pubs, TopicPub(name), [], meta, META_PROPERTIES);
    var s3 := IntroduceMeta(s2, TopicPub(name));
    OwnDoesNotMatter(env, s3, pubs, TopicSub(name), env.enc.topicSubscriptions(Interests(s3.clients, name)), meta, p);
    var s4 := UpdateTopicSub(env, s3, name);
    OwnDoesNotMatter(env, s4, pubs, TopicPub(name), env.enc.topicPublishers(Supplies(s4.clients, name)), meta, p);
  }

  /** Refreshing one of the server's own topics after its map has changed. */
  lemma RefreshOwn(env: Env, s: Server, t: Server, name: string, content: seq<byte>)
    requires Mirrored(env.enc, s, Nothing, Nothing)
    requires t.topics == s.topics && t.clients == s.clients && Plain(t.ownPublishers)
    requires (name == SERVER_SUB && content == env.enc.subscriptions(t.ownSubscriptions) && t.ownPublishers == s.ownPublishers) ||
             (name == SERVER_PUB && content == env.enc.publishers(t.ownPublishers) && t.ownSubscriptions == s.ownSubscriptions)
    ensures Mirrored(env.enc, SetMeta(env, t, name, content), Nothing, Nothing)
  {
    hide SetMeta, IsMeta, ClientSub, ClientPub, MetaTyped, Plain, Distinct;
    ClientsIsMeta();
    OwnMirrors("", "");
    SetMetaEither(env, t, name, content);
    var u := SetMeta(env, t, name, content);
    DistinctStays(t, u);
    forall h | h in u.clients
      ensures Plain(u.clients[h].publishers) && MirrorsSub(env.enc, u.clients[h], u.topics) && MirrorsPub(env.enc, u.clients[h], u.topics)
    {
      assert SameClient(t.clients[h], u.clients[h]);
      assert MirrorsSub(env.enc, s.clients[h], s.topics) && MirrorsPub(env.enc, s.clients[h], s.topics);
      OwnMirrors(s.clients[h].name, "");
    }
  }

  lemma LocalMirrored(env: Env, s: Server, e: Event)
    requires Mirrored(env.enc, s, Nothing, Nothing)
    requires e.LocalSubscribeEvent? || e.LocalUnsubscribeEvent? || e.LocalUnpublishEvent?
    ensures Mirrored(env.enc, Next(env, s, e), Nothing, Nothing)
  {
    hide Mirrored, SetMeta, IsMeta, Connect;
    OwnPlain(env.enc, s);
    match e {
      case LocalSubscribeEvent(sub) =>
        var s1 := s.(ownSubscriptions := s.ownSubscriptions[sub.uid := sub]);
        RefreshOwn(env, s, s1, SERVER_SUB, env.enc.subscriptions(s1.ownSubscriptions));
      case LocalUnsubscribeEvent(subuid) =>
        var s1 := s.(ownSubscriptions := s.ownSubscriptions - {subuid});
        RefreshOwn(env, s, s1, SERVER_SUB, env.enc.subscriptions(s1.ownSubscriptions));
      case LocalUnpublishEvent(pubuid) =>
        var s1 := s.(ownPublishers := s.ownPublishers - {pubuid});
        RefreshOwn(env, s, s1, SERVER_PUB, env.enc.publishers(s1.ownPublishers));
    }
  }

  lemma LocalPublishMirrored(env: Env, s: Server, pubuid: int, name: string, t: NTType, p: Properties)
    requires Mirrored(env.enc, s, Nothing, Nothing) && !IsMeta(name)
    ensures Mirrored(env.enc, LocalPublish(env, s, pubuid, name, t, p), Nothing, Nothing)
  {
    hide Mirrored, SetMeta, PublishTopic, IsMeta, Default, SameClients;
    OwnPlain(env.enc, s);
    var pubs := s.ownPublishers[pubuid := Publisher(pubuid, name)];
    var s1 := s.(ownPublishers := pubs);
    if name in s.topics {
      RefreshOwn(env, s, s1, SERVER_PUB, env.enc.publishers(pubs));
    } else {
      var r := PublishTopic(env, s, name, Default(t), p, Nothing);
      PublishTopicMirrored(env, s, name, Default(t), p, Nothing, Nothing, Nothing);
      PublishWithOwn(env, s, pubs, name, Default(t), p);
      PublishKeepsOwn(env, s, name, Default(t), p);
      RefreshOwn(env, r, r.(ownPublishers := pubs), SERVER_PUB, env.enc.publishers(pubs));
    }
  }

  lemma StepsKeepOwn(env: Env, s: Server, name: string, content: seq<byte>, v: NTValue, p: Properties)
    ensures var t := SetMeta(env, s, name, content); t.ownSubscriptions == s.ownSubscriptions && t.ownPublishers == s.ownPublishers
    ensures var t := Introduce(s, name, v, p, Nothing); t.ownSubscriptions == s.ownSubscriptions && t.ownPublishers == s.ownPublishers
  {
    hide FanOut, AnnounceOne;
  }

  lemma PublishKeepsOwn(env: Env, s: Server, name: string, v: NTValue, p: Properties)
    ensures var t := PublishTopic(env, s, name, v, p, Nothing);
            t.ownSubscriptions == s.ownSubscriptions && t.ownPublishers == s.ownPublishers
  {
    hide Introduce, SetMeta, IsMeta;
    StepsKeepOwn(env, s, name, [], v, p);
    var s1 := Introduce(s, name, v, p, Nothing);
    var meta := BinV(MsgpackBin, []);
    StepsKeepOwn(env, s1, TopicSub(name), [], meta, META_PROPERTIES);
    var s2 := IntroduceMeta(s1, TopicSub(name));
    StepsKeepOwn(env, s2, TopicPub(name), [], meta, META_PROPERTIES);
    var s3 := IntroduceMeta(s2, TopicPub(name));
    StepsKeepOwn(env, s3, TopicSub(name), env.enc.topicSubscriptions(Interests(s3.clients, name)), meta, p);
    var s4 := UpdateTopicSub(env, s3, name);
    StepsKeepOwn(env, s4, TopicPub(name), env.enc.topicPublishers(Supplies(s4.clients, name)), meta, p);
  }

  lemma MirroredStep(enc: Encoders, s: Server, i: Input)
    requires Mirrored(enc, s, Nothing, Nothing) && Regular(s, i.event) && !Step(Env(enc, i.now, i.order), s, i.event).failed
    ensures Mirrored(enc, Step(Env(enc, i.now, i.order), s, i.event), Nothing, Nothing)
  {
    hide Mirrored, Connect, Disconnect, Subscribe, Unsubscribe, Publish, Unpublish, EndOfText, Value, AssignTopic, NotifyAll,
         WithProperties, FlushBinaryAll, LocalSubscribe, LocalUnsubscribe, LocalPublish, LocalUnpublish, Grantable;
    var env := Env(enc, i.now, i.order);
    match i.event {
      case ConnectEvent(g, requested) => ConnectMirrored(env, s, g, requested);
      case DisconnectEvent(g) => DisconnectMirrored(env, s, g);
      case SubscribeEvent(g, sub) => SubscribeMirrored(env, s, g, sub);
      case UnsubscribeEvent(g, subuid) => UnsubscribeMirrored(env, s, g, subuid);
      case PublishEvent(g, pubuid, name, typeName, p) =>
        if g in s.clients && IsMeta(name) {
          ItsTyped(enc, s);
          MetaPublishFails(env, s, g, pubuid, name, typeName, p);
        } else {
          PublishMirrored(env, s, g, pubuid, name, typeName, p);
        }
      case UnpublishEvent(g, pubuid) => UnpublishMirrored(env, s, g, pubuid);
      case SetPropertiesEvent(g, name, p, r, c) =>
        if name in s.topics {
          var was := s.topics[name].properties;
          PropertiesMirrored(enc, s, name, Properties(Or(p, was.persistent), Or(r, was.retained), Or(c, was.cached)), Just(g));
        }
      case EndOfTextEvent(g) => EndOfTextMirrored(env, s, g);
      case ValueEvent(g, id, v) => ValueMirrored(env, s, g, id, v);
      case LocalSetPropertiesEvent(name, p) => if name in s.topics { PropertiesMirrored(enc, s, name, p, Nothing); }
      case LocalPublishEvent(pubuid, name, t, p) => LocalPublishMirrored(env, s, pubuid, name, t, p);
      case LocalUpdateEvent(pubuid, v, time) =>
        OwnPlain(enc, s);
        if pubuid in s.ownPublishers { AssignMirrored(enc, s, s.ownPublishers[pubuid].topic, v, time); }
      case FlushEvent => FlushMirrored(enc, s);
      case _ => LocalMirrored(env, s, i.event);
    }
  }

  ghost predicate RegularRun(enc: Encoders, inputs: seq<Input>) {
    inputs == [] ||
    (RegularRun(enc, inputs[..|inputs| - 1]) && Regular(Run(enc, inputs[..|inputs| - 1]), inputs[|inputs| - 1].event))
  }

  /** After every run that has not failed, in which names can be granted and the program itself publishes no
      meta-topic, every client has a name of its own, its two meta-topics hold its subscriptions and its publishers, and the two topics of the
      server hold the server's. */
  lemma {:induction false} RunClientsMirrored(enc: Encoders, inputs: seq<Input>)
    requires RegularRun(enc, inputs) && !Run(enc, inputs).failed
    ensures Mirrored(enc, Run(enc, inputs), Nothing, Nothing)
  {
    hide Step, Mirrored, Regular;
    if inputs == [] {
      StartMirrored(enc);
    } else {
      var i := inputs[|inputs| - 1];
      assert !Run(enc, inputs[..|inputs| - 1]).failed by {
        FailedForGood(Env(enc, i.now, i.order), Run(enc, inputs[..|inputs| - 1]), i.event);
      }
      RunClientsMirrored(enc, inputs[..|inputs| - 1]);
      MirroredStep(enc, Run(enc, inputs[..|inputs| - 1]), inputs[|inputs| - 1]);
    }
  }

  lemma ItsTyped(enc: Encoders, s: Server)
    requires Mirrored(enc, s, Nothing, Nothing)
    ensures MetaTyped(s.topics)
  {
  }

  lemma FailedForGood(env: Env, s: Server, e: Event)
    ensures s.failed ==> Step(env, s, e).failed
  {
  }

  lemma StartMirrored(enc: Encoders)
    ensures Mirrored(enc, Start(enc), Nothing, Nothing)
  {
  }
}
