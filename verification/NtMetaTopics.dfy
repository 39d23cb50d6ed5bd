/** The topics in which the server describes itself: they exist when they are needed, and they mirror the maps
    they are about; and the names of the clients that they carry. */
module NtMetaTopics {
  import opened Bytes
  import opened NtValues
  import opened Maybes
  import opened Decimals
  import opened NtClient
  import opened NtServer

  // ------------------------------------------------------------ client names

  lemma NumberInName(base: string, k: nat)
    requires '@' !in base
    ensures NumberIn(base + "@" + Digits(k), base) == Just(k)
  {
    var name := base + "@" + Digits(k);
    assert name[..|base|] == base && name[|base|] == '@';
    assert name[|base| + 1..] == Digits(k) + "";
    DecimalRoundTrip(k, "");
  }

  predicate InUse(clients: map<Guid, Client>, name: string) {
    exists g :: g in clients && clients[g].name == name
  }

  /** Whether a client that asks for this name gets one that nobody has. */
  predicate Grantable(clients: map<Guid, Client>, requested: string) {
    '@' !in requested || !InUse(clients, requested + "@1")
  }

  lemma NumbersInUse(clients: map<Guid, Client>, requested: string, k: nat)
    requires '@' !in requested && InUse(clients, requested + "@" + Digits(k))
    ensures k < NextClientWithName(clients, requested)
  {
    var g :| g in clients && clients[g].name == requested + "@" + Digits(k);
    NumberInName(requested, k);
    assert k in Numbers(clients, requested);
  }

  /** The name given to a new client is new exactly under this condition. */
  lemma NameIsNewIff(clients: map<Guid, Client>, requested: string)
    ensures !InUse(clients, NameFor(clients, requested)) <==> Grantable(clients, requested)
  {
    var n := NextClientWithName(clients, requested);
    if '@' in requested {
      assert Numbers(clients, requested) == {};
      assert Digits(1) == "1";
      assert requested + "@" + "1" == requested + "@1";
    } else if InUse(clients, NameFor(clients, requested)) {
      NumbersInUse(clients, requested, n);
    }
  }

  predicate Distinct(clients: map<Guid, Client>) {
    forall g, h :: g in clients && h in clients && g != h ==> clients[g].name != clients[h].name
  }

  // ------------------------------------------------------------ what the building blocks leave alone

  predicate SameClient(c: Client, d: Client) {
    d.name == c.name && d.subscriptions == c.subscriptions && d.publishers == c.publishers
  }

  predicate SameClients(s: Server, t: Server) {
    t.clients.Keys == s.clients.Keys && (forall g :: g in s.clients ==> SameClient(s.clients[g], t.clients[g]))
  }

  /** Everything else is the same, too. */
  predicate SameRest(s: Server, t: Server) {
    SameClients(s, t) && t.failed == s.failed && t.ownSubscriptions == s.ownSubscriptions && t.ownPublishers == s.ownPublishers
  }

  lemma SameTwice(s: Server, t: Server, u: Server)
    requires SameRest(s, t) && SameRest(t, u)
    ensures SameRest(s, u)
  {
    assert forall g :: g in s.clients ==> SameClient(s.clients[g], t.clients[g]) && SameClient(t.clients[g], u.clients[g]);
  }

  lemma OperationsKeep(c: Client, t: Topic, p: Maybe<int>, time: nat, ack: bool)
    ensures SameClient(c, AnnounceTopic(c, t, p))
    ensures SameClient(c, FanOut(c, t, time))
    ensures SameClient(c, Notify(c, t, ack))
    ensures SameClient(c, FlushText(c)) && SameClient(c, FlushBinary(c))
  {
    hide Render, IsSubscribed;
  }

  lemma {:induction false} LoopsKeep(c: Client, topics: map<string, Topic>, order: seq<string>, time: nat)
    ensures SameClient(c, AnnounceCached(c, topics, order))
    ensures SameClient(c, PublishInitial(c, topics, order, time))
  {
    hide AnnounceTopic, IsSubscribed;
    if order == [] {
    } else {
      var init, n := order[..|order| - 1], order[|order| - 1];
      LoopsKeep(c, topics, init, time);
      if n in topics {
        OperationsKeep(AnnounceCached(c, topics, init), topics[n], Nothing, time, false);
      }
    }
  }

  lemma FanOutAllShape(s: Server, name: string, time: nat)
    requires name in s.topics
    ensures var t := FanOutAll(s, name, time); SameRest(s, t) && t.topics == s.topics
  {
    hide FanOut;
    forall g | g in s.clients ensures SameClient(s.clients[g], FanOut(s.clients[g], s.topics[name], time)) {
      OperationsKeep(s.clients[g], s.topics[name], Nothing, time, false);
    }
  }

  lemma NotifyAllShape(s: Server, name: string, updater: Maybe<Guid>)
    requires name in s.topics
    ensures var t := NotifyAll(s, name, updater); SameRest(s, t) && t.topics == s.topics
  {
    hide Notify;
    forall g | g in s.clients ensures SameClient(s.clients[g], Notify(s.clients[g], s.topics[name], updater == Just(g))) {
      OperationsKeep(s.clients[g], s.topics[name], Nothing, 0, updater == Just(g));
    }
  }

  lemma FlushShape(s: Server)
    ensures SameRest(s, FlushTextAll(s)) && FlushTextAll(s).topics == s.topics
    ensures SameRest(s, FlushBinaryAll(s)) && FlushBinaryAll(s).topics == s.topics
  {
  }

  lemma PutBack(s: Server, g: Guid, d: Client)
    requires g in s.clients && SameClient(s.clients[g], d)
    ensures SameRest(s, WithClient(s, g, d)) && WithClient(s, g, d).topics == s.topics
  {
  }

  lemma NothingChanges(s: Server)
    ensures SameRest(s, s)
  {
  }

  lemma OneClientShape(env: Env, s: Server, g: Guid)
    ensures SameRest(s, FlushTextOf(s, g)) && FlushTextOf(s, g).topics == s.topics
    ensures SameRest(s, FlushBinaryOf(s, g)) && FlushBinaryOf(s, g).topics == s.topics
    ensures SameRest(s, InitialValues(env, s, g)) && InitialValues(env, s, g).topics == s.topics
    ensures SameRest(s, AnnounceCachedTo(env, s, g)) && AnnounceCachedTo(env, s, g).topics == s.topics
  {
    hide AnnounceCached, PublishInitial, SameRest, SameClient, WithClient, FlushText, FlushBinary;
    NothingChanges(s);
    if g in s.clients {
      var c := s.clients[g];
      LoopsKeep(c, s.topics, env.order, env.now);
      PutBack(s, g, AnnounceCached(c, s.topics, env.order));
      PutBack(s, g, PublishInitial(c, s.topics, env.order, env.now));
      FlushesKeepClient(c);
      PutBack(s, g, FlushText(c));
      PutBack(s, g, FlushBinary(c));
    }
  }

  lemma FlushesKeepClient(c: Client)
    ensures SameClient(c, FlushText(c)) && SameClient(c, FlushBinary(c))
  {
  }

  /** One topic changes, and nothing else that matters here. */
  lemma SetMetaShape(env: Env, s: Server, name: string, content: seq<byte>)
    requires name in s.topics
    ensures var t := SetMeta(env, s, name, content);
            SameRest(s, t) && t.topics == s.topics[name := s.topics[name].(value := WithBin(s.topics[name].value, content))]
  {
    hide FanOutAll, SameRest;
    var u := WithValue(s, name, WithBin(s.topics[name].value, content));
    FanOutAllShape(u, name, env.now);
    assert SameRest(s, u) by { WithValueShape(s, name, WithBin(s.topics[name].value, content)); }
    SameTwice(s, u, FanOutAll(u, name, env.now));
  }

  lemma WithValueShape(s: Server, name: string, v: NTValue)
    requires name in s.topics
    ensures SameRest(s, WithValue(s, name, v))
  {
  }

  lemma IntroduceShape(s: Server, name: string, value: NTValue, p: Properties, publisher: Maybe<(Guid, int)>)
    ensures var t := Introduce(s, name, value, p, publisher);
            SameRest(s, t) &&
            t.topics == if name in s.topics then s.topics else s.topics[name := Topic(name, value, p, p.cached)]
  {
    hide AnnounceOne, SameClient;
    var u := Create(s, name, value, p);
    forall g | g in u.clients ensures SameClient(s.clients[g], AnnounceOne(u.clients[g], u.topics[name], g, publisher)) {
      AnnounceOneKeepsClient(u.clients[g], u.topics[name], g, publisher);
    }
  }

  lemma AnnounceOneKeepsClient(c: Client, t: Topic, g: Guid, publisher: Maybe<(Guid, int)>)
    ensures SameClient(c, AnnounceOne(c, t, g, publisher))
  {
    hide AnnounceTopic, IsSubscribed;
    OperationsKeep(c, t, Nothing, 0, false);
    if publisher.Just? { OperationsKeep(c, t, Just(publisher.value.1), 0, false); }
  }

  // ------------------------------------------------------------ the topics that must exist

  /** Every meta-topic that a step may look up is there, except possibly the missing ones; clients publish
      only topics that exist and have a list of publishers. */
  predicate Rooted(s: Server, missing: set<string>) {
    CLIENTS in s.topics && SERVER_SUB in s.topics && SERVER_PUB in s.topics &&
    (forall g :: g in s.clients ==> ClientRooted(s.clients[g], s.topics, missing)) &&
    (forall n :: n in s.topics ==> TopicRooted(n, s.topics, missing))
  }

  predicate ClientRooted(c: Client, topics: map<string, Topic>, missing: set<string>) {
    (ClientSub(c.name) in topics || ClientSub(c.name) in missing) &&
    (ClientPub(c.name) in topics || ClientPub(c.name) in missing) &&
    PublishersRooted(c.publishers, topics, missing)
  }

  predicate PublishersRooted(pubs: map<int, Publisher>, topics: map<string, Topic>, missing: set<string>) {
    forall u :: u in pubs ==>
      (pubs[u].topic in topics || pubs[u].topic in missing) &&
      (TopicPub(pubs[u].topic) in topics || TopicPub(pubs[u].topic) in missing)
  }

  predicate TopicRooted(n: string, topics: map<string, Topic>, missing: set<string>) {
    !IsMeta(n) ==> (TopicSub(n) in topics || TopicSub(n) in missing) && (TopicPub(n) in topics || TopicPub(n) in missing)
  }

  lemma RootedStays(s: Server, t: Server, missing: set<string>)
    requires Rooted(s, missing) && SameClients(s, t) && t.topics.Keys == s.topics.Keys
    ensures Rooted(t, missing)
  {
    hide IsMeta, ClientSub, ClientPub, TopicSub, TopicPub;
    forall g | g in t.clients ensures ClientRooted(t.clients[g], t.topics, missing) {
      assert ClientRooted(s.clients[g], s.topics, missing) && SameClient(s.clients[g], t.clients[g]);
    }
    forall n | n in t.topics ensures TopicRooted(n, t.topics, missing) {
      assert TopicRooted(n, s.topics, missing);
    }
  }

  lemma RootedSetMeta(env: Env, s: Server, name: string, content: seq<byte>, missing: set<string>)
    requires Rooted(s, missing) && name in s.topics
    ensures var t := SetMeta(env, s, name, content);
            Rooted(t, missing) && SameRest(s, t) && t.topics.Keys == s.topics.Keys
  {
    hide SetMeta, Rooted, WithBin, SameClient;
    SetMetaShape(env, s, name, content);
    RootedStays(s, SetMeta(env, s, name, content), missing);
  }

  /** What a new topic supplies, and what it needs in turn. */
  lemma RootedIntroduce(s: Server, name: string, value: NTValue, p: Properties, publisher: Maybe<(Guid, int)>, missing: set<string>)
    requires Rooted(s, missing)
    ensures var t := Introduce(s, name, value, p, publisher);
            SameRest(s, t) && t.topics.Keys == s.topics.Keys + {name} &&
            Rooted(t, missing - {name} + (if IsMeta(name) then {} else {TopicSub(name), TopicPub(name)}))
  {
    hide Introduce, IsMeta, ClientSub, ClientPub, TopicSub, TopicPub;
    var t := Introduce(s, name, value, p, publisher);
    var now := missing - {name} + (if IsMeta(name) then {} else {TopicSub(name), TopicPub(name)});
    IntroduceShape(s, name, value, p, publisher);
    forall g | g in t.clients ensures ClientRooted(t.clients[g], t.topics, now) {
      assert ClientRooted(s.clients[g], s.topics, missing) && SameClient(s.clients[g], t.clients[g]);
    }
    forall n | n in t.topics ensures TopicRooted(n, t.topics, now) {
      if n in s.topics { assert TopicRooted(n, s.topics, missing); }
    }
  }

  lemma MetaNames(n: string)
    ensures IsMeta(TopicSub(n)) && IsMeta(TopicPub(n)) && IsMeta(ClientSub(n)) && IsMeta(ClientPub(n))
    ensures TopicSub(n) != TopicPub(n) && TopicSub(n) != n && TopicPub(n) != n && ClientSub(n) != ClientPub(n)
  {
    assert TopicSub(n)[1] == 's' && TopicPub(n)[1] == 'p';
    assert ClientSub(n)[7] == 's' && ClientPub(n)[7] == 'p';
  }

  lemma RootedPublishTopic(env: Env, s: Server, name: string, value: NTValue, p: Properties,
                           publisher: Maybe<(Guid, int)>)
    requires Rooted(s, {name, TopicPub(name)}) && !IsMeta(name) && !s.failed
    ensures var t := PublishTopic(env, s, name, value, p, publisher);
            Rooted(t, {}) && SameRest(s, t) && name in t.topics
  {
    hide Introduce, SetMeta, Rooted, SameClient, IsMeta, TopicSub, TopicPub;
    MetaNames(name);
    var sub, pub := TopicSub(name), TopicPub(name);
    var s1 := Introduce(s, name, value, p, publisher);
    RootedIntroduce(s, name, value, p, publisher, {name, pub});
    assert {name, pub} - {name} + {sub, pub} == {sub, pub};
    var s2 := IntroduceMeta(s1, sub);
    RootedIntroduce(s1, sub, BinV(MsgpackBin, []), META_PROPERTIES, Nothing, {sub, pub});
    assert {sub, pub} - {sub} + {} == {pub};
    var s3 := IntroduceMeta(s2, pub);
    RootedIntroduce(s2, pub, BinV(MsgpackBin, []), META_PROPERTIES, Nothing, {pub});
    assert {pub} - {pub} + {} == {};
    var s4 := UpdateTopicSub(env, s3, name);
    RootedSetMeta(env, s3, sub, env.enc.topicSubscriptions(Interests(s3.clients, name)), {});
    RootedSetMeta(env, s4, pub, env.enc.topicPublishers(Supplies(s4.clients, name)), {});
    SameFive(s, s1, s2, s3, s4, UpdateTopicPub(env, s4, name));
  }

  lemma SameFive(s: Server, s1: Server, s2: Server, s3: Server, s4: Server, s5: Server)
    requires SameRest(s, s1) && SameRest(s1, s2) && SameRest(s2, s3) && SameRest(s3, s4) && SameRest(s4, s5)
    ensures SameRest(s, s5)
  {
    hide SameRest;
    SameTwice(s, s1, s2);
    SameTwice(s, s2, s3);
    SameTwice(s, s3, s4);
    SameTwice(s, s4, s5);
  }
}
