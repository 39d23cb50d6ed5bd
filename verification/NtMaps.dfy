/** The subscriptions and publishers of every client, and those of the server itself, are what the messages and calls
    have made of them. */
module NtMaps {
  import opened Bytes
  import opened NtValues
  import opened Maybes
  import opened NtClient
  import opened NtServer
  import opened NtMetaTopics
  import opened NtClientRules

  datatype Maps = Maps(subscriptions: map<int, Subscription>, publishers: map<int, Publisher>)

  const NO_MAPS := Maps(map[], map[])

  /** What one event makes of the maps of client h. */
  function Remade(m: Maps, e: Event, h: Guid): Maps {
    match e
    case ConnectEvent(g, _) => if g == h then NO_MAPS else m
    case SubscribeEvent(g, sub) => if g == h then m.(subscriptions := m.subscriptions[sub.uid := sub]) else m
    case UnsubscribeEvent(g, u) => if g == h then m.(subscriptions := m.subscriptions - {u}) else m
    case PublishEvent(g, u, name, _, _) => if g == h then m.(publishers := m.publishers[u := Publisher(u, name)]) else m
    case UnpublishEvent(g, u) => if g == h then m.(publishers := m.publishers - {u}) else m
    case _ => m
  }

  /** What it makes of those of the server. */
  function OwnRemade(m: Maps, e: Event): Maps {
    match e
    case LocalSubscribeEvent(sub) => m.(subscriptions := m.subscriptions[sub.uid := sub])
    case LocalUnsubscribeEvent(u) => m.(subscriptions := m.subscriptions - {u})
    case LocalPublishEvent(u, name, _, _) => m.(publishers := m.publishers[u := Publisher(u, name)])
    case LocalUnpublishEvent(u) => m.(publishers := m.publishers - {u})
    case _ => m
  }

  function MapsMade(inputs: seq<Input>, h: Guid): Maps {
    if inputs == [] then NO_MAPS else Remade(MapsMade(inputs[..|inputs| - 1], h), inputs[|inputs| - 1].event, h)
  }

  function OwnMapsMade(inputs: seq<Input>): Maps {
    if inputs == [] then NO_MAPS else OwnRemade(OwnMapsMade(inputs[..|inputs| - 1]), inputs[|inputs| - 1].event)
  }

  predicate Has(c: Client, m: Maps) {
    c.subscriptions == m.subscriptions && c.publishers == m.publishers
  }

  function OwnMaps(s: Server): Maps {
    Maps(s.ownSubscriptions, s.ownPublishers)
  }

  // ------------------------------------------------------------ the maps of a client

  lemma QueueingKeepsMaps(m: Maps)
    ensures KeptByQueueing(c => Has(c, m), _ => true)
  {
    hide FanOut, AnnounceTopic, Notify, FlushText, FlushBinary, InitialOne;
    var t := Topic("", BoolV(false), META_PROPERTIES, true);
    forall c: Client, t: Topic, time: nat | Has(c, m) ensures Has(FanOut(c, t, time), m) { OperationsKeep(c, t, Nothing, time, true); }
    forall c: Client, t: Topic, u: Maybe<int> | Has(c, m) ensures Has(AnnounceTopic(c, t, u), m) { OperationsKeep(c, t, u, 0, true); }
    forall c: Client, t: Topic, ack: bool | Has(c, m) ensures Has(Notify(c, t, ack), m) { OperationsKeep(c, t, Nothing, 0, ack); }
    forall c: Client | Has(c, m) ensures Has(FlushText(c), m) && Has(FlushBinary(c), m) { OperationsKeep(c, t, Nothing, 0, true); }
    forall c: Client, topics: map<string, Topic>, n: string, time: nat | Has(c, m) ensures Has(InitialOne(c, topics, n, time), m) {
      InitialKeepsMaps(c, topics, n, time);
    }
  }

  lemma InitialKeepsMaps(c: Client, topics: map<string, Topic>, n: string, time: nat)
    ensures Has(InitialOne(c, topics, n, time), MapsOf(c))
  {
    hide IsSubscribed;
  }

  function MapsOf(c: Client): Maps {
    Maps(c.subscriptions, c.publishers)
  }

  lemma QueueingAddsNobody()
    ensures KeptByQueueing(_ => false, _ => true)
  {
  }

  lemma NobodyElse(env: Env, s: Server, e: Event, h: Guid)
    requires NamedTopics(s) && h in Next(env, s, e).clients
    ensures h in Remapped(s, e).clients
  {
    hide KeptByQueueing, Next, Remapped, NamedTopics;
    if h !in Remapped(s, e).clients {
      NamesStay(s, e);
      QueueingAddsNobody();
      NextHolds(env, s, e, h, _ => false, _ => true);
      assert false;
    }
  }

  lemma NamesStay(s: Server, e: Event)
    requires NamedTopics(s)
    ensures NamedTopics(Remapped(s, e))
  {
    hide NameFor;
  }

  lemma NextMaps(env: Env, s: Server, e: Event, h: Guid)
    requires NamedTopics(s) && h in Next(env, s, e).clients
    ensures h in Remapped(s, e).clients && Has(Next(env, s, e).clients[h], MapsOf(Remapped(s, e).clients[h]))
    ensures NamedTopics(Next(env, s, e))
  {
    hide KeptByQueueing, Next, Remapped, NamedTopics;
    NobodyElse(env, s, e, h);
    var m := MapsOf(Remapped(s, e).clients[h]);
    NamesStay(s, e);
    QueueingKeepsMaps(m);
    NextHolds(env, s, e, h, c => Has(c, m), _ => true);
  }

  lemma RemappedMaps(s: Server, e: Event, h: Guid)
    requires h in Remapped(s, e).clients
    ensures h in s.clients || (e.ConnectEvent? && e.g == h)
    ensures Has(Remapped(s, e).clients[h], Remade(if h in s.clients then MapsOf(s.clients[h]) else NO_MAPS, e, h))
  {
    hide NameFor;
    if e.ConnectEvent? {
      assert Has(NewClient(NameFor(s.clients, e.requested)), NO_MAPS);
    } else if e.UnsubscribeEvent? || e.UnpublishEvent? {
      Removed(s, e, h);
    } else if e.SubscribeEvent? || e.PublishEvent? {
      Added(s, e, h);
    }
  }

  lemma Removed(s: Server, e: Event, h: Guid)
    requires (e.UnsubscribeEvent? || e.UnpublishEvent?) && h in Remapped(s, e).clients
    ensures h in s.clients && Has(Remapped(s, e).clients[h], Remade(MapsOf(s.clients[h]), e, h))
  {
    hide NameFor;
    match e {
      case UnsubscribeEvent(g, u) =>
        if g == h && u !in s.clients[h].subscriptions { Absent(s.clients[h].subscriptions, u); }
      case UnpublishEvent(g, u) =>
        if g == h && u !in s.clients[h].publishers { Absent(s.clients[h].publishers, u); }
      case _ =>
    }
  }

  lemma Absent<T>(m: map<int, T>, u: int)
    requires u !in m
    ensures m - {u} == m
  {
  }

  lemma Added(s: Server, e: Event, h: Guid)
    requires (e.SubscribeEvent? || e.PublishEvent?) && h in Remapped(s, e).clients
    ensures h in s.clients && Has(Remapped(s, e).clients[h], Remade(MapsOf(s.clients[h]), e, h))
  {
    hide NameFor;
  }

  // ------------------------------------------------------------ the maps of the server

  /** What is done in steps keeps them. */
  lemma PartsKeepOwn(env: Env)
    ensures forall s, name, content {:trigger SetMeta(env, s, name, content)} :: OwnMaps(SetMeta(env, s, name, content)) == OwnMaps(s)
    ensures forall s, name, v, p, publisher {:trigger Introduce(s, name, v, p, publisher)} ::
              OwnMaps(Introduce(s, name, v, p, publisher)) == OwnMaps(s)
    ensures forall s, name, v, time {:trigger AssignTopic(s, name, v, time)} :: OwnMaps(AssignTopic(s, name, v, time)) == OwnMaps(s)
  {
    hide Assign, FanOut, WithBin, AnnounceOne;
  }

  lemma LoopsKeepOwn(env: Env, g: Guid)
    ensures forall s {:trigger InitialValues(env, s, g)} :: OwnMaps(InitialValues(env, s, g)) == OwnMaps(s)
    ensures forall s {:trigger AnnounceCachedTo(env, s, g)} :: OwnMaps(AnnounceCachedTo(env, s, g)) == OwnMaps(s)
    ensures forall s, sub {:trigger UpdateCovered(env, s, sub, env.order)} :: OwnMaps(UpdateCovered(env, s, sub, env.order)) == OwnMaps(s)
  {
    hide AnnounceCached, PublishInitial, UpdateCovered;
    forall s, sub ensures OwnMaps(UpdateCovered(env, s, sub, env.order)) == OwnMaps(s) { CoveredKeepsOwn(env, s, sub, env.order); }
  }

  lemma {:induction false} CoveredKeepsOwn(env: Env, s: Server, sub: Subscription, order: seq<string>)
    ensures OwnMaps(UpdateCovered(env, s, sub, order)) == OwnMaps(s)
  {
    hide SetMeta, Covers, IsMeta;
    if order != [] {
      CoveredKeepsOwn(env, s, sub, order[..|order| - 1]);
      PartsKeepOwn(env);
    }
  }

  lemma PublishTopicKeepsOwn(env: Env, s: Server, name: string, v: NTValue, p: Properties, publisher: Maybe<(Guid, int)>)
    ensures OwnMaps(PublishTopic(env, s, name, v, p, publisher)) == OwnMaps(s)
  {
    hide SetMeta, Introduce, IsMeta;
    PartsKeepOwn(env);
  }

  lemma ConnectKeepsOwn(env: Env, s: Server, g: Guid, requested: string)
    ensures OwnMaps(Connect(env, s, g, requested)) == OwnMaps(s)
  {
    hide SetMeta, Introduce, InitialValues, NameFor;
    PartsKeepOwn(env);
    LoopsKeepOwn(env, g);
  }

  lemma MapEventsKeepOwn(env: Env, s: Server, g: Guid, sub: Subscription, u: int)
    ensures OwnMaps(Subscribe(env, s, g, sub)) == OwnMaps(s)
    ensures OwnMaps(Unsubscribe(env, s, g, u)) == OwnMaps(s)
    ensures OwnMaps(Unpublish(env, s, g, u)) == OwnMaps(s)
  {
    hide SetMeta, UpdateCovered, AnnounceCachedTo;
    PartsKeepOwn(env);
    LoopsKeepOwn(env, g);
  }

  lemma OthersKeepOwn(env: Env, s: Server, g: Guid)
    ensures OwnMaps(Disconnect(env, s, g)) == OwnMaps(s)
    ensures OwnMaps(EndOfText(env, s, g)) == OwnMaps(s)
  {
    hide SetMeta, InitialValues;
    PartsKeepOwn(env);
    LoopsKeepOwn(env, g);
  }

  lemma PublishKeepsOwn(env: Env, s: Server, g: Guid, u: int, name: string, typeName: string, p: Properties)
    ensures OwnMaps(Publish(env, s, g, u, name, typeName, p)) == OwnMaps(s)
  {
    hide SetMeta, PublishTopic, AnnounceTopic, Default, ParseTypeName;
    PartsKeepOwn(env);
    if g in s.clients {
      var s1 := WithPublishers(s, g, s.clients[g].publishers[u := Publisher(u, name)]);
      PublishTopicKeepsOwn(env, s1, name, Default(ParseTypeName(typeName)), p, Just((g, u)));
    }
  }

  lemma OwnEvents(env: Env, s: Server, e: Event)
    requires e.LocalSubscribeEvent? || e.LocalUnsubscribeEvent? || e.LocalPublishEvent? || e.LocalUnpublishEvent?
    ensures OwnMaps(Next(env, s, e)) == OwnRemade(OwnMaps(s), e)
  {
    hide SetMeta, PublishTopic, Default;
    PartsKeepOwn(env);
    if e.LocalPublishEvent? {
      var s1 := s.(ownPublishers := s.ownPublishers[e.pubuid := Publisher(e.pubuid, e.name)]);
      PublishTopicKeepsOwn(env, s1, e.name, Default(e.t), e.properties, Nothing);
    }
  }

  lemma NextOwn(env: Env, s: Server, e: Event)
    ensures OwnMaps(Next(env, s, e)) == OwnRemade(OwnMaps(s), e)
  {
    hide Connect, Disconnect, Subscribe, Unsubscribe, Publish, Unpublish, EndOfText, AssignTopic, ToInt32, LocalSubscribe,
         LocalUnsubscribe, LocalPublish, LocalUnpublish;
    PartsKeepOwn(env);
    var none := Subscription(0, [], SubscriptionOptions(0, true, true, true));
    match e {
      case ConnectEvent(g, requested) => ConnectKeepsOwn(env, s, g, requested);
      case DisconnectEvent(g) => OthersKeepOwn(env, s, g);
      case SubscribeEvent(g, sub) => MapEventsKeepOwn(env, s, g, sub, 0);
      case UnsubscribeEvent(g, u) => MapEventsKeepOwn(env, s, g, none, u);
      case PublishEvent(g, u, name, typeName, p) => PublishKeepsOwn(env, s, g, u, name, typeName, p);
      case UnpublishEvent(g, u) => MapEventsKeepOwn(env, s, g, none, u);
      case EndOfTextEvent(g) => OthersKeepOwn(env, s, g);
      case LocalSubscribeEvent(_) => OwnEvents(env, s, e);
      case LocalUnsubscribeEvent(_) => OwnEvents(env, s, e);
      case LocalPublishEvent(_, _, _, _) => OwnEvents(env, s, e);
      case LocalUnpublishEvent(_) => OwnEvents(env, s, e);
      case _ =>
    }
  }

  /** In every run that has not failed: the maps of a connected client are what the messages since it connected have made
      of empty ones, and those of the server what the calls on it have. */
  lemma {:induction false} RunMaps(enc: Encoders, inputs: seq<Input>, h: Guid)
    requires !Run(enc, inputs).failed
    ensures var s := Run(enc, inputs);
            NamedTopics(s) && OwnMaps(s) == OwnMapsMade(inputs) && (h in s.clients ==> MapsOf(s.clients[h]) == MapsMade(inputs, h))
  {
    hide Next, Remapped, Remade, OwnRemade;
    if inputs != [] {
      var init, i := inputs[..|inputs| - 1], inputs[|inputs| - 1];
      var s, env := Run(enc, init), Env(enc, i.now, i.order);
      RunMaps(enc, init, h);
      NextOwn(env, s, i.event);
      NextNamed(env, s, i.event);
      if h in Next(env, s, i.event).clients {
        NextMaps(env, s, i.event, h);
        RemappedMaps(s, i.event, h);
        if h !in s.clients { Anew(MapsMade(init, h), i.event, h); Anew(NO_MAPS, i.event, h); }
      }
    }
  }

  lemma Anew(m: Maps, e: Event, h: Guid)
    requires e.ConnectEvent? && e.g == h
    ensures Remade(m, e, h) == NO_MAPS
  {
  }

  lemma AnythingGoes()
    ensures KeptByQueueing(_ => true, _ => true)
  {
  }

  lemma NextNamed(env: Env, s: Server, e: Event)
    requires NamedTopics(s)
    ensures NamedTopics(Next(env, s, e))
  {
    hide KeptByQueueing, Next, Remapped, NamedTopics;
    NamesStay(s, e);
    AnythingGoes();
    NextHolds(env, s, e, 0, _ => true, _ => true);
  }
}
