/** The server object: its handlers with their loops over clients and topics, each proved to take the step that
    the state machine takes. */
module NtInstance {
  import opened Bytes
  import opened NtValues
  import opened Maybes
  import opened Decimals
  import opened NtClient
  import opened NtSubscriptions
  import opened NtServer

  /** The order in which a hash table happens to be walked: each key once. */
  method WalkOrder<T>(keys: set<T>) returns (order: seq<T>)
    ensures multiset(order) == multiset(keys)
  {
    order := [];
    var left := keys;
    while left != {}
      invariant left <= keys && multiset(order) + multiset(left) == multiset(keys)
      decreases |left|
    {
      var k :| k in left;
      assert multiset(left) == multiset(left - {k}) + multiset{k};
      left := left - {k};
      order := order + [k];
    }
  }

  method AnyOf<T>(keys: set<T>) returns (k: T)
    requires keys != {}
    ensures k in keys
  {
    k :| k in keys;
  }

  method IsPrefix(top: string, name: string) returns (b: bool)
    ensures b == (top <= name)
  {
    b := |top| <= |name| && name[..|top|] == top;
  }

  method IsSubscribedBy(sub: Subscription, name: string) returns (b: bool)
    ensures b <==> exists k: nat :: ListsOne(sub, k, name)
    ensures b == Covers(sub, name)
  {
    CoversIff(sub, name);
    for i := 0 to |sub.topics|
      invariant forall j :: 0 <= j < i ==> !Matches(sub.topics[j], sub.options.prefix, name)
    {
      var top := sub.topics[i];
      if sub.options.prefix {
        var starts := IsPrefix(top, name);
        if IsMeta(name) {
          if IsMeta(top) && starts {
            assert Matches(top, sub.options.prefix, name);
            return true;
          }
        } else if |top| == 0 || starts {
          assert Matches(top, sub.options.prefix, name);
          return true;
        }
      } else if name == top {
        assert Matches(top, sub.options.prefix, name);
        return true;
      }
    }
    b := false;
  }

  predicate Serves(sub: Subscription, name: string, requireNotTopicsOnly: bool) {
    (!requireNotTopicsOnly || !sub.options.topicsonly) && Covers(sub, name)
  }

  method IsSubscribedAny(subs: map<int, Subscription>, name: string, requireNotTopicsOnly: bool) returns (b: bool)
    ensures b <==> Wants(subs, name, requireNotTopicsOnly)
    ensures b == IsSubscribed(subs, name, requireNotTopicsOnly)
  {
    hide Covers, Serves, Wants;
    SubscribedIff(subs, name, requireNotTopicsOnly);
    var left := subs.Keys;
    while left != {}
      invariant left <= subs.Keys
      invariant forall u :: u in subs.Keys - left ==> !Serves(subs[u], name, requireNotTopicsOnly)
      decreases |left|
    {
      var u := AnyOf(left);
      left := left - {u};
      var serves := IsServedBy(subs[u], name, requireNotTopicsOnly);
      if serves {
        SubscribedMeans(subs, name, requireNotTopicsOnly);
        return true;
      }
    }
    SubscribedMeans(subs, name, requireNotTopicsOnly);
    b := false;
  }

  method IsServedBy(sub: Subscription, name: string, requireNotTopicsOnly: bool) returns (b: bool)
    ensures b == Serves(sub, name, requireNotTopicsOnly)
  {
    hide Covers;
    b := false;
    if !requireNotTopicsOnly || !sub.options.topicsonly {
      b := IsSubscribedBy(sub, name);
    }
  }

  lemma SubscribedMeans(subs: map<int, Subscription>, name: string, requireNotTopicsOnly: bool)
    ensures IsSubscribed(subs, name, requireNotTopicsOnly) <==> exists u :: u in subs && Serves(subs[u], name, requireNotTopicsOnly)
  {
    hide Covers;
    if IsSubscribed(subs, name, requireNotTopicsOnly) {
      var u :| u in subs && (!requireNotTopicsOnly || !subs[u].options.topicsonly) && Covers(subs[u], name);
      assert Serves(subs[u], name, requireNotTopicsOnly);
    }
  }

  /** A walk over the clients: those still left are as before, the others have had f applied. */
  ghost predicate Walked(was: map<Guid, Client>, now: map<Guid, Client>, left: set<Guid>, f: (Guid, Client) -> Client) {
    left <= was.Keys && now.Keys == was.Keys &&
    (forall g :: g in left ==> now[g] == was[g]) &&
    (forall g :: g in was && g !in left ==> now[g] == f(g, was[g]))
  }

  lemma WalkOne(was: map<Guid, Client>, now: map<Guid, Client>, left: set<Guid>, f: (Guid, Client) -> Client, g: Guid)
    requires Walked(was, now, left, f) && g in left
    ensures g in now && now[g] == was[g] && Walked(was, now[g := f(g, was[g])], left - {g}, f)
  {
  }

  lemma WalkDone(was: map<Guid, Client>, now: map<Guid, Client>, f: (Guid, Client) -> Client)
    requires Walked(was, now, {}, f)
    ensures now == map g | g in was :: f(g, was[g])
  {
  }

  lemma WalkStart(was: map<Guid, Client>, f: (Guid, Client) -> Client)
    ensures Walked(was, was, was.Keys, f)
  {
  }

  /** The parts of the three loops below that are about one client. */
  method SendIfDue(client: Client, topic: Topic, time: nat) returns (c: Client)
    ensures c == FanOut(client, topic, time)
  {
    hide SendUpdate, IsSubscribed;
    c := client;
    if topic.name in c.topicData {
      var subscribed := IsSubscribedAny(c.subscriptions, topic.name, true);
      if c.topicData[topic.name].initialPublish || subscribed {
        c := SendUpdate(c, topic, time);
      }
    }
  }

  method AnnounceIfDue(client: Client, topic: Topic, g: Guid, publisher: Maybe<(Guid, int)>) returns (c: Client)
    ensures c == AnnounceOne(client, topic, g, publisher)
  {
    hide AnnounceTopic, IsSubscribed;
    c := client;
    if publisher.Just? && publisher.value.0 == g {
      c := AnnounceTopic(c, topic, Just(publisher.value.1));
    } else {
      var subscribed := IsSubscribedAny(c.subscriptions, topic.name, false);
      if subscribed {
        c := AnnounceTopic(c, topic, Nothing);
      }
    }
  }

  method NotifyIfDue(client: Client, topic: Topic, ack: bool) returns (c: Client)
    ensures c == Notify(client, topic, ack)
  {
    hide QueueText, IsSubscribed;
    c := client;
    var subscribed := IsSubscribedAny(c.subscriptions, topic.name, false);
    if subscribed {
      c := QueueText(c, PropertyUpdate(topic.name, ack, topic.properties));
    }
  }

  class NetworkTableInstance {
    const enc: Encoders
    var topics: map<string, Topic>
    var clients: map<Guid, Client>
    var ownSubscriptions: map<int, Subscription>
    var ownPublishers: map<int, Publisher>
    var failed: bool

    function State(): Server
      reads this
    {
      Server(topics, clients, ownSubscriptions, ownPublishers, failed)
    }

    /** startServer */
    constructor (enc: Encoders)
      ensures this.enc == enc && State() == Start(enc)
    {
      this.enc := enc;
      topics := Start(enc).topics;
      clients, ownSubscriptions, ownPublishers, failed := map[], map[], map[], false;
    }

    // ---------------------------------------------------------- loops over the clients

    method SendTopicUpdate(name: string, time: nat)
      requires name in topics
      modifies this`clients
      ensures State() == FanOutAll(old(State()), name, time)
    {
      hide FanOut, Walked;
      var left := clients.Keys;
      var topic := topics[name];
      ghost var was, f := clients, (g: Guid, c: Client) => FanOut(c, topic, time);
      WalkStart(was, f);
      while left != {}
        invariant Walked(was, clients, left, f)
        decreases |left|
      {
        var g :| g in left;
        WalkOne(was, clients, left, f, g);
        left := left - {g};
        var c := SendIfDue(clients[g], topic, time);
        clients := clients[g := c];
      }
      WalkDone(was, clients, f);
    }

    method AnnounceTopicAll(name: string, publisher: Maybe<(Guid, int)>)
      requires name in topics
      modifies this`clients
      ensures State() == AnnounceAll(old(State()), name, publisher)
    {
      hide AnnounceOne, Walked;
      var left := clients.Keys;
      var topic := topics[name];
      ghost var was, f := clients, (g: Guid, c: Client) => AnnounceOne(c, topic, g, publisher);
      WalkStart(was, f);
      while left != {}
        invariant Walked(was, clients, left, f)
        decreases |left|
      {
        var g :| g in left;
        WalkOne(was, clients, left, f, g);
        left := left - {g};
        var c := AnnounceIfDue(clients[g], topic, g, publisher);
        clients := clients[g := c];
      }
      WalkDone(was, clients, f);
    }

    method UpdateTopicProperties(name: string, updater: Maybe<Guid>)
      requires name in topics
      modifies this`clients
      ensures State() == NotifyAll(old(State()), name, updater)
    {
      hide Notify, Walked;
      var left := clients.Keys;
      var topic := topics[name];
      ghost var was, f := clients, (g: Guid, c: Client) => Notify(c, topic, updater == Just(g));
      WalkStart(was, f);
      while left != {}
        invariant Walked(was, clients, left, f)
        decreases |left|
      {
        var g :| g in left;
        WalkOne(was, clients, left, f, g);
        left := left - {g};
        var c := NotifyIfDue(clients[g], topic, updater == Just(g));
        clients := clients[g := c];
      }
      WalkDone(was, clients, f);
    }

    method FlushAllText()
      modifies this`clients
      ensures State() == FlushTextAll(old(State()))
    {
      hide FlushText, Walked;
      var left := clients.Keys;
      ghost var was, f := clients, (g: Guid, c: Client) => FlushText(c);
      WalkStart(was, f);
      while left != {}
        invariant Walked(was, clients, left, f)
        decreases |left|
      {
        var g :| g in left;
        WalkOne(was, clients, left, f, g);
        left := left - {g};
        clients := clients[g := FlushText(clients[g])];
      }
      WalkDone(was, clients, f);
    }

    method FlushAllBinary()
      modifies this`clients
      ensures State() == FlushBinaryAll(old(State()))
    {
      hide FlushBinary, Walked;
      var left := clients.Keys;
      ghost var was, f := clients, (g: Guid, c: Client) => FlushBinary(c);
      WalkStart(was, f);
      while left != {}
        invariant Walked(was, clients, left, f)
        decreases |left|
      {
        var g :| g in left;
        WalkOne(was, clients, left, f, g);
        left := left - {g};
        clients := clients[g := FlushBinary(clients[g])];
      }
      WalkDone(was, clients, f);
    }

    /** nextClientWithName: the greatest number in use for this name, plus one. */
    method NextNumber(name: string) returns (num: nat)
      ensures num == NextClientWithName(clients, name)
    {
      hide NumberIn;
      num := 1;
      var left := clients.Keys;
      while left != {}
        invariant left <= clients.Keys && num >= 1
        invariant forall g :: g in clients && g !in left && NumberIn(clients[g].name, name).Just? ==>
                    NumberIn(clients[g].name, name).value < num
        invariant num == 1 || num - 1 in Numbers(clients, name)
        decreases |left|
      {
        var g :| g in left;
        left := left - {g};
        var number := NumberIn(clients[g].name, name);
        if number.Just? && num < number.value + 1 {
          num := number.value + 1;
        }
      }
      LeastAbove(Numbers(clients, name), num);
    }

    // ---------------------------------------------------------- loops over the topics

    method AnnounceCachedTopics(g: Guid, order: seq<string>, ghost now: nat)
      modifies this`clients
      ensures State() == AnnounceCachedTo(Env(enc, now, order), old(State()), g)
    {
      hide AnnounceTopic, IsSubscribed;
      if g !in clients { return; }
      ghost var was := clients[g];
      var c := clients[g];
      for i := 0 to |order|
        invariant c == AnnounceCached(was, topics, order[..i]) && clients == old(clients)
      {
        assert order[..i + 1][..i] == order[..i];
        var name := order[i];
        if name in topics && topics[name].properties.cached {
          var subscribed := IsSubscribedAny(c.subscriptions, topics[name].name, false);
          if subscribed {
            c := AnnounceTopic(c, topics[name], Nothing);
          }
        }
      }
      assert order[..|order|] == order;
      clients := clients[g := c];
    }

    method PublishInitialValues(g: Guid, order: seq<string>, now: nat)
      modifies this`clients
      ensures State() == InitialValues(Env(enc, now, order), old(State()), g)
    {
      hide SendUpdate, IsSubscribed;
      if g !in clients { return; }
      ghost var was := clients[g];
      var c := clients[g];
      for i := 0 to |order|
        invariant c == PublishInitial(was, topics, order[..i], now) && clients == old(clients)
      {
        assert order[..i + 1][..i] == order[..i];
        var name := order[i];
        if name in c.topicData && name in topics && topics[name].name == name && !c.topicData[name].initialPublish {
          var subscribed := IsSubscribedAny(c.subscriptions, name, true);
          if subscribed {
            c := SendUpdate(c, topics[name], now);
          }
        }
      }
      assert order[..|order|] == order;
      clients := clients[g := c];
    }

    /** The common end of the update...MetaTopic methods. */
    method SetMetaTopic(name: string, content: seq<byte>, now: nat, ghost order: seq<string>)
      modifies this`topics, this`clients, this`failed
      ensures State() == SetMeta(Env(enc, now, order), old(State()), name, content)
    {
      hide FanOutAll;
      if name !in topics {
        failed := true;
        return;
      }
      topics := topics[name := topics[name].(value := WithBin(topics[name].value, content))];
      SendTopicUpdate(name, now);
    }

    method UpdateCoveredTopics(sub: Subscription, order: seq<string>, now: nat)
      modifies this`topics, this`clients, this`failed
      ensures State() == UpdateCovered(Env(enc, now, order), old(State()), sub, order)
    {
      hide SetMeta, Covers, IsMeta;
      ghost var env := Env(enc, now, order);
      ghost var start := State();
      for i := 0 to |order|
        invariant State() == UpdateCovered(env, start, sub, order[..i])
      {
        assert order[..i + 1][..i] == order[..i];
        if !IsMeta(order[i]) {
          var covered := IsSubscribedBy(sub, order[i]);
          if covered {
            SetMetaTopic(TopicSub(order[i]), enc.topicSubscriptions(Interests(clients, order[i])), now, order);
          }
        }
      }
      assert order[..|order|] == order;
    }

    // ---------------------------------------------------------- publishing

    method IntroduceTopic(name: string, value: NTValue, properties: Properties, publisher: Maybe<(Guid, int)>)
      modifies this`topics, this`clients
      ensures State() == Introduce(old(State()), name, value, properties, publisher)
    {
      hide AnnounceAll;
      if name !in topics {
        topics := topics[name := Topic(name, value, properties, properties.cached)];
      }
      AnnounceTopicAll(name, publisher);
    }

    method PublishTopicAs(name: string, value: NTValue, properties: Properties, publisher: Maybe<(Guid, int)>, now: nat,
                          ghost order: seq<string>)
      modifies this`topics, this`clients, this`failed
      ensures State() == PublishTopic(Env(enc, now, order), old(State()), name, value, properties, publisher)
    {
      hide Introduce, SetMeta, IsMeta;
      IntroduceTopic(name, value, properties, publisher);
      if !IsMeta(name) {
        IntroduceTopic(TopicSub(name), BinV(MsgpackBin, []), META_PROPERTIES, Nothing);
        IntroduceTopic(TopicPub(name), BinV(MsgpackBin, []), META_PROPERTIES, Nothing);
        SetMetaTopic(TopicSub(name), enc.topicSubscriptions(Interests(clients, name)), now, order);
        SetMetaTopic(TopicPub(name), enc.topicPublishers(Supplies(clients, name)), now, order);
      }
    }

    method UpdateClientSubTopic(g: Guid, now: nat, ghost order: seq<string>)
      modifies this`topics, this`clients, this`failed
      ensures State() == UpdateClientSub(Env(enc, now, order), old(State()), g)
    {
      hide SetMeta;
      if g in clients {
        SetMetaTopic(ClientSub(clients[g].name), enc.subscriptions(clients[g].subscriptions), now, order);
      }
    }

    method UpdateClientPubTopic(g: Guid, now: nat, ghost order: seq<string>)
      modifies this`topics, this`clients, this`failed
      ensures State() == UpdateClientPub(Env(enc, now, order), old(State()), g)
    {
      hide SetMeta;
      if g in clients {
        SetMetaTopic(ClientPub(clients[g].name), enc.publishers(clients[g].publishers), now, order);
      }
    }

    // ---------------------------------------------------------- connections

    method ClientConnected(g: Guid, requested: string, now: nat)
      modifies this`topics, this`clients, this`failed
      ensures State() == Connect(Env(enc, now, []), old(State()), g, requested)
    {
      hide Introduce, SetMeta, UpdateClientSub, UpdateClientPub, NewClient, InitialValues, FlushText, FlushBinary, NextClientWithName;
      var num := NextNumber(requested);
      var name := requested + "@" + Digits(num);
      clients := clients[g := NewClient(name)];
      IntroduceTopic(ClientSub(name), BinV(MsgpackBin, []), META_PROPERTIES, Nothing);
      IntroduceTopic(ClientPub(name), BinV(MsgpackBin, []), META_PROPERTIES, Nothing);
      SetMetaTopic(CLIENTS, enc.roster(Names(clients)), now, []);
      UpdateClientSubTopic(g, now, []);
      UpdateClientPubTopic(g, now, []);
      if g in clients {
        clients := clients[g := FlushText(clients[g])];
      }
      PublishInitialValues(g, [], now);
      if g in clients {
        clients := clients[g := FlushBinary(clients[g])];
      }
    }

    method ClientDisconnected(g: Guid, now: nat, ghost order: seq<string>)
      modifies this`topics, this`clients, this`failed
      ensures State() == Disconnect(Env(enc, now, order), old(State()), g)
    {
      hide SetMeta, FlushBinaryAll;
      if g !in clients { return; }
      clients := clients - {g};
      SetMetaTopic(CLIENTS, enc.roster(Names(clients)), now, order);
      FlushAllBinary();
    }

    // ---------------------------------------------------------- messages

    method OnSubscribe(g: Guid, sub: Subscription, order: seq<string>, now: nat)
      modifies this`topics, this`clients, this`failed
      ensures State() == Subscribe(Env(enc, now, order), old(State()), g, sub)
    {
      hide UpdateClientSub, UpdateCovered, AnnounceCachedTo;
      if g !in clients { return; }
      clients := clients[g := clients[g].(subscriptions := clients[g].subscriptions[sub.uid := sub])];
      UpdateClientSubTopic(g, now, order);
      UpdateCoveredTopics(sub, order, now);
      AnnounceCachedTopics(g, order, now);
    }

    method OnUnsubscribe(g: Guid, subuid: int, order: seq<string>, now: nat)
      modifies this`topics, this`clients, this`failed
      ensures State() == Unsubscribe(Env(enc, now, order), old(State()), g, subuid)
    {
      hide UpdateClientSub, UpdateCovered;
      if g !in clients || subuid !in clients[g].subscriptions { return; }
      var sub := clients[g].subscriptions[subuid];
      clients := clients[g := clients[g].(subscriptions := clients[g].subscriptions - {subuid})];
      UpdateClientSubTopic(g, now, order);
      UpdateCoveredTopics(sub, order, now);
    }

    method OnPublish(g: Guid, pubuid: int, name: string, typeName: string, properties: Properties, now: nat,
                     ghost order: seq<string>)
      modifies this`topics, this`clients, this`failed
      ensures State() == Publish(Env(enc, now, order), old(State()), g, pubuid, name, typeName, properties)
    {
      hide PublishTopic, UpdateClientPub, SetMeta, AnnounceTopic, Default, ParseTypeName;
      if g !in clients { return; }
      clients := clients[g := clients[g].(publishers := clients[g].publishers[pubuid := Publisher(pubuid, name)])];
      if name !in topics {
        PublishTopicAs(name, Default(ParseTypeName(typeName)), properties, Just((g, pubuid)), now, order);
      } else {
        clients := clients[g := AnnounceTopic(clients[g], topics[name], Just(pubuid))];
      }
      UpdateClientPubTopic(g, now, order);
      SetMetaTopic(TopicPub(name), enc.topicPublishers(Supplies(clients, name)), now, order);
    }

    method OnUnpublish(g: Guid, pubuid: int, now: nat, ghost order: seq<string>)
      modifies this`topics, this`clients, this`failed
      ensures State() == Unpublish(Env(enc, now, order), old(State()), g, pubuid)
    {
      hide UpdateClientPub, SetMeta;
      if g !in clients || pubuid !in clients[g].publishers { return; }
      var name := clients[g].publishers[pubuid].topic;
      clients := clients[g := clients[g].(publishers := clients[g].publishers - {pubuid})];
      UpdateClientPubTopic(g, now, order);
      SetMetaTopic(TopicPub(name), enc.topicPublishers(Supplies(clients, name)), now, order);
    }

    method ChangeProperties(name: string, p: Properties)
      requires name in topics
      modifies this`topics
      ensures State() == WithProperties(old(State()), name, p) && name in topics
    {
      var t := topics[name];
      topics := topics[name := t.(properties := p, keptCached := t.keptCached && p.cached)];
    }

    method OnSetProperties(g: Guid, name: string, persistent: Maybe<bool>, retained: Maybe<bool>, cached: Maybe<bool>)
      modifies this`topics, this`clients
      ensures State() == SetProperties(old(State()), g, name, persistent, retained, cached)
    {
      hide NotifyAll, WithProperties;
      if name !in topics { return; }
      var p := topics[name].properties;
      ghost var q := Properties(Or(persistent, p.persistent), Or(retained, p.retained), Or(cached, p.cached));
      if persistent.Just? { p := p.(persistent := persistent.value); }
      if retained.Just? { p := p.(retained := retained.value); }
      if cached.Just? { p := p.(cached := cached.value); }
      assert p == q;
      hide Or;
      ChangeProperties(name, p);
      UpdateTopicProperties(name, Just(g));
    }

    method OnEndOfText(g: Guid, order: seq<string>, now: nat)
      modifies this`clients
      ensures State() == EndOfText(Env(enc, now, order), old(State()), g)
    {
      hide FlushTextAll, FlushBinaryAll, InitialValues;
      FlushAllText();
      PublishInitialValues(g, order, now);
      FlushAllBinary();
    }

    // ---------------------------------------------------------- values

    method AssignTopicValue(name: string, v: NTValue, time: nat)
      modifies this`topics, this`clients, this`failed
      ensures State() == AssignTopic(old(State()), name, v, time)
    {
      hide FanOutAll, Assign;
      if name !in topics { return; }
      if !Valid(v) {
        failed := true;
        return;
      }
      topics := topics[name := topics[name].(value := Assign(topics[name].value, v))];
      SendTopicUpdate(name, time);
    }

    method OnValue(g: Guid, id: int, v: NTValue, now: nat, ghost order: seq<string>)
      modifies this`topics, this`clients, this`failed
      ensures State() == Value(Env(enc, now, order), old(State()), g, id, v)
    {
      hide AssignTopic, FlushBinaryAll, ToInt32;
      if id == -1 || g !in clients { return; }
      var key := ToInt32(id);
      if key in clients[g].publishers {
        AssignTopicValue(clients[g].publishers[key].topic, v, now);
      }
      FlushAllBinary();
    }

    // ---------------------------------------------------------- local calls

    method LocallySubscribe(sub: Subscription, now: nat, ghost order: seq<string>)
      modifies this
      ensures State() == LocalSubscribe(Env(enc, now, order), old(State()), sub)
    {
      hide SetMeta;
      ownSubscriptions := ownSubscriptions[sub.uid := sub];
      SetMetaTopic(SERVER_SUB, enc.subscriptions(ownSubscriptions), now, order);
    }

    method LocallyUnsubscribe(subuid: int, now: nat, ghost order: seq<string>)
      modifies this
      ensures State() == LocalUnsubscribe(Env(enc, now, order), old(State()), subuid)
    {
      hide SetMeta;
      if subuid in ownSubscriptions {
        ownSubscriptions := ownSubscriptions - {subuid};
        SetMetaTopic(SERVER_SUB, enc.subscriptions(ownSubscriptions), now, order);
      }
    }

    method LocallyPublish(pubuid: int, name: string, t: NTType, properties: Properties, now: nat, ghost order: seq<string>)
      modifies this
      ensures State() == LocalPublish(Env(enc, now, order), old(State()), pubuid, name, t, properties)
    {
      hide PublishTopic, SetMeta, Default;
      ownPublishers := ownPublishers[pubuid := Publisher(pubuid, name)];
      if name !in topics {
        PublishTopicAs(name, Default(t), properties, Nothing, now, order);
      }
      SetMetaTopic(SERVER_PUB, enc.publishers(ownPublishers), now, order);
    }

    method LocallyUnpublish(pubuid: int, now: nat, ghost order: seq<string>)
      modifies this
      ensures State() == LocalUnpublish(Env(enc, now, order), old(State()), pubuid)
    {
      hide SetMeta;
      if pubuid in ownPublishers {
        ownPublishers := ownPublishers - {pubuid};
        SetMetaTopic(SERVER_PUB, enc.publishers(ownPublishers), now, order);
      }
    }

    method LocallySetProperties(name: string, p: Properties)
      modifies this
      ensures State() == LocalSetProperties(old(State()), name, p)
    {
      hide NotifyAll, WithProperties;
      if name in topics {
        ChangeProperties(name, p);
        UpdateTopicProperties(name, Nothing);
      }
    }

    method LocallyUpdate(pubuid: int, v: NTValue, time: nat)
      modifies this
      ensures State() == LocalUpdate(old(State()), pubuid, v, time)
    {
      hide AssignTopic;
      if pubuid in ownPublishers {
        AssignTopicValue(ownPublishers[pubuid].topic, v, time);
      }
    }
  }

  lemma LeastAbove(numbers: set<nat>, num: nat)
    requires num >= 1 && (forall k | k in numbers :: k < num) && (num == 1 || num - 1 in numbers)
    ensures num == Above(numbers)
  {
    var n := Above(numbers);
    assert num < n ==> n - 1 in numbers;
    assert n < num ==> num - 1 in numbers;
  }
}
