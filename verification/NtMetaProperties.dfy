/** The properties of the meta-topics that the server keeps. */
module NtMetaProperties {
  import opened Bytes
  import opened NtValues
  import opened Maybes
  import opened NtClient
  import opened NtServer

  /** Not persistent, retained, cached, if there is such a topic. */
  predicate Right(s: Server, n: string) {
    n in s.topics ==> s.topics[n].properties == Properties(false, true, true)
  }

  /** The event neither publishes the topic nor sets its properties. */
  predicate LeavesProperties(e: Event, n: string) {
    match e
    case PublishEvent(_, _, name, _, _) => name != n
    case LocalPublishEvent(_, name, _, _) => name != n
    case SetPropertiesEvent(_, name, _, _, _) => name != n
    case LocalSetPropertiesEvent(name, _) => name != n
    case _ => true
  }

  // ------------------------------------------------------------ the building blocks

  lemma PartsKeep(env: Env, n: string)
    ensures forall s, name, content {:trigger SetMeta(env, s, name, content)} :: Right(s, n) ==> Right(SetMeta(env, s, name, content), n)
    ensures forall s, name {:trigger IntroduceMeta(s, name)} :: Right(s, n) ==> Right(IntroduceMeta(s, name), n)
    ensures forall s, name, v, p, publisher {:trigger Introduce(s, name, v, p, publisher)} ::
              Right(s, n) && name != n ==> Right(Introduce(s, name, v, p, publisher), n)
    ensures forall s, name, v, time {:trigger AssignTopic(s, name, v, time)} :: Right(s, n) ==> Right(AssignTopic(s, name, v, time), n)
  {
    hide Assign, FanOut, WithBin, AnnounceOne;
  }

  lemma {:induction false} CoveredKeeps(env: Env, s: Server, sub: Subscription, order: seq<string>, n: string)
    requires Right(s, n)
    ensures Right(UpdateCovered(env, s, sub, order), n)
  {
    hide SetMeta, Covers, IsMeta, Right;
    if order != [] {
      CoveredKeeps(env, s, sub, order[..|order| - 1], n);
      PartsKeep(env, n);
    }
  }

  lemma PublishTopicKeeps(env: Env, s: Server, name: string, v: NTValue, p: Properties, publisher: Maybe<(Guid, int)>, n: string)
    requires Right(s, n) && name != n
    ensures Right(PublishTopic(env, s, name, v, p, publisher), n)
  {
    hide SetMeta, Introduce, IntroduceMeta, IsMeta, Right;
    PartsKeep(env, n);
  }

  lemma SameTopics(s: Server, t: Server, n: string)
    requires t.topics == s.topics && Right(s, n)
    ensures Right(t, n)
  {
  }

  // ------------------------------------------------------------ the steps

  lemma ConnectKeeps(env: Env, s: Server, g: Guid, requested: string, n: string)
    requires Right(s, n)
    ensures Right(Connect(env, s, g, requested), n)
  {
    hide SetMeta, IntroduceMeta, NameFor, PublishInitial, FlushText, FlushBinary;
    PartsKeep(env, n);
  }

  lemma MapEventsKeep(env: Env, s: Server, e: Event, n: string)
    requires Right(s, n) && (e.SubscribeEvent? || e.UnsubscribeEvent?)
    ensures Right(Next(env, s, e), n)
  {
    hide SetMeta, UpdateCovered, AnnounceCached, Connect;
    PartsKeep(env, n);
    if e.g in s.clients {
      if e.SubscribeEvent? {
        var s1 := WithSubscriptions(s, e.g, s.clients[e.g].subscriptions[e.sub.uid := e.sub]);
        CoveredKeeps(env, UpdateClientSub(env, s1, e.g), e.sub, env.order, n);
      } else if e.subuid in s.clients[e.g].subscriptions {
        var s1 := WithSubscriptions(s, e.g, s.clients[e.g].subscriptions - {e.subuid});
        CoveredKeeps(env, UpdateClientSub(env, s1, e.g), s.clients[e.g].subscriptions[e.subuid], env.order, n);
      }
    }
  }

  lemma PublishingKeeps(env: Env, s: Server, e: Event, n: string)
    requires Right(s, n) && LeavesProperties(e, n) && (e.PublishEvent? || e.LocalPublishEvent?)
    ensures Right(Next(env, s, e), n)
  {
    hide SetMeta, PublishTopic, AnnounceTopic, Default, ParseTypeName, Connect;
    PartsKeep(env, n);
    match e {
      case PublishEvent(g, u, name, typeName, p) =>
        if g in s.clients {
          var s1 := WithPublishers(s, g, s.clients[g].publishers[u := Publisher(u, name)]);
          PublishTopicKeeps(env, s1, name, Default(ParseTypeName(typeName)), p, Just((g, u)), n);
        }
      case LocalPublishEvent(u, name, t, p) =>
        PublishTopicKeeps(env, s.(ownPublishers := s.ownPublishers[u := Publisher(u, name)]), name, Default(t), p, Nothing, n);
      case _ =>
    }
  }

  lemma NextKeeps(env: Env, s: Server, e: Event, n: string)
    requires Right(s, n) && LeavesProperties(e, n)
    ensures Right(Next(env, s, e), n)
  {
    hide Connect, Subscribe, Unsubscribe, Publish, LocalPublish, AssignTopic, SetMeta, ToInt32;
    PartsKeep(env, n);
    match e {
      case ConnectEvent(g, requested) => ConnectKeeps(env, s, g, requested, n);
      case SubscribeEvent(_, _) => MapEventsKeep(env, s, e, n);
      case UnsubscribeEvent(_, _) => MapEventsKeep(env, s, e, n);
      case PublishEvent(_, _, _, _, _) => PublishingKeeps(env, s, e, n);
      case LocalPublishEvent(_, _, _, _) => PublishingKeeps(env, s, e, n);
      case _ =>
    }
  }

  /** In every run in which nobody publishes a meta-topic or sets its properties, it is not persistent, but retained and
      cached, whenever it is there. */
  lemma {:induction false} RunKeepsProperties(enc: Encoders, inputs: seq<Input>, n: string)
    requires n != "" && n[0] == '$' && forall i | i in inputs :: LeavesProperties(i.event, n)
    ensures n in Run(enc, inputs).topics ==> Run(enc, inputs).topics[n].properties == Properties(false, true, true)
  {
    hide Next, LeavesProperties;
    if inputs != [] {
      var init, i := inputs[..|inputs| - 1], inputs[|inputs| - 1];
      assert i in inputs && forall j | j in init :: j in inputs;
      RunKeepsProperties(enc, init, n);
      if !Run(enc, init).failed { NextKeeps(Env(enc, i.now, i.order), Run(enc, init), i.event, n); }
    }
  }
}
