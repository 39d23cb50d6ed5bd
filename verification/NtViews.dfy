/** What a client is sent about one topic, and all the operations that add nothing to it. */
module NtViews {
  import Bytes
  import opened NtValues
  import opened Maybes
  import opened NtClient
  import opened NtClientLaws
  import opened NtServer
  import opened NtMetaTopics

  predicate About(x: Queued, n: string) {
    match x
    case TextMessage(t) => t.name == n
    case Update(topic, _) => topic == n
  }

  /** All that was queued about a topic, in order. */
  function EntriesFor(queue: seq<Queued>, n: string): seq<Queued> {
    if queue == [] then []
    else
      var es := EntriesFor(queue[..|queue| - 1], n);
      if About(queue[|queue| - 1], n) then es + [queue[|queue| - 1]] else es
  }

  lemma OneMoreEntry(queue: seq<Queued>, x: Queued, n: string)
    ensures EntriesFor(queue + [x], n) == EntriesFor(queue, n) + (if About(x, n) then [x] else [])
  {
    Last(queue, x);
  }

  // ------------------------------------------------------------ what does not matter to the topic

  /** As far as the topic is concerned the client is the same. */
  predicate SameView(c: Client, d: Client, n: string) {
    d.subscriptions == c.subscriptions && d.publishers == c.publishers && EntriesFor(d.queue, n) == EntriesFor(c.queue, n) &&
    (n in d.topicData <==> n in c.topicData) && (n in c.topicData ==> d.topicData[n] == c.topicData[n])
  }

  predicate SameViews(s: Server, t: Server, n: string) {
    t.clients.Keys == s.clients.Keys && forall g :: g in s.clients ==> SameView(s.clients[g], t.clients[g], n)
  }

  predicate SameTopic(s: Server, t: Server, n: string) {
    (n in t.topics <==> n in s.topics) && (n in s.topics ==> t.topics[n] == s.topics[n])
  }

  predicate LeavesAlone(s: Server, t: Server, n: string) {
    NamedRight(t.topics) && SameViews(s, t, n) && SameTopic(s, t, n) && t.ownPublishers == s.ownPublishers
  }

  lemma LeavesTwice(s: Server, t: Server, u: Server, n: string)
    requires LeavesAlone(s, t, n) && LeavesAlone(t, u, n)
    ensures LeavesAlone(s, u, n)
  {
    hide EntriesFor;
    assert forall g :: g in s.clients ==> SameView(s.clients[g], t.clients[g], n) && SameView(t.clients[g], u.clients[g], n);
  }

  lemma LeavesItself(s: Server, n: string)
    requires NamedRight(s.topics)
    ensures LeavesAlone(s, s, n)
  {
  }

  lemma OtherTopic(c: Client, t: Topic, pubuid: Maybe<int>, time: nat, ack: bool, n: string)
    requires t.name != n
    ensures SameView(c, FanOut(c, t, time), n)
    ensures SameView(c, AnnounceTopic(c, t, pubuid), n)
    ensures SameView(c, Notify(c, t, ack), n)
  {
    hide EntriesFor, Render, IsSubscribed, TypeName, TypeOf, EncRecord;
    if t.name in c.topicData {
      OneMoreEntry(c.queue, Update(t.name, RecordOf(c.topicData[t.name].id, time, t.value)), n);
    }
    var d := WithId(c, t.name);
    OneMoreEntry(c.queue, TextMessage(AnnounceText(d, t, pubuid)), n);
    OneMoreEntry(c.queue, TextMessage(PropertyUpdate(t.name, ack, t.properties)), n);
  }

  lemma FlushesAreSame(c: Client, n: string)
    ensures SameView(c, FlushText(c), n) && SameView(c, FlushBinary(c), n)
  {
  }

  lemma SetMetaLeaves(env: Env, s: Server, name: string, content: seq<Bytes.byte>, n: string)
    requires NamedRight(s.topics) && name != n
    ensures LeavesAlone(s, SetMeta(env, s, name, content), n)
  {
    hide FanOut, WithBin, SameView;
    var t := SetMeta(env, s, name, content);
    forall g | g in s.clients ensures g in t.clients && SameView(s.clients[g], t.clients[g], n) {
      SameViewItself(s.clients[g], n);
      if name in s.topics {
        var v := WithBin(s.topics[name].value, content);
        OtherTopic(s.clients[g], s.topics[name].(value := v), Nothing, env.now, false, n);
      }
    }
  }

  lemma SameViewItself(c: Client, n: string)
    ensures SameView(c, c, n)
  {
  }

  lemma IntroduceLeaves(s: Server, name: string, v: NTValue, p: Properties, publisher: Maybe<(Guid, int)>, n: string)
    requires NamedRight(s.topics) && name != n
    ensures LeavesAlone(s, Introduce(s, name, v, p, publisher), n)
  {
    hide LeavesAlone, Create;
    var t := Create(s, name, v, p);
    CreateLeaves(s, name, v, p, n);
    AnnounceAllLeaves(t, name, publisher, n);
    LeavesTwice(s, t, AnnounceAll(t, name, publisher), n);
  }

  lemma CreateLeaves(s: Server, name: string, v: NTValue, p: Properties, n: string)
    requires NamedRight(s.topics) && name != n
    ensures var t := Create(s, name, v, p); LeavesAlone(s, t, n) && NamedRight(t.topics)
  {
  }

  lemma AnnounceAllLeaves(s: Server, name: string, publisher: Maybe<(Guid, int)>, n: string)
    requires NamedRight(s.topics) && name in s.topics && name != n
    ensures LeavesAlone(s, AnnounceAll(s, name, publisher), n)
  {
    hide AnnounceOne, SameView;
    forall g | g in s.clients ensures SameView(s.clients[g], AnnounceOne(s.clients[g], s.topics[name], g, publisher), n) {
      OtherAnnounced(s.clients[g], s.topics[name], g, publisher, n);
    }
  }

  lemma OtherAnnounced(c: Client, t: Topic, g: Guid, publisher: Maybe<(Guid, int)>, n: string)
    requires t.name != n
    ensures SameView(c, AnnounceOne(c, t, g, publisher), n)
  {
    hide AnnounceTopic, IsSubscribed, SameView;
    SameViewItself(c, n);
    OtherTopic(c, t, Nothing, 0, false, n);
    if publisher.Just? { OtherTopic(c, t, Just(publisher.value.1), 0, false, n); }
  }

  lemma FlushLeaves(s: Server, n: string)
    requires NamedRight(s.topics)
    ensures LeavesAlone(s, FlushTextAll(s), n) && LeavesAlone(s, FlushBinaryAll(s), n)
  {
    hide FlushText, FlushBinary, SameView;
    forall g | g in s.clients
      ensures SameView(s.clients[g], FlushText(s.clients[g]), n) && SameView(s.clients[g], FlushBinary(s.clients[g]), n)
    {
      FlushesAreSame(s.clients[g], n);
    }
  }

  lemma OneClientLeaves(s: Server, g: Guid, d: Client, n: string)
    requires NamedRight(s.topics) && g in s.clients && SameView(s.clients[g], d, n)
    ensures LeavesAlone(s, WithClient(s, g, d), n)
  {
    hide EntriesFor;
  }

  lemma FlushOfLeaves(s: Server, g: Guid, n: string)
    requires NamedRight(s.topics)
    ensures LeavesAlone(s, FlushTextOf(s, g), n) && LeavesAlone(s, FlushBinaryOf(s, g), n)
  {
    hide FlushText, FlushBinary, SameView, LeavesAlone;
    LeavesItself(s, n);
    if g in s.clients {
      FlushesAreSame(s.clients[g], n);
      OneClientLeaves(s, g, FlushText(s.clients[g]), n);
      OneClientLeaves(s, g, FlushBinary(s.clients[g]), n);
    }
  }

  /** The meta-topics of a topic or a client are never an ordinary topic. */
  lemma NotMeta(name: string, n: string)
    requires !IsMeta(n)
    ensures TopicSub(name) != n && TopicPub(name) != n && ClientSub(name) != n && ClientPub(name) != n
    ensures CLIENTS != n && SERVER_SUB != n && SERVER_PUB != n
  {
    MetaNames(name);
    assert IsMeta(CLIENTS) && IsMeta(SERVER_SUB) && IsMeta(SERVER_PUB);
  }

  lemma RefreshesLeave(env: Env, s: Server, g: Guid, name: string, n: string)
    requires NamedRight(s.topics) && !IsMeta(n)
    ensures LeavesAlone(s, UpdateClients(env, s), n) && LeavesAlone(s, UpdateServerSub(env, s), n) && LeavesAlone(s, UpdateServerPub(env, s), n)
    ensures LeavesAlone(s, UpdateClientSub(env, s, g), n) && LeavesAlone(s, UpdateClientPub(env, s, g), n)
    ensures LeavesAlone(s, UpdateTopicSub(env, s, name), n) && LeavesAlone(s, UpdateTopicPub(env, s, name), n)
    ensures LeavesAlone(s, IntroduceMeta(s, TopicSub(name)), n) && LeavesAlone(s, IntroduceMeta(s, TopicPub(name)), n)
    ensures LeavesAlone(s, IntroduceMeta(s, ClientSub(name)), n) && LeavesAlone(s, IntroduceMeta(s, ClientPub(name)), n)
  {
    hide LeavesAlone, SetMeta, Introduce, TopicSub, TopicPub, ClientSub, ClientPub, IsMeta, NamedRight;
    NotMeta(name, n);
    LeavesItself(s, n);
    forall m: string, b: seq<Bytes.byte> | m != n ensures LeavesAlone(s, SetMeta(env, s, m, b), n) {
      SetMetaLeaves(env, s, m, b, n);
    }
    forall m: string, v: NTValue | m != n ensures LeavesAlone(s, Introduce(s, m, v, META_PROPERTIES, Nothing), n) {
      IntroduceLeaves(s, m, v, META_PROPERTIES, Nothing, n);
    }
    if g in s.clients { NotMeta(s.clients[g].name, n); }
  }

  lemma PublishersLeave(env: Env, s: Server, g: Guid, name: string, n: string)
    requires NamedRight(s.topics) && !IsMeta(n)
    ensures LeavesAlone(s, UpdateTopicPub(env, UpdateClientPub(env, s, g), name), n)
  {
    hide LeavesAlone, UpdateTopicPub, UpdateClientPub, IsMeta, NamedRight;
    RefreshesLeave(env, s, g, name, n);
    var t := UpdateClientPub(env, s, g);
    StaysNamed(s, t, n);
    RefreshesLeave(env, t, g, name, n);
    LeavesTwice(s, t, UpdateTopicPub(env, t, name), n);
  }

  lemma StaysNamed(s: Server, t: Server, n: string)
    requires LeavesAlone(s, t, n)
    ensures NamedRight(t.topics)
  {
  }

  lemma {:induction false} CoveredLeaves(env: Env, s: Server, sub: Subscription, order: seq<string>, n: string)
    requires NamedRight(s.topics) && !IsMeta(n)
    ensures LeavesAlone(s, UpdateCovered(env, s, sub, order), n)
  {
    hide LeavesAlone, SetMeta, TopicSub, IsMeta, NamedRight, Covers;
    LeavesItself(s, n);
    if order == [] {
    } else {
      var init, name := order[..|order| - 1], order[|order| - 1];
      CoveredLeaves(env, s, sub, init, n);
      var s1 := UpdateCovered(env, s, sub, init);
      StaysNamed(s, s1, n);
      RefreshesLeave(env, s1, 0, name, n);
      if !IsMeta(name) && Covers(sub, name) {
        LeavesTwice(s, s1, UpdateTopicSub(env, s1, name), n);
      }
    }
  }

  /** What follows the introduction of a topic in publishTopic. */
  lemma PublishTopicLeaves(env: Env, s: Server, name: string, v: NTValue, p: Properties, publisher: Maybe<(Guid, int)>, n: string)
    requires NamedRight(Introduce(s, name, v, p, publisher).topics) && !IsMeta(n)
    ensures LeavesAlone(Introduce(s, name, v, p, publisher), PublishTopic(env, s, name, v, p, publisher), n)
  {
    hide LeavesAlone, IntroduceMeta, Introduce, UpdateTopicSub, UpdateTopicPub, TopicSub, TopicPub, IsMeta, NamedRight;
    var s1 := Introduce(s, name, v, p, publisher);
    LeavesItself(s1, n);
    if !IsMeta(name) {
      var s2 := IntroduceMeta(s1, TopicSub(name));
      RefreshesLeave(env, s1, 0, name, n);
      StaysNamed(s1, s2, n);
      var s3 := IntroduceMeta(s2, TopicPub(name));
      RefreshesLeave(env, s2, 0, name, n);
      StaysNamed(s2, s3, n);
      var s4 := UpdateTopicSub(env, s3, name);
      RefreshesLeave(env, s3, 0, name, n);
      StaysNamed(s3, s4, n);
      RefreshesLeave(env, s4, 0, name, n);
      LeavesFour(s1, s2, s3, s4, UpdateTopicPub(env, s4, name), n);
    }
  }

  lemma LeavesFour(s: Server, t: Server, u: Server, v: Server, w: Server, n: string)
    requires LeavesAlone(s, t, n) && LeavesAlone(t, u, n) && LeavesAlone(u, v, n) && LeavesAlone(v, w, n)
    ensures LeavesAlone(s, w, n)
  {
    hide LeavesAlone;
    LeavesTwice(s, t, u, n);
    LeavesTwice(s, u, v, n);
    LeavesTwice(s, v, w, n);
  }
}
