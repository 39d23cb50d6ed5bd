/** Who is sent which values and names, because of what it subscribes to. */
module NtInterest {
  import opened NtValues
  import opened Batching
  import opened Maybes
  import opened NtClient
  import opened NtClientLaws
  import opened NtSubscriptions
  import opened NtServer
  import opened NtServerInvariant
  import opened NtTheorems
  import opened NtViews
  import opened NtGains
  import opened NtClientRules

  // ------------------------------------------------------------ who is sent a value

  ghost predicate WasAnnounced(queue: seq<Queued>, n: string) {
    exists q :: 0 <= q < |queue| && Announces(queue[q], n)
  }

  predicate UpdateOf(x: Queued, n: string) {
    x.Update? && x.topic == n
  }

  ghost predicate HadValue(queue: seq<Queued>, n: string) {
    exists q :: 0 <= q < |queue| && UpdateOf(queue[q], n)
  }

  /** The topic was announced to the client, and it was sent a value before or subscribes to values. */
  ghost predicate Due(c: Client, n: string) {
    WasAnnounced(c.queue, n) && (HadValue(c.queue, n) || Wants(c.subscriptions, n, true))
  }

  lemma AnnouncedIff(c: Client, topics: map<string, Topic>, n: string)
    requires ClientOk(c, topics)
    ensures n in c.topicData <==> WasAnnounced(c.queue, n)
  {
    hide Orderly, IdsOk, TopicsOk, CachesOk, Updated, Published;
    assert n in c.topicData <==> n in Bindings(c.queue) by { assert Ids(c.topicData).Keys == c.topicData.Keys; }
    if n in c.topicData {
      BoundWasAnnounced(c.queue, n);
      var q :| 0 <= q < |c.queue| && c.queue[q].TextMessage? && c.queue[q].text.Announce? &&
               c.queue[q].text.name == n && c.queue[q].text.id == Bindings(c.queue)[n];
      assert Announces(c.queue[q], n);
    }
    if WasAnnounced(c.queue, n) {
      var q :| 0 <= q < |c.queue| && Announces(c.queue[q], n);
      AnnounceBindsName(c.queue, q, n);
    }
  }

  lemma {:induction false} AnnounceBindsName(queue: seq<Queued>, q: nat, n: string)
    requires q < |queue| && Announces(queue[q], n)
    ensures n in Bindings(queue)
  {
    if q < |queue| - 1 {
      AnnounceBindsName(queue[..|queue| - 1], q, n);
    }
  }

  lemma HadValueIff(c: Client, topics: map<string, Topic>, n: string)
    requires ClientOk(c, topics) && n in c.topicData
    ensures c.topicData[n].initialPublish <==> HadValue(c.queue, n)
  {
    hide ClientOk;
    InitialPublishIff(c, topics, n);
    if c.topicData[n].initialPublish {
      var p :| 0 <= p < |c.queue| && c.queue[p].Update? && c.queue[p].topic == n;
      assert UpdateOf(c.queue[p], n);
    }
    if HadValue(c.queue, n) {
      var p :| 0 <= p < |c.queue| && UpdateOf(c.queue[p], n);
      assert c.queue[p].Update? && c.queue[p].topic == n;
    }
  }

  lemma DueIff(c: Client, topics: map<string, Topic>, n: string)
    requires ClientOk(c, topics)
    ensures WantsUpdate(c, n) <==> Due(c, n)
  {
    hide ClientOk, IsSubscribed, Wants, HadValue, WasAnnounced;
    AnnouncedIff(c, topics, n);
    SubscribedIff(c.subscriptions, n, true);
    if n in c.topicData { HadValueIff(c, topics, n); }
  }

  /** Of any topic, a meta-topic too: a new value is queued exactly for the clients that are due. */
  lemma FanOutIff(c: Client, topics: map<string, Topic>, t: Topic, time: nat)
    requires ClientOk(c, topics)
    ensures Due(c, t.name) ==>
              t.name in c.topicData &&
              FanOut(c, t, time).queue == c.queue + [Update(t.name, RecordOf(c.topicData[t.name].id, time, t.value))]
    ensures !Due(c, t.name) ==> FanOut(c, t, time) == c
  {
    hide ClientOk, Due, IsSubscribed, EncRecord, Put, Leaves;
    DueIff(c, topics, t.name);
  }

  /** Of any topic: a change of properties is told exactly to the clients with a subscription that lists it, and
      acknowledged to whoever asked for it. */
  lemma NotifyIff(c: Client, t: Topic, ack: bool)
    ensures Notify(c, t, ack).queue ==
            c.queue + if Wants(c.subscriptions, t.name, false) then [TextMessage(PropertyUpdate(t.name, ack, t.properties))] else []
  {
    hide IsSubscribed, Wants, Render, Put, Leaves;
    SubscribedIff(c.subscriptions, t.name, false);
  }

  /** Of any topic that nobody was told of: it is announced to its publisher, with the publisher's id, and to the clients
      with a subscription that lists it, under the next id of each. */
  lemma AnnounceIff(c: Client, t: Topic, g: Guid, publisher: Maybe<(Guid, int)>)
    requires t.name !in c.topicData
    ensures var d := AnnounceOne(c, t, g, publisher);
            var own := publisher.Just? && publisher.value.0 == g;
            d.queue == c.queue +
              if own || Wants(c.subscriptions, t.name, false)
              then [TextMessage(Announce(t.name, c.nextTopicId, TypeName(TypeOf(t.value)), if own then Just(publisher.value.1) else Nothing, t.properties))]
              else []
  {
    hide IsSubscribed, Wants, Render, Put, Leaves, TypeName, TypeOf;
    SubscribedIff(c.subscriptions, t.name, false);
  }

  // ------------------------------------------------------------ over every run

  /** The updates of a topic in a queue. */
  function ValuesFor(queue: seq<Queued>, n: string): seq<Queued> {
    if queue == [] then []
    else
      var vs := ValuesFor(queue[..|queue| - 1], n);
      if UpdateOf(queue[|queue| - 1], n) then vs + [queue[|queue| - 1]] else vs
  }

  lemma {:induction false} ValuesOfEntries(queue: seq<Queued>, n: string)
    ensures ValuesFor(EntriesFor(queue, n), n) == ValuesFor(queue, n)
  {
    if queue == [] {
    } else {
      ValuesOfEntries(queue[..|queue| - 1], n);
      Last(EntriesFor(queue[..|queue| - 1], n), queue[|queue| - 1]);
    }
  }

  lemma ValuesMore(queue: seq<Queued>, more: seq<Queued>, n: string)
    requires |more| <= 1
    ensures ValuesFor(queue + more, n) == ValuesFor(queue, n) + (if more != [] && UpdateOf(more[0], n) then more else [])
  {
    if more == [] {
      assert queue + more == queue;
    } else {
      assert more == [more[0]];
      Last(queue, more[0]);
    }
  }

  /** The values of an ordinary topic that an event adds for a client: one, if the event assigns a value to the topic and
      the client is due; or one at the end of a text frame of its own, if it subscribes to values of a topic that was
      announced to it and never had one. */
  ghost function NewValues(env: Env, s: Server, e: Event, h: Guid, n: string): seq<Queued>
    requires h in s.clients
  {
    var c := s.clients[h];
    if n !in s.topics || n !in c.topicData then []
    else
      var id := c.topicData[n].id;
      match e
      case ValueEvent(g, uid, v) =>
        if uid != -1 && g in s.clients && ToInt32(uid) in s.clients[g].publishers && s.clients[g].publishers[ToInt32(uid)].topic == n &&
           Valid(v) && Due(c, n)
        then [Update(n, RecordOf(id, env.now, Assign(s.topics[n].value, v)))] else []
      case LocalUpdateEvent(u, v, time) =>
        if u in s.ownPublishers && s.ownPublishers[u].topic == n && Valid(v) && Due(c, n)
        then [Update(n, RecordOf(id, time, Assign(s.topics[n].value, v)))] else []
      case EndOfTextEvent(g) =>
        if g == h && WasAnnounced(c.queue, n) && !HadValue(c.queue, n) && Wants(c.subscriptions, n, true)
        then [Update(n, RecordOf(id, env.now, s.topics[n].value))] else []
      case _ => []
  }

  lemma NewValuesAre(env: Env, s: Server, e: Event, h: Guid, n: string, id: nat)
    requires h in s.clients && ClientOk(s.clients[h], s.topics) && NamedRight(s.topics) && (n in s.clients[h].topicData ==> n in s.topics)
    ensures var gain := Gain(env, s, e, h, n, id);
            |gain| <= 1 && NewValues(env, s, e, h, n) == if gain != [] && UpdateOf(gain[0], n) then gain else []
  {
    hide ClientOk, Due, WasAnnounced, HadValue, Wants, IsSubscribed, Assign, Default, ParseTypeName, TypeName, TypeOf, ToInt32;
    var c := s.clients[h];
    DueIff(c, s.topics, n);
    AnnouncedIff(c, s.topics, n);
    SubscribedIff(c.subscriptions, n, true);
    if n in c.topicData { HadValueIff(c, s.topics, n); }
  }

  /** Every step of every run: an update of an ordinary topic is queued for a client exactly under these conditions. */
  lemma StepValues(enc: Encoders, inputs: seq<Input>, s: Server, i: Input, h: Guid, n: string)
    requires Reached(enc, inputs, s) && Sound(s, i) && !s.failed && !IsMeta(n)
    requires h in s.clients && !(i.event.ConnectEvent? && i.event.g == h)
    ensures var env := Env(enc, i.now, i.order);
            var t := Step(env, s, i.event);
            h in t.clients ==> ValuesFor(t.clients[h].queue, n) == ValuesFor(s.clients[h].queue, n) + NewValues(env, s, i.event, h, n)
  {
    hide Run, SoundRun, Inv, Step, Sound, IsMeta, Gain, NewValues, ValuesFor, EntriesFor, IdIn, ClientOk;
    RunKeeps(enc, inputs);
    var env := Env(enc, i.now, i.order);
    var t := Step(env, s, i.event);
    StepGains(enc, s, i, h, n);
    if h in t.clients {
      RunClient(enc, inputs, s, h);
      TopicsOnly(s, h, n);
      NewValuesAre(env, s, i.event, h, n, IdIn(t.clients[h], n));
      ValuesOfEntries(t.clients[h].queue, n);
      ValuesOfEntries(s.clients[h].queue, n);
      ValuesMore(EntriesFor(s.clients[h].queue, n), Gain(env, s, i.event, h, n, IdIn(t.clients[h], n)), n);
    }
  }

  // ------------------------------------------------------------ topics only

  /** All subscriptions are about topics only, and no value was ever queued. */
  predicate OnlyTopics(c: Client) {
    (forall u :: u in c.subscriptions ==> c.subscriptions[u].options.topicsonly) &&
    (forall n :: n in c.topicData ==> !c.topicData[n].initialPublish) && (forall x :: x in c.queue ==> !x.Update?)
  }

  lemma TopicsOnlyKept()
    ensures KeptByQueueing(OnlyTopics, (name: string) => true)
    ensures KeptByMaps(OnlyTopics, (sub: Subscription) => sub.options.topicsonly)
  {
    hide Render, Put, Leaves, Covers, EncRecord;
  }

  /** In every run in which a client has only ever subscribed to topics, no value at all is queued for it. */
  lemma NoValuesForTopicsOnly(enc: Encoders, inputs: seq<Input>, h: Guid)
    requires forall i | i in inputs :: i.event.SubscribeEvent? && i.event.g == h ==> i.event.sub.options.topicsonly
    ensures h in Run(enc, inputs).clients ==> forall x :: x in Run(enc, inputs).clients[h].queue ==> !x.Update?
  {
    hide Run, KeptByQueueing, KeptByMaps;
    TopicsOnlyKept();
    RunHolds(enc, inputs, h, OnlyTopics, (sub: Subscription) => sub.options.topicsonly, (name: string) => true);
  }

  // ------------------------------------------------------------ names with a dollar sign

  function NameOf(x: Queued): string {
    match x
    case TextMessage(t) => t.name
    case Update(topic, _) => topic
  }

  predicate NoDollars(sub: Subscription) {
    forall top :: top in sub.topics ==> !Dollar(top)
  }

  /** Nothing that a client lists, has or was ever sent is about a name with a dollar sign in front. */
  predicate Undollared(c: Client) {
    (forall u :: u in c.subscriptions ==> NoDollars(c.subscriptions[u])) && (forall n :: n in c.topicData ==> !Dollar(n)) &&
    (forall x :: x in c.queue ==> !Dollar(NameOf(x)))
  }

  lemma NotSubscribed(subs: map<int, Subscription>, name: string, forValues: bool)
    requires (forall u :: u in subs ==> NoDollars(subs[u])) && Dollar(name)
    ensures !IsSubscribed(subs, name, forValues)
  {
    SubscribedIff(subs, name, forValues);
  }

  lemma DollarsKept()
    ensures KeptByQueueing(Undollared, (name: string) => !Dollar(name))
  {
    hide Render, Put, Leaves, IsSubscribed, EncRecord, NoDollars;
    forall c: Client, name, forValues | Undollared(c) && Dollar(name) ensures !IsSubscribed(c.subscriptions, name, forValues) {
      NotSubscribed(c.subscriptions, name, forValues);
    }
  }

  lemma DollarsKeptByMaps()
    ensures KeptByMaps(Undollared, NoDollars)
  {
    hide NoDollars;
  }

  /** In every run in which a client has only ever listed and published names without a dollar sign in front, it is
      announced, told and sent nothing about any name that has one, however short its prefixes are. */
  lemma NothingAboutDollars(enc: Encoders, inputs: seq<Input>, h: Guid)
    requires forall i | i in inputs :: i.event.SubscribeEvent? && i.event.g == h ==> NoDollars(i.event.sub)
    requires forall i | i in inputs :: i.event.PublishEvent? && i.event.g == h ==> !Dollar(i.event.name)
    ensures h in Run(enc, inputs).clients ==> forall x :: x in Run(enc, inputs).clients[h].queue ==> !Dollar(NameOf(x))
  {
    hide Run, KeptByQueueing, KeptByMaps;
    DollarsKept();
    DollarsKeptByMaps();
    RunHolds(enc, inputs, h, Undollared, NoDollars, (name: string) => !Dollar(name));
  }
}
