/** What clients may rely on, over every run of the server. */
module NtTheorems {
  import opened NtValues
  import opened NtRecords
  import opened NtStream
  import opened Batching
  import opened Maybes
  import opened NtClient
  import opened NtClientLaws
  import opened NtServer
  import opened NtServerInvariant

  predicate IsAnnounce(x: Queued, name: string, id: int) {
    x.TextMessage? && x.text.Announce? && x.text.name == name && x.text.id == id
  }

  predicate Announces(x: Queued, name: string) {
    x.TextMessage? && x.text.Announce? && x.text.name == name
  }

  /** The state after a run. */
  ghost predicate Reached(enc: Encoders, inputs: seq<Input>, s: Server) {
    SoundRun(enc, inputs) && s == Run(enc, inputs)
  }

  lemma RunClient(enc: Encoders, inputs: seq<Input>, s: Server, g: Guid)
    requires Reached(enc, inputs, s) && g in s.clients
    ensures ClientOk(s.clients[g], s.topics)
  {
    hide Run, SoundRun, ClientOk;
    RunKeeps(enc, inputs);
  }

  /** In every run: an update is queued for a client only after an announcement, to that client, that binds
      its id to its topic. */
  lemma AnnounceComesFirst(enc: Encoders, inputs: seq<Input>, s: Server, g: Guid, p: nat)
    requires Reached(enc, inputs, s) && g in s.clients
    requires p < |s.clients[g].queue| && s.clients[g].queue[p].Update?
    ensures var queue := s.clients[g].queue;
            exists q :: 0 <= q < p && IsAnnounce(queue[q], queue[p].topic, queue[p].record.id)
  {
    hide Run, SoundRun, ClientOk;
    RunClient(enc, inputs, s, g);
    var c := s.clients[g];
    AnnouncedBeforeUpdate(c, s.topics, p);
    var q :| 0 <= q < p && c.queue[q].TextMessage? && c.queue[q].text.Announce? &&
             c.queue[q].text.name == c.queue[p].topic && c.queue[q].text.id == c.queue[p].record.id;
    assert IsAnnounce(c.queue[q], c.queue[p].topic, c.queue[p].record.id);
  }

  /** In every run: all announcements to a client, early or late, first or repeated, give the same topic the
      same id and different topics different ids, below the next one to be given. */
  lemma IdsNeverChange(enc: Encoders, inputs: seq<Input>, s: Server, g: Guid, p: nat, q: nat)
    requires Reached(enc, inputs, s) && g in s.clients
    requires p < |s.clients[g].queue| && q < |s.clients[g].queue|
    ensures var c := s.clients[g];
            forall m, n, i, j :: IsAnnounce(c.queue[p], m, i) && IsAnnounce(c.queue[q], n, j) ==>
              (m == n <==> i == j) && 0 <= i < c.nextTopicId
  {
    hide Run, SoundRun, ClientOk;
    RunClient(enc, inputs, s, g);
    var c := s.clients[g];
    if c.queue[p].TextMessage? && c.queue[p].text.Announce? && c.queue[q].TextMessage? && c.queue[q].text.Announce? {
      IdsAreStable(c, s.topics, p, q);
    }
  }

  /** In every run: an update carries the code of the type that its topic was announced with. */
  lemma TypesAgree(enc: Encoders, inputs: seq<Input>, s: Server, g: Guid, p: nat, q: nat)
    requires Reached(enc, inputs, s) && g in s.clients
    requires p < |s.clients[g].queue| && q < |s.clients[g].queue|
    ensures var queue := s.clients[g].queue;
            queue[p].Update? && IsAnnounce(queue[q], queue[p].topic, queue[p].record.id) ==>
              ApiCode(ParseTypeName(queue[q].text.typeName)) == queue[p].record.code
  {
    hide Run, SoundRun, IdsOk, HistoryOk, CachesOk, ParseTypeName, TypeName;
    RunKeeps(enc, inputs);
    var c := s.clients[g];
    assert ClientOk(c, s.topics);
    if c.queue[p].Update? && IsAnnounce(c.queue[q], c.queue[p].topic, c.queue[p].record.id) {
      assert Agrees(c.queue[p], s.topics);
      AnnouncedType(c, s.topics, p, q);
    }
  }

  /** In every run: a topic counts as sent to a client exactly when an update of it was queued for it. */
  lemma SentIffQueued(enc: Encoders, inputs: seq<Input>, s: Server, g: Guid, name: string)
    requires Reached(enc, inputs, s) && g in s.clients && name in s.clients[g].topicData
    ensures var c := s.clients[g];
            c.topicData[name].initialPublish <==>
            exists p :: 0 <= p < |c.queue| && c.queue[p].Update? && c.queue[p].topic == name
  {
    hide Run, SoundRun, ClientOk;
    RunClient(enc, inputs, s, g);
    InitialPublishIff(s.clients[g], s.topics, name);
  }

  /** In every run: every client has been announced every topic that it subscribes to now and that has been
      cached since it was created, whichever of the two came first. */
  lemma AnnouncesAreComplete(enc: Encoders, inputs: seq<Input>, s: Server, g: Guid, name: string)
    requires Reached(enc, inputs, s) && g in s.clients && name in s.topics
    requires s.topics[name].keptCached
    requires IsSubscribed(s.clients[g].subscriptions, name, false)
    ensures exists q :: 0 <= q < |s.clients[g].queue| && Announces(s.clients[g].queue[q], name)
  {
    hide Run, SoundRun, IsSubscribed, IdsOk, CachesOk, Agrees, Orderly;
    RunKeeps(enc, inputs);
    var c := s.clients[g];
    assert ClientOk(c, s.topics) && CompleteFor(c, s.topics);
    assert name in Ids(c.topicData);
    BoundWasAnnounced(c.queue, name);
    var q :| 0 <= q < |c.queue| && c.queue[q].TextMessage? && c.queue[q].text.Announce? &&
             c.queue[q].text.name == name && c.queue[q].text.id == Bindings(c.queue)[name];
    assert Announces(c.queue[q], name);
  }

  /** In every run: the text frames sent to a client and then its text cache hold all messages queued for it, in
      order, each whole; so do the binary frames and the binary cache with the packed records. A text frame
      of several messages has at most 513 characters, a binary one of several records at most 512 bytes. */
  lemma FramesAreLossless(enc: Encoders, inputs: seq<Input>, s: Server, g: Guid)
    requires Reached(enc, inputs, s) && g in s.clients
    ensures var c := s.clients[g];
            Flatten(c.text.sent) + c.text.cached == Texts(c.queue) &&
            Flatten(c.binary.sent) + c.binary.cached == Records(c.queue) &&
            (forall f | f in c.text.sent :: f != [] && (|f| > 1 ==> |Frame(TEXT, f)| <= 513)) &&
            (forall f | f in c.binary.sent :: f != [] && (|f| > 1 ==> |Frame(BINARY, f)| <= 512))
  {
    hide Run, SoundRun, IdsOk, HistoryOk, TopicsOk, Join, Flatten, Texts, Records;
    RunClient(enc, inputs, s, g);
    var c := s.clients[g];
    forall f | f in c.text.sent ensures f != [] && (|f| > 1 ==> |Frame(TEXT, f)| <= 513) {
      assert Bounded(TEXT, f);
    }
    forall f | f in c.binary.sent ensures f != [] && (|f| > 1 ==> |Frame(BINARY, f)| <= 512) {
      assert Bounded(BINARY, f);
    }
  }

  /** The records among the queued things. */
  function UpdatesOf(queue: seq<Queued>): seq<Record> {
    if queue == [] then []
    else
      var rs := UpdatesOf(queue[..|queue| - 1]);
      match queue[|queue| - 1]
      case TextMessage(_) => rs
      case Update(_, r) => rs + [r]
  }

  lemma {:induction false} RecordsAreEncoded(queue: seq<Queued>)
    ensures NtClient.Records(queue) == Encoded(UpdatesOf(queue))
  {
    hide EncRecord;
    if queue == [] {
    } else {
      var init := queue[..|queue| - 1];
      RecordsAreEncoded(init);
      match queue[|queue| - 1] {
        case TextMessage(_) =>
        case Update(_, r) => assert Encoded(UpdatesOf(init) + [r]) == Encoded(UpdatesOf(init)) + [EncRecord(r)];
      }
    }
  }

  // ------------------------------------------------------------ the end of a frame

  lemma {:induction false} PublishInitialKeepsText(c: Client, topics: map<string, Topic>, order: seq<string>, time: nat)
    ensures PublishInitial(c, topics, order, time).text == c.text
  {
    hide IsSubscribed, Put;
    if order == [] {
    } else {
      PublishInitialKeepsText(c, topics, order[..|order| - 1], time);
    }
  }

  /** After a text frame nothing is left in any cache, and the sender waits for no value: every announced topic
      whose values it subscribes to has had one queued, and sent. */
  lemma AfterTextFrame(env: Env, s: Server, g: Guid)
    requires Inv(s, Nothing) && g in s.clients && multiset(env.order) == multiset(s.clients[g].topicData.Keys)
    ensures var t := EndOfText(env, s, g);
            t.clients.Keys == s.clients.Keys &&
            (forall h | h in t.clients :: t.clients[h].text.cached == [] && t.clients[h].binary.cached == []) &&
            (forall n | n in t.clients[g].topicData && IsSubscribed(t.clients[g].subscriptions, n, true) ::
               t.clients[g].topicData[n].initialPublish)
  {
    hide ClientOk, IsSubscribed, FlushText, FlushBinary, PublishInitial, Complete, Follows;
    var s1 := FlushTextAll(s);
    FlushAllKeep(s, Nothing);
    var s2 := InitialValues(env, s1, g);
    InitialValuesKeeps(env, s1, g, Nothing);
    PublishInitialKeepsText(s1.clients[g], s1.topics, env.order, env.now);
    FlushAllKeep(s2, Nothing);
    var t := FlushBinaryAll(s2);
    forall h | h in t.clients ensures t.clients[h].text.cached == [] && t.clients[h].binary.cached == [] {
      FlushBinaryShape(s2.clients[h]);
    }
    FlushShapes(s.clients[g]);
    FlushBinaryShape(s2.clients[g]);
    InitialIsComplete(env, s1, g);
  }

  lemma FlushBinaryShape(c: Client)
    ensures FlushBinary(c).text == c.text && FlushBinary(c).topicData == c.topicData && FlushBinary(c).subscriptions == c.subscriptions
  {
  }

  lemma FlushShapes(c: Client)
    ensures FlushText(c).topicData == c.topicData
  {
  }

  lemma InitialIsComplete(env: Env, s: Server, g: Guid)
    requires Inv(s, Nothing) && g in s.clients && multiset(env.order) == multiset(s.clients[g].topicData.Keys)
    ensures var d := InitialValues(env, s, g).clients[g];
            forall n | n in d.topicData && IsSubscribed(d.subscriptions, n, true) :: d.topicData[n].initialPublish
  {
    hide ClientOk, IsSubscribed, PublishInitial, Complete, Follows;
    var c, d := s.clients[g], InitialValues(env, s, g).clients[g];
    PublishInitialKeeps(c, s.topics, env.order, env.now);
    SameSubscriptions(c, d);
    forall n | n in d.topicData && IsSubscribed(d.subscriptions, n, true) ensures d.topicData[n].initialPublish {
      assert n in c.topicData.Keys;
      assert n in multiset(env.order);
    }
  }

  /** After a record from a client nothing is left in any binary cache. */
  lemma AfterValue(env: Env, s: Server, g: Guid, id: int, v: NTValue)
    requires Inv(s, Nothing) && g in s.clients && id != -1
    ensures var t := Value(env, s, g, id, v);
            t.clients.Keys == s.clients.Keys && forall h | h in t.clients :: t.clients[h].binary.cached == []
  {
    hide Inv, AssignTopic, ToInt32, FlushBinary, Follows;
    var pubs := s.clients[g].publishers;
    if ToInt32(id) in pubs {
      AssignKeeps(s, pubs[ToInt32(id)].topic, v, env.now, Nothing);
      FlushAllKeep(AssignTopic(s, pubs[ToInt32(id)].topic, v, env.now), Nothing);
    } else {
      FlushAllKeep(s, Nothing);
    }
  }

  /** Nothing is left in any binary cache after a flush from outside, or when somebody has left. */
  lemma AfterFlush(env: Env, s: Server, e: Event)
    requires Inv(s, Nothing) && !s.failed && (e.FlushEvent? || (e.DisconnectEvent? && e.g in s.clients))
    ensures forall h | h in Step(env, s, e).clients :: Step(env, s, e).clients[h].binary.cached == []
  {
    hide ClientOk, IsSubscribed, CompleteFor, SetMeta, FlushBinaryAll, Evolves, Connect;
    if e.DisconnectEvent? {
      var s1 := s.(clients := s.clients - {e.g});
      assert Inv(s1, Nothing);
      SetMetaKeeps(env, s1, CLIENTS, env.enc.roster(Names(s1.clients)), Nothing);
      FlushAllKeep(UpdateClients(env, s1), Nothing);
      SameClientsFlushed(UpdateClients(env, s1));
    } else {
      FlushAllKeep(s, Nothing);
      SameClientsFlushed(s);
    }
  }

  lemma SameClientsFlushed(s: Server)
    ensures FlushBinaryAll(s).clients.Keys == s.clients.Keys
  {
  }

  lemma FirstInCache<E>(style: Style<E>, b: Batch<E>, item: seq<E>)
    requires b.cached == [] && item != []
    ensures Put(style, b, item) == Batch(b.sent, [item])
    ensures FlushAll(style, Batch(b.sent, [item])) == Batch(b.sent + [[item]], [])
  {
    assert [] + [item] == [item];
    assert Join(style, [item]) == item;
  }
}
