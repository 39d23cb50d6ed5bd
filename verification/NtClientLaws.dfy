/** What every operation on a client keeps, and what its history then says. */
module NtClientLaws {
  import Bytes
  import opened NtValues
  import opened Batching
  import opened Maybes
  import opened NtClient

  // ------------------------------------------------------------ one more thing in the queue

  lemma Last(queue: seq<Queued>, x: Queued)
    ensures (queue + [x])[..|queue + [x]| - 1] == queue && (queue + [x])[|queue + [x]| - 1] == x
  {
  }

  lemma {:induction false} TextsInMore(a: seq<Queued>, b: seq<Queued>)
    ensures TextsIn(a + b) == TextsIn(a) + TextsIn(b) && UpdatesIn(a + b) == UpdatesIn(a) + UpdatesIn(b)
    decreases |b|
  {
    if b == [] {
      assert a + b == a;
    } else {
      assert (a + b)[..|a + b| - 1] == a + b[..|b| - 1];
      TextsInMore(a, b[..|b| - 1]);
    }
  }

  lemma {:induction false} AllOfAKind(xs: seq<Queued>)
    ensures (forall x :: x in xs ==> x.TextMessage?) ==> TextsIn(xs) == xs && UpdatesIn(xs) == []
    ensures (forall x :: x in xs ==> x.Update?) ==> UpdatesIn(xs) == xs && TextsIn(xs) == []
  {
    if xs == [] {
    } else {
      AllOfAKind(xs[..|xs| - 1]);
      assert xs[|xs| - 1] in xs;
      assert xs == xs[..|xs| - 1] + [xs[|xs| - 1]];
    }
  }

  /** When a cache leaves, the log still accounts for everything. */
  lemma LeavingKeeps(l: Log)
    requires (forall x :: x in l.texts ==> x.TextMessage?) && (forall x :: x in l.updates ==> x.Update?)
    ensures TextsIn(TextsLeave(l).wire) + TextsLeave(l).texts == TextsIn(l.wire) + l.texts
    ensures UpdatesIn(TextsLeave(l).wire) + TextsLeave(l).updates == UpdatesIn(l.wire) + l.updates
    ensures TextsIn(UpdatesLeave(l).wire) + UpdatesLeave(l).texts == TextsIn(l.wire) + l.texts
    ensures UpdatesIn(UpdatesLeave(l).wire) + UpdatesLeave(l).updates == UpdatesIn(l.wire) + l.updates
  {
    hide TextsIn, UpdatesIn;
    TextsInMore(l.wire, l.texts);
    TextsInMore(l.wire, l.updates);
    AllOfAKind(l.texts);
    AllOfAKind(l.updates);
  }

  lemma NothingWaits()
    ensures Texts([]) == [] && Records([]) == []
  {
  }

  lemma OneMoreIn(queue: seq<Queued>, x: Queued)
    ensures TextsIn(queue + [x]) == TextsIn(queue) + (if x.TextMessage? then [x] else [])
    ensures UpdatesIn(queue + [x]) == UpdatesIn(queue) + (if x.Update? then [x] else [])
  {
    Last(queue, x);
  }

  lemma TextLogged(c: Client, t: Text)
    requires LogOk(c)
    ensures LogOk(QueueText(c, t))
  {
    hide Join, Leaves, Render, EncRecord, Texts, Records, TextsIn, UpdatesIn;
    var x := TextMessage(t);
    var l := if Leaves(TEXT, c.text, |Render(t)|) then TextsLeave(c.log) else c.log;
    LeavingKeeps(c.log);
    NothingWaits();
    OneMoreIn(c.queue, x);
    Bytes.Regroup(TextsIn(l.wire), l.texts, [x]);
    TextsMore(l.texts, t);
  }

  lemma TextsMore(xs: seq<Queued>, t: Text)
    ensures Texts(xs + [TextMessage(t)]) == Texts(xs) + [Render(t)]
  {
    hide Render;
    Last(xs, TextMessage(t));
  }

  lemma RecordsMore(xs: seq<Queued>, topic: string, r: Record)
    ensures Records(xs + [Update(topic, r)]) == Records(xs) + [EncRecord(r)]
  {
    hide EncRecord;
    Last(xs, Update(topic, r));
  }

  lemma UpdateLogged(c: Client, topic: string, r: Record)
    requires LogOk(c)
    ensures LogOk(QueueUpdate(c, topic, r))
  {
    hide Join, Leaves, Render, EncRecord, Texts, Records, TextsIn, UpdatesIn;
    var x := Update(topic, r);
    var l := if Leaves(BINARY, c.binary, |EncRecord(r)|) then UpdatesLeave(c.log) else c.log;
    LeavingKeeps(c.log);
    NothingWaits();
    OneMoreIn(c.queue, x);
    Bytes.Regroup(UpdatesIn(l.wire), l.updates, [x]);
    RecordsMore(l.updates, topic, r);
  }

  lemma FlushesLogged(c: Client)
    requires LogOk(c)
    ensures LogOk(FlushText(c)) && LogOk(FlushBinary(c))
  {
    hide Join, Texts, Records, TextsIn, UpdatesIn;
    LeavingKeeps(c.log);
    NothingWaits();
  }

  /** A text message in the queue and in the cache. */
  lemma TextCached(c: Client, t: Text)
    requires CachesOk(c)
    ensures CachesOk(QueueText(c, t))
  {
    hide Put, Items, Good, Render, LogOk, Leaves;
    TextLogged(c, t);
    Last(c.queue, TextMessage(t));
    PutKeeps(TEXT, c.text, Render(t));
  }

  lemma UpdateCached(c: Client, topic: string, r: Record)
    requires CachesOk(c)
    ensures CachesOk(QueueUpdate(c, topic, r))
  {
    hide Put, Items, Good, EncRecord, LogOk, Leaves;
    UpdateLogged(c, topic, r);
    Last(c.queue, Update(topic, r));
    PutKeeps(BINARY, c.binary, EncRecord(r));
  }

  /** Queueing a property update. */
  lemma NotifyKeeps(c: Client, t: Topic, ack: bool, topics: map<string, Topic>)
    requires ClientOk(c, topics)
    ensures ClientOk(Notify(c, t, ack), topics) && Follows(c, Notify(c, t, ack))
  {
    hide Put, CachesOk, IsSubscribed, Render, Leaves;
    var x := PropertyUpdate(t.name, ack, t.properties);
    TextCached(c, x);
    Last(c.queue, TextMessage(x));
  }

  lemma FlushesKeep(c: Client, topics: map<string, Topic>)
    requires ClientOk(c, topics)
    ensures ClientOk(FlushText(c), topics) && Follows(c, FlushText(c)) && FlushText(c).text.cached == []
    ensures ClientOk(FlushBinary(c), topics) && Follows(c, FlushBinary(c)) && FlushBinary(c).binary.cached == []
  {
    hide Flush, Leaves, Items, Good, Agrees, Orderly, Bindings, Updated, Texts, Records, LogOk;
    FlushesLogged(c);
    FlushKeeps(TEXT, c.text, MAX_CACHE);
    FlushKeeps(BINARY, c.binary, MAX_CACHE);
    FlushAllEmpties(TEXT, c.text);
    FlushAllEmpties(BINARY, c.binary);
  }

  // ------------------------------------------------------------ announcing

  lemma WithIdKeeps(c: Client, name: string)
    requires IdsOk(c)
    ensures IdsOk(WithId(c, name))
  {
  }

  /** An announcement of a name under the id it has in the new table. */
  lemma AnnounceBinds(c: Client, name: string, x: Queued)
    requires IdsOk(c) && HistoryOk(c)
    requires x.TextMessage? && x.text.Announce? && x.text.name == name && x.text.id == WithId(c, name).topicData[name].id
    ensures Orderly(c.queue + [x])
    ensures Bindings(c.queue + [x]) == Ids(WithId(c, name).topicData)
    ensures Updated(c.queue + [x]) == Published(WithId(c, name).topicData)
  {
    var d := WithId(c, name);
    Last(c.queue, x);
    assert FitsAfter(Bindings(c.queue), x);
    assert Ids(c.topicData)[name := x.text.id] == Ids(d.topicData);
    assert Published(d.topicData) == Published(c.topicData);
  }

  /** The announcement is consistent with the history before it. */
  lemma AnnounceFits(c: Client, t: Topic, pubuid: Maybe<int>)
    requires IdsOk(c) && HistoryOk(c)
    ensures var d := WithId(c, t.name); HistoryOk(QueueText(d, AnnounceText(d, t, pubuid)))
  {
    hide Put, Render, Orderly, Bindings, Updated, Ids, Published, WithId;
    var d := WithId(c, t.name);
    SameQueue(c, t.name);
    AnnounceBinds(c, t.name, TextMessage(AnnounceText(d, t, pubuid)));
  }

  lemma SameQueue(c: Client, name: string)
    ensures WithId(c, name).queue == c.queue
  {
  }

  lemma WithIdFollows(c: Client, name: string)
    ensures Follows(c, WithId(c, name))
    ensures WithId(c, name).topicData.Keys == c.topicData.Keys + {name}
    ensures CachesOk(c) ==> CachesOk(WithId(c, name))
  {
    hide Put, Good, Items, Texts, Records;
  }

  lemma QueueFollows(c: Client, d: Client, t: Text)
    requires Follows(c, d)
    ensures Follows(c, QueueText(d, t))
  {
    hide Put, Render;
  }

  lemma AnnounceKeeps(c: Client, t: Topic, pubuid: Maybe<int>, topics: map<string, Topic>)
    requires ClientOk(c, topics) && t.name in topics && TypeOf(t.value) == TypeOf(topics[t.name].value)
    ensures var d := AnnounceTopic(c, t, pubuid);
            ClientOk(d, topics) && Follows(c, d) && t.name in d.topicData
  {
    hide WithId, CachesOk, HistoryOk, TypeName, Put, Render, Follows;
    WithIdFollows(c, t.name);
    FollowsItself(c);
    var d := WithId(c, t.name);
    SameQueue(c, t.name);
    if !(t.name in c.topicData && pubuid.Nothing?) {
      WithIdKeeps(c, t.name);
      AnnounceFits(c, t, pubuid);
      TextCached(d, AnnounceText(d, t, pubuid));
      QueueFollows(c, d, AnnounceText(d, t, pubuid));
    }
  }

  lemma FollowsItself(c: Client)
    ensures Follows(c, c)
  {
  }

  lemma SameCaches(c: Client, d: Client)
    requires CachesOk(c) && d.text == c.text && d.binary == c.binary && d.queue == c.queue && d.log == c.log
    ensures CachesOk(d)
  {
  }

  // ------------------------------------------------------------ sending updates

  lemma UpdateFits(c: Client, t: Topic, time: nat)
    requires IdsOk(c) && HistoryOk(c) && t.name in c.topicData
    ensures IdsOk(SendUpdate(c, t, time)) && HistoryOk(SendUpdate(c, t, time))
  {
    hide Put, EncRecord;
    var d := SendUpdate(c, t, time);
    var x := Update(t.name, RecordOf(c.topicData[t.name].id, time, t.value));
    Last(c.queue, x);
    assert t.name in Ids(c.topicData);
    assert Ids(d.topicData) == Ids(c.topicData);
    assert Published(d.topicData) == Published(c.topicData) + {t.name};
  }

  lemma SendKeeps(c: Client, t: Topic, time: nat, topics: map<string, Topic>)
    requires ClientOk(c, topics) && t.name in c.topicData && TypeOf(t.value) == TypeOf(topics[t.name].value)
    ensures ClientOk(SendUpdate(c, t, time), topics) && Follows(c, SendUpdate(c, t, time))
  {
    hide Put, CachesOk, EncRecord, Orderly, Bindings, Updated, HistoryOk;
    UpdateFits(c, t, time);
    var data := c.topicData[t.name];
    var d := c.(topicData := c.topicData[t.name := data.(initialPublish := true)]);
    assert CachesOk(d) by { SameCaches(c, d); }
    UpdateCached(d, t.name, RecordOf(data.id, time, t.value));
  }

  lemma FanOutKeeps(c: Client, t: Topic, time: nat, topics: map<string, Topic>)
    requires ClientOk(c, topics) && t.name in topics && TypeOf(t.value) == TypeOf(topics[t.name].value)
    ensures ClientOk(FanOut(c, t, time), topics) && Follows(c, FanOut(c, t, time))
    ensures FanOut(c, t, time).topicData.Keys == c.topicData.Keys
  {
    hide ClientOk, IsSubscribed;
    if WantsUpdate(c, t.name) {
      SendKeeps(c, t, time, topics);
    }
  }

  // ------------------------------------------------------------ loops over topics

  lemma FollowsTwice(c: Client, d: Client, e: Client)
    requires Follows(c, d) && Follows(d, e)
    ensures Follows(c, e)
  {
  }

  predicate NamedRight(topics: map<string, Topic>) {
    forall n :: n in topics ==> topics[n].name == n
  }

  /** Afterwards every cached topic of the order that the client subscribes to is announced. */
  lemma {:induction false} AnnounceCachedKeeps(c: Client, topics: map<string, Topic>, order: seq<string>)
    requires ClientOk(c, topics) && NamedRight(topics)
    ensures var d := AnnounceCached(c, topics, order);
            ClientOk(d, topics) && Follows(c, d) &&
            (forall n | n in order && n in topics && topics[n].properties.cached &&
                        IsSubscribed(c.subscriptions, n, false) :: n in d.topicData)
  {
    hide ClientOk, IsSubscribed, AnnounceTopic;
    if order == [] {
    } else {
      var init, n := order[..|order| - 1], order[|order| - 1];
      AnnounceCachedKeeps(c, topics, init);
      var d := AnnounceCached(c, topics, init);
      if n in topics {
        AnnounceKeeps(d, topics[n], Nothing, topics);
      }
      assert order == init + [n];
      FollowsTwice(c, d, AnnounceCached(c, topics, order));
    }
  }

  /** Afterwards every topic of the order that is announced and whose values the client subscribes to has had
      a value queued. */
  lemma {:induction false} PublishInitialKeeps(c: Client, topics: map<string, Topic>, order: seq<string>, time: nat)
    requires ClientOk(c, topics) && NamedRight(topics)
    ensures var d := PublishInitial(c, topics, order, time);
            ClientOk(d, topics) && Follows(c, d) && d.topicData.Keys == c.topicData.Keys &&
            (forall n | n in order && n in c.topicData && IsSubscribed(c.subscriptions, n, true) ::
               d.topicData[n].initialPublish)
  {
    hide ClientOk, IsSubscribed, SendUpdate;
    if order == [] {
    } else {
      var init, n := order[..|order| - 1], order[|order| - 1];
      PublishInitialKeeps(c, topics, init, time);
      var d := PublishInitial(c, topics, init, time);
      InitialOneKeeps(d, topics, n, time);
      assert order == init + [n];
      FollowsTwice(c, d, PublishInitial(c, topics, order, time));
    }
  }

  lemma InitialOneKeeps(d: Client, topics: map<string, Topic>, n: string, time: nat)
    requires ClientOk(d, topics) && NamedRight(topics)
    ensures var e := InitialOne(d, topics, n, time);
            ClientOk(e, topics) && Follows(d, e) && e.topicData.Keys == d.topicData.Keys &&
            (n in d.topicData && IsSubscribed(d.subscriptions, n, true) ==> e.topicData[n].initialPublish)
  {
    hide HistoryOk, IdsOk, CachesOk, IsSubscribed, Put, Agrees;
    if n in d.topicData && n in topics {
      SendKeeps(d, topics[n], time, topics);
    }
  }

  lemma NewClientOk(name: string, topics: map<string, Topic>)
    ensures ClientOk(NewClient(name), topics)
  {
  }

  // ------------------------------------------------------------ what a history says

  /** A name that is bound was announced with that id. */
  lemma {:induction false} BoundWasAnnounced(queue: seq<Queued>, name: string)
    requires name in Bindings(queue)
    ensures exists q :: 0 <= q < |queue| && queue[q].TextMessage? && queue[q].text.Announce? &&
                        queue[q].text.name == name && queue[q].text.id == Bindings(queue)[name]
  {
    var last := queue[|queue| - 1];
    if !(last.TextMessage? && last.text.Announce? && last.text.name == name) {
      BoundWasAnnounced(queue[..|queue| - 1], name);
      var q :| 0 <= q < |queue| - 1 && queue[q].TextMessage? && queue[q].text.Announce? &&
               queue[q].text.name == name && queue[q].text.id == Bindings(queue[..|queue| - 1])[name];
    }
  }

  lemma {:induction false} OrderlyPrefix(queue: seq<Queued>, p: nat)
    requires Orderly(queue) && p < |queue|
    ensures FitsAfter(Bindings(queue[..p]), queue[p])
  {
    if p < |queue| - 1 {
      OrderlyPrefix(queue[..|queue| - 1], p);
      assert queue[..|queue| - 1][..p] == queue[..p];
    }
  }

  /** Every update that was ever queued came after an announcement, to the same client, of its topic under
      its id. */
  lemma AnnouncedBeforeUpdate(c: Client, topics: map<string, Topic>, p: nat)
    requires ClientOk(c, topics) && p < |c.queue| && c.queue[p].Update?
    ensures exists q :: 0 <= q < p && c.queue[q].TextMessage? && c.queue[q].text.Announce? &&
                        c.queue[q].text.name == c.queue[p].topic && c.queue[q].text.id == c.queue[p].record.id
  {
    OrderlyPrefix(c.queue, p);
    BoundWasAnnounced(c.queue[..p], c.queue[p].topic);
    var q :| 0 <= q < p && c.queue[..p][q].TextMessage? && c.queue[..p][q].text.Announce? &&
             c.queue[..p][q].text.name == c.queue[p].topic && c.queue[..p][q].text.id == c.queue[p].record.id;
    assert c.queue[q] == c.queue[..p][q];
  }

  /** An announcement stays bound: later announcements of the same name have the same id, those of other
      names another one. */
  lemma {:induction false} BindingsLast(queue: seq<Queued>, q: nat)
    requires Orderly(queue) && q < |queue| && queue[q].TextMessage? && queue[q].text.Announce?
    ensures queue[q].text.name in Bindings(queue) && Bindings(queue)[queue[q].text.name] == queue[q].text.id
  {
    if q < |queue| - 1 {
      BindingsLast(queue[..|queue| - 1], q);
    }
  }

  /** Two announcements to a client, ever, have the same id exactly when they are of the same topic. */
  lemma IdsAreStable(c: Client, topics: map<string, Topic>, p: nat, q: nat)
    requires ClientOk(c, topics) && p < |c.queue| && q < |c.queue|
    requires c.queue[p].TextMessage? && c.queue[p].text.Announce? && c.queue[q].TextMessage? && c.queue[q].text.Announce?
    ensures c.queue[p].text.name == c.queue[q].text.name <==> c.queue[p].text.id == c.queue[q].text.id
    ensures c.queue[p].text.id < c.nextTopicId
  {
    BindingsLast(c.queue, p);
    BindingsLast(c.queue, q);
    assert c.queue[p].text.name in Ids(c.topicData) && c.queue[q].text.name in Ids(c.topicData);
  }

  lemma {:induction false} UpdatedIff(queue: seq<Queued>, name: string)
    ensures name in Updated(queue) <==> exists p :: 0 <= p < |queue| && queue[p].Update? && queue[p].topic == name
  {
    if queue == [] {
    } else {
      var init := queue[..|queue| - 1];
      UpdatedIff(init, name);
      assert forall p :: 0 <= p < |init| ==> queue[p] == init[p];
    }
  }

  /** initialPublish is set exactly when an update of the topic has been queued. */
  lemma InitialPublishIff(c: Client, topics: map<string, Topic>, name: string)
    requires ClientOk(c, topics) && name in c.topicData
    ensures c.topicData[name].initialPublish <==>
            exists p :: 0 <= p < |c.queue| && c.queue[p].Update? && c.queue[p].topic == name
  {
    UpdatedIff(c.queue, name);
    assert name in Published(c.topicData) <==> c.topicData[name].initialPublish;
  }

  /** The code of an update is the code of the type that its topic was announced with. */
  lemma AnnouncedType(c: Client, topics: map<string, Topic>, p: nat, q: nat)
    requires ClientOk(c, topics) && p < |c.queue| && q < |c.queue|
    requires c.queue[q].TextMessage? && c.queue[q].text.Announce? && c.queue[p].Update?
    requires c.queue[q].text.name == c.queue[p].topic
    requires c.queue[p].topic in topics && Known(TypeOf(topics[c.queue[p].topic].value))
    ensures ApiCode(ParseTypeName(c.queue[q].text.typeName)) == c.queue[p].record.code
  {
    hide TypeName, ParseTypeName;
    assert Agrees(c.queue[p], topics) && Agrees(c.queue[q], topics);
    NameGivesCode(TypeOf(topics[c.queue[p].topic].value));
  }
}
