/** The order in which frames leave for a client: when an update comes before the announcement of its topic. */
module NtWire {
  import opened NtValues
  import opened Batching
  import opened Maybes
  import opened NtClient
  import opened NtClientLaws
  import opened NtServer
  import opened NtServerInvariant

  /** Every update comes after an announcement of its topic under its id. */
  predicate WireOrdered(wire: seq<Queued>) {
    wire == [] ||
    (WireOrdered(wire[..|wire| - 1]) &&
     match wire[|wire| - 1]
     case TextMessage(_) => true
     case Update(n, r) => var b := Bindings(wire[..|wire| - 1]); n in b && b[n] == r.id)
  }

  /** The announcement of a topic is still in the text cache, and none has left before. */
  predicate AnnouncementWaits(l: Log, n: string) {
    n in Bindings(l.texts) && n !in Bindings(l.wire)
  }

  // ------------------------------------------------------------ bindings of parts of a queue

  lemma {:induction false} BindingsMore(a: seq<Queued>, b: seq<Queued>)
    ensures Bindings(a + b) == Bindings(a) + Bindings(b)
    decreases |b|
  {
    if b == [] {
      assert a + b == a;
    } else {
      assert (a + b)[..|a + b| - 1] == a + b[..|b| - 1];
      BindingsMore(a, b[..|b| - 1]);
    }
  }

  lemma {:induction false} BindingsOfTexts(queue: seq<Queued>)
    ensures Bindings(queue) == Bindings(TextsIn(queue))
  {
    if queue == [] {
    } else {
      var init, x := queue[..|queue| - 1], queue[|queue| - 1];
      BindingsOfTexts(init);
      if x.TextMessage? {
        Last(TextsIn(init), x);
      }
    }
  }

  lemma UpdatesBindNothing(us: seq<Queued>)
    requires forall x :: x in us ==> x.Update?
    ensures Bindings(us) == map[]
  {
    AllOfAKind(us);
    BindingsOfTexts(us);
    assert Bindings([]) == map[];
  }

  /** What a client knows from its queue, it knows from the wire or the waiting texts. */
  lemma BindingsSplit(c: Client)
    requires LogOk(c)
    ensures Bindings(c.queue) == Bindings(c.log.wire) + Bindings(c.log.texts)
  {
    hide Texts, Records, Bindings;
    BindingsOfTexts(c.queue);
    BindingsMore(TextsIn(c.log.wire), c.log.texts);
    BindingsOfTexts(c.log.wire);
  }

  /** Bindings of texts taken from an orderly queue are those of the queue. */
  lemma {:induction false} PartBinds(part: seq<Queued>, all: map<string, nat>, n: string)
    requires forall x :: x in part && x.TextMessage? && x.text.Announce? ==> x.text.name in all && all[x.text.name] == x.text.id
    requires n in Bindings(part)
    ensures n in all && Bindings(part)[n] == all[n]
  {
    var x := part[|part| - 1];
    assert x in part;
    if !(x.TextMessage? && x.text.Announce? && x.text.name == n) {
      PartBinds(part[..|part| - 1], all, n);
    }
  }

  lemma {:induction false} KindsAreIn(queue: seq<Queued>, x: Queued)
    ensures x in TextsIn(queue) <==> x in queue && x.TextMessage?
    ensures x in UpdatesIn(queue) <==> x in queue && x.Update?
  {
    if queue == [] {
    } else {
      KindsAreIn(queue[..|queue| - 1], x);
      assert queue == queue[..|queue| - 1] + [queue[|queue| - 1]];
    }
  }

  lemma WireAnnouncesBind(c: Client, n: string)
    requires Orderly(c.queue) && LogOk(c) && n in Bindings(c.log.wire)
    ensures n in Bindings(c.queue) && Bindings(c.log.wire)[n] == Bindings(c.queue)[n]
  {
    hide Texts, Records, Bindings, Orderly, TextsIn;
    forall x | x in c.log.wire && x.TextMessage? && x.text.Announce?
      ensures x.text.name in Bindings(c.queue) && Bindings(c.queue)[x.text.name] == x.text.id
    {
      KindsAreIn(c.log.wire, x);
      assert x in TextsIn(c.log.wire) + c.log.texts;
      KindsAreIn(c.queue, x);
      var q :| 0 <= q < |c.queue| && c.queue[q] == x;
      BindingsLast(c.queue, q);
    }
    PartBinds(c.log.wire, Bindings(c.queue), n);
  }

  lemma {:induction false} UpdateIsBound(queue: seq<Queued>, x: Queued)
    requires Orderly(queue) && x in queue && x.Update?
    ensures x.topic in Bindings(queue) && Bindings(queue)[x.topic] == x.record.id
  {
    var init, y := queue[..|queue| - 1], queue[|queue| - 1];
    if x in init {
      UpdateIsBound(init, x);
    }
  }

  // ------------------------------------------------------------ what keeps the wire in order

  lemma {:induction false} OrderedMore(wire: seq<Queued>, more: seq<Queued>)
    requires WireOrdered(wire) && (forall x :: x in more ==> x.Update?)
    ensures WireOrdered(wire + more) <==>
            forall x :: x in more ==> x.topic in Bindings(wire) && Bindings(wire)[x.topic] == x.record.id
    decreases |more|
  {
    if more == [] {
      assert wire + more == wire;
    } else {
      var init, x := more[..|more| - 1], more[|more| - 1];
      assert more == init + [x];
      assert (wire + more)[..|wire + more| - 1] == wire + init && (wire + more)[|wire + more| - 1] == x;
      OrderedMore(wire, init);
      BindingsMore(wire, init);
      UpdatesBindNothing(init);
      assert Bindings(wire) + map[] == Bindings(wire);
    }
  }

  lemma {:induction false} OrderedTexts(wire: seq<Queued>, more: seq<Queued>)
    requires WireOrdered(wire) && (forall x :: x in more ==> x.TextMessage?)
    ensures WireOrdered(wire + more)
    decreases |more|
  {
    if more == [] {
      assert wire + more == wire;
    } else {
      var init, x := more[..|more| - 1], more[|more| - 1];
      assert x in more;
      assert (wire + more)[..|wire + more| - 1] == wire + init && (wire + more)[|wire + more| - 1] == x;
      OrderedTexts(wire, init);
    }
  }

  /** Text leaving never breaks the order on the wire. */
  lemma TextKeepsOrder(c: Client, topics: map<string, Topic>)
    requires ClientOk(c, topics) && WireOrdered(c.log.wire)
    ensures WireOrdered(TextsLeave(c.log).wire)
  {
    hide WireOrdered, Orderly, Bindings, Texts, Records;
    OrderedTexts(c.log.wire, c.log.texts);
  }

  /** Exactly when the binary cache may leave, by a flush or because it is full: the order on the wire is kept if
      and only if no topic with an update in the cache still has its announcement waiting in the text cache. */
  lemma BinaryKeepsOrderIff(c: Client, topics: map<string, Topic>)
    requires ClientOk(c, topics) && WireOrdered(c.log.wire)
    ensures WireOrdered(UpdatesLeave(c.log).wire) <==> forall x :: x in c.log.updates ==> !AnnouncementWaits(c.log, x.topic)
  {
    hide WireOrdered, Orderly, Bindings, Texts, Records, Updated, Ids, Published, Agrees;
    OrderedMore(c.log.wire, c.log.updates);
    BindingsSplit(c);
    forall x | x in c.log.updates
      ensures x.topic in Bindings(c.log.wire) && Bindings(c.log.wire)[x.topic] == x.record.id
              <==> !AnnouncementWaits(c.log, x.topic)
    {
      assert x in UpdatesIn(c.log.wire) + c.log.updates;
      KindsAreIn(c.queue, x);
      UpdateIsBound(c.queue, x);
      if x.topic in Bindings(c.log.wire) {
        WireAnnouncesBind(c, x.topic);
      }
    }
  }

  lemma {:induction false} TextsAreThere(texts: seq<Queued>)
    requires forall x :: x in texts ==> x.TextMessage?
    ensures |Texts(texts)| == |texts|
  {
    if texts == [] {
    } else {
      assert texts[|texts| - 1] in texts;
      TextsAreThere(texts[..|texts| - 1]);
    }
  }

  lemma NoTextNoWaiting(c: Client)
    requires LogOk(c) && c.text.cached == []
    ensures c.log.texts == [] && forall n :: !AnnouncementWaits(c.log, n)
  {
    TextsAreThere(c.log.texts);
  }

  /** Once the text cache has left, updates may leave in any way. */
  lemma SafeWithoutText(c: Client, topics: map<string, Topic>)
    requires ClientOk(c, topics) && WireOrdered(c.log.wire) && c.text.cached == []
    ensures WireOrdered(UpdatesLeave(c.log).wire) && WireOrdered(FlushBinary(c).log.wire)
  {
    hide WireOrdered, IdsOk, HistoryOk, TopicsOk, Texts, Records, TextsIn, UpdatesIn, Good, Items;
    BinaryKeepsOrderIff(c, topics);
    NoTextNoWaiting(c);
  }

  lemma SendKeepsOrder(c: Client, t: Topic, time: nat, topics: map<string, Topic>)
    requires ClientOk(c, topics) && WireOrdered(c.log.wire) && c.text.cached == [] && t.name in c.topicData
    ensures WireOrdered(SendUpdate(c, t, time).log.wire) && SendUpdate(c, t, time).text.cached == []
  {
    hide WireOrdered, ClientOk, Put, Leaves, EncRecord;
    SafeWithoutText(c, topics);
  }

  lemma {:induction false} InitialKeepsOrder(c: Client, topics: map<string, Topic>, order: seq<string>, time: nat)
    requires ClientOk(c, topics) && NamedRight(topics) && WireOrdered(c.log.wire) && c.text.cached == []
    ensures var d := PublishInitial(c, topics, order, time); WireOrdered(d.log.wire) && d.text.cached == []
  {
    hide WireOrdered, ClientOk, SendUpdate, IsSubscribed;
    if order == [] {
    } else {
      var init, n := order[..|order| - 1], order[|order| - 1];
      InitialKeepsOrder(c, topics, init, time);
      PublishInitialKeeps(c, topics, init, time);
      var d := PublishInitial(c, topics, init, time);
      if n in d.topicData && n in topics && topics[n].name == n {
        SendKeepsOrder(d, topics[n], time, topics);
      }
    }
  }

  lemma FlushTextKeepsOrder(c: Client, topics: map<string, Topic>)
    requires ClientOk(c, topics) && WireOrdered(c.log.wire)
    ensures WireOrdered(FlushText(c).log.wire)
  {
    hide WireOrdered, ClientOk, FlushAll, Leaves;
    TextKeepsOrder(c, topics);
  }

  /** What the end of a text frame does for the sender of the frame or for another client. */
  function AfterFrame(c: Client, topics: map<string, Topic>, order: seq<string>, time: nat, sender: bool): Client {
    var d := FlushText(c);
    FlushBinary(if sender then PublishInitial(d, topics, order, time) else d)
  }

  lemma AfterFrameKeepsOrder(c: Client, topics: map<string, Topic>, order: seq<string>, time: nat, sender: bool)
    requires ClientOk(c, topics) && NamedRight(topics) && WireOrdered(c.log.wire)
    ensures WireOrdered(AfterFrame(c, topics, order, time, sender).log.wire)
  {
    hide WireOrdered, ClientOk, FlushText, FlushBinary, PublishInitial, Follows, IsSubscribed;
    FlushesKeep(c, topics);
    FlushTextKeepsOrder(c, topics);
    var d := FlushText(c);
    if sender {
      PublishInitialKeeps(d, topics, order, time);
      InitialKeepsOrder(d, topics, order, time);
      SafeWithoutText(PublishInitial(d, topics, order, time), topics);
    } else {
      SafeWithoutText(d, topics);
    }
  }

  /** The end of a text frame keeps the order on the wire for every client. */
  lemma EndOfTextKeepsOrder(env: Env, s: Server, g: Guid, h: Guid)
    requires Inv(s, Nothing) && h in s.clients && WireOrdered(s.clients[h].log.wire)
    ensures h in EndOfText(env, s, g).clients && WireOrdered(EndOfText(env, s, g).clients[h].log.wire)
  {
    hide WireOrdered, ClientOk, FlushText, FlushBinary, PublishInitial, Complete;
    AfterFrameKeepsOrder(s.clients[h], s.topics, env.order, env.now, h == g);
  }
}
