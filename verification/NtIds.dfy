/** The ids that a client is given for its topics: 0, 1, 2 and so on, in the order of their first announcements. */
module NtIds {
  import opened Maybes
  import opened Batching
  import opened NtValues
  import opened NtClient
  import opened NtServer
  import opened NtClientRules

  /** The topics announced. */
  function Announced(queue: seq<Queued>): set<string> {
    if queue == [] then {}
    else
      var names := Announced(queue[..|queue| - 1]);
      match queue[|queue| - 1]
      case TextMessage(Announce(name, _, _, _, _)) => names + {name}
      case _ => names
  }

  /** The first announcement of a topic gives it the number of topics announced before. */
  predicate Numbered(queue: seq<Queued>) {
    queue == [] ||
    (Numbered(queue[..|queue| - 1]) &&
     match queue[|queue| - 1]
     case TextMessage(Announce(name, id, _, _, _)) =>
       var before := Announced(queue[..|queue| - 1]);
       name !in before ==> id == |before|
     case _ => true)
  }

  predicate Numbers(c: Client) {
    Numbered(c.queue) && c.topicData.Keys == Announced(c.queue) && c.nextTopicId == |c.topicData|
  }

  lemma OneMoreQueued(queue: seq<Queued>, x: Queued)
    ensures (queue + [x])[..|queue|] == queue && (queue + [x])[|queue|] == x
  {
  }

  lemma AnnounceNumbers(c: Client, t: Topic, pubuid: Maybe<int>)
    requires Numbers(c)
    ensures Numbers(AnnounceTopic(c, t, pubuid))
  {
    hide Put, Leaves, Render;
    var d := WithId(c, t.name);
    OneMoreQueued(c.queue, TextMessage(AnnounceText(d, t, pubuid)));
    assert d.topicData.Keys == c.topicData.Keys + {t.name};
  }

  lemma QueuedNumbers(c: Client, t: Text, name: string, r: Record)
    requires Numbers(c)
    ensures t.PropertyUpdate? ==> Numbers(QueueText(c, t))
    ensures Numbers(QueueUpdate(c, name, r))
  {
    hide Put, Leaves, Render, EncRecord;
    OneMoreQueued(c.queue, TextMessage(t));
    OneMoreQueued(c.queue, Update(name, r));
  }

  lemma SendNumbers(c: Client, t: Topic, time: nat)
    requires Numbers(c) && t.name in c.topicData
    ensures Numbers(SendUpdate(c, t, time))
  {
    hide QueueUpdate, Numbered, Announced;
    var data := c.topicData[t.name];
    var d := c.(topicData := c.topicData[t.name := data.(initialPublish := true)]);
    assert d.topicData.Keys == c.topicData.Keys;
    QueuedNumbers(d, PropertyUpdate("", false, t.properties), t.name, RecordOf(data.id, time, t.value));
  }

  lemma OperationsNumber(c: Client, t: Topic, time: nat, ack: bool)
    requires Numbers(c)
    ensures Numbers(FanOut(c, t, time)) && Numbers(Notify(c, t, ack))
  {
    hide Numbers, QueueText, SendUpdate, IsSubscribed;
    if WantsUpdate(c, t.name) { SendNumbers(c, t, time); }
    QueuedNumbers(c, PropertyUpdate(t.name, ack, t.properties), "", Record(0, 0, 0, BoolV(false)));
  }

  lemma InitialNumbers(c: Client, topics: map<string, Topic>, n: string, time: nat)
    requires Numbers(c)
    ensures Numbers(InitialOne(c, topics, n, time))
  {
    hide Numbers, SendUpdate, IsSubscribed;
    if n in c.topicData && n in topics && topics[n].name == n { SendNumbers(c, topics[n], time); }
  }

  lemma NumbersKept()
    ensures KeptByQueueing(Numbers, (name: string) => true)
    ensures KeptByMaps(Numbers, (sub: Subscription) => true)
  {
    hide Numbers, FanOut, AnnounceTopic, Notify, InitialOne, IsSubscribed, FlushText, FlushBinary;
    forall c: Client, t: Topic, time: nat | Numbers(c) ensures Numbers(FanOut(c, t, time)) { OperationsNumber(c, t, time, true); }
    forall c: Client, t: Topic, u: Maybe<int> | Numbers(c) ensures Numbers(AnnounceTopic(c, t, u)) { AnnounceNumbers(c, t, u); }
    forall c: Client, t: Topic, ack: bool | Numbers(c) ensures Numbers(Notify(c, t, ack)) { OperationsNumber(c, t, 0, ack); }
    forall c: Client, topics: map<string, Topic>, n: string, time: nat | Numbers(c) ensures Numbers(InitialOne(c, topics, n, time)) {
      InitialNumbers(c, topics, n, time);
    }
    OtherFieldsDoNotCount();
  }

  lemma OtherFieldsDoNotCount()
    ensures forall c: Client {:trigger FlushText(c)} :: Numbers(c) ==> Numbers(FlushText(c))
    ensures forall c: Client {:trigger FlushBinary(c)} :: Numbers(c) ==> Numbers(FlushBinary(c))
    ensures forall c: Client, subs {:trigger c.(subscriptions := subs)} :: Numbers(c) ==> Numbers(c.(subscriptions := subs))
    ensures forall c: Client, pubs {:trigger c.(publishers := pubs)} :: Numbers(c) ==> Numbers(c.(publishers := pubs))
    ensures forall name :: Numbers(NewClient(name))
  {
    hide Numbered, Announced, FlushAll, Leaves;
    NothingQueued();
  }

  lemma NothingQueued()
    ensures Numbered([]) && Announced([]) == {}
  {
  }

  lemma {:induction false} NumberedAt(queue: seq<Queued>, p: nat)
    requires Numbered(queue) && p < |queue|
    ensures match queue[p]
            case TextMessage(Announce(name, id, _, _, _)) => name !in Announced(queue[..p]) ==> id == |Announced(queue[..p])|
            case _ => true
  {
    hide Announced;
    var n := |queue| - 1;
    if p < n {
      NumberedAt(queue[..n], p);
      assert queue[..n][..p] == queue[..p];
    }
  }

  /** In every run: the first announcement of a topic to a client gives it as id the number of topics that were
      announced to that client before. */
  lemma IdsCountUp(enc: Encoders, inputs: seq<Input>, g: Guid, p: nat)
    requires g in Run(enc, inputs).clients && p < |Run(enc, inputs).clients[g].queue|
    ensures var queue := Run(enc, inputs).clients[g].queue;
            match queue[p]
            case TextMessage(Announce(name, id, _, _, _)) => name !in Announced(queue[..p]) ==> id == |Announced(queue[..p])|
            case _ => true
  {
    hide Run, KeptByQueueing, KeptByMaps, Announced, Numbered;
    NumbersKept();
    RunHolds(enc, inputs, g, Numbers, (sub: Subscription) => true, (name: string) => true);
    NumberedAt(Run(enc, inputs).clients[g].queue, p);
  }
}
