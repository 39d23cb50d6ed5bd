/** What the server keeps for one connected client, and everything it can queue for it. */
module NtClient {
  import opened Bytes
  import opened NtValues
  import opened Batching
  import opened Maybes
  import opened Decimals

  datatype Properties = Properties(persistent: bool, retained: bool, cached: bool)

  /** keptCached is history: whether the cached property has been on ever since the topic was created. */
  datatype Topic = Topic(name: string, value: NTValue, properties: Properties, keptCached: bool)

  datatype SubscriptionOptions = SubscriptionOptions(periodic: int, all: bool, topicsonly: bool, prefix: bool)
  datatype Subscription = Subscription(uid: int, topics: seq<string>, options: SubscriptionOptions)
  datatype Publisher = Publisher(uid: int, topic: string)
  datatype TopicData = TopicData(id: nat, initialPublish: bool)

  /** The messages in a text frame to a client. */
  datatype Text =
    | Announce(name: string, id: nat, typeName: string, pubuid: Maybe<int>, properties: Properties)
    | PropertyUpdate(name: string, ack: bool, properties: Properties)

  /** One thing queued for a client. The topic name of an update is not part of its record. */
  datatype Queued = TextMessage(text: Text) | Update(topic: string, record: Record)

  /** What has left for the socket, frame after frame, and what still waits in each of the two caches. */
  datatype Log = Log(wire: seq<Queued>, texts: seq<Queued>, updates: seq<Queued>)

  /** queue and log are history: all that was ever queued, in order, and what became of it. */
  datatype Client = Client(
    name: string,
    subscriptions: map<int, Subscription>,
    publishers: map<int, Publisher>,
    topicData: map<string, TopicData>,
    nextTopicId: nat,
    text: Batch<char>,
    binary: Batch<byte>,
    queue: seq<Queued>,
    log: Log)

  function NewClient(name: string): Client {
    Client(name, map[], map[], map[], 0, Empty(), Empty(), [], Log([], [], []))
  }

  // ------------------------------------------------------------ subscriptions

  predicate IsMeta(name: string) {
    name != "" && name[0] == '$'
  }

  predicate Matches(top: string, prefix: bool, name: string) {
    if prefix then
      if IsMeta(name) then IsMeta(top) && top <= name else top <= name
    else name == top
  }

  /** isSubscribed for one subscription. */
  predicate Covers(sub: Subscription, name: string) {
    exists top :: top in sub.topics && Matches(top, sub.options.prefix, name)
  }

  /** isSubscribed for all subscriptions of a client. */
  predicate IsSubscribed(subs: map<int, Subscription>, name: string, requireNotTopicsOnly: bool) {
    exists uid :: uid in subs && (!requireNotTopicsOnly || !subs[uid].options.topicsonly) && Covers(subs[uid], name)
  }

  // ------------------------------------------------------------ what is written

  function RenderProperties(p: Properties): string {
    "{\"persistent\":" + BoolText(p.persistent) + ",\"retained\":" + BoolText(p.retained) + ",\"cached\":" + BoolText(p.cached) + "}"
  }

  function Render(t: Text): (s: string)
    ensures s != ""
  {
    match t
    case Announce(name, id, typeName, pubuid, p) =>
      "{\"method\":\"announce\",\"params\":{\"name\":\"" + name + "\",\"id\":" + IntText(id) +
      ",\"type\":\"" + typeName + "\"" + (if pubuid.Just? then ",\"pubuid\":" + IntText(pubuid.value) else "") +
      ",\"properties\":" + RenderProperties(p) + "}}"
    case PropertyUpdate(name, ack, p) =>
      "{\"method\":\"properties\",\"params\":{\"name\":\"" + name + "\"" + (if ack then ",\"ack\":true" else "") +
      ",\"update\":" + RenderProperties(p) + "}}"
  }

  // ------------------------------------------------------------ operations

  /** The text cache leaves as a frame. */
  function TextsLeave(l: Log): Log {
    Log(l.wire + l.texts, [], l.updates)
  }

  /** The binary cache leaves as a frame. */
  function UpdatesLeave(l: Log): Log {
    Log(l.wire + l.updates, l.texts, [])
  }

  function QueueText(c: Client, t: Text): Client {
    var l := if Leaves(TEXT, c.text, |Render(t)|) then TextsLeave(c.log) else c.log;
    c.(text := Put(TEXT, c.text, Render(t)), queue := c.queue + [TextMessage(t)],
       log := l.(texts := l.texts + [TextMessage(t)]))
  }

  function QueueUpdate(c: Client, topic: string, r: Record): Client {
    var l := if Leaves(BINARY, c.binary, |EncRecord(r)|) then UpdatesLeave(c.log) else c.log;
    c.(binary := Put(BINARY, c.binary, EncRecord(r)), queue := c.queue + [Update(topic, r)],
       log := l.(updates := l.updates + [Update(topic, r)]))
  }

  /** The id of a topic for this client, a new one if it has none yet. */
  function WithId(c: Client, name: string): (d: Client)
    ensures name in d.topicData
  {
    if name in c.topicData then c
    else c.(topicData := c.topicData[name := TopicData(c.nextTopicId, false)], nextTopicId := c.nextTopicId + 1)
  }

  function AnnounceText(c: Client, t: Topic, pubuid: Maybe<int>): Text
    requires t.name in c.topicData
  {
    Announce(t.name, c.topicData[t.name].id, TypeName(TypeOf(t.value)), pubuid, t.properties)
  }

  /** Both announceTopic functions for one client: without a pubuid a known topic is not announced again. */
  function AnnounceTopic(c: Client, t: Topic, pubuid: Maybe<int>): Client {
    if t.name in c.topicData && pubuid.Nothing? then c
    else
      var d := WithId(c, t.name);
      QueueText(d, AnnounceText(d, t, pubuid))
  }

  /** sendTopicUpdate to one client that has the topic announced. */
  function SendUpdate(c: Client, t: Topic, time: nat): Client
    requires t.name in c.topicData
  {
    var data := c.topicData[t.name];
    var d := c.(topicData := c.topicData[t.name := data.(initialPublish := true)]);
    QueueUpdate(d, t.name, RecordOf(data.id, time, t.value))
  }

  /** Whether an update of this topic goes to the client. */
  predicate WantsUpdate(c: Client, name: string) {
    name in c.topicData && (c.topicData[name].initialPublish || IsSubscribed(c.subscriptions, name, true))
  }

  /** What sendTopicUpdate to everyone does for one client. */
  function FanOut(c: Client, t: Topic, time: nat): Client {
    if WantsUpdate(c, t.name) then SendUpdate(c, t, time) else c
  }

  function Notify(c: Client, t: Topic, ack: bool): Client {
    if IsSubscribed(c.subscriptions, t.name, false)
    then QueueText(c, PropertyUpdate(t.name, ack, t.properties))
    else c
  }

  function FlushText(c: Client): Client {
    c.(text := FlushAll(TEXT, c.text), log := if Leaves(TEXT, c.text, MAX_CACHE) then TextsLeave(c.log) else c.log)
  }

  function FlushBinary(c: Client): Client {
    c.(binary := FlushAll(BINARY, c.binary), log := if Leaves(BINARY, c.binary, MAX_CACHE) then UpdatesLeave(c.log) else c.log)
  }

  /** announceCachedTopics over the topics in some order. */
  function AnnounceCached(c: Client, topics: map<string, Topic>, order: seq<string>): Client {
    if order == [] then c
    else
      var d := AnnounceCached(c, topics, order[..|order| - 1]);
      var n := order[|order| - 1];
      if n in topics && topics[n].properties.cached && IsSubscribed(d.subscriptions, topics[n].name, false)
      then AnnounceTopic(d, topics[n], Nothing) else d
  }

  /** publishInitialValues over the announced topics in some order. */
  function PublishInitial(c: Client, topics: map<string, Topic>, order: seq<string>, time: nat): Client {
    if order == [] then c
    else
      var d := PublishInitial(c, topics, order[..|order| - 1], time);
      InitialOne(d, topics, order[|order| - 1], time)
  }

  function InitialOne(d: Client, topics: map<string, Topic>, n: string, time: nat): Client {
    if n in d.topicData && n in topics && topics[n].name == n && !d.topicData[n].initialPublish &&
       IsSubscribed(d.subscriptions, n, true)
    then SendUpdate(d, topics[n], time) else d
  }

  // ------------------------------------------------------------ the history of a client

  /** The id that each topic name was last announced with. */
  function Bindings(queue: seq<Queued>): map<string, nat> {
    if queue == [] then map[]
    else
      var b := Bindings(queue[..|queue| - 1]);
      match queue[|queue| - 1]
      case TextMessage(Announce(name, id, _, _, _)) => b[name := id]
      case _ => b
  }

  /** The topics that an update was queued for. */
  function Updated(queue: seq<Queued>): set<string> {
    if queue == [] then {}
    else
      var u := Updated(queue[..|queue| - 1]);
      match queue[|queue| - 1]
      case Update(name, _) => u + {name}
      case _ => u
  }

  /** What may come next in a queue: an announcement keeps the id a name already has and never reuses the id
      of another; an update carries the id that its topic is bound to. */
  predicate FitsAfter(b: map<string, nat>, x: Queued) {
    match x
    case TextMessage(Announce(name, id, _, _, _)) =>
      (name in b ==> b[name] == id) && forall n :: n in b && n != name ==> b[n] != id
    case TextMessage(PropertyUpdate(_, _, _)) => true
    case Update(name, r) => name in b && b[name] == r.id
  }

  predicate Orderly(queue: seq<Queued>) {
    queue == [] ||
    (Orderly(queue[..|queue| - 1]) && FitsAfter(Bindings(queue[..|queue| - 1]), queue[|queue| - 1]))
  }

  function Ids(topicData: map<string, TopicData>): map<string, nat> {
    map n | n in topicData :: topicData[n].id
  }

  function Published(topicData: map<string, TopicData>): set<string> {
    set n | n in topicData && topicData[n].initialPublish
  }

  /** An announcement tells the type of the topic; an update has the code of that type. */
  predicate Agrees(x: Queued, topics: map<string, Topic>) {
    match x
    case TextMessage(Announce(name, _, typeName, _, _)) =>
      name in topics && typeName == TypeName(TypeOf(topics[name].value))
    case TextMessage(PropertyUpdate(_, _, _)) => true
    case Update(name, r) => name in topics && r.code == ApiCode(TypeOf(topics[name].value))
  }

  function Texts(queue: seq<Queued>): seq<string> {
    if queue == [] then []
    else
      var ts := Texts(queue[..|queue| - 1]);
      match queue[|queue| - 1]
      case TextMessage(t) => ts + [Render(t)]
      case Update(_, _) => ts
  }

  function Records(queue: seq<Queued>): seq<seq<byte>> {
    if queue == [] then []
    else
      var rs := Records(queue[..|queue| - 1]);
      match queue[|queue| - 1]
      case TextMessage(_) => rs
      case Update(_, r) => rs + [EncRecord(r)]
  }

  /** The ids of a client: below the next one, and different for different topics. */
  predicate IdsOk(c: Client) {
    (forall n :: n in c.topicData ==> c.topicData[n].id < c.nextTopicId) &&
    (forall m, n :: m in c.topicData && n in c.topicData && m != n ==> c.topicData[m].id != c.topicData[n].id)
  }

  /** The fields say what the history says. */
  predicate HistoryOk(c: Client) {
    Orderly(c.queue) && Bindings(c.queue) == Ids(c.topicData) && Updated(c.queue) == Published(c.topicData)
  }

  predicate TopicsOk(c: Client, topics: map<string, Topic>) {
    (forall n :: n in c.topicData ==> n in topics) && (forall x :: x in c.queue ==> Agrees(x, topics))
  }

  /** The text messages in a list of queued things, and the updates in it. */
  function TextsIn(queue: seq<Queued>): seq<Queued> {
    if queue == [] then []
    else
      var ts := TextsIn(queue[..|queue| - 1]);
      if queue[|queue| - 1].TextMessage? then ts + [queue[|queue| - 1]] else ts
  }

  function UpdatesIn(queue: seq<Queued>): seq<Queued> {
    if queue == [] then []
    else
      var us := UpdatesIn(queue[..|queue| - 1]);
      if queue[|queue| - 1].Update? then us + [queue[|queue| - 1]] else us
  }

  /** The log accounts for all that was queued, each kind in its order, and for what is in the caches. */
  predicate LogOk(c: Client) {
    TextsIn(c.log.wire) + c.log.texts == TextsIn(c.queue) &&
    UpdatesIn(c.log.wire) + c.log.updates == UpdatesIn(c.queue) &&
    (forall x :: x in c.log.texts ==> x.TextMessage?) && (forall x :: x in c.log.updates ==> x.Update?) &&
    Texts(c.log.texts) == c.text.cached && Records(c.log.updates) == c.binary.cached
  }

  /** The caches and the frames sent hold exactly what was queued. */
  ghost predicate CachesOk(c: Client) {
    LogOk(c) && Good(TEXT, c.text) && Items(c.text) == Texts(c.queue) &&
    Good(BINARY, c.binary) && Items(c.binary) == Records(c.queue)
  }

  ghost predicate ClientOk(c: Client, topics: map<string, Topic>) {
    IdsOk(c) && HistoryOk(c) && TopicsOk(c, topics) && CachesOk(c)
  }

  /** How a client changes while its subscriptions and publishers stay: announced topics stay announced under
      their ids, values that were sent stay sent, and the queue only grows. */
  predicate Follows(c: Client, d: Client) {
    d.name == c.name && d.subscriptions == c.subscriptions && d.publishers == c.publishers &&
    c.queue <= d.queue &&
    (forall n :: n in c.topicData ==>
       n in d.topicData && d.topicData[n].id == c.topicData[n].id &&
       (c.topicData[n].initialPublish ==> d.topicData[n].initialPublish))
  }
}
