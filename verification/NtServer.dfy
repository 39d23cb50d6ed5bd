/** The server state machine: topics, clients, and one atomic step for each message, connection, record and
    local call. */
module NtServer {
  import opened Bytes
  import opened NtValues
  import opened Maybes
  import opened Decimals
  import opened NtClient

  /** An opaque key. */
  type Guid = nat

  /** failed: an assertion of the program did not hold, and it stopped. */
  datatype Server = Server(
    topics: map<string, Topic>,
    clients: map<Guid, Client>,
    ownSubscriptions: map<int, Subscription>,
    ownPublishers: map<int, Publisher>,
    failed: bool)

  /** What the list of subscribers of a topic is packed from: a name, and the subscriptions that cover the topic. */
  datatype Interest = Interest(name: string, subs: map<int, Subscription>)

  /** What the list of publishers of a topic is packed from: a name, and the publishers of the topic. */
  datatype Supply = Supply(name: string, pubs: map<int, Publisher>)

  /** How the contents of the meta-topics are packed. */
  datatype Encoders = Encoders(
    subscriptions: map<int, Subscription> -> seq<byte>,
    publishers: map<int, Publisher> -> seq<byte>,
    topicSubscriptions: map<Guid, Interest> -> seq<byte>,
    topicPublishers: map<Guid, Supply> -> seq<byte>,
    roster: map<Guid, string> -> seq<byte>)

  /** What a step gets from outside: the packing, the clock, and the order in which its loop over topics
      happens to visit them. */
  datatype Env = Env(enc: Encoders, now: nat, order: seq<string>)

  const META_PROPERTIES := Properties(false, true, true)

  function ClientSub(client: string): string { "$clientsub$" + client }
  function ClientPub(client: string): string { "$clientpub$" + client }
  function TopicSub(topic: string): string { "$sub$" + topic }
  function TopicPub(topic: string): string { "$pub$" + topic }
  const CLIENTS := "$clients"
  const SERVER_SUB := "$serversub"
  const SERVER_PUB := "$serverpub"

  // ------------------------------------------------------------ what the meta-topics are about

  function Names(clients: map<Guid, Client>): map<Guid, string> {
    map g | g in clients :: clients[g].name
  }

  function Interests(clients: map<Guid, Client>, n: string): map<Guid, Interest> {
    map g | g in clients && IsSubscribed(clients[g].subscriptions, n, false) ::
      Interest(clients[g].name, map u | u in clients[g].subscriptions && Covers(clients[g].subscriptions[u], n) :: clients[g].subscriptions[u])
  }

  predicate Publishes(pubs: map<int, Publisher>, n: string) {
    exists u :: u in pubs && pubs[u].topic == n
  }

  function Supplies(clients: map<Guid, Client>, n: string): map<Guid, Supply> {
    map g | g in clients && Publishes(clients[g].publishers, n) ::
      Supply(clients[g].name, map u | u in clients[g].publishers && clients[g].publishers[u].topic == n :: clients[g].publishers[u])
  }

  // ------------------------------------------------------------ building blocks

  /** getOrCreateTopic */
  function Create(s: Server, name: string, value: NTValue, properties: Properties): (t: Server)
    ensures name in t.topics
  {
    if name in s.topics then s
    else s.(topics := s.topics[name := Topic(name, value, properties, properties.cached)])
  }

  /** announceTopic to everyone: to subscribers, and to the publisher with its pubuid. */
  function AnnounceAll(s: Server, name: string, publisher: Maybe<(Guid, int)>): Server
    requires name in s.topics
  {
    s.(clients := map g | g in s.clients :: AnnounceOne(s.clients[g], s.topics[name], g, publisher))
  }

  function AnnounceOne(c: Client, t: Topic, g: Guid, publisher: Maybe<(Guid, int)>): Client {
    if publisher.Just? && publisher.value.0 == g then AnnounceTopic(c, t, Just(publisher.value.1))
    else if IsSubscribed(c.subscriptions, t.name, false) then AnnounceTopic(c, t, Nothing)
    else c
  }

  /** sendTopicUpdate to everyone */
  function FanOutAll(s: Server, name: string, time: nat): Server
    requires name in s.topics
  {
    s.(clients := map g | g in s.clients :: FanOut(s.clients[g], s.topics[name], time))
  }

  /** updateTopicProperties */
  function NotifyAll(s: Server, name: string, updater: Maybe<Guid>): Server
    requires name in s.topics
  {
    s.(clients := map g | g in s.clients :: Notify(s.clients[g], s.topics[name], updater == Just(g)))
  }

  function FlushTextAll(s: Server): Server {
    s.(clients := map g | g in s.clients :: FlushText(s.clients[g]))
  }

  function FlushBinaryAll(s: Server): Server {
    s.(clients := map g | g in s.clients :: FlushBinary(s.clients[g]))
  }

  function WithValue(s: Server, name: string, v: NTValue): Server
    requires name in s.topics
  {
    s.(topics := s.topics[name := s.topics[name].(value := v)])
  }

  /** The end of every update...MetaTopic function: the topic must exist. */
  function SetMeta(env: Env, s: Server, name: string, content: seq<byte>): Server {
    if name !in s.topics then s.(failed := true)
    else FanOutAll(WithValue(s, name, WithBin(s.topics[name].value, content)), name, env.now)
  }

  function UpdateClients(env: Env, s: Server): Server {
    SetMeta(env, s, CLIENTS, env.enc.roster(Names(s.clients)))
  }

  function UpdateServerSub(env: Env, s: Server): Server {
    SetMeta(env, s, SERVER_SUB, env.enc.subscriptions(s.ownSubscriptions))
  }

  function UpdateServerPub(env: Env, s: Server): Server {
    SetMeta(env, s, SERVER_PUB, env.enc.publishers(s.ownPublishers))
  }

  function UpdateClientSub(env: Env, s: Server, g: Guid): Server {
    if g !in s.clients then s
    else SetMeta(env, s, ClientSub(s.clients[g].name), env.enc.subscriptions(s.clients[g].subscriptions))
  }

  function UpdateClientPub(env: Env, s: Server, g: Guid): Server {
    if g !in s.clients then s
    else SetMeta(env, s, ClientPub(s.clients[g].name), env.enc.publishers(s.clients[g].publishers))
  }

  function UpdateTopicSub(env: Env, s: Server, name: string): Server {
    SetMeta(env, s, TopicSub(name), env.enc.topicSubscriptions(Interests(s.clients, name)))
  }

  function UpdateTopicPub(env: Env, s: Server, name: string): Server {
    SetMeta(env, s, TopicPub(name), env.enc.topicPublishers(Supplies(s.clients, name)))
  }

  /** publishTopic without what it does for the meta-topics of the topic. */
  function Introduce(s: Server, name: string, value: NTValue, properties: Properties, publisher: Maybe<(Guid, int)>): Server {
    AnnounceAll(Create(s, name, value, properties), name, publisher)
  }

  function IntroduceMeta(s: Server, name: string): Server {
    Introduce(s, name, BinV(MsgpackBin, []), META_PROPERTIES, Nothing)
  }

  /** publishTopic */
  function PublishTopic(env: Env, s: Server, name: string, value: NTValue, properties: Properties,
                        publisher: Maybe<(Guid, int)>): Server {
    var s1 := Introduce(s, name, value, properties, publisher);
    if IsMeta(name) then s1
    else
      var s2 := IntroduceMeta(s1, TopicSub(name));
      var s3 := IntroduceMeta(s2, TopicPub(name));
      UpdateTopicPub(env, UpdateTopicSub(env, s3, name), name)
  }

  /** The loop that refreshes the subscriber lists of the topics that a subscription covers. */
  function UpdateCovered(env: Env, s: Server, sub: Subscription, order: seq<string>): Server {
    if order == [] then s
    else
      var s1 := UpdateCovered(env, s, sub, order[..|order| - 1]);
      var n := order[|order| - 1];
      if !IsMeta(n) && Covers(sub, n) then UpdateTopicSub(env, s1, n) else s1
  }

  function WithClient(s: Server, g: Guid, c: Client): Server {
    s.(clients := s.clients[g := c])
  }

  // ------------------------------------------------------------ connections

  /** The number in the name of a client, if it was named after this request. */
  function NumberIn(client: string, name: string): Maybe<nat> {
    if |name| < |client| && client[..|name|] == name && client[|name|] == '@' && '@' !in name
    then FromChars(client[|name| + 1..]) else Nothing
  }

  function Numbers(clients: map<Guid, Client>, name: string): set<nat> {
    set g | g in clients && NumberIn(clients[g].name, name).Just? :: NumberIn(clients[g].name, name).value
  }

  /** One more than the greatest of the numbers, at least 1. */
  ghost function Above(numbers: set<nat>): (n: nat)
    ensures n >= 1
    ensures forall k | k in numbers :: k < n
    ensures n == 1 || n - 1 in numbers
  {
    if numbers == {} then 1
    else
      var k :| k in numbers;
      var n := Above(numbers - {k});
      assert numbers == (numbers - {k}) + {k};
      if k < n then n else k + 1
  }

  ghost function NextClientWithName(clients: map<Guid, Client>, name: string): nat {
    Above(Numbers(clients, name))
  }

  ghost function NameFor(clients: map<Guid, Client>, requested: string): string {
    requested + "@" + Digits(NextClientWithName(clients, requested))
  }

  /** The values that a client still waits for. */
  function InitialValues(env: Env, s: Server, g: Guid): Server {
    if g !in s.clients then s
    else WithClient(s, g, PublishInitial(s.clients[g], s.topics, env.order, env.now))
  }

  function FlushTextOf(s: Server, g: Guid): Server {
    if g !in s.clients then s else WithClient(s, g, FlushText(s.clients[g]))
  }

  function FlushBinaryOf(s: Server, g: Guid): Server {
    if g !in s.clients then s else WithClient(s, g, FlushBinary(s.clients[g]))
  }

  function AnnounceCachedTo(env: Env, s: Server, g: Guid): Server {
    if g !in s.clients then s else WithClient(s, g, AnnounceCached(s.clients[g], s.topics, env.order))
  }

  /** clientConnected */
  ghost function Connect(env: Env, s: Server, g: Guid, requested: string): Server {
    var name := NameFor(s.clients, requested);
    var s1 := WithClient(s, g, NewClient(name));
    var s2 := IntroduceMeta(s1, ClientSub(name));
    var s3 := IntroduceMeta(s2, ClientPub(name));
    var s4 := UpdateClients(env, s3);
    var s5 := UpdateClientSub(env, s4, g);
    var s6 := UpdateClientPub(env, s5, g);
    FlushBinaryOf(InitialValues(env, FlushTextOf(s6, g), g), g)
  }

  /** clientDisconnected */
  function Disconnect(env: Env, s: Server, g: Guid): Server {
    if g !in s.clients then s
    else FlushBinaryAll(UpdateClients(env, s.(clients := s.clients - {g})))
  }

  // ------------------------------------------------------------ messages from clients

  function WithSubscriptions(s: Server, g: Guid, subs: map<int, Subscription>): Server
    requires g in s.clients
  {
    WithClient(s, g, s.clients[g].(subscriptions := subs))
  }

  function WithPublishers(s: Server, g: Guid, pubs: map<int, Publisher>): Server
    requires g in s.clients
  {
    WithClient(s, g, s.clients[g].(publishers := pubs))
  }

  function Subscribe(env: Env, s: Server, g: Guid, sub: Subscription): Server {
    if g !in s.clients then s
    else
      var s1 := WithSubscriptions(s, g, s.clients[g].subscriptions[sub.uid := sub]);
      var s2 := UpdateClientSub(env, s1, g);
      var s3 := UpdateCovered(env, s2, sub, env.order);
      AnnounceCachedTo(env, s3, g)
  }

  function Unsubscribe(env: Env, s: Server, g: Guid, subuid: int): Server {
    if g !in s.clients || subuid !in s.clients[g].subscriptions then s
    else
      var sub := s.clients[g].subscriptions[subuid];
      var s1 := WithSubscriptions(s, g, s.clients[g].subscriptions - {subuid});
      UpdateCovered(env, UpdateClientSub(env, s1, g), sub, env.order)
  }

  function Publish(env: Env, s: Server, g: Guid, pubuid: int, name: string, typeName: string, properties: Properties): Server {
    if g !in s.clients then s
    else
      var s1 := WithPublishers(s, g, s.clients[g].publishers[pubuid := Publisher(pubuid, name)]);
      var s2 :=
        if name !in s1.topics
        then PublishTopic(env, s1, name, Default(ParseTypeName(typeName)), properties, Just((g, pubuid)))
        else WithClient(s1, g, AnnounceTopic(s1.clients[g], s1.topics[name], Just(pubuid)));
      UpdateTopicPub(env, UpdateClientPub(env, s2, g), name)
  }

  function Unpublish(env: Env, s: Server, g: Guid, pubuid: int): Server {
    if g !in s.clients || pubuid !in s.clients[g].publishers then s
    else
      var name := s.clients[g].publishers[pubuid].topic;
      var s1 := WithPublishers(s, g, s.clients[g].publishers - {pubuid});
      UpdateTopicPub(env, UpdateClientPub(env, s1, g), name)
  }

  function Or(m: Maybe<bool>, b: bool): bool {
    match m case Nothing => b case Just(v) => v
  }

  function WithProperties(s: Server, name: string, p: Properties): Server
    requires name in s.topics
  {
    var t := s.topics[name];
    s.(topics := s.topics[name := t.(properties := p, keptCached := t.keptCached && p.cached)])
  }

  function SetProperties(s: Server, g: Guid, name: string, persistent: Maybe<bool>, retained: Maybe<bool>,
                         cached: Maybe<bool>): Server {
    if name !in s.topics then s
    else
      var p := s.topics[name].properties;
      var q := Properties(Or(persistent, p.persistent), Or(retained, p.retained), Or(cached, p.cached));
      NotifyAll(WithProperties(s, name, q), name, Just(g))
  }

  /** What follows the last message of a text frame. */
  function EndOfText(env: Env, s: Server, g: Guid): Server {
    FlushBinaryAll(InitialValues(env, FlushTextAll(s), g))
  }

  // ------------------------------------------------------------ values

  /** A 64-bit id used as a 32-bit key. */
  function ToInt32(id: int): int {
    (id + 0x8000_0000) % 0x1_0000_0000 - 0x8000_0000
  }

  function AssignTopic(s: Server, name: string, v: NTValue, time: nat): Server {
    if name !in s.topics then s
    else if !Valid(v) then s.(failed := true)
    else FanOutAll(WithValue(s, name, Assign(s.topics[name].value, v)), name, time)
  }

  /** A record from a client; the id -1 asks for the time and is answered outside the caches. */
  function Value(env: Env, s: Server, g: Guid, id: int, v: NTValue): Server {
    if id == -1 || g !in s.clients then s
    else
      var pubs := s.clients[g].publishers;
      var s1 := if ToInt32(id) in pubs then AssignTopic(s, pubs[ToInt32(id)].topic, v, env.now) else s;
      FlushBinaryAll(s1)
  }

  // ------------------------------------------------------------ calls on the server itself

  function LocalSubscribe(env: Env, s: Server, sub: Subscription): Server {
    UpdateServerSub(env, s.(ownSubscriptions := s.ownSubscriptions[sub.uid := sub]))
  }

  function LocalUnsubscribe(env: Env, s: Server, subuid: int): Server {
    if subuid !in s.ownSubscriptions then s
    else UpdateServerSub(env, s.(ownSubscriptions := s.ownSubscriptions - {subuid}))
  }

  function LocalPublish(env: Env, s: Server, pubuid: int, name: string, t: NTType, properties: Properties): Server {
    var s1 := s.(ownPublishers := s.ownPublishers[pubuid := Publisher(pubuid, name)]);
    var s2 := if name !in s1.topics then PublishTopic(env, s1, name, Default(t), properties, Nothing) else s1;
    UpdateServerPub(env, s2)
  }

  function LocalUnpublish(env: Env, s: Server, pubuid: int): Server {
    if pubuid !in s.ownPublishers then s
    else UpdateServerPub(env, s.(ownPublishers := s.ownPublishers - {pubuid}))
  }

  function LocalSetProperties(s: Server, name: string, p: Properties): Server {
    if name !in s.topics then s else NotifyAll(WithProperties(s, name, p), name, Nothing)
  }

  function LocalUpdate(s: Server, pubuid: int, v: NTValue, time: nat): Server {
    if pubuid !in s.ownPublishers then s else AssignTopic(s, s.ownPublishers[pubuid].topic, v, time)
  }

  // ------------------------------------------------------------ runs

  datatype Event =
    | ConnectEvent(g: Guid, requested: string)
    | DisconnectEvent(g: Guid)
    | SubscribeEvent(g: Guid, sub: Subscription)
    | UnsubscribeEvent(g: Guid, subuid: int)
    | PublishEvent(g: Guid, pubuid: int, name: string, typeName: string, properties: Properties)
    | UnpublishEvent(g: Guid, pubuid: int)
    | SetPropertiesEvent(g: Guid, name: string, persistent: Maybe<bool>, retained: Maybe<bool>, cached: Maybe<bool>)
    | EndOfTextEvent(g: Guid)
    | ValueEvent(g: Guid, id: int, value: NTValue)
    | LocalSubscribeEvent(sub: Subscription)
    | LocalUnsubscribeEvent(subuid: int)
    | LocalPublishEvent(pubuid: int, name: string, t: NTType, properties: Properties)
    | LocalUnpublishEvent(pubuid: int)
    | LocalSetPropertiesEvent(name: string, properties: Properties)
    | LocalUpdateEvent(pubuid: int, value: NTValue, time: nat)
    | FlushEvent

  ghost function Next(env: Env, s: Server, e: Event): Server {
    match e
    case ConnectEvent(g, requested) => Connect(env, s, g, requested)
    case DisconnectEvent(g) => Disconnect(env, s, g)
    case SubscribeEvent(g, sub) => Subscribe(env, s, g, sub)
    case UnsubscribeEvent(g, subuid) => Unsubscribe(env, s, g, subuid)
    case PublishEvent(g, pubuid, name, typeName, p) => Publish(env, s, g, pubuid, name, typeName, p)
    case UnpublishEvent(g, pubuid) => Unpublish(env, s, g, pubuid)
    case SetPropertiesEvent(g, name, p, r, c) => SetProperties(s, g, name, p, r, c)
    case EndOfTextEvent(g) => EndOfText(env, s, g)
    case ValueEvent(g, id, v) => Value(env, s, g, id, v)
    case LocalSubscribeEvent(sub) => LocalSubscribe(env, s, sub)
    case LocalUnsubscribeEvent(subuid) => LocalUnsubscribe(env, s, subuid)
    case LocalPublishEvent(pubuid, name, t, p) => LocalPublish(env, s, pubuid, name, t, p)
    case LocalUnpublishEvent(pubuid) => LocalUnpublish(env, s, pubuid)
    case LocalSetPropertiesEvent(name, p) => LocalSetProperties(s, name, p)
    case LocalUpdateEvent(pubuid, v, time) => LocalUpdate(s, pubuid, v, time)
    case FlushEvent => FlushBinaryAll(s)
  }

  /** A program that has stopped does nothing more. */
  ghost function Step(env: Env, s: Server, e: Event): Server {
    if s.failed then s else Next(env, s, e)
  }

  function Start(enc: Encoders): Server {
    var topics := map[
      CLIENTS := Topic(CLIENTS, BinV(MsgpackBin, enc.roster(map[])), META_PROPERTIES, true),
      SERVER_SUB := Topic(SERVER_SUB, BinV(MsgpackBin, enc.subscriptions(map[])), META_PROPERTIES, true),
      SERVER_PUB := Topic(SERVER_PUB, BinV(MsgpackBin, enc.publishers(map[])), META_PROPERTIES, true)];
    Server(topics, map[], map[], map[], false)
  }

  /** An event with the clock and the visiting order at its time. */
  datatype Input = Input(now: nat, order: seq<string>, event: Event)

  ghost function Run(enc: Encoders, inputs: seq<Input>): Server {
    if inputs == [] then Start(enc)
    else
      var i := inputs[|inputs| - 1];
      Step(Env(enc, i.now, i.order), Run(enc, inputs[..|inputs| - 1]), i.event)
  }

  /** The loops over topics visit every topic once; local calls use the types of the interface. */
  predicate Sound(s: Server, i: Input) {
    match i.event
    case SubscribeEvent(_, _) => multiset(i.order) == multiset(s.topics.Keys)
    case UnsubscribeEvent(_, _) => multiset(i.order) == multiset(s.topics.Keys)
    case EndOfTextEvent(g) => g in s.clients ==> multiset(i.order) == multiset(s.clients[g].topicData.Keys)
    case LocalPublishEvent(_, _, t, _) => Known(t)
    case _ => true
  }

  ghost predicate SoundRun(enc: Encoders, inputs: seq<Input>) {
    inputs == [] ||
    (SoundRun(enc, inputs[..|inputs| - 1]) && Sound(Run(enc, inputs[..|inputs| - 1]), inputs[|inputs| - 1]))
  }
}
