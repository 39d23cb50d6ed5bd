/** What each event does to the topics: which of them there are, their values and properties, and the lists in which
    the server describes itself. */
module NtTopics {
  import opened Bytes
  import opened NtValues
  import opened Maybes
  import opened NtClient
  import opened NtServer
  import opened NtMetaTopics

  // ------------------------------------------------------------ what leaves a topic alone

  predicate TopicKept(s: Server, t: Server, m: string) {
    (m in t.topics <==> m in s.topics) && (m in s.topics ==> t.topics[m] == s.topics[m])
  }

  /** The clients stay as they are, apart from what is queued for them, and the topic entirely. */
  predicate Apart(s: Server, t: Server, m: string) {
    SameClients(s, t) && TopicKept(s, t, m)
  }

  lemma ApartTwice(s: Server, t: Server, u: Server, m: string)
    requires Apart(s, t, m) && Apart(t, u, m)
    ensures Apart(s, u, m)
  {
    assert forall g :: g in s.clients ==> SameClient(s.clients[g], t.clients[g]) && SameClient(t.clients[g], u.clients[g]);
  }

  lemma SameIsApart(s: Server, t: Server, m: string)
    requires SameRest(s, t) && t.topics == s.topics
    ensures Apart(s, t, m)
  {
    hide SameClients;
  }

  lemma ApartItself(s: Server, m: string)
    ensures Apart(s, s, m)
  {
  }

  lemma SetMetaClients(env: Env, s: Server, name: string, content: seq<byte>)
    ensures SameClients(s, SetMeta(env, s, name, content))
    ensures name !in s.topics ==> SetMeta(env, s, name, content).topics == s.topics
  {
    hide SetMeta, SameClient;
    if name in s.topics {
      SetMetaShape(env, s, name, content);
    } else {
      AbsentClients(env, s, name, content);
    }
  }

  lemma AbsentClients(env: Env, s: Server, name: string, content: seq<byte>)
    requires name !in s.topics
    ensures var t := SetMeta(env, s, name, content); SameClients(s, t) && t.topics == s.topics
  {
  }

  lemma SetMetaApart(env: Env, s: Server, name: string, content: seq<byte>, m: string)
    requires name != m
    ensures Apart(s, SetMeta(env, s, name, content), m)
  {
    hide SetMeta, SameClients, SameRest, WithBin;
    SetMetaClients(env, s, name, content);
    if name in s.topics { SetMetaShape(env, s, name, content); }
  }

  /** The topic itself: its value becomes the content, and nothing else changes. */
  predicate Refreshed(s: Server, t: Server, m: string, content: seq<byte>) {
    SameClients(s, t) && m in s.topics && m in t.topics && t.topics[m] == s.topics[m].(value := WithBin(s.topics[m].value, content))
  }

  lemma SetMetaRefreshes(env: Env, s: Server, m: string, content: seq<byte>)
    requires m in s.topics
    ensures Refreshed(s, SetMeta(env, s, m, content), m, content)
  {
    hide SetMeta, SameClient;
    SetMetaShape(env, s, m, content);
  }

  lemma IntroduceApart(s: Server, name: string, v: NTValue, p: Properties, publisher: Maybe<(Guid, int)>, m: string)
    requires name != m || m in s.topics
    ensures Apart(s, Introduce(s, name, v, p, publisher), m)
  {
    hide Introduce, SameClient;
    IntroduceShape(s, name, v, p, publisher);
  }

  lemma OneClientApart(env: Env, s: Server, g: Guid, m: string)
    ensures Apart(s, FlushTextOf(s, g), m) && Apart(s, FlushBinaryOf(s, g), m)
    ensures Apart(s, InitialValues(env, s, g), m) && Apart(s, AnnounceCachedTo(env, s, g), m)
    ensures Apart(s, FlushTextAll(s), m) && Apart(s, FlushBinaryAll(s), m)
  {
    hide SameRest, Apart, FlushTextOf, FlushBinaryOf, InitialValues, AnnounceCachedTo, FlushTextAll, FlushBinaryAll;
    OneClientShape(env, s, g);
    FlushShape(s);
    SameIsApart(s, FlushTextOf(s, g), m);
    SameIsApart(s, FlushBinaryOf(s, g), m);
    SameIsApart(s, InitialValues(env, s, g), m);
    SameIsApart(s, AnnounceCachedTo(env, s, g), m);
    SameIsApart(s, FlushTextAll(s), m);
    SameIsApart(s, FlushBinaryAll(s), m);
  }

  lemma AssignApart(s: Server, name: string, v: NTValue, time: nat, m: string)
    requires name != m
    ensures Apart(s, AssignTopic(s, name, v, time), m)
  {
    hide FanOutAll, Assign, SameClient;
    if name in s.topics && Valid(v) {
      var t := WithValue(s, name, Assign(s.topics[name].value, v));
      WithValueShape(s, name, Assign(s.topics[name].value, v));
      FanOutAllShape(t, name, time);
      ApartTwice(s, t, FanOutAll(t, name, time), m);
    } else {
      ApartItself(s, m);
      assert Apart(s, s.(failed := true), m);
    }
  }

  lemma PropertiesApart(s: Server, name: string, p: Properties, updater: Maybe<Guid>, m: string)
    requires name in s.topics && name != m
    ensures Apart(s, NotifyAll(WithProperties(s, name, p), name, updater), m)
  {
    hide Notify, SameClient;
    NotifyAllShape(WithProperties(s, name, p), name, updater);
  }

  lemma {:induction false} CoveredApart(env: Env, s: Server, sub: Subscription, order: seq<string>, m: string)
    requires forall n :: n in order && !IsMeta(n) && Covers(sub, n) ==> TopicSub(n) != m
    ensures Apart(s, UpdateCovered(env, s, sub, order), m)
  {
    hide Apart, SetMeta, IsMeta, Covers, TopicSub;
    ApartItself(s, m);
    if order == [] {
    } else {
      var init, n := order[..|order| - 1], order[|order| - 1];
      assert forall k :: k in init ==> k in order;
      CoveredApart(env, s, sub, init, m);
      var s1 := UpdateCovered(env, s, sub, init);
      if !IsMeta(n) && Covers(sub, n) {
        assert n in order;
        SetMetaApart(env, s1, TopicSub(n), env.enc.topicSubscriptions(Interests(s1.clients, n)), m);
        ApartTwice(s, s1, UpdateTopicSub(env, s1, n), m);
      }
    }
  }

  // ------------------------------------------------------------ the lists

  /** The names of the connected clients, and the subscribers and publishers of a topic. */
  datatype List = Roster | Subscribers(n: string) | Publishers(n: string)

  function ListName(l: List): string {
    match l
    case Roster => CLIENTS
    case Subscribers(n) => TopicSub(n)
    case Publishers(n) => TopicPub(n)
  }

  /** What is to be packed now. */
  function Content(enc: Encoders, l: List, clients: map<Guid, Client>): seq<byte> {
    match l
    case Roster => enc.roster(Names(clients))
    case Subscribers(n) => enc.topicSubscriptions(Interests(clients, n))
    case Publishers(n) => enc.topicPublishers(Supplies(clients, n))
  }

  /** The list of an ordinary topic. */
  predicate OrdinaryList(l: List) {
    l.Roster? || !IsMeta(l.n)
  }

  lemma ListNames(l: List, k: List)
    ensures ListName(l) == ListName(k) <==> l == k
  {
    match l {
      case Roster => assert CLIENTS[1] == 'c';
      case Subscribers(n) => assert TopicSub(n)[1] == 's' && TopicSub(n)[5..] == n;
      case Publishers(n) => assert TopicPub(n)[1] == 'p' && TopicPub(n)[5..] == n;
    }
    match k {
      case Roster => assert CLIENTS[1] == 'c';
      case Subscribers(n) => assert TopicSub(n)[1] == 's' && TopicSub(n)[5..] == n;
      case Publishers(n) => assert TopicPub(n)[1] == 'p' && TopicPub(n)[5..] == n;
    }
  }

  /** No list has the name of another kind of topic. */
  lemma NotAList(l: List, a: string)
    ensures ListName(l) != ClientSub(a) && ListName(l) != ClientPub(a) && ListName(l) != SERVER_SUB && ListName(l) != SERVER_PUB
    ensures !IsMeta(a) ==> ListName(l) != a
    ensures IsMeta(ListName(l))
  {
    assert |CLIENTS| == 8 && |ClientSub(a)| >= 11 && |ClientPub(a)| >= 11;
    assert ClientSub(a)[1] == 'c' && ClientPub(a)[1] == 'c' && SERVER_SUB[1] == 's' && SERVER_PUB[1] == 's' && CLIENTS[1] == 'c';
    assert SERVER_SUB[2] == 'e' && SERVER_PUB[2] == 'e';
    match l {
      case Roster =>
      case Subscribers(n) => assert TopicSub(n)[1] == 's' && TopicSub(n)[2] == 'u';
      case Publishers(n) => assert TopicPub(n)[1] == 'p';
    }
  }

  lemma SameContent(enc: Encoders, l: List, s: Server, t: Server)
    requires SameClients(s, t)
    ensures Content(enc, l, t.clients) == Content(enc, l, s.clients)
  {
    hide Covers;
    assert forall g :: g in s.clients ==> SameClient(s.clients[g], t.clients[g]);
    assert Names(t.clients) == Names(s.clients);
    if !l.Roster? {
      assert Interests(t.clients, l.n) == Interests(s.clients, l.n);
      assert Supplies(t.clients, l.n) == Supplies(s.clients, l.n);
    }
  }

  /** The list is there and holds what it should. */
  predicate Current(enc: Encoders, s: Server, l: List) {
    ListName(l) in s.topics && s.topics[ListName(l)].value == BinV(MsgpackBin, Content(enc, l, s.clients))
  }

  predicate Packed(s: Server, l: List) {
    ListName(l) in s.topics ==> s.topics[ListName(l)].value.BinV? && s.topics[ListName(l)].value.binTag == MsgpackBin
  }

  lemma CurrentStays(enc: Encoders, s: Server, t: Server, l: List)
    requires Current(enc, s, l) && Apart(s, t, ListName(l))
    ensures Current(enc, t, l)
  {
    hide SameClients, Content, ListName;
    SameContent(enc, l, s, t);
  }

  lemma BecomesCurrent(env: Env, s: Server, l: List)
    requires Packed(s, l) && ListName(l) in s.topics
    ensures Current(env.enc, SetMeta(env, s, ListName(l), Content(env.enc, l, s.clients)), l)
  {
    hide SetMeta, SameClients, Content, ListName;
    var content := Content(env.enc, l, s.clients);
    SetMetaRefreshes(env, s, ListName(l), content);
    SameContent(env.enc, l, s, SetMeta(env, s, ListName(l), content));
  }

  // ------------------------------------------------------------ publishing

  /** What publishTopic does for the two lists of a topic. */
  function WithLists(env: Env, s: Server, name: string): Server {
    var s3 := IntroduceMeta(IntroduceMeta(s, TopicSub(name)), TopicPub(name));
    UpdateTopicPub(env, UpdateTopicSub(env, s3, name), name)
  }

  lemma WithListsApart(env: Env, s1: Server, name: string, m: string)
    requires m != TopicSub(name) && m != TopicPub(name)
    ensures Apart(s1, WithLists(env, s1, name), m)
  {
    hide Introduce, SetMeta, Apart, TopicSub, TopicPub;
    var meta := BinV(MsgpackBin, []);
    var s2 := IntroduceMeta(s1, TopicSub(name));
    IntroduceApart(s1, TopicSub(name), meta, META_PROPERTIES, Nothing, m);
    var s3 := IntroduceMeta(s2, TopicPub(name));
    IntroduceApart(s2, TopicPub(name), meta, META_PROPERTIES, Nothing, m);
    ApartTwice(s1, s2, s3, m);
    var s4 := UpdateTopicSub(env, s3, name);
    SetMetaApart(env, s3, TopicSub(name), env.enc.topicSubscriptions(Interests(s3.clients, name)), m);
    ApartTwice(s1, s3, s4, m);
    SetMetaApart(env, s4, TopicPub(name), env.enc.topicPublishers(Supplies(s4.clients, name)), m);
    ApartTwice(s1, s4, UpdateTopicPub(env, s4, name), m);
  }

  lemma PublishIs(env: Env, s: Server, name: string, v: NTValue, p: Properties, publisher: Maybe<(Guid, int)>)
    requires !IsMeta(name)
    ensures PublishTopic(env, s, name, v, p, publisher) == WithLists(env, Introduce(s, name, v, p, publisher), name)
  {
    hide Introduce, SetMeta, IsMeta, TopicSub, TopicPub;
  }

  /** publishTopic: the topic itself, its two lists, and nothing else. */
  lemma PublishTopicApart(env: Env, s: Server, name: string, v: NTValue, p: Properties, publisher: Maybe<(Guid, int)>, m: string)
    requires !IsMeta(name) && (m != name || name in s.topics) && m != TopicSub(name) && m != TopicPub(name)
    ensures Apart(s, PublishTopic(env, s, name, v, p, publisher), m)
  {
    hide Introduce, WithLists, PublishTopic, Apart, IsMeta, TopicSub, TopicPub;
    var s1 := Introduce(s, name, v, p, publisher);
    PublishIs(env, s, name, v, p, publisher);
    IntroduceApart(s, name, v, p, publisher, m);
    WithListsApart(env, s1, name, m);
    ApartTwice(s, s1, WithLists(env, s1, name), m);
  }

  /** The new topic. */
  lemma PublishTopicNew(env: Env, s: Server, name: string, v: NTValue, p: Properties, publisher: Maybe<(Guid, int)>)
    requires !IsMeta(name) && name !in s.topics
    ensures var t := PublishTopic(env, s, name, v, p, publisher);
            name in t.topics && t.topics[name] == Topic(name, v, p, p.cached)
  {
    hide Introduce, WithLists, PublishTopic, IsMeta, TopicSub, TopicPub, SameClients;
    MetaNames(name);
    PublishIs(env, s, name, v, p, publisher);
    IntroduceShape(s, name, v, p, publisher);
    WithListsApart(env, Introduce(s, name, v, p, publisher), name, name);
  }

  lemma IntroducePacks(s: Server, name: string, l: List)
    requires Packed(s, l)
    ensures var t := IntroduceMeta(s, name);
            Packed(t, l) && (ListName(l) == name ==> name in t.topics) && (ListName(l) in s.topics ==> ListName(l) in t.topics)
  {
    hide Introduce, ListName;
    IntroduceShape(s, name, BinV(MsgpackBin, []), META_PROPERTIES, Nothing);
  }

  lemma ApartPacks(s: Server, t: Server, l: List)
    requires Packed(s, l) && TopicKept(s, t, ListName(l))
    ensures Packed(t, l) && (ListName(l) in t.topics <==> ListName(l) in s.topics)
  {
    hide ListName;
  }

  lemma ApartKeeps(s: Server, t: Server, m: string)
    requires Apart(s, t, m)
    ensures TopicKept(s, t, m) && SameClients(s, t)
  {
  }

  lemma ListsOfTopic(name: string)
    requires !IsMeta(name)
    ensures ListName(Subscribers(name)) == TopicSub(name) && ListName(Publishers(name)) == TopicPub(name)
    ensures TopicSub(name) != name && TopicPub(name) != name && TopicSub(name) != TopicPub(name)
  {
    MetaNames(name);
  }

  /** Afterwards both lists of the topic are right. */
  lemma PublishTopicLists(env: Env, s: Server, name: string, v: NTValue, p: Properties, publisher: Maybe<(Guid, int)>)
    requires !IsMeta(name) && Packed(s, Subscribers(name)) && Packed(s, Publishers(name))
    ensures var t := PublishTopic(env, s, name, v, p, publisher);
            SameClients(s, t) && Current(env.enc, t, Subscribers(name)) && Current(env.enc, t, Publishers(name))
  {
    hide Introduce, IntroduceMeta, SetMeta, Apart, IsMeta, TopicSub, TopicPub, Packed, Current, SameClients, ListName, TopicKept;
    var sub, pub := Subscribers(name), Publishers(name);
    ListsOfTopic(name);
    var meta := BinV(MsgpackBin, []);
    var s1 := Introduce(s, name, v, p, publisher);
    IntroduceApart(s, name, v, p, publisher, TopicSub(name));
    IntroduceApart(s, name, v, p, publisher, TopicPub(name));
    ApartKeeps(s, s1, TopicSub(name));
    ApartKeeps(s, s1, TopicPub(name));
    ApartPacks(s, s1, sub);
    ApartPacks(s, s1, pub);
    var s2 := IntroduceMeta(s1, TopicSub(name));
    IntroducePacks(s1, TopicSub(name), sub);
    IntroducePacks(s1, TopicSub(name), pub);
    var s3 := IntroduceMeta(s2, TopicPub(name));
    IntroducePacks(s2, TopicPub(name), sub);
    IntroducePacks(s2, TopicPub(name), pub);
    var s4 := UpdateTopicSub(env, s3, name);
    BecomesCurrent(env, s3, sub);
    SetMetaApart(env, s3, TopicSub(name), env.enc.topicSubscriptions(Interests(s3.clients, name)), TopicPub(name));
    ApartKeeps(s3, s4, TopicPub(name));
    ApartPacks(s3, s4, pub);
    var t := UpdateTopicPub(env, s4, name);
    BecomesCurrent(env, s4, pub);
    SetMetaApart(env, s4, TopicPub(name), env.enc.topicPublishers(Supplies(s4.clients, name)), TopicSub(name));
    CurrentStays(env.enc, s4, t, sub);
    ClientsThrough(env, s, name, v, p, publisher, s1, s2, s3, s4, t);
  }

  lemma ClientsThrough(env: Env, s: Server, name: string, v: NTValue, p: Properties, publisher: Maybe<(Guid, int)>,
                       s1: Server, s2: Server, s3: Server, s4: Server, t: Server)
    requires s1 == Introduce(s, name, v, p, publisher) && s2 == IntroduceMeta(s1, TopicSub(name)) && s3 == IntroduceMeta(s2, TopicPub(name))
    requires s4 == UpdateTopicSub(env, s3, name) && t == UpdateTopicPub(env, s4, name)
    ensures SameClients(s, t)
  {
    hide Introduce, SetMeta, SameClients, TopicSub, TopicPub;
    var meta := BinV(MsgpackBin, []);
    IntroduceSame(s, name, v, p, publisher);
    IntroduceSame(s1, TopicSub(name), meta, META_PROPERTIES, Nothing);
    IntroduceSame(s2, TopicPub(name), meta, META_PROPERTIES, Nothing);
    SetMetaClients(env, s3, TopicSub(name), env.enc.topicSubscriptions(Interests(s3.clients, name)));
    SetMetaClients(env, s4, TopicPub(name), env.enc.topicPublishers(Supplies(s4.clients, name)));
    ClientsTwice(s, s1, s2);
    ClientsTwice(s, s2, s3);
    ClientsTwice(s, s3, s4);
    ClientsTwice(s, s4, t);
  }

  lemma IntroduceSame(s: Server, name: string, v: NTValue, p: Properties, publisher: Maybe<(Guid, int)>)
    ensures SameClients(s, Introduce(s, name, v, p, publisher))
  {
    hide Introduce, SameClients;
    IntroduceShape(s, name, v, p, publisher);
  }

  lemma ClientsTwice(s: Server, t: Server, u: Server)
    requires SameClients(s, t) && SameClients(t, u)
    ensures SameClients(s, u)
  {
    assert forall g :: g in s.clients ==> SameClient(s.clients[g], t.clients[g]) && SameClient(t.clients[g], u.clients[g]);
  }

  lemma {:induction false} CoveredRefreshes(env: Env, s: Server, sub: Subscription, order: seq<string>, n: string)
    requires n in order && !IsMeta(n) && Covers(sub, n) && TopicSub(n) in s.topics && Packed(s, Subscribers(n))
    ensures var t := UpdateCovered(env, s, sub, order);
            SameClients(s, t) && TopicSub(n) in t.topics && Packed(t, Subscribers(n)) && Current(env.enc, t, Subscribers(n))
  {
    hide SetMeta, IsMeta, Covers, TopicSub, Packed, Current, SameClients, Apart, ListName, TopicKept;
    var init, k := order[..|order| - 1], order[|order| - 1];
    assert order == init + [k];
    var l := Subscribers(n);
    ListsOfTopic(n);
    var s1 := UpdateCovered(env, s, sub, init);
    if n in init {
      CoveredRefreshes(env, s, sub, init, n);
    } else {
      forall j | j in init && !IsMeta(j) && Covers(sub, j) ensures TopicSub(j) != TopicSub(n) {
        ListNames(Subscribers(j), l);
        ListsOfTopic(j);
      }
      CoveredApart(env, s, sub, init, TopicSub(n));
      ApartKeeps(s, s1, TopicSub(n));
      ApartPacks(s, s1, l);
    }
    if !IsMeta(k) && Covers(sub, k) {
      var t := UpdateTopicSub(env, s1, k);
      ListsOfTopic(k);
      SetMetaClients(env, s1, TopicSub(k), env.enc.topicSubscriptions(Interests(s1.clients, k)));
      ClientsTwice(s, s1, t);
      if k == n {
        BecomesCurrent(env, s1, l);
        CurrentIsPacked(env.enc, t, l);
      } else {
        ListNames(Subscribers(k), l);
        SetMetaApart(env, s1, TopicSub(k), env.enc.topicSubscriptions(Interests(s1.clients, k)), TopicSub(n));
        ApartKeeps(s1, t, TopicSub(n));
        ApartPacks(s1, t, l);
        CurrentStays(env.enc, s1, t, l);
      }
    }
  }

  lemma CurrentIsPacked(enc: Encoders, s: Server, l: List)
    requires Current(enc, s, l)
    ensures Packed(s, l) && ListName(l) in s.topics
  {
    hide ListName, Content;
  }
}
