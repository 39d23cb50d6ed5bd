/** What each message that a client writes asks for, said of the entries in it: the last entry of a kind counts, and
    what stands for one that is not there. */
module NtRequests {
  import opened Maybes
  import opened NtClient
  import opened NtServer
  import opened JsonMessages
  import opened JsonRoundTrip
  import opened NtHandleFrame

  /** v is what the last entry that gives something gives, or `other` if none does. */
  ghost predicate LastGiven<E(!new), T(!new)>(es: seq<E>, given: E -> Maybe<T>, other: T, v: T) {
    (exists i | 0 <= i < |es| :: given(es[i]) == Just(v) && forall j | i < j < |es| :: given(es[j]).Nothing?) ||
    (v == other && forall i | 0 <= i < |es| :: given(es[i]).Nothing?)
  }

  function PeriodicOf(e: OptionEntry): Maybe<int> {
    if e.Periodic? then Just(e.i) else Nothing
  }

  function AllOf(e: OptionEntry): Maybe<bool> {
    if e.All? then Just(e.b) else Nothing
  }

  function TopicsOnlyOf(e: OptionEntry): Maybe<bool> {
    if e.TopicsOnly? then Just(e.b) else Nothing
  }

  function PrefixOf(e: OptionEntry): Maybe<bool> {
    if e.Prefix? then Just(e.b) else Nothing
  }

  /** A null gives nothing. */
  function FlagOf(f: Flag): FlagEntry -> Maybe<bool> {
    (e: FlagEntry) => if e.flag == f then e.value else Nothing
  }

  /** A null gives that the property is to be as it is. */
  function ChangeOf(f: Flag): FlagEntry -> Maybe<Maybe<bool>> {
    (e: FlagEntry) => if e.flag == f then Just(e.value) else Nothing
  }

  lemma OneInFront<E(!new), T(!new)>(es: seq<E>, given: E -> Maybe<T>, other: T, v: T)
    requires es != []
    requires LastGiven(es[1..], given, match given(es[0]) case Nothing => other case Just(x) => x, v)
    ensures LastGiven(es, given, other, v)
  {
    assert forall j | 0 < j < |es| :: es[j] == es[1..][j - 1];
    if i :| 0 <= i < |es[1..]| && given(es[1..][i]) == Just(v) && forall j | i < j < |es[1..]| :: given(es[1..][j]).Nothing? {
      assert given(es[i + 1]) == Just(v);
    } else if given(es[0]).Just? {
      assert given(es[0]) == Just(v);
    }
  }

  lemma NoneInFront<E(!new), T(!new)>(given: E -> Maybe<T>, other: T)
    ensures LastGiven([], given, other, other)
  {
  }

  lemma {:induction false} OptionsGiven(o: SubscriptionOptions, es: seq<OptionEntry>)
    ensures var p := WithOptions(o, es);
            LastGiven(es, PeriodicOf, o.periodic, p.periodic) && LastGiven(es, AllOf, o.all, p.all) &&
            LastGiven(es, TopicsOnlyOf, o.topicsonly, p.topicsonly) && LastGiven(es, PrefixOf, o.prefix, p.prefix)
    decreases |es|
  {
    hide LastGiven;
    if es == [] {
      NoneInFront(PeriodicOf, o.periodic);
      NoneInFront(AllOf, o.all);
      NoneInFront(TopicsOnlyOf, o.topicsonly);
      NoneInFront(PrefixOf, o.prefix);
    } else {
      var q := WithOption(o, es[0]);
      var p := WithOptions(o, es);
      OptionsGiven(q, es[1..]);
      OneInFront(es, PeriodicOf, o.periodic, p.periodic);
      OneInFront(es, AllOf, o.all, p.all);
      OneInFront(es, TopicsOnlyOf, o.topicsonly, p.topicsonly);
      OneInFront(es, PrefixOf, o.prefix, p.prefix);
    }
  }

  lemma {:induction false} FlagsGiven(o: Properties, es: seq<FlagEntry>)
    ensures var p := WithFlags(o, es);
            LastGiven(es, FlagOf(Persistent), o.persistent, p.persistent) &&
            LastGiven(es, FlagOf(Retained), o.retained, p.retained) && LastGiven(es, FlagOf(Cached), o.cached, p.cached)
    decreases |es|
  {
    hide LastGiven;
    if es == [] {
      NoneInFront(FlagOf(Persistent), o.persistent);
      NoneInFront(FlagOf(Retained), o.retained);
      NoneInFront(FlagOf(Cached), o.cached);
    } else {
      var p := WithFlags(o, es);
      FlagsGiven(WithFlag(o, es[0]), es[1..]);
      OneInFront(es, FlagOf(Persistent), o.persistent, p.persistent);
      OneInFront(es, FlagOf(Retained), o.retained, p.retained);
      OneInFront(es, FlagOf(Cached), o.cached, p.cached);
    }
  }

  lemma {:induction false} ChangesGiven(m: Draft, es: seq<FlagEntry>)
    ensures var n := WithUpdates(m, es);
            LastGiven(es, ChangeOf(Persistent), m.persistent, n.persistent) &&
            LastGiven(es, ChangeOf(Retained), m.retained, n.retained) && LastGiven(es, ChangeOf(Cached), m.cached, n.cached)
    decreases |es|
  {
    hide LastGiven;
    if es == [] {
      NoneInFront(ChangeOf(Persistent), m.persistent);
      NoneInFront(ChangeOf(Retained), m.retained);
      NoneInFront(ChangeOf(Cached), m.cached);
    } else {
      var n := WithUpdates(m, es);
      ChangesGiven(WithUpdate(m, es[0]), es[1..]);
      OneInFront(es, ChangeOf(Persistent), m.persistent, n.persistent);
      OneInFront(es, ChangeOf(Retained), m.retained, n.retained);
      OneInFront(es, ChangeOf(Cached), m.cached, n.cached);
    }
  }

  /** A subscription is made with the options as last given; without them every 100 ms, not of all changes, with
      values, and of whole names. */
  lemma SubscriptionAsked(g: Guid, topics: seq<string>, subuid: int, es: seq<OptionEntry>)
    ensures var e := WrittenEvent(g, WSubscribe(topics, subuid, es));
            e.SubscribeEvent? && e.g == g && e.sub.uid == subuid && e.sub.topics == topics &&
            LastGiven(es, PeriodicOf, 100, e.sub.options.periodic) && LastGiven(es, AllOf, false, e.sub.options.all) &&
            LastGiven(es, TopicsOnlyOf, false, e.sub.options.topicsonly) && LastGiven(es, PrefixOf, false, e.sub.options.prefix)
  {
    hide LastGiven, WithOptions;
    OptionsGiven(BLANK.options, es);
  }

  /** A topic is published with the properties as last given; without them not persistent, not retained, cached. */
  lemma PublicationAsked(g: Guid, name: string, pubuid: int, typeName: string, es: seq<FlagEntry>)
    ensures var e := WrittenEvent(g, WPublish(name, pubuid, typeName, es));
            e == PublishEvent(g, pubuid, name, typeName, e.properties) &&
            LastGiven(es, FlagOf(Persistent), false, e.properties.persistent) &&
            LastGiven(es, FlagOf(Retained), false, e.properties.retained) &&
            LastGiven(es, FlagOf(Cached), true, e.properties.cached)
  {
    hide LastGiven, WithFlags;
    FlagsGiven(BLANK.properties, es);
  }

  /** A property is changed to what is last given for it, and left as it is by a null or by no entry. */
  lemma ChangeAsked(g: Guid, name: string, es: seq<FlagEntry>)
    ensures var e := WrittenEvent(g, WSetProperties(name, es));
            e.SetPropertiesEvent? && e == SetPropertiesEvent(g, name, e.persistent, e.retained, e.cached) &&
            LastGiven(es, ChangeOf(Persistent), Nothing, e.persistent) &&
            LastGiven(es, ChangeOf(Retained), Nothing, e.retained) && LastGiven(es, ChangeOf(Cached), Nothing, e.cached)
  {
    hide LastGiven, WithUpdates;
    ChangesGiven(BLANK.(name := name), es);
  }
}
