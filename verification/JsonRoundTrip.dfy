/** Text frames as clients write them, and that the server reads back exactly the messages in them. */
module JsonRoundTrip {
  import opened Maybes
  import opened Decimals
  import opened JsonCursor
  import opened JsonMessages
  import opened NtClient

  // ------------------------------------------------------------ writing; each part is put in front of the rest

  predicate Clean(s: string) {
    '"' !in s
  }

  predicate Int32(i: int) {
    -0x8000_0000 <= i < 0x8000_0000
  }

  /** What may stand between two entries. */
  predicate Lead(lead: string) {
    lead == "" || lead == [',']
  }

  function Colon(more: string): string {
    [':'] + more
  }

  function PutTopics(lead: string, ts: seq<string>, more: string): string
    decreases |ts|
  {
    if ts == [] then more else lead + Quoted(ts[0], PutTopics([','], ts[1..], more))
  }

  datatype OptionEntry = Periodic(i: int) | All(b: bool) | TopicsOnly(b: bool) | Prefix(b: bool)

  function OptionKey(e: OptionEntry): string {
    match e
    case Periodic(_) => "periodic"
    case All(_) => "all"
    case TopicsOnly(_) => "topicsonly"
    case Prefix(_) => "prefix"
  }

  function PutOption(e: OptionEntry, more: string): string {
    Quoted(OptionKey(e), Colon((if e.Periodic? then IntText(e.i) else BoolText(e.b)) + more))
  }

  function PutOptions(lead: string, es: seq<OptionEntry>, more: string): string
    decreases |es|
  {
    if es == [] then more else lead + PutOption(es[0], PutOptions([','], es[1..], more))
  }

  function WithOption(o: SubscriptionOptions, e: OptionEntry): SubscriptionOptions {
    match e
    case Periodic(i) => o.(periodic := i)
    case All(b) => o.(all := b)
    case TopicsOnly(b) => o.(topicsonly := b)
    case Prefix(b) => o.(prefix := b)
  }

  function WithOptions(o: SubscriptionOptions, es: seq<OptionEntry>): SubscriptionOptions
    decreases |es|
  {
    if es == [] then o else WithOptions(WithOption(o, es[0]), es[1..])
  }

  datatype Flag = Persistent | Retained | Cached
  datatype FlagEntry = FlagEntry(flag: Flag, value: Maybe<bool>)

  function FlagKey(f: Flag): string {
    match f
    case Persistent => "persistent"
    case Retained => "retained"
    case Cached => "cached"
  }

  function FlagText(v: Maybe<bool>): string {
    match v case Nothing => "null" case Just(b) => BoolText(b)
  }

  function PutFlag(e: FlagEntry, more: string): string {
    Quoted(FlagKey(e.flag), Colon(FlagText(e.value) + more))
  }

  function PutFlags(lead: string, es: seq<FlagEntry>, more: string): string
    decreases |es|
  {
    if es == [] then more else lead + PutFlag(es[0], PutFlags([','], es[1..], more))
  }

  function WithFlag(p: Properties, e: FlagEntry): Properties {
    match (e.flag, e.value)
    case (_, Nothing) => p
    case (Persistent, Just(b)) => p.(persistent := b)
    case (Retained, Just(b)) => p.(retained := b)
    case (Cached, Just(b)) => p.(cached := b)
  }

  function WithFlags(p: Properties, es: seq<FlagEntry>): Properties
    decreases |es|
  {
    if es == [] then p else WithFlags(WithFlag(p, es[0]), es[1..])
  }

  function WithUpdate(m: Draft, e: FlagEntry): Draft {
    match e.flag
    case Persistent => m.(persistent := e.value)
    case Retained => m.(retained := e.value)
    case Cached => m.(cached := e.value)
  }

  function WithUpdates(m: Draft, es: seq<FlagEntry>): Draft
    decreases |es|
  {
    if es == [] then m else WithUpdates(WithUpdate(m, es[0]), es[1..])
  }

  /** A message as a client writes it. */
  datatype Written =
    | WSubscribe(topics: seq<string>, subuid: int, options: seq<OptionEntry>)
    | WUnsubscribe(subuid: int)
    | WPublish(name: string, pubuid: int, typeName: string, properties: seq<FlagEntry>)
    | WUnpublish(pubuid: int)
    | WSetProperties(name: string, update: seq<FlagEntry>)

  function MethodOf(w: Written): string {
    match w
    case WSubscribe(_, _, _) => "subscribe"
    case WUnsubscribe(_) => "unsubscribe"
    case WPublish(_, _, _, _) => "publish"
    case WUnpublish(_) => "unpublish"
    case WSetProperties(_, _) => "setproperties"
  }

  function PutTopicsField(ts: seq<string>, more: string): string {
    Quoted("topics", Colon(['['] + PutTopics("", ts, [']'] + more)))
  }

  function PutUidField(lead: string, key: string, i: int, more: string): string {
    lead + Quoted(key, Colon(IntText(i) + more))
  }

  function PutStringField(lead: string, key: string, s: string, more: string): string {
    lead + Quoted(key, Colon(Quoted(s, more)))
  }

  function PutOptionsField(es: seq<OptionEntry>, more: string): string {
    [','] + Quoted("options", Colon(['{'] + PutOptions("", es, ['}'] + more)))
  }

  function PutFlagsField(key: string, es: seq<FlagEntry>, more: string): string {
    [','] + Quoted(key, Colon(['{'] + PutFlags("", es, ['}'] + more)))
  }

  function PutParams(w: Written, more: string): string {
    match w
    case WSubscribe(ts, i, es) => PutTopicsField(ts, PutUidField([','], "subuid", i, PutOptionsField(es, more)))
    case WUnsubscribe(i) => PutUidField("", "subuid", i, more)
    case WPublish(n, i, t, es) =>
      PutStringField("", "name", n, PutUidField([','], "pubuid", i, PutStringField([','], "type", t, PutFlagsField("properties", es, more))))
    case WUnpublish(i) => PutUidField("", "pubuid", i, more)
    case WSetProperties(n, es) => PutStringField("", "name", n, PutFlagsField("update", es, more))
  }

  function PutMessage(w: Written, more: string): string {
    ['{'] + Quoted("method", Colon(Quoted(MethodOf(w), [','] + Quoted("params", Colon(['{'] + PutParams(w, ['}'] + (['}'] + more)))))))
  }

  function PutMessages(lead: string, ws: seq<Written>, more: string): string
    decreases |ws|
  {
    if ws == [] then more else lead + PutMessage(ws[0], PutMessages([','], ws[1..], more))
  }

  function PutFrame(ws: seq<Written>): string {
    ['['] + PutMessages("", ws, "]")
  }

  /** What the message means. */
  function MeaningOf(w: Written): ClientMessage {
    match w
    case WSubscribe(ts, i, es) => SubscribeMessage(ts, Just(i), WithOptions(BLANK.options, es))
    case WUnsubscribe(i) => UnsubscribeMessage(Just(i))
    case WPublish(n, i, t, es) => PublishMessage(n, Just(i), Just(t), WithFlags(BLANK.properties, es))
    case WUnpublish(i) => UnpublishMessage(Just(i))
    case WSetProperties(n, es) =>
      var m := WithUpdates(BLANK.(name := n), es);
      SetPropertiesMessage(m.name, m.persistent, m.retained, m.cached)
  }

  /** No quotes inside strings, and 32-bit numbers. */
  predicate Tidy(w: Written) {
    match w
    case WSubscribe(ts, i, es) => (forall t | t in ts :: Clean(t)) && Int32(i) && forall e | e in es :: e.Periodic? ==> Int32(e.i)
    case WUnsubscribe(i) => Int32(i)
    case WPublish(n, i, t, _) => Clean(n) && Int32(i) && Clean(t)
    case WUnpublish(i) => Int32(i)
    case WSetProperties(n, _) => Clean(n)
  }

  predicate LastIsNull(es: seq<FlagEntry>) {
    es != [] && es[|es| - 1].value.Nothing?
  }

  /** A message whose last property is null. */
  predicate EndsInNull(w: Written) {
    match w
    case WPublish(_, _, _, es) => LastIsNull(es)
    case WSetProperties(_, es) => LastIsNull(es)
    case _ => false
  }

  predicate WellFormed(w: Written) {
    Tidy(w) && !EndsInNull(w)
  }

  // ------------------------------------------------------------ reading the parts

  lemma LeadSkips(lead: string)
    requires Lead(lead)
    ensures '"' !in lead && '{' !in lead
  {
  }

  lemma KeyAfterLead(lead: string, s: string, more: string)
    requires Lead(lead) && Clean(s)
    ensures UnpackKey(On(lead + Quoted(s, more))) == (On(more), s)
    ensures PeekType(lead + Quoted(s, more)) == Just(StrType)
  {
    hide Quoted, UnpackKey;
    LeadSkips(lead);
    KeyRoundTrip(lead, s, more);
    StartsQuoted(s, more);
    if lead == "" {
      assert lead + Quoted(s, more) == Quoted(s, more);
    } else {
      PeekSkips(',', Quoted(s, more));
    }
  }

  lemma StartsQuoted(s: string, more: string)
    ensures PeekType(Quoted(s, more)) == Just(StrType)
  {
  }

  lemma PeekValue(text: string, more: string)
    requires text == "true" || text == "false" || text == "null"
    ensures PeekOr(Colon(text + more)) == (if text == "true" then TrueType else if text == "false" then FalseType else NullType)
  {
    PeekSkips(':', text + more);
    assert (text + more)[0] == text[0] && (text + more)[1] == text[1] && (text + more)[2] == text[2] && (text + more)[3] == text[3];
    if text == "false" { assert (text + more)[4] == text[4]; }
  }

  lemma PeekInt(i: int, more: string)
    ensures PeekOr(Colon(IntText(i) + more)) == IntType
  {
    PeekSkips(':', IntText(i) + more);
    var d := Digits(if i < 0 then -i else i);
    assert d[0] in d;
    assert (IntText(i) + more)[0] == IntText(i)[0];
  }

  lemma IntAfterColon(i: int, more: string)
    requires Int32(i) && more != "" && more[0] in ",}"
    ensures UnpackInt(On(Colon(IntText(i) + more))) == (On(more), Just(i))
  {
    hide UnpackInt, IntText;
    ColonIsNotNumeric();
    IntRoundTrip([':'], i, more);
  }

  lemma ColonIsNotNumeric()
    ensures ':' !in NUMERIC
  {
  }

  predicate Ends(more: string) {
    more != "" && more[0] in ",}"
  }

  lemma OptionRead(lead: string, e: OptionEntry, more: string, o: SubscriptionOptions)
    requires Lead(lead) && Ends(more) && (e.Periodic? ==> Int32(e.i))
    ensures ReadOption(On(lead + PutOption(e, more)), o) == (On(more), WithOption(o, e))
    ensures PeekType(lead + PutOption(e, more)) == Just(StrType)
  {
    hide UnpackKey, UnpackInt, UnpackBool, PeekOr, PeekType, IntText, BoolText, Quoted, Colon;
    var value := (if e.Periodic? then IntText(e.i) else BoolText(e.b)) + more;
    KeyAfterLead(lead, OptionKey(e), Colon(value));
    if e.Periodic? {
      PeekInt(e.i, more);
      IntAfterColon(e.i, more);
    } else {
      BoolAfterColon(e.b, more);
    }
  }

  lemma BoolAfterColon(b: bool, more: string)
    ensures UnpackBool(On(Colon(BoolText(b) + more))) == (On(more), b)
    ensures IsBool(PeekOr(Colon(BoolText(b) + more)))
  {
    hide UnpackBool, PeekOr;
    BoolRoundTrip(b, more);
    PeekValue(BoolText(b), more);
  }

  lemma {:induction false} OptionsRead(lead: string, es: seq<OptionEntry>, more: string, o: SubscriptionOptions)
    requires Lead(lead) && forall e | e in es :: e.Periodic? ==> Int32(e.i)
    ensures ReadOptions(On(PutOptions(lead, es, ['}'] + more)), o) == (On(['}'] + more), WithOptions(o, es))
    ensures es != [] || Ends(PutOptions(lead, es, ['}'] + more))
    decreases |es|
  {
    hide ReadOption, PutOption, WithOption;
    if es != [] {
      var rest := PutOptions([','], es[1..], ['}'] + more);
      assert Ends(rest);
      assert es[0] in es;
      OptionRead(lead, es[0], rest, o);
      OptionsRead([','], es[1..], more, WithOption(o, es[0]));
    } else {
      assert PeekType(['}'] + more) == Just(ObjectEndType);
    }
  }

  lemma {:induction false} TopicsRead(lead: string, ts: seq<string>, more: string)
    requires Lead(lead) && forall t | t in ts :: Clean(t)
    ensures ReadTopics(On(PutTopics(lead, ts, [']'] + more))) == (On([']'] + more), ts)
    decreases |ts|
  {
    hide UnpackKey, Quoted;
    if ts != [] {
      assert ts[0] in ts;
      KeyAfterLead(lead, ts[0], PutTopics([','], ts[1..], [']'] + more));
      TopicsRead([','], ts[1..], more);
      assert [ts[0]] + ts[1..] == ts;
    } else {
      assert PeekType([']'] + more) == Just(ArrayEndType);
    }
  }

  /** What may stand between two entries of an update: a null that was not taken, too. */
  predicate UpdateLead(lead: string) {
    Lead(lead) || lead == [':', 'n', 'u', 'l', 'l', ',']
  }

  lemma UpdateKey(lead: string, s: string, more: string)
    requires UpdateLead(lead) && Clean(s)
    ensures UnpackKey(On(lead + Quoted(s, more))) == (On(more), s)
    ensures PeekType(lead + Quoted(s, more)).Just? && PeekType(lead + Quoted(s, more)) != Just(ObjectEndType)
  {
    hide Quoted, UnpackKey;
    if Lead(lead) {
      KeyAfterLead(lead, s, more);
    } else {
      KeyRoundTrip(lead, s, more);
      var t := ['n', 'u', 'l', 'l'] + ([','] + Quoted(s, more));
      assert lead + Quoted(s, more) == [':'] + t;
      PeekSkips(':', t);
      assert IsNull(t);
    }
  }

  lemma FlagRead(lead: string, e: FlagEntry, more: string, p: Properties)
    requires UpdateLead(lead)
    ensures var text := lead + PutFlag(e, more);
            ReadProperty(On(text), p) == (On(if e.value.Just? then more else Colon("null" + more)), WithFlag(p, e)) &&
            PeekType(text).Just? && PeekType(text) != Just(ObjectEndType)
  {
    hide UnpackKey, UnpackBool, PeekOr, PeekType, BoolText, Quoted, Colon;
    UpdateKey(lead, FlagKey(e.flag), Colon(FlagText(e.value) + more));
    if e.value.Just? {
      BoolAfterColon(e.value.value, more);
    } else {
      PeekValue("null", more);
    }
  }

  lemma {:induction false} FlagsRead(lead: string, es: seq<FlagEntry>, more: string, p: Properties)
    requires UpdateLead(lead) && !LastIsNull(es)
    ensures ReadProperties(On(PutFlags(lead, es, ['}'] + more)), p) == (On(['}'] + more), WithFlags(p, es))
    decreases |es|
  {
    hide ReadProperty, PutFlag, WithFlag, Colon;
    if es == [] {
      assert PeekType(['}'] + more) == Just(ObjectEndType);
    } else {
      FlagRead(lead, es[0], PutFlags([','], es[1..], ['}'] + more), p);
      if es[0].value.Just? {
        FlagsRead([','], es[1..], more, WithFlag(p, es[0]));
      } else {
        NullThenNext(es[1..], ['}'] + more);
        FlagsRead([':', 'n', 'u', 'l', 'l', ','], es[1..], more, WithFlag(p, es[0]));
      }
    }
  }

  lemma UpdateRead(lead: string, e: FlagEntry, more: string, m: Draft)
    requires UpdateLead(lead)
    ensures var text := lead + PutFlag(e, more);
            ReadUpdate(On(text), m) == (On(if e.value.Just? then more else Colon("null" + more)), WithUpdate(m, e)) &&
            PeekType(text).Just? && PeekType(text) != Just(ObjectEndType)
  {
    hide UnpackKey, UnpackBool, PeekOr, PeekType, BoolText, Quoted, Colon;
    UpdateKey(lead, FlagKey(e.flag), Colon(FlagText(e.value) + more));
    if e.value.Just? {
      BoolAfterColon(e.value.value, more);
    } else {
      PeekValue("null", more);
    }
  }

  lemma NullThenNext(es: seq<FlagEntry>, more: string)
    requires es != []
    ensures Colon("null" + PutFlags([','], es, more)) == PutFlags([':', 'n', 'u', 'l', 'l', ','], es, more)
  {
    hide PutFlag;
    var x := PutFlag(es[0], PutFlags([','], es[1..], more));
    assert [':'] + ("null" + ([','] + x)) == [':', 'n', 'u', 'l', 'l', ','] + x;
  }

  lemma {:induction false} UpdatesRead(lead: string, es: seq<FlagEntry>, more: string, m: Draft)
    requires UpdateLead(lead) && !LastIsNull(es)
    ensures ReadUpdates(On(PutFlags(lead, es, ['}'] + more)), m) == (On(['}'] + more), WithUpdates(m, es))
    decreases |es|
  {
    hide ReadUpdate, PutFlag, WithUpdate, Colon;
    if es != [] {
      var rest := PutFlags([','], es[1..], ['}'] + more);
      UpdateRead(lead, es[0], rest, m);
      if es[0].value.Just? {
        UpdatesRead([','], es[1..], more, WithUpdate(m, es[0]));
      } else {
        NullThenNext(es[1..], ['}'] + more);
        UpdatesRead([':', 'n', 'u', 'l', 'l', ','], es[1..], more, WithUpdate(m, es[0]));
      }
    } else {
      assert PeekType(['}'] + more) == Just(ObjectEndType);
    }
  }

  // ------------------------------------------------------------ the fields

  lemma UidFieldRead(lead: string, key: string, i: int, more: string, m: Draft)
    requires Lead(lead) && Int32(i) && Ends(more) && Clean(key)
    ensures UidField(On(PutUidField(lead, key, i, more)), m, key) == (On(more), m.(uid := Just(i)))
    ensures key == "subuid" ==> SubscribeField(On(PutUidField(lead, key, i, more)), m) == (On(more), m.(uid := Just(i)))
    ensures key == "pubuid" ==> PublishField(On(PutUidField(lead, key, i, more)), m) == (On(more), m.(uid := Just(i)))
  {
    hide UnpackKey, UnpackInt, Quoted, Colon, IntText, ReadTopics, ReadOptions, ReadProperties;
    KeyAfterLead(lead, key, Colon(IntText(i) + more));
    IntAfterColon(i, more);
  }

  lemma ColonSkips(ch: char, more: string)
    requires ch != ':'
    ensures FindAfter(On(Colon([ch] + more)), ch) == On(more)
  {
    hide FindAfter;
    FindAfterSkips([':'], ch, more);
  }

  lemma NextIs(ch: char, more: string)
    ensures FindAfter(On([ch] + more), ch) == On(more)
  {
    hide FindAfter;
    assert [] + ([ch] + more) == [ch] + more;
    FindAfterSkips([], ch, more);
  }

  lemma StringAfterColon(s: string, more: string)
    requires Clean(s)
    ensures UnpackKey(On(Colon(Quoted(s, more)))) == (On(more), s)
  {
    hide UnpackKey, Quoted;
    KeyRoundTrip([':'], s, more);
  }

  lemma StringFieldRead(lead: string, key: string, s: string, more: string, m: Draft)
    requires Lead(lead) && Clean(s)
    ensures key == "name" ==> PublishField(On(PutStringField(lead, key, s, more)), m) == (On(more), m.(name := s))
    ensures key == "name" ==> PropertiesField(On(PutStringField(lead, key, s, more)), m) == (On(more), m.(name := s))
    ensures key == "type" ==> PublishField(On(PutStringField(lead, key, s, more)), m) == (On(more), m.(typeName := Just(s)))
  {
    hide UnpackKey, Quoted, Colon, ReadProperties, ReadUpdates, UnpackInt;
    if key == "name" || key == "type" {
      KeyAfterLead(lead, key, Colon(Quoted(s, more)));
      StringAfterColon(s, more);
    }
  }

  lemma TopicsFieldRead(ts: seq<string>, more: string, m: Draft)
    requires forall t | t in ts :: Clean(t)
    ensures SubscribeField(On(PutTopicsField(ts, more)), m) == (On(more), m.(topics := m.topics + ts))
  {
    hide UnpackKey, Quoted, Colon, ReadTopics, PutTopics, ReadOptions, UnpackInt, FindAfter;
    var list := PutTopics("", ts, [']'] + more);
    KeyAfterLead("", "topics", Colon(['['] + list));
    assert "" + Quoted("topics", Colon(['['] + list)) == Quoted("topics", Colon(['['] + list));
    ColonSkips('[', list);
    TopicsRead("", ts, more);
    NextIs(']', more);
  }

  lemma OptionsFieldRead(es: seq<OptionEntry>, more: string, m: Draft)
    requires forall e | e in es :: e.Periodic? ==> Int32(e.i)
    ensures SubscribeField(On(PutOptionsField(es, more)), m) == (On(more), m.(options := WithOptions(m.options, es)))
  {
    hide UnpackKey, Quoted, Colon, ReadTopics, PutOptions, ReadOptions, UnpackInt, FindAfter, WithOptions;
    var list := PutOptions("", es, ['}'] + more);
    KeyAfterLead([','], "options", Colon(['{'] + list));
    ColonSkips('{', list);
    OptionsRead("", es, more, m.options);
    NextIs('}', more);
  }

  lemma PropertiesFieldRead(es: seq<FlagEntry>, more: string, m: Draft)
    requires !LastIsNull(es)
    ensures PublishField(On(PutFlagsField("properties", es, more)), m) == (On(more), m.(properties := WithFlags(m.properties, es)))
  {
    hide UnpackKey, Quoted, Colon, PutFlags, ReadProperties, UnpackInt, FindAfter, WithFlags;
    var list := PutFlags("", es, ['}'] + more);
    KeyAfterLead([','], "properties", Colon(['{'] + list));
    ColonSkips('{', list);
    FlagsRead("", es, more, m.properties);
    NextIs('}', more);
  }

  lemma UpdateFieldRead(es: seq<FlagEntry>, more: string, m: Draft)
    requires !LastIsNull(es)
    ensures PropertiesField(On(PutFlagsField("update", es, more)), m) == (On(more), WithUpdates(m, es))
  {
    hide UnpackKey, Quoted, Colon, PutFlags, ReadUpdates, FindAfter, WithUpdates;
    var list := PutFlags("", es, ['}'] + more);
    KeyAfterLead([','], "update", Colon(['{'] + list));
    ColonSkips('{', list);
    UpdatesRead("", es, more, m);
    NextIs('}', more);
  }

  lemma FieldEnds(es: seq<OptionEntry>, key: string, fs: seq<FlagEntry>, n: string, more: string)
    ensures Ends(PutOptionsField(es, more)) && Ends(PutFlagsField(key, fs, more)) && Ends(PutStringField([','], key, n, more))
  {
    hide Quoted, Colon;
  }

  // ------------------------------------------------------------ messages and frames

  lemma ParamsRead(w: Written, more: string)
    requires WellFormed(w) && Ends(more)
    ensures ReadParams(On(PutParams(w, more)), MethodOf(w)) == (On(more), MeaningOf(w))
  {
    hide SubscribeField, PublishField, UidField, PropertiesField, PutTopicsField, PutUidField, PutOptionsField, PutStringField,
         PutFlagsField, WithOptions, WithFlags, WithUpdates;
    match w {
      case WSubscribe(ts, i, es) => SubscribeRead(ts, i, es, more);
      case WUnsubscribe(i) => UidFieldRead("", "subuid", i, more, BLANK);
      case WPublish(n, i, t, es) => PublishRead(n, i, t, es, more);
      case WUnpublish(i) => UidFieldRead("", "pubuid", i, more, BLANK);
      case WSetProperties(n, es) =>
        StringFieldRead("", "name", n, PutFlagsField("update", es, more), BLANK);
        UpdateFieldRead(es, more, BLANK.(name := n));
    }
  }

  lemma SubscribeRead(ts: seq<string>, i: int, es: seq<OptionEntry>, more: string)
    requires WellFormed(WSubscribe(ts, i, es))
    ensures var w := WSubscribe(ts, i, es); ReadParams(On(PutParams(w, more)), MethodOf(w)) == (On(more), MeaningOf(w))
  {
    hide SubscribeField, PutTopicsField, PutUidField, PutOptionsField, WithOptions, Ends;
    var third := PutOptionsField(es, more);
    var second := PutUidField([','], "subuid", i, third);
    TopicsFieldRead(ts, second, BLANK);
    assert [] + ts == ts;
    var m1 := BLANK.(topics := ts);
    FieldEnds(es, "", [], "", more);
    UidFieldRead([','], "subuid", i, third, m1);
    OptionsFieldRead(es, more, m1.(uid := Just(i)));
  }

  lemma PublishRead(n: string, i: int, t: string, es: seq<FlagEntry>, more: string)
    requires WellFormed(WPublish(n, i, t, es))
    ensures var w := WPublish(n, i, t, es); ReadParams(On(PutParams(w, more)), MethodOf(w)) == (On(more), MeaningOf(w))
  {
    hide PublishField, PutStringField, PutUidField, PutFlagsField, WithFlags, Ends;
    var fourth := PutFlagsField("properties", es, more);
    var third := PutStringField([','], "type", t, fourth);
    var second := PutUidField([','], "pubuid", i, third);
    StringFieldRead("", "name", n, second, BLANK);
    var m1 := BLANK.(name := n);
    FieldEnds([], "type", [], t, fourth);
    UidFieldRead([','], "pubuid", i, third, m1);
    var m2 := m1.(uid := Just(i));
    StringFieldRead([','], "type", t, fourth, m2);
    PropertiesFieldRead(es, more, m2.(typeName := Just(t)));
  }

  lemma MethodIsClean(w: Written)
    ensures Clean(MethodOf(w)) && Clean("method") && Clean("params")
  {
  }

  lemma MessageRead(lead: string, w: Written, more: string)
    requires Lead(lead) && WellFormed(w)
    ensures ReadMessage(On(lead + PutMessage(w, more))) == (On(more), MeaningOf(w))
    ensures PeekType(lead + PutMessage(w, more)) == Just(ObjectType)
  {
    hide FindAfter, UnpackKey, Quoted, Colon, ReadParams, PutParams, WellFormed, MethodOf, MeaningOf;
    MethodIsClean(w);
    LeadSkips(lead);
    var tail := ['}'] + (['}'] + more);
    var params := ['{'] + PutParams(w, tail);
    var third := [','] + Quoted("params", Colon(params));
    var first := Quoted("method", Colon(Quoted(MethodOf(w), third)));
    FindAfterSkips(lead, '{', first);
    assert "" + first == first;
    KeyAfterLead("", "method", Colon(Quoted(MethodOf(w), third)));
    StringAfterColon(MethodOf(w), third);
    KeyAfterLead([','], "params", Colon(params));
    ColonSkips('{', PutParams(w, tail));
    ParamsRead(w, tail);
    NextIs('}', ['}'] + more);
    NextIs('}', more);
    PeekMessage(lead, first);
  }

  lemma PeekMessage(lead: string, first: string)
    requires Lead(lead)
    ensures PeekType(lead + (['{'] + first)) == Just(ObjectType)
  {
    assert PeekType(['{'] + first) == Just(ObjectType);
    if lead == "" {
      assert lead + (['{'] + first) == ['{'] + first;
    } else {
      PeekSkips(',', ['{'] + first);
    }
  }

  function Meanings(ws: seq<Written>): (ms: seq<ClientMessage>)
    ensures |ms| == |ws| && forall i :: 0 <= i < |ws| ==> ms[i] == MeaningOf(ws[i])
  {
    seq(|ws|, i requires 0 <= i < |ws| => MeaningOf(ws[i]))
  }

  // ------------------------------------------------------------ a search that finds nothing

  lemma {:induction false} NothingFound(rest: string, ch: char)
    requires ch !in rest && ch != '\0'
    ensures FindAfter(On(rest), ch) == Cursor("", true, true)
  {
    if rest == "" {
    } else {
      NothingFound(rest[1..], ch);
    }
  }
}
