/** The loop of the server over the messages of a text frame. It ends on every text. */
module JsonMessages {
  import opened Maybes
  import opened JsonCursor
  import opened NtClient

  /** The local variables of one message; Nothing is a variable that was never set. */
  datatype Draft = Draft(
    topics: seq<string>,
    uid: Maybe<int>,
    options: SubscriptionOptions,
    name: string,
    typeName: Maybe<string>,
    properties: Properties,
    persistent: Maybe<bool>,
    retained: Maybe<bool>,
    cached: Maybe<bool>)

  const BLANK := Draft([], Nothing, SubscriptionOptions(100, false, false, false), "", Nothing,
                       Properties(false, false, true), Nothing, Nothing, Nothing)

  datatype ClientMessage =
    | SubscribeMessage(topics: seq<string>, subuid: Maybe<int>, options: SubscriptionOptions)
    | UnsubscribeMessage(subuid: Maybe<int>)
    | PublishMessage(name: string, pubuid: Maybe<int>, typeName: Maybe<string>, properties: Properties)
    | UnpublishMessage(pubuid: Maybe<int>)
    | SetPropertiesMessage(name: string, persistent: Maybe<bool>, retained: Maybe<bool>, cached: Maybe<bool>)
    | OtherMessage

  type State = (Cursor, Draft)

  // ------------------------------------------------------------ lists and objects inside a message

  /** The strings of an array, up to its end. */
  function ReadTopics(c: Cursor): (r: (Cursor, seq<string>))
    ensures |r.0.rest| <= |c.rest|
    decreases |c.rest|
  {
    var t := PeekType(c.rest);
    if t.Nothing? || t.value == ArrayEndType then (c, [])
    else
      var (d, s) := UnpackKey(c);
      var (e, ss) := ReadTopics(d);
      (e, [s] + ss)
  }

  function ReadOption(c: Cursor, o: SubscriptionOptions): (r: (Cursor, SubscriptionOptions))
    ensures |r.0.rest| <= |c.rest| && (c.rest != "" ==> |r.0.rest| < |c.rest|)
  {
    var (d, key) := UnpackKey(c);
    if key == "periodic" && PeekOr(d.rest) == IntType then
      var (e, i) := UnpackInt(d);
      (e, o.(periodic := match i case Nothing => 0 case Just(v) => v))
    else if key == "all" && IsBool(PeekOr(d.rest)) then
      var (e, b) := UnpackBool(d);
      (e, o.(all := b))
    else if key == "topicsonly" && IsBool(PeekOr(d.rest)) then
      var (e, b) := UnpackBool(d);
      (e, o.(topicsonly := b))
    else if key == "prefix" && IsBool(PeekOr(d.rest)) then
      var (e, b) := UnpackBool(d);
      (e, o.(prefix := b))
    else (d, o)
  }

  function ReadOptions(c: Cursor, o: SubscriptionOptions): (r: (Cursor, SubscriptionOptions))
    ensures |r.0.rest| <= |c.rest|
    decreases |c.rest|
  {
    var t := PeekType(c.rest);
    if t.Nothing? || t.value == ObjectEndType then (c, o)
    else
      var (d, p) := ReadOption(c, o);
      ReadOptions(d, p)
  }

  function ReadProperty(c: Cursor, p: Properties): (r: (Cursor, Properties))
    ensures |r.0.rest| <= |c.rest| && (c.rest != "" ==> |r.0.rest| < |c.rest|)
  {
    var (d, key) := UnpackKey(c);
    if !IsBool(PeekOr(d.rest)) then (d, p)
    else if key == "persistent" then
      var (e, b) := UnpackBool(d);
      (e, p.(persistent := b))
    else if key == "retained" then
      var (e, b) := UnpackBool(d);
      (e, p.(retained := b))
    else if key == "cached" then
      var (e, b) := UnpackBool(d);
      (e, p.(cached := b))
    else (d, p)
  }

  function ReadProperties(c: Cursor, p: Properties): (r: (Cursor, Properties))
    ensures |r.0.rest| <= |c.rest|
    decreases |c.rest|
  {
    var t := PeekType(c.rest);
    if t.Nothing? || t.value == ObjectEndType then (c, p)
    else
      var (d, q) := ReadProperty(c, p);
      ReadProperties(d, q)
  }

  /** unpack_default_bool: a null leaves the cursor before it. */
  function UnpackDefaultBool(c: Cursor): (r: (Cursor, Maybe<bool>))
    ensures |r.0.rest| <= |c.rest|
  {
    if PeekOr(c.rest) == NullType then (c, Nothing)
    else
      var (d, b) := UnpackBool(c);
      (d, Just(b))
  }

  function ReadUpdate(c: Cursor, m: Draft): (r: State)
    ensures |r.0.rest| <= |c.rest| && (c.rest != "" ==> |r.0.rest| < |c.rest|)
  {
    var (d, key) := UnpackKey(c);
    if !IsBool(PeekOr(d.rest)) && PeekOr(d.rest) != NullType then (d, m)
    else if key == "persistent" then
      var (e, b) := UnpackDefaultBool(d);
      (e, m.(persistent := b))
    else if key == "retained" then
      var (e, b) := UnpackDefaultBool(d);
      (e, m.(retained := b))
    else if key == "cached" then
      var (e, b) := UnpackDefaultBool(d);
      (e, m.(cached := b))
    else (d, m)
  }

  function ReadUpdates(c: Cursor, m: Draft): (r: State)
    ensures |r.0.rest| <= |c.rest|
    decreases |c.rest|
  {
    var t := PeekType(c.rest);
    if t.Nothing? || t.value == ObjectEndType then (c, m)
    else
      var (d, n) := ReadUpdate(c, m);
      ReadUpdates(d, n)
  }

  // ------------------------------------------------------------ the fields of a message

  function SubscribeField(c: Cursor, m: Draft): (r: State)
    ensures |r.0.rest| <= |c.rest|
  {
    var (d, key) := UnpackKey(c);
    if key == "topics" then
      var (e, ts) := ReadTopics(FindAfter(d, '['));
      (FindAfter(e, ']'), m.(topics := m.topics + ts))
    else if key == "subuid" then
      var (e, i) := UnpackInt(d);
      (e, m.(uid := i))
    else if key == "options" then
      var (e, o) := ReadOptions(FindAfter(d, '{'), m.options);
      (FindAfter(e, '}'), m.(options := o))
    else (d, m)
  }

  function PublishField(c: Cursor, m: Draft): (r: State)
    ensures |r.0.rest| <= |c.rest|
  {
    var (d, key) := UnpackKey(c);
    if key == "name" then
      var (e, s) := UnpackKey(d);
      (e, m.(name := s))
    else if key == "pubuid" then
      var (e, i) := UnpackInt(d);
      (e, m.(uid := i))
    else if key == "type" then
      var (e, s) := UnpackKey(d);
      (e, m.(typeName := Just(s)))
    else if key == "properties" then
      var (e, p) := ReadProperties(FindAfter(d, '{'), m.properties);
      (FindAfter(e, '}'), m.(properties := p))
    else (d, m)
  }

  function UidField(c: Cursor, m: Draft, expected: string): (r: State)
    ensures |r.0.rest| <= |c.rest|
  {
    var (d, key) := UnpackKey(c);
    if key == expected then
      var (e, i) := UnpackInt(d);
      (e, m.(uid := i))
    else (d, m)
  }

  function PropertiesField(c: Cursor, m: Draft): (r: State)
    ensures |r.0.rest| <= |c.rest|
  {
    var (d, key) := UnpackKey(c);
    if key == "name" then
      var (e, s) := UnpackKey(d);
      (e, m.(name := s))
    else if key == "update" then
      var (e, n) := ReadUpdates(FindAfter(d, '{'), m);
      (FindAfter(e, '}'), n)
    else (d, m)
  }

  // ------------------------------------------------------------ messages

  /** The parameters of a message, by its method. */
  function ReadParams(c: Cursor, method_: string): (r: (Cursor, ClientMessage))
    ensures |r.0.rest| <= |c.rest|
  {
    if method_ == "subscribe" then
      var (c1, m1) := SubscribeField(c, BLANK);
      var (c2, m2) := SubscribeField(c1, m1);
      var (c3, m3) := SubscribeField(c2, m2);
      (c3, SubscribeMessage(m3.topics, m3.uid, m3.options))
    else if method_ == "publish" then
      var (c1, m1) := PublishField(c, BLANK);
      var (c2, m2) := PublishField(c1, m1);
      var (c3, m3) := PublishField(c2, m2);
      var (c4, m4) := PublishField(c3, m3);
      (c4, PublishMessage(m4.name, m4.uid, m4.typeName, m4.properties))
    else if method_ == "unsubscribe" then
      var (c1, m1) := UidField(c, BLANK, "subuid");
      (c1, UnsubscribeMessage(m1.uid))
    else if method_ == "unpublish" then
      var (c1, m1) := UidField(c, BLANK, "pubuid");
      (c1, UnpublishMessage(m1.uid))
    else if method_ == "setproperties" then
      var (c1, m1) := PropertiesField(c, BLANK);
      var (c2, m2) := PropertiesField(c1, m1);
      (c2, SetPropertiesMessage(m2.name, m2.persistent, m2.retained, m2.cached))
    else (c, OtherMessage)
  }

  /** One pass of the loop; it takes at least a character, if there is one. */
  function ReadMessage(c: Cursor): (r: (Cursor, ClientMessage))
    ensures |r.0.rest| <= |c.rest| && (c.rest != "" ==> |r.0.rest| < |c.rest|)
  {
    var c1 := FindAfter(c, '{');
    var (c2, _) := UnpackKey(c1);
    var (c3, method_) := UnpackKey(c2);
    var (c4, _) := UnpackKey(c3);
    var c5 := FindAfter(c4, '{');
    var (c6, m) := ReadParams(c5, method_);
    (FindAfter(FindAfter(c6, '}'), '}'), m)
  }

  function ReadMessages(c: Cursor): (Cursor, seq<ClientMessage>)
    decreases |c.rest|
  {
    var (d, m) := ReadMessage(c);
    var t := PeekType(d.rest);
    if d.ec || t.Nothing? || t.value == ArrayEndType then (d, [m])
    else
      var (e, ms) := ReadMessages(d);
      (e, [m] + ms)
  }

  /** All messages of a frame. */
  function ReadFrame(text: string): seq<ClientMessage> {
    ReadMessages(FindAfter(On(text), '[')).1
  }
}
