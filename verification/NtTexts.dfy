/** The text frames to clients as JSON: what a reader that knows nothing of the server gets from them. */
module NtTexts {
  import opened Maybes
  import opened Decimals
  import opened Batching
  import opened Json
  import opened NtValues
  import opened NtClient
  import opened NtServer
  import opened NtServerInvariant
  import opened NtTheorems

  // ------------------------------------------------------------ the messages

  function PropertiesJson(p: Properties): Value {
    JObject(Field("persistent", JBool(p.persistent), Field("retained", JBool(p.retained),
            Field("cached", JBool(p.cached), NoField))))
  }

  /** What the protocol has a client read: publisher id and acknowledgement are there only if they say something. */
  function Meaning(t: Text): Value {
    Message(if t.Announce? then "announce" else "properties", t.name, Details(t))
  }

  function Details(t: Text): Fields {
    match t
    case Announce(_, id, typeName, pubuid, p) =>
      var last := Field("properties", PropertiesJson(p), NoField);
      Field("id", JNumber(id), Field("type", JString(typeName),
        if pubuid.Just? then Field("pubuid", JNumber(pubuid.value), last) else last))
    case PropertyUpdate(_, ack, p) =>
      var last := Field("update", PropertiesJson(p), NoField);
      if ack then Field("ack", JBool(true), last) else last
  }

  function Message(kind: string, name: string, others: Fields): Value {
    JObject(Field("method", JString(kind), Field("params", JObject(Field("name", JString(name), others)), NoField)))
  }

  function Meanings(ts: seq<Text>): Json.Items {
    if ts == [] then NoItem else Item(Meaning(ts[0]), Meanings(ts[1..]))
  }

  /** What needs no escape for the message to be read. */
  predicate Clean(t: Text) {
    AllUnescaped(t.name) && (t.Announce? ==> AllUnescaped(t.typeName))
  }

  predicate AllClean(ts: seq<Text>) {
    forall t | t in ts :: Clean(t)
  }

  function RenderAll(ts: seq<Text>): seq<string> {
    seq(|ts|, i requires 0 <= i < |ts| => Render(ts[i]))
  }

  /** What is put for a field in front of others. */
  lemma FieldPut(key: string, v: Value, others: Fields)
    ensures PutFields(Field(key, v, others)) ==
            Label(key) + Json.Put(v) + if others.NoField? then "}" else "," + PutFields(others)
    ensures PlainFields(Field(key, v, others)) <==> AllUnescaped(key) && Plain(v) && (others.NoField? || PlainFields(others))
  {
    hide Label, AllUnescaped, Json.Put;
  }

  lemma PropertiesRendered(p: Properties)
    ensures RenderProperties(p) == Json.Put(PropertiesJson(p))
    ensures Plain(PropertiesJson(p))
  {
    hide BoolText, PutFields, PlainFields, Label, AllUnescaped;
    var third := Field("cached", JBool(p.cached), NoField);
    var second := Field("retained", JBool(p.retained), third);
    FieldPut("cached", JBool(p.cached), NoField);
    FieldPut("retained", JBool(p.retained), third);
    FieldPut("persistent", JBool(p.persistent), second);
    PropertyLabels();
    Triple(Label("persistent"), BoolText(p.persistent), Label("retained"), BoolText(p.retained), Label("cached"), BoolText(p.cached));
  }

  lemma PropertyLabels()
    ensures "{\"persistent\":" == "{" + Label("persistent")
    ensures ",\"retained\":" == "," + Label("retained")
    ensures ",\"cached\":" == "," + Label("cached")
    ensures AllUnescaped("persistent") && AllUnescaped("retained") && AllUnescaped("cached")
  {
  }

  lemma Triple(k1: string, v1: string, k2: string, v2: string, k3: string, v3: string)
    ensures "{" + k1 + v1 + ("," + k2) + v2 + ("," + k3) + v3 + "}" ==
            "{" + (k1 + v1 + ("," + (k2 + v2 + ("," + (k3 + v3 + "}")))))
  {
    assert k3 + v3 + "}" == k3 + (v3 + "}");
  }

  lemma DetailLabels()
    ensures "\"id\":" == Label("id") && ",\"type\":\"" == "," + Label("type") + "\""
    ensures ",\"pubuid\":" == "," + Label("pubuid") && ",\"properties\":" == "," + Label("properties")
    ensures AllUnescaped("id") && AllUnescaped("type") && AllUnescaped("pubuid") && AllUnescaped("properties")
  {
  }

  lemma UpdateLabels()
    ensures "\"ack\":true," == Label("ack") + "true" + "," && "\"update\":" == Label("update")
    ensures AllUnescaped("ack") && AllUnescaped("update")
  {
  }

  /** Everything behind the name. */
  function Tail(t: Text): string {
    match t
    case Announce(_, id, typeName, pubuid, p) =>
      "\"id\":" + IntText(id) + ",\"type\":\"" + typeName + "\"" +
      (if pubuid.Just? then ",\"pubuid\":" + IntText(pubuid.value) else "") + ",\"properties\":" + RenderProperties(p) + "}"
    case PropertyUpdate(_, ack, p) =>
      (if ack then "\"ack\":true," else "") + "\"update\":" + RenderProperties(p) + "}"
  }

  lemma AnnounceTail(t: Text)
    requires t.Announce?
    ensures Tail(t) == PutFields(Details(t))
    ensures PlainFields(Details(t)) <==> AllUnescaped(t.typeName)
  {
    hide IntText, AllUnescaped, PutFields, PlainFields, RenderProperties, PropertiesJson, Label;
    var p := t.properties;
    PropertiesRendered(p);
    DetailLabels();
    var last := Field("properties", PropertiesJson(p), NoField);
    FieldPut("properties", PropertiesJson(p), NoField);
    var third := if t.pubuid.Just? then Field("pubuid", JNumber(t.pubuid.value), last) else last;
    if t.pubuid.Just? { FieldPut("pubuid", JNumber(t.pubuid.value), last); }
    FieldPut("type", JString(t.typeName), third);
    FieldPut("id", JNumber(t.id), Field("type", JString(t.typeName), third));
    if t.pubuid.Just? {
      Four(Label("id"), IntText(t.id), Label("type"), t.typeName, Label("pubuid"), IntText(t.pubuid.value), Label("properties"), RenderProperties(p));
    } else {
      Three(Label("id"), IntText(t.id), Label("type"), t.typeName, Label("properties"), RenderProperties(p));
    }
  }

  lemma Four(k1: string, v1: string, k2: string, v2: string, k3: string, v3: string, k4: string, v4: string)
    ensures k1 + v1 + ("," + k2 + "\"") + v2 + "\"" + ("," + k3 + v3) + ("," + k4) + v4 + "}" ==
            k1 + v1 + ("," + (k2 + ("\"" + v2 + "\"") + ("," + (k3 + v3 + ("," + (k4 + v4 + "}"))))))
  {
  }

  lemma Three(k1: string, v1: string, k2: string, v2: string, k3: string, v3: string)
    ensures k1 + v1 + ("," + k2 + "\"") + v2 + "\"" + "" + ("," + k3) + v3 + "}" ==
            k1 + v1 + ("," + (k2 + ("\"" + v2 + "\"") + ("," + (k3 + v3 + "}"))))
  {
  }

  lemma UpdateTail(t: Text)
    requires t.PropertyUpdate?
    ensures Tail(t) == PutFields(Details(t))
    ensures PlainFields(Details(t))
  {
    hide AllUnescaped, PutFields, PlainFields, RenderProperties, PropertiesJson, Label;
    var p := t.properties;
    PropertiesRendered(p);
    UpdateLabels();
    var last := Field("update", PropertiesJson(p), NoField);
    FieldPut("update", PropertiesJson(p), NoField);
    if t.ack { FieldPut("ack", JBool(true), last); }
    Two(Label("ack") + "true", Label("update") + RenderProperties(p));
  }

  lemma Two(ack: string, update: string)
    ensures (ack + ",") + update + "}" == ack + ("," + (update + "}"))
  {
  }

  lemma MessageLabels()
    ensures "{\"method\":\"announce\",\"params\":{\"name\":\"" == Head("announce")
    ensures "{\"method\":\"properties\",\"params\":{\"name\":\"" == Head("properties")
    ensures AllUnescaped("method") && AllUnescaped("params") && AllUnescaped("name")
    ensures AllUnescaped("announce") && AllUnescaped("properties")
  {
    hide Label;
    AnnounceHead();
    PropertiesHead();
    HeadLabels();
    var l1, l2, l3 := Label("method"), Label("params"), Label("name");
    HeadRegrouped("announce", l1, l2, l3);
    HeadRegrouped("properties", l1, l2, l3);
  }

  lemma AnnounceHead()
    ensures "{\"method\":\"announce\",\"params\":{\"name\":\"" == "{\"method\":\"" + "announce" + "\",\"params\":{\"name\":\""
  {
  }

  lemma PropertiesHead()
    ensures "{\"method\":\"properties\",\"params\":{\"name\":\"" == "{\"method\":\"" + "properties" + "\",\"params\":{\"name\":\""
  {
  }

  lemma HeadLabels()
    ensures "{\"method\":\"" == "{" + Label("method") + "\""
    ensures "\",\"params\":{\"name\":\"" == "\"," + Label("params") + "{" + Label("name") + "\""
  {
  }

  lemma HeadRegrouped(kind: string, l1: string, l2: string, l3: string)
    ensures ("{" + l1 + "\"") + kind + ("\"," + l2 + "{" + l3 + "\"") == "{" + l1 + "\"" + kind + "\"," + l2 + "{" + l3 + "\""
  {
  }

  function Head(kind: string): string {
    "{" + Label("method") + "\"" + kind + "\"," + Label("params") + "{" + Label("name") + "\""
  }

  /** A message is the JSON that it means, its strings put in as they are. */
  lemma Rendered(t: Text)
    ensures Render(t) == Json.Put(Meaning(t))
    ensures Plain(Meaning(t)) <==> Clean(t)
  {
    hide AllUnescaped, PutFields, PlainFields, Render, Details, Label, Tail;
    if t.Announce? { AnnounceTail(t); } else { UpdateTail(t); }
    RenderParts(t);
    MessageLabels();
    var kind := if t.Announce? then "announce" else "properties";
    var name := Field("name", JString(t.name), Details(t));
    FieldPut("name", JString(t.name), Details(t));
    FieldPut("params", JObject(name), NoField);
    FieldPut("method", JString(kind), Field("params", JObject(name), NoField));
    Nested(kind, Label("method"), Label("params"), Label("name"), t.name, Tail(t));
  }

  lemma RenderParts(t: Text)
    ensures Render(t) == Head(if t.Announce? then "announce" else "properties") + t.name + "\"," + Tail(t) + "}"
    ensures Details(t).Field?
  {
    hide RenderProperties, IntText, Head;
    MessageLabels();
    var p := RenderProperties(t.properties);
    match t
    case Announce(_, id, _, pubuid, _) =>
      var pub := if pubuid.Just? then ",\"pubuid\":" + IntText(pubuid.value) else "";
      Announced(Head("announce"), t.name, IntText(id), t.typeName, pub, p);
    case PropertyUpdate(_, ack, _) =>
      Changed(Head("properties"), t.name, ack, p);
  }

  lemma Announced(head: string, name: string, id: string, typeName: string, pub: string, p: string)
    ensures head + name + "\",\"id\":" + id + ",\"type\":\"" + typeName + "\"" + pub + ",\"properties\":" + p + "}}" ==
            head + name + "\"," + ("\"id\":" + id + ",\"type\":\"" + typeName + "\"" + pub + ",\"properties\":" + p + "}") + "}"
  {
    assert "\",\"id\":" == "\"," + "\"id\":" && "}}" == "}" + "}";
    Regrouped(head + name, "\",", "\"id\":", id, ",\"type\":\"", typeName + "\"" + pub, ",\"properties\":", p);
    assert id + ",\"type\":\"" + typeName + "\"" + pub == id + ",\"type\":\"" + (typeName + "\"" + pub);
  }

  lemma Regrouped(a: string, b: string, c: string, d: string, e: string, f: string, g: string, h: string)
    ensures a + (b + c) + d + e + f + g + h + "}" + "}" == a + b + (c + d + e + f + g + h + "}") + "}"
  {
  }

  lemma Changed(head: string, name: string, ack: bool, p: string)
    ensures head + name + "\"" + (if ack then ",\"ack\":true" else "") + ",\"update\":" + p + "}}" ==
            head + name + "\"," + ((if ack then "\"ack\":true," else "") + "\"update\":" + p + "}") + "}"
  {
    assert ",\"update\":" == "," + "\"update\":" && "}}" == "}" + "}";
    if ack {
      assert ",\"ack\":true" + "," == "," + "\"ack\":true,";
    }
  }

  lemma Nested(kind: string, l1: string, l2: string, l3: string, name: string, tail: string)
    ensures ("{" + l1 + "\"" + kind + "\"," + l2 + "{" + l3 + "\"") + name + "\"," + tail + "}" ==
            "{" + (l1 + ("\"" + kind + "\"") + ("," + (l2 + ("{" + (l3 + ("\"" + name + "\"") + ("," + tail))) + "}")))
  {
  }

  /** A reader gets what the message means exactly if its strings need no escape; nothing else means the same. */
  lemma TextReadIff(t: Text)
    ensures ParseJson(Render(t)) == Just(Meaning(t)) <==> Clean(t)
    ensures forall u :: Meaning(u) == Meaning(t) ==> u == t
  {
    hide Render, Meaning, Clean, Json.Put, ValueAt, Plain;
    Rendered(t);
    ValueReadIff(Meaning(t), "");
    assert Json.Put(Meaning(t)) + "" == Json.Put(Meaning(t));
    forall u | Meaning(u) == Meaning(t) ensures u == t {
      SameMeaning(t, u);
    }
  }

  lemma SameMeaning(t: Text, u: Text)
    requires Meaning(u) == Meaning(t)
    ensures u == t
  {
    assert "announce" != "properties" by { assert |"announce"| != |"properties"|; }
  }

  // ------------------------------------------------------------ whole frames

  lemma {:induction false} JoinFirst(items: seq<string>)
    requires |items| > 1
    ensures Join(TEXT, items) == items[0] + "," + Join(TEXT, items[1..])
  {
    if |items| == 2 {
      assert items[..1] == [items[0]] && items[1..] == [items[1]];
    } else {
      var init := items[..|items| - 1];
      JoinFirst(init);
      assert init[1..] == items[1..][..|items| - 2];
      Around(items[0], Join(TEXT, init[1..]), items[|items| - 1]);
    }
  }

  lemma Around(a: string, b: string, c: string)
    ensures (a + "," + b) + "," + c == a + "," + (b + "," + c)
  {
  }

  lemma {:induction false} FrameRendered(ts: seq<Text>)
    requires ts != []
    ensures Join(TEXT, RenderAll(ts)) + "]" == PutItems(Meanings(ts))
    ensures PlainItems(Meanings(ts)) <==> AllClean(ts)
    ensures Meanings(ts).Item?
  {
    hide Render, Meaning, Clean, Json.Put, Plain;
    Rendered(ts[0]);
    assert RenderAll(ts)[0] == Render(ts[0]);
    assert ts == [ts[0]] + ts[1..];
    if |ts| > 1 {
      assert RenderAll(ts)[1..] == RenderAll(ts[1..]);
      JoinFirst(RenderAll(ts));
      FrameRendered(ts[1..]);
    } else {
      assert PlainItems(Meanings(ts[1..]));
    }
  }

  /** A frame is read as the array of what its messages mean exactly if none of their strings needs an escape. */
  lemma FrameReadIff(ts: seq<Text>)
    requires ts != []
    ensures ParseJson(Frame(TEXT, RenderAll(ts))) == Just(JArray(Meanings(ts))) <==> AllClean(ts)
  {
    hide Join, ValueAt, PutItems, PlainItems, Meanings, RenderAll;
    FrameRendered(ts);
    ValueReadIff(JArray(Meanings(ts)), "");
    assert Json.Put(JArray(Meanings(ts))) == Frame(TEXT, RenderAll(ts));
    assert Json.Put(JArray(Meanings(ts))) + "" == Json.Put(JArray(Meanings(ts)));
  }

  // ------------------------------------------------------------ runs

  /** The messages among the queued things. */
  function Messages(queue: seq<Queued>): seq<Text> {
    if queue == [] then []
    else
      var ts := Messages(queue[..|queue| - 1]);
      match queue[|queue| - 1]
      case TextMessage(t) => ts + [t]
      case Update(_, _) => ts
  }

  lemma {:induction false} MessagesRendered(queue: seq<Queued>)
    ensures Texts(queue) == RenderAll(Messages(queue))
    ensures forall t | t in Messages(queue) :: TextMessage(t) in queue
  {
    hide Render;
    if queue != [] {
      MessagesRendered(queue[..|queue| - 1]);
    }
  }

  lemma {:induction false} GroupIsSlice<T>(groups: seq<seq<T>>, i: nat)
    requires i < |groups|
    ensures var a := |Flatten(groups[..i])|; var b := a + |groups[i]|;
            b <= |Flatten(groups)| && Flatten(groups)[a..b] == groups[i]
  {
    var n := |groups| - 1;
    if i < n {
      GroupIsSlice(groups[..n], i);
      assert groups[..n][..i] == groups[..i];
    }
  }

  lemma TypeNamesUnescaped(t: NTType)
    ensures AllUnescaped(TypeName(t))
  {
  }

  /** In every run: a text frame that was sent is read as the array of what its messages mean, the queued
      ones in their order, exactly if no name in it needs an escape. */
  lemma FramesAreJsonIff(enc: Encoders, inputs: seq<Input>, s: Server, g: Guid, i: nat)
    requires Reached(enc, inputs, s) && g in s.clients && i < |s.clients[g].text.sent|
    ensures var c := s.clients[g]; var frame := c.text.sent[i];
            var a := |Flatten(c.text.sent[..i])|; var b := a + |frame|;
            a < b <= |Messages(c.queue)| &&
            (ParseJson(Frame(TEXT, frame)) == Just(JArray(Meanings(Messages(c.queue)[a..b]))) <==>
             forall t | t in Messages(c.queue)[a..b] :: AllUnescaped(t.name))
  {
    hide Run, SoundRun, IdsOk, HistoryOk, Join, Flatten, Texts, Messages, Records, RenderAll, Meanings, ParseJson, Frame, AllUnescaped, TypeName;
    var c := s.clients[g];
    FramesAreLossless(enc, inputs, s, g);
    RunClient(enc, inputs, s, g);
    MessagesRendered(c.queue);
    GroupIsSlice(c.text.sent, i);
    var a := |Flatten(c.text.sent[..i])|;
    var b := a + |c.text.sent[i]|;
    Slice(c, i, a, b);
    var ts := Messages(c.queue)[a..b];
    assert c.text.sent[i] in c.text.sent;
    FrameReadIff(ts);
    forall t | t in ts && t.Announce? ensures AllUnescaped(t.typeName) {
      assert Agrees(TextMessage(t), s.topics);
      TypeNamesUnescaped(TypeOf(s.topics[t.name].value));
    }
  }

  lemma Slice(c: Client, i: nat, a: nat, b: nat)
    requires i < |c.text.sent| && Flatten(c.text.sent) + c.text.cached == RenderAll(Messages(c.queue))
    requires a <= b <= |Flatten(c.text.sent)| && Flatten(c.text.sent)[a..b] == c.text.sent[i]
    ensures b <= |Messages(c.queue)| && RenderAll(Messages(c.queue)[a..b]) == c.text.sent[i]
  {
    hide Flatten, Messages, Render;
    assert Flatten(c.text.sent)[a..b] == RenderAll(Messages(c.queue))[a..b];
    assert RenderAll(Messages(c.queue)[a..b]) == RenderAll(Messages(c.queue))[a..b];
  }
}
