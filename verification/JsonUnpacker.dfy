/** The reader of JSON text as an object with a moving pointer, and the loop of the server over a text frame. */
module JsonUnpacker {
  import opened Maybes
  import opened JsonCursor
  import opened JsonMessages
  import opened NtClient

  class Unpacker {
    var data: string
    var pos: nat
    var ec: bool

    /** The pointer is never further than one past the end. */
    ghost predicate Valid()
      reads this
    {
      pos <= |data| + 1
    }

    function Unread(): string
      reads this
    {
      if pos <= |data| then data[pos..] else ""
    }

    function Cur(): Cursor
      reads this
    {
      Cursor(Unread(), pos > |data|, ec)
    }

    constructor (text: string)
      ensures Valid() && data == text && Cur() == On(text)
    {
      data, pos, ec := text, 0, false;
    }

    method SafeData() returns (c: char)
      requires Valid()
      modifies this`ec
      ensures Valid() && Cur() == Touch(old(Cur())) && c == Peek(old(Cur()))
    {
      if pos < |data| {
        return data[pos];
      }
      ec := true;
      return '\0';
    }

    method SafeIncrement()
      requires Valid()
      modifies this`pos, this`ec
      ensures Valid() && Cur() == Step(old(Cur())) && pos >= old(pos)
    {
      if |data| - pos >= 0 {
        pos := pos + 1;
      } else {
        ec := true;
      }
    }

    method SafeFindAfter(ch: char)
      requires Valid()
      modifies this`pos, this`ec
      ensures Valid() && Cur() == FindAfter(old(Cur()), ch) && pos >= old(pos)
      ensures !ec ==> pos <= |data|
    {
      while true
        invariant Valid() && pos >= old(pos)
        invariant FindAfter(Cur(), ch) == FindAfter(old(Cur()), ch)
        decreases |Unread()|
      {
        var c := SafeData();
        SafeIncrement();
        if ec || c == ch {
          break;
        }
      }
    }

    method SafeFind(ch: char)
      requires Valid()
      modifies this`pos, this`ec
      requires ch != '\0'
      ensures Valid() && Cur() == Find(old(Cur()), ch) && pos >= old(pos)
      ensures !ec ==> pos < |data|
    {
      while true
        invariant Valid() && pos >= old(pos)
        invariant Find(Cur(), ch) == Find(old(Cur()), ch)
        decreases |Unread()|
      {
        var c := SafeData();
        if c == ch {
          break;
        }
        SafeIncrement();
        if ec {
          break;
        }
      }
    }

    method SafeFindAny(chars: string)
      requires Valid()
      modifies this`pos, this`ec
      ensures Valid() && Cur() == FindAny(old(Cur()), chars) && pos >= old(pos)
      ensures !ec ==> pos < |data|
    {
      hide FindAny;
      while true
        invariant Valid() && pos >= old(pos) && ec == old(ec)
        invariant FindAny(Cur(), chars) == FindAny(old(Cur()), chars)
        decreases |Unread()|
      {
        FindAnyStep(Cur(), chars);
        if pos >= |data| {
          ec := true;
          return;
        }
        if data[pos] in chars {
          ec := false;
          return;
        }
        pos := pos + 1;
      }
    }

    method UnpackKey() returns (key: string)
      requires Valid()
      modifies this`pos, this`ec
      ensures Valid() && (Cur(), key) == JsonCursor.UnpackKey(old(Cur())) && pos >= old(pos)
    {
      hide FindAfter, Find;
      SafeFindAfter('"');
      if ec {
        return "";
      }
      var start := pos;
      ghost var c := Cur();
      SafeFind('"');
      if ec {
        return "";
      }
      key := data[start..pos];
      assert data[start..][..pos - start] == key;
      assert key == c.rest[..|c.rest| - |Cur().rest|];
      SafeIncrement();
    }

    method UnpackInt() returns (i: Maybe<int>)
      requires Valid()
      modifies this`pos, this`ec
      ensures Valid() && (Cur(), i) == JsonCursor.UnpackInt(old(Cur())) && pos >= old(pos)
    {
      hide FindAny, FromChars32;
      SafeFindAny(NUMERIC);
      if ec {
        return Just(0);
      }
      var start := pos;
      ghost var c := Cur();
      SafeFindAny(",}");
      if ec {
        return Just(0);
      }
      var text := data[start..pos];
      assert data[start..][..pos - start] == text;
      assert text == c.rest[..|c.rest| - |Cur().rest|];
      match FromChars32(text) {
        case Invalid =>
          ec := true;
          return Just(0);
        case TooLarge =>
          return Nothing;
        case Fits(n) =>
          return Just(n);
      }
    }

    method UnpackBool() returns (b: bool)
      requires Valid()
      modifies this`pos, this`ec
      ensures Valid() && (Cur(), b) == JsonCursor.UnpackBool(old(Cur())) && pos >= old(pos)
    {
      hide JsonCursor.UnpackBool, IsTrue, IsFalse;
      while true
        invariant Valid() && pos >= old(pos)
        invariant JsonCursor.UnpackBool(Cur()) == JsonCursor.UnpackBool(old(Cur()))
        decreases |Unread()|
      {
        BoolStep(Cur());
        var c := SafeData();
        if ec {
          return false;
        }
        if IsTrue(data[pos..]) {
          pos := pos + 4;
          return true;
        }
        if IsFalse(data[pos..]) {
          pos := pos + 5;
          return false;
        }
        pos := pos + 1;
      }
    }

    /** Only looks ahead. */
    method PeekTypeHere() returns (t: Maybe<DataType>)
      requires Valid()
      ensures t == PeekType(Cur().rest)
    {
      var p := pos;
      while p < |data|
        invariant pos <= p
        invariant PeekType(Cur().rest) == PeekType(if p <= |data| then data[p..] else "")
      {
        t := TypeAt(data[p..]);
        if t.Just? {
          return;
        }
        p := p + 1;
      }
      t := Nothing;
    }

    method PeekHere() returns (t: DataType)
      requires Valid()
      ensures t == PeekOr(Cur().rest)
    {
      var m := PeekTypeHere();
      t := match m case Nothing => NullType case Just(u) => u;
    }

    method UnpackDefaultBool() returns (b: Maybe<bool>)
      requires Valid()
      modifies this`pos, this`ec
      ensures Valid() && (Cur(), b) == JsonMessages.UnpackDefaultBool(old(Cur())) && pos >= old(pos)
    {
      hide PeekOr, JsonCursor.UnpackBool;
      var t := PeekHere();
      if t == NullType {
        return Nothing;
      }
      var v := UnpackBool();
      b := Just(v);
    }

    // -------------------------------------------------------- lists and objects inside a message

    method ParseTopics() returns (topics: seq<string>)
      requires Valid()
      modifies this`pos, this`ec
      ensures Valid() && (Cur(), topics) == ReadTopics(old(Cur())) && pos >= old(pos)
    {
      hide ReadTopics, PeekType, JsonCursor.UnpackKey;
      topics := [];
      ghost var whole := ReadTopics(Cur());
      assert [] + whole.1 == whole.1;
      while true
        invariant Valid() && pos >= old(pos)
        invariant whole == (ReadTopics(Cur()).0, topics + ReadTopics(Cur()).1)
        decreases |Unread()|
      {
        ghost var c := Cur();
        TopicsStep(c, topics);
        var t := PeekTypeHere();
        if t.Nothing? || t.value == ArrayEndType {
          return;
        }
        KeyAdvances(c);
        var s := UnpackKey();
        topics := topics + [s];
      }
    }

    method ParseOptions(o: SubscriptionOptions) returns (options: SubscriptionOptions)
      requires Valid()
      modifies this`pos, this`ec
      ensures Valid() && (Cur(), options) == ReadOptions(old(Cur()), o) && pos >= old(pos)
    {
      hide PeekType, ReadOption;
      options := o;
      while true
        invariant Valid() && pos >= old(pos)
        invariant ReadOptions(Cur(), options) == ReadOptions(old(Cur()), o)
        decreases |Unread()|
      {
        ghost var c := Cur();
        PeekNeedsText(c);
        OptionAdvances(c, options);
        var t := PeekTypeHere();
        if t.Nothing? || t.value == ObjectEndType {
          return;
        }
        options := ParseOption(options);
      }
    }

    method ParseOption(o: SubscriptionOptions) returns (options: SubscriptionOptions)
      requires Valid()
      modifies this`pos, this`ec
      ensures Valid() && (Cur(), options) == ReadOption(old(Cur()), o) && pos >= old(pos)
    {
      hide PeekOr, JsonCursor.UnpackKey, JsonCursor.UnpackInt, JsonCursor.UnpackBool;
      options := o;
      var key := UnpackKey();
      var t := PeekHere();
      if key == "periodic" && t == IntType {
        var i := UnpackInt();
        options := options.(periodic := match i case Nothing => 0 case Just(v) => v);
      } else if key == "all" && IsBool(t) {
        var b := UnpackBool();
        options := options.(all := b);
      } else if key == "topicsonly" && IsBool(t) {
        var b := UnpackBool();
        options := options.(topicsonly := b);
      } else if key == "prefix" && IsBool(t) {
        var b := UnpackBool();
        options := options.(prefix := b);
      }
    }

    method ParseProperties(p: Properties) returns (properties: Properties)
      requires Valid()
      modifies this`pos, this`ec
      ensures Valid() && (Cur(), properties) == ReadProperties(old(Cur()), p) && pos >= old(pos)
    {
      hide PeekType, PeekOr, JsonCursor.UnpackKey, JsonCursor.UnpackBool;
      properties := p;
      while true
        invariant Valid() && pos >= old(pos)
        invariant ReadProperties(Cur(), properties) == ReadProperties(old(Cur()), p)
        decreases |Unread()|
      {
        PeekNeedsText(Cur());
        PropertyAdvances(Cur(), properties);
        var t := PeekTypeHere();
        if t.Nothing? || t.value == ObjectEndType {
          return;
        }
        var key := UnpackKey();
        var v := PeekHere();
        if key == "persistent" && IsBool(v) {
          var b := UnpackBool();
          properties := properties.(persistent := b);
        } else if key == "retained" && IsBool(v) {
          var b := UnpackBool();
          properties := properties.(retained := b);
        } else if key == "cached" && IsBool(v) {
          var b := UnpackBool();
          properties := properties.(cached := b);
        }
      }
    }

    method ParseUpdates(m: Draft) returns (n: Draft)
      requires Valid()
      modifies this`pos, this`ec
      ensures Valid() && (Cur(), n) == ReadUpdates(old(Cur()), m) && pos >= old(pos)
    {
      hide PeekType, PeekOr, JsonCursor.UnpackKey, JsonMessages.UnpackDefaultBool;
      n := m;
      while true
        invariant Valid() && pos >= old(pos)
        invariant ReadUpdates(Cur(), n) == ReadUpdates(old(Cur()), m)
        decreases |Unread()|
      {
        PeekNeedsText(Cur());
        UpdateAdvances(Cur(), n);
        var t := PeekTypeHere();
        if t.Nothing? || t.value == ObjectEndType {
          return;
        }
        var key := UnpackKey();
        var v := PeekHere();
        if key == "persistent" && (IsBool(v) || v == NullType) {
          var b := UnpackDefaultBool();
          n := n.(persistent := b);
        } else if key == "retained" && (IsBool(v) || v == NullType) {
          var b := UnpackDefaultBool();
          n := n.(retained := b);
        } else if key == "cached" && (IsBool(v) || v == NullType) {
          var b := UnpackDefaultBool();
          n := n.(cached := b);
        }
      }
    }

    // -------------------------------------------------------- messages

    method ParseSubscribeField(m: Draft) returns (n: Draft)
      requires Valid()
      modifies this`pos, this`ec
      ensures Valid() && (Cur(), n) == SubscribeField(old(Cur()), m) && pos >= old(pos)
    {
      hide JsonCursor.UnpackKey, JsonCursor.UnpackInt, FindAfter, ReadTopics, ReadOptions;
      n := m;
      var key := UnpackKey();
      if key == "topics" {
        SafeFindAfter('[');
        var ts := ParseTopics();
        SafeFindAfter(']');
        n := n.(topics := n.topics + ts);
      } else if key == "subuid" {
        var i := UnpackInt();
        n := n.(uid := i);
      } else if key == "options" {
        SafeFindAfter('{');
        var o := ParseOptions(n.options);
        SafeFindAfter('}');
        n := n.(options := o);
      }
    }

    method ParsePublishField(m: Draft) returns (n: Draft)
      requires Valid()
      modifies this`pos, this`ec
      ensures Valid() && (Cur(), n) == PublishField(old(Cur()), m) && pos >= old(pos)
    {
      hide JsonCursor.UnpackKey, JsonCursor.UnpackInt, FindAfter, ReadProperties;
      n := m;
      var key := UnpackKey();
      if key == "name" {
        var s := UnpackKey();
        n := n.(name := s);
      } else if key == "pubuid" {
        var i := UnpackInt();
        n := n.(uid := i);
      } else if key == "type" {
        var s := UnpackKey();
        n := n.(typeName := Just(s));
      } else if key == "properties" {
        SafeFindAfter('{');
        var p := ParseProperties(n.properties);
        SafeFindAfter('}');
        n := n.(properties := p);
      }
    }

    method ParseUidField(expected: string) returns (n: Draft)
      requires Valid()
      modifies this`pos, this`ec
      ensures Valid() && (Cur(), n) == UidField(old(Cur()), BLANK, expected) && pos >= old(pos)
    {
      hide JsonCursor.UnpackKey, JsonCursor.UnpackInt;
      n := BLANK;
      var key := UnpackKey();
      if key == expected {
        var i := UnpackInt();
        n := n.(uid := i);
      }
    }

    method ParsePropertiesField(m: Draft) returns (n: Draft)
      requires Valid()
      modifies this`pos, this`ec
      ensures Valid() && (Cur(), n) == PropertiesField(old(Cur()), m) && pos >= old(pos)
    {
      hide JsonCursor.UnpackKey, FindAfter, ReadUpdates;
      n := m;
      var key := UnpackKey();
      if key == "name" {
        var s := UnpackKey();
        n := n.(name := s);
      } else if key == "update" {
        SafeFindAfter('{');
        n := ParseUpdates(n);
        SafeFindAfter('}');
      }
    }

    /** The switch over the method of a message. */
    method ParseParams(method_: string) returns (m: ClientMessage)
      requires Valid()
      modifies this`pos, this`ec
      ensures Valid() && (Cur(), m) == ReadParams(old(Cur()), method_) && pos >= old(pos)
    {
      hide SubscribeField, PublishField, UidField, PropertiesField;
      if method_ == "subscribe" {
        var d := BLANK;
        d := ParseSubscribeField(d);
        d := ParseSubscribeField(d);
        d := ParseSubscribeField(d);
        m := SubscribeMessage(d.topics, d.uid, d.options);
      } else if method_ == "publish" {
        var d := BLANK;
        d := ParsePublishField(d);
        d := ParsePublishField(d);
        d := ParsePublishField(d);
        d := ParsePublishField(d);
        m := PublishMessage(d.name, d.uid, d.typeName, d.properties);
      } else if method_ == "unsubscribe" {
        var d := ParseUidField("subuid");
        m := UnsubscribeMessage(d.uid);
      } else if method_ == "unpublish" {
        var d := ParseUidField("pubuid");
        m := UnpublishMessage(d.uid);
      } else if method_ == "setproperties" {
        var d := BLANK;
        d := ParsePropertiesField(d);
        d := ParsePropertiesField(d);
        m := SetPropertiesMessage(d.name, d.persistent, d.retained, d.cached);
      } else {
        m := OtherMessage;
      }
    }

    method ParseMessage() returns (m: ClientMessage)
      requires Valid()
      modifies this`pos, this`ec
      ensures Valid() && (Cur(), m) == ReadMessage(old(Cur())) && pos >= old(pos)
    {
      hide JsonCursor.UnpackKey, FindAfter, ReadParams;
      SafeFindAfter('{');
      var key := UnpackKey();
      var method_ := UnpackKey();
      key := UnpackKey();
      SafeFindAfter('{');
      m := ParseParams(method_);
      SafeFindAfter('}');
      SafeFindAfter('}');
    }
  }

  /** The loop over the messages of a text frame ends on every text, and yields what ReadFrame says. */
  method ParseFrame(text: string) returns (messages: seq<ClientMessage>)
    ensures messages == ReadFrame(text)
  {
    hide ReadMessage, ReadMessages, FindAfter, PeekType;
    var unpacker := new Unpacker(text);
    unpacker.SafeFindAfter('[');
    messages := [];
    ghost var whole := ReadMessages(unpacker.Cur()).1;
    assert [] + whole == whole;
    while true
      invariant unpacker.Valid() && fresh(unpacker)
      invariant messages + ReadMessages(unpacker.Cur()).1 == whole
      decreases |unpacker.Unread()|
    {
      ghost var c := unpacker.Cur();
      MessagesStep(c, messages);
      var m := unpacker.ParseMessage();
      messages := messages + [m];
      var t := unpacker.PeekTypeHere();
      PeekNeedsText(unpacker.Cur());
      if unpacker.ec || t.Nothing? || t.value == ArrayEndType {
        break;
      }
      MessageAdvances(c);
    }
    unpacker.SafeFindAfter(']');
  }

  // ------------------------------------------------------------ single passes of the loops

  lemma FindAnyStep(c: Cursor, chars: string)
    ensures FindAny(c, chars) ==
            if c.rest == "" then c.(ec := true)
            else if c.rest[0] in chars then c.(ec := false)
            else FindAny(c.(rest := c.rest[1..]), chars)
  {
  }

  lemma BoolStep(c: Cursor)
    ensures UnpackBool(c) ==
            if c.rest == "" || c.ec then (Touch(c), false)
            else if IsTrue(c.rest) then (c.(rest := c.rest[4..]), true)
            else if IsFalse(c.rest) then (c.(rest := c.rest[5..]), false)
            else UnpackBool(c.(rest := c.rest[1..]))
    ensures IsTrue(c.rest) ==> |c.rest| >= 4
    ensures IsFalse(c.rest) ==> |c.rest| >= 5
  {
  }

  lemma PeekNeedsText(c: Cursor)
    ensures PeekType(c.rest).Just? ==> c.rest != ""
  {
  }

  lemma KeyAdvances(c: Cursor)
    ensures PeekType(c.rest).Just? ==> |UnpackKey(c).0.rest| < |c.rest|
  {
  }

  lemma OptionAdvances(c: Cursor, o: SubscriptionOptions)
    ensures c.rest != "" ==> |ReadOption(c, o).0.rest| < |c.rest|
  {
  }

  lemma PropertyAdvances(c: Cursor, p: Properties)
    ensures c.rest != "" ==> |ReadProperty(c, p).0.rest| < |c.rest|
  {
  }

  lemma UpdateAdvances(c: Cursor, m: Draft)
    ensures c.rest != "" ==> |ReadUpdate(c, m).0.rest| < |c.rest|
  {
  }

  lemma MessageAdvances(c: Cursor)
    ensures |ReadMessage(c).0.rest| <= |c.rest| && (c.rest != "" ==> |ReadMessage(c).0.rest| < |c.rest|)
  {
  }

  lemma TopicsStep(c: Cursor, topics: seq<string>)
    ensures var t := PeekType(c.rest);
            var r := ReadTopics(c);
            if t.Nothing? || t.value == ArrayEndType then (r.0, topics + r.1) == (c, topics)
            else
              var (d, s) := UnpackKey(c);
              (r.0, topics + r.1) == (ReadTopics(d).0, topics + [s] + ReadTopics(d).1)
  {
    hide UnpackKey, PeekType;
    var (d, s) := UnpackKey(c);
    assert topics + ([s] + ReadTopics(d).1) == topics + [s] + ReadTopics(d).1;
    assert topics + [] == topics;
  }

  lemma MessagesStep(c: Cursor, ms: seq<ClientMessage>)
    ensures var (d, m) := ReadMessage(c);
            var t := PeekType(d.rest);
            ms + ReadMessages(c).1 ==
            (if d.ec || t.Nothing? || t.value == ArrayEndType then ms + [m] else ms + [m] + ReadMessages(d).1)
  {
    hide ReadMessage, PeekType;
    var (d, m) := ReadMessage(c);
    assert ms + ([m] + ReadMessages(d).1) == ms + [m] + ReadMessages(d).1;
  }
}
