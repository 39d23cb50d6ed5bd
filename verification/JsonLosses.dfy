/** Exactly which text frames are read as the messages in them: a null at the end of the properties of a message
    makes the reader run on, over whole messages, so that a frame loses some unless that message is its last. */
module JsonLosses {
  import opened Maybes
  import opened Decimals
  import opened NtClient
  import opened JsonCursor
  import opened JsonMessages
  import opened JsonRoundTrip

  // ------------------------------------------------------------ where the loops over properties stop

  const LOST := Cursor("", true, true)

  /** Where the loop over properties stops; both loops of this kind move alike, whatever they have read before. */
  function Walk(c: Cursor): Cursor {
    ReadProperties(c, BLANK.properties).0
  }

  lemma {:induction false} WalksAlike(c: Cursor, p: Properties, m: Draft)
    ensures ReadProperties(c, p).0 == Walk(c) && ReadUpdates(c, m).0 == Walk(c)
    decreases |c.rest|
  {
    hide UnpackKey, PeekOr;
    var t := PeekType(c.rest);
    if t.Just? && t.value != ObjectEndType {
      UpdateMovesAlike(c, p, m);
      UpdateMovesAlike(c, BLANK.properties, m);
      WalksAlike(ReadProperty(c, p).0, ReadProperty(c, p).1, ReadUpdate(c, m).1);
      WalksAlike(ReadProperty(c, p).0, ReadProperty(c, BLANK.properties).1, ReadUpdate(c, m).1);
    }
  }

  lemma UpdateMovesAlike(c: Cursor, p: Properties, m: Draft)
    ensures ReadProperty(c, p).0 == ReadUpdate(c, m).0
    ensures c.rest != "" ==> |ReadProperty(c, p).0.rest| < |c.rest|
  {
    hide UnpackBool, PeekOr;
  }

  lemma WalkStep(c: Cursor)
    requires PeekType(c.rest).Just? && PeekType(c.rest) != Just(ObjectEndType)
    ensures Walk(c) == Walk(ReadProperty(c, BLANK.properties).0)
  {
    hide ReadProperty, PeekType;
    var (d, q) := ReadProperty(c, BLANK.properties);
    WalksAlike(d, q, BLANK);
  }

  predicate IsFlagKey(s: string) {
    s == "persistent" || s == "retained" || s == "cached"
  }

  /** A string that is no property of a topic, or has no truth value behind it. */
  lemma KeyWalk(lead: string, s: string, more: string)
    requires Clean(lead) && Clean(s) && (!IsFlagKey(s) || !IsBool(PeekOr(more)))
    requires PeekType(lead + Quoted(s, more)).Just? && PeekType(lead + Quoted(s, more)) != Just(ObjectEndType)
    ensures Walk(On(lead + Quoted(s, more))) == Walk(On(more))
  {
    hide UnpackKey, Quoted, UnpackBool, PeekOr, PeekType, Walk;
    WalkStep(On(lead + Quoted(s, more)));
    KeyRoundTrip(lead, s, more);
  }

  lemma FlagWalk(lead: string, e: FlagEntry, more: string)
    requires Clean(lead)
    requires PeekType(lead + PutFlag(e, more)).Just? && PeekType(lead + PutFlag(e, more)) != Just(ObjectEndType)
    ensures Walk(On(lead + PutFlag(e, more))) == Walk(On(if e.value.Just? then more else Colon("null" + more)))
  {
    hide UnpackKey, Quoted, UnpackBool, PeekOr, PeekType, Walk, BoolText, Colon;
    WalkStep(On(lead + PutFlag(e, more)));
    FlagKeyIsClean(e.flag);
    KeyRoundTrip(lead, FlagKey(e.flag), Colon(FlagText(e.value) + more));
    if e.value.Just? {
      BoolAfterColon(e.value.value, more);
    } else {
      PeekValue("null", more);
    }
  }

  lemma FlagKeyIsClean(f: Flag)
    ensures Clean(FlagKey(f))
  {
  }

  lemma WalkStops(more: string)
    ensures Walk(On(['}'] + more)) == On(['}'] + more)
  {
    assert PeekType(['}'] + more) == Just(ObjectEndType);
  }

  /** Text without a string ends the walk with an error. */
  lemma WalkRunsOut(text: string)
    requires Clean(text) && PeekType(text).Just? && PeekType(text) != Just(ObjectEndType)
    ensures Walk(On(text)) == LOST
  {
    hide FindAfter, PeekType;
    WalkStep(On(text));
    NothingFound(text, '"');
    assert PeekType("") == Nothing by { PeekNothing(); }
  }

  lemma PeekNothing()
    ensures PeekType("") == Nothing
  {
  }

  // ------------------------------------------------------------ text that decides what comes next

  /** Text without quotation marks whose first value is complete and no closing brace. */
  predicate Junk(lead: string) {
    lead != "" && Clean(lead) &&
    if Passed(lead[0]) then Junk(lead[1..]) else TypeAt(lead).Just? && TypeAt(lead) != Just(ObjectEndType)
  }

  lemma {:induction false} JunkPeek(lead: string, rest: string)
    requires Junk(lead)
    ensures PeekType(lead + rest).Just? && PeekType(lead + rest) != Just(ObjectEndType) && Clean(lead)
  {
    if Passed(lead[0]) {
      JunkPeek(lead[1..], rest);
      assert lead + rest == [lead[0]] + (lead[1..] + rest);
      PeekSkips(lead[0], lead[1..] + rest);
    } else {
      WholeValue(lead, rest);
    }
  }

  lemma WholeValue(lead: string, rest: string)
    requires lead != "" && TypeAt(lead).Just?
    ensures TypeAt(lead + rest) == TypeAt(lead)
  {
    assert forall i | 0 <= i < |lead| :: (lead + rest)[i] == lead[i];
  }

  lemma {:induction false} JunkMore(lead: string, more: string)
    requires Junk(lead) && Clean(more)
    ensures Junk(lead + more)
  {
    if Passed(lead[0]) {
      JunkMore(lead[1..], more);
      assert (lead + more)[1..] == lead[1..] + more;
    } else {
      WholeValue(lead, more);
    }
  }

  /** The key after a lead that decides. */
  lemma JunkKey(lead: string, s: string, more: string)
    requires Junk(lead) && Clean(s) && (!IsFlagKey(s) || !IsBool(PeekOr(more)))
    ensures Walk(On(lead + Quoted(s, more))) == Walk(On(more))
  {
    hide Walk, Quoted, PeekType, PeekOr, Junk;
    JunkPeek(lead, Quoted(s, more));
    KeyWalk(lead, s, more);
  }

  /** The key after a comma or a colon. */
  lemma NextKey(c: char, s: string, more: string)
    requires Passed(c) && Clean(s) && (!IsFlagKey(s) || !IsBool(PeekOr(more)))
    ensures Walk(On([c] + Quoted(s, more))) == Walk(On(more))
  {
    hide Walk, Quoted, PeekType, PeekOr;
    PeekSkips(c, Quoted(s, more));
    StartsQuoted(s, more);
    KeyWalk([c], s, more);
  }

  lemma PeekNextString(c: char, s: string, more: string)
    requires Passed(c)
    ensures !IsBool(PeekOr([c] + Quoted(s, more)))
  {
    hide Quoted;
    PeekSkips(c, Quoted(s, more));
    StartsQuoted(s, more);
  }

  lemma NumberIsJunk(i: int)
    ensures Junk(Colon(IntText(i)))
  {
    var d := Digits(if i < 0 then -i else i);
    assert d[0] in d;
    assert forall c | c in d :: IsDigit(c);
    assert Colon(IntText(i))[1..] == IntText(i);
  }

  lemma BoolIsJunk(b: bool)
    ensures Junk(Colon(BoolText(b)))
  {
    assert Colon(BoolText(b))[1..] == BoolText(b);
    assert TypeAt("true") == Just(TrueType) && TypeAt("false") == Just(FalseType);
  }

  lemma BraceIsJunk()
    ensures Junk([':', '{']) && Junk([':', '[']) && Junk([']', ',']) && Junk([':', 'n', 'u', 'l', 'l'])
  {
    assert [':', '{'][1..] == ['{'] && [':', '['][1..] == ['['] && [':', 'n', 'u', 'l', 'l'][1..] == ['n', 'u', 'l', 'l'];
    assert TypeAt(['{']) == Just(ObjectType) && TypeAt(['[']) == Just(ArrayType) && TypeAt([']', ',']) == Just(ArrayEndType);
    assert TypeAt(['n', 'u', 'l', 'l']) == Just(NullType);
  }

  // ------------------------------------------------------------ walking over the parts of a message

  const END := "}}}"

  lemma {:induction false} TopicsWalk(ts: seq<string>, more: string)
    requires (forall t | t in ts :: Clean(t)) && !IsBool(PeekOr(more))
    ensures Walk(On(PutTopics([','], ts, more))) == Walk(On(more))
    ensures !IsBool(PeekOr(PutTopics([','], ts, more)))
    decreases |ts|
  {
    hide Walk, Quoted, PeekOr;
    if ts == [] {
    } else {
      assert ts[0] in ts;
      var rest := PutTopics([','], ts[1..], more);
      TopicsWalk(ts[1..], more);
      NextKey(',', ts[0], rest);
      PeekNextString(',', ts[0], rest);
    }
  }

  lemma OptionValueIsJunk(e: OptionEntry)
    ensures Junk(Colon(if e.Periodic? then IntText(e.i) else BoolText(e.b)))
  {
    if e.Periodic? { NumberIsJunk(e.i); } else { BoolIsJunk(e.b); }
  }

  lemma {:induction false} OptionsWalk(lead: string, sep: string, es: seq<OptionEntry>, more: string) returns (left: string)
    requires Junk(lead) && Clean(sep)
    ensures Junk(left) && Walk(On(lead + PutOptions(sep, es, END + more))) == Walk(On(left + more))
    decreases |es|
  {
    hide Walk, Quoted, Junk, IntText, BoolText;
    if es == [] {
      left := lead + END;
      JunkMore(lead, END);
      Regroup3(lead, END, more);
    } else {
      var value := Colon(if es[0].Periodic? then IntText(es[0].i) else BoolText(es[0].b));
      var rest := PutOptions([','], es[1..], END + more);
      OptionValueIsJunk(es[0]);
      JunkMore(lead, sep);
      OptionKeyIsClean(es[0]);
      Regroup3(lead, sep, Quoted(OptionKey(es[0]), value + rest));
      ColonFirst(if es[0].Periodic? then IntText(es[0].i) else BoolText(es[0].b), rest);
      JunkKey(lead + sep, OptionKey(es[0]), value + rest);
      left := OptionsWalk(value, [','], es[1..], more);
    }
  }

  lemma OptionKeyIsClean(e: OptionEntry)
    ensures Clean(OptionKey(e)) && !IsFlagKey(OptionKey(e))
  {
  }

  lemma ColonFirst(text: string, rest: string)
    ensures Colon(text + rest) == Colon(text) + rest
  {
  }

  lemma Regroup3(a: string, b: string, c: string)
    ensures (a + b) + c == a + (b + c)
  {
  }

  lemma FlagsApart(es: seq<FlagEntry>, more: string)
    requires es != []
    ensures PutFlags("", es, more) == PutFlag(es[0], PutFlags([','], es[1..], more))
    ensures PutFlags([','], es, more) == [','] + PutFlags("", es, more)
  {
    hide PutFlag;
    var text := PutFlag(es[0], PutFlags([','], es[1..], more));
    assert "" + text == text;
  }

  lemma NullText(rest: string)
    ensures Colon("null" + rest) == [':', 'n', 'u', 'l', 'l'] + rest
  {
  }

  /** Properties: the walk stops behind them, unless there are none or the last is null. */
  lemma {:induction false} FlagsWalk(lead: string, es: seq<FlagEntry>, more: string) returns (left: string)
    requires Junk(lead) || (lead == [','] && es != [])
    ensures es != [] && !LastIsNull(es) ==> Walk(On(lead + PutFlags("", es, END + more))) == On(END + more)
    ensures es == [] || LastIsNull(es) ==> Junk(left) && Walk(On(lead + PutFlags("", es, END + more))) == Walk(On(left + more))
    decreases |es|
  {
    hide Walk, Junk, PutFlag, PutFlags, Colon;
    left := lead;
    if es == [] {
      assert PutFlags("", [], END + more) == END + more by { NoFlags(END + more); }
      left := lead + END;
      JunkMore(lead, END);
      Regroup3(lead, END, more);
    } else {
      var rest := PutFlags([','], es[1..], END + more);
      FlagsApart(es, END + more);
      FlagLead(lead, es[0], rest);
      FlagWalk(lead, es[0], rest);
      left := AfterFlag(es, more);
    }
  }

  lemma NoFlags(more: string)
    ensures PutFlags("", [], more) == more && PutFlags([','], [], more) == more
  {
  }

  lemma AfterFlag(es: seq<FlagEntry>, more: string) returns (left: string)
    requires es != []
    ensures var rest := PutFlags([','], es[1..], END + more);
            var c := Walk(On(if es[0].value.Just? then rest else Colon("null" + rest)));
            if LastIsNull(es) then Junk(left) && c == Walk(On(left + more)) else c == On(END + more)
    decreases |es|, 0
  {
    hide Walk, Junk, PutFlag, PutFlags, Colon;
    var rest := PutFlags([','], es[1..], END + more);
    var nothing := [':', 'n', 'u', 'l', 'l'];
    BraceIsJunk();
    NoFlags(END + more);
    NullText(rest);
    left := nothing + END;
    if |es| == 1 {
      assert es[1..] == [];
      if es[0].value.Just? {
        assert END + more == ['}'] + ("}}" + more);
        WalkStops("}}" + more);
      } else {
        JunkMore(nothing, END);
        Regroup3(nothing, END, more);
      }
    } else {
      FlagsApart(es[1..], END + more);
      assert es[1..][|es[1..]| - 1] == es[|es| - 1];
      if es[0].value.Just? {
        left := FlagsWalk([','], es[1..], more);
      } else {
        JunkMore(nothing, [',']);
        Regroup3(nothing, [','], PutFlags("", es[1..], END + more));
        left := FlagsWalk(nothing + [','], es[1..], more);
      }
    }
  }

  lemma FlagLead(lead: string, e: FlagEntry, more: string)
    requires Junk(lead) || lead == [',']
    ensures Clean(lead) && PeekType(lead + PutFlag(e, more)).Just? && PeekType(lead + PutFlag(e, more)) != Just(ObjectEndType)
  {
    hide Junk, Quoted, PeekType, Colon;
    if lead == [','] {
      PeekSkips(',', PutFlag(e, more));
      StartsQuoted(FlagKey(e.flag), Colon(FlagText(e.value) + more));
    } else {
      JunkPeek(lead, PutFlag(e, more));
    }
  }

  /** The end of a message, from a number that is its last field. */
  lemma UidWalk(lead: string, key: string, i: int, more: string) returns (left: string)
    requires Junk(lead) && Clean(key) && !IsFlagKey(key)
    ensures Junk(left) && Walk(On(lead + Quoted(key, Colon(IntText(i) + ("}}" + more))))) == Walk(On(left + more))
  {
    hide Walk, Quoted, Junk, IntText;
    NumberIsJunk(i);
    left := Colon(IntText(i)) + "}}";
    JunkMore(Colon(IntText(i)), "}}");
    JunkKey(lead, key, Colon(IntText(i) + ("}}" + more)));
    assert Colon(IntText(i) + ("}}" + more)) == left + more;
  }

  lemma SubscribeWalk(ts: seq<string>, i: int, es: seq<OptionEntry>, more: string) returns (left: string)
    requires forall t | t in ts :: Clean(t)
    ensures Junk(left)
    ensures Walk(On([':', '{'] + PutParams(WSubscribe(ts, i, es), "}}" + more))) == Walk(On(left + more))
  {
    hide Walk, Quoted, Junk, IntText, PutOptions, PutTopics, PeekOr;
    BraceIsJunk();
    var options := Colon(['{'] + PutOptions("", es, ['}'] + ("}}" + more)));
    var number := Colon(IntText(i) + ([','] + Quoted("options", options)));
    var uid := [']'] + ([','] + Quoted("subuid", number));
    var topics := PutTopics("", ts, uid);
    JunkKey([':', '{'], "topics", Colon(['['] + topics));
    assert Colon(['['] + topics) == [':', '['] + topics;
    FirstTopic(ts, uid, number);
    assert uid == [']', ','] + Quoted("subuid", number);
    JunkKey([']', ','], "subuid", number);
    NumberIsJunk(i);
    JunkMore(Colon(IntText(i)), [',']);
    assert number == (Colon(IntText(i)) + [',']) + Quoted("options", options);
    JunkKey(Colon(IntText(i)) + [','], "options", options);
    assert ['}'] + ("}}" + more) == END + more;
    assert options == [':', '{'] + PutOptions("", es, END + more);
    left := OptionsWalk([':', '{'], "", es, more);
  }

  /** The list of topics up to the key behind it. */
  lemma FirstTopic(ts: seq<string>, uid: string, number: string)
    requires (forall t | t in ts :: Clean(t)) && uid == [']'] + ([','] + Quoted("subuid", number))
    ensures Walk(On([':', '['] + PutTopics("", ts, uid))) == Walk(On(number))
  {
    hide Walk, Quoted, Junk, PeekOr;
    BraceIsJunk();
    assert uid == [']', ','] + Quoted("subuid", number);
    JunkKey([']', ','], "subuid", number);
    if ts == [] {
      JunkMore([':', '['], [']', ',']);
      assert [':', '['] + uid == ([':', '['] + [']', ',']) + Quoted("subuid", number);
      JunkKey([':', '['] + [']', ','], "subuid", number);
    } else {
      assert ts[0] in ts;
      var rest := PutTopics([','], ts[1..], uid);
      assert !IsBool(PeekOr(uid)) by { PeekBracket(Quoted("subuid", number)); }
      TopicsWalk(ts[1..], uid);
      assert PutTopics("", ts, uid) == Quoted(ts[0], rest);
      JunkKey([':', '['], ts[0], rest);
    }
  }

  lemma PeekBracket(more: string)
    ensures !IsBool(PeekOr([']', ','] + more))
  {
  }

  /** From the name of a topic to the field that follows it. */
  lemma NameWalk(name: string, more: string)
    requires Clean(name) && !IsBool(PeekOr(more))
    ensures Walk(On([':', '{'] + PutStringField("", "name", name, more))) == Walk(On(more))
  {
    hide Walk, Quoted, Junk, PeekOr;
    BraceIsJunk();
    assert PutStringField("", "name", name, more) == Quoted("name", Colon(Quoted(name, more)));
    JunkKey([':', '{'], "name", Colon(Quoted(name, more)));
    NextKey(':', name, more);
  }

  lemma FlagsFieldWalk(key: string, es: seq<FlagEntry>, more: string) returns (left: string)
    requires Clean(key) && !IsFlagKey(key)
    ensures var text := PutFlagsField(key, es, "}}" + more);
            (es != [] && !LastIsNull(es) ==> Walk(On(text)) == On(END + more)) &&
            (es == [] || LastIsNull(es) ==> Junk(left) && Walk(On(text)) == Walk(On(left + more)))
    ensures !IsBool(PeekOr(PutFlagsField(key, es, "}}" + more)))
  {
    hide Walk, Quoted, Junk, PeekOr, PutFlags;
    BraceIsJunk();
    var flags := PutFlags("", es, ['}'] + ("}}" + more));
    NextKey(',', key, Colon(['{'] + flags));
    PeekNextString(',', key, Colon(['{'] + flags));
    assert ['}'] + ("}}" + more) == END + more;
    assert Colon(['{'] + flags) == [':', '{'] + flags;
    left := FlagsWalk([':', '{'], es, more);
  }

  lemma PublishWalk(n: string, i: int, t: string, es: seq<FlagEntry>, more: string) returns (left: string)
    requires Clean(n) && Clean(t)
    ensures var text := [':', '{'] + PutParams(WPublish(n, i, t, es), "}}" + more);
            (es != [] && !LastIsNull(es) ==> Walk(On(text)) == On(END + more)) &&
            (es == [] || LastIsNull(es) ==> Junk(left) && Walk(On(text)) == Walk(On(left + more)))
  {
    hide Walk, Quoted, Junk, IntText, PeekOr, PutFlagsField;
    var flags := PutFlagsField("properties", es, "}}" + more);
    left := FlagsFieldWalk("properties", es, more);
    var typed := [','] + Quoted("type", Colon(Quoted(t, flags)));
    var number := Colon(IntText(i) + typed);
    var uid := [','] + Quoted("pubuid", number);
    PeekNextString(',', "pubuid", number);
    NameWalk(n, uid);
    NextKey(',', "pubuid", number);
    NumberIsJunk(i);
    JunkMore(Colon(IntText(i)), [',']);
    assert number == (Colon(IntText(i)) + [',']) + Quoted("type", Colon(Quoted(t, flags)));
    JunkKey(Colon(IntText(i)) + [','], "type", Colon(Quoted(t, flags)));
    NextKey(':', t, flags);
  }

  lemma SetPropertiesWalk(n: string, es: seq<FlagEntry>, more: string) returns (left: string)
    requires Clean(n)
    ensures var text := [':', '{'] + PutParams(WSetProperties(n, es), "}}" + more);
            (es != [] && !LastIsNull(es) ==> Walk(On(text)) == On(END + more)) &&
            (es == [] || LastIsNull(es) ==> Junk(left) && Walk(On(text)) == Walk(On(left + more)))
  {
    hide Walk, Quoted, Junk, PeekOr, PutFlagsField;
    left := FlagsFieldWalk("update", es, more);
    NameWalk(n, PutFlagsField("update", es, "}}" + more));
  }

  /** Over the parameters of a message: to the end of its properties, or beyond the message. */
  lemma ParamsWalk(w: Written, more: string) returns (left: string)
    requires Tidy(w)
    ensures var c := Walk(On([':', '{'] + PutParams(w, "}}" + more)));
            c == On(END + more) || (Junk(left) && c == Walk(On(left + more)))
  {
    hide Walk, Quoted, Junk, IntText, PeekOr, PutFlagsField, PutOptionsField, PutTopicsField, PutStringField;
    BraceIsJunk();
    match w {
      case WSubscribe(ts, i, es) => left := SubscribeWalk(ts, i, es, more);
      case WUnsubscribe(i) =>
        left := UidWalk([':', '{'], "subuid", i, more);
        assert PutUidField("", "subuid", i, "}}" + more) == Quoted("subuid", Colon(IntText(i) + ("}}" + more)));
      case WPublish(n, i, t, es) => left := PublishWalk(n, i, t, es, more);
      case WUnpublish(i) =>
        left := UidWalk([':', '{'], "pubuid", i, more);
        assert PutUidField("", "pubuid", i, "}}" + more) == Quoted("pubuid", Colon(IntText(i) + ("}}" + more)));
      case WSetProperties(n, es) => left := SetPropertiesWalk(n, es, more);
    }
  }

  /** Over a whole message, the loop of an earlier one stops at its properties or goes on behind it. */
  lemma MessageWalk(lead: string, w: Written, more: string) returns (left: string)
    requires Junk(lead) && Tidy(w)
    ensures var c := Walk(On(lead + PutMessage(w, more)));
            c == On(END + more) || (Junk(left) && c == Walk(On(left + more)))
  {
    hide Walk, Quoted, Junk, PutParams, Tidy, PeekOr;
    MethodIsClean(w);
    MethodIsNoFlag(w);
    var tail := ['}'] + (['}'] + more);
    assert tail == "}}" + more;
    var params := [':', '{'] + PutParams(w, tail);
    assert Colon(['{'] + PutParams(w, tail)) == params;
    var third := [','] + Quoted("params", params);
    var second := Colon(Quoted(MethodOf(w), third));
    JunkMore(lead, ['{']);
    assert lead + PutMessage(w, more) == (lead + ['{']) + Quoted("method", second);
    JunkKey(lead + ['{'], "method", second);
    NextKey(':', MethodOf(w), third);
    NextKey(',', "params", params);
    left := ParamsWalk(w, more);
  }

  lemma MethodIsNoFlag(w: Written)
    ensures !IsFlagKey(MethodOf(w))
  {
  }

  /** Over all messages up to the end of the frame: the walk ends with an error, or at the end of the properties of
      some message, with only the messages behind that one left. */
  lemma {:induction false} RestWalk(lead: string, ws: seq<Written>) returns (taken: nat)
    requires Junk(lead) && forall w | w in ws :: Tidy(w)
    ensures var c := Walk(On(lead + PutMessages([','], ws, "]")));
            c == LOST || (0 < taken <= |ws| && c == On(END + PutMessages([','], ws[taken..], "]")))
    decreases |ws|
  {
    hide Walk, Junk, PutMessage, Tidy;
    if ws == [] {
      taken := 0;
      JunkMore(lead, "]");
      JunkPeek(lead, "]");
      JunkIsClean(lead + "]");
      WalkRunsOut(lead + "]");
    } else {
      assert ws[0] in ws;
      var rest := PutMessages([','], ws[1..], "]");
      JunkMore(lead, [',']);
      Regroup3(lead, [','], PutMessage(ws[0], rest));
      var left := MessageWalk(lead + [','], ws[0], rest);
      taken := 1;
      if Walk(On(lead + PutMessages([','], ws, "]"))) != On(END + rest) {
        var more := RestWalk(left, ws[1..]);
        taken := more + 1;
        if more > 0 && more <= |ws[1..]| { assert ws[1..][more..] == ws[taken..]; }
      }
    }
  }

  lemma JunkIsClean(lead: string)
    requires Junk(lead)
    ensures Clean(lead)
  {
  }

  // ------------------------------------------------------------ a message that ends in null

  /** The loop over its properties goes on behind the message. */
  lemma NullWalk(es: seq<FlagEntry>, ws: seq<Written>) returns (taken: nat)
    requires LastIsNull(es) && forall w | w in ws :: Tidy(w)
    ensures var c := Walk(On(PutFlags("", es, END + PutMessages([','], ws, "]"))));
            c == LOST || (0 < taken <= |ws| && c == On(END + PutMessages([','], ws[taken..], "]")))
  {
    hide Walk, Junk, PutFlags, PutMessages, Tidy, LastIsNull;
    var more := PutMessages([','], ws, "]");
    var left := NullFlags(es, more);
    taken := RestWalk(left, ws);
  }

  lemma NullFlags(es: seq<FlagEntry>, more: string) returns (left: string)
    requires LastIsNull(es)
    ensures Junk(left) && Walk(On(PutFlags("", es, END + more))) == Walk(On(left + more))
  {
    hide Walk, Junk, PutFlag, PutFlags, Colon;
    var rest := PutFlags([','], es[1..], END + more);
    FlagsApart(es, END + more);
    assert "" + PutFlag(es[0], rest) == PutFlag(es[0], rest);
    FlagStarts(es[0], rest);
    FlagWalk("", es[0], rest);
    left := AfterFlag(es, more);
  }

  lemma FlagStarts(e: FlagEntry, more: string)
    ensures PeekType(PutFlag(e, more)) == Just(StrType)
  {
    hide Colon;
    StartsQuoted(FlagKey(e.flag), Colon(FlagText(e.value) + more));
  }

  // ------------------------------------------------------------ reading frames

  lemma AfterLoss(ch: char)
    ensures FindAfter(LOST, ch) == LOST
  {
  }

  /** What is left after a message that ends in null: nothing, or whole messages, at least one less. */
  lemma BrokenParams(w: Written, ws: seq<Written>) returns (taken: nat)
    requires Tidy(w) && EndsInNull(w) && forall v | v in ws :: Tidy(v)
    ensures var c := ReadParams(On(PutParams(w, "}}" + PutMessages([','], ws, "]"))), MethodOf(w)).0;
            c == LOST || (0 < taken <= |ws| && c == On("}}" + PutMessages([','], ws[taken..], "]")))
  {
    hide Walk, PutFlags, PutMessages, LastIsNull, PublishField, PropertiesField, PutStringField, PutUidField, PutFlagsField,
         Ends, FindAfter;
    var more := PutMessages([','], ws, "]");
    if w.WPublish? {
      taken := NullWalk(w.properties, ws);
      var flags := PutFlagsField("properties", w.properties, "}}" + more);
      FieldEnds([], "properties", w.properties, w.typeName, flags);
      PublishUpToFlags(w.name, w.pubuid, w.typeName, flags);
      FlagsFieldMoves(true, w.properties, more, BLANK.(name := w.name, uid := Just(w.pubuid), typeName := Just(w.typeName)));
    } else {
      taken := NullWalk(w.update, ws);
      StringFieldRead("", "name", w.name, PutFlagsField("update", w.update, "}}" + more), BLANK);
      FlagsFieldMoves(false, w.update, more, BLANK.(name := w.name));
    }
    AfterLoss('}');
    if 0 < taken <= |ws| {
      CloseFlags(PutMessages([','], ws[taken..], "]"));
    }
  }

  lemma CloseFlags(more: string)
    ensures FindAfter(On(END + more), '}') == On("}}" + more)
  {
    hide FindAfter;
    assert END + more == ['}'] + ("}}" + more);
    NextIs('}', "}}" + more);
  }

  /** The first three fields of a publish message, and what the fourth is read from. */
  lemma PublishUpToFlags(n: string, i: int, t: string, flags: string)
    requires Clean(n) && Int32(i) && Clean(t)
    ensures var text := PutStringField("", "name", n, PutUidField([','], "pubuid", i, PutStringField([','], "type", t, flags)));
            ReadParams(On(text), "publish").0 ==
            PublishField(On(flags), BLANK.(name := n, uid := Just(i), typeName := Just(t))).0
  {
    hide PublishField, PutStringField, PutUidField, Ends, SubscribeField, UidField, PropertiesField;
    var third := PutStringField([','], "type", t, flags);
    var second := PutUidField([','], "pubuid", i, third);
    StringFieldRead("", "name", n, second, BLANK);
    var m1 := BLANK.(name := n);
    FieldEnds([], "type", [], t, flags);
    UidFieldRead([','], "pubuid", i, third, m1);
    StringFieldRead([','], "type", t, flags, m1.(uid := Just(i)));
  }

  /** Where the field of the properties ends: at the closing brace behind the walk. */
  lemma FlagsFieldMoves(publish: bool, es: seq<FlagEntry>, more: string, m: Draft)
    ensures var key := if publish then "properties" else "update";
            var c := On(PutFlagsField(key, es, "}}" + more));
            (if publish then PublishField(c, m) else PropertiesField(c, m)).0
            == FindAfter(Walk(On(PutFlags("", es, END + more))), '}')
  {
    hide Walk, Quoted, Colon, PutFlags, ReadProperties, ReadUpdates, UnpackKey, UnpackInt, FindAfter;
    var key := if publish then "properties" else "update";
    var list := PutFlags("", es, ['}'] + ("}}" + more));
    assert ['}'] + ("}}" + more) == END + more;
    KeyAfterLead([','], key, Colon(['{'] + list));
    ColonSkips('{', list);
    WalksAlike(On(list), m.properties, m);
  }

  lemma MessageStarts(lead: string, w: Written, more: string)
    requires Lead(lead)
    ensures ReadMessage(On(lead + PutMessage(w, more))).0 ==
            FindAfter(FindAfter(ReadParams(On(PutParams(w, "}}" + more)), MethodOf(w)).0, '}'), '}')
    ensures ReadMessage(On(lead + PutMessage(w, more))).1 == ReadParams(On(PutParams(w, "}}" + more)), MethodOf(w)).1
  {
    hide FindAfter, UnpackKey, Quoted, Colon, ReadParams, PutParams, MethodOf;
    MethodIsClean(w);
    LeadSkips(lead);
    assert ['}'] + (['}'] + more) == "}}" + more;
    var params := ['{'] + PutParams(w, "}}" + more);
    var third := [','] + Quoted("params", Colon(params));
    var first := Quoted("method", Colon(Quoted(MethodOf(w), third)));
    FindAfterSkips(lead, '{', first);
    assert "" + first == first;
    KeyAfterLead("", "method", Colon(Quoted(MethodOf(w), third)));
    StringAfterColon(MethodOf(w), third);
    KeyAfterLead([','], "params", Colon(params));
    ColonSkips('{', PutParams(w, "}}" + more));
  }

  lemma BrokenMessage(lead: string, w: Written, ws: seq<Written>) returns (taken: nat)
    requires Lead(lead) && Tidy(w) && EndsInNull(w) && forall v | v in ws :: Tidy(v)
    ensures var c := ReadMessage(On(lead + PutMessage(w, PutMessages([','], ws, "]")))).0;
            c == LOST || (0 < taken <= |ws| && c == On(PutMessages([','], ws[taken..], "]")))
  {
    hide FindAfter, ReadParams, PutParams, MethodOf, PutMessage, PutMessages, Tidy, EndsInNull, ReadMessage;
    taken := BrokenParams(w, ws);
    MessageStarts(lead, w, PutMessages([','], ws, "]"));
    AfterLoss('}');
    if 0 < taken <= |ws| {
      var rest := PutMessages([','], ws[taken..], "]");
      assert "}}" + rest == ['}'] + (['}'] + rest);
      NextIs('}', ['}'] + rest);
      NextIs('}', rest);
    }
  }

  /** The number of messages read from a list of them: no more than there are, and fewer if one of them that is
      not the last ends in null. */
  lemma {:induction false} Count(lead: string, ws: seq<Written>)
    requires Lead(lead) && ws != [] && forall w | w in ws :: Tidy(w)
    ensures var n := |ReadMessages(On(PutMessages(lead, ws, "]"))).1|;
            n <= |ws| && ((exists k :: 0 <= k < |ws| - 1 && EndsInNull(ws[k])) ==> n < |ws|)
    decreases |ws|
  {
    hide ReadMessage, PutMessage, Tidy, EndsInNull, PeekType;
    assert ws[0] in ws;
    var rest := PutMessages([','], ws[1..], "]");
    var c := On(lead + PutMessage(ws[0], rest));
    if EndsInNull(ws[0]) {
      var taken := BrokenMessage(lead, ws[0], ws[1..]);
      if ReadMessage(c).0 == LOST {
        assert |ReadMessages(c).1| == 1;
      } else {
        var left := ws[1..][taken..];
        if left == [] {
          assert PeekType("]") == Just(ArrayEndType) by { PeekEnd(); }
          assert |ReadMessages(c).1| == 1;
        } else {
          Count([','], left);
          PeekMessages(left);
          assert |ReadMessages(c).1| == 1 + |ReadMessages(On(PutMessages([','], left, "]"))).1|;
        }
      }
    } else {
      assert WellFormed(ws[0]);
      MessageRead(lead, ws[0], rest);
      if |ws| == 1 {
        assert PeekType("]") == Just(ArrayEndType) by { PeekEnd(); }
      } else {
        Count([','], ws[1..]);
        PeekMessages(ws[1..]);
        forall k | 0 <= k < |ws| - 1 && EndsInNull(ws[k]) ensures EndsInNull(ws[1..][k - 1]) && 0 < k {
        }
      }
    }
  }

  lemma PeekEnd()
    ensures PeekType("]") == Just(ArrayEndType)
  {
  }

  lemma PeekMessages(ws: seq<Written>)
    requires ws != []
    ensures PeekType(PutMessages([','], ws, "]")) == Just(ObjectType)
  {
    hide Quoted, Colon, PutParams, MethodOf;
    var rest := PutMessages([','], ws[1..], "]");
    var third := [','] + Quoted("params", Colon(['{'] + PutParams(ws[0], ['}'] + (['}'] + rest))));
    PeekMessage([','], Quoted("method", Colon(Quoted(MethodOf(ws[0]), third))));
  }

  // ------------------------------------------------------------ a null at the very end

  lemma {:induction false} FlagsAtEnd(lead: string, es: seq<FlagEntry>, p: Properties, m: Draft)
    requires UpdateLead(lead) && LastIsNull(es)
    ensures ReadProperties(On(PutFlags(lead, es, "}}}]")), p) == (LOST, WithFlags(p, es))
    ensures ReadUpdates(On(PutFlags(lead, es, "}}}]")), m) == (LOST, WithUpdates(m, es))
    decreases |es|
  {
    hide ReadProperty, ReadUpdate, PutFlag, WithFlag, WithUpdate, Colon, PeekType;
    var rest := PutFlags([','], es[1..], "}}}]");
    FlagRead(lead, es[0], rest, p);
    UpdateRead(lead, es[0], rest, m);
    if |es| == 1 {
      assert rest == "}}}]";
      NullAtEnd(WithFlag(p, es[0]), WithUpdate(m, es[0]));
    } else {
      assert es[1..][|es[1..]| - 1] == es[|es| - 1];
      if es[0].value.Just? {
        FlagsAtEnd([','], es[1..], WithFlag(p, es[0]), WithUpdate(m, es[0]));
      } else {
        NullThenNext(es[1..], "}}}]");
        FlagsAtEnd([':', 'n', 'u', 'l', 'l', ','], es[1..], WithFlag(p, es[0]), WithUpdate(m, es[0]));
      }
    }
  }

  lemma NullAtEnd(p: Properties, m: Draft)
    ensures ReadProperties(On(Colon("null" + "}}}]")), p) == (LOST, p)
    ensures ReadUpdates(On(Colon("null" + "}}}]")), m) == (LOST, m)
  {
    hide FindAfter, PeekType;
    var text := Colon("null" + "}}}]");
    BraceIsJunk();
    JunkPeek([':', 'n', 'u', 'l', 'l'], "}}}]");
    assert text == [':', 'n', 'u', 'l', 'l'] + "}}}]";
    NothingFound(text, '"');
    PeekNothing();
  }

  /** The last message of a frame is read even if it ends in null. */
  lemma LastMessageRead(lead: string, w: Written)
    requires Lead(lead) && Tidy(w) && EndsInNull(w)
    ensures ReadMessage(On(lead + PutMessage(w, "]"))) == (LOST, MeaningOf(w))
  {
    hide FindAfter, ReadParams, PutParams, MethodOf, PutMessage, Tidy, EndsInNull, ReadMessage, MeaningOf;
    MessageStarts(lead, w, "]");
    assert "}}" + "]" == "}}]";
    LastParamsRead(w);
    AfterLoss('}');
  }

  lemma LastParamsRead(w: Written)
    requires Tidy(w) && EndsInNull(w)
    ensures ReadParams(On(PutParams(w, "}}]")), MethodOf(w)) == (LOST, MeaningOf(w))
  {
    hide PutFlags, PublishField, PropertiesField, PutStringField, PutUidField, PutFlagsField, WithFlags, WithUpdates, LastIsNull,
         SubscribeField, UidField, Ends;
    if w.WPublish? {
      var flags := PutFlagsField("properties", w.properties, "}}]");
      var third := PutStringField([','], "type", w.typeName, flags);
      var second := PutUidField([','], "pubuid", w.pubuid, third);
      StringFieldRead("", "name", w.name, second, BLANK);
      var m1 := BLANK.(name := w.name);
      FieldEnds([], "type", [], w.typeName, flags);
      UidFieldRead([','], "pubuid", w.pubuid, third, m1);
      var m2 := m1.(uid := Just(w.pubuid));
      StringFieldRead([','], "type", w.typeName, flags, m2);
      LastFlagsRead(true, w.properties, m2.(typeName := Just(w.typeName)));
    } else {
      StringFieldRead("", "name", w.name, PutFlagsField("update", w.update, "}}]"), BLANK);
      LastFlagsRead(false, w.update, BLANK.(name := w.name));
    }
  }

  lemma LastFlagsRead(publish: bool, es: seq<FlagEntry>, m: Draft)
    requires LastIsNull(es)
    ensures publish ==> PublishField(On(PutFlagsField("properties", es, "}}]")), m)
                        == (LOST, m.(properties := WithFlags(m.properties, es)))
    ensures !publish ==> PropertiesField(On(PutFlagsField("update", es, "}}]")), m) == (LOST, WithUpdates(m, es))
  {
    hide Quoted, Colon, PutFlags, ReadProperties, ReadUpdates, UnpackKey, UnpackInt, FindAfter, WithFlags, WithUpdates, LastIsNull;
    var key := if publish then "properties" else "update";
    assert ['}'] + "}}]" == "}}}]";
    var list := PutFlags("", es, "}}}]");
    KeyAfterLead([','], key, Colon(['{'] + list));
    ColonSkips('{', list);
    FlagsAtEnd("", es, m.properties, m);
    AfterLoss('}');
  }

  lemma {:induction false} AllRead(lead: string, ws: seq<Written>)
    requires Lead(lead) && ws != [] && (forall w | w in ws :: Tidy(w))
    requires forall k :: 0 <= k < |ws| - 1 ==> !EndsInNull(ws[k])
    ensures ReadMessages(On(PutMessages(lead, ws, "]"))).1 == Meanings(ws)
    decreases |ws|
  {
    hide ReadMessage, PutMessage, Tidy, EndsInNull, MeaningOf, PeekType;
    assert ws[0] in ws;
    var rest := PutMessages([','], ws[1..], "]");
    assert Meanings(ws) == [MeaningOf(ws[0])] + Meanings(ws[1..]);
    if |ws| == 1 {
      PeekEnd();
      assert rest == "]";
      if EndsInNull(ws[0]) {
        LastMessageRead(lead, ws[0]);
      } else {
        assert WellFormed(ws[0]);
        MessageRead(lead, ws[0], rest);
      }
    } else {
      assert WellFormed(ws[0]);
      MessageRead(lead, ws[0], rest);
      PeekMessages(ws[1..]);
      AllRead([','], ws[1..]);
    }
  }

  /** A frame with such a message yields fewer messages than were written. */
  lemma FewerRead(ws: seq<Written>)
    requires ws != [] && (forall w | w in ws :: Tidy(w)) && exists k :: 0 <= k < |ws| - 1 && EndsInNull(ws[k])
    ensures |ReadFrame(PutFrame(ws))| < |ws|
  {
    hide FindAfter, ReadMessages, PutMessages, Tidy, EndsInNull;
    NextIs('[', PutMessages("", ws, "]"));
    Count("", ws);
  }

  /** A frame of messages with clean strings and 32-bit numbers is read as exactly those messages if and only if no
      message but the last ends in null. */
  lemma FrameReadIff(ws: seq<Written>)
    requires ws != [] && forall w | w in ws :: Tidy(w)
    ensures ReadFrame(PutFrame(ws)) == Meanings(ws) <==> forall k :: 0 <= k < |ws| - 1 ==> !EndsInNull(ws[k])
  {
    hide FindAfter, ReadMessages, PutMessages, Tidy, EndsInNull;
    NextIs('[', PutMessages("", ws, "]"));
    Count("", ws);
    if forall k :: 0 <= k < |ws| - 1 ==> !EndsInNull(ws[k]) {
      AllRead("", ws);
    }
  }
}
