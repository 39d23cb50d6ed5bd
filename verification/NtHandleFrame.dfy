/** _handleFrame: a text frame is a series of steps, one for each message and one at the end; a binary frame is
    one step for each record. */
module NtHandleFrame {
  import opened Bytes
  import MsgPackFormat
  import opened NtValues
  import opened NtRecords
  import opened Maybes
  import opened NtClient
  import opened NtServer
  import NtFrames
  import opened JsonMessages
  import opened JsonRoundTrip
  import opened JsonLosses
  import JsonUnpacker
  import opened NtInstance

  /** What the variables that a message does not set happen to hold. */
  datatype Unset = Unset(uid: int, typeName: string)

  function OrElse<T>(m: Maybe<T>, other: T): T {
    match m case Nothing => other case Just(v) => v
  }

  /** The step for a message; nothing for one with an unknown method. */
  function EventOf(g: Guid, m: ClientMessage, unset: Unset): Maybe<Event> {
    match m
    case SubscribeMessage(ts, i, o) => var uid := OrElse(i, unset.uid); Just(SubscribeEvent(g, Subscription(uid, ts, o)))
    case UnsubscribeMessage(i) => Just(UnsubscribeEvent(g, OrElse(i, unset.uid)))
    case PublishMessage(n, i, t, p) => Just(PublishEvent(g, OrElse(i, unset.uid), n, OrElse(t, unset.typeName), p))
    case UnpublishMessage(i) => Just(UnpublishEvent(g, OrElse(i, unset.uid)))
    case SetPropertiesMessage(n, p, r, c) => Just(SetPropertiesEvent(g, n, p, r, c))
    case OtherMessage => Nothing
  }

  function EventsOf(g: Guid, ms: seq<ClientMessage>, unset: Unset): seq<Event> {
    if ms == [] then []
    else
      var es := EventsOf(g, ms[..|ms| - 1], unset);
      match EventOf(g, ms[|ms| - 1], unset)
      case Nothing => es
      case Just(e) => es + [e]
  }

  function Events(inputs: seq<Input>): (es: seq<Event>)
    ensures |es| == |inputs|
  {
    seq(|inputs|, i requires 0 <= i < |inputs| => inputs[i].event)
  }

  ghost function Steps(enc: Encoders, s: Server, inputs: seq<Input>): Server {
    if inputs == [] then s
    else
      var i := inputs[|inputs| - 1];
      Step(Env(enc, i.now, i.order), Steps(enc, s, inputs[..|inputs| - 1]), i.event)
  }

  ghost predicate SoundSteps(enc: Encoders, s: Server, inputs: seq<Input>) {
    inputs == [] ||
    (SoundSteps(enc, s, inputs[..|inputs| - 1]) && Sound(Steps(enc, s, inputs[..|inputs| - 1]), inputs[|inputs| - 1]))
  }

  lemma OneMoreStep(enc: Encoders, s: Server, inputs: seq<Input>, i: Input)
    ensures Steps(enc, s, inputs + [i]) == Step(Env(enc, i.now, i.order), Steps(enc, s, inputs), i.event)
    ensures SoundSteps(enc, s, inputs + [i]) <==> SoundSteps(enc, s, inputs) && Sound(Steps(enc, s, inputs), i)
    ensures Events(inputs + [i]) == Events(inputs) + [i.event]
  {
    hide Step, Sound;
    assert (inputs + [i])[..|inputs|] == inputs;
  }

  /** Runs go on with further steps. */
  lemma {:induction false} RunsGoOn(enc: Encoders, before: seq<Input>, inputs: seq<Input>)
    requires SoundRun(enc, before) && SoundSteps(enc, Run(enc, before), inputs)
    ensures SoundRun(enc, before + inputs) && Run(enc, before + inputs) == Steps(enc, Run(enc, before), inputs)
  {
    hide Step, Sound;
    if inputs == [] {
      assert before + inputs == before;
    } else {
      var init, last := inputs[..|inputs| - 1], inputs[|inputs| - 1];
      RunsGoOn(enc, before, init);
      var all := before + inputs;
      assert all[..|all| - 1] == before + init && all[|all| - 1] == last;
    }
  }

  /** One message of a text frame. */
  method HandleMessage(nt: NetworkTableInstance, e: Event, now: nat) returns (ghost input: Input)
    requires e.SubscribeEvent? || e.UnsubscribeEvent? || e.PublishEvent? || e.UnpublishEvent? || e.SetPropertiesEvent?
    modifies nt
    ensures input.event == e && Sound(old(nt.State()), input)
    ensures nt.State() == Step(Env(nt.enc, input.now, input.order), old(nt.State()), e)
  {
    hide Subscribe, Unsubscribe, Publish, Unpublish, SetProperties, Connect, Disconnect, EndOfText, Value, LocalSubscribe,
         LocalUnsubscribe, LocalPublish, LocalUnpublish, LocalSetProperties, LocalUpdate, FlushBinaryAll;
    var order := WalkOrder(nt.topics.Keys);
    input := Input(now, order, e);
    if nt.failed { return; }
    match e
    case SubscribeEvent(g, sub) => nt.OnSubscribe(g, sub, order, now);
    case UnsubscribeEvent(g, subuid) => nt.OnUnsubscribe(g, subuid, order, now);
    case PublishEvent(g, pubuid, name, typeName, p) => nt.OnPublish(g, pubuid, name, typeName, p, now, order);
    case UnpublishEvent(g, pubuid) => nt.OnUnpublish(g, pubuid, now, order);
    case SetPropertiesEvent(g, name, p, r, c) => nt.OnSetProperties(g, name, p, r, c);
  }

  /** The end of a text frame. */
  method HandleEnd(nt: NetworkTableInstance, g: Guid, now: nat) returns (ghost input: Input)
    modifies nt
    ensures input.event == EndOfTextEvent(g) && Sound(old(nt.State()), input)
    ensures nt.State() == Step(Env(nt.enc, input.now, input.order), old(nt.State()), EndOfTextEvent(g))
  {
    hide EndOfText, Connect;
    var order: seq<string> := [];
    if g in nt.clients {
      order := WalkOrder(nt.clients[g].topicData.Keys);
    }
    input := Input(now, order, EndOfTextEvent(g));
    if nt.failed { return; }
    nt.OnEndOfText(g, order, now);
  }

  /** A text frame from a client. */
  method HandleTextFrame(nt: NetworkTableInstance, g: Guid, text: string, unset: Unset, now: nat) returns (ghost inputs: seq<Input>)
    modifies nt
    ensures nt.State() == Steps(nt.enc, old(nt.State()), inputs) && SoundSteps(nt.enc, old(nt.State()), inputs)
    ensures Events(inputs) == if g in old(nt.clients) then EventsOf(g, ReadFrame(text), unset) + [EndOfTextEvent(g)] else []
  {
    hide Step, Sound, ReadFrame, EventOf;
    inputs := [];
    if g !in nt.clients { return; }
    var messages := JsonUnpacker.ParseFrame(text);
    for i := 0 to |messages|
      invariant nt.State() == Steps(nt.enc, old(nt.State()), inputs) && SoundSteps(nt.enc, old(nt.State()), inputs)
      invariant Events(inputs) == EventsOf(g, messages[..i], unset)
    {
      assert messages[..i + 1][..i] == messages[..i];
      var event := EventOf(g, messages[i], unset);
      if event.Just? {
        assert IsMessage(event.value) by { MessagesAreMessages(g, messages[i], unset); }
        ghost var input := HandleMessage(nt, event.value, now);
        OneMoreStep(nt.enc, old(nt.State()), inputs, input);
        inputs := inputs + [input];
      }
    }
    assert messages[..|messages|] == messages;
    ghost var last := HandleEnd(nt, g, now);
    OneMoreStep(nt.enc, old(nt.State()), inputs, last);
    inputs := inputs + [last];
  }

  predicate IsMessage(e: Event) {
    e.SubscribeEvent? || e.UnsubscribeEvent? || e.PublishEvent? || e.UnpublishEvent? || e.SetPropertiesEvent?
  }

  lemma MessagesAreMessages(g: Guid, m: ClientMessage, unset: Unset)
    requires EventOf(g, m, unset).Just?
    ensures IsMessage(EventOf(g, m, unset).value)
  {
  }

  /** The event that a written message stands for. */
  function WrittenEvent(g: Guid, w: Written): Event {
    match w
    case WSubscribe(ts, i, es) => SubscribeEvent(g, Subscription(i, ts, WithOptions(BLANK.options, es)))
    case WUnsubscribe(i) => UnsubscribeEvent(g, i)
    case WPublish(n, i, t, es) => PublishEvent(g, i, n, t, WithFlags(BLANK.properties, es))
    case WUnpublish(i) => UnpublishEvent(g, i)
    case WSetProperties(n, es) =>
      var m := WithUpdates(BLANK.(name := n), es);
      SetPropertiesEvent(g, n, m.persistent, m.retained, m.cached)
  }

  function WrittenEvents(g: Guid, ws: seq<Written>): (es: seq<Event>)
    ensures |es| == |ws|
  {
    seq(|ws|, i requires 0 <= i < |ws| => WrittenEvent(g, ws[i]))
  }

  lemma {:induction false} UpdatesKeepName(m: Draft, es: seq<FlagEntry>)
    ensures WithUpdates(m, es).name == m.name
    decreases |es|
  {
    if es == [] {
    } else {
      UpdatesKeepName(WithUpdate(m, es[0]), es[1..]);
    }
  }

  lemma MeaningEvent(g: Guid, w: Written, unset: Unset)
    ensures EventOf(g, MeaningOf(w), unset) == Just(WrittenEvent(g, w))
  {
    hide WithOptions, WithFlags, WithUpdates;
    if w.WSetProperties? { UpdatesKeepName(BLANK.(name := w.name), w.update); }
  }

  lemma {:induction false} MeaningEvents(g: Guid, ws: seq<Written>, unset: Unset)
    ensures EventsOf(g, Meanings(ws), unset) == WrittenEvents(g, ws)
    decreases |ws|
  {
    hide EventOf, MeaningOf, WrittenEvent;
    if ws == [] {
    } else {
      var init, w := ws[..|ws| - 1], ws[|ws| - 1];
      MeaningEvents(g, init, unset);
      MeaningEvent(g, w, unset);
      assert Meanings(ws)[..|ws| - 1] == Meanings(init);
    }
  }

  lemma {:induction false} NoMoreEvents(g: Guid, ms: seq<ClientMessage>, unset: Unset)
    ensures |EventsOf(g, ms, unset)| <= |ms|
  {
    hide EventOf;
    if ms == [] {
    } else {
      NoMoreEvents(g, ms[..|ms| - 1], unset);
    }
  }

  /** From the text on the wire to the steps of the server: a frame of messages causes exactly the steps that its
      messages stand for, in order, whatever unset variables hold, if and only if no message but the last ends in
      a null. */
  lemma TextCausesItsSteps(g: Guid, ws: seq<Written>, unset: Unset)
    requires ws != [] && forall w | w in ws :: Tidy(w)
    ensures EventsOf(g, ReadFrame(PutFrame(ws)), unset) == WrittenEvents(g, ws) <==>
            forall k :: 0 <= k < |ws| - 1 ==> !EndsInNull(ws[k])
  {
    hide ReadFrame, PutFrame, Tidy, EndsInNull, EventsOf;
    if forall k :: 0 <= k < |ws| - 1 ==> !EndsInNull(ws[k]) {
      FrameReadIff(ws);
      MeaningEvents(g, ws, unset);
    } else {
      FewerRead(ws);
      NoMoreEvents(g, ReadFrame(PutFrame(ws)), unset);
    }
  }

  /** One record of a binary frame. */
  method HandleRecord(nt: NetworkTableInstance, g: Guid, r: Record, now: nat) returns (ghost input: Input)
    modifies nt
    ensures input.event == ValueEvent(g, r.id, r.value) && Sound(old(nt.State()), input)
    ensures nt.State() == Step(Env(nt.enc, input.now, input.order), old(nt.State()), input.event)
  {
    hide Value, Connect;
    input := Input(now, [], ValueEvent(g, r.id, r.value));
    if nt.failed { return; }
    nt.OnValue(g, r.id, r.value, now, []);
  }

  /** The events that the records of a client stand for. */
  function ValueEvents(g: Guid, rs: seq<Record>): (es: seq<Event>)
    ensures |es| == |rs|
  {
    seq(|rs|, i requires 0 <= i < |rs| => ValueEvent(g, rs[i].id, rs[i].value))
  }

  /** A binary frame from a client: one step for each record that the frame decodes to; a loop that gets stuck
      never goes past the records before it. */
  method HandleBinaryFrame(nt: NetworkTableInstance, g: Guid, frame: seq<byte>, now: nat)
    returns (ending: Ending, ghost inputs: seq<Input>)
    modifies nt
    ensures ending == DecodeFrame(MsgPackFormat.Cursor(frame, false, MsgPackFormat.NoError)).1
    ensures nt.State() == Steps(nt.enc, old(nt.State()), inputs) && SoundSteps(nt.enc, old(nt.State()), inputs)
    ensures Events(inputs) == ValueEvents(g, DecodeFrame(MsgPackFormat.Cursor(frame, false, MsgPackFormat.NoError)).0)
  {
    hide DecodeFrame, Step, Sound;
    var records;
    records, ending := NtFrames.DecodeLoop(frame);
    inputs := [];
    for i := 0 to |records|
      invariant nt.State() == Steps(nt.enc, old(nt.State()), inputs) && SoundSteps(nt.enc, old(nt.State()), inputs)
      invariant Events(inputs) == ValueEvents(g, records[..i])
    {
      ghost var input := HandleRecord(nt, g, records[i], now);
      OneMoreStep(nt.enc, old(nt.State()), inputs, input);
      inputs := inputs + [input];
      assert records[..i + 1] == records[..i] + [records[i]];
      assert ValueEvents(g, records[..i + 1]) == ValueEvents(g, records[..i]) + [ValueEvent(g, records[i].id, records[i].value)];
    }
    assert records[..|records|] == records;
  }
}
