// The names the frames are read by, what an escape denotes to whoever reads it,
// and what the parsers make of any frame, whatever the order of its fields.
module ConsoleFrames {
  import opened ByteText
  import opened JsonUtil
  import opened JsonScanning
  import opened JsonKeys
  import opened GuiFrames

  // ------------------------------------------------------------------- escaping

  lemma ControlIsCodeUnit(c: char)
    requires EscapeUnit(c).Unicode?
    ensures CodeUnit(EscapeUnit(c).hex) == c as int < 0x20
  {
    assert forall d :: 0 <= d < 16 ==> HexDigitValue(HEX[d]) == d;
  }

  lemma FirstIsDenoted(c: char, us: seq<Unit>)
    requires us != [] && GoodUnits(us) && us[0] == EscapeUnit(c)
    ensures Denoted(us) == Before([c], Denoted(us[1..]))
  {
    if us[0].Unicode? {
      ControlIsCodeUnit(c);
      LowUnitIsDenoted(us, c as int);
    }
  }

  lemma LowUnitIsDenoted(us: seq<Unit>, code: nat)
    requires us != [] && GoodUnits(us) && us[0].Unicode? && CodeUnit(us[0].hex) == code < 0x20
    ensures Denoted(us) == Before([code as char], Denoted(us[1..]))
  {
    assert !StartsWithPair(us);
  }

  /** Whoever reads the escape of a text by the RFC has the text, control bytes and all. */
  lemma {:induction false} EscapeIsRead(s: string)
    ensures Denoted(EscapeUnits(s)) == Some(s)
  {
    if s != "" {
      var us := EscapeUnits(s);
      assert us[1..] == EscapeUnits(s[1..]) && [s[0]] + s[1..] == s;
      EscapeIsRead(s[1..]);
      FirstIsDenoted(s[0], us);
    }
  }

  // --------------------------------------------------------------------- names

  lemma Named(json: string, key: Key, name: string)
    requires key.Text() == name
    ensures RawField(json, name) == FieldOf(json, key)
  {}

  lemma NamesAre()
    ensures Type.Text() == "type" && RequestId.Text() == "request_id" && Action.Text() == "action"
    ensures Payload.Text() == "payload" && Topics.Text() == "topics" && Key.Kind.Text() == "kind"
    ensures Ok.Text() == "ok" && Error.Text() == "error" && Event.Text() == "event"
  {}

  lemma NamedIsRead(fields: Fields, key: Key, name: string)
    requires GoodFields(fields) && key.Text() == name
    ensures RawField(Frame(fields), name) == Lookup(fields, key)
  {
    FrameReadsBack(fields, key);
    Named(Frame(fields), key, name);
  }

  /** Under which names the console finds what a request asks. */
  lemma RequestIsNamed(r: GuiRequest)
    requires PayloadText(r.payload)
    ensures RawField(BuildGuiRequest(r), "type") == Some(Quote("gui_request"))
    ensures RawField(BuildGuiRequest(r), "request_id") == Some(Decimal(r.requestId))
    ensures RawField(BuildGuiRequest(r), "action") == Some(Quote(r.action))
    ensures RawField(BuildGuiRequest(r), "payload") == Some(if r.payload == "" then "null" else r.payload)
  {
    NamesAre();
    RequestFieldsAreGood(r);
    RequestLookups(r);
    NamedIsRead(RequestFields(r), Type, "type");
    NamedIsRead(RequestFields(r), RequestId, "request_id");
    NamedIsRead(RequestFields(r), Action, "action");
    NamedIsRead(RequestFields(r), Payload, "payload");
  }

  lemma SubscriptionIsGood(requestId: nat, list: string)
    requires WellFormed(list)
    ensures GoodFields(SubscribeFields(requestId, list))
    ensures Lookup(SubscribeFields(requestId, list), Topics) == Some(list)
  {
    QuoteIsWellFormed("gui_subscribe");
    DecimalIsWellFormed(requestId);
    assert GoodFields(SubscribeFields(requestId, list).rest.rest);
    assert Lookup(SubscribeFields(requestId, list).rest.rest, Topics) == Some(list);
  }

  function TopicItem(topic: string): Item {
    Item("", None, Quoted(EscapeUnits(topic)), "")
  }

  function TopicItems(topics: seq<string>): Items
    requires topics != []
  {
    if |topics| == 1 then Last(TopicItem(topics[0])) else More(TopicItem(topics[0]), TopicItems(topics[1..]))
  }

  /** The list of these strings, with no space in it. */
  function TopicList(topics: seq<string>): Value {
    if topics == [] then Empty(Array, "") else Nested(Array, TopicItems(topics))
  }

  lemma {:induction false} ItemsAreGood(topics: seq<string>)
    requires topics != []
    ensures GoodItems(TopicItems(topics), Array)
    decreases |topics|
  {
    assert GoodItem(TopicItem(topics[0]), Array);
    if |topics| > 1 {
      ItemsAreGood(topics[1..]);
    }
  }

  lemma {:induction false} TopicsFirst(topics: seq<string>)
    requires |topics| > 1
    ensures TopicsText(topics) == Quote(topics[0]) + "," + TopicsText(topics[1..])
    decreases |topics|
  {
    var last := |topics| - 1;
    if last > 1 {
      TopicsFirst(topics[..last]);
      assert topics[..last][1..] == topics[1..][..last - 1];
      Regrouped(Quote(topics[0]) + ",", TopicsText(topics[1..][..last - 1]), ",", Quote(topics[last]));
    } else {
      assert topics[..1] == [topics[0]] && topics[1..] == [topics[1]];
    }
  }

  lemma Regrouped(a: string, b: string, c: string, d: string)
    ensures a + b + c + d == a + (b + c + d)
  {}

  lemma QuoteThenTail(s: string, tail: string)
    ensures PutItem(TopicItem(s), tail) == Quote(s) + tail
  {
    QuoteIsAString(s);
    StringThenTail(EscapeUnits(s), "", tail);
    Nothing(tail);
    Nothing(PutString(EscapeUnits(s), tail));
  }

  lemma {:induction false} ItemsPrint(topics: seq<string>, tail: string)
    requires topics != []
    ensures PutItems(TopicItems(topics), tail) == TopicsText(topics) + tail
    decreases |topics|
  {
    if |topics| == 1 {
      QuoteThenTail(topics[0], tail);
    } else {
      ItemsPrint(topics[1..], tail);
      QuoteThenTail(topics[0], [','] + (TopicsText(topics[1..]) + tail));
      TopicsFirst(topics);
      InTheMiddle(Quote(topics[0]), TopicsText(topics[1..]), tail);
    }
  }

  lemma InTheMiddle(a: string, b: string, c: string)
    ensures a + ([','] + (b + c)) == a + "," + b + c
  {}

  /** The topics are sent as the list of them, each quoted and escaped. */
  lemma TopicsAreAList(topics: seq<string>)
    ensures GoodValue(TopicList(topics)) && TextOf(TopicList(topics)) == "[" + TopicsText(topics) + "]"
  {
    if topics != [] {
      ItemsAreGood(topics);
      ItemsPrint(topics, [']'] + "");
    }
  }

  /** Under which names it finds a subscription. */
  lemma SubscriptionIsNamed(requestId: nat, topics: seq<string>)
    ensures var frame := Frame(SubscribeFields(requestId, "[" + TopicsText(topics) + "]"));
            && RawField(frame, "type") == Some(Quote("gui_subscribe"))
            && RawField(frame, "request_id") == Some(Decimal(requestId))
            && RawField(frame, "topics") == Some(TextOf(TopicList(topics)))
  {
    var list := TextOf(TopicList(topics));
    var fields := SubscribeFields(requestId, list);
    NamesAre();
    TopicsAreAList(topics);
    SubscriptionIsGood(requestId, list);
    NamedIsRead(fields, Type, "type");
    NamedIsRead(fields, RequestId, "request_id");
    NamedIsRead(fields, Topics, "topics");
  }

  /** Under which names the page finds a response. */
  lemma ResponseIsNamed(r: GuiResponse)
    requires PayloadText(r.payload)
    ensures RawField(BuildJsResponse(r), "kind") == Some(Quote("response"))
    ensures RawField(BuildJsResponse(r), "request_id") == Some(Decimal(r.requestId))
    ensures RawField(BuildJsResponse(r), "ok") == Some(if r.ok then "true" else "false")
    ensures RawField(BuildJsResponse(r), "payload") == Some(if r.payload == "" then "null" else r.payload)
    ensures RawField(BuildJsResponse(r), "error") == Some(Quote(r.error))
  {
    NamesAre();
    ResponseFieldsAreGood(r);
    ResponseLookups(r);
    NamedIsRead(ResponseFields(r), Key.Kind, "kind");
    NamedIsRead(ResponseFields(r), RequestId, "request_id");
    NamedIsRead(ResponseFields(r), Ok, "ok");
    NamedIsRead(ResponseFields(r), Payload, "payload");
    NamedIsRead(ResponseFields(r), Error, "error");
  }

  /** Under which names it finds an event. */
  lemma EventIsNamed(e: GuiEvent)
    requires PayloadText(e.payload)
    ensures RawField(BuildJsEvent(e), "kind") == Some(Quote("event"))
    ensures RawField(BuildJsEvent(e), "event") == Some(Quote(e.event))
    ensures RawField(BuildJsEvent(e), "payload") == Some(if e.payload == "" then "null" else e.payload)
  {
    NamesAre();
    EventFieldsAreGood(e);
    NamedIsRead(EventFields(e), Key.Kind, "kind");
    NamedIsRead(EventFields(e), Event, "event");
    NamedIsRead(EventFields(e), Payload, "payload");
  }

  // ------------------------------------------------------------------- parsing

  /** The frame says it is of this kind. */
  predicate IsOf(fields: Fields, kind: string) {
    Lookup(fields, Type) == Some(Quote(kind))
  }

  /** The payload a frame carries: what is there, and none for `null` or nothing. */
  predicate Carries(fields: Fields, payload: string) {
    if payload == "" then Lookup(fields, Payload) == None || Lookup(fields, Payload) == Some("null")
    else payload != "null" && Lookup(fields, Payload) == Some(payload)
  }

  lemma KindIsRead(fields: Fields, kind: string)
    requires GoodFields(fields) && IsOf(fields, kind) && SurvivesEscaping(kind)
    ensures StringField(Frame(fields), Type) == Some(kind)
  {
    StringReadsBack(fields, Type, kind);
  }

  lemma PayloadIsRead(fields: Fields, payload: string)
    requires GoodFields(fields) && Carries(fields, payload)
    ensures PayloadField(Frame(fields)) == payload
  {
    FrameReadsBack(fields, Payload);
  }

  lemma KindsSurvive()
    ensures SurvivesEscaping("gui_response") && SurvivesEscaping("gui_event")
    ensures "gui_" <= "gui_response" && "gui_" <= "gui_event"
  {}

  /** A response of the console is read as it was meant, in whatever order its fields
      come; without an error it has none, and its id is taken modulo 2^64. */
  lemma ConsoleResponseIsRead(fields: Fields, id: nat, r: GuiResponse)
    requires GoodFields(fields) && IsOf(fields, "gui_response") && Carries(fields, r.payload)
    requires Lookup(fields, RequestId) == Some(Decimal(id)) && r.requestId == id % 0x1_0000_0000_0000_0000
    requires r.ok <==> Lookup(fields, Ok) == Some("true")
    requires if Lookup(fields, Error).None? then r.error == ""
             else Lookup(fields, Error) == Some(Quote(r.error)) && SurvivesEscaping(r.error)
    ensures ParseGuiResponse(Frame(fields)) == Some(r) && IsGuiFrame(Frame(fields))
  {
    KindsSurvive();
    KindIsRead(fields, "gui_response");
    PayloadIsRead(fields, r.payload);
    FrameReadsBack(fields, Ok);
    IdIsRead(fields, id);
    ErrorIsRead(fields, r.error);
    ResponseIsParsed(Frame(fields), r);
  }

  lemma ResponseIsParsed(json: string, r: GuiResponse)
    requires StringField(json, Type) == Some("gui_response") && UintFieldOf(json, RequestId) == Some(r.requestId)
    requires (FieldOf(json, Ok) == Some("true")) == r.ok && PayloadField(json) == r.payload
    requires var error := StringField(json, Error); r.error == if error.Some? then error.value else ""
    ensures ParseGuiResponse(json) == Some(r)
  {}

  lemma IdIsRead(fields: Fields, id: nat)
    requires GoodFields(fields) && Lookup(fields, RequestId) == Some(Decimal(id))
    ensures UintFieldOf(Frame(fields), RequestId) == Some(id % 0x1_0000_0000_0000_0000)
  {
    FrameReadsBack(fields, RequestId);
    DecimalDenotes(id);
  }

  lemma ErrorIsRead(fields: Fields, error: string)
    requires GoodFields(fields)
    requires if Lookup(fields, Error).None? then error == ""
             else Lookup(fields, Error) == Some(Quote(error)) && SurvivesEscaping(error)
    ensures StringField(Frame(fields), Error) == if Lookup(fields, Error).None? then None else Some(error)
  {
    FrameReadsBack(fields, Error);
    if Lookup(fields, Error).Some? {
      StringReadsBack(fields, Error, error);
    }
  }

  /** An event of the console is read as it was meant, if it has a name. */
  lemma ConsoleEventIsRead(fields: Fields, e: GuiEvent)
    requires GoodFields(fields) && IsOf(fields, "gui_event") && Carries(fields, e.payload)
    requires Lookup(fields, Event) == Some(Quote(e.event)) && SurvivesEscaping(e.event)
    ensures ParseGuiEvent(Frame(fields)) == (if e.event == "" then None else Some(e)) && IsGuiFrame(Frame(fields))
    ensures ParseGuiResponse(Frame(fields)).None?
  {
    KindsSurvive();
    KindIsRead(fields, "gui_event");
    PayloadIsRead(fields, e.payload);
    StringReadsBack(fields, Event, e.event);
  }

  /** What has no id is no response, what has no name is no event, and neither is a frame of another kind. */
  lemma OtherFramesAreNot(fields: Fields, kind: string)
    requires GoodFields(fields) && IsOf(fields, kind) && SurvivesEscaping(kind)
    ensures IsGuiFrame(Frame(fields)) <==> "gui_" <= kind
    ensures kind != "gui_response" || Lookup(fields, RequestId).None? ==> ParseGuiResponse(Frame(fields)).None?
    ensures kind != "gui_event" || Lookup(fields, Event).None? ==> ParseGuiEvent(Frame(fields)).None?
  {
    KindIsRead(fields, kind);
    FrameReadsBack(fields, RequestId);
    FrameReadsBack(fields, Event);
  }

  /** A request of the page is read as it was meant, if it has an action. */
  lemma PanelRequestIsRead(fields: Fields, r: PanelRequest)
    requires GoodFields(fields) && Carries(fields, r.payload)
    requires Lookup(fields, Action) == None || Lookup(fields, Action) == Some(Quote(r.action))
    requires SurvivesEscaping(r.action)
    ensures ParsePanelRequest(Frame(fields))
            == if Lookup(fields, Action).None? || r.action == "" then None else Some(r)
  {
    PayloadIsRead(fields, r.payload);
    FrameReadsBack(fields, Action);
    if Lookup(fields, Action).Some? {
      StringReadsBack(fields, Action, r.action);
    }
  }
}
