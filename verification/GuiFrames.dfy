// src/gui/gui_frames.cpp: the GUI half of the wire protocol and the envelopes
// the page receives.
module GuiFrames {
  import opened ByteText
  import opened JsonUtil
  import opened JsonScanning

  const WORD := 0x1_0000_0000_0000_0000

  datatype GuiRequest = GuiRequest(requestId: nat, action: string, payload: string)
  datatype GuiResponse = GuiResponse(requestId: nat, ok: bool, payload: string, error: string)
  datatype GuiEvent = GuiEvent(event: string, payload: string)
  datatype GuiStatus = GuiStatus(connected: bool, subscribed: bool, pending: nat, droppedEvents: nat)
  datatype PanelRequest = PanelRequest(action: string, payload: string)

  // ---------------------------------------------------------------- builders

  /** The names the frames are built with. */
  datatype Key =
    | Type | RequestId | Action | Payload | Topics
    | Kind | Ok | Error | Event
  {
    function Text(): string {
      match this
      case Type => "type"
      case RequestId => "request_id"
      case Action => "action"
      case Payload => "payload"
      case Topics => "topics"
      case Kind => "kind"
      case Ok => "ok"
      case Error => "error"
      case Event => "event"
    }
  }

  /** One `"name":value` of a frame, and the list of them. */
  datatype Field = Field(key: Key, value: string)
  datatype Fields = One(field: Field) | And(field: Field, rest: Fields)

  function FieldText(f: Field): string {
    ['"'] + f.key.Text() + ['"'] + ":" + f.value
  }

  function FieldsText(fields: Fields): string {
    match fields
    case One(f) => FieldText(f)
    case And(f, rest) => FieldText(f) + "," + FieldsText(rest)
  }

  function Frame(fields: Fields): string {
    "{" + FieldsText(fields) + "}"
  }

  function Quote(s: string): string {
    ['"'] + Escaped(s) + ['"']
  }

  function BoolText(b: bool): string {
    if b then "true" else "false"
  }

  function JsonValue(raw: string): string {
    if raw == "" then "null" else raw
  }

  function RequestFields(r: GuiRequest): Fields {
    And(Field(Type, Quote("gui_request")),
        And(Field(RequestId, Decimal(r.requestId)),
            And(Field(Action, Quote(r.action)),
                One(Field(Payload, JsonValue(r.payload))))))
  }

  function BuildGuiRequest(r: GuiRequest): string {
    Frame(RequestFields(r))
  }

  function TopicsText(topics: seq<string>): string {
    if topics == [] then ""
    else if |topics| == 1 then Quote(topics[0])
    else TopicsText(topics[..|topics| - 1]) + "," + Quote(topics[|topics| - 1])
  }

  function SubscribeFields(requestId: nat, topicsText: string): Fields {
    And(Field(Type, Quote("gui_subscribe")),
        And(Field(RequestId, Decimal(requestId)),
            One(Field(Topics, topicsText))))
  }

  method BuildGuiSubscribe(requestId: nat, topics: seq<string>) returns (frame: string)
    ensures frame == Frame(SubscribeFields(requestId, "[" + TopicsText(topics) + "]"))
  {
    var list := "";
    for i := 0 to |topics|
      invariant list == TopicsText(topics[..i])
    {
      assert topics[..i + 1][..i] == topics[..i];
      if i > 0 {
        list := list + ",";
      }
      list := list + Quote(topics[i]);
    }
    assert topics[..|topics|] == topics;
    frame := Frame(SubscribeFields(requestId, "[" + list + "]"));
  }

  function ResponseFields(r: GuiResponse): Fields {
    And(Field(Kind, Quote("response")),
        And(Field(RequestId, Decimal(r.requestId)),
            And(Field(Ok, BoolText(r.ok)),
                And(Field(Payload, JsonValue(r.payload)),
                    One(Field(Error, Quote(r.error)))))))
  }

  function BuildJsResponse(r: GuiResponse): string {
    Frame(ResponseFields(r))
  }

  function EventFields(e: GuiEvent): Fields {
    And(Field(Kind, Quote("event")),
        And(Field(Event, Quote(e.event)),
            One(Field(Payload, JsonValue(e.payload)))))
  }

  function BuildJsEvent(e: GuiEvent): string {
    Frame(EventFields(e))
  }

  // ----------------------------------------------------------------- parsers

  function FieldOf(json: string, key: Key): Option<string> {
    RawField(json, key.Text())
  }

  function StringField(json: string, key: Key): Option<string> {
    var raw := FieldOf(json, key);
    if raw.None? then None else Unquote(raw.value)
  }

  /** Unsigned arithmetic wraps at 2^64. */
  function UintOf(raw: string): Option<nat> {
    if raw == "" || !AllDigits(raw) then None else Some(NumberOf(raw) % WORD)
  }

  method UintField(json: string, key: Key) returns (value: Option<nat>)
    ensures value == UintFieldOf(json, key)
  {
    var raw := JsonRawField(json, key.Text());
    if raw.None? || raw.value == "" {
      return None;
    }
    value := ReadDigits(raw.value);
  }

  /** The running value is kept in 64 bits. */
  method ReadDigits(text: string) returns (value: Option<nat>)
    ensures value == if AllDigits(text) then Some(NumberOf(text) % WORD) else None
  {
    var n := 0;
    for i := 0 to |text|
      invariant AllDigits(text[..i]) && n == NumberOf(text[..i]) % WORD
    {
      if !IsDigit(text[i]) {
        return None;
      }
      assert text[..i + 1][..i] == text[..i];
      WrappedStep(NumberOf(text[..i]), DigitValue(text[i]));
      n := (n * 10 + DigitValue(text[i])) % WORD;
    }
    assert text[..|text|] == text;
    return Some(n);
  }

  lemma WrappedStep(n: nat, d: nat)
    ensures (n % WORD * 10 + d) % WORD == (n * 10 + d) % WORD
  {
    var q := n / WORD;
    assert n * 10 + d == (n % WORD * 10 + d) + WORD * (q * 10);
    ModPlusMultiple(n % WORD * 10 + d, q * 10);
  }

  lemma {:induction false} ModPlusMultiple(x: nat, k: nat)
    ensures (x + WORD * k) % WORD == x % WORD
  {
    if k > 0 {
      ModPlusMultiple(x, k - 1);
      assert x + WORD * k == (x + WORD * (k - 1)) + WORD;
    }
  }

  function UintFieldOf(json: string, key: Key): Option<nat> {
    var raw := FieldOf(json, key);
    if raw.None? then None else UintOf(raw.value)
  }

  function PayloadField(json: string): string {
    var raw := FieldOf(json, Payload);
    if raw.Some? && raw.value != "null" then raw.value else ""
  }

  predicate FrameIs(json: string, kind: string) {
    StringField(json, Type) == Some(kind)
  }

  function ParseGuiResponse(frame: string): Option<GuiResponse> {
    if !FrameIs(frame, "gui_response") then None
    else
      var id := UintFieldOf(frame, RequestId);
      if id.None? then None
      else
        var error := StringField(frame, Error);
        Some(GuiResponse(id.value, FieldOf(frame, Ok) == Some("true"), PayloadField(frame),
                         if error.Some? then error.value else ""))
  }

  function ParseGuiEvent(frame: string): Option<GuiEvent> {
    var name := StringField(frame, Event);
    if !FrameIs(frame, "gui_event") || name.None? || name.value == "" then None
    else Some(GuiEvent(name.value, PayloadField(frame)))
  }

  predicate IsGuiFrame(frame: string) {
    var kind := StringField(frame, Type);
    kind.Some? && "gui_" <= kind.value
  }

  function ParsePanelRequest(message: string): Option<PanelRequest> {
    var action := StringField(message, Action);
    if action.None? || action.value == "" then None
    else Some(PanelRequest(action.value, PayloadField(message)))
  }

  // -------------------------------------------------- what a frame reads back as

  /** `text` is the whole of one well-formed JSON value. */
  ghost predicate WellFormed(text: string) {
    exists v :: GoodValue(v) && TextOf(v) == text
  }

  predicate PlainName(s: string) {
    forall i :: 0 <= i < |s| ==> ' ' <= s[i] && s[i] != '"' && s[i] != '\\'
  }

  function PlainUnits(s: string): (us: seq<Unit>)
    requires PlainName(s)
    ensures |us| == |s| && GoodUnits(us)
  {
    seq(|s|, i requires 0 <= i < |s| => Plain(s[i]))
  }

  lemma {:induction false} PlainNamePrints(s: string, tail: string)
    requires PlainName(s)
    ensures PutUnits(PlainUnits(s), tail) == s + tail && Meaning(PlainUnits(s)) == s
  {
    if s != "" {
      assert PlainUnits(s)[1..] == PlainUnits(s[1..]);
      PlainNamePrints(s[1..], tail);
    }
  }

  lemma KeyIsPlain(key: Key)
    ensures PlainName(key.Text())
  {
    match key
    case Type => case RequestId => case Action => case Payload => case Topics =>
    case Kind => case Ok => case Error => case Event =>
  }

  lemma KeysDiffer(a: Key, b: Key)
    ensures a.Text() == b.Text() <==> a == b
  {
    assert "type"[0] != "kind"[0];
    assert "error"[1] != "event"[1];
    assert "action"[0] != "topics"[0];
  }

  /** The value of the first field with the key. */
  function Lookup(fields: Fields, key: Key): Option<string> {
    if fields.field.key == key then Some(fields.field.value)
    else if fields.And? then Lookup(fields.rest, key)
    else None
  }

  ghost predicate GoodFields(fields: Fields) {
    WellFormed(fields.field.value) && (fields.And? ==> GoodFields(fields.rest))
  }

  lemma FieldIsRead(f: Field, tail: string)
    requires WellFormed(f.value) && tail != "" && tail[0] in ",}"
    ensures ReadMember(FieldText(f) + tail) == Member(f.key.Text(), f.value, tail)
  {
    var v :| GoodValue(v) && TextOf(v) == f.value;
    KeyIsPlain(f.key);
    PlainMemberIsRead(f.key.Text(), v, tail);
  }

  function PlainItem(name: string, v: Value): Item
    requires PlainName(name)
  {
    Item("", Some(Name(PlainUnits(name), "", "")), v, "")
  }

  lemma PlainMemberIsRead(name: string, v: Value, tail: string)
    requires PlainName(name) && GoodValue(v) && tail != "" && tail[0] in ",}"
    ensures ReadMember(['"'] + name + ['"'] + ":" + TextOf(v) + tail) == Member(name, TextOf(v), tail)
  {
    MemberIsRead(PlainItem(name, v), tail);
    PlainMemberPrints(name, v, tail);
    PlainNamePrints(name, "");
    Nothing(tail);
  }

  lemma PlainMemberPrints(name: string, v: Value, tail: string)
    requires PlainName(name)
    ensures PutItem(PlainItem(name, v), tail) == ['"'] + name + ['"'] + ":" + TextOf(v) + tail
  {
    ValueThenTail(v, "", tail);
    Nothing(tail);
    Nothing(PutValue(v, tail));
    Nothing([':'] + PutValue(v, tail));
    Nothing(PutString(PlainUnits(name), [':'] + PutValue(v, tail)));
    PlainNamePrints(name, ['"'] + ([':'] + PutValue(v, tail)));
    Glued(name, TextOf(v), tail);
  }

  lemma Nothing(s: string)
    ensures "" + s == s
  {}

  lemma Glued(name: string, text: string, tail: string)
    ensures ['"'] + (name + (['"'] + ([':'] + (text + tail)))) == ['"'] + name + ['"'] + ":" + text + tail
  {}

  lemma {:induction false} FieldsAreSearched(fields: Fields, key: Key)
    requires GoodFields(fields)
    ensures FieldIn(FieldsText(fields) + "}", key.Text()) == Lookup(fields, key)
  {
    var f := fields.field;
    KeysDiffer(f.key, key);
    if fields.One? {
      FieldIsRead(f, "}");
    } else {
      var rest := FieldsText(fields.rest) + "}";
      assert FieldsText(fields) + "}" == FieldText(f) + ("," + rest);
      FieldIsRead(f, "," + rest);
      assert ("," + rest)[1..] == rest;
      FieldsAreSearched(fields.rest, key);
    }
  }

  /** Reading a field of a built frame gives back the text that was put there. */
  lemma FrameReadsBack(fields: Fields, key: Key)
    requires GoodFields(fields)
    ensures FieldOf(Frame(fields), key) == Lookup(fields, key)
  {
    assert Frame(fields) == "{" + (FieldsText(fields) + "}");
    assert Frame(fields)[1..] == FieldsText(fields) + "}";
    FieldsAreSearched(fields, key);
  }

  lemma QuoteIsAString(s: string)
    ensures Quote(s) == PutString(EscapeUnits(s), "")
  {
    var us := EscapeUnits(s);
    UnitsThenTail(us, "", ['"']);
    assert "" + ['"'] == ['"'] && ['"'] + "" == ['"'];
    assert Quote(s) == ['"'] + (Escaped(s) + ['"']);
  }

  lemma QuoteIsWellFormed(s: string)
    ensures WellFormed(Quote(s))
  {
    QuoteIsAString(s);
    assert GoodValue(Quoted(EscapeUnits(s))) && TextOf(Quoted(EscapeUnits(s))) == Quote(s);
  }

  lemma DecimalIsWellFormed(n: nat)
    ensures WellFormed(Decimal(n))
  {
    var v := Number(false, Decimal(n), None, None);
    assert TextOf(v) == Decimal(n);
    assert GoodValue(v);
  }

  /** An id survives exactly when it fits 64 bits. */
  lemma DecimalReadsBack(n: nat)
    ensures UintOf(Decimal(n)) == Some(n) <==> n < WORD
  {
    DecimalDenotes(n);
  }

  lemma WordIsWellFormed(word: string)
    requires word in ["true", "false", "null"]
    ensures WellFormed(word)
  {
    assert GoodValue(Word(word)) && TextOf(Word(word)) == word;
  }

  /** A payload the plugin carries: none, or one well-formed value. */
  ghost predicate PayloadText(raw: string) {
    raw == "" || WellFormed(raw)
  }

  lemma PayloadIsWellFormed(raw: string)
    requires PayloadText(raw)
    ensures WellFormed(JsonValue(raw))
  {
    WordIsWellFormed("null");
  }

  lemma FieldReadsBack(fields: Fields, key: Key, value: string)
    requires GoodFields(fields) && Lookup(fields, key) == Some(value)
    ensures FieldOf(Frame(fields), key) == Some(value)
  {
    FrameReadsBack(fields, key);
  }

  lemma StringReadsBack(fields: Fields, key: Key, s: string)
    requires GoodFields(fields) && Lookup(fields, key) == Some(Quote(s))
    ensures StringField(Frame(fields), key) == Some(s) <==> SurvivesEscaping(s)
  {
    FrameReadsBack(fields, key);
    UnquoteUndoesEscape(s);
    assert Quote(s) == "\"" + Escaped(s) + "\"";
  }

  lemma UintReadsBack(fields: Fields, key: Key, n: nat)
    requires GoodFields(fields) && Lookup(fields, key) == Some(Decimal(n))
    ensures UintFieldOf(Frame(fields), key) == Some(n) <==> n < WORD
  {
    FrameReadsBack(fields, key);
    DecimalReadsBack(n);
  }

  // A gui_request: the id, the action and the payload can each be read back.

  lemma RequestFieldsAreGood(r: GuiRequest)
    requires PayloadText(r.payload)
    ensures GoodFields(RequestFields(r))
  {
    QuoteIsWellFormed("gui_request");
    DecimalIsWellFormed(r.requestId);
    QuoteIsWellFormed(r.action);
    PayloadIsWellFormed(r.payload);
    assert GoodFields(RequestFields(r).rest.rest);
  }

  lemma RequestLookups(r: GuiRequest)
    ensures var fields := RequestFields(r);
            && Lookup(fields, RequestId) == Some(Decimal(r.requestId))
            && Lookup(fields, Action) == Some(Quote(r.action))
            && Lookup(fields, Payload) == Some(JsonValue(r.payload))
  {
    var inner := RequestFields(r).rest.rest;
    assert Lookup(inner, Action) == Some(Quote(r.action));
    assert Lookup(inner, Payload) == Some(JsonValue(r.payload));
  }

  lemma RequestIdReadsBack(r: GuiRequest)
    requires PayloadText(r.payload)
    ensures UintFieldOf(BuildGuiRequest(r), RequestId) == Some(r.requestId) <==> r.requestId < WORD
  {
    RequestFieldsAreGood(r);
    RequestLookups(r);
    UintReadsBack(RequestFields(r), RequestId, r.requestId);
  }

  lemma RequestActionReadsBack(r: GuiRequest)
    requires PayloadText(r.payload)
    ensures StringField(BuildGuiRequest(r), Action) == Some(r.action) <==> SurvivesEscaping(r.action)
  {
    RequestFieldsAreGood(r);
    RequestLookups(r);
    StringReadsBack(RequestFields(r), Action, r.action);
  }

  lemma RequestPayloadReadsBack(r: GuiRequest)
    requires PayloadText(r.payload)
    ensures FieldOf(BuildGuiRequest(r), Payload) == Some(JsonValue(r.payload))
  {
    RequestFieldsAreGood(r);
    RequestLookups(r);
    FieldReadsBack(RequestFields(r), Payload, JsonValue(r.payload));
  }

  // The response envelope, which the page parses.

  lemma ResponseFieldsAreGood(r: GuiResponse)
    requires PayloadText(r.payload)
    ensures GoodFields(ResponseFields(r))
  {
    QuoteIsWellFormed("response");
    DecimalIsWellFormed(r.requestId);
    WordIsWellFormed(BoolText(r.ok));
    PayloadIsWellFormed(r.payload);
    QuoteIsWellFormed(r.error);
    assert GoodFields(ResponseFields(r).rest.rest.rest);
    assert GoodFields(ResponseFields(r).rest.rest);
  }

  lemma LookupFurther(fields: Fields, key: Key)
    requires fields.And? && fields.field.key != key
    ensures Lookup(fields, key) == Lookup(fields.rest, key)
  {}

  lemma ResponseLookups(r: GuiResponse)
    ensures var fields := ResponseFields(r);
            && Lookup(fields, RequestId) == Some(Decimal(r.requestId))
            && Lookup(fields, Ok) == Some(BoolText(r.ok))
            && Lookup(fields, Payload) == Some(JsonValue(r.payload))
            && Lookup(fields, Error) == Some(Quote(r.error))
  {
    var fields := ResponseFields(r);
    LookupFurther(fields, RequestId);
    LookupFurther(fields, Ok);
    LookupFurther(fields, Payload);
    LookupFurther(fields, Error);
    LookupFurther(fields.rest, Ok);
    LookupFurther(fields.rest, Payload);
    LookupFurther(fields.rest, Error);
    LookupFurther(fields.rest.rest, Payload);
    LookupFurther(fields.rest.rest, Error);
    LookupFurther(fields.rest.rest.rest, Error);
  }

  lemma ResponseIdReadsBack(r: GuiResponse)
    requires PayloadText(r.payload)
    ensures UintFieldOf(BuildJsResponse(r), RequestId) == Some(r.requestId) <==> r.requestId < WORD
  {
    ResponseFieldsAreGood(r);
    ResponseLookups(r);
    UintReadsBack(ResponseFields(r), RequestId, r.requestId);
  }

  lemma ResponseOutcomeReadsBack(r: GuiResponse)
    requires PayloadText(r.payload)
    ensures FieldOf(BuildJsResponse(r), Ok) == Some(BoolText(r.ok))
    ensures FieldOf(BuildJsResponse(r), Payload) == Some(JsonValue(r.payload))
  {
    ResponseFieldsAreGood(r);
    ResponseLookups(r);
    FieldReadsBack(ResponseFields(r), Ok, BoolText(r.ok));
    FieldReadsBack(ResponseFields(r), Payload, JsonValue(r.payload));
  }

  lemma ResponseErrorReadsBack(r: GuiResponse)
    requires PayloadText(r.payload)
    ensures StringField(BuildJsResponse(r), Error) == Some(r.error) <==> SurvivesEscaping(r.error)
  {
    ResponseFieldsAreGood(r);
    ResponseLookups(r);
    StringReadsBack(ResponseFields(r), Error, r.error);
  }

  // The event envelope.

  lemma EventFieldsAreGood(e: GuiEvent)
    requires PayloadText(e.payload)
    ensures var fields := EventFields(e);
            && GoodFields(fields)
            && Lookup(fields, Event) == Some(Quote(e.event))
            && Lookup(fields, Payload) == Some(JsonValue(e.payload))
  {
    var fields := EventFields(e);
    QuoteIsWellFormed("event");
    QuoteIsWellFormed(e.event);
    PayloadIsWellFormed(e.payload);
    assert GoodFields(fields.rest);
    assert Lookup(fields.rest, Payload) == Some(JsonValue(e.payload));
  }

  lemma EventNameReadsBack(e: GuiEvent)
    requires PayloadText(e.payload)
    ensures StringField(BuildJsEvent(e), Event) == Some(e.event) <==> SurvivesEscaping(e.event)
  {
    EventFieldsAreGood(e);
    StringReadsBack(EventFields(e), Event, e.event);
  }

  lemma EventPayloadReadsBack(e: GuiEvent)
    requires PayloadText(e.payload)
    ensures FieldOf(BuildJsEvent(e), Payload) == Some(JsonValue(e.payload))
  {
    EventFieldsAreGood(e);
    FieldReadsBack(EventFields(e), Payload, JsonValue(e.payload));
  }
}
