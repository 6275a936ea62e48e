// src/gui/gui_bridge.cpp as values: what each critical section of the GUI
// proxy does to its state, with the history its promises are about.
module GuiProxy {
  import opened ByteText
  import GuiFrames

  type Response = GuiFrames.GuiResponse
  type Event = GuiFrames.GuiEvent

  datatype Pending = Pending(deadline: nat, internal: bool)

  /** One message the page is owed. */
  datatype Post = Answer(response: Response) | Push(event: Event) | Status(status: GuiFrames.GuiStatus)

  /** One frame the socket is owed. */
  datatype Outgoing = Request(request: GuiFrames.GuiRequest) | Subscribe(requestId: nat, topics: seq<string>)

  /** A console frame after parsing. */
  datatype Incoming = NotGui | Unreadable | Reply(response: Response) | Pushed(event: Event)

  datatype LocalAnswer = LocalAnswer(ok: bool, payload: string, error: string)

  datatype Config = Config(requestTimeoutMs: nat, maxPending: nat, maxJsQueue: nat, topics: seq<string>)

  datatype Bridge = Bridge(
    nextId: nat, pending: map<nat, Pending>, subscribeId: nat,
    connected: bool, subscribed: bool, attached: bool, visible: bool,
    socketFrames: seq<Outgoing>, jsQueue: seq<Post>, notifyQueue: seq<Event>,
    cache: seq<Event>, dropped: nat, history: History)

  /** proxied and local: the ids of accepted requests, by who answers them.
      posted: everything ever put to a page. silent: ids settled with no page
      there. abandoned: ids a detach dropped. delivered: what the attached page
      has taken. evicted: the queue has overflowed since the last replay.
      events: every event the console pushed. */
  datatype History = History(
    proxied: set<nat>, local: set<nat>, posted: seq<Post>, silent: seq<nat>, abandoned: set<nat>,
    delivered: seq<Post>, evicted: bool, events: seq<Event>)

  const NEW := Bridge(1, map[], 0, false, false, false, false, [], [], [], [], 0,
                      History({}, {}, [], [], {}, [], false, []))

  function Enqueue(b: Bridge, config: Config, post: Post): Bridge {
    if !b.attached then b
    else
      var full := |b.jsQueue| >= config.maxJsQueue && b.jsQueue != [];
      b.(jsQueue := (if full then b.jsQueue[1..] else b.jsQueue) + [post],
         dropped := if full then b.dropped + 1 else b.dropped,
         history := b.history.(posted := b.history.posted + [post], evicted := b.history.evicted || full))
  }

  function StatusOf(b: Bridge): Post {
    Status(GuiFrames.GuiStatus(b.connected, b.subscribed, |b.pending|, b.dropped))
  }

  function EnqueueStatus(b: Bridge, config: Config): Bridge {
    Enqueue(b, config, StatusOf(b))
  }

  function EnqueueEvents(b: Bridge, config: Config, events: seq<Event>): Bridge
    decreases |events|
  {
    if events == [] then b else EnqueueEvents(Enqueue(b, config, Push(events[0])), config, events[1..])
  }

  function Replay(b: Bridge, config: Config): Bridge {
    EnqueueEvents(EnqueueStatus(b.(history := b.history.(evicted := false)), config), config, b.cache)
  }

  function SubscribeNow(b: Bridge, config: Config, now: nat): Bridge {
    b.(nextId := b.nextId + 1, subscribeId := b.nextId,
       pending := (b.pending - {b.subscribeId})[b.nextId := Pending(now + config.requestTimeoutMs, true)],
       socketFrames := b.socketFrames + [Subscribe(b.nextId, config.topics)])
  }

  /** A request leaves `pending` with this response. */
  function Settle(b: Bridge, config: Config, response: Response): Bridge
    requires response.requestId in b.pending
  {
    var id := response.requestId;
    var rest := b.(pending := b.pending - {id});
    if b.pending[id].internal then
      var settled := rest.(subscribeId := if id == b.subscribeId then 0 else b.subscribeId, subscribed := response.ok);
      if b.subscribed != response.ok then EnqueueStatus(settled, config) else settled
    else if !b.attached then rest.(history := b.history.(silent := b.history.silent + [id]))
    else Enqueue(rest, config, Answer(response))
  }

  /** Several requests fail for one reason, in the order given. */
  function FailAll(b: Bridge, config: Config, ids: seq<nat>, reason: string): Bridge
    decreases |ids|
  {
    if ids == [] || ids[0] !in b.pending then b
    else FailAll(Settle(b, config, GuiFrames.GuiResponse(ids[0], false, "", reason)), config, ids[1..], reason)
  }

  /** The members of a set below a bound, oldest id first. */
  function Ascending(ids: set<nat>, bound: nat): (r: seq<nat>)
    ensures forall id :: id in r <==> id in ids && id < bound
    ensures forall i :: 0 <= i < |r| ==> r[i] < bound
    ensures forall i, j :: 0 <= i < j < |r| ==> r[i] < r[j]
  {
    if bound == 0 then [] else Ascending(ids, bound - 1) + (if bound - 1 in ids then [bound - 1] else [])
  }

  // ------------------------------------------------------------- the operations

  datatype Operation =
    | Submit(request: Option<GuiFrames.PanelRequest>, local: Option<LocalAnswer>, now: nat)
    | Attach(now: nat)
    | Detach
    | SetVisible(visible: bool)
    | Receive(frame: Incoming)
    | SetConnected(connected: bool, now: nat)
    | Tick(now: nat)
    | TakeSocketFrames
    | TakeJs(max: nat)
    | TakeNotifications(max: nat)

  function Apply(b: Bridge, config: Config, op: Operation): Bridge {
    match op
    case Submit(request, local, now) => Submitted(b, config, request, local, now)
    case Attach(now) => Attached(b, config, now)
    case Detach => Detached(b)
    case SetVisible(visible) => Shown(b, config, visible)
    case Receive(frame) => Received(b, config, frame)
    case SetConnected(connected, now) => Linked(b, config, connected, now)
    case Tick(now) => Ticked(b, config, now)
    case TakeSocketFrames => b.(socketFrames := [])
    case TakeJs(max) => Delivered(b, max)
    case TakeNotifications(max) => Notified(b, max)
  }

  function Submitted(b: Bridge, config: Config, request: Option<GuiFrames.PanelRequest>, local: Option<LocalAnswer>,
                     now: nat): Bridge {
    if request.None? then b
    else if local.Some? then AnswerLocally(b, config, local.value)
    else if !b.connected || |b.pending| >= config.maxPending then b
    else Accept(b, config, request.value, now)
  }

  /** A page has loaded: whatever was queued is about a screen that no longer exists. */
  function Loaded(b: Bridge): Bridge {
    b.(attached := true, visible := true, jsQueue := [], history := b.history.(delivered := []))
  }

  function Attached(b: Bridge, config: Config, now: nat): Bridge {
    Replay(if b.connected then SubscribeNow(Loaded(b), config, now) else Loaded(b), config)
  }

  function Detached(b: Bridge): Bridge {
    b.(attached := false, visible := false, jsQueue := [], pending := map[], subscribeId := 0, subscribed := false,
       history := b.history.(abandoned := b.history.abandoned + PanelIds(b)))
  }

  function Shown(b: Bridge, config: Config, visible: bool): Bridge {
    if b.visible == visible then b
    else if visible && b.attached then Replay(b.(visible := visible), config)
    else b.(visible := visible)
  }

  function Linked(b: Bridge, config: Config, connected: bool, now: nat): Bridge {
    if b.connected == connected then b
    else EnqueueStatus(if connected then LinkedUp(b, config, now) else LinkedDown(b, config), config)
  }

  function Ticked(b: Bridge, config: Config, now: nat): Bridge {
    FailAll(b, config, Expired(b, now), "request timed out")
  }

  function Delivered(b: Bridge, max: nat): Bridge {
    var n := if max < |b.jsQueue| then max else |b.jsQueue|;
    b.(jsQueue := b.jsQueue[n..], history := b.history.(delivered := b.history.delivered + b.jsQueue[..n]))
  }

  function Notified(b: Bridge, max: nat): Bridge {
    b.(notifyQueue := b.notifyQueue[if max < |b.notifyQueue| then max else |b.notifyQueue|..])
  }

  function LinkedUp(b: Bridge, config: Config, now: nat): Bridge {
    var up := b.(connected := true);
    if b.attached then SubscribeNow(up, config, now) else up
  }

  function LinkedDown(b: Bridge, config: Config): Bridge {
    FailAll(b.(connected := false, subscribed := false), config, Ascending(b.pending.Keys, b.nextId),
            "console disconnected")
  }

  function AnswerLocally(b: Bridge, config: Config, answer: LocalAnswer): Bridge {
    var id := b.nextId;
    var counted := b.(nextId := id + 1,
                      history := b.history.(local := b.history.local + {id},
                                            silent := if b.attached then b.history.silent
                                                      else b.history.silent + [id]));
    Enqueue(counted, config, Answer(GuiFrames.GuiResponse(id, answer.ok, answer.payload, answer.error)))
  }

  function Accept(b: Bridge, config: Config, request: GuiFrames.PanelRequest, now: nat): Bridge {
    var id := b.nextId;
    b.(nextId := id + 1, pending := b.pending[id := Pending(now + config.requestTimeoutMs, false)],
       socketFrames := b.socketFrames + [Request(GuiFrames.GuiRequest(id, request.action, request.payload))],
       history := b.history.(proxied := b.history.proxied + {id}))
  }

  function PanelIds(b: Bridge): (r: set<nat>)
    ensures forall id :: id in r <==> id in b.pending && !b.pending[id].internal
  {
    set id | id in b.pending && !b.pending[id].internal
  }

  function Expired(b: Bridge, now: nat): seq<nat> {
    Ascending((set id | id in b.pending && now >= b.pending[id].deadline), b.nextId)
  }

  function Received(b: Bridge, config: Config, frame: Incoming): Bridge {
    match frame
    case NotGui => b
    case Unreadable => b
    case Reply(response) => if response.requestId in b.pending then Settle(b, config, response) else b
    case Pushed(event) => Heard(b, config, event)
  }

  function Heard(b: Bridge, config: Config, event: Event): Bridge {
    if b.attached && b.visible then Enqueue(WithEvent(b, config, event), config, Push(event))
    else
      var supersedes := IndexOf(b.cache, event.event) < |b.cache|;
      WithEvent(b, config, event).(dropped := b.dropped + (if supersedes then 1 else 0))
  }

  function WithEvent(b: Bridge, config: Config, event: Event): Bridge {
    b.(cache := Cached(b.cache, event), notifyQueue := Newest(b.notifyQueue + [event], config.maxJsQueue),
       history := b.history.(events := b.history.events + [event]))
  }

  function Newest<T>(queue: seq<T>, cap: nat): seq<T> {
    if |queue| > cap then queue[|queue| - cap..] else queue
  }

  function IndexOf(cache: seq<Event>, name: string): (i: nat)
    ensures i <= |cache|
    ensures i < |cache| ==> cache[i].event == name
    ensures forall j :: 0 <= j < i ==> cache[j].event != name
  {
    if cache == [] || cache[0].event == name then 0 else 1 + IndexOf(cache[1..], name)
  }

  function Cached(cache: seq<Event>, event: Event): seq<Event> {
    var i := IndexOf(cache, event.event);
    if i < |cache| then cache[i := event] else cache + [event]
  }
}
