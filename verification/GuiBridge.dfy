// src/gui/gui_bridge.cpp: the proxy object. Each public method is one critical
// section and does what GuiProxy says of the operation.
module GuiBridge {
  import opened ByteText
  import opened GuiProxy
  import opened GuiProxyRuns
  import GuiFrames

  /** What a frame from the socket is, as the receiver thread reads it. */
  function Classify(frame: string): Incoming {
    if !GuiFrames.IsGuiFrame(frame) then NotGui
    else
      var response := GuiFrames.ParseGuiResponse(frame);
      if response.Some? then Reply(response.value)
      else
        var event := GuiFrames.ParseGuiEvent(frame);
        if event.Some? then Pushed(event.value) else Unreadable
  }

  datatype Refusal = Malformed | Disconnected | TooManyInFlight
  datatype Receipt = Receipt(requestId: nat, error: Option<Refusal>)

  class GuiBridge {
    const config: Config

    var nextRequestId: nat
    var pending: map<nat, Pending>
    var subscribeRequestId: nat
    var connected: bool
    var subscribed: bool
    var panelAttached: bool
    var panelVisible: bool
    var socketFrames: seq<Outgoing>
    var jsQueue: seq<Post>
    var notifyQueue: seq<Event>
    var cache: seq<Event>
    var droppedEvents: nat
    ghost var history: History

    ghost function View(): Bridge
      reads this
    {
      Bridge(nextRequestId, pending, subscribeRequestId, connected, subscribed, panelAttached, panelVisible,
             socketFrames, jsQueue, notifyQueue, cache, droppedEvents, history)
    }

    constructor (config: Config)
      ensures View() == NEW && this.config == config
    {
      this.config := config;
      nextRequestId, pending, subscribeRequestId := 1, map[], 0;
      connected, subscribed, panelAttached, panelVisible := false, false, false, false;
      socketFrames, jsQueue, notifyQueue, cache, droppedEvents := [], [], [], [], 0;
      history := NEW.history;
    }

    // ------------------------------------------------ what every section uses

    method EnqueueJs(post: Post)
      requires config.maxJsQueue >= 1
      modifies this
      ensures View() == Enqueue(old(View()), config, post)
    {
      if !panelAttached {
        return;
      }
      if |jsQueue| >= config.maxJsQueue {
        jsQueue := jsQueue[1..];
        droppedEvents := droppedEvents + 1;
        history := history.(evicted := true);
      }
      jsQueue := jsQueue + [post];
      history := history.(posted := history.posted + [post]);
    }

    method EnqueueStatus()
      requires config.maxJsQueue >= 1
      modifies this
      ensures View() == GuiProxy.EnqueueStatus(old(View()), config)
    {
      EnqueueJs(Status(GuiFrames.GuiStatus(connected, subscribed, |pending|, droppedEvents)));
    }

    method Replay()
      requires config.maxJsQueue >= 1
      modifies this
      ensures View() == GuiProxy.Replay(old(View()), config)
    {
      history := history.(evicted := false);
      EnqueueStatus();
      ghost var told := View();
      ghost var goal := EnqueueEvents(told, config, cache);
      var events := cache;
      var i := 0;
      assert events[0..] == events;
      while i < |events|
        invariant 0 <= i <= |events|
        invariant EnqueueEvents(View(), config, events[i..]) == goal
      {
        assert events[i..][1..] == events[i + 1..];
        EnqueueJs(Push(events[i]));
        i := i + 1;
      }
      assert events[i..] == [];
    }

    method Subscribe(now: nat)
      modifies this
      ensures View() == SubscribeNow(old(View()), config, now)
    {
      pending := pending - {subscribeRequestId};
      var id := nextRequestId;
      nextRequestId := nextRequestId + 1;
      subscribeRequestId := id;
      pending := pending[id := Pending(now + config.requestTimeoutMs, true)];
      socketFrames := socketFrames + [Outgoing.Subscribe(id, config.topics)];
    }

    /** Takes the entry out of `pending` and delivers its response. */
    method Settle(response: Response)
      requires config.maxJsQueue >= 1 && response.requestId in pending
      modifies this
      ensures View() == GuiProxy.Settle(old(View()), config, response)
    {
      var id := response.requestId;
      var internal := pending[id].internal;
      pending := pending - {id};
      if internal {
        if id == subscribeRequestId {
          subscribeRequestId := 0;
        }
        var was := subscribed;
        subscribed := response.ok;
        if was != subscribed {
          EnqueueStatus();
        }
        return;
      }
      if !panelAttached {
        history := history.(silent := history.silent + [id]);
        return;
      }
      EnqueueJs(Answer(response));
    }

    /** Fails each of the ids, oldest first. */
    method FailEach(ids: seq<nat>, reason: string)
      requires config.maxJsQueue >= 1 && Core(View(), config) && OldestFirst(View(), ids)
      modifies this
      ensures View() == FailAll(old(View()), config, ids, reason)
    {
      ghost var goal := FailAll(View(), config, ids, reason);
      var i := 0;
      assert ids[0..] == ids;
      while i < |ids|
        invariant 0 <= i <= |ids|
        invariant Core(View(), config) && OldestFirst(View(), ids[i..])
        invariant FailAll(View(), config, ids[i..], reason) == goal
      {
        assert ids[i..][1..] == ids[i + 1..] && ids[i..][0] == ids[i];
        SettleIsSound(View(), config, Failure(ids[i], reason));
        OldestFirstRest(View(), config, ids[i..], reason);
        Settle(GuiFrames.GuiResponse(ids[i], false, "", reason));
        i := i + 1;
      }
      assert ids[i..] == [];
    }

    // -------------------------------------------- Skyscript handlers, main thread

    /** The receipt a page gets; `local` is what the local action handler answered, if it took the request. */
    method Submit(message: string, local: Option<LocalAnswer>, now: nat) returns (receipt: Receipt)
      requires config.maxJsQueue >= 1
      modifies this
      ensures View() == Submitted(old(View()), config, GuiFrames.ParsePanelRequest(message), local, now)
      ensures receipt.requestId == (if receipt.error == None then old(nextRequestId) else 0)
      ensures receipt.error == None <==> nextRequestId == old(nextRequestId) + 1
      ensures receipt.error == Some(Malformed) <==> GuiFrames.ParsePanelRequest(message).None?
      ensures receipt.error == Some(Disconnected) <==>
              GuiFrames.ParsePanelRequest(message).Some? && local.None? && !old(connected)
      ensures receipt.error == Some(TooManyInFlight) <==>
              GuiFrames.ParsePanelRequest(message).Some? && local.None? && old(connected)
                && |old(pending)| >= config.maxPending
    {
      var request := GuiFrames.ParsePanelRequest(message);
      receipt := SubmitParsed(request, local, now);
    }

    method SubmitParsed(request: Option<GuiFrames.PanelRequest>, local: Option<LocalAnswer>, now: nat)
      returns (receipt: Receipt)
      requires config.maxJsQueue >= 1
      modifies this
      ensures View() == Submitted(old(View()), config, request, local, now)
      ensures receipt.requestId == (if receipt.error == None then old(nextRequestId) else 0)
      ensures receipt.error == None <==> nextRequestId == old(nextRequestId) + 1
      ensures receipt.error == Some(Malformed) <==> request.None?
      ensures receipt.error == Some(Disconnected) <==> request.Some? && local.None? && !old(connected)
      ensures receipt.error == Some(TooManyInFlight) <==>
              request.Some? && local.None? && old(connected) && |old(pending)| >= config.maxPending
    {
      if request.None? {
        return Receipt(0, Some(Malformed));
      }
      if local.Some? {
        var id := nextRequestId;
        nextRequestId := nextRequestId + 1;
        history := history.(local := history.local + {id},
                            silent := if panelAttached then history.silent else history.silent + [id]);
        EnqueueJs(Answer(GuiFrames.GuiResponse(id, local.value.ok, local.value.payload, local.value.error)));
        return Receipt(id, None);
      }
      if !connected {
        return Receipt(0, Some(Disconnected));
      }
      if |pending| >= config.maxPending {
        return Receipt(0, Some(TooManyInFlight));
      }
      var id := nextRequestId;
      nextRequestId := nextRequestId + 1;
      pending := pending[id := Pending(now + config.requestTimeoutMs, false)];
      socketFrames := socketFrames + [Request(GuiFrames.GuiRequest(id, request.value.action, request.value.payload))];
      history := history.(proxied := history.proxied + {id});
      return Receipt(id, None);
    }

    /** Tells the page how many events it is sent again, and sends them: the latest of each name. */
    method AttachPanel(now: nat) returns (replayed: nat)
      requires config.maxJsQueue >= 1
      modifies this
      ensures View() == Attached(old(View()), config, now)
      ensures replayed == |old(cache)| <= |history.posted|
      ensures history.posted[|history.posted| - replayed..] == Pushes(old(cache))
    {
      LoadPage();
      if connected {
        Subscribe(now);
      }
      ReplayPosts(View(), config);
      Replay();
      replayed := |cache|;
    }

    method LoadPage()
      modifies this
      ensures View() == Loaded(old(View()))
    {
      panelAttached := true;
      panelVisible := true;
      jsQueue := [];
      history := history.(delivered := []);
    }

    method DetachPanel()
      modifies this
      ensures View() == Detached(old(View()))
    {
      history := history.(abandoned := history.abandoned + PanelIds(View()));
      panelAttached := false;
      panelVisible := false;
      jsQueue := [];
      pending := map[];
      subscribeRequestId := 0;
      subscribed := false;
    }

    method SetPanelVisible(visible: bool)
      requires config.maxJsQueue >= 1
      modifies this
      ensures View() == Shown(old(View()), config, visible)
    {
      if panelVisible == visible {
        return;
      }
      panelVisible := visible;
      if visible && panelAttached {
        Replay();
      }
    }

    // ------------------------------------------------- websocket receiver thread

    method OnSocketFrame(frame: string) returns (mine: bool)
      requires config.maxJsQueue >= 1
      modifies this
      ensures View() == Received(old(View()), config, Classify(frame))
      ensures mine <==> GuiFrames.IsGuiFrame(frame)
    {
      if !GuiFrames.IsGuiFrame(frame) {
        return false;
      }
      var response := GuiFrames.ParseGuiResponse(frame);
      if response.Some? {
        OnResponse(response.value);
        return true;
      }
      var event := GuiFrames.ParseGuiEvent(frame);
      if event.Some? {
        OnEvent(event.value);
      }
      return true;
    }

    method OnResponse(response: Response)
      requires config.maxJsQueue >= 1
      modifies this
      ensures View() == Received(old(View()), config, Reply(response))
    {
      if response.requestId in pending {
        Settle(response);
      }
    }

    method OnEvent(event: Event)
      requires config.maxJsQueue >= 1
      modifies this
      ensures View() == Heard(old(View()), config, event)
    {
      var supersededUnseen := IndexOf(cache, event.event) < |cache| && !(panelAttached && panelVisible);
      CacheEvent(event);
      if panelAttached && panelVisible {
        EnqueueJs(Push(event));
      } else if supersededUnseen {
        droppedEvents := droppedEvents + 1;
      }
    }

    /** Keeps the event as its name's latest, and queues it for the notifier. */
    method CacheEvent(event: Event)
      modifies this
      ensures View() == WithEvent(old(View()), config, event)
    {
      var held := IndexOf(cache, event.event);
      if held == |cache| {
        cache := cache + [event];
      } else {
        cache := cache[held := cache[held].(payload := event.payload)];
      }
      history := history.(events := history.events + [event]);
      ghost var all := notifyQueue + [event];
      notifyQueue := notifyQueue + [event];
      while |notifyQueue| > config.maxJsQueue
        invariant |notifyQueue| <= |all| && notifyQueue == all[|all| - |notifyQueue|..]
        invariant |notifyQueue| >= config.maxJsQueue || notifyQueue == all
        invariant View() == WithEvent(old(View()), config, event).(notifyQueue := notifyQueue)
      {
        notifyQueue := notifyQueue[1..];
      }
    }

    method SetConnected(up: bool, now: nat)
      requires Sound(View(), config)
      modifies this
      ensures View() == Linked(old(View()), config, up, now)
    {
      if connected == up {
        return;
      }
      if up {
        LinkUp(now);
      } else {
        LinkDown();
      }
      EnqueueStatus();
    }

    method LinkUp(now: nat)
      modifies this
      ensures View() == LinkedUp(old(View()), config, now)
    {
      connected := true;
      if panelAttached {
        Subscribe(now);
      }
    }

    method LinkDown()
      requires Sound(View(), config)
      modifies this
      ensures View() == LinkedDown(old(View()), config)
    {
      connected := false;
      subscribed := false;
      var ids := Ascending(pending.Keys, nextRequestId);
      assert forall i :: 0 <= i < |ids| ==> ids[i] in ids;
      FailEach(ids, "console disconnected");
    }

    // -------------------------------------------------- flight loop, main thread

    method OnTick(now: nat)
      requires Sound(View(), config)
      modifies this
      ensures View() == Ticked(old(View()), config, now)
    {
      var expired := Ascending((set id | id in pending && now >= pending[id].deadline), nextRequestId);
      ExpiredAre(View(), now);
      FailEach(expired, "request timed out");
    }

    method TakeSocketFrames() returns (frames: seq<Outgoing>)
      modifies this
      ensures frames == old(socketFrames)
      ensures View() == old(View()).(socketFrames := [])
    {
      frames := socketFrames;
      socketFrames := [];
    }

    method TakeJsMessages(max: nat) returns (messages: seq<Post>)
      modifies this
      ensures messages + jsQueue == old(jsQueue) && (|messages| == max || jsQueue == [])
      ensures View() == Delivered(old(View()), max)
    {
      var count := if max < |jsQueue| then max else |jsQueue|;
      messages := [];
      for i := 0 to count
        invariant messages == old(jsQueue)[..i] && jsQueue == old(jsQueue)[i..]
        invariant View() == old(View()).(jsQueue := jsQueue)
      {
        messages := messages + [jsQueue[0]];
        jsQueue := jsQueue[1..];
      }
      history := history.(delivered := history.delivered + messages);
    }

    method TakeNotificationEvents(max: nat) returns (events: seq<Event>)
      modifies this
      ensures events + notifyQueue == old(notifyQueue) && (|events| == max || notifyQueue == [])
      ensures View() == Notified(old(View()), max)
    {
      var count := if max < |notifyQueue| then max else |notifyQueue|;
      events := [];
      for i := 0 to count
        invariant events == old(notifyQueue)[..i] && notifyQueue == old(notifyQueue)[i..]
        invariant View() == old(View()).(notifyQueue := notifyQueue)
      {
        events := events + [notifyQueue[0]];
        notifyQueue := notifyQueue[1..];
      }
    }
  }
}
