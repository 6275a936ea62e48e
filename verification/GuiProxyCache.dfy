// The last-value cache of the GUI proxy, and what a page that can see events
// has been told.
module GuiProxyCache {
  import opened ByteText
  import opened GuiProxy
  import opened GuiProxyRuns
  import GuiFrames

  /** The last payload of each event name. */
  function LastValues(events: seq<Event>): map<string, string> {
    if events == [] then map[]
    else
      var last := events[|events| - 1];
      LastValues(events[..|events| - 1])[last.event := last.payload]
  }

  /** The names in the order they were first seen. */
  function FirstSeen(events: seq<Event>): (names: seq<string>)
    ensures forall i, j :: 0 <= i < j < |names| ==> names[i] != names[j]
  {
    if events == [] then []
    else
      var before := FirstSeen(events[..|events| - 1]);
      var name := events[|events| - 1].event;
      if name in before then before else before + [name]
  }

  function Names(cache: seq<Event>): (names: seq<string>)
    ensures |names| == |cache| && forall i :: 0 <= i < |cache| ==> names[i] == cache[i].event
  {
    seq(|cache|, i requires 0 <= i < |cache| => cache[i].event)
  }

  function EventsIn(posts: seq<Post>): seq<Event> {
    if posts == [] then []
    else
      var last := posts[|posts| - 1];
      EventsIn(posts[..|posts| - 1]) + (if last.Push? then [last.event] else [])
  }

  lemma {:induction false} LastValuesJoin(a: seq<Event>, b: seq<Event>)
    ensures LastValues(a + b) == LastValues(a) + LastValues(b)
  {
    if b == [] {
      assert a + b == a;
    } else {
      assert (a + b)[..|a + b| - 1] == a + b[..|b| - 1];
      LastValuesJoin(a, b[..|b| - 1]);
    }
  }

  lemma {:induction false} EventsInJoin(a: seq<Post>, b: seq<Post>)
    ensures EventsIn(a + b) == EventsIn(a) + EventsIn(b)
  {
    if b == [] {
      assert a + b == a;
    } else {
      assert (a + b)[..|a + b| - 1] == a + b[..|b| - 1];
      EventsInJoin(a, b[..|b| - 1]);
    }
  }

  /** What a page knows once it has applied these messages in order. */
  function Told(posts: seq<Post>): map<string, string> {
    LastValues(EventsIn(posts))
  }

  lemma ToldJoin(a: seq<Post>, b: seq<Post>)
    ensures Told(a + b) == Told(a) + Told(b)
  {
    EventsInJoin(a, b);
    LastValuesJoin(EventsIn(a), EventsIn(b));
  }

  lemma OneValue(e: Event)
    ensures LastValues([e]) == map[e.event := e.payload]
  {
    assert [e][..0] == [];
    assert LastValues([]) == map[];
  }

  lemma ToldOne(post: Post)
    ensures Told([post]) == if post.Push? then map[post.event.event := post.event.payload] else map[]
  {
    assert [post][..0] == [];
    if post.Push? {
      assert EventsIn([post]) == [post.event];
      OneValue(post.event);
    } else {
      assert EventsIn([post]) == [];
    }
  }

  /** What the attached page has been told, once it takes everything queued. */
  function Page(b: Bridge): map<string, string> {
    Told(b.history.delivered + b.jsQueue)
  }

  predicate CacheIsHistory(b: Bridge) {
    LastValues(b.cache) == LastValues(b.history.events) && Names(b.cache) == FirstSeen(b.history.events)
  }

  predicate PageWithinCache(b: Bridge) {
    b.attached ==> Page(b).Keys <= LastValues(b.cache).Keys
  }

  predicate PageIsCache(b: Bridge) {
    b.attached && b.visible && !b.history.evicted ==> Page(b) == LastValues(b.cache)
  }

  predicate Coherent(b: Bridge) {
    CacheIsHistory(b) && PageWithinCache(b) && PageIsCache(b)
  }

  // ------------------------------------------------------------------ queueing

  lemma EnqueuePage(b: Bridge, config: Config, post: Post)
    requires b.attached
    ensures var next := Enqueue(b, config, post);
            && Page(next).Keys <= Page(b).Keys + Told([post]).Keys
            && (!next.history.evicted ==> !b.history.evicted && Page(next) == Page(b) + Told([post]))
  {
    var d, q := b.history.delivered, b.jsQueue;
    var next := Enqueue(b, config, post);
    if |q| >= config.maxJsQueue && q != [] {
      assert q == [q[0]] + q[1..];
      ToldJoin(d, q);
      ToldJoin([q[0]], q[1..]);
      ToldJoin(d, q[1..] + [post]);
      ToldJoin(q[1..], [post]);
    } else {
      assert d + (q + [post]) == d + q + [post];
      ToldJoin(d + q, [post]);
    }
  }

  /** From a to b the page was told nothing new about events. */
  predicate Quiet(a: Bridge, b: Bridge) {
    && b.cache == a.cache && b.history.events == a.history.events
    && b.attached == a.attached && b.visible == a.visible && b.history.delivered == a.history.delivered
    && (a.attached ==> Page(b).Keys <= Page(a).Keys)
    && (a.attached && !b.history.evicted ==> !a.history.evicted && Page(b) == Page(a))
  }

  lemma EnqueueIsQuiet(b: Bridge, config: Config, post: Post)
    requires !post.Push?
    ensures Quiet(b, Enqueue(b, config, post))
  {
    ToldOne(post);
    if b.attached {
      EnqueuePage(b, config, post);
    }
  }

  lemma SettleIsQuiet(b: Bridge, config: Config, response: Response)
    requires response.requestId in b.pending
    ensures Quiet(b, Settle(b, config, response))
  {
    var id := response.requestId;
    var rest := b.(pending := b.pending - {id});
    if b.pending[id].internal {
      var settled := rest.(subscribeId := if id == b.subscribeId then 0 else b.subscribeId, subscribed := response.ok);
      EnqueueIsQuiet(settled, config, StatusOf(settled));
    } else {
      EnqueueIsQuiet(rest, config, Answer(response));
    }
  }

  lemma {:induction false} FailAllIsQuiet(b: Bridge, config: Config, ids: seq<nat>, reason: string)
    ensures Quiet(b, FailAll(b, config, ids, reason))
    decreases |ids|
  {
    if ids != [] && ids[0] in b.pending {
      SettleIsQuiet(b, config, Failure(ids[0], reason));
      FailAllIsQuiet(Settle(b, config, Failure(ids[0], reason)), config, ids[1..], reason);
    }
  }

  lemma FirstThenRest(m: map<string, string>, events: seq<Event>)
    requires events != []
    ensures LastValues(events).Keys == {events[0].event} + LastValues(events[1..]).Keys
    ensures m[events[0].event := events[0].payload] + LastValues(events[1..]) == m + LastValues(events)
  {
    assert events == [events[0]] + events[1..];
    LastValuesJoin([events[0]], events[1..]);
    OneValue(events[0]);
  }

  lemma EnqueueEventPage(b: Bridge, config: Config, e: Event)
    requires b.attached
    ensures var next := Enqueue(b, config, Push(e));
            && Page(next).Keys <= Page(b).Keys + {e.event}
            && (!next.history.evicted ==> !b.history.evicted && Page(next) == Page(b)[e.event := e.payload])
  {
    EnqueuePage(b, config, Push(e));
    ToldOne(Push(e));
    assert Page(b) + map[e.event := e.payload] == Page(b)[e.event := e.payload];
  }

  /** Queueing events tells the page at most their names, and with no overflow exactly their payloads. */
  predicate Informed(before: map<string, string>, wasEvicted: bool, next: Bridge, news: map<string, string>) {
    && Page(next).Keys <= before.Keys + news.Keys
    && (!next.history.evicted ==> !wasEvicted && Page(next) == before + news)
  }

  lemma {:induction false} EnqueueEventsPage(b: Bridge, config: Config, events: seq<Event>)
    requires b.attached
    ensures Informed(Page(b), b.history.evicted, EnqueueEvents(b, config, events), LastValues(events))
    decreases |events|
  {
    if events != [] {
      var first := Enqueue(b, config, Push(events[0]));
      EnqueueEventPage(b, config, events[0]);
      EnqueueEventsPage(first, config, events[1..]);
      InformedAgain(b, config, first, EnqueueEvents(first, config, events[1..]), events);
    }
  }

  lemma InformedAgain(b: Bridge, config: Config, first: Bridge, next: Bridge, events: seq<Event>)
    requires events != []
    requires Page(first).Keys <= Page(b).Keys + {events[0].event}
    requires !first.history.evicted ==>
               !b.history.evicted && Page(first) == Page(b)[events[0].event := events[0].payload]
    requires Informed(Page(first), first.history.evicted, next, LastValues(events[1..]))
    ensures Informed(Page(b), b.history.evicted, next, LastValues(events))
  {
    FirstThenRest(Page(b), events);
  }

  lemma {:induction false} EnqueueEventsRest(b: Bridge, config: Config, events: seq<Event>)
    requires b.attached
    ensures var next := EnqueueEvents(b, config, events);
            next.attached && next.visible == b.visible && next.cache == b.cache
              && next.history.events == b.history.events
    decreases |events|
  {
    if events != [] {
      EnqueueEventsRest(Enqueue(b, config, Push(events[0])), config, events[1..]);
    }
  }

  lemma ReplayIsCoherent(b: Bridge, config: Config)
    requires CacheIsHistory(b) && PageWithinCache(b) && b.attached
    ensures Coherent(Replay(b, config))
  {
    var cleared := b.(history := b.history.(evicted := false));
    var told := EnqueueStatus(cleared, config);
    EnqueueIsQuiet(cleared, config, StatusOf(cleared));
    EnqueueEventsPage(told, config, b.cache);
    EnqueueEventsRest(told, config, b.cache);
  }

  // --------------------------------------------------------------- a new event

  lemma {:induction false} UpdateOne(cache: seq<Event>, i: nat, e: Event)
    requires i < |cache| && cache[i].event == e.event
    requires forall j, k :: 0 <= j < k < |cache| ==> cache[j].event != cache[k].event
    ensures LastValues(cache[i := e]) == LastValues(cache)[e.event := e.payload]
    decreases |cache|
  {
    var n := |cache| - 1;
    if i == n {
      assert cache[i := e][..n] == cache[..n];
    } else {
      assert cache[i := e][..n] == cache[..n][i := e];
      UpdateOne(cache[..n], i, e);
    }
  }

  lemma CachedIsHistory(b: Bridge, e: Event)
    requires CacheIsHistory(b)
    ensures var events := b.history.events + [e];
            && LastValues(Cached(b.cache, e)) == LastValues(events)
            && Names(Cached(b.cache, e)) == FirstSeen(events)
    ensures LastValues(Cached(b.cache, e)) == LastValues(b.cache)[e.event := e.payload]
  {
    var events := b.history.events + [e];
    assert events[..|events| - 1] == b.history.events;
    var names := Names(b.cache);
    var i := IndexOf(b.cache, e.event);
    assert forall j :: 0 <= j < |names| ==> names[j] in names;
    if i < |b.cache| {
      assert names[i] == e.event;
      assert forall j, k :: 0 <= j < k < |b.cache| ==> names[j] != names[k];
      UpdateOne(b.cache, i, e);
      assert Names(Cached(b.cache, e)) == names;
    } else {
      assert (b.cache + [e])[..|b.cache|] == b.cache;
      assert Names(Cached(b.cache, e)) == names + [e.event];
    }
  }

  lemma PushKeepsCoherent(b: Bridge, next: Bridge, e: Event)
    requires Coherent(b) && CacheIsHistory(next)
    requires b.attached && b.visible
    requires LastValues(next.cache) == LastValues(b.cache)[e.event := e.payload]
    requires Page(next).Keys <= Page(b).Keys + {e.event}
    requires !next.history.evicted ==> !b.history.evicted && Page(next) == Page(b)[e.event := e.payload]
    ensures Coherent(next)
  {
  }

  lemma HiddenKeepsCoherent(b: Bridge, next: Bridge, e: Event)
    requires Coherent(b) && CacheIsHistory(next)
    requires next.attached == b.attached && next.visible == b.visible && !(b.attached && b.visible)
    requires LastValues(next.cache) == LastValues(b.cache)[e.event := e.payload]
    requires Page(next) == Page(b)
    ensures Coherent(next)
  {
  }

  lemma SeenIsCoherent(b: Bridge, config: Config, e: Event)
    requires Coherent(b) && b.attached && b.visible
    ensures Coherent(Enqueue(WithEvent(b, config, e), config, Push(e)))
  {
    CachedIsHistory(b, e);
    var cached := WithEvent(b, config, e);
    PageIgnoresCache(b, cached);
    EnqueueEventPage(cached, config, e);
    var next := Enqueue(cached, config, Push(e));
    assert CacheIsHistory(next);
    PushKeepsCoherent(b, next, e);
  }

  lemma UnseenIsCoherent(b: Bridge, config: Config, e: Event, dropped: nat)
    requires Coherent(b) && !(b.attached && b.visible)
    ensures Coherent(WithEvent(b, config, e).(dropped := dropped))
  {
    CachedIsHistory(b, e);
    var next := WithEvent(b, config, e).(dropped := dropped);
    PageIgnoresCache(b, next);
    assert CacheIsHistory(next);
    HiddenKeepsCoherent(b, next, e);
  }

  lemma PushedIsCoherent(b: Bridge, config: Config, e: Event)
    requires Coherent(b)
    ensures Coherent(Heard(b, config, e))
  {
    if b.attached && b.visible {
      SeenIsCoherent(b, config, e);
    } else {
      UnseenIsCoherent(b, config, e, Heard(b, config, e).dropped);
    }
  }

  lemma PageIgnoresCache(b: Bridge, cached: Bridge)
    requires cached.jsQueue == b.jsQueue && cached.history.delivered == b.history.delivered
    ensures Page(cached) == Page(b)
  {
  }

  // ---------------------------------------------------------------- whole runs

  lemma SubmittedIsCoherent(b: Bridge, config: Config, request: Option<GuiFrames.PanelRequest>,
                            local: Option<LocalAnswer>, now: nat)
    requires Coherent(b)
    ensures Coherent(Submitted(b, config, request, local, now))
  {
    if request.Some? && local.Some? {
      var given := b.nextId;
      var counted := b.(nextId := given + 1,
                        history := b.history.(local := b.history.local + {given},
                                              silent := if b.attached then b.history.silent
                                                        else b.history.silent + [given]));
      EnqueueIsQuiet(counted, config,
                     Answer(GuiFrames.GuiResponse(given, local.value.ok, local.value.payload, local.value.error)));
    }
  }

  lemma AttachedIsCoherent(b: Bridge, config: Config, now: nat)
    requires Coherent(b)
    ensures Coherent(Attached(b, config, now))
  {
    var loaded := Loaded(b);
    assert loaded.history.delivered + loaded.jsQueue == [];
    ReplayIsCoherent(if b.connected then SubscribeNow(loaded, config, now) else loaded, config);
  }

  lemma LinkedIsCoherent(b: Bridge, config: Config, connected: bool, now: nat)
    requires Coherent(b)
    ensures Coherent(Linked(b, config, connected, now))
  {
    if b.connected != connected {
      var settled := if connected then LinkedUp(b, config, now) else LinkedDown(b, config);
      FailAllIsQuiet(b.(connected := false, subscribed := false), config,
                     Ascending(b.pending.Keys, b.nextId), "console disconnected");
      EnqueueIsQuiet(settled, config, StatusOf(settled));
    }
  }

  lemma DeliveredIsCoherent(b: Bridge, max: nat)
    requires Coherent(b)
    ensures Coherent(Delivered(b, max))
  {
    var n := if max < |b.jsQueue| then max else |b.jsQueue|;
    assert b.history.delivered + b.jsQueue[..n] + b.jsQueue[n..] == b.history.delivered + b.jsQueue;
  }

  lemma ReceivedIsCoherent(b: Bridge, config: Config, frame: Incoming)
    requires Coherent(b)
    ensures Coherent(Received(b, config, frame))
  {
    if frame.Pushed? {
      PushedIsCoherent(b, config, frame.event);
    } else if frame.Reply? && frame.response.requestId in b.pending {
      SettleIsQuiet(b, config, frame.response);
    }
  }

  lemma OperationIsCoherent(b: Bridge, config: Config, op: Operation)
    requires Coherent(b)
    ensures Coherent(Apply(b, config, op))
  {
    match op
    case Submit(request, local, now) => SubmittedIsCoherent(b, config, request, local, now);
    case Attach(now) => AttachedIsCoherent(b, config, now);
    case SetVisible(visible) =>
      if b.visible != visible && visible && b.attached {
        ReplayIsCoherent(b.(visible := visible), config);
      }
    case Receive(frame) => ReceivedIsCoherent(b, config, frame);
    case SetConnected(connected, now) => LinkedIsCoherent(b, config, connected, now);
    case Tick(now) => FailAllIsQuiet(b, config, Expired(b, now), "request timed out");
    case TakeJs(max) => DeliveredIsCoherent(b, max);
    case _ =>
  }

  lemma {:induction false} RunIsCoherent(b: Bridge, config: Config, run: seq<Operation>)
    requires Coherent(b)
    ensures Coherent(After(b, config, run))
    decreases |run|
  {
    if run != [] {
      OperationIsCoherent(b, config, run[0]);
      RunIsCoherent(Apply(b, config, run[0]), config, run[1..]);
    }
  }

  /** In every run the cache holds the last payload of every event the console
      ever pushed, each name once, in the order first seen; and a visible page,
      with no overflow since the last replay, knows exactly that once it takes
      what is queued. */
  lemma PageSeesTheCache(config: Config, run: seq<Operation>)
    ensures var b := After(NEW, config, run);
            && LastValues(b.cache) == LastValues(b.history.events)
            && Names(b.cache) == FirstSeen(b.history.events)
            && (b.attached && b.visible && !b.history.evicted ==>
                  Told(b.history.delivered + b.jsQueue) == LastValues(b.history.events))
  {
    RunIsCoherent(NEW, config, run);
  }
}
