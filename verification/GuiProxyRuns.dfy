// What every run of the GUI proxy keeps: each request is settled once, and a
// page that can see events sees exactly the cache.
module GuiProxyRuns {
  import opened ByteText
  import opened GuiProxy
  import GuiFrames

  // ---------------------------------------------------------------- settlement

  function Answers(posts: seq<Post>, id: nat): nat {
    if posts == [] then 0
    else (if posts[0].Answer? && posts[0].response.requestId == id then 1 else 0) + Answers(posts[1..], id)
  }

  function Occurs(ids: seq<nat>, id: nat): nat {
    if ids == [] then 0 else (if ids[0] == id then 1 else 0) + Occurs(ids[1..], id)
  }

  lemma {:induction false} AnswersJoin(a: seq<Post>, b: seq<Post>, id: nat)
    ensures Answers(a + b, id) == Answers(a, id) + Answers(b, id)
  {
    if a == [] {
      assert a + b == b;
    } else {
      assert (a + b)[1..] == a[1..] + b;
      AnswersJoin(a[1..], b, id);
    }
  }

  lemma {:induction false} OccursJoin(a: seq<nat>, b: seq<nat>, id: nat)
    ensures Occurs(a + b, id) == Occurs(a, id) + Occurs(b, id)
  {
    if a == [] {
      assert a + b == b;
    } else {
      assert (a + b)[1..] == a[1..] + b;
      OccursJoin(a[1..], b, id);
    }
  }

  /** The four places a request can be, counted. */
  function Places(b: Bridge, id: nat): nat {
    (if id in b.pending && !b.pending[id].internal then 1 else 0)
    + Answers(b.history.posted, id) + Occurs(b.history.silent, id)
    + (if id in b.history.abandoned then 1 else 0)
  }

  predicate Accepted(b: Bridge, id: nat) {
    id in b.history.proxied || id in b.history.local
  }

  /** An id that has been handed out is in exactly one place; any other is in none. */
  predicate Accounted(b: Bridge, id: nat) {
    && Places(b, id) == (if Accepted(b, id) then 1 else 0)
    && (Accepted(b, id) ==> 1 <= id < b.nextId)
    && (id in b.history.local ==> id !in b.pending)
    && (id in b.history.proxied && id in b.pending ==> !b.pending[id].internal)
    && !(id in b.history.proxied && id in b.history.local)
  }

  predicate SubscribeIsOnlyInternal(b: Bridge) {
    && b.subscribeId < b.nextId
    && (forall id :: id in b.pending ==> 1 <= id < b.nextId && (b.pending[id].internal <==> id == b.subscribeId))
    && (b.subscribeId != 0 ==> b.subscribeId in b.pending && b.attached)
  }

  predicate Core(b: Bridge, config: Config) {
    && SubscribeIsOnlyInternal(b)
    && |b.pending| <= config.maxPending + (if b.subscribeId != 0 then 1 else 0)
    && |b.jsQueue| <= config.maxJsQueue && |b.notifyQueue| <= config.maxJsQueue
  }

  predicate Live(b: Bridge) {
    && (b.pending != map[] ==> b.connected)
    && (b.subscribed ==> b.connected && b.attached)
  }

  predicate Sound(b: Bridge, config: Config) {
    config.maxJsQueue >= 1 && Core(b, config) && Live(b)
  }

  // --- what each helper does to one id

  lemma EnqueueCounts(b: Bridge, config: Config, post: Post, id: nat)
    ensures Places(Enqueue(b, config, post), id) ==
            Places(b, id) + (if b.attached && post.Answer? && post.response.requestId == id then 1 else 0)
  {
    AnswersJoin(b.history.posted, [post], id);
  }

  lemma {:induction false} EnqueueEventsCounts(b: Bridge, config: Config, events: seq<Event>, id: nat)
    ensures Places(EnqueueEvents(b, config, events), id) == Places(b, id)
    decreases |events|
  {
    if events != [] {
      EnqueueCounts(b, config, Push(events[0]), id);
      EnqueueEventsCounts(Enqueue(b, config, Push(events[0])), config, events[1..], id);
    }
  }

  lemma OneMore(xs: seq<nat>, x: nat, id: nat)
    ensures Occurs(xs + [x], id) == Occurs(xs, id) + (if x == id then 1 else 0)
  {
    OccursJoin(xs, [x], id);
    assert [x][1..] == [];
  }

  // --- what each helper keeps

  lemma EnqueueKeeps(b: Bridge, config: Config, post: Post)
    requires Core(b, config) && config.maxJsQueue >= 1
    ensures Core(Enqueue(b, config, post), config)
  {
  }

  /** Queueing messages touches the queue, the drop count and the history of posts only. */
  predicate SameButPosts(a: Bridge, b: Bridge) {
    && b.pending == a.pending && b.nextId == a.nextId && b.subscribeId == a.subscribeId
    && b.connected == a.connected && b.subscribed == a.subscribed && b.attached == a.attached && b.visible == a.visible
    && b.notifyQueue == a.notifyQueue && b.cache == a.cache
    && b.history.proxied == a.history.proxied && b.history.local == a.history.local
    && b.history.silent == a.history.silent && b.history.abandoned == a.history.abandoned
    && b.history.events == a.history.events && b.history.delivered == a.history.delivered
  }

  lemma {:induction false} EnqueueEventsKeeps(b: Bridge, config: Config, events: seq<Event>)
    requires Core(b, config) && config.maxJsQueue >= 1
    ensures Core(EnqueueEvents(b, config, events), config)
    ensures SameButPosts(b, EnqueueEvents(b, config, events))
    decreases |events|
  {
    if events != [] {
      EnqueueKeeps(b, config, Push(events[0]));
      EnqueueEventsKeeps(Enqueue(b, config, Push(events[0])), config, events[1..]);
    }
  }

  lemma ReplayKeeps(b: Bridge, config: Config, id: nat)
    requires Sound(b, config) && Accounted(b, id)
    ensures Sound(Replay(b, config), config) && Accounted(Replay(b, config), id)
    ensures SameButPosts(b, Replay(b, config))
  {
    var cleared := b.(history := b.history.(evicted := false));
    var told := EnqueueStatus(cleared, config);
    EnqueueKeeps(cleared, config, StatusOf(cleared));
    EnqueueCounts(cleared, config, StatusOf(cleared), id);
    EnqueueEventsKeeps(told, config, b.cache);
    EnqueueEventsCounts(told, config, b.cache, id);
  }

  lemma ReplacedSize(m: map<nat, Pending>, gone: nat, added: nat, p: Pending)
    requires added !in m
    ensures |(m - {gone})[added := p]| == |m| + 1 - (if gone in m then 1 else 0)
  {
    var rest := m - {gone};
    assert m.Keys == rest.Keys + (if gone in m then {gone} else {});
    assert rest[added := p].Keys == rest.Keys + {added};
  }

  lemma SubscribeIsSound(b: Bridge, config: Config, now: nat)
    requires Sound(b, config) && b.connected && b.attached
    ensures Sound(SubscribeNow(b, config, now), config)
  {
    ReplacedSize(b.pending, b.subscribeId, b.nextId, Pending(now + config.requestTimeoutMs, true));
  }

  lemma SubscribeKeeps(b: Bridge, config: Config, now: nat, id: nat)
    requires Sound(b, config) && Accounted(b, id) && b.connected && b.attached
    ensures Accounted(SubscribeNow(b, config, now), id)
  {
  }

  lemma SettleIsSound(b: Bridge, config: Config, response: Response)
    requires Core(b, config) && config.maxJsQueue >= 1 && response.requestId in b.pending
    ensures var next := Settle(b, config, response);
            && Core(next, config) && (Live(b) ==> Live(next))
            && next.pending == b.pending - {response.requestId}
            && next.nextId == b.nextId && next.connected == b.connected && next.attached == b.attached
            && (next.subscribed ==> b.subscribed || response.ok)
  {
    var rest := b.(pending := b.pending - {response.requestId});
    assert b.pending.Keys == rest.pending.Keys + {response.requestId};
  }

  lemma SettleCounts(b: Bridge, config: Config, response: Response, id: nat)
    requires Core(b, config) && config.maxJsQueue >= 1 && response.requestId in b.pending
    ensures Places(Settle(b, config, response), id) == Places(b, id)
  {
    var settled := response.requestId;
    var rest := b.(pending := b.pending - {settled});
    if b.pending[settled].internal {
      var done := rest.(subscribeId := 0, subscribed := response.ok);
      EnqueueCounts(done, config, StatusOf(done), id);
    } else if !b.attached {
      OneMore(b.history.silent, settled, id);
    } else {
      EnqueueCounts(rest, config, Answer(response), id);
    }
  }

  lemma SettleKeeps(b: Bridge, config: Config, response: Response, id: nat)
    requires Core(b, config) && Accounted(b, id) && config.maxJsQueue >= 1 && response.requestId in b.pending
    ensures Accounted(Settle(b, config, response), id)
  {
    SettleCounts(b, config, response, id);
    SettleIsSound(b, config, response);
    SettleHistory(b, config, response);
  }

  lemma SettleHistory(b: Bridge, config: Config, response: Response)
    requires response.requestId in b.pending
    ensures Settle(b, config, response).history.proxied == b.history.proxied
    ensures Settle(b, config, response).history.local == b.history.local
  {
  }

  function Failure(id: nat, reason: string): Response {
    GuiFrames.GuiResponse(id, false, "", reason)
  }

  lemma {:induction false} FailAllKeeps(b: Bridge, config: Config, ids: seq<nat>, reason: string, id: nat)
    requires Core(b, config) && Accounted(b, id) && config.maxJsQueue >= 1
    ensures Accounted(FailAll(b, config, ids, reason), id)
    decreases |ids|
  {
    if ids != [] && ids[0] in b.pending {
      SettleKeeps(b, config, Failure(ids[0], reason), id);
      SettleIsSound(b, config, Failure(ids[0], reason));
      FailAllKeeps(Settle(b, config, Failure(ids[0], reason)), config, ids[1..], reason, id);
    }
  }

  predicate OldestFirst(b: Bridge, ids: seq<nat>) {
    && (forall i :: 0 <= i < |ids| ==> ids[i] in b.pending)
    && (forall i, j :: 0 <= i < j < |ids| ==> ids[i] < ids[j])
  }

  lemma OldestFirstRest(b: Bridge, config: Config, ids: seq<nat>, reason: string)
    requires Core(b, config) && config.maxJsQueue >= 1 && OldestFirst(b, ids) && ids != []
    ensures OldestFirst(Settle(b, config, Failure(ids[0], reason)), ids[1..])
  {
    SettleIsSound(b, config, Failure(ids[0], reason));
  }

  lemma {:induction false} FailAllIsSound(b: Bridge, config: Config, ids: seq<nat>, reason: string)
    requires Core(b, config) && config.maxJsQueue >= 1 && OldestFirst(b, ids)
    ensures var next := FailAll(b, config, ids, reason);
            && Core(next, config) && (Live(b) ==> Live(next))
            && next.nextId == b.nextId && next.connected == b.connected && next.attached == b.attached
            && (next.subscribed ==> b.subscribed)
    decreases |ids|
  {
    if ids != [] {
      SettleIsSound(b, config, Failure(ids[0], reason));
      OldestFirstRest(b, config, ids, reason);
      FailAllIsSound(Settle(b, config, Failure(ids[0], reason)), config, ids[1..], reason);
    }
  }

  /** Failing pending ids, oldest first, leaves exactly the others pending. */
  lemma {:induction false} FailAllClearsOne(b: Bridge, config: Config, ids: seq<nat>, reason: string, id: nat)
    requires Core(b, config) && config.maxJsQueue >= 1 && OldestFirst(b, ids)
    ensures id in FailAll(b, config, ids, reason).pending <==> id in b.pending && id !in ids
    decreases |ids|
  {
    if ids != [] {
      SettleIsSound(b, config, Failure(ids[0], reason));
      OldestFirstRest(b, config, ids, reason);
      FailAllClearsOne(Settle(b, config, Failure(ids[0], reason)), config, ids[1..], reason, id);
      assert id in ids <==> id == ids[0] || id in ids[1..];
    }
  }

  lemma FailAllClears(b: Bridge, config: Config, ids: seq<nat>, reason: string)
    requires Core(b, config) && config.maxJsQueue >= 1 && OldestFirst(b, ids)
    ensures forall id :: id in FailAll(b, config, ids, reason).pending <==> id in b.pending && id !in ids
  {
    forall id
      ensures id in FailAll(b, config, ids, reason).pending <==> id in b.pending && id !in ids
    {
      FailAllClearsOne(b, config, ids, reason, id);
    }
  }

  // --- what each operation keeps

  lemma AnswerLocallyKeeps(b: Bridge, config: Config, answer: LocalAnswer, id: nat)
    requires Sound(b, config) && Accounted(b, id)
    ensures Sound(AnswerLocally(b, config, answer), config) && Accounted(AnswerLocally(b, config, answer), id)
  {
    var given := b.nextId;
    var counted := b.(nextId := given + 1,
                      history := b.history.(local := b.history.local + {given},
                                            silent := if b.attached then b.history.silent
                                                      else b.history.silent + [given]));
    var post := Answer(GuiFrames.GuiResponse(given, answer.ok, answer.payload, answer.error));
    OneMore(b.history.silent, given, id);
    EnqueueCounts(counted, config, post, id);
    EnqueueKeeps(counted, config, post);
  }

  lemma AcceptKeeps(b: Bridge, config: Config, request: GuiFrames.PanelRequest, now: nat, id: nat)
    requires Sound(b, config) && Accounted(b, id) && b.connected && |b.pending| < config.maxPending
    ensures Sound(Accept(b, config, request, now), config) && Accounted(Accept(b, config, request, now), id)
  {
    assert Accept(b, config, request, now).pending.Keys == b.pending.Keys + {b.nextId};
  }

  lemma AttachKeeps(b: Bridge, config: Config, now: nat, id: nat)
    requires Sound(b, config) && Accounted(b, id)
    ensures Sound(Attached(b, config, now), config) && Accounted(Attached(b, config, now), id)
  {
    var loaded := Loaded(b);
    if b.connected {
      SubscribeIsSound(loaded, config, now);
      SubscribeKeeps(loaded, config, now, id);
      ReplayKeeps(SubscribeNow(loaded, config, now), config, id);
    } else {
      ReplayKeeps(loaded, config, id);
    }
  }

  lemma DetachKeeps(b: Bridge, config: Config, id: nat)
    requires Sound(b, config) && Accounted(b, id)
    ensures Sound(Detached(b), config) && Accounted(Detached(b), id)
  {
  }

  lemma PushedKeeps(b: Bridge, config: Config, event: Event, id: nat)
    requires Sound(b, config) && Accounted(b, id)
    ensures Sound(Heard(b, config, event), config) && Accounted(Heard(b, config, event), id)
  {
    var cached := WithEvent(b, config, event);
    assert Core(cached, config) && Places(cached, id) == Places(b, id);
    EnqueueCounts(cached, config, Push(event), id);
    EnqueueKeeps(cached, config, Push(event));
  }

  lemma ReceiveKeeps(b: Bridge, config: Config, frame: Incoming, id: nat)
    requires Sound(b, config) && Accounted(b, id)
    ensures Sound(Received(b, config, frame), config) && Accounted(Received(b, config, frame), id)
  {
    match frame
    case Pushed(event) => PushedKeeps(b, config, event, id);
    case Reply(response) =>
      if response.requestId in b.pending {
        SettleIsSound(b, config, response);
        SettleKeeps(b, config, response, id);
      }
    case _ =>
  }

  lemma LinkedDownKeeps(b: Bridge, config: Config, id: nat)
    requires Sound(b, config) && Accounted(b, id)
    ensures Sound(LinkedDown(b, config), config) && Accounted(LinkedDown(b, config), id)
  {
    var down := b.(connected := false, subscribed := false);
    var ids := Ascending(b.pending.Keys, b.nextId);
    assert forall i :: 0 <= i < |ids| ==> ids[i] in ids;
    FailAllIsSound(down, config, ids, "console disconnected");
    FailAllClears(down, config, ids, "console disconnected");
    FailAllKeeps(down, config, ids, "console disconnected", id);
    assert LinkedDown(b, config).pending == map[];
  }

  lemma SetConnectedKeeps(b: Bridge, config: Config, connected: bool, now: nat, id: nat)
    requires Sound(b, config) && Accounted(b, id)
    ensures Sound(Linked(b, config, connected, now), config)
    ensures Accounted(Linked(b, config, connected, now), id)
  {
    if b.connected != connected {
      var settled := if connected then LinkedUp(b, config, now) else LinkedDown(b, config);
      if !connected {
        LinkedDownKeeps(b, config, id);
      } else if b.attached {
        SubscribeIsSound(b.(connected := true), config, now);
        SubscribeKeeps(b.(connected := true), config, now, id);
      }
      EnqueueKeeps(settled, config, StatusOf(settled));
      EnqueueCounts(settled, config, StatusOf(settled), id);
    }
  }

  lemma ExpiredAre(b: Bridge, now: nat)
    requires forall k :: k in b.pending ==> k < b.nextId
    ensures forall k :: k in Expired(b, now) <==> k in b.pending && now >= b.pending[k].deadline
    ensures OldestFirst(b, Expired(b, now))
  {
    var ids := Expired(b, now);
    assert forall i :: 0 <= i < |ids| ==> ids[i] in ids;
  }

  /** A tick settles exactly the requests whose deadline has come. */
  lemma TickSettlesExpired(b: Bridge, config: Config, now: nat)
    requires Sound(b, config)
    ensures forall k :: k in Ticked(b, config, now).pending <==> k in b.pending && now < b.pending[k].deadline
  {
    ExpiredAre(b, now);
    FailAllClears(b, config, Expired(b, now), "request timed out");
  }

  lemma TickKeeps(b: Bridge, config: Config, now: nat, id: nat)
    requires Sound(b, config) && Accounted(b, id)
    ensures Sound(Ticked(b, config, now), config) && Accounted(Ticked(b, config, now), id)
  {
    ExpiredAre(b, now);
    FailAllIsSound(b, config, Expired(b, now), "request timed out");
    FailAllKeeps(b, config, Expired(b, now), "request timed out", id);
  }

  lemma SubmittedKeeps(b: Bridge, config: Config, request: Option<GuiFrames.PanelRequest>, local: Option<LocalAnswer>,
                       now: nat, id: nat)
    requires Sound(b, config) && Accounted(b, id)
    ensures Sound(Submitted(b, config, request, local, now), config)
    ensures Accounted(Submitted(b, config, request, local, now), id)
  {
    if request.Some? && local.Some? {
      AnswerLocallyKeeps(b, config, local.value, id);
    } else if request.Some? && b.connected && |b.pending| < config.maxPending {
      AcceptKeeps(b, config, request.value, now, id);
    }
  }

  lemma ShownKeeps(b: Bridge, config: Config, visible: bool, id: nat)
    requires Sound(b, config) && Accounted(b, id)
    ensures Sound(Shown(b, config, visible), config) && Accounted(Shown(b, config, visible), id)
  {
    if b.visible != visible && visible && b.attached {
      ReplayKeeps(b.(visible := visible), config, id);
    }
  }

  lemma OperationKeeps(b: Bridge, config: Config, op: Operation, id: nat)
    requires Sound(b, config) && Accounted(b, id)
    ensures Sound(Apply(b, config, op), config) && Accounted(Apply(b, config, op), id)
  {
    match op
    case Submit(request, local, now) => SubmittedKeeps(b, config, request, local, now, id);
    case Attach(now) => AttachKeeps(b, config, now, id);
    case Detach => DetachKeeps(b, config, id);
    case SetVisible(visible) => ShownKeeps(b, config, visible, id);
    case Receive(frame) => ReceiveKeeps(b, config, frame, id);
    case SetConnected(connected, now) => SetConnectedKeeps(b, config, connected, now, id);
    case Tick(now) => TickKeeps(b, config, now, id);
    case _ =>
  }

  function After(b: Bridge, config: Config, run: seq<Operation>): Bridge
    decreases |run|
  {
    if run == [] then b else After(Apply(b, config, run[0]), config, run[1..])
  }

  lemma {:induction false} RunKeeps(b: Bridge, config: Config, run: seq<Operation>, id: nat)
    requires Sound(b, config) && Accounted(b, id)
    ensures Sound(After(b, config, run), config) && Accounted(After(b, config, run), id)
    decreases |run|
  {
    if run != [] {
      OperationKeeps(b, config, run[0], id);
      RunKeeps(Apply(b, config, run[0]), config, run[1..], id);
    }
  }

  /** In every run: an accepted request is pending, answered once, settled with
      no page to hear it, or abandoned by a detach, and only one of these;
      nothing is pending on a dead link; the only entry no page asked for is
      the outstanding subscribe; and a page's requests never exceed the cap. */
  lemma EveryRequestIsSettledOnce(config: Config, run: seq<Operation>, id: nat)
    requires config.maxJsQueue >= 1
    ensures var b := After(NEW, config, run);
            && Places(b, id) == (if Accepted(b, id) then 1 else 0)
            && (b.pending != map[] ==> b.connected)
            && (forall k :: k in b.pending ==> (b.pending[k].internal <==> k == b.subscribeId))
            && (b.subscribed ==> b.connected && b.attached)
            && |PanelIds(b)| <= config.maxPending
            && |b.jsQueue| <= config.maxJsQueue && |b.notifyQueue| <= config.maxJsQueue
  {
    RunKeeps(NEW, config, run, id);
    var b := After(NEW, config, run);
    assert b.pending.Keys == PanelIds(b) + (if b.subscribeId != 0 then {b.subscribeId} else {});
  }

  // --- a settled request stays settled

  lemma {:induction false} PostsOnlyGrow(b: Bridge, config: Config, events: seq<Event>)
    ensures b.history.posted <= EnqueueEvents(b, config, events).history.posted
    decreases |events|
  {
    if events != [] {
      PostsOnlyGrow(Enqueue(b, config, Push(events[0])), config, events[1..]);
    }
  }

  function Pushes(events: seq<Event>): (posts: seq<Post>)
    ensures |posts| == |events| && forall i :: 0 <= i < |posts| ==> posts[i] == Push(events[i])
  {
    seq(|events|, i requires 0 <= i < |events| => Push(events[i]))
  }

  lemma {:induction false} EventsArePosted(b: Bridge, config: Config, events: seq<Event>)
    requires b.attached
    ensures var r := EnqueueEvents(b, config, events);
            r.cache == b.cache && r.history.posted == b.history.posted + Pushes(events)
    decreases |events|
  {
    if events != [] {
      EventsArePosted(Enqueue(b, config, Push(events[0])), config, events[1..]);
      assert Pushes(events) == [Push(events[0])] + Pushes(events[1..]);
    }
  }

  /** A replay posts every event of the cache, after the status. */
  lemma ReplayPosts(b: Bridge, config: Config)
    requires b.attached
    ensures Replay(b, config).cache == b.cache
    ensures exists status :: Replay(b, config).history.posted == b.history.posted + [status] + Pushes(b.cache)
  {
    var told := EnqueueStatus(b.(history := b.history.(evicted := false)), config);
    EventsArePosted(told, config, b.cache);
    assert told.history.posted == b.history.posted + [StatusOf(b)];
  }

  lemma {:induction false} FailAllOnlyAdds(b: Bridge, config: Config, ids: seq<nat>, reason: string)
    ensures b.history.posted <= FailAll(b, config, ids, reason).history.posted
    ensures FailAll(b, config, ids, reason).history.proxied == b.history.proxied
    decreases |ids|
  {
    if ids != [] && ids[0] in b.pending {
      FailAllOnlyAdds(Settle(b, config, Failure(ids[0], reason)), config, ids[1..], reason);
    }
  }

  /** Nothing posted is ever taken back, and no accepted request is forgotten. */
  predicate Extends(a: Bridge, b: Bridge) {
    a.history.posted <= b.history.posted && a.history.proxied <= b.history.proxied
  }

  lemma HistoryOnlyGrows(b: Bridge, config: Config, op: Operation)
    ensures Extends(b, Apply(b, config, op))
  {
    match op
    case Attach(now) => AttachOnlyAdds(b, config, now);
    case SetVisible(visible) => ReplayOnlyAdds(b.(visible := visible), config);
    case SetConnected(connected, now) => LinkedOnlyAdds(b, config, connected, now);
    case Tick(now) => FailAllOnlyAdds(b, config, Expired(b, now), "request timed out");
    case Receive(frame) => ReceivedOnlyAdds(b, config, frame);
    case Submit(request, local, now) => SubmittedOnlyAdds(b, config, request, local, now);
    case _ =>
  }

  lemma SubmittedOnlyAdds(b: Bridge, config: Config, request: Option<GuiFrames.PanelRequest>,
                          local: Option<LocalAnswer>, now: nat)
    ensures Extends(b, Submitted(b, config, request, local, now))
  {
  }

  lemma ReceivedOnlyAdds(b: Bridge, config: Config, frame: Incoming)
    ensures Extends(b, Received(b, config, frame))
  {
  }

  lemma LinkedOnlyAdds(b: Bridge, config: Config, connected: bool, now: nat)
    ensures Extends(b, Linked(b, config, connected, now))
  {
    FailAllOnlyAdds(b.(connected := false, subscribed := false), config,
                    Ascending(b.pending.Keys, b.nextId), "console disconnected");
  }

  lemma AttachOnlyAdds(b: Bridge, config: Config, now: nat)
    ensures Extends(b, Attached(b, config, now))
  {
    var loaded := Loaded(b);
    ReplayOnlyAdds(if b.connected then SubscribeNow(loaded, config, now) else loaded, config);
  }

  lemma ReplayOnlyAdds(b: Bridge, config: Config)
    ensures b.history.posted <= Replay(b, config).history.posted
    ensures Replay(b, config).history.proxied == b.history.proxied
  {
    var told := EnqueueStatus(b.(history := b.history.(evicted := false)), config);
    PostsOnlyGrow(told, config, b.cache);
    EnqueueEventsKeepHistory(told, config, b.cache);
  }

  lemma {:induction false} EnqueueEventsKeepHistory(b: Bridge, config: Config, events: seq<Event>)
    ensures EnqueueEvents(b, config, events).history.proxied == b.history.proxied
    decreases |events|
  {
    if events != [] {
      EnqueueEventsKeepHistory(Enqueue(b, config, Push(events[0])), config, events[1..]);
    }
  }

  // --- what became of an id never changes again

  /** An id that is handed out and not pending stays so, with as many answers, and
      is as before among the silently settled and the abandoned. */
  predicate SameFate(a: Bridge, b: Bridge, id: nat) {
    && id < b.nextId && id !in b.pending
    && Answers(b.history.posted, id) == Answers(a.history.posted, id)
    && Occurs(b.history.silent, id) == Occurs(a.history.silent, id)
    && (id in b.history.abandoned <==> id in a.history.abandoned)
  }

  predicate IsOver(b: Bridge, id: nat) {
    id < b.nextId && id !in b.pending
  }

  lemma EnqueueIsForOthers(b: Bridge, config: Config, post: Post, id: nat)
    requires IsOver(b, id) && (post.Answer? ==> post.response.requestId != id)
    ensures SameFate(b, Enqueue(b, config, post), id)
  {
    AnswersJoin(b.history.posted, [post], id);
  }

  lemma {:induction false} EventsAreForOthers(b: Bridge, config: Config, events: seq<Event>, id: nat)
    requires IsOver(b, id)
    ensures SameFate(b, EnqueueEvents(b, config, events), id)
    decreases |events|
  {
    if events != [] {
      EnqueueIsForOthers(b, config, Push(events[0]), id);
      EventsAreForOthers(Enqueue(b, config, Push(events[0])), config, events[1..], id);
    }
  }

  lemma ReplayIsForOthers(b: Bridge, config: Config, id: nat)
    requires IsOver(b, id)
    ensures SameFate(b, Replay(b, config), id)
  {
    var cleared := b.(history := b.history.(evicted := false));
    EnqueueIsForOthers(cleared, config, StatusOf(cleared), id);
    EventsAreForOthers(EnqueueStatus(cleared, config), config, b.cache, id);
  }

  lemma SettleIsForOthers(b: Bridge, config: Config, response: Response, id: nat)
    requires IsOver(b, id) && response.requestId in b.pending
    ensures SameFate(b, Settle(b, config, response), id)
  {
    var settled := response.requestId;
    var rest := b.(pending := b.pending - {settled});
    if b.pending[settled].internal {
      var done := rest.(
        subscribeId := if settled == b.subscribeId then 0 else b.subscribeId, subscribed := response.ok);
      EnqueueIsForOthers(done, config, StatusOf(done), id);
    } else if !b.attached {
      OneMore(b.history.silent, settled, id);
    } else {
      EnqueueIsForOthers(rest, config, Answer(response), id);
    }
  }

  lemma {:induction false} FailuresAreForOthers(b: Bridge, config: Config, ids: seq<nat>, reason: string, id: nat)
    requires IsOver(b, id)
    ensures SameFate(b, FailAll(b, config, ids, reason), id)
    decreases |ids|
  {
    if ids != [] && ids[0] in b.pending {
      SettleIsForOthers(b, config, Failure(ids[0], reason), id);
      FailuresAreForOthers(Settle(b, config, Failure(ids[0], reason)), config, ids[1..], reason, id);
    }
  }

  lemma SubmitIsForOthers(
    b: Bridge, config: Config, request: Option<GuiFrames.PanelRequest>, local: Option<LocalAnswer>, now: nat, id: nat)
    requires IsOver(b, id)
    ensures SameFate(b, Submitted(b, config, request, local, now), id)
  {
    if request.Some? && local.Some? {
      LocalIsForOthers(b, config, local.value, id);
    }
  }

  lemma LocalIsForOthers(b: Bridge, config: Config, answer: LocalAnswer, id: nat)
    requires IsOver(b, id)
    ensures SameFate(b, AnswerLocally(b, config, answer), id)
  {
    AnswersJoin(b.history.posted, [Answer(GuiFrames.GuiResponse(b.nextId, answer.ok, answer.payload, answer.error))],
                id);
    OneMore(b.history.silent, b.nextId, id);
  }

  lemma AttachIsForOthers(b: Bridge, config: Config, now: nat, id: nat)
    requires IsOver(b, id)
    ensures SameFate(b, Attached(b, config, now), id)
  {
    ReplayIsForOthers(if b.connected then SubscribeNow(Loaded(b), config, now) else Loaded(b), config, id);
  }

  lemma LinkIsForOthers(b: Bridge, config: Config, connected: bool, now: nat, id: nat)
    requires IsOver(b, id)
    ensures SameFate(b, Linked(b, config, connected, now), id)
  {
    if connected {
      EnqueueIsForOthers(LinkedUp(b, config, now), config, StatusOf(LinkedUp(b, config, now)), id);
    } else {
      FailuresAreForOthers(b.(connected := false, subscribed := false), config, Ascending(b.pending.Keys, b.nextId),
                           "console disconnected", id);
      EnqueueIsForOthers(LinkedDown(b, config), config, StatusOf(LinkedDown(b, config)), id);
    }
  }

  lemma ReceiptIsForOthers(b: Bridge, config: Config, frame: Incoming, id: nat)
    requires IsOver(b, id)
    ensures SameFate(b, Received(b, config, frame), id)
  {
    match frame
    case Reply(response) =>
      if response.requestId in b.pending {
        SettleIsForOthers(b, config, response, id);
      }
    case Pushed(event) => EnqueueIsForOthers(WithEvent(b, config, event), config, Push(event), id);
    case _ =>
  }

  lemma OperationIsForOthers(b: Bridge, config: Config, op: Operation, id: nat)
    requires IsOver(b, id)
    ensures SameFate(b, Apply(b, config, op), id)
  {
    match op
    case Submit(request, local, now) => SubmitIsForOthers(b, config, request, local, now, id);
    case Attach(now) => AttachIsForOthers(b, config, now, id);
    case SetVisible(visible) => ReplayIsForOthers(b.(visible := visible), config, id);
    case Receive(frame) => ReceiptIsForOthers(b, config, frame, id);
    case SetConnected(connected, now) => LinkIsForOthers(b, config, connected, now, id);
    case Tick(now) => FailuresAreForOthers(b, config, Expired(b, now), "request timed out", id);
    case _ =>
  }

  lemma {:induction false} FateIsSealed(b: Bridge, config: Config, run: seq<Operation>, id: nat)
    requires IsOver(b, id)
    ensures SameFate(b, After(b, config, run), id)
    decreases |run|
  {
    if run != [] {
      OperationIsForOthers(b, config, run[0], id);
      FateIsSealed(Apply(b, config, run[0]), config, run[1..], id);
    }
  }

  lemma {:induction false} RunsJoin(b: Bridge, config: Config, run: seq<Operation>, more: seq<Operation>)
    ensures After(b, config, run + more) == After(After(b, config, run), config, more)
    decreases |run|
  {
    if run == [] {
      assert run + more == more;
    } else {
      assert (run + more)[1..] == run[1..] + more;
      RunsJoin(Apply(b, config, run[0]), config, run[1..], more);
    }
  }

  /** Ids are never reused. One that was handed out and is no longer pending,
      whether answered, settled with no page, abandoned by a detach, answered
      locally or the subscription's, is never pending again, gets no further
      answer and moves to none of the others; and a response for it, or for an
      id not handed out yet, changes nothing. */
  lemma AnsweredForGood(config: Config, run: seq<Operation>, more: seq<Operation>, id: nat)
    requires config.maxJsQueue >= 1 && IsOver(After(NEW, config, run), id)
    ensures var later := After(NEW, config, run + more);
            && SameFate(After(NEW, config, run), later, id)
            && forall r: Response :: r.requestId == id || r.requestId >= later.nextId ==>
                                       Apply(later, config, Receive(Reply(r))) == later
  {
    RunsJoin(NEW, config, run, more);
    FateIsSealed(After(NEW, config, run), config, more, id);
    RunKeeps(NEW, config, run + more, id);
  }
}
