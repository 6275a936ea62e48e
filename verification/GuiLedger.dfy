// What the proxy sends to the console and answers to the page, told from the
// operations of a run: nothing accepted is kept back, and nothing else is said.
module GuiLedger {
  import opened ByteText
  import opened GuiProxy
  import opened GuiProxyRuns
  import GuiFrames

  /** What the operations of a run call for: the frames for the console and when
      each was called for, those the socket has taken, and the answers a page is
      owed, by request. */
  datatype Ledger = Ledger(
    called: seq<Outgoing>, calledAt: map<nat, nat>, taken: seq<Outgoing>, owed: map<nat, Response>)

  const NOTHING := Ledger([], map[], [], map[])

  /** The frames an operation calls for: a request that is taken on for the console,
      and a subscription for a page that is there when the link is. */
  function Calls(b: Bridge, config: Config, op: Operation): seq<Outgoing> {
    match op
    case Submit(request, local, _) =>
      if request.Some? && local.None? && b.connected && |b.pending| < config.maxPending then
        [Request(GuiFrames.GuiRequest(b.nextId, request.value.action, request.value.payload))]
      else []
    case Attach(_) => if b.connected then [Subscribe(b.nextId, config.topics)] else []
    case SetConnected(up, _) => if up && !b.connected && b.attached then [Subscribe(b.nextId, config.topics)] else []
    case _ => []
  }

  function TimeOf(op: Operation): nat {
    match op
    case Submit(_, _, now) => now
    case Attach(now) => now
    case SetConnected(_, now) => now
    case Tick(now) => now
    case _ => 0
  }

  /** The page that asked is there and waits. */
  predicate Awaits(b: Bridge, id: nat) {
    b.attached && id in b.pending && !b.pending[id].internal
  }

  /** The answers an operation calls for: the local handler's, the console's own, or a failure. */
  function Owes(b: Bridge, op: Operation): map<nat, Response> {
    match op
    case Submit(request, local, _) =>
      if request.Some? && local.Some? && b.attached then
        map[b.nextId := GuiFrames.GuiResponse(b.nextId, local.value.ok, local.value.payload, local.value.error)]
      else map[]
    case Receive(frame) =>
      if frame.Reply? && Awaits(b, frame.response.requestId) then map[frame.response.requestId := frame.response]
      else map[]
    case SetConnected(up, _) =>
      if !up && b.connected then
        map id | id in b.pending && Awaits(b, id) :: GuiFrames.GuiResponse(id, false, "", "console disconnected")
      else map[]
    case Tick(now) =>
      map id | id in b.pending && Awaits(b, id) && b.pending[id].deadline <= now ::
        GuiFrames.GuiResponse(id, false, "", "request timed out")
    case _ => map[]
  }

  function Entered(b: Bridge, config: Config, op: Operation, l: Ledger): Ledger {
    Ledger(l.called + Calls(b, config, op),
           if Calls(b, config, op) != [] then l.calledAt[b.nextId := TimeOf(op)] else l.calledAt,
           if op.TakeSocketFrames? then l.taken + b.socketFrames else l.taken,
           l.owed + Owes(b, op))
  }

  function LedgerFrom(b: Bridge, config: Config, run: seq<Operation>, l: Ledger): Ledger
    decreases |run|
  {
    if run == [] then l else LedgerFrom(Apply(b, config, run[0]), config, run[1..], Entered(b, config, run[0], l))
  }

  function LedgerOf(config: Config, run: seq<Operation>): Ledger {
    LedgerFrom(NEW, config, run, NOTHING)
  }

  // ---------------------------------------------------------- to the console

  function IdOf(f: Outgoing): nat {
    match f
    case Request(request) => request.requestId
    case Subscribe(id, _) => id
  }

  predicate Asks(f: Outgoing, id: nat) {
    f.Request? && f.request.requestId == id
  }

  /** The frames taken and those that wait are what was called for, in order. */
  predicate FramesFit(b: Bridge, l: Ledger) {
    l.taken + b.socketFrames == l.called
  }

  predicate IdsAscend(b: Bridge, called: seq<Outgoing>) {
    && (forall i :: 0 <= i < |called| ==> IdOf(called[i]) < b.nextId)
    && (forall i, j :: 0 <= i < j < |called| ==> IdOf(called[i]) < IdOf(called[j]))
  }

  ghost predicate RequestsFit(b: Bridge, called: seq<Outgoing>) {
    && (forall i :: 0 <= i < |called| && called[i].Request? ==> called[i].request.requestId in b.history.proxied)
    && (forall id :: id in b.history.proxied ==> exists i :: 0 <= i < |called| && Asks(called[i], id))
  }

  ghost predicate Sends(b: Bridge, l: Ledger) {
    FramesFit(b, l) && IdsAscend(b, l.called) && RequestsFit(b, l.called)
  }

  // What an operation does to the frames and to the record of accepted requests.
  predicate Adds(b: Bridge, next: Bridge, calls: seq<Outgoing>) {
    && next.socketFrames == b.socketFrames + calls && |calls| <= 1 && next.nextId >= b.nextId
    && (calls == [] ==> next.history.proxied == b.history.proxied)
    && (calls != [] ==>
          && IdOf(calls[0]) == b.nextId < next.nextId
          && next.history.proxied == b.history.proxied + if calls[0].Request? then {b.nextId} else {})
  }

  predicate SameFrames(a: Bridge, b: Bridge) {
    b.socketFrames == a.socketFrames && b.nextId == a.nextId && b.history.proxied == a.history.proxied
  }

  lemma {:induction false} EventsSendNothing(b: Bridge, config: Config, events: seq<Event>)
    ensures SameFrames(b, EnqueueEvents(b, config, events))
    decreases |events|
  {
    if events != [] {
      EventsSendNothing(Enqueue(b, config, Push(events[0])), config, events[1..]);
    }
  }

  lemma {:induction false} FailuresSendNothing(b: Bridge, config: Config, ids: seq<nat>, reason: string)
    ensures SameFrames(b, FailAll(b, config, ids, reason))
    decreases |ids|
  {
    if ids != [] && ids[0] in b.pending {
      FailuresSendNothing(Settle(b, config, Failure(ids[0], reason)), config, ids[1..], reason);
    }
  }

  lemma ReplaySendsNothing(b: Bridge, config: Config)
    ensures SameFrames(b, Replay(b, config))
  {
    EventsSendNothing(EnqueueStatus(b.(history := b.history.(evicted := false)), config), config, b.cache);
  }

  lemma AttachAdds(b: Bridge, config: Config, now: nat)
    ensures Adds(b, Attached(b, config, now), Calls(b, config, Attach(now)))
  {
    ReplaySendsNothing(if b.connected then SubscribeNow(Loaded(b), config, now) else Loaded(b), config);
  }

  lemma LinkAdds(b: Bridge, config: Config, up: bool, now: nat)
    ensures Adds(b, Linked(b, config, up, now), Calls(b, config, SetConnected(up, now)))
  {
    if !up {
      DownSendsNothing(b, config);
    }
  }

  lemma DownSendsNothing(b: Bridge, config: Config)
    ensures SameFrames(b, LinkedDown(b, config))
  {
    FailuresSendNothing(b.(connected := false, subscribed := false), config, Ascending(b.pending.Keys, b.nextId),
                        "console disconnected");
  }

  lemma SubmitAdds(b: Bridge, config: Config, request: Option<GuiFrames.PanelRequest>, local: Option<LocalAnswer>,
                   now: nat)
    ensures Adds(b, Submitted(b, config, request, local, now), Calls(b, config, Submit(request, local, now)))
  {}

  lemma OperationAdds(b: Bridge, config: Config, op: Operation)
    requires !op.TakeSocketFrames?
    ensures Adds(b, Apply(b, config, op), Calls(b, config, op))
  {
    match op
    case Submit(request, local, now) => SubmitAdds(b, config, request, local, now);
    case Attach(now) => AttachAdds(b, config, now);
    case SetVisible(visible) => ShowAddsNothing(b, config, visible);
    case SetConnected(up, now) => LinkAdds(b, config, up, now);
    case Tick(now) => FailuresSendNothing(b, config, Expired(b, now), "request timed out");
    case Receive(frame) => ReceiptAddsNothing(b, config, frame);
    case _ =>
  }

  lemma ShowAddsNothing(b: Bridge, config: Config, visible: bool)
    ensures SameFrames(b, Shown(b, config, visible))
  {
    ReplaySendsNothing(b.(visible := visible), config);
  }

  lemma ReceiptAddsNothing(b: Bridge, config: Config, frame: Incoming)
    ensures SameFrames(b, Received(b, config, frame))
  {}

  lemma AddedStillSends(b: Bridge, next: Bridge, l: Ledger, calls: seq<Outgoing>)
    requires Sends(b, l) && Adds(b, next, calls)
    ensures l.taken + next.socketFrames == l.called + calls
    ensures IdsAscend(next, l.called + calls) && RequestsFit(next, l.called + calls)
  {
    var called := l.called + calls;
    forall id | id in next.history.proxied
      ensures exists i :: 0 <= i < |called| && Asks(called[i], id)
    {
      if id in b.history.proxied {
        var i :| 0 <= i < |l.called| && Asks(l.called[i], id);
        assert Asks(called[i], id);
      } else {
        assert Asks(called[|l.called|], id);
      }
    }
  }

  lemma OperationSends(b: Bridge, config: Config, op: Operation, l: Ledger)
    requires Sends(b, l)
    ensures Sends(Apply(b, config, op), Entered(b, config, op, l))
  {
    if op.TakeSocketFrames? {
      assert l.called + [] == l.called;
    } else {
      OperationAdds(b, config, op);
      AddedStillSends(b, Apply(b, config, op), l, Calls(b, config, op));
    }
  }

  lemma {:induction false} RunSends(b: Bridge, config: Config, run: seq<Operation>, l: Ledger)
    requires Sends(b, l)
    ensures Sends(After(b, config, run), LedgerFrom(b, config, run, l))
    decreases |run|
  {
    if run != [] {
      OperationSends(b, config, run[0], l);
      RunSends(Apply(b, config, run[0]), config, run[1..], Entered(b, config, run[0], l));
    }
  }

  /** In every run: the frames the socket took and those that wait are, in order,
      one for each request that was taken on, with its own action and payload, and
      one for each subscription, with the configured topics; their ids ascend, and
      the requests among them are exactly those accepted. */
  lemma EveryRequestIsSent(config: Config, run: seq<Operation>)
    ensures Sends(After(NEW, config, run), LedgerOf(config, run))
  {
    RunSends(NEW, config, run, NOTHING);
  }

  // -------------------------------------------------------------- the deadlines

  /** What is pending was called for, and is given up the configured time later. */
  predicate DeadlinesFit(b: Bridge, config: Config, l: Ledger) {
    forall id :: id in b.pending ==>
      id in l.calledAt && b.pending[id].deadline == l.calledAt[id] + config.requestTimeoutMs
  }

  /** What is pending was so before, or is the one call of an operation. */
  predicate Waits(b: Bridge, next: Bridge, config: Config, calls: seq<Outgoing>, now: nat) {
    forall id :: id in next.pending ==>
      if calls != [] && id == b.nextId then next.pending[id].deadline == now + config.requestTimeoutMs
      else id in b.pending && next.pending[id] == b.pending[id]
  }

  lemma {:induction false} EventsWait(b: Bridge, config: Config, events: seq<Event>)
    ensures EnqueueEvents(b, config, events).pending == b.pending
    decreases |events|
  {
    if events != [] {
      EventsWait(Enqueue(b, config, Push(events[0])), config, events[1..]);
    }
  }

  lemma {:induction false} FailuresWait(b: Bridge, config: Config, ids: seq<nat>, reason: string)
    ensures var next := FailAll(b, config, ids, reason);
            forall id :: id in next.pending ==> id in b.pending && next.pending[id] == b.pending[id]
    ensures FailAll(b, config, ids, reason).nextId == b.nextId
    decreases |ids|
  {
    if ids != [] && ids[0] in b.pending {
      FailuresWait(Settle(b, config, Failure(ids[0], reason)), config, ids[1..], reason);
    }
  }

  lemma ReplayWaits(b: Bridge, config: Config)
    ensures Replay(b, config).pending == b.pending
  {
    EventsWait(EnqueueStatus(b.(history := b.history.(evicted := false)), config), config, b.cache);
  }

  lemma AttachWaits(b: Bridge, config: Config, now: nat)
    ensures Waits(b, Attached(b, config, now), config, Calls(b, config, Attach(now)), now)
  {
    ReplayWaits(if b.connected then SubscribeNow(Loaded(b), config, now) else Loaded(b), config);
  }

  lemma LinkWaits(b: Bridge, config: Config, up: bool, now: nat)
    ensures Waits(b, Linked(b, config, up, now), config, Calls(b, config, SetConnected(up, now)), now)
  {
    if !up {
      FailuresWait(b.(connected := false, subscribed := false), config, Ascending(b.pending.Keys, b.nextId),
                   "console disconnected");
    }
  }

  lemma OperationWaits(b: Bridge, config: Config, op: Operation)
    ensures Waits(b, Apply(b, config, op), config, Calls(b, config, op), TimeOf(op))
  {
    match op
    case Attach(now) => AttachWaits(b, config, now);
    case SetVisible(visible) => ShowWaits(b, config, visible);
    case SetConnected(up, now) => LinkWaits(b, config, up, now);
    case Tick(now) => FailuresWait(b, config, Expired(b, now), "request timed out");
    case Receive(frame) => ReceiptWaits(b, config, frame);
    case Submit(request, local, now) => SubmitWaits(b, config, request, local, now);
    case _ =>
  }

  lemma ShowWaits(b: Bridge, config: Config, visible: bool)
    ensures Shown(b, config, visible).pending == b.pending
  {
    ReplayWaits(b.(visible := visible), config);
  }

  lemma ReceiptWaits(b: Bridge, config: Config, frame: Incoming)
    ensures Waits(b, Received(b, config, frame), config, [], 0)
  {}

  lemma SubmitWaits(b: Bridge, config: Config, request: Option<GuiFrames.PanelRequest>, local: Option<LocalAnswer>,
                    now: nat)
    ensures Waits(b, Submitted(b, config, request, local, now), config, Calls(b, config, Submit(request, local, now)),
                  now)
  {}

  lemma {:induction false} RunWaits(b: Bridge, config: Config, run: seq<Operation>, l: Ledger)
    requires DeadlinesFit(b, config, l)
    ensures DeadlinesFit(After(b, config, run), config, LedgerFrom(b, config, run, l))
    decreases |run|
  {
    if run != [] {
      OperationWaits(b, config, run[0]);
      StillFits(b, Apply(b, config, run[0]), config, run[0], l);
      RunWaits(Apply(b, config, run[0]), config, run[1..], Entered(b, config, run[0], l));
    }
  }

  lemma StillFits(b: Bridge, next: Bridge, config: Config, op: Operation, l: Ledger)
    requires DeadlinesFit(b, config, l) && Waits(b, next, config, Calls(b, config, op), TimeOf(op))
    ensures DeadlinesFit(next, config, Entered(b, config, op, l))
  {}

  /** In every run what is pending, a request or the subscription, has its deadline
      the configured time after it was called for. */
  lemma EveryWaitIsBounded(config: Config, run: seq<Operation>)
    ensures DeadlinesFit(After(NEW, config, run), config, LedgerOf(config, run))
  {
    RunWaits(NEW, config, run, NOTHING);
  }

  // --------------------------------------------------------------- to the page

  const NONE: map<nat, Response> := map[]

  /** What is answered is what is owed. */
  ghost predicate Answering(posts: seq<Post>, owed: map<nat, Response>) {
    && (forall i :: 0 <= i < |posts| && posts[i].Answer? ==>
          posts[i].response.requestId in owed && posts[i].response == owed[posts[i].response.requestId])
    && (forall id :: id in owed ==> Answer(owed[id]) in posts)
  }

  /** An operation posts these answers and no other, behind what was posted before. */
  ghost predicate AnswersJust(b: Bridge, next: Bridge, owes: map<nat, Response>) {
    b.history.posted <= next.history.posted
    && Answering(next.history.posted[|b.history.posted|..], owes)
  }

  lemma OneAnswered(b: Bridge, config: Config, response: Response)
    requires b.attached
    ensures AnswersJust(b, Enqueue(b, config, Answer(response)), map[response.requestId := response])
  {
    var next := Enqueue(b, config, Answer(response));
    assert next.history.posted[|b.history.posted|..] == [Answer(response)];
  }

  lemma NoneAnswered(b: Bridge, config: Config, post: Post)
    requires !post.Answer?
    ensures AnswersJust(b, Enqueue(b, config, post), NONE)
  {}

  lemma AnswersTwice(a: Bridge, b: Bridge, c: Bridge, first: map<nat, Response>, second: map<nat, Response>)
    requires AnswersJust(a, b, first) && AnswersJust(b, c, second) && first.Keys !! second.Keys
    ensures AnswersJust(a, c, first + second)
  {
    var p, q, r := a.history.posted, b.history.posted, c.history.posted;
    assert r[|p|..] == q[|p|..] + r[|q|..];
    forall id | id in first + second
      ensures Answer((first + second)[id]) in r[|p|..]
    {
      assert id in second || Answer(first[id]) in q[|p|..];
    }
  }

  lemma {:induction false} EventsAnswerNothing(b: Bridge, config: Config, events: seq<Event>)
    ensures AnswersJust(b, EnqueueEvents(b, config, events), NONE)
    decreases |events|
  {
    if events != [] {
      var next := Enqueue(b, config, Push(events[0]));
      NoneAnswered(b, config, Push(events[0]));
      EventsAnswerNothing(next, config, events[1..]);
      AnswersTwice(b, next, EnqueueEvents(b, config, events), NONE, NONE);
      assert NONE + NONE == NONE;
    }
  }

  lemma ReplayAnswersNothing(b: Bridge, config: Config)
    ensures AnswersJust(b, Replay(b, config), NONE)
  {
    var cleared := b.(history := b.history.(evicted := false));
    NoneAnswered(cleared, config, StatusOf(cleared));
    EventsAnswerNothing(EnqueueStatus(cleared, config), config, b.cache);
    AnswersTwice(cleared, EnqueueStatus(cleared, config), Replay(b, config), NONE, NONE);
    assert NONE + NONE == NONE;
  }

  function Own(b: Bridge, response: Response): map<nat, Response> {
    if Awaits(b, response.requestId) then map[response.requestId := response] else map[]
  }

  lemma SettleAnswers(b: Bridge, config: Config, response: Response)
    requires response.requestId in b.pending
    ensures AnswersJust(b, Settle(b, config, response), Own(b, response))
  {
    var rest := b.(pending := b.pending - {response.requestId});
    if Awaits(b, response.requestId) {
      OneAnswered(rest, config, response);
    }
  }

  /** The failures of these requests. */
  function Failures(b: Bridge, ids: seq<nat>, reason: string): map<nat, Response> {
    map id | id in ids && Awaits(b, id) :: GuiFrames.GuiResponse(id, false, "", reason)
  }

  lemma FailuresRest(b: Bridge, next: Bridge, ids: seq<nat>, reason: string)
    requires ids != [] && ids[0] in b.pending && ids[0] !in ids[1..]
    requires next.pending == b.pending - {ids[0]} && next.attached == b.attached
    ensures Own(b, Failure(ids[0], reason)) + Failures(next, ids[1..], reason) == Failures(b, ids, reason)
    ensures Own(b, Failure(ids[0], reason)).Keys !! Failures(next, ids[1..], reason).Keys
  {
    assert forall id :: id in ids <==> id == ids[0] || id in ids[1..];
  }

  lemma {:induction false} FailAllAnswers(b: Bridge, config: Config, ids: seq<nat>, reason: string)
    requires Core(b, config) && config.maxJsQueue >= 1 && OldestFirst(b, ids)
    ensures AnswersJust(b, FailAll(b, config, ids, reason), Failures(b, ids, reason))
    decreases |ids|
  {
    if ids != [] {
      var next := Settle(b, config, Failure(ids[0], reason));
      SettleAnswers(b, config, Failure(ids[0], reason));
      SettleIsSound(b, config, Failure(ids[0], reason));
      OldestFirstRest(b, config, ids, reason);
      FailAllAnswers(next, config, ids[1..], reason);
      FailuresRest(b, next, ids, reason);
      AnswersTwice(b, next, FailAll(b, config, ids, reason), Own(b, Failure(ids[0], reason)),
                   Failures(next, ids[1..], reason));
    } else {
      assert Failures(b, ids, reason) == map[];
    }
  }

  lemma TickAnswers(b: Bridge, config: Config, now: nat)
    requires Sound(b, config)
    ensures AnswersJust(b, Ticked(b, config, now), Owes(b, Tick(now)))
  {
    ExpiredAre(b, now);
    FailAllAnswers(b, config, Expired(b, now), "request timed out");
    assert Failures(b, Expired(b, now), "request timed out") == Owes(b, Tick(now));
  }

  lemma LinkAnswers(b: Bridge, config: Config, up: bool, now: nat)
    requires Sound(b, config)
    ensures AnswersJust(b, Linked(b, config, up, now), Owes(b, SetConnected(up, now)))
  {
    if !up && b.connected {
      DownAnswers(b, config, Owes(b, SetConnected(up, now)));
      StatusAnswersNothing(b, LinkedDown(b, config), config, Owes(b, SetConnected(up, now)));
    } else if up && !b.connected {
      NoneAnswered(LinkedUp(b, config, now), config, StatusOf(LinkedUp(b, config, now)));
    }
  }

  lemma DownAnswers(b: Bridge, config: Config, owes: map<nat, Response>)
    requires Sound(b, config) && b.connected && owes == Owes(b, SetConnected(false, 0))
    ensures AnswersJust(b, LinkedDown(b, config), owes)
  {
    var cut, ids := b.(connected := false, subscribed := false), Ascending(b.pending.Keys, b.nextId);
    assert forall i :: 0 <= i < |ids| ==> ids[i] in ids;
    assert forall id :: id in ids <==> id in b.pending;
    FailAllAnswers(cut, config, ids, "console disconnected");
    AllAreOwed(b, cut, ids, owes);
  }

  lemma AllAreOwed(b: Bridge, cut: Bridge, ids: seq<nat>, owes: map<nat, Response>)
    requires cut.pending == b.pending && cut.attached == b.attached && b.connected
    requires (forall id :: id in ids <==> id in b.pending) && owes == Owes(b, SetConnected(false, 0))
    ensures Failures(cut, ids, "console disconnected") == owes
  {}

  lemma NothingAdded(owes: map<nat, Response>)
    ensures owes + NONE == owes && owes.Keys !! NONE.Keys
  {}

  lemma StatusAnswersNothing(b: Bridge, next: Bridge, config: Config, owes: map<nat, Response>)
    requires AnswersJust(b, next, owes)
    ensures AnswersJust(b, EnqueueStatus(next, config), owes)
  {
    NoneAnswered(next, config, StatusOf(next));
    NothingAdded(owes);
    AnswersTwice(b, next, EnqueueStatus(next, config), owes, NONE);
  }

  lemma SubmitAnswers(b: Bridge, config: Config, request: Option<GuiFrames.PanelRequest>, local: Option<LocalAnswer>,
                      now: nat)
    ensures AnswersJust(b, Submitted(b, config, request, local, now), Owes(b, Submit(request, local, now)))
  {
    if request.Some? && local.Some? && b.attached {
      var response := GuiFrames.GuiResponse(b.nextId, local.value.ok, local.value.payload, local.value.error);
      assert AnswerLocally(b, config, local.value).history.posted == b.history.posted + [Answer(response)];
    }
  }

  lemma ReceiptAnswers(b: Bridge, config: Config, frame: Incoming)
    ensures AnswersJust(b, Received(b, config, frame), Owes(b, Receive(frame)))
  {
    match frame
    case Reply(response) =>
      if response.requestId in b.pending {
        SettleAnswers(b, config, response);
      }
    case Pushed(event) => NoneAnswered(WithEvent(b, config, event), config, Push(event));
    case _ =>
  }

  lemma AttachAnswers(b: Bridge, config: Config, now: nat)
    ensures AnswersJust(b, Attached(b, config, now), NONE)
  {
    ReplayAnswersNothing(if b.connected then SubscribeNow(Loaded(b), config, now) else Loaded(b), config);
  }

  lemma OperationAnswers(b: Bridge, config: Config, op: Operation)
    requires Sound(b, config)
    ensures AnswersJust(b, Apply(b, config, op), Owes(b, op))
  {
    match op
    case Submit(request, local, now) => SubmitAnswers(b, config, request, local, now);
    case Attach(now) => AttachAnswers(b, config, now);
    case SetVisible(visible) => ReplayAnswersNothing(b.(visible := visible), config);
    case Receive(frame) => ReceiptAnswers(b, config, frame);
    case SetConnected(up, now) => LinkAnswers(b, config, up, now);
    case Tick(now) => TickAnswers(b, config, now);
    case _ =>
  }

  lemma {:induction false} PostIsCounted(posts: seq<Post>, response: Response)
    requires Answer(response) in posts
    ensures GuiProxyRuns.Answers(posts, response.requestId) >= 1
  {
    if posts[0] != Answer(response) {
      assert Answer(response) in posts[1..];
      PostIsCounted(posts[1..], response);
    }
  }

  lemma AnsweredIsOver(b: Bridge, owed: map<nat, Response>, id: nat)
    requires Accounted(b, id) && Answering(b.history.posted, owed) && id in owed
    requires owed[id].requestId == id
    ensures IsOver(b, id)
  {
    PostIsCounted(b.history.posted, owed[id]);
  }

  lemma OwedNow(b: Bridge, op: Operation, id: nat)
    requires id in Owes(b, op)
    ensures !IsOver(b, id) && Owes(b, op)[id].requestId == id
  {}

  ghost predicate Keeping(b: Bridge, config: Config, l: Ledger) {
    && Sound(b, config) && (forall id :: Accounted(b, id))
    && Answering(b.history.posted, l.owed)
    && forall id :: id in l.owed ==> l.owed[id].requestId == id
  }

  lemma StaysAnswering(b: Bridge, next: Bridge, owed: map<nat, Response>, owes: map<nat, Response>)
    requires Answering(b.history.posted, owed) && AnswersJust(b, next, owes) && owed.Keys !! owes.Keys
    ensures Answering(next.history.posted, owed + owes)
  {
    var p, q := b.history.posted, next.history.posted;
    assert q == p + q[|p|..];
    forall id | id in owed + owes
      ensures Answer((owed + owes)[id]) in q
    {
      assert id in owes ==> Answer(owes[id]) in q[|p|..];
      assert id !in owes ==> Answer(owed[id]) in p;
    }
  }

  lemma OwedAreOver(b: Bridge, config: Config, op: Operation, l: Ledger)
    requires Keeping(b, config, l)
    ensures l.owed.Keys !! Owes(b, op).Keys
    ensures forall id :: id in Owes(b, op) ==> Owes(b, op)[id].requestId == id
  {
    forall id | id in Owes(b, op)
      ensures Owes(b, op)[id].requestId == id && id !in l.owed
    {
      OwedNow(b, op, id);
      if id in l.owed {
        AnsweredIsOver(b, l.owed, id);
      }
    }
  }

  lemma OperationKeepsAnswering(b: Bridge, config: Config, op: Operation, l: Ledger)
    requires Keeping(b, config, l)
    ensures Keeping(Apply(b, config, op), config, Entered(b, config, op, l))
  {
    OperationAnswers(b, config, op);
    OwedAreOver(b, config, op, l);
    StaysAnswering(b, Apply(b, config, op), l.owed, Owes(b, op));
    OperationKeepsAll(b, config, op);
  }

  lemma OperationKeepsAll(b: Bridge, config: Config, op: Operation)
    requires Sound(b, config) && forall id :: Accounted(b, id)
    ensures Sound(Apply(b, config, op), config) && forall id :: Accounted(Apply(b, config, op), id)
  {
    OperationKeeps(b, config, op, 0);
    forall id
      ensures Accounted(Apply(b, config, op), id)
    {
      OperationKeeps(b, config, op, id);
    }
  }

  lemma {:induction false} RunAnswers(b: Bridge, config: Config, run: seq<Operation>, l: Ledger)
    requires Keeping(b, config, l)
    ensures Keeping(After(b, config, run), config, LedgerFrom(b, config, run, l))
    decreases |run|
  {
    if run != [] {
      OperationKeepsAnswering(b, config, run[0], l);
      RunAnswers(Apply(b, config, run[0]), config, run[1..], Entered(b, config, run[0], l));
    }
  }

  lemma NothingIsKept(config: Config)
    requires config.maxJsQueue >= 1
    ensures Keeping(NEW, config, NOTHING)
  {}

  /** In every run the pages are answered just what they are owed, once for each
      request: the local handler's answer, the console's own response with its
      outcome, payload and error, or the failure that ended the wait. */
  lemma EveryAnswerIsOwed(config: Config, run: seq<Operation>, id: nat)
    requires config.maxJsQueue >= 1
    ensures var posted, owed := After(NEW, config, run).history.posted, LedgerOf(config, run).owed;
            && Answering(posted, owed)
            && GuiProxyRuns.Answers(posted, id) == if id in owed then 1 else 0
  {
    NothingIsKept(config);
    RunAnswers(NEW, config, run, NOTHING);
    var b, owed := After(NEW, config, run), LedgerOf(config, run).owed;
    assert Accounted(b, id);
    if id in owed {
      PostIsCounted(b.history.posted, owed[id]);
    } else {
      NotOwedIsNotPosted(b.history.posted, owed, id);
    }
  }

  lemma {:induction false} NotOwedIsNotPosted(posts: seq<Post>, owed: map<nat, Response>, id: nat)
    requires forall i :: 0 <= i < |posts| && posts[i].Answer? ==> posts[i].response.requestId in owed
    requires id !in owed
    ensures GuiProxyRuns.Answers(posts, id) == 0
  {
    if posts != [] {
      NotOwedIsNotPosted(posts[1..], owed, id);
    }
  }

  // ------------------------------------------------------------- the queues

  /** The one sequence ends with the other. */
  predicate EndsWith<T(==)>(all: seq<T>, q: seq<T>) {
    q == all || (all != [] && EndsWith(all[1..], q))
  }

  lemma {:induction false} EndsWithMore<T>(all: seq<T>, q: seq<T>, x: T)
    requires EndsWith(all, q)
    ensures EndsWith(all + [x], q + [x])
  {
    if q != all {
      EndsWithMore(all[1..], q, x);
      assert (all + [x])[1..] == all[1..] + [x];
    }
  }

  lemma {:induction false} EndsWithLess<T>(all: seq<T>, q: seq<T>, k: nat)
    requires EndsWith(all, q) && k <= |q|
    ensures EndsWith(all, q[k..])
  {
    if q != all {
      EndsWithLess(all[1..], q, k);
    } else if k == 0 {
      assert q[k..] == q;
    } else {
      EndsWithLess(all[1..], q[1..], k - 1);
      assert q[1..][k - 1..] == q[k..];
    }
  }

  lemma EndsWithNothing<T>(all: seq<T>)
    ensures EndsWith(all, [])
  {
    EndsWithLess(all, all, |all|);
    assert all[|all|..] == [];
  }

  /** The messages that wait for the page are the newest posted, and the events
      that wait for the notifier the newest heard. */
  predicate QueuesFit(b: Bridge) {
    EndsWith(b.history.posted, b.jsQueue) && EndsWith(b.history.events, b.notifyQueue)
  }

  function LastStatus(posts: seq<Post>): Option<GuiFrames.GuiStatus> {
    if posts == [] then None
    else if posts[|posts| - 1].Status? then Some(posts[|posts| - 1].status)
    else LastStatus(posts[..|posts| - 1])
  }

  /** The last status an attached page was told is how the link is. */
  predicate StatusFits(b: Bridge) {
    b.attached ==>
      var last := LastStatus(b.history.posted);
      last.Some? && last.value.connected == b.connected && last.value.subscribed == b.subscribed
  }

  predicate TellsTrue(b: Bridge) {
    QueuesFit(b) && StatusFits(b)
  }

  lemma PostedLast(posts: seq<Post>, post: Post)
    ensures LastStatus(posts + [post]) == if post.Status? then Some(post.status) else LastStatus(posts)
  {
    assert (posts + [post])[..|posts|] == posts;
  }

  lemma EnqueueKeepsQueues(b: Bridge, config: Config, post: Post)
    requires QueuesFit(b)
    ensures QueuesFit(Enqueue(b, config, post))
  {
    if b.attached {
      EndsWithMore(b.history.posted, b.jsQueue, post);
      EndsWithLess(b.history.posted + [post], b.jsQueue + [post], 1);
      assert b.jsQueue != [] ==> (b.jsQueue + [post])[1..] == b.jsQueue[1..] + [post];
    }
  }

  lemma EnqueueTells(b: Bridge, config: Config, post: Post)
    requires TellsTrue(b) && !post.Status?
    ensures TellsTrue(Enqueue(b, config, post))
  {
    EnqueueKeepsQueues(b, config, post);
    PostedLast(b.history.posted, post);
  }

  lemma StatusTells(b: Bridge, config: Config)
    requires QueuesFit(b)
    ensures TellsTrue(EnqueueStatus(b, config))
  {
    EnqueueKeepsQueues(b, config, StatusOf(b));
    PostedLast(b.history.posted, StatusOf(b));
  }

  lemma {:induction false} EventsTell(b: Bridge, config: Config, events: seq<Event>)
    requires TellsTrue(b)
    ensures TellsTrue(EnqueueEvents(b, config, events))
    decreases |events|
  {
    if events != [] {
      EnqueueTells(b, config, Push(events[0]));
      EventsTell(Enqueue(b, config, Push(events[0])), config, events[1..]);
    }
  }

  lemma ReplayTells(b: Bridge, config: Config)
    requires QueuesFit(b)
    ensures TellsTrue(Replay(b, config))
  {
    StatusTells(b.(history := b.history.(evicted := false)), config);
    EventsTell(EnqueueStatus(b.(history := b.history.(evicted := false)), config), config, b.cache);
  }

  lemma SettleTells(b: Bridge, config: Config, response: Response)
    requires TellsTrue(b) && response.requestId in b.pending
    ensures TellsTrue(Settle(b, config, response))
  {
    var id := response.requestId;
    var rest := b.(pending := b.pending - {id});
    if b.pending[id].internal {
      StatusTells(rest.(subscribeId := if id == b.subscribeId then 0 else b.subscribeId, subscribed := response.ok),
                  config);
    } else {
      EnqueueTells(rest, config, Answer(response));
    }
  }

  lemma {:induction false} FailuresTell(b: Bridge, config: Config, ids: seq<nat>, reason: string)
    requires TellsTrue(b)
    ensures TellsTrue(FailAll(b, config, ids, reason))
    decreases |ids|
  {
    if ids != [] && ids[0] in b.pending {
      SettleTells(b, config, Failure(ids[0], reason));
      FailuresTell(Settle(b, config, Failure(ids[0], reason)), config, ids[1..], reason);
    }
  }

  lemma {:induction false} FailuresKeepQueues(b: Bridge, config: Config, ids: seq<nat>, reason: string)
    requires QueuesFit(b)
    ensures QueuesFit(FailAll(b, config, ids, reason))
    decreases |ids|
  {
    if ids != [] && ids[0] in b.pending {
      SettleKeepsQueues(b, config, Failure(ids[0], reason));
      FailuresKeepQueues(Settle(b, config, Failure(ids[0], reason)), config, ids[1..], reason);
    }
  }

  lemma SettleKeepsQueues(b: Bridge, config: Config, response: Response)
    requires QueuesFit(b) && response.requestId in b.pending
    ensures QueuesFit(Settle(b, config, response))
  {
    var id := response.requestId;
    var rest := b.(pending := b.pending - {id});
    if b.pending[id].internal {
      var settled := rest.(subscribeId := if id == b.subscribeId then 0 else b.subscribeId, subscribed := response.ok);
      EnqueueKeepsQueues(settled, config, StatusOf(settled));
    } else {
      EnqueueKeepsQueues(rest, config, Answer(response));
    }
  }

  lemma LinkTells(b: Bridge, config: Config, up: bool, now: nat)
    requires TellsTrue(b)
    ensures TellsTrue(Linked(b, config, up, now))
  {
    if up {
      StatusTells(LinkedUp(b, config, now), config);
    } else {
      FailuresKeepQueues(b.(connected := false, subscribed := false), config, Ascending(b.pending.Keys, b.nextId),
                         "console disconnected");
      StatusTells(LinkedDown(b, config), config);
    }
  }

  lemma EventIsQueued(b: Bridge, config: Config, event: Event)
    requires EndsWith(b.history.events, b.notifyQueue)
    ensures var next := WithEvent(b, config, event); EndsWith(next.history.events, next.notifyQueue)
  {
    var all := b.notifyQueue + [event];
    EndsWithMore(b.history.events, b.notifyQueue, event);
    EndsWithLess(b.history.events + [event], all, if |all| > config.maxJsQueue then |all| - config.maxJsQueue else 0);
    assert all[0..] == all;
  }

  lemma HeardTells(b: Bridge, config: Config, event: Event)
    requires TellsTrue(b)
    ensures TellsTrue(Heard(b, config, event))
  {
    EventIsQueued(b, config, event);
    EventTells(b, WithEvent(b, config, event), config, event);
  }

  lemma EventTells(b: Bridge, next: Bridge, config: Config, event: Event)
    requires TellsTrue(b) && EndsWith(next.history.events, next.notifyQueue)
    requires next.jsQueue == b.jsQueue && next.history.posted == b.history.posted
    requires next.attached == b.attached && next.connected == b.connected && next.subscribed == b.subscribed
    ensures TellsTrue(next) && TellsTrue(Enqueue(next, config, Push(event)))
  {
    EnqueueTells(next, config, Push(event));
  }

  lemma SubmitTells(b: Bridge, config: Config, request: Option<GuiFrames.PanelRequest>, local: Option<LocalAnswer>,
                    now: nat)
    requires TellsTrue(b)
    ensures TellsTrue(Submitted(b, config, request, local, now))
  {
    if request.Some? && local.Some? {
      LocalTells(b, config, local.value);
    }
  }

  lemma LocalTells(b: Bridge, config: Config, answer: LocalAnswer)
    requires TellsTrue(b)
    ensures TellsTrue(AnswerLocally(b, config, answer))
  {
    var post := Answer(GuiFrames.GuiResponse(b.nextId, answer.ok, answer.payload, answer.error));
    EnqueueTells(b, config, post);
    SameQueues(Enqueue(b, config, post), AnswerLocally(b, config, answer));
  }

  lemma SameQueues(a: Bridge, b: Bridge)
    requires TellsTrue(a) && b.jsQueue == a.jsQueue && b.notifyQueue == a.notifyQueue
    requires b.history.posted == a.history.posted && b.history.events == a.history.events
    requires b.attached == a.attached && b.connected == a.connected && b.subscribed == a.subscribed
    ensures TellsTrue(b)
  {}

  lemma AttachTells(b: Bridge, config: Config, now: nat)
    requires TellsTrue(b)
    ensures TellsTrue(Attached(b, config, now))
  {
    EndsWithNothing(b.history.posted);
    ReplayTells(if b.connected then SubscribeNow(Loaded(b), config, now) else Loaded(b), config);
  }

  lemma ShowTells(b: Bridge, config: Config, visible: bool)
    requires TellsTrue(b)
    ensures TellsTrue(Shown(b, config, visible))
  {
    ReplayTells(b.(visible := visible), config);
  }

  lemma DetachTells(b: Bridge)
    requires TellsTrue(b)
    ensures TellsTrue(Detached(b))
  {
    EndsWithNothing(b.history.posted);
  }

  lemma DeliveryTells(b: Bridge, max: nat)
    requires TellsTrue(b)
    ensures TellsTrue(Delivered(b, max))
  {
    EndsWithLess(b.history.posted, b.jsQueue, if max < |b.jsQueue| then max else |b.jsQueue|);
  }

  lemma NoticeTells(b: Bridge, max: nat)
    requires TellsTrue(b)
    ensures TellsTrue(Notified(b, max))
  {
    EndsWithLess(b.history.events, b.notifyQueue, if max < |b.notifyQueue| then max else |b.notifyQueue|);
  }

  lemma TickTells(b: Bridge, config: Config, now: nat)
    requires TellsTrue(b)
    ensures TellsTrue(Ticked(b, config, now))
  {
    FailuresTell(b, config, Expired(b, now), "request timed out");
  }

  lemma FramesTakenTell(b: Bridge)
    requires TellsTrue(b)
    ensures TellsTrue(b.(socketFrames := []))
  {
    SameQueues(b, b.(socketFrames := []));
  }

  lemma PageTells(b: Bridge, config: Config, op: Operation)
    requires TellsTrue(b) && (op.Submit? || op.Attach? || op.Detach? || op.SetVisible?)
    ensures TellsTrue(Apply(b, config, op))
  {
    if op.Submit? {
      SubmitTells(b, config, op.request, op.local, op.now);
    } else if op.Attach? {
      AttachTells(b, config, op.now);
    } else if op.Detach? {
      DetachTells(b);
    } else {
      ShowTells(b, config, op.visible);
    }
  }

  lemma OperationTells(b: Bridge, config: Config, op: Operation)
    requires TellsTrue(b)
    ensures TellsTrue(Apply(b, config, op))
  {
    if op.Receive? {
      ReceiptTells(b, config, op.frame);
    } else if op.SetConnected? {
      LinkTells(b, config, op.connected, op.now);
    } else if op.Tick? {
      TickTells(b, config, op.now);
    } else if op.TakeSocketFrames? {
      FramesTakenTell(b);
    } else if op.TakeJs? {
      DeliveryTells(b, op.max);
    } else if op.TakeNotifications? {
      NoticeTells(b, op.max);
    } else {
      PageTells(b, config, op);
    }
  }

  lemma ReceiptTells(b: Bridge, config: Config, frame: Incoming)
    requires TellsTrue(b)
    ensures TellsTrue(Received(b, config, frame))
  {
    if frame.Reply? && frame.response.requestId in b.pending {
      SettleTells(b, config, frame.response);
    } else if frame.Pushed? {
      HeardTells(b, config, frame.event);
    }
  }

  lemma {:induction false} RunTells(b: Bridge, config: Config, run: seq<Operation>)
    requires TellsTrue(b)
    ensures TellsTrue(After(b, config, run))
    decreases |run|
  {
    if run != [] {
      OperationTells(b, config, run[0]);
      RunTells(Apply(b, config, run[0]), config, run[1..]);
    }
  }

  /** In every run the page gets what was posted in order, overflow taking the
      oldest; the notifier gets the events so; and an attached page was last told
      how the link is. */
  lemma ThePageIsTold(config: Config, run: seq<Operation>)
    ensures TellsTrue(After(NEW, config, run))
  {
    RunTells(NEW, config, run);
  }

  // ---------------------------------------------------------- what is counted lost

  /** The drop count grows with every message that overflow takes from the page's queue. */
  predicate CountsLost(b: Bridge, next: Bridge) {
    next.dropped + |next.jsQueue| + |b.history.posted| == b.dropped + |b.jsQueue| + |next.history.posted|
  }

  /** A push that no page sees replaces one of the same name that none will see now. */
  predicate Replaces(b: Bridge, event: Event) {
    && !(b.attached && b.visible)
    && exists i :: 0 <= i < |b.cache| && b.cache[i].event == event.event
  }

  lemma {:induction false} EventsCountLost(b: Bridge, config: Config, events: seq<Event>)
    ensures CountsLost(b, EnqueueEvents(b, config, events))
    decreases |events|
  {
    if events != [] {
      EventsCountLost(Enqueue(b, config, Push(events[0])), config, events[1..]);
    }
  }

  lemma {:induction false} FailuresCountLost(b: Bridge, config: Config, ids: seq<nat>, reason: string)
    ensures CountsLost(b, FailAll(b, config, ids, reason))
    decreases |ids|
  {
    if ids != [] && ids[0] in b.pending {
      FailuresCountLost(Settle(b, config, Failure(ids[0], reason)), config, ids[1..], reason);
    }
  }

  lemma ReplayCountsLost(b: Bridge, config: Config)
    ensures CountsLost(b, Replay(b, config))
  {
    EventsCountLost(EnqueueStatus(b.(history := b.history.(evicted := false)), config), config, b.cache);
  }

  lemma LinkCountsLost(b: Bridge, config: Config, up: bool, now: nat)
    ensures CountsLost(b, Linked(b, config, up, now))
  {
    if !up {
      DownCountsLost(b, config);
    }
  }

  lemma DownCountsLost(b: Bridge, config: Config)
    ensures CountsLost(b, LinkedDown(b, config))
  {
    FailuresCountLost(b.(connected := false, subscribed := false), config, Ascending(b.pending.Keys, b.nextId),
                      "console disconnected");
  }

  lemma SubmitCountsLost(b: Bridge, config: Config, request: Option<GuiFrames.PanelRequest>,
                         local: Option<LocalAnswer>, now: nat)
    ensures CountsLost(b, Submitted(b, config, request, local, now))
  {}

  lemma ShowCountsLost(b: Bridge, config: Config, visible: bool)
    ensures CountsLost(b, Shown(b, config, visible))
  {
    ReplayCountsLost(b.(visible := visible), config);
  }

  lemma TickCountsLost(b: Bridge, config: Config, now: nat)
    ensures CountsLost(b, Ticked(b, config, now))
  {
    FailuresCountLost(b, config, Expired(b, now), "request timed out");
  }

  lemma HeardCountsLost(b: Bridge, config: Config, event: Event)
    ensures CountsLost(b.(dropped := b.dropped + if Replaces(b, event) then 1 else 0), Heard(b, config, event))
  {}

  /** Every operation but a loading or leaving page and the page's own taking counts
      what is lost: one for each message that overflows, one for each push that
      replaces an unseen one, and nothing else. */
  lemma WhatIsLostIsCounted(b: Bridge, config: Config, op: Operation)
    requires !op.Attach? && !op.Detach? && !op.TakeJs?
    ensures if op.Receive? && op.frame.Pushed? && Replaces(b, op.frame.event)
            then CountsLost(b.(dropped := b.dropped + 1), Apply(b, config, op))
            else CountsLost(b, Apply(b, config, op))
  {
    if op.Receive? {
      ReceiptCountsLost(b, config, op.frame);
    } else if op.Submit? {
      SubmitCountsLost(b, config, op.request, op.local, op.now);
    } else if op.SetVisible? {
      ShowCountsLost(b, config, op.visible);
    } else if op.SetConnected? {
      LinkCountsLost(b, config, op.connected, op.now);
    } else if op.Tick? {
      TickCountsLost(b, config, op.now);
    }
  }

  lemma ReceiptCountsLost(b: Bridge, config: Config, frame: Incoming)
    ensures if frame.Pushed? && Replaces(b, frame.event)
            then CountsLost(b.(dropped := b.dropped + 1), Received(b, config, frame))
            else CountsLost(b, Received(b, config, frame))
  {
    if frame.Pushed? {
      HeardCountsLost(b, config, frame.event);
    } else if frame.Reply? && frame.response.requestId in b.pending {
      SettleCountsLost(b, config, frame.response);
    }
  }

  lemma SettleCountsLost(b: Bridge, config: Config, response: Response)
    requires response.requestId in b.pending
    ensures CountsLost(b, Settle(b, config, response))
  {}

  /** A page that loads counts the same from an empty queue; the others lose nothing. */
  lemma LoadingIsCounted(b: Bridge, config: Config, now: nat, max: nat)
    ensures CountsLost(b.(jsQueue := []), Attached(b, config, now))
    ensures Detached(b).dropped == b.dropped && Delivered(b, max).dropped == b.dropped
  {
    ReplayCountsLost(if b.connected then SubscribeNow(Loaded(b), config, now) else Loaded(b), config);
  }
}
