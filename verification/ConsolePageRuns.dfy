// What every run of the page keeps: each request settles once, with its own
// answer, whichever of the receipt and the answer comes first.
module ConsolePageRuns {
  import opened ConsolePage

  lemma RefusedIsWellKept(p: Page, call: nat, why: Failing)
    requires WellKept(p) && call !in p.calls
    ensures WellKept(Settle(p.(settled := p.settled[call := []]), call, Rejected(why)))
  {
    var q := Settle(p.(settled := p.settled[call := []]), call, Rejected(why));
    forall id | id in q.pending
      ensures Owned(q, id)
    {
      assert Owned(p, id);
    }
  }

  lemma PostedIsWellKept(p: Page, call: nat)
    requires WellKept(p) && call !in p.calls
    ensures WellKept(Posted(p, call))
  {
    match Refusal(p)
    case Some(why) => RefusedIsWellKept(p, call, why);
    case None =>
      forall id | id in p.pending
        ensures Owned(Posted(p, call), id)
      {
        assert Owned(p, id);
      }
  }

  lemma NotedIsWellKept(p: Page, call: nat, reply: Reply)
    requires WellKept(p) && Enabled(p, GetReceipt(call, reply))
    ensures WellKept(Noted(p, call, reply))
  {
    forall id | id in p.pending
      ensures Owned(Noted(p, call, reply), id)
    {
      assert Owned(p, id);
    }
  }

  lemma AwaitingIsWellKept(p: Page, call: nat, id: nat)
    requires WellKept(p) && Listening(p, call) && id !in p.pending
    requires call in p.receipts && p.receipts[call].id == id
    ensures WellKept(Awaiting(p, call, id))
  {
    var q := Awaiting(p, call, id);
    forall k | k in q.pending
      ensures Owned(q, k)
    {
      assert k == id || Owned(p, k);
    }
  }

  lemma ReceiptedIsWellKept(p: Page, call: nat, reply: Reply)
    requires WellKept(p) && Enabled(p, GetReceipt(call, reply))
    ensures WellKept(Receipted(p, call, reply))
  {
    NotedIsWellKept(p, call, reply);
    var noted := Noted(p, call, reply);
    match Judge(p, call, reply) {
      case GivenUp =>
      case Settles(outcome) => SettledIsWellKept(noted, call, outcome);
      case Claims =>
        SettledIsWellKept(noted.(early := p.early - {reply.id}), call, OutcomeOf(p.early[reply.id].answer));
      case Waits =>
        assert reply.id in p.pending ==> Owned(p, reply.id);
        AwaitingIsWellKept(noted, call, reply.id);
    }
  }

  lemma SettledIsWellKept(p: Page, call: nat, outcome: Outcome)
    requires WellKept(p) && Listening(p, call)
    ensures WellKept(Settle(p, call, outcome))
  {
  }

  lemma AnsweredIsWellKept(p: Page, id: nat, outcome: Outcome)
    requires WellKept(p) && id in p.pending
    ensures WellKept(Settle(p.(pending := p.pending - {id}), p.pending[id].call, outcome))
  {
  }

  lemma DispatchedIsWellKept(p: Page, id: nat, answer: Answer)
    requires WellKept(p)
    ensures WellKept(Dispatched(p, id, answer))
  {
    if !p.disposed && id in p.pending {
      AnsweredIsWellKept(p, id, OutcomeOf(answer));
    }
  }

  lemma DisposedIsWellKept(p: Page)
    requires WellKept(p)
    ensures WellKept(Disposed(p))
  {
    var q := Disposed(p);
    forall c | c in q.calls
      ensures |q.settled[c]| == (if q.calls[c].Over? then 1 else 0)
      ensures !q.calls[c].AwaitingAnswer?
    {
      if p.calls[c].AwaitingAnswer? {
        assert p.pending[p.calls[c].id].call in WaitingCalls(p);
      }
    }
  }

  // ------------------------------------------------------------ times and answers

  /** Two receipts never carry one id. */
  predicate UniqueIds(p: Page) {
    forall c, d :: c in p.receipts && d in p.receipts && p.receipts[c].id == p.receipts[d].id ==> c == d
  }

  /** A held answer is the one that arrived, and is held for its whole lifetime. */
  predicate EarlyKept(p: Page, id: nat) {
    && (id in p.early ==>
          id in p.answers && p.early[id] == Held(p.answers[id].answer, p.answers[id].at + EARLY_ANSWER_TTL_MS))
    && (id in p.answers ==> p.answers[id].at <= p.now)
    && (id in p.answers && NewId(p, id) && !p.disposed ==>
          id in p.early || p.now >= p.answers[id].at + EARLY_ANSWER_TTL_MS)
  }

  /** Before its receipt a call listens until its deadline. */
  predicate PostKept(p: Page, c: nat) {
    && (Listening(p, c) ==> c in p.posts && c !in p.replied && p.calls[c].deadline == p.posts[c] + ACK_TIMEOUT_MS)
    && (c in p.posts ==> p.posts[c] <= p.now)
    && (c in p.posts && c !in p.replied ==> Listening(p, c) || p.now >= p.posts[c] + ACK_TIMEOUT_MS)
  }

  /** The receipt came inside its window, and no answer came before the post. */
  predicate InTime(p: Page, c: nat)
    requires c in p.posts && c in p.receipts
  {
    var r := p.receipts[c];
    r.at < p.posts[c] + ACK_TIMEOUT_MS && (r.id in p.answers ==> p.posts[c] <= p.answers[r.id].at)
  }

  /** After its receipt a call waits for its answer until its deadline, and gets it. */
  predicate ReceiptKept(p: Page, c: nat) {
    c in p.receipts ==>
      var r := p.receipts[c];
      && c in p.posts && p.posts[c] <= r.at <= p.now
      && (r.id in p.pending && p.pending[r.id].call == c ==> p.pending[r.id].deadline == r.at + REQUEST_TIMEOUT_MS)
      && (InTime(p, c) && !p.disposed ==>
            if r.id in p.answers then
              p.answers[r.id].at < r.at + REQUEST_TIMEOUT_MS ==>
                c in p.settled && p.settled[c] == [OutcomeOf(p.answers[r.id].answer)]
            else
              (r.id in p.pending && p.pending[r.id].call == c) || p.now >= r.at + REQUEST_TIMEOUT_MS)
  }

  /** A call that settled with an answer settled with its own. */
  predicate Honest(p: Page, c: nat) {
    c in p.settled && p.settled[c] != [] && (p.settled[c][0].Resolved? || p.settled[c][0].why.Failed?) ==>
      && c in p.receipts && p.receipts[c].id in p.answers
      && p.settled[c][0] == OutcomeOf(p.answers[p.receipts[c].id].answer)
  }

  ghost predicate Inv(p: Page, c: nat) {
    && WellKept(p) && UniqueIds(p)
    && (forall id :: EarlyKept(p, id))
    && PostKept(p, c) && ReceiptKept(p, c) && Honest(p, c)
  }

  // --- the host's reply

  lemma ReceiptIsNoted(p: Page, call: nat, reply: Reply)
    requires call in p.settled
    ensures Receipted(p, call, reply).receipts == Noted(p, call, reply).receipts
  {
    match Judge(p, call, reply) {
      case GivenUp =>
      case Settles(_) =>
      case Claims =>
      case Waits =>
    }
  }

  lemma ReceiptedKeepsUnique(p: Page, call: nat, reply: Reply)
    requires UniqueIds(p) && call in p.settled && Enabled(p, GetReceipt(call, reply))
    ensures UniqueIds(Receipted(p, call, reply))
  {
    ReceiptIsNoted(p, call, reply);
  }

  lemma ReceiptedIdsAreOld(p: Page, call: nat, reply: Reply, id: nat)
    requires call in p.settled && call !in p.receipts && NewId(Receipted(p, call, reply), id)
    ensures NewId(p, id) && (Accepts(reply) ==> id != reply.id)
  {
    var q := Receipted(p, call, reply);
    ReceiptIsNoted(p, call, reply);
    forall d | d in p.receipts
      ensures p.receipts[d].id != id
    {
      assert d in q.receipts && q.receipts[d] == p.receipts[d];
    }
    assert Accepts(reply) ==> call in q.receipts;
  }

  lemma ReceiptedEarly(p: Page, call: nat, reply: Reply, id: nat)
    requires call in p.settled
    ensures var q := Receipted(p, call, reply);
            && q.answers == p.answers && q.now == p.now && q.disposed == p.disposed
            && (id in q.early ==> id in p.early && q.early[id] == p.early[id])
            && (id in p.early && !(Accepts(reply) && id == reply.id) ==> id in q.early)
  {
    match Judge(p, call, reply) {
      case GivenUp =>
      case Settles(_) =>
      case Claims =>
      case Waits =>
    }
  }

  lemma ReceiptedKeepsIds(p: Page, q: Page, call: nat, reply: Reply, id: nat)
    requires EarlyKept(p, id) && call in p.settled && call !in p.receipts && q == Receipted(p, call, reply)
    ensures EarlyKept(q, id)
  {
    ReceiptedEarly(p, call, reply, id);
    if NewId(q, id) {
      ReceiptedIdsAreOld(p, call, reply, id);
    }
  }

  lemma ReceiptedKeepsPost(p: Page, call: nat, reply: Reply, c: nat)
    requires PostKept(p, c) && call in p.settled && call in p.posts
    ensures PostKept(Receipted(p, call, reply), c)
  {
    match Judge(p, call, reply) {
      case GivenUp =>
      case Settles(_) =>
      case Claims =>
      case Waits =>
    }
  }

  /** What two states agree on, as far as one call with its receipt is concerned. */
  predicate SameForCall(p: Page, q: Page, c: nat) {
    && (c in q.settled <==> c in p.settled) && (c in p.settled ==> q.settled[c] == p.settled[c])
    && (c in q.receipts <==> c in p.receipts)
    && (c in q.posts <==> c in p.posts) && (c in p.posts ==> q.posts[c] == p.posts[c])
    && (c in p.receipts ==>
          var id := p.receipts[c].id;
          && q.receipts[c] == p.receipts[c]
          && (id in q.pending <==> id in p.pending) && (id in p.pending ==> q.pending[id] == p.pending[id])
          && (id in q.answers <==> id in p.answers) && (id in p.answers ==> q.answers[id] == p.answers[id]))
    && p.now <= q.now && (p.disposed ==> q.disposed)
  }

  lemma SameForCallKeeps(p: Page, q: Page, c: nat)
    requires SameForCall(p, q, c) && ReceiptKept(p, c) && Honest(p, c)
    ensures ReceiptKept(q, c) && Honest(q, c)
  {
  }

  lemma ReceiptedSameForOthers(p: Page, call: nat, reply: Reply, c: nat)
    requires c != call && call in p.settled
    requires c in p.receipts && Accepts(reply) ==> p.receipts[c].id != reply.id
    ensures SameForCall(p, Receipted(p, call, reply), c)
  {
    match Judge(p, call, reply) {
      case GivenUp =>
      case Settles(outcome) => SettleIsLocal(Noted(p, call, reply), call, outcome, c);
      case Claims => ClaimIsLocal(p, call, reply, c);
      case Waits => WaitIsLocal(p, call, reply, c);
    }
  }

  lemma ClaimIsLocal(p: Page, call: nat, reply: Reply, c: nat)
    requires c != call && call in p.settled && Judge(p, call, reply).Claims?
    requires c in p.receipts && Accepts(reply) ==> p.receipts[c].id != reply.id
    ensures SameForCall(p, Receipted(p, call, reply), c)
  {
    SettleIsLocal(Noted(p, call, reply).(early := p.early - {reply.id}), call, OutcomeOf(p.early[reply.id].answer), c);
  }

  lemma WaitIsLocal(p: Page, call: nat, reply: Reply, c: nat)
    requires c != call && call in p.settled && Judge(p, call, reply).Waits?
    requires c in p.receipts && Accepts(reply) ==> p.receipts[c].id != reply.id
    ensures SameForCall(p, Receipted(p, call, reply), c)
  {
  }

  lemma SettleIsLocal(p: Page, call: nat, outcome: Outcome, c: nat)
    requires call in p.settled && c != call
    ensures SameForCall(p, Settle(p, call, outcome), c)
  {
  }

  lemma ReceiptedKeepsOwn(p: Page, call: nat, reply: Reply)
    requires WellKept(p) && PostKept(p, call) && Honest(p, call) && Enabled(p, GetReceipt(call, reply))
    requires Accepts(reply) ==> EarlyKept(p, reply.id)
    ensures ReceiptKept(Receipted(p, call, reply), call) && Honest(Receipted(p, call, reply), call)
  {
    var q := Receipted(p, call, reply);
    if Accepts(reply) {
      assert NewId(p, reply.id);
      assert reply.id in p.pending ==> Owned(p, reply.id);
    }
  }

  lemma ReceiptedKeeps(p: Page, call: nat, reply: Reply, c: nat)
    requires Inv(p, c) && Inv(p, call) && Enabled(p, GetReceipt(call, reply))
    ensures Inv(Receipted(p, call, reply), c)
  {
    ReceiptedIsWellKept(p, call, reply);
    ReceiptedKeepsUnique(p, call, reply);
    forall id
      ensures EarlyKept(Receipted(p, call, reply), id)
    {
      assert EarlyKept(p, id);
      ReceiptedKeepsIds(p, Receipted(p, call, reply), call, reply, id);
    }
    ReceiptedKeepsPost(p, call, reply, c);
    if c == call {
      if Accepts(reply) {
        assert EarlyKept(p, reply.id);
      }
      ReceiptedKeepsOwn(p, call, reply);
    } else {
      ReceiptedSameForOthers(p, call, reply, c);
      SameForCallKeeps(p, Receipted(p, call, reply), c);
    }
  }

  // --- an answer

  lemma DispatchedKeepsIds(p: Page, id: nat, answer: Answer, k: nat)
    requires WellKept(p) && EarlyKept(p, k) && Enabled(p, Dispatch(id, answer))
    ensures EarlyKept(Dispatched(p, id, answer), k)
  {
    if id in p.pending {
      assert Owned(p, id);
      assert p.pending[id].call in p.receipts;
    }
  }

  lemma DispatchedKeepsCall(p: Page, id: nat, answer: Answer, c: nat)
    requires WellKept(p) && UniqueIds(p) && PostKept(p, c) && ReceiptKept(p, c) && Honest(p, c)
    requires Enabled(p, Dispatch(id, answer))
    ensures var q := Dispatched(p, id, answer);
            PostKept(q, c) && ReceiptKept(q, c) && Honest(q, c)
  {
    if id in p.pending {
      assert Owned(p, id);
    }
  }

  lemma DispatchedKeeps(p: Page, id: nat, answer: Answer, c: nat)
    requires Inv(p, c) && Enabled(p, Dispatch(id, answer))
    ensures Inv(Dispatched(p, id, answer), c)
  {
    DispatchedIsWellKept(p, id, answer);
    forall k
      ensures EarlyKept(Dispatched(p, id, answer), k)
    {
      assert EarlyKept(p, k);
      DispatchedKeepsIds(p, id, answer, k);
    }
    DispatchedKeepsCall(p, id, answer, c);
  }

  // --- the other steps

  lemma PostedKeepsIds(p: Page, call: nat, id: nat)
    requires EarlyKept(p, id)
    ensures EarlyKept(Posted(p, call), id)
  {}

  lemma PostedKeepsOwn(p: Page, call: nat)
    requires WellKept(p) && call !in p.calls
    ensures var q := Posted(p, call);
            PostKept(q, call) && ReceiptKept(q, call) && Honest(q, call)
  {}

  lemma PostedIsLocal(p: Page, call: nat, c: nat)
    requires c != call && call !in p.calls && PostKept(p, c)
    ensures SameForCall(p, Posted(p, call), c) && PostKept(Posted(p, call), c)
    ensures UniqueIds(p) ==> UniqueIds(Posted(p, call))
  {}

  lemma PostedKeeps(p: Page, call: nat, c: nat)
    requires Inv(p, c) && call !in p.calls
    ensures Inv(Posted(p, call), c)
  {
    var q := Posted(p, call);
    PostedIsWellKept(p, call);
    forall id
      ensures EarlyKept(q, id)
    {
      assert EarlyKept(p, id);
      PostedKeepsIds(p, call, id);
    }
    if c == call {
      PostedKeepsOwn(p, call);
    } else {
      PostedIsLocal(p, call, c);
      SameForCallKeeps(p, q, c);
    }
  }

  lemma ReceiptTimerKeeps(p: Page, call: nat, c: nat)
    requires Inv(p, c) && Inv(p, call) && Enabled(p, ReceiptTimer(call))
    ensures Inv(Settle(p, call, Rejected(NoReceipt)), c)
  {
    var q := Settle(p, call, Rejected(NoReceipt));
    SettledIsWellKept(p, call, Rejected(NoReceipt));
    forall id
      ensures EarlyKept(q, id)
    {
      assert EarlyKept(p, id);
    }
    if c != call {
      SameForCallKeeps(p, q, c);
    }
  }

  lemma AnswerTimerKeeps(p: Page, id: nat, c: nat)
    requires id in p.pending && Inv(p, c) && Inv(p, p.pending[id].call) && Enabled(p, AnswerTimer(id))
    ensures Inv(Settle(p.(pending := p.pending - {id}), p.pending[id].call, Rejected(NoAnswer)), c)
  {
    var call := p.pending[id].call;
    var q := Settle(p.(pending := p.pending - {id}), call, Rejected(NoAnswer));
    AnsweredIsWellKept(p, id, Rejected(NoAnswer));
    assert Owned(p, id);
    forall k
      ensures EarlyKept(q, k)
    {
      assert EarlyKept(p, k);
    }
    if c != call {
      SameForCallKeeps(p, q, c);
    }
  }

  lemma EarlyTimerKeeps(p: Page, id: nat, c: nat)
    requires Inv(p, c) && Enabled(p, EarlyTimer(id))
    ensures Inv(p.(early := p.early - {id}), c)
  {
    var q := p.(early := p.early - {id});
    forall k | k in q.pending
      ensures Owned(q, k)
    {
      assert Owned(p, k);
    }
    forall k
      ensures EarlyKept(q, k)
    {
      assert EarlyKept(p, k);
    }
    SameForCallKeeps(p, q, c);
  }

  lemma DisposedKeeps(p: Page, c: nat)
    requires Inv(p, c)
    ensures Inv(Disposed(p), c)
  {
    var q := Disposed(p);
    DisposedIsWellKept(p);
    forall k
      ensures EarlyKept(q, k)
    {
      assert EarlyKept(p, k);
    }
    if c in WaitingCalls(p) {
      var id :| id in p.pending && p.pending[id].call == c;
      assert Owned(p, id);
    }
  }

  lemma WaitKeeps(p: Page, later: nat, c: nat)
    requires Inv(p, c) && later >= p.now
    ensures Inv(p.(now := later), c)
  {
    var q := p.(now := later);
    forall k | k in q.pending
      ensures Owned(q, k)
    {
      assert Owned(p, k);
    }
    forall k
      ensures EarlyKept(q, k)
    {
      assert EarlyKept(p, k);
    }
    SameForCallKeeps(p, q, c);
  }

  lemma StartKeeps(p: Page, c: nat)
    requires Inv(p, c)
    ensures Inv(Listened(p), c)
  {
    var q := Listened(p);
    forall k | k in q.pending
      ensures Owned(q, k)
    {
      assert Owned(p, k);
    }
    forall k
      ensures EarlyKept(q, k)
    {
      assert EarlyKept(p, k);
    }
    SameForCallKeeps(p, q, c);
  }

  ghost predicate AllKept(p: Page) {
    forall c :: Inv(p, c)
  }

  lemma StepKeeps(p: Page, step: Step)
    requires AllKept(p) && WellKept(p) && Enabled(p, step)
    ensures AllKept(Next(p, step))
  {
    forall c
      ensures Inv(Next(p, step), c)
    {
      assert Inv(p, c);
      match step
      case Start => StartKeeps(p, c);
      case Request(call) => PostedKeeps(p, call, c);
      case GetReceipt(call, reply) => assert Inv(p, call); ReceiptedKeeps(p, call, reply, c);
      case ReceiptTimer(call) => assert Inv(p, call); ReceiptTimerKeeps(p, call, c);
      case AnswerTimer(id) => assert Inv(p, p.pending[id].call); AnswerTimerKeeps(p, id, c);
      case EarlyTimer(id) => EarlyTimerKeeps(p, id, c);
      case Dispatch(id, answer) => DispatchedKeeps(p, id, answer, c);
      case Dispose => DisposedKeeps(p, c);
      case Wait(later) => WaitKeeps(p, later, c);
    }
  }

  // ---------------------------------------------------------------- whole runs

  predicate Legal(p: Page, run: seq<Step>)
    decreases |run|
  {
    WellKept(p) && (run == [] || (Enabled(p, run[0]) && Legal(Next(p, run[0]), run[1..])))
  }

  function After(p: Page, run: seq<Step>): Page
    requires Legal(p, run)
    decreases |run|
  {
    if run == [] then p else After(Next(p, run[0]), run[1..])
  }

  lemma {:induction false} RunKeeps(p: Page, run: seq<Step>)
    requires AllKept(p) && Legal(p, run)
    ensures AllKept(After(p, run))
    decreases |run|
  {
    if run != [] {
      StepKeeps(p, run[0]);
      RunKeeps(Next(p, run[0]), run[1..]);
    }
  }

  lemma BlankKeeps(hasHost: bool)
    ensures AllKept(Blank(hasHost))
  {
    forall c
      ensures Inv(Blank(hasHost), c)
    {
    }
  }

  /** With the receipt inside its window and the answer any time from the post
      until the request timeout after the receipt, the call settles once, whichever
      of the two came first: it resolves with the payload of an answer that is ok,
      and is rejected with the error of one that is not. */
  lemma OrderDoesNotMatter(hasHost: bool, run: seq<Step>, call: nat)
    requires Legal(Blank(hasHost), run)
    requires var p := After(Blank(hasHost), run);
             && !p.disposed && call in p.posts && call in p.receipts && p.receipts[call].id in p.answers
             && p.receipts[call].at < p.posts[call] + ACK_TIMEOUT_MS
             && p.posts[call] <= p.answers[p.receipts[call].id].at < p.receipts[call].at + REQUEST_TIMEOUT_MS
    ensures var p := After(Blank(hasHost), run);
            var a := p.answers[p.receipts[call].id].answer;
            call in p.settled && p.settled[call] == [if a.ok then Resolved(a.payload) else Rejected(Failed(a.error))]
  {
    BlankKeeps(hasHost);
    RunKeeps(Blank(hasHost), run);
    assert Inv(After(Blank(hasHost), run), call);
  }

  /** In every run, disposed or not: no call settles twice; one that resolves does
      so with the payload of the answer to its own id, which was ok; and one that is
      rejected with an error of the console has an answer to its own id that was not
      ok and carried that error. */
  lemma SettledOnceWithItsOwn(hasHost: bool, run: seq<Step>, call: nat)
    requires Legal(Blank(hasHost), run)
    ensures var p := After(Blank(hasHost), run);
            call in p.settled ==>
              && |p.settled[call]| <= 1
              && (forall payload :: p.settled[call] == [Resolved(payload)] ==>
                    && call in p.receipts && p.receipts[call].id in p.answers
                    && p.answers[p.receipts[call].id].answer.ok
                    && p.answers[p.receipts[call].id].answer.payload == payload)
              && (forall error :: p.settled[call] == [Rejected(Failed(error))] ==>
                    && call in p.receipts && p.receipts[call].id in p.answers
                    && !p.answers[p.receipts[call].id].answer.ok
                    && p.answers[p.receipts[call].id].answer.error == error)
  {
    BlankKeeps(hasHost);
    RunKeeps(Blank(hasHost), run);
    assert Inv(After(Blank(hasHost), run), call);
  }

  predicate TimerDue(p: Page) {
    || (exists c :: c in p.calls && Enabled(p, ReceiptTimer(c)))
    || (exists id :: id in p.pending && Enabled(p, AnswerTimer(id)))
  }

  /** Nothing waits for ever: once the timers that are due have fired, a call is
      settled, or its receipt may still come, or its answer may. */
  lemma EveryCallIsBounded(hasHost: bool, run: seq<Step>, call: nat)
    requires Legal(Blank(hasHost), run) && !TimerDue(After(Blank(hasHost), run))
    ensures var p := After(Blank(hasHost), run);
            call in p.calls ==>
              || (call in p.settled && |p.settled[call]| == 1)
              || (call in p.posts && p.now < p.posts[call] + ACK_TIMEOUT_MS)
              || (call in p.receipts && p.now < p.receipts[call].at + REQUEST_TIMEOUT_MS)
  {
    BlankKeeps(hasHost);
    RunKeeps(Blank(hasHost), run);
    var p := After(Blank(hasHost), run);
    assert Inv(p, call);
    if call in p.calls && p.calls[call].AwaitingReceipt? {
      assert !Enabled(p, ReceiptTimer(call));
    } else if call in p.calls && p.calls[call].AwaitingAnswer? {
      assert Owned(p, p.calls[call].id);
      assert !Enabled(p, AnswerTimer(p.calls[call].id));
    }
  }

  /** A page without a host has posted nothing, and every call was refused for that. */
  predicate Hostless(p: Page) {
    && !p.hasHost && !p.started && p.posts == map[] && p.pending == map[] && p.early == map[]
    && forall c :: c in p.calls ==> p.calls[c].Over? && c in p.settled && p.settled[c] == [Rejected(NoHost)]
  }

  lemma HostlessStays(p: Page, step: Step)
    requires Hostless(p) && WellKept(p) && Enabled(p, step)
    ensures Hostless(Next(p, step))
  {}

  lemma {:induction false} HostlessRun(p: Page, run: seq<Step>)
    requires Hostless(p) && Legal(p, run)
    ensures Hostless(After(p, run))
    decreases |run|
  {
    if run != [] {
      HostlessStays(p, run[0]);
      HostlessRun(Next(p, run[0]), run[1..]);
    }
  }

  /** Outside a host every request is refused at once, whatever else happens. */
  lemma WithoutHostAllAreRefused(run: seq<Step>, call: nat)
    requires Legal(Blank(false), run) && call in After(Blank(false), run).calls
    ensures call in After(Blank(false), run).settled && After(Blank(false), run).settled[call] == [Rejected(NoHost)]
  {
    HostlessRun(Blank(false), run);
  }
}
