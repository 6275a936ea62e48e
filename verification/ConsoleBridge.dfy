// The ConsoleBridge object of ConsoleBridge.ts. Each method is one turn of the
// browser's event loop; a call is known by the number its promise was given.
module ConsoleBridge {
  import opened ConsolePage

  class ConsoleBridge {
    const hasHost: bool
    var started: bool
    var disposed: bool
    var pending: map<nat, Waiting>
    var earlyAnswers: map<nat, Held>

    // Where each call's code is waiting, and how its promise settled.
    var calls: map<nat, Call>
    var settled: map<nat, seq<Outcome>>

    // History.
    ghost var clock: nat
    ghost var posts: map<nat, nat>
    ghost var replied: set<nat>
    ghost var receipts: map<nat, Receipt>
    ghost var answers: map<nat, Arrival>

    ghost function View(): Page
      reads this
    {
      Page(hasHost, started, disposed, pending, earlyAnswers, calls, settled, clock, posts, replied, receipts, answers)
    }

    constructor (hasHost: bool)
      ensures View() == Blank(hasHost)
    {
      this.hasHost := hasHost;
      started, disposed, pending, earlyAnswers, calls, settled := false, false, map[], map[], map[], map[];
      clock, posts, replied, receipts, answers := 0, map[], {}, map[], map[];
    }

    method Listen()
      modifies this
      ensures View() == Listened(old(View()))
    {
      if started || disposed {
        return;
      }
      if !hasHost {
        return;
      }
      started := true;
    }

    /** Settles one call's promise; its code goes no further. */
    method Conclude(call: nat, outcome: Outcome)
      requires call in settled
      modifies this
      ensures View() == ConsolePage.Settle(old(View()), call, outcome)
    {
      calls := calls[call := Over];
      settled := settled[call := settled[call] + [outcome]];
    }

    method Request(call: nat, now: nat)
      requires call !in calls && now == clock
      modifies this
      ensures View() == Posted(old(View()), call)
    {
      settled := settled[call := []];
      if !hasHost {
        Conclude(call, Rejected(NoHost));
        return;
      }
      if disposed {
        Conclude(call, Rejected(ShuttingDown));
        return;
      }
      if !started {
        Conclude(call, Rejected(NotStarted));
        return;
      }
      calls := calls[call := AwaitingReceipt(now + ACK_TIMEOUT_MS)];
      posts := posts[call := now];
    }

    method OnReply(call: nat, reply: Reply, now: nat)
      requires call in settled && now == clock
      modifies this
      ensures View() == Receipted(old(View()), call, reply)
    {
      replied := replied + {call};
      if Accepts(reply) {
        receipts := receipts[call := Receipt(reply.id, now)];
      }
      if call !in calls || !calls[call].AwaitingReceipt? {
        return;
      }
      if reply.HostError? {
        Conclude(call, Rejected(HostFailed));
        return;
      }
      if reply.NoAck? || !reply.accepted {
        Conclude(call, Rejected(Refused));
        return;
      }
      if disposed {
        Conclude(call, Rejected(ShuttingDown));
        return;
      }
      if reply.id in earlyAnswers {
        var early := earlyAnswers[reply.id];
        earlyAnswers := earlyAnswers - {reply.id};
        if early.answer.ok {
          Conclude(call, Resolved(early.answer.payload));
        } else {
          Conclude(call, Rejected(Failed(early.answer.error)));
        }
        return;
      }
      calls := calls[call := AwaitingAnswer(reply.id)];
      pending := pending[reply.id := Waiting(call, now + REQUEST_TIMEOUT_MS)];
    }

    method OnReceiptTimer(call: nat)
      requires call in settled
      modifies this
      ensures View() == ConsolePage.Settle(old(View()), call, Rejected(NoReceipt))
    {
      Conclude(call, Rejected(NoReceipt));
    }

    method OnAnswerTimer(id: nat)
      requires id in pending && pending[id].call in settled
      modifies this
      ensures var was := old(View());
              View() == ConsolePage.Settle(was.(pending := was.pending - {id}), was.pending[id].call,
                                           Rejected(NoAnswer))
    {
      var call := pending[id].call;
      pending := pending - {id};
      Conclude(call, Rejected(NoAnswer));
    }

    method OnEarlyTimer(id: nat)
      modifies this
      ensures View() == old(View()).(early := old(earlyAnswers) - {id})
    {
      earlyAnswers := earlyAnswers - {id};
    }

    method Dispatch(id: nat, answer: Answer, now: nat)
      requires now == clock
      requires id in pending ==> pending[id].call in settled
      modifies this
      ensures View() == Dispatched(old(View()), id, answer)
    {
      answers := answers[id := Arrival(answer, now)];
      if disposed {
        return;
      }
      if id !in pending {
        HoldEarlyAnswer(id, answer, now);
        return;
      }
      var waiting := pending[id];
      pending := pending - {id};
      if answer.ok {
        Conclude(waiting.call, Resolved(answer.payload));
      } else {
        Conclude(waiting.call, Rejected(Failed(answer.error)));
      }
    }

    method HoldEarlyAnswer(id: nat, answer: Answer, now: nat)
      modifies `earlyAnswers
      ensures earlyAnswers == old(earlyAnswers)[id := Held(answer, now + EARLY_ANSWER_TTL_MS)]
    {
      earlyAnswers := earlyAnswers[id := Held(answer, now + EARLY_ANSWER_TTL_MS)];
    }

    method Dispose()
      requires WellKept(View())
      modifies this
      ensures View() == Disposed(old(View()))
    {
      RejectWaiting();
      disposed := true;
      pending := map[];
      earlyAnswers := map[];
    }

    method RejectWaiting()
      requires WellKept(View())
      modifies this
      ensures View() == RejectCalls(old(View()), WaitingCalls(old(View())))
    {
      ghost var was := View();
      var todo := pending.Keys;
      NoneRejected(was);
      while todo != {}
        invariant todo <= was.pending.Keys
        invariant View() == RejectCalls(was, CallsOf(was, todo))
        decreases |todo|
      {
        var id :| id in todo;
        CallIsItsOwn(was, todo, id);
        RejectOneMore(was, CallsOf(was, todo), was.pending[id].call);
        Conclude(pending[id].call, Rejected(ShuttingDown));
        todo := todo - {id};
      }
      assert CallsOf(was, {}) == WaitingCalls(was);
    }
  }

  /** The calls of the pending entries that are not left to do. */
  ghost function CallsOf(p: Page, todo: set<nat>): set<nat> {
    set id | id in p.pending && id !in todo :: p.pending[id].call
  }

  lemma NoneRejected(p: Page)
    ensures RejectCalls(p, CallsOf(p, p.pending.Keys)) == p
  {
    var next := RejectCalls(p, CallsOf(p, p.pending.Keys));
    assert next.calls == p.calls;
    assert next.settled == p.settled;
  }

  lemma CallIsItsOwn(p: Page, todo: set<nat>, id: nat)
    requires WellKept(p) && id in todo && todo <= p.pending.Keys
    ensures p.pending[id].call in p.calls && p.pending[id].call in p.settled
    ensures p.pending[id].call !in CallsOf(p, todo)
    ensures CallsOf(p, todo - {id}) == CallsOf(p, todo) + {p.pending[id].call}
  {
    assert Owned(p, id);
    forall k | k in p.pending && k != id
      ensures p.pending[k].call != p.pending[id].call
    {
      assert Owned(p, k);
    }
  }

  lemma RejectOneMore(p: Page, over: set<nat>, call: nat)
    requires call in p.calls && call in p.settled && call !in over
    ensures RejectCalls(p, over + {call}) == ConsolePage.Settle(RejectCalls(p, over), call, Rejected(ShuttingDown))
  {
    var next := ConsolePage.Settle(RejectCalls(p, over), call, Rejected(ShuttingDown));
    assert RejectCalls(p, over + {call}).calls == next.calls;
    assert RejectCalls(p, over + {call}).settled == next.settled;
  }
}
