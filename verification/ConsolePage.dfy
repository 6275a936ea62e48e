// gui/zoal-atc/src/bridge/ConsoleBridge.ts: the page's half of a request, as
// timed steps. A request is posted, its receipt names the id the plugin gave
// it, and its answer arrives on another channel, before or after the receipt.
module ConsolePage {
  import opened ByteText

  const REQUEST_TIMEOUT_MS := 15000
  const ACK_TIMEOUT_MS := 5000
  const EARLY_ANSWER_TTL_MS := 30000

  datatype Answer = Answer(ok: bool, payload: string, error: string)
  datatype Failing =
    | NoHost | Refused | NotStarted | ShuttingDown | NoReceipt | HostFailed | NoAnswer
    | Failed(error: string)
  datatype Outcome = Resolved(payload: string) | Rejected(why: Failing)

  /** Where the code of one `request` call is waiting. */
  datatype Call = AwaitingReceipt(deadline: nat) | AwaitingAnswer(id: nat) | Over

  datatype Waiting = Waiting(call: nat, deadline: nat)
  datatype Held = Held(answer: Answer, deadline: nat)
  datatype Receipt = Receipt(id: nat, at: nat)
  datatype Arrival = Arrival(answer: Answer, at: nat)

  /** Whether the page runs in a host at all, the object's fields, the calls in
      flight and how each settled, and what happened when: every post, the posts
      the host has replied to, every receipt that accepted a request, and every
      answer. */
  datatype Page = Page(
    hasHost: bool, started: bool, disposed: bool,
    pending: map<nat, Waiting>, early: map<nat, Held>,
    calls: map<nat, Call>, settled: map<nat, seq<Outcome>>,
    now: nat, posts: map<nat, nat>, replied: set<nat>, receipts: map<nat, Receipt>, answers: map<nat, Arrival>)

  function Blank(hasHost: bool): Page {
    Page(hasHost, false, false, map[], map[], map[], map[], 0, map[], {}, map[], map[])
  }

  /** What the host's promise came to: an error, nothing usable, or the plugin's receipt. */
  datatype Reply = HostError | NoAck | Ack(accepted: bool, id: nat)

  datatype Step =
    | Start
    | Request(call: nat)
    | GetReceipt(call: nat, reply: Reply)
    | ReceiptTimer(call: nat)
    | AnswerTimer(id: nat)
    | EarlyTimer(id: nat)
    | Dispatch(id: nat, answer: Answer)
    | Dispose
    | Wait(later: nat)

  predicate Listening(p: Page, call: nat) {
    call in p.calls && p.calls[call].AwaitingReceipt?
  }

  predicate Accepts(reply: Reply) {
    reply.Ack? && reply.accepted
  }

  /** Timers fire at their deadline or later; the host replies to a post at most
      once; and the plugin's ids are unique, with one answer for each. */
  predicate Enabled(p: Page, step: Step) {
    match step
    case Request(call) => call !in p.calls
    case GetReceipt(call, reply) =>
      call in p.posts && call !in p.replied && (Accepts(reply) ==> NewId(p, reply.id))
    case ReceiptTimer(call) => Listening(p, call) && p.now >= p.calls[call].deadline
    case AnswerTimer(id) => id in p.pending && p.now >= p.pending[id].deadline
    case EarlyTimer(id) => id in p.early && p.now >= p.early[id].deadline
    case Dispatch(id, _) => p.started && id !in p.answers
    case Wait(later) => later >= p.now
    case _ => true
  }

  predicate NewId(p: Page, id: nat) {
    forall c :: c in p.receipts ==> p.receipts[c].id != id
  }

  function OutcomeOf(a: Answer): Outcome {
    if a.ok then Resolved(a.payload) else Rejected(Failed(a.error))
  }

  function Settle(p: Page, call: nat, outcome: Outcome): Page
    requires call in p.settled
  {
    p.(calls := p.calls[call := Over], settled := p.settled[call := p.settled[call] + [outcome]])
  }

  function Listened(p: Page): Page {
    if p.disposed || !p.hasHost then p else p.(started := true)
  }

  /** Why a request is refused before it is posted, if it is. */
  function Refusal(p: Page): Option<Failing> {
    if !p.hasHost then Some(NoHost)
    else if p.disposed then Some(ShuttingDown)
    else if !p.started then Some(NotStarted)
    else None
  }

  function Posted(p: Page, call: nat): Page {
    var begun := p.(settled := p.settled[call := []]);
    match Refusal(p)
    case Some(why) => Settle(begun, call, Rejected(why))
    case None =>
      begun.(calls := p.calls[call := AwaitingReceipt(p.now + ACK_TIMEOUT_MS)], posts := p.posts[call := p.now])
  }

  function Noted(p: Page, call: nat, reply: Reply): Page {
    p.(replied := p.replied + {call},
       receipts := if Accepts(reply) then p.receipts[call := Receipt(reply.id, p.now)] else p.receipts)
  }

  /** What the code waiting for the host's reply does with it, unless it has given up. */
  datatype Verdict = GivenUp | Settles(outcome: Outcome) | Claims | Waits

  function Judge(p: Page, call: nat, reply: Reply): Verdict {
    if !Listening(p, call) then GivenUp
    else if reply.HostError? then Settles(Rejected(HostFailed))
    else if !Accepts(reply) then Settles(Rejected(Refused))
    else if p.disposed then Settles(Rejected(ShuttingDown))
    else if reply.id in p.early then Claims
    else Waits
  }

  function Receipted(p: Page, call: nat, reply: Reply): Page
    requires call in p.settled
  {
    var noted := Noted(p, call, reply);
    match Judge(p, call, reply)
    case GivenUp => noted
    case Settles(outcome) => Settle(noted, call, outcome)
    case Claims => Settle(noted.(early := p.early - {reply.id}), call, OutcomeOf(p.early[reply.id].answer))
    case Waits => Awaiting(noted, call, reply.id)
  }

  function Awaiting(p: Page, call: nat, id: nat): Page {
    p.(calls := p.calls[call := AwaitingAnswer(id)],
       pending := p.pending[id := Waiting(call, p.now + REQUEST_TIMEOUT_MS)])
  }

  function Dispatched(p: Page, id: nat, answer: Answer): Page
    requires id in p.pending ==> p.pending[id].call in p.settled
  {
    var noted := p.(answers := p.answers[id := Arrival(answer, p.now)]);
    if p.disposed then noted
    else if id in p.pending then
      Settle(noted.(pending := p.pending - {id}), p.pending[id].call, OutcomeOf(answer))
    else noted.(early := p.early[id := Held(answer, p.now + EARLY_ANSWER_TTL_MS)])
  }

  function WaitingCalls(p: Page): set<nat> {
    set id | id in p.pending :: p.pending[id].call
  }

  /** The promises of these calls are all rejected. */
  function RejectCalls(p: Page, over: set<nat>): Page {
    p.(calls := map c | c in p.calls :: if c in over then Over else p.calls[c],
       settled := map c | c in p.settled :: if c in over then p.settled[c] + [Rejected(ShuttingDown)] else p.settled[c])
  }

  function Disposed(p: Page): Page {
    RejectCalls(p, WaitingCalls(p)).(disposed := true, pending := map[], early := map[])
  }

  function Next(p: Page, step: Step): Page
    requires Enabled(p, step) && WellKept(p)
  {
    match step
    case Start => Listened(p)
    case Request(call) => Posted(p, call)
    case GetReceipt(call, reply) => Receipted(p, call, reply)
    case ReceiptTimer(call) => Settle(p, call, Rejected(NoReceipt))
    case AnswerTimer(id) => Settle(p.(pending := p.pending - {id}), p.pending[id].call, Rejected(NoAnswer))
    case EarlyTimer(id) => p.(early := p.early - {id})
    case Dispatch(id, answer) => Dispatched(p, id, answer)
    case Dispose => Disposed(p)
    case Wait(later) => p.(now := later)
  }

  /** Each call is settled once, when it is over; a pending entry and the call
      it belongs to point at each other; and each got there by its receipt. */
  predicate WellKept(p: Page) {
    && p.settled.Keys == p.calls.Keys && p.posts.Keys <= p.calls.Keys && p.receipts.Keys <= p.replied <= p.posts.Keys
    && (forall c :: c in p.calls ==> |p.settled[c]| == (if p.calls[c].Over? then 1 else 0))
    && (forall id :: id in p.pending ==> Owned(p, id))
    && (forall c :: c in p.calls && p.calls[c].AwaitingAnswer? ==>
          p.calls[c].id in p.pending && p.pending[p.calls[c].id].call == c)
  }

  predicate Owned(p: Page, id: nat)
    requires id in p.pending
  {
    var c := p.pending[id].call;
    c in p.calls && p.calls[c] == AwaitingAnswer(id) && c in p.receipts && p.receipts[c].id == id
  }
}
