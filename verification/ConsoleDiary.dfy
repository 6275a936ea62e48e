// The page's half of a request, told from the steps of a run alone: what was
// answered and when, and why each call was rejected.
module ConsoleDiary {
  import opened ByteText
  import opened ConsolePage
  import opened ConsolePageRuns

  /** A diary of the steps: the time, whether the page listens or is gone, the
      host's replies, the receipts among them, and the answers. */
  datatype Diary = Diary(
    now: nat, started: bool, disposed: bool,
    replies: map<nat, Reply>, receipts: map<nat, Receipt>, answers: map<nat, Arrival>)

  const UNWRITTEN := Diary(0, false, false, map[], map[], map[])

  function Entered(d: Diary, hasHost: bool, step: Step): Diary {
    match step
    case Start => d.(started := d.started || (hasHost && !d.disposed))
    case GetReceipt(call, reply) =>
      d.(replies := d.replies[call := reply],
         receipts := if reply.Ack? && reply.accepted then d.receipts[call := Receipt(reply.id, d.now)] else d.receipts)
    case Dispatch(id, answer) => d.(answers := d.answers[id := Arrival(answer, d.now)])
    case Dispose => d.(disposed := true)
    case Wait(later) => d.(now := later)
    case _ => d
  }

  function DiaryFrom(d: Diary, hasHost: bool, run: seq<Step>): Diary
    decreases |run|
  {
    if run == [] then d else DiaryFrom(Entered(d, hasHost, run[0]), hasHost, run[1..])
  }

  /** The page knows what the diary tells. */
  predicate Fits(p: Page, d: Diary) {
    && p.now == d.now && p.started == d.started && p.disposed == d.disposed
    && p.replied == d.replies.Keys && p.receipts == d.receipts && p.answers == d.answers
  }

  /** What a rejection says is so. */
  predicate Reasoned(p: Page, d: Diary, call: nat, why: Failing) {
    match why
    case NoHost => !p.hasHost && call !in p.posts
    case NotStarted => call !in p.posts && p.hasHost
    case ShuttingDown => d.disposed
    case NoReceipt => call in p.posts && d.now >= p.posts[call] + 5000
    case HostFailed => call in d.replies && d.replies[call].HostError?
    case Refused => call in d.replies && (d.replies[call].NoAck? || (d.replies[call].Ack? && !d.replies[call].accepted))
    case NoAnswer => call in d.receipts && d.now >= d.receipts[call].at + 15000
    case Failed(error) =>
      && call in p.receipts && p.receipts[call].id in p.answers
      && !p.answers[p.receipts[call].id].answer.ok && p.answers[p.receipts[call].id].answer.error == error
  }

  predicate RejectedWith(p: Page, call: nat, why: Failing) {
    call in p.settled && p.settled[call] != [] && p.settled[call][0] == Rejected(why)
  }

  ghost predicate AllReasoned(p: Page, d: Diary) {
    forall call, why :: RejectedWith(p, call, why) ==> Reasoned(p, d, call, why)
  }

  lemma StepFits(p: Page, step: Step, d: Diary)
    requires WellKept(p) && Enabled(p, step) && Fits(p, d)
    ensures Fits(Next(p, step), Entered(d, p.hasHost, step)) && Next(p, step).hasHost == p.hasHost
  {
    match step
    case GetReceipt(call, reply) => ReceiptFits(p, call, reply, d);
    case Request(call) =>
      match Refusal(p) {
        case Some(why) =>
        case None =>
      }
    case _ =>
  }

  lemma ReceiptFits(p: Page, call: nat, reply: Reply, d: Diary)
    requires WellKept(p) && Enabled(p, GetReceipt(call, reply)) && Fits(p, d)
    ensures Fits(Receipted(p, call, reply), Entered(d, p.hasHost, GetReceipt(call, reply)))
    ensures Receipted(p, call, reply).hasHost == p.hasHost
  {
    ReceiptTouches(p, call, reply);
  }

  lemma ReceiptTouches(p: Page, call: nat, reply: Reply)
    requires call in p.settled
    ensures var q, noted := Receipted(p, call, reply), Noted(p, call, reply);
            && q.hasHost == p.hasHost && q.now == p.now && q.started == p.started && q.disposed == p.disposed
            && q.answers == p.answers && q.replied == noted.replied && q.receipts == noted.receipts
  {
    match Judge(p, call, reply) {
      case GivenUp =>
      case Settles(_) =>
      case Claims =>
      case Waits =>
    }
  }

  lemma {:induction false} RunFits(p: Page, run: seq<Step>, d: Diary)
    requires Legal(p, run) && Fits(p, d)
    ensures Fits(After(p, run), DiaryFrom(d, p.hasHost, run)) && After(p, run).hasHost == p.hasHost
    decreases |run|
  {
    if run != [] {
      StepFits(p, run[0], d);
      RunFits(Next(p, run[0]), run[1..], Entered(d, p.hasHost, run[0]));
    }
  }

  /** A reason once given stays good. */
  lemma ReasonStays(p: Page, step: Step, d: Diary, call: nat, why: Failing)
    requires WellKept(p) && Enabled(p, step) && Fits(p, d) && RejectedWith(p, call, why) && Reasoned(p, d, call, why)
    ensures Reasoned(Next(p, step), Entered(d, p.hasHost, step), call, why)
  {
    StepFits(p, step, d);
    PostsStay(p, step, call);
  }

  lemma PostsStay(p: Page, step: Step, call: nat)
    requires WellKept(p) && Enabled(p, step) && call in p.calls
    ensures call in Next(p, step).posts <==> call in p.posts
    ensures call in p.posts ==> Next(p, step).posts[call] == p.posts[call]
  {
    if step.GetReceipt? {
      ReceiptPostsNothing(p, step.call, step.reply);
    } else if step.Request? {
      RequestPostsItsOwn(p, step.call, call);
    }
  }

  lemma ReceiptPostsNothing(p: Page, c: nat, reply: Reply)
    requires c in p.settled
    ensures Receipted(p, c, reply).posts == p.posts
  {
    match Judge(p, c, reply) {
      case GivenUp =>
      case Settles(_) =>
      case Claims =>
      case Waits =>
    }
  }

  lemma RequestPostsItsOwn(p: Page, c: nat, call: nat)
    requires call != c
    ensures call in Posted(p, c).posts <==> call in p.posts
    ensures call in p.posts ==> Posted(p, c).posts[call] == p.posts[call]
  {
    match Refusal(p)
    case Some(_) =>
    case None =>
  }

  lemma PostReason(p: Page, c: nat, call: nat, why: Failing)
    requires WellKept(p) && c !in p.calls && RejectedWith(Posted(p, c), call, why) && !RejectedWith(p, call, why)
    ensures call == c && Refusal(p) == Some(why) && c !in Posted(p, c).posts
  {
    match Refusal(p)
    case Some(_) =>
    case None =>
  }

  /** How the calls have settled once a reply of the host is dealt with. */
  function SettledBy(p: Page, c: nat, reply: Reply): map<nat, seq<Outcome>>
    requires c in p.settled
  {
    match Judge(p, c, reply)
    case GivenUp => p.settled
    case Settles(outcome) => p.settled[c := p.settled[c] + [outcome]]
    case Claims => p.settled[c := p.settled[c] + [OutcomeOf(p.early[reply.id].answer)]]
    case Waits => p.settled
  }

  lemma ReceiptSettles(p: Page, c: nat, reply: Reply)
    requires c in p.settled
    ensures Receipted(p, c, reply).settled == SettledBy(p, c, reply)
  {
    match Judge(p, c, reply) {
      case GivenUp =>
      case Settles(_) =>
      case Claims =>
      case Waits =>
    }
  }

  lemma ReceiptReason(p: Page, c: nat, reply: Reply, call: nat, why: Failing)
    requires WellKept(p) && c in p.settled && !why.Failed? && !RejectedWith(p, call, why)
    requires var now := SettledBy(p, c, reply); call in now && now[call] != [] && now[call][0] == Rejected(why)
    ensures call == c
    ensures if reply.HostError? then why.HostFailed?
            else if Accepts(reply) then why.ShuttingDown? && p.disposed
            else why.Refused?
  {
    match Judge(p, c, reply) {
      case GivenUp =>
      case Settles(_) =>
      case Claims =>
      case Waits =>
    }
  }

  lemma TimerReason(p: Page, step: Step, call: nat, why: Failing)
    requires AllKept(p) && WellKept(p) && Enabled(p, step) && (step.ReceiptTimer? || step.AnswerTimer?)
    requires RejectedWith(Next(p, step), call, why) && !RejectedWith(p, call, why)
    ensures if step.ReceiptTimer? then why.NoReceipt? && call in p.posts && p.now >= p.posts[call] + 5000
            else why.NoAnswer? && call in p.receipts && p.now >= p.receipts[call].at + 15000
  {
    if step.ReceiptTimer? {
      assert Inv(p, step.call) && PostKept(p, step.call);
    } else {
      assert Owned(p, step.id);
      assert Inv(p, p.pending[step.id].call) && ReceiptKept(p, p.pending[step.id].call);
    }
  }

  lemma ReceiptIsReason(p: Page, c: nat, reply: Reply, d: Diary, call: nat, why: Failing)
    requires WellKept(p) && Enabled(p, GetReceipt(c, reply)) && Fits(p, d) && !why.Failed?
    requires RejectedWith(Receipted(p, c, reply), call, why) && !RejectedWith(p, call, why)
    ensures Reasoned(Receipted(p, c, reply), Entered(d, p.hasHost, GetReceipt(c, reply)), call, why)
  {
    ReceiptSettles(p, c, reply);
    ReceiptReason(p, c, reply, call, why);
  }

  lemma RequestIsReason(p: Page, c: nat, d: Diary, call: nat, why: Failing)
    requires WellKept(p) && c !in p.calls && Fits(p, d)
    requires RejectedWith(Posted(p, c), call, why) && !RejectedWith(p, call, why)
    ensures Reasoned(Posted(p, c), d, call, why)
  {
    PostReason(p, c, call, why);
    HostStays(p, c);
  }

  lemma HostStays(p: Page, c: nat)
    ensures Posted(p, c).hasHost == p.hasHost
  {
    match Refusal(p)
    case Some(_) =>
    case None =>
  }

  lemma TimerIsReason(p: Page, step: Step, d: Diary, call: nat, why: Failing)
    requires AllKept(p) && WellKept(p) && Enabled(p, step) && Fits(p, d) && (step.ReceiptTimer? || step.AnswerTimer?)
    requires RejectedWith(Next(p, step), call, why) && !RejectedWith(p, call, why)
    ensures Reasoned(Next(p, step), d, call, why)
  {
    TimerReason(p, step, call, why);
  }

  lemma FailureIsReason(p: Page, d: Diary, call: nat, why: Failing)
    requires AllKept(p) && RejectedWith(p, call, why) && why.Failed?
    ensures Reasoned(p, d, call, why)
  {
    assert Inv(p, call);
  }

  /** A call that a step rejects is rejected for its reason. */
  lemma NewReason(p: Page, step: Step, d: Diary, call: nat, why: Failing)
    requires AllKept(p) && WellKept(p) && Enabled(p, step) && Fits(p, d) && AllKept(Next(p, step))
    requires RejectedWith(Next(p, step), call, why) && !RejectedWith(p, call, why)
    ensures Reasoned(Next(p, step), Entered(d, p.hasHost, step), call, why)
  {
    if why.Failed? {
      FailureIsReason(Next(p, step), Entered(d, p.hasHost, step), call, why);
    } else if step.Request? {
      RequestIsReason(p, step.call, d, call, why);
    } else if step.GetReceipt? {
      ReceiptIsReason(p, step.call, step.reply, d, call, why);
    } else if step.ReceiptTimer? || step.AnswerTimer? {
      TimerIsReason(p, step, d, call, why);
    } else {
      OtherReason(p, step, call, why);
    }
  }

  /** Of the other steps only disposing rejects, but for the console's own errors. */
  lemma OtherReason(p: Page, step: Step, call: nat, why: Failing)
    requires WellKept(p) && Enabled(p, step) && !why.Failed?
    requires !step.Request? && !step.GetReceipt? && !step.ReceiptTimer? && !step.AnswerTimer?
    requires RejectedWith(Next(p, step), call, why) && !RejectedWith(p, call, why)
    ensures step.Dispose? && why.ShuttingDown?
  {}

  lemma StepKeepsReasons(p: Page, step: Step, d: Diary)
    requires AllKept(p) && WellKept(p) && Enabled(p, step) && Fits(p, d) && AllReasoned(p, d)
    ensures AllKept(Next(p, step)) && AllReasoned(Next(p, step), Entered(d, p.hasHost, step))
  {
    StepKeeps(p, step);
    forall call, why | RejectedWith(Next(p, step), call, why)
      ensures Reasoned(Next(p, step), Entered(d, p.hasHost, step), call, why)
    {
      if RejectedWith(p, call, why) {
        ReasonStays(p, step, d, call, why);
      } else {
        NewReason(p, step, d, call, why);
      }
    }
  }

  lemma {:induction false} RunKeepsReasons(p: Page, run: seq<Step>, d: Diary)
    requires AllKept(p) && Legal(p, run) && Fits(p, d) && AllReasoned(p, d)
    ensures Fits(After(p, run), DiaryFrom(d, p.hasHost, run))
    ensures AllReasoned(After(p, run), DiaryFrom(d, p.hasHost, run))
    decreases |run|
  {
    if run != [] {
      StepFits(p, run[0], d);
      StepKeepsReasons(p, run[0], d);
      RunKeepsReasons(Next(p, run[0]), run[1..], Entered(d, p.hasHost, run[0]));
    }
  }

  /** In every run the page's times, receipts and answers are those of the steps,
      and every call that is rejected is rejected for its reason: no host, not
      started, shutting down, refused or failed by the host, no receipt in five
      seconds, no answer in fifteen after it, or the console's own error. */
  lemma RejectedForItsReason(hasHost: bool, run: seq<Step>)
    requires Legal(Blank(hasHost), run)
    ensures Fits(After(Blank(hasHost), run), DiaryFrom(UNWRITTEN, hasHost, run))
    ensures AllReasoned(After(Blank(hasHost), run), DiaryFrom(UNWRITTEN, hasHost, run))
  {
    BlankKeeps(hasHost);
    RunKeepsReasons(Blank(hasHost), run, UNWRITTEN);
  }

  /** A request is refused at once without a host, else when shut down, else when
      not started; in no other case. */
  lemma RefusedInThatOrder(hasHost: bool, run: seq<Step>, call: nat)
    requires Legal(Blank(hasHost), run) && call !in After(Blank(hasHost), run).calls
    ensures var p, d := After(Blank(hasHost), run), DiaryFrom(UNWRITTEN, hasHost, run);
            call in Posted(p, call).settled
            && Posted(p, call).settled[call] ==
               if !hasHost then [Rejected(NoHost)]
               else if d.disposed then [Rejected(ShuttingDown)]
               else if !d.started then [Rejected(NotStarted)]
               else []
  {
    RunFits(Blank(hasHost), run, UNWRITTEN);
  }
}
