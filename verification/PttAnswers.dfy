// Which close a turn gets, and in which order everything goes out: said of the
// actions in a run and of the wire.
module PttAnswers {
  import opened PushToTalk
  import opened PttTurns

  // ------------------------------------------------------- what a run tells

  /** A recording the recogniser was given, and whether it heard anything usable in it. */
  datatype Answer = Answer(turn: PttEvent, ok: bool)

  /** What the workers' actions came to: the messages taken from the queue, the
      recordings put on the recogniser's list or refused, and those heard. */
  datatype Tale = Tale(taken: seq<Message>, listed: seq<PttEvent>, refused: seq<PttEvent>, heard: seq<Answer>)

  const NOTHING := Tale([], [], [], [])

  /** A recording can be heard when a transcriber is set, the sink is not stopping and fewer than four wait. */
  predicate CanBeHeard(s: Sink) {
    !s.recogniser.Absent? && !s.stopping && |s.transcriptions| < 4
  }

  /** What an action adds to the tale, read off where the workers are when it is taken. */
  function Note(s: Sink, told: Tale, action: Action): Tale
    requires action.Internal? ==> Enabled(s, action.step)
  {
    if !action.Internal? then told
    else match action.step
         case WorkerTake => told.(taken := told.taken + [s.queue[0]])
         case WorkerTranscribe =>
           if CanBeHeard(s) then told.(listed := told.listed + [s.worker.turn])
           else told.(refused := told.refused + [s.worker.turn])
         case RecogniserHear(ok) => told.(heard := told.heard + [Answer(s.recogniser.turn, ok)])
         case _ => told
  }

  function ToldFrom(sys: System, config: Config, run: seq<Action>, told: Tale): Tale
    requires Legal(sys, config, run)
    decreases |run|
  {
    if run == [] then told
    else ToldFrom(Act(sys, config, run[0]), config, run[1..], Note(sys.sink, told, run[0]))
  }

  function Told(config: Config, run: seq<Action>): Tale
    requires Legal(START, config, run)
  {
    ToldFrom(START, config, run, NOTHING)
  }

  // -------------------------------------------------- what each thing deserves

  /** The frame a message is sent as, when it is no recording. */
  function Direct(m: Message): seq<WireFrame> {
    match m
    case Text(payload) => [Payload(payload)]
    case Event(e) =>
      match e.kind
      case Started => [AudioStart(e.sequence)]
      case TransmissionReady => []
      case Cancelled => [AudioCancel(e.sequence)]
      case Ignored => []
      case Error => if e.sequence == 0 then [] else [AudioCancel(e.sequence)]
  }

  function DirectFrames(ms: seq<Message>): seq<WireFrame> {
    if ms == [] then [] else DirectFrames(ms[..|ms| - 1]) + Direct(ms[|ms| - 1])
  }

  predicate IsReady(m: Message) {
    m.Event? && m.event.kind.TransmissionReady?
  }

  function RecordingIn(m: Message): seq<PttEvent> {
    if IsReady(m) then [m.event] else []
  }

  function ReadyIn(ms: seq<Message>): seq<PttEvent> {
    if ms == [] then []
    else ReadyIn(ms[..|ms| - 1]) + RecordingIn(ms[|ms| - 1])
  }

  function Cancels(es: seq<PttEvent>): (fs: seq<WireFrame>)
    ensures |fs| == |es| && forall i :: 0 <= i < |fs| ==> fs[i] == AudioCancel(es[i].sequence)
  {
    seq(|es|, i requires 0 <= i < |es| => AudioCancel(es[i].sequence))
  }

  /** A recording that was heard is sent as its transcript, one that was not as a cancel. */
  function AnswerFrame(a: Answer): WireFrame {
    if a.ok then Transcript(a.turn.sequence, a.turn.durationMs) else AudioCancel(a.turn.sequence)
  }

  function AnswerFrames(heard: seq<Answer>): (fs: seq<WireFrame>)
    ensures |fs| == |heard| && forall i :: 0 <= i < |fs| ==> fs[i] == AnswerFrame(heard[i])
  {
    seq(|heard|, i requires 0 <= i < |heard| => AnswerFrame(heard[i]))
  }

  function Turns(heard: seq<Answer>): (es: seq<PttEvent>)
    ensures |es| == |heard| && forall i :: 0 <= i < |es| ==> es[i] == heard[i].turn
  {
    seq(|heard|, i requires 0 <= i < |heard| => heard[i].turn)
  }

  /** Everything a tale says must be sent. */
  function Owed(told: Tale): multiset<WireFrame> {
    multiset(DirectFrames(told.taken)) + multiset(Cancels(told.refused)) + multiset(AnswerFrames(told.heard))
  }

  // ---------------------------------------------------------- what is kept

  function WorkerHand(s: Sink): seq<WireFrame> {
    if s.worker.Sending? then [s.worker.frame] else []
  }

  function RecogniserHand(s: Sink): seq<WireFrame> {
    if s.recogniser.Answering? then [s.recogniser.frame] else []
  }

  function BeingRouted(s: Sink): seq<PttEvent> {
    if s.worker.Routing? then [s.worker.turn] else []
  }

  function BeingHeard(s: Sink): seq<PttEvent> {
    if s.recogniser.Hearing? then [s.recogniser.turn] else []
  }

  /** Every frame owed is on the wire or in a worker's hand, and no other. */
  predicate FramesFit(s: Sink, told: Tale) {
    multiset(s.wire) + multiset(WorkerHand(s)) + multiset(RecogniserHand(s)) == Owed(told)
  }

  /** The recogniser hears what was listed, in that order. */
  predicate HearingFits(s: Sink, told: Tale) {
    told.listed == Turns(told.heard) + BeingHeard(s) + s.transcriptions
  }

  /** Every recording taken from the queue is being routed, was listed, or was refused. */
  predicate RecordingsFit(s: Sink, told: Tale) {
    multiset(ReadyIn(told.taken)) == multiset(BeingRouted(s)) + multiset(told.listed) + multiset(told.refused)
  }

  predicate MessagesFit(s: Sink, told: Tale) {
    multiset(s.accepted) == multiset(s.queue) + multiset(s.lost) + multiset(told.taken)
  }

  predicate Kept(s: Sink, told: Tale) {
    FramesFit(s, told) && HearingFits(s, told) && RecordingsFit(s, told) && MessagesFit(s, told)
  }

  // --- the frames

  lemma TakenMore(told: seq<Message>, m: Message)
    ensures DirectFrames(told + [m]) == DirectFrames(told) + Direct(m)
    ensures ReadyIn(told + [m]) == ReadyIn(told) + RecordingIn(m)
  {
    assert (told + [m])[..|told|] == told;
  }

  lemma TakenIsOwed(told: Tale, m: Message)
    ensures Owed(told.(taken := told.taken + [m])) == Owed(told) + multiset(Direct(m))
  {
    TakenMore(told.taken, m);
  }

  lemma RefusedIsOwed(told: Tale, turn: PttEvent)
    ensures Owed(told.(refused := told.refused + [turn])) == Owed(told) + multiset([AudioCancel(turn.sequence)])
  {
    assert Cancels(told.refused + [turn]) == Cancels(told.refused) + [AudioCancel(turn.sequence)];
  }

  lemma HeardIsOwed(told: Tale, a: Answer)
    ensures Owed(told.(heard := told.heard + [a])) == Owed(told) + multiset([AnswerFrame(a)])
  {
    assert AnswerFrames(told.heard + [a]) == AnswerFrames(told.heard) + [AnswerFrame(a)];
  }

  lemma DispatchedIsDirect(m: Message)
    ensures (if Dispatched(m).Sending? then [Dispatched(m).frame] else []) == Direct(m)
  {}

  lemma TakeKeepsFrames(s: Sink, told: Tale)
    requires FramesFit(s, told) && Enabled(s, WorkerTake)
    ensures FramesFit(Next(s, WorkerTake), Note(s, told, Internal(WorkerTake)))
  {
    TakenIsOwed(told, s.queue[0]);
    HandIsFilled(s);
    FilledHandFits(s, Next(s, WorkerTake), told, Note(s, told, Internal(WorkerTake)));
  }

  lemma HandIsFilled(s: Sink)
    requires Enabled(s, WorkerTake)
    ensures var t := Next(s, WorkerTake);
            && t.wire == s.wire && RecogniserHand(t) == RecogniserHand(s)
            && WorkerHand(s) == [] && WorkerHand(t) == Direct(s.queue[0])
  {
    DispatchedIsDirect(s.queue[0]);
  }

  lemma FilledHandFits(s: Sink, t: Sink, told: Tale, now: Tale)
    requires FramesFit(s, told) && t.wire == s.wire && RecogniserHand(t) == RecogniserHand(s) && WorkerHand(s) == []
    requires Owed(now) == Owed(told) + multiset(WorkerHand(t))
    ensures FramesFit(t, now)
  {}

  lemma TranscribeKeepsFrames(s: Sink, told: Tale)
    requires FramesFit(s, told) && Enabled(s, WorkerTranscribe)
    ensures FramesFit(Next(s, WorkerTranscribe), Note(s, told, Internal(WorkerTranscribe)))
  {
    RefusedIsOwed(told, s.worker.turn);
  }

  lemma HearKeepsFrames(s: Sink, ok: bool, told: Tale)
    requires FramesFit(s, told) && Enabled(s, RecogniserHear(ok))
    ensures FramesFit(Next(s, RecogniserHear(ok)), Note(s, told, Internal(RecogniserHear(ok))))
  {
    HeardIsOwed(told, Answer(s.recogniser.turn, ok));
  }

  lemma StepKeepsFrames(s: Sink, step: Step, told: Tale)
    requires FramesFit(s, told) && Enabled(s, step) && !step.Publish?
    ensures FramesFit(Next(s, step), Note(s, told, Internal(step)))
  {
    if step.WorkerTake? {
      TakeKeepsFrames(s, told);
    } else if step.WorkerTranscribe? {
      TranscribeKeepsFrames(s, told);
    } else if step.RecogniserHear? {
      HearKeepsFrames(s, step.ok, told);
    } else if step.WorkerSend? || step.RecogniserSend? {
      SendKeepsFrames(s, step, told);
    } else {
      OthersKeepFrames(s, step, told);
    }
  }

  lemma OthersKeepFrames(s: Sink, step: Step, told: Tale)
    requires FramesFit(s, told) && Enabled(s, step)
    requires step.Stop? || step.SetTranscriber? || step.WorkerExit? || step.RecogniserTake? || step.RecogniserExit?
    ensures FramesFit(Next(s, step), told)
  {
    HandsStay(s, step);
    SameFrames(s, Next(s, step), told);
  }

  lemma HandsStay(s: Sink, step: Step)
    requires Enabled(s, step)
    requires step.Stop? || step.SetTranscriber? || step.WorkerExit? || step.RecogniserTake? || step.RecogniserExit?
    ensures var t := Next(s, step);
            && t.wire == s.wire && WorkerHand(t) == WorkerHand(s) && RecogniserHand(t) == RecogniserHand(s)
            && BeingRouted(t) == BeingRouted(s)
  {}

  lemma SendKeepsFrames(s: Sink, step: Step, told: Tale)
    requires FramesFit(s, told) && Enabled(s, step) && (step.WorkerSend? || step.RecogniserSend?)
    ensures FramesFit(Next(s, step), told)
  {}

  lemma SameFrames(s: Sink, t: Sink, told: Tale)
    requires FramesFit(s, told)
    requires t.wire == s.wire && WorkerHand(t) == WorkerHand(s) && RecogniserHand(t) == RecogniserHand(s)
    ensures FramesFit(t, told)
  {}

  // --- the recordings

  lemma StepKeepsHearing(s: Sink, step: Step, told: Tale)
    requires HearingFits(s, told) && Enabled(s, step) && !step.Publish?
    ensures HearingFits(Next(s, step), Note(s, told, Internal(step)))
  {
    match step
    case RecogniserTake => assert s.transcriptions == [s.transcriptions[0]] + s.transcriptions[1..];
    case RecogniserHear(ok) =>
      var a := Answer(s.recogniser.turn, ok);
      assert Turns(told.heard + [a]) == Turns(told.heard) + [a.turn];
    case _ =>
  }

  lemma TakeKeepsRecordings(s: Sink, told: Tale)
    requires RecordingsFit(s, told) && Enabled(s, WorkerTake)
    ensures RecordingsFit(Next(s, WorkerTake), Note(s, told, Internal(WorkerTake)))
  {
    var m := s.queue[0];
    TakenMore(told.taken, m);
    DispatchedIsRecording(m);
    OneMoreRecording(ReadyIn(told.taken), BeingRouted(s), RecordingIn(m), told.listed, told.refused);
  }

  lemma DispatchedIsRecording(m: Message)
    ensures (if Dispatched(m).Routing? then [Dispatched(m).turn] else []) == RecordingIn(m)
  {}

  lemma OneMoreRecording(
    ready: seq<PttEvent>, none: seq<PttEvent>, routed: seq<PttEvent>, listed: seq<PttEvent>, refused: seq<PttEvent>)
    requires none == [] && multiset(ready) == multiset(none) + multiset(listed) + multiset(refused)
    ensures multiset(ready + routed) == multiset(routed) + multiset(listed) + multiset(refused)
  {}

  lemma TranscribeKeepsRecordings(s: Sink, told: Tale)
    requires RecordingsFit(s, told) && Enabled(s, WorkerTranscribe)
    ensures RecordingsFit(Next(s, WorkerTranscribe), Note(s, told, Internal(WorkerTranscribe)))
  {
    var turn := s.worker.turn;
    assert BeingRouted(s) == [turn] && BeingRouted(Next(s, WorkerTranscribe)) == [];
  }

  lemma SameRecordings(s: Sink, t: Sink, told: Tale, now: Tale)
    requires RecordingsFit(s, told) && BeingRouted(t) == BeingRouted(s)
    requires now.taken == told.taken && now.listed == told.listed && now.refused == told.refused
    ensures RecordingsFit(t, now)
  {}

  lemma StepKeepsRecordings(s: Sink, step: Step, told: Tale)
    requires RecordingsFit(s, told) && Enabled(s, step) && !step.Publish?
    ensures RecordingsFit(Next(s, step), Note(s, told, Internal(step)))
  {
    if step.WorkerTake? {
      TakeKeepsRecordings(s, told);
    } else if step.WorkerTranscribe? {
      TranscribeKeepsRecordings(s, told);
    } else {
      SameRecordings(s, Next(s, step), told, Note(s, told, Internal(step)));
    }
  }

  // --- the messages

  lemma AcceptKeepsMessages(s: Sink, m: Message, told: Tale)
    requires MessagesFit(s, told)
    ensures MessagesFit(Accept(s, m), told)
  {
    var excess := if |s.queue| >= MAX_QUEUED_MESSAGES then |s.queue| + 1 - MAX_QUEUED_MESSAGES else 0;
    assert s.queue == s.queue[..excess] + s.queue[excess..];
  }

  lemma StepKeepsMessages(s: Sink, step: Step, told: Tale)
    requires MessagesFit(s, told) && Enabled(s, step) && !step.Publish?
    ensures MessagesFit(Next(s, step), Note(s, told, Internal(step)))
  {
    if step.WorkerTake? {
      TakeKeepsMessages(s, told);
    }
  }

  lemma TakeKeepsMessages(s: Sink, told: Tale)
    requires MessagesFit(s, told) && Enabled(s, WorkerTake)
    ensures MessagesFit(Next(s, WorkerTake), Note(s, told, Internal(WorkerTake)))
  {
    assert s.queue == [s.queue[0]] + s.queue[1..];
  }

  // --- together

  lemma AcceptKeeps(s: Sink, m: Message, told: Tale)
    requires Kept(s, told)
    ensures Kept(Accept(s, m), told)
  {
    AcceptKeepsMessages(s, m, told);
  }

  lemma StepKeeps(s: Sink, step: Step, told: Tale)
    requires Kept(s, told) && Enabled(s, step) && !step.Publish?
    ensures Kept(Next(s, step), Note(s, told, Internal(step)))
  {
    StepKeepsFrames(s, step, told);
    StepKeepsHearing(s, step, told);
    StepKeepsRecordings(s, step, told);
    StepKeepsMessages(s, step, told);
  }

  // What was accepted of the pilot's events is what was published.

  ghost predicate FromPublished(sys: System) {
    forall e :: Event(e) in sys.sink.accepted ==> Event(e) in sys.published
  }

  lemma PilotKeeps(sys: System, config: Config, command: Command, told: Tale)
    requires Kept(sys.sink, told) && FromPublished(sys)
    ensures var next := Act(sys, config, Pilot(command)); Kept(next.sink, told) && FromPublished(next)
  {
    OneEach(sys.controller, config, command);
    PublishedKeeps(sys, Obey(sys.controller, config, command), told);
  }

  lemma OneEach(c: Controller, config: Config, command: Command)
    ensures |Obey(c, config, command).published| <= 1
  {}

  lemma PublishKeeps(s: Sink, m: Message, told: Tale)
    requires Kept(s, told)
    ensures Kept(Next(s, Publish(m)), told)
    ensures forall other :: other in Next(s, Publish(m)).accepted ==> other in s.accepted || other == m
  {
    if !s.stopping {
      AcceptKeeps(s, m, told);
    }
  }

  lemma PublishedKeeps(sys: System, outcome: Outcome, told: Tale)
    requires Kept(sys.sink, told) && FromPublished(sys) && |outcome.published| <= 1
    ensures var next := System(outcome.next, sys.published + Messages(outcome.published),
                               PublishAll(sys.sink, outcome.published));
            Kept(next.sink, told) && FromPublished(next)
  {
    if outcome.published != [] {
      var m := Event(outcome.published[0]);
      assert Messages(outcome.published) == [m];
      OnePublished(sys.sink, outcome.published);
      PublishKeeps(sys.sink, m, told);
    } else {
      assert sys.published + Messages([]) == sys.published;
    }
  }

  lemma SayKeeps(sys: System, config: Config, payload: string, told: Tale)
    requires Kept(sys.sink, told) && FromPublished(sys)
    ensures var next := Act(sys, config, Say(payload)); Kept(next.sink, told) && FromPublished(next)
  {
    PublishKeeps(sys.sink, Text(payload), told);
  }

  lemma InternalKeeps(sys: System, config: Config, step: Step, told: Tale)
    requires Kept(sys.sink, told) && FromPublished(sys) && Enabled(sys.sink, step) && !step.Publish?
    ensures var next := Act(sys, config, Internal(step));
            Kept(next.sink, Note(sys.sink, told, Internal(step))) && FromPublished(next)
  {
    StepKeeps(sys.sink, step, told);
    NothingIsAccepted(sys.sink, step);
  }

  lemma NothingIsAccepted(s: Sink, step: Step)
    requires Enabled(s, step) && !step.Publish?
    ensures Next(s, step).accepted == s.accepted
  {}

  lemma ActionKeeps(sys: System, config: Config, action: Action, told: Tale)
    requires Kept(sys.sink, told) && FromPublished(sys) && Allowed(sys, action)
    ensures var next := Act(sys, config, action); Kept(next.sink, Note(sys.sink, told, action)) && FromPublished(next)
  {
    if action.Pilot? {
      PilotKeeps(sys, config, action.command, told);
    } else if action.Say? {
      SayKeeps(sys, config, action.payload, told);
    } else {
      InternalKeeps(sys, config, action.step, told);
    }
  }

  lemma {:induction false} RunKeepsFrom(sys: System, config: Config, run: seq<Action>, told: Tale)
    requires Kept(sys.sink, told) && FromPublished(sys) && Legal(sys, config, run)
    ensures Kept(After(sys, config, run).sink, ToldFrom(sys, config, run, told))
    ensures FromPublished(After(sys, config, run))
    decreases |run|
  {
    if run != [] {
      ActionKeeps(sys, config, run[0], told);
      RunKeepsFrom(Act(sys, config, run[0]), config, run[1..], Note(sys.sink, told, run[0]));
    }
  }

  lemma RunKeeps(config: Config, run: seq<Action>)
    requires Legal(START, config, run)
    ensures Kept(After(START, config, run).sink, Told(config, run)) && FromPublished(After(START, config, run))
  {
    RunKeepsFrom(START, config, run, NOTHING);
  }

  // ------------------------------------------------------------- who is told

  /** What ends a turn: the one event that is published of its end. */
  predicate Ends(e: PttEvent, turn: nat) {
    e.sequence == turn && turn != 0 && (e.kind.TransmissionReady? || e.kind.Cancelled? || e.kind.Error?)
  }

  lemma EndIsClose(e: PttEvent, turn: nat)
    requires turn != 0
    ensures Ends(e, turn) <==> EventToken(e) == [Closes(turn)]
  {}

  lemma {:induction false} AtMostAsOften(ms: seq<Message>, m: Message, t: Token)
    requires MessageToken(m) == [t]
    ensures multiset(ms)[m] <= InMessages(ms, t)
  {
    if ms != [] {
      AtMostAsOften(ms[1..], m, t);
      assert ms == [ms[0]] + ms[1..];
      InMessagesJoin([ms[0]], ms[1..], t);
      OneMessage(ms[0], t);
    }
  }

  lemma {:induction false} OnlyOne(ms: seq<Message>, m: Message, other: Message, t: Token)
    requires m in ms && other in ms && MessageToken(m) == [t] && MessageToken(other) == [t] && InMessages(ms, t) <= 1
    ensures m == other
  {
    assert ms == [ms[0]] + ms[1..];
    InMessagesJoin([ms[0]], ms[1..], t);
    OneMessage(ms[0], t);
    if m in ms[1..] && other in ms[1..] {
      OnlyOne(ms[1..], m, other, t);
    } else {
      AtMostAsOften(ms[1..], m, t);
      AtMostAsOften(ms[1..], other, t);
    }
  }

  lemma {:induction false} SomeMessage(ms: seq<Message>, turn: nat) returns (e: PttEvent)
    requires InMessages(ms, Closes(turn)) > 0
    ensures Event(e) in ms && EventToken(e) == [Closes(turn)]
  {
    assert ms == [ms[0]] + ms[1..];
    InMessagesJoin([ms[0]], ms[1..], Closes(turn));
    OneMessage(ms[0], Closes(turn));
    if MessageToken(ms[0]) == [Closes(turn)] {
      e := ms[0].event;
    } else {
      e := SomeMessage(ms[1..], turn);
    }
  }

  lemma TakenWasAccepted(s: Sink, told: Tale, m: Message)
    requires MessagesFit(s, told)
    ensures m in told.taken ==> m in s.accepted
    ensures m in s.accepted ==> m in told.taken || m in s.lost || m in s.queue
    ensures multiset(told.taken)[m] <= multiset(s.accepted)[m]
  {
    assert m in s.accepted <==> m in multiset(s.accepted);
    assert m in told.taken <==> m in multiset(told.taken);
    assert m in s.lost <==> m in multiset(s.lost);
    assert m in s.queue <==> m in multiset(s.queue);
  }

  lemma {:induction false} ReadyAsOften(ms: seq<Message>, e: PttEvent)
    ensures multiset(ReadyIn(ms))[e] == if e.kind.TransmissionReady? then multiset(ms)[Event(e)] else 0
  {
    if ms != [] {
      assert ms == ms[..|ms| - 1] + [ms[|ms| - 1]];
      ReadyAsOften(ms[..|ms| - 1], e);
      TakenMore(ms[..|ms| - 1], ms[|ms| - 1]);
    }
  }

  lemma RecordingWasTaken(s: Sink, told: Tale, e: PttEvent)
    requires RecordingsFit(s, told) && (e in told.listed || e in told.refused)
    ensures e.kind.TransmissionReady? && Event(e) in told.taken
  {
    assert e in multiset(told.listed) || e in multiset(told.refused);
    assert e in multiset(ReadyIn(told.taken));
    ReadyAsOften(told.taken, e);
    assert Event(e) in multiset(told.taken);
  }

  lemma HeardWasListed(s: Sink, told: Tale, a: Answer)
    requires HearingFits(s, told) && a in told.heard
    ensures a.turn in told.listed
  {
    var i :| 0 <= i < |told.heard| && told.heard[i] == a;
    assert told.listed[i] == a.turn;
  }

  lemma {:induction false} DirectFrom(ms: seq<Message>, f: WireFrame) returns (m: Message)
    requires f in DirectFrames(ms)
    ensures m in ms && f in Direct(m)
  {
    var last := ms[|ms| - 1];
    if f in Direct(last) {
      m := last;
    } else {
      m := DirectFrom(ms[..|ms| - 1], f);
    }
  }

  lemma {:induction false} DirectIn(ms: seq<Message>, m: Message, f: WireFrame)
    requires m in ms && f in Direct(m)
    ensures f in DirectFrames(ms)
  {
    if m != ms[|ms| - 1] {
      assert m in ms[..|ms| - 1];
      DirectIn(ms[..|ms| - 1], m, f);
    }
  }

  /** Where a frame on the wire came from: a message, a refusal, or an answer of the recogniser. */
  lemma FrameIsOwed(s: Sink, told: Tale, f: WireFrame)
    requires FramesFit(s, told) && f in s.wire
    ensures f in DirectFrames(told.taken) || f in Cancels(told.refused) || f in AnswerFrames(told.heard)
  {
    assert f in multiset(s.wire);
    assert f in Owed(told);
  }

  lemma OwedIsSent(s: Sink, told: Tale, f: WireFrame)
    requires FramesFit(s, told) && WorkerHand(s) == [] && RecogniserHand(s) == []
    requires f in DirectFrames(told.taken) || f in Cancels(told.refused) || f in AnswerFrames(told.heard)
    ensures f in s.wire
  {
    assert f in Owed(told);
    assert f in multiset(s.wire);
  }

  /** A transcript goes out only for a recording the recogniser was given and heard,
      of a turn that was published as ready, and carries how long that was. */
  lemma TranscriptsWereHeard(config: Config, run: seq<Action>, turn: nat, duration: nat) returns (e: PttEvent)
    requires Legal(START, config, run) && Transcript(turn, duration) in After(START, config, run).sink.wire
    ensures Answer(e, true) in Told(config, run).heard
    ensures Event(e) in After(START, config, run).published
    ensures e.kind.TransmissionReady? && e.sequence == turn && e.durationMs == duration
  {
    var sys, told := After(START, config, run), Told(config, run);
    RunKeeps(config, run);
    var a := TranscriptIsAnswer(sys.sink, told, Transcript(turn, duration));
    HeardWasListed(sys.sink, told, a);
    RecordingWasTaken(sys.sink, told, a.turn);
    TakenWasAccepted(sys.sink, told, Event(a.turn));
    assert a == Answer(a.turn, true);
    e := a.turn;
  }

  /** Nothing waits, nothing is held. */
  predicate AllDone(s: Sink) {
    && WorkersGone(s) && s.queue == [] && s.transcriptions == []
  }

  /** The one end of a turn that was accepted, and was taken from the queue. */
  predicate TheEnd(s: Sink, told: Tale, e: PttEvent, turn: nat) {
    && Ends(e, turn) && Event(e) in told.taken && InMessages(s.accepted, Closes(turn)) == 1
  }

  lemma OtherIsTheSame(s: Sink, told: Tale, e: PttEvent, other: PttEvent, turn: nat)
    requires MessagesFit(s, told) && TheEnd(s, told, e, turn) && Event(other) in told.taken && Ends(other, turn)
    ensures other == e
  {
    TakenWasAccepted(s, told, Event(e));
    TakenWasAccepted(s, told, Event(other));
    EndIsClose(e, turn);
    EndIsClose(other, turn);
    OnlyOne(s.accepted, Event(e), Event(other), Closes(turn));
  }

  lemma TakenOnce(s: Sink, told: Tale, e: PttEvent, turn: nat)
    requires MessagesFit(s, told) && TheEnd(s, told, e, turn)
    ensures multiset(told.taken)[Event(e)] == 1
  {
    EndIsClose(e, turn);
    AtMostAsOften(s.accepted, Event(e), Closes(turn));
    TakenWasAccepted(s, told, Event(e));
    assert Event(e) in multiset(told.taken);
  }

  /** A recording is listed or refused, once; nothing else is. */
  lemma ListedOrRefused(s: Sink, told: Tale, e: PttEvent, turn: nat)
    requires MessagesFit(s, told) && RecordingsFit(s, told) && AllDone(s) && TheEnd(s, told, e, turn)
    ensures multiset(told.listed)[e] + multiset(told.refused)[e] == if e.kind.TransmissionReady? then 1 else 0
  {
    TakenOnce(s, told, e, turn);
    ReadyAsOften(told.taken, e);
  }

  lemma {:induction false} AnsweredAsOften(heard: seq<Answer>, e: PttEvent)
    ensures multiset(Turns(heard))[e] == multiset(heard)[Answer(e, true)] + multiset(heard)[Answer(e, false)]
  {
    if heard != [] {
      AnsweredAsOften(heard[1..], e);
      assert Turns(heard)[1..] == Turns(heard[1..]) && heard[0] == Answer(heard[0].turn, heard[0].ok);
      OneAndOthers(Turns(heard), e);
      OneAndOthers(heard, Answer(e, true));
      OneAndOthers(heard, Answer(e, false));
    }
  }

  lemma OneAndOthers<T>(xs: seq<T>, y: T)
    requires xs != []
    ensures multiset(xs)[y] == (if xs[0] == y then 1 else 0) + multiset(xs[1..])[y]
  {
    assert xs == [xs[0]] + xs[1..];
  }

  /** A recording that was listed is answered, once. */
  lemma ListedIsAnswered(s: Sink, told: Tale, e: PttEvent)
    requires HearingFits(s, told) && AllDone(s)
    ensures multiset(told.listed)[e] == multiset(told.heard)[Answer(e, true)] + multiset(told.heard)[Answer(e, false)]
  {
    AnsweredAsOften(told.heard, e);
    assert told.listed == Turns(told.heard);
  }

  lemma NoTranscriptIsDirect(ms: seq<Message>, f: WireFrame)
    requires f.Transcript?
    ensures f !in DirectFrames(ms)
  {
    if f in DirectFrames(ms) {
      var m := DirectFrom(ms, f);
      assert false;
    }
  }

  lemma TranscriptIsAnswer(s: Sink, told: Tale, f: WireFrame) returns (a: Answer)
    requires FramesFit(s, told) && f in s.wire && f.Transcript?
    ensures a in told.heard && AnswerFrame(a) == f
  {
    FrameIsOwed(s, told, f);
    NoTranscriptIsDirect(told.taken, f);
    var i :| 0 <= i < |told.heard| && AnswerFrame(told.heard[i]) == f;
    a := told.heard[i];
  }

  lemma TranscriptWasHeard(s: Sink, told: Tale, e: PttEvent, turn: nat, duration: nat)
    requires Kept(s, told) && TheEnd(s, told, e, turn) && Transcript(turn, duration) in s.wire
    ensures Answer(e, true) in told.heard && duration == e.durationMs
  {
    var f := Transcript(turn, duration);
    var a := TranscriptIsAnswer(s, told, f);
    AnsweredIsTheEnd(s, told, e, turn, a);
  }

  lemma HeardIsSent(s: Sink, told: Tale, e: PttEvent)
    requires FramesFit(s, told) && AllDone(s) && Answer(e, true) in told.heard
    ensures Transcript(e.sequence, e.durationMs) in s.wire
  {
    var i :| 0 <= i < |told.heard| && told.heard[i] == Answer(e, true);
    assert AnswerFrames(told.heard)[i] == Transcript(e.sequence, e.durationMs);
    OwedIsSent(s, told, Transcript(e.sequence, e.durationMs));
  }

  lemma TranscriptIsItsOwn(s: Sink, told: Tale, e: PttEvent, turn: nat, duration: nat)
    requires Kept(s, told) && AllDone(s) && TheEnd(s, told, e, turn)
    ensures Transcript(turn, duration) in s.wire <==> Answer(e, true) in told.heard && duration == e.durationMs
  {
    if Transcript(turn, duration) in s.wire {
      TranscriptWasHeard(s, told, e, turn, duration);
    }
    if Answer(e, true) in told.heard {
      HeardIsSent(s, told, e);
    }
  }

  lemma AnsweredIsTheEnd(s: Sink, told: Tale, e: PttEvent, turn: nat, a: Answer)
    requires MessagesFit(s, told) && RecordingsFit(s, told) && HearingFits(s, told) && TheEnd(s, told, e, turn)
    requires a in told.heard && a.turn.sequence == turn
    ensures a.turn == e && e in told.listed
  {
    HeardWasListed(s, told, a);
    RecordingWasTaken(s, told, a.turn);
    OtherIsTheSame(s, told, e, a.turn, turn);
  }

  lemma RefusedIsUnheard(s: Sink, told: Tale, e: PttEvent, turn: nat)
    requires Kept(s, told) && AllDone(s) && TheEnd(s, told, e, turn) && AudioCancel(turn) in Cancels(told.refused)
    ensures Answer(e, true) !in told.heard
  {
    var i :| 0 <= i < |told.refused| && Cancels(told.refused)[i] == AudioCancel(turn);
    RecordingWasTaken(s, told, told.refused[i]);
    OtherIsTheSame(s, told, e, told.refused[i], turn);
    ListedOrRefused(s, told, e, turn);
    ListedIsAnswered(s, told, e);
    assert e in multiset(told.refused);
  }

  lemma MisheardIsUnheard(s: Sink, told: Tale, e: PttEvent, turn: nat)
    requires Kept(s, told) && AllDone(s) && TheEnd(s, told, e, turn) && AudioCancel(turn) in AnswerFrames(told.heard)
    ensures Answer(e, true) !in told.heard
  {
    var i :| 0 <= i < |told.heard| && AnswerFrame(told.heard[i]) == AudioCancel(turn);
    AnsweredIsTheEnd(s, told, e, turn, told.heard[i]);
    ListedOrRefused(s, told, e, turn);
    ListedIsAnswered(s, told, e);
    assert Answer(e, false) in multiset(told.heard);
  }

  lemma OnlyRecordingsAreHeard(s: Sink, told: Tale, e: PttEvent, turn: nat)
    requires Kept(s, told) && AllDone(s) && TheEnd(s, told, e, turn) && AudioCancel(turn) in DirectFrames(told.taken)
    ensures Answer(e, true) !in told.heard
  {
    var m := DirectFrom(told.taken, AudioCancel(turn));
    OtherIsTheSame(s, told, e, m.event, turn);
    ListedOrRefused(s, told, e, turn);
    ListedIsAnswered(s, told, e);
  }

  lemma CancelMeansUnheard(s: Sink, told: Tale, e: PttEvent, turn: nat)
    requires Kept(s, told) && AllDone(s) && TheEnd(s, told, e, turn) && AudioCancel(turn) in s.wire
    ensures Answer(e, true) !in told.heard
  {
    FrameIsOwed(s, told, AudioCancel(turn));
    if AudioCancel(turn) in DirectFrames(told.taken) {
      OnlyRecordingsAreHeard(s, told, e, turn);
    } else if AudioCancel(turn) in Cancels(told.refused) {
      RefusedIsUnheard(s, told, e, turn);
    } else {
      MisheardIsUnheard(s, told, e, turn);
    }
  }

  lemma UnheardMeansCancel(s: Sink, told: Tale, e: PttEvent, turn: nat)
    requires Kept(s, told) && AllDone(s) && TheEnd(s, told, e, turn) && Answer(e, true) !in told.heard
    ensures AudioCancel(turn) in s.wire
  {
    var f := AudioCancel(turn);
    ListedOrRefused(s, told, e, turn);
    ListedIsAnswered(s, told, e);
    if !e.kind.TransmissionReady? {
      DirectIn(told.taken, Event(e), f);
    } else if e in told.refused {
      var i :| 0 <= i < |told.refused| && told.refused[i] == e;
      assert Cancels(told.refused)[i] == f;
    } else {
      assert e !in multiset(told.refused) && Answer(e, true) !in multiset(told.heard);
      assert Answer(e, false) in multiset(told.heard);
      var i :| 0 <= i < |told.heard| && told.heard[i] == Answer(e, false);
      assert AnswerFrames(told.heard)[i] == f;
    }
    OwedIsSent(s, told, f);
  }

  /** Which close a turn gets, once both workers are gone, if it had ended before
      the sink was told to stop and its end was not discarded. Its transcript, with
      its own duration, when the recogniser was given the recording and heard it;
      else a cancel: too short, recorder error, refused, or nothing heard. And a
      ready recording was either listed and answered, or refused. */
  lemma HowATurnIsClosed(config: Config, before: seq<Action>, after: seq<Action>, turn: nat) returns (e: PttEvent)
    requires Legal(START, config, before + after) && Legal(START, config, before)
    requires Ended(After(START, config, before).controller, turn) && !After(START, config, before).sink.stopping
    requires WorkersGone(After(START, config, before + after).sink)
    requires InMessages(After(START, config, before + after).sink.lost, Closes(turn)) == 0
    ensures Event(e) in After(START, config, before + after).published && Ends(e, turn)
    ensures var wire, told := After(START, config, before + after).sink.wire, Told(config, before + after);
            && (forall d :: Transcript(turn, d) in wire <==> Answer(e, true) in told.heard && d == e.durationMs)
            && (AudioCancel(turn) in wire <==> Answer(e, true) !in told.heard)
            && multiset(told.listed)[e] + multiset(told.refused)[e] == (if e.kind.TransmissionReady? then 1 else 0)
            && multiset(told.heard)[Answer(e, true)] + multiset(told.heard)[Answer(e, false)]
               == multiset(told.listed)[e]
  {
    var sys, told := After(START, config, before + after), Told(config, before + after);
    RunKeeps(config, before + after);
    e := EndWasTaken(config, before, after, turn);
    ListedOrRefused(sys.sink, told, e, turn);
    ListedIsAnswered(sys.sink, told, e);
    forall d
      ensures Transcript(turn, d) in sys.sink.wire <==> Answer(e, true) in told.heard && d == e.durationMs
    {
      TranscriptIsItsOwn(sys.sink, told, e, turn, d);
    }
    if AudioCancel(turn) in sys.sink.wire {
      CancelMeansUnheard(sys.sink, told, e, turn);
    }
    if Answer(e, true) !in told.heard {
      UnheardMeansCancel(sys.sink, told, e, turn);
    }
  }

  lemma EndWasTaken(config: Config, before: seq<Action>, after: seq<Action>, turn: nat) returns (e: PttEvent)
    requires Legal(START, config, before + after) && Legal(START, config, before)
    requires Ended(After(START, config, before).controller, turn) && !After(START, config, before).sink.stopping
    requires WorkersGone(After(START, config, before + after).sink)
    requires InMessages(After(START, config, before + after).sink.lost, Closes(turn)) == 0
    ensures AllDone(After(START, config, before + after).sink)
    ensures Event(e) in After(START, config, before + after).published
    ensures TheEnd(After(START, config, before + after).sink, Told(config, before + after), e, turn)
  {
    var sys, told := After(START, config, before + after), Told(config, before + after);
    RunKeeps(config, before + after);
    StartHoldsInv(turn);
    InvHolds(START, config, before, turn);
    InvHolds(START, config, before + after, turn);
    RunsJoin(START, config, before, after);
    AcceptedOnlyGrows(After(START, config, before), config, after, turn);
    e := SomeMessage(sys.sink.accepted, turn);
    EndIsClose(e, turn);
    TakenWasAccepted(sys.sink, told, Event(e));
    AtMostAsOften(sys.sink.lost, Event(e), Closes(turn));
    assert Event(e) in sys.sink.lost <==> Event(e) in multiset(sys.sink.lost);
  }
}
