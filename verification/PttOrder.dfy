// Everything the sink sends goes out in the order it was published in.
module PttOrder {
  import opened PushToTalk
  import opened PttTurns
  import opened PttAnswers

  /** One sequence comes out of the other by leaving some of it out. */
  predicate Within<T(==)>(a: seq<T>, b: seq<T>) {
    a == []
    || (b != [] && ((a[|a| - 1] == b[|b| - 1] && Within(a[..|a| - 1], b[..|b| - 1])) || Within(a, b[..|b| - 1])))
  }

  lemma WithinBoth<T>(a: seq<T>, b: seq<T>, x: T)
    requires Within(a, b)
    ensures Within(a + [x], b + [x])
  {
    assert (a + [x])[..|a|] == a && (b + [x])[..|b|] == b;
  }

  lemma {:induction false} WithinMore<T>(a: seq<T>, b: seq<T>, more: seq<T>)
    requires Within(a, b)
    ensures Within(a, b + more)
  {
    if more == [] {
      assert b + more == b;
    } else {
      WithinMore(a, b, more[..|more| - 1]);
      assert (b + more)[..|b + more| - 1] == b + more[..|more| - 1];
    }
  }

  /** Frames only the socket worker sends, straight from a message. */
  predicate IsPlain(f: WireFrame) {
    f.AudioStart? || f.Payload?
  }

  function Plains(fs: seq<WireFrame>): seq<WireFrame> {
    if fs == [] then []
    else Plains(fs[..|fs| - 1]) + if IsPlain(fs[|fs| - 1]) then [fs[|fs| - 1]] else []
  }

  function Transcripts(fs: seq<WireFrame>): seq<WireFrame> {
    if fs == [] then []
    else Transcripts(fs[..|fs| - 1]) + if fs[|fs| - 1].Transcript? then [fs[|fs| - 1]] else []
  }

  lemma OneFrameMore(fs: seq<WireFrame>, f: WireFrame)
    ensures Plains(fs + [f]) == Plains(fs) + if IsPlain(f) then [f] else []
    ensures Transcripts(fs + [f]) == Transcripts(fs) + if f.Transcript? then [f] else []
  {
    assert (fs + [f])[..|fs|] == fs;
  }

  lemma NoFrameMore(fs: seq<WireFrame>, none: seq<WireFrame>)
    requires none == []
    ensures fs + none == fs && Plains(none) == [] && Transcripts(none) == []
  {}

  lemma FramesMore(fs: seq<WireFrame>, hand: seq<WireFrame>)
    requires |hand| <= 1
    ensures Plains(fs + hand) == Plains(fs) + Plains(hand)
    ensures Transcripts(fs + hand) == Transcripts(fs) + Transcripts(hand)
  {
    if hand == [] {
      NoFrameMore(fs, hand);
    } else {
      OneInHand(hand, hand[0]);
      OneFrameMore(fs, hand[0]);
    }
  }

  lemma OneInHand(hand: seq<WireFrame>, f: WireFrame)
    requires |hand| == 1 && hand[0] == f
    ensures hand == [f]
    ensures Plains(hand) == if IsPlain(f) then [f] else []
    ensures Transcripts(hand) == if f.Transcript? then [f] else []
  {
    assert hand[..|hand| - 1] == [];
    NothingPlain(hand[..|hand| - 1]);
  }

  lemma NothingPlain(none: seq<WireFrame>)
    requires none == []
    ensures Plains(none) == [] && Transcripts(none) == []
  {}

  // ------------------------------------------------------------------ the laws

  /** The messages that wait are the newest accepted, and those taken are, in order, among the others. */
  predicate TakenInOrder(s: Sink, told: Tale) {
    && |s.queue| <= |s.accepted| && s.queue == s.accepted[|s.accepted| - |s.queue|..]
    && Within(told.taken, s.accepted[..|s.accepted| - |s.queue|])
  }

  /** Starts and texts go out as their messages were taken. */
  predicate PlainsInOrder(s: Sink, told: Tale) {
    && Plains(s.wire) + Plains(WorkerHand(s)) == Plains(DirectFrames(told.taken))
    && (s.recogniser.Answering? ==> !IsPlain(s.recogniser.frame))
  }

  /** Transcripts go out as their recordings were heard, and these were listed as they were taken. */
  predicate TranscriptsInOrder(s: Sink, told: Tale) {
    && Transcripts(s.wire) + Transcripts(RecogniserHand(s)) == Transcripts(AnswerFrames(told.heard))
    && (s.worker.Sending? ==> !s.worker.frame.Transcript?)
  }

  predicate ListedInOrder(s: Sink, told: Tale) {
    Within(told.listed + BeingRouted(s), ReadyIn(told.taken))
  }

  lemma AcceptKeepsTaking(s: Sink, m: Message, told: Tale)
    requires TakenInOrder(s, told)
    ensures TakenInOrder(Accept(s, m), told)
  {
    var t := Accept(s, m);
    var gone, more := s.accepted[..|s.accepted| - |s.queue|], s.queue[..|s.queue| + 1 - |t.queue|];
    assert t.accepted[..|t.accepted| - |t.queue|] == gone + more;
    WithinMore(told.taken, gone, more);
  }

  lemma StepKeepsTaking(s: Sink, step: Step, told: Tale)
    requires TakenInOrder(s, told) && Enabled(s, step) && !step.Publish?
    ensures TakenInOrder(Next(s, step), Note(s, told, Internal(step)))
  {
    if step.WorkerTake? {
      TakeKeepsTaking(s, told);
    } else {
      SameTaking(s, Next(s, step), told, Note(s, told, Internal(step)));
    }
  }

  lemma TakeKeepsTaking(s: Sink, told: Tale)
    requires TakenInOrder(s, told) && Enabled(s, WorkerTake)
    ensures TakenInOrder(Next(s, WorkerTake), Note(s, told, Internal(WorkerTake)))
  {
    FrontIsTaken(s.accepted, s.queue, told.taken);
  }

  lemma SameTaking(s: Sink, t: Sink, told: Tale, now: Tale)
    requires TakenInOrder(s, told) && t.queue == s.queue && t.accepted == s.accepted && now.taken == told.taken
    ensures TakenInOrder(t, now)
  {}

  lemma FrontIsTaken(accepted: seq<Message>, queue: seq<Message>, taken: seq<Message>)
    requires 0 < |queue| <= |accepted| && queue == accepted[|accepted| - |queue|..]
    requires Within(taken, accepted[..|accepted| - |queue|])
    ensures queue[1..] == accepted[|accepted| - |queue[1..]|..]
    ensures Within(taken + [queue[0]], accepted[..|accepted| - |queue[1..]|])
  {
    var gone := accepted[..|accepted| - |queue|];
    assert accepted[..|accepted| - |queue[1..]|] == gone + [queue[0]];
    WithinBoth(taken, gone, queue[0]);
  }

  lemma TakeKeepsPlains(s: Sink, told: Tale)
    requires PlainsInOrder(s, told) && Enabled(s, WorkerTake)
    ensures PlainsInOrder(Next(s, WorkerTake), Note(s, told, Internal(WorkerTake)))
  {
    var m := s.queue[0];
    TakenMore(told.taken, m);
    DispatchedIsDirect(m);
    PlainsMore(s.wire, DirectFrames(told.taken), WorkerHand(s), Direct(m));
  }

  lemma PlainsMore(wire: seq<WireFrame>, owed: seq<WireFrame>, none: seq<WireFrame>, hand: seq<WireFrame>)
    requires none == [] && |hand| <= 1 && Plains(wire) + Plains(none) == Plains(owed)
    ensures Plains(wire) + Plains(hand) == Plains(owed + hand)
  {
    FramesMore(owed, hand);
  }

  lemma StepKeepsPlains(s: Sink, step: Step, told: Tale)
    requires PlainsInOrder(s, told) && Enabled(s, step) && !step.Publish?
    ensures PlainsInOrder(Next(s, step), Note(s, told, Internal(step)))
  {
    if step.WorkerTake? {
      TakeKeepsPlains(s, told);
    } else if step.WorkerSend? || step.RecogniserSend? {
      SendKeepsPlains(s, step, told);
    } else {
      OthersKeepPlains(s, step, told);
    }
  }

  lemma FramesSent(wire: seq<WireFrame>, hand: seq<WireFrame>, none: seq<WireFrame>)
    requires |hand| <= 1 && none == []
    ensures Plains(wire + hand) + Plains(none) == Plains(wire) + Plains(hand)
    ensures Transcripts(wire + hand) + Transcripts(none) == Transcripts(wire) + Transcripts(hand)
  {
    FramesMore(wire, hand);
  }

  lemma SendKeepsPlains(s: Sink, step: Step, told: Tale)
    requires PlainsInOrder(s, told) && Enabled(s, step) && (step.WorkerSend? || step.RecogniserSend?)
    ensures PlainsInOrder(Next(s, step), told)
  {
    if step.WorkerSend? {
      FramesSent(s.wire, WorkerHand(s), WorkerHand(Next(s, step)));
    } else {
      OneFrameMore(s.wire, s.recogniser.frame);
    }
  }

  lemma OthersKeepPlains(s: Sink, step: Step, told: Tale)
    requires PlainsInOrder(s, told) && Enabled(s, step) && !step.Publish?
    requires !step.WorkerTake? && !step.WorkerSend? && !step.RecogniserSend?
    ensures PlainsInOrder(Next(s, step), Note(s, told, Internal(step)))
  {
    if step.WorkerTranscribe? {
      TranscribeKeepsPlains(s, told);
    } else if !step.RecogniserHear? {
      HandsStay(s, step);
    }
  }

  lemma TranscribeKeepsPlains(s: Sink, told: Tale)
    requires PlainsInOrder(s, told) && Enabled(s, WorkerTranscribe)
    ensures PlainsInOrder(Next(s, WorkerTranscribe), Note(s, told, Internal(WorkerTranscribe)))
  {
    CancelIsNotPlain(s.worker.turn.sequence);
    assert WorkerHand(s) == [];
  }

  lemma CancelIsNotPlain(turn: nat)
    ensures Plains([AudioCancel(turn)]) == []
  {
    OneFrameMore([], AudioCancel(turn));
    assert [] + [AudioCancel(turn)] == [AudioCancel(turn)];
  }

  lemma HearKeepsTranscripts(s: Sink, ok: bool, told: Tale)
    requires TranscriptsInOrder(s, told) && Enabled(s, RecogniserHear(ok))
    ensures TranscriptsInOrder(Next(s, RecogniserHear(ok)), Note(s, told, Internal(RecogniserHear(ok))))
  {
    var a := Answer(s.recogniser.turn, ok);
    assert AnswerFrames(told.heard + [a]) == AnswerFrames(told.heard) + [AnswerFrame(a)];
    TranscriptsMore(s.wire, AnswerFrames(told.heard), RecogniserHand(s), [AnswerFrame(a)]);
  }

  lemma TranscriptsMore(wire: seq<WireFrame>, owed: seq<WireFrame>, none: seq<WireFrame>, hand: seq<WireFrame>)
    requires none == [] && |hand| <= 1 && Transcripts(wire) + Transcripts(none) == Transcripts(owed)
    ensures Transcripts(wire) + Transcripts(hand) == Transcripts(owed + hand)
  {
    FramesMore(owed, hand);
  }

  lemma StepKeepsTranscripts(s: Sink, step: Step, told: Tale)
    requires TranscriptsInOrder(s, told) && Enabled(s, step) && !step.Publish?
    ensures TranscriptsInOrder(Next(s, step), Note(s, told, Internal(step)))
  {
    if step.RecogniserHear? {
      HearKeepsTranscripts(s, step.ok, told);
    } else if step.WorkerSend? || step.RecogniserSend? {
      SendKeepsTranscripts(s, step, told);
    }
  }

  lemma SendKeepsTranscripts(s: Sink, step: Step, told: Tale)
    requires TranscriptsInOrder(s, told) && Enabled(s, step) && (step.WorkerSend? || step.RecogniserSend?)
    ensures TranscriptsInOrder(Next(s, step), told)
  {
    if step.RecogniserSend? {
      FramesSent(s.wire, RecogniserHand(s), RecogniserHand(Next(s, step)));
    } else {
      OneFrameMore(s.wire, s.worker.frame);
    }
  }

  lemma StepKeepsListing(s: Sink, step: Step, told: Tale)
    requires ListedInOrder(s, told) && Enabled(s, step) && !step.Publish?
    ensures ListedInOrder(Next(s, step), Note(s, told, Internal(step)))
  {
    if step.WorkerTake? {
      TakeKeepsListing(s, told);
    } else if step.WorkerTranscribe? {
      TranscribeKeepsListing(s, told);
    } else {
      SameListing(s, Next(s, step), told, Note(s, told, Internal(step)));
    }
  }

  lemma TakeKeepsListing(s: Sink, told: Tale)
    requires ListedInOrder(s, told) && Enabled(s, WorkerTake)
    ensures ListedInOrder(Next(s, WorkerTake), Note(s, told, Internal(WorkerTake)))
  {
    var m := s.queue[0];
    TakenMore(told.taken, m);
    DispatchedIsRecording(m);
    ListedBefore(told.listed, BeingRouted(s), RecordingIn(m), ReadyIn(told.taken), ReadyIn(told.taken + [m]));
  }

  lemma TranscribeKeepsListing(s: Sink, told: Tale)
    requires ListedInOrder(s, told) && Enabled(s, WorkerTranscribe)
    ensures ListedInOrder(Next(s, WorkerTranscribe), Note(s, told, Internal(WorkerTranscribe)))
  {
    ListedAfter(told.listed, s.worker.turn, BeingRouted(Next(s, WorkerTranscribe)), ReadyIn(told.taken));
  }

  lemma SameListing(s: Sink, t: Sink, told: Tale, now: Tale)
    requires ListedInOrder(s, told)
    requires now.taken == told.taken && now.listed == told.listed && BeingRouted(t) == BeingRouted(s)
    ensures ListedInOrder(t, now)
  {}

  lemma ListedBefore(
    listed: seq<PttEvent>, none: seq<PttEvent>, routed: seq<PttEvent>, ready: seq<PttEvent>, more: seq<PttEvent>)
    requires none == [] && |routed| <= 1 && Within(listed + none, ready) && more == ready + routed
    ensures Within(listed + routed, more)
  {
    assert listed + none == listed;
    if routed == [] {
      assert listed + routed == listed && more == ready;
    } else {
      assert routed == [routed[0]];
      WithinBoth(listed, ready, routed[0]);
    }
  }

  lemma ListedAfter(listed: seq<PttEvent>, turn: PttEvent, none: seq<PttEvent>, ready: seq<PttEvent>)
    requires none == [] && Within(listed + [turn], ready)
    ensures Within(listed + [turn] + none, ready) && Within(listed + none, ready)
  {
    assert listed + [turn] + none == listed + [turn] && listed + none == listed;
    RefusedIsLeftOut(listed, turn, ready);
  }

  lemma {:induction false} RefusedIsLeftOut<T>(a: seq<T>, x: T, b: seq<T>)
    requires Within(a + [x], b)
    ensures Within(a, b)
  {
    assert (a + [x])[..|a|] == a;
    if Within(a + [x], b[..|b| - 1]) {
      RefusedIsLeftOut(a, x, b[..|b| - 1]);
    }
    assert Within(a, b[..|b| - 1]);
    assert b == b[..|b| - 1] + [b[|b| - 1]];
    WithinMore(a, b[..|b| - 1], [b[|b| - 1]]);
  }

  predicate InOrder(s: Sink, told: Tale) {
    TakenInOrder(s, told) && PlainsInOrder(s, told) && TranscriptsInOrder(s, told) && ListedInOrder(s, told)
  }

  lemma PublishKeeps(s: Sink, m: Message, told: Tale)
    requires InOrder(s, told)
    ensures InOrder(Next(s, Publish(m)), told)
  {
    if !s.stopping {
      AcceptKeepsTaking(s, m, told);
    }
  }

  lemma StepKeepsOrdered(s: Sink, step: Step, told: Tale)
    requires InOrder(s, told) && Enabled(s, step) && !step.Publish?
    ensures InOrder(Next(s, step), Note(s, told, Internal(step)))
  {
    StepKeepsTaking(s, step, told);
    StepKeepsPlains(s, step, told);
    StepKeepsTranscripts(s, step, told);
    StepKeepsListing(s, step, told);
  }

  lemma PilotKeepsOrdered(sys: System, config: Config, command: Command, told: Tale)
    requires InOrder(sys.sink, told)
    ensures InOrder(Act(sys, config, Pilot(command)).sink, told)
  {
    var events := Obey(sys.controller, config, command).published;
    OneEach(sys.controller, config, command);
    if events != [] {
      OnePublished(sys.sink, events);
      PublishKeeps(sys.sink, Event(events[0]), told);
    }
  }

  lemma ActionKeepsOrdered(sys: System, config: Config, action: Action, told: Tale)
    requires InOrder(sys.sink, told) && Allowed(sys, action)
    ensures InOrder(Act(sys, config, action).sink, Note(sys.sink, told, action))
  {
    if action.Pilot? {
      PilotKeepsOrdered(sys, config, action.command, told);
    } else if action.Say? {
      PublishKeeps(sys.sink, Text(action.payload), told);
    } else {
      StepKeepsOrdered(sys.sink, action.step, told);
    }
  }

  lemma {:induction false} RunKeepsOrdered(sys: System, config: Config, run: seq<Action>, told: Tale)
    requires InOrder(sys.sink, told) && Legal(sys, config, run)
    ensures InOrder(After(sys, config, run).sink, ToldFrom(sys, config, run, told))
    decreases |run|
  {
    if run != [] {
      ActionKeepsOrdered(sys, config, run[0], told);
      RunKeepsOrdered(Act(sys, config, run[0]), config, run[1..], Note(sys.sink, told, run[0]));
    }
  }

  /** In every run: messages are taken in the order they were accepted in, the
      newest still waiting; starts and texts are on the wire in the order they were
      taken in, and transcripts in the order of their recordings. */
  lemma WireIsInOrder(config: Config, run: seq<Action>)
    requires Legal(START, config, run)
    ensures InOrder(After(START, config, run).sink, Told(config, run))
  {
    NothingIsInOrder(START.sink, NOTHING);
    RunKeepsOrdered(START, config, run, NOTHING);
  }

  lemma NothingIsInOrder(s: Sink, told: Tale)
    requires s == NEW_SINK && told == NOTHING
    ensures InOrder(s, told)
  {}

  lemma RoomKeepsAll(s: Sink, m: Message)
    requires |s.queue| < 256
    ensures Accept(s, m) == s.(queue := s.queue + [m], accepted := s.accepted + [m])
  {
    assert s.queue[0..] == s.queue && s.queue[..0] == [];
    assert s.lost + [] == s.lost;
  }

  lemma FullLosesTheFirst(s: Sink, m: Message)
    requires |s.queue| == 256
    ensures Accept(s, m) == s.(queue := s.queue[1..] + [m], accepted := s.accepted + [m],
                               lost := s.lost + [s.queue[0]], dropped := s.dropped + 1)
  {
    assert s.queue[..1] == [s.queue[0]];
  }

  lemma PublishedLast(s: Sink, m: Message, t: Sink)
    requires |s.queue| <= 256 && t == Next(s, Publish(m))
    ensures if s.stopping then t == s
            else if |s.queue| < 256 then t == s.(queue := s.queue + [m], accepted := s.accepted + [m])
            else t == s.(queue := s.queue[1..] + [m], accepted := s.accepted + [m],
                         lost := s.lost + [s.queue[0]], dropped := s.dropped + 1)
  {
    if |s.queue| < 256 {
      RoomKeepsAll(s, m);
    } else {
      FullLosesTheFirst(s, m);
    }
  }

  lemma FewWait(config: Config, run: seq<Action>)
    requires Legal(START, config, run)
    ensures |After(START, config, run).sink.queue| <= 256
  {
    StartHoldsInv(0);
    InvHolds(START, config, run, 0);
  }

  /** What is published goes last; only a queue that holds 256 discards one for it,
      the first; and a sink that is stopping takes nothing. */
  lemma OnlyAFullQueueDiscards(config: Config, run: seq<Action>, m: Message, s: Sink, t: Sink)
    requires Legal(START, config, run) && s == After(START, config, run).sink && t == Next(s, Publish(m))
    ensures |s.queue| <= 256
    ensures if s.stopping then t == s
            else if |s.queue| < 256 then t == s.(queue := s.queue + [m], accepted := s.accepted + [m])
            else t == s.(queue := s.queue[1..] + [m], accepted := s.accepted + [m],
                         lost := s.lost + [s.queue[0]], dropped := s.dropped + 1)
  {
    FewWait(config, run);
    PublishedLast(s, m, t);
  }
}
