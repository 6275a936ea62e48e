// Every turn the pilot opens is opened once and closed once, in every
// interleaving of the pilot, the two workers and a shutdown.
module PttTurns {
  import opened PushToTalk

  // ------------------------------------------------------------------- tokens
  //
  // A message, a held turn and a frame on the wire all stand for the same
  // thing: that a turn opens, that it closes, or that some text is said.

  datatype Token = Opens(turn: nat) | Closes(turn: nat) | Says(payload: string)

  function EventToken(e: PttEvent): seq<Token> {
    match e.kind
    case Started => [Opens(e.sequence)]
    case TransmissionReady => [Closes(e.sequence)]
    case Cancelled => [Closes(e.sequence)]
    case Ignored => []
    case Error => if e.sequence != 0 then [Closes(e.sequence)] else []
  }

  function MessageToken(m: Message): seq<Token> {
    match m
    case Event(e) => EventToken(e)
    case Text(payload) => [Says(payload)]
  }

  function FrameToken(f: WireFrame): Token {
    match f
    case AudioStart(turn) => Opens(turn)
    case AudioCancel(turn) => Closes(turn)
    case Transcript(turn, _) => Closes(turn)
    case Payload(payload) => Says(payload)
  }

  function MessageTokens(ms: seq<Message>): seq<Token> {
    if ms == [] then [] else MessageToken(ms[0]) + MessageTokens(ms[1..])
  }

  function WireTokens(wire: seq<WireFrame>): (r: seq<Token>)
    ensures |r| == |wire| && forall i :: 0 <= i < |wire| ==> r[i] == FrameToken(wire[i])
  {
    seq(|wire|, i requires 0 <= i < |wire| => FrameToken(wire[i]))
  }

  function TurnTokens(turns: seq<PttEvent>): (r: seq<Token>)
    ensures |r| == |turns| && forall i :: 0 <= i < |turns| ==> r[i] == Closes(turns[i].sequence)
  {
    seq(|turns|, i requires 0 <= i < |turns| => Closes(turns[i].sequence))
  }

  function WorkerTokens(w: Worker): seq<Token> {
    match w
    case Routing(turn) => [Closes(turn.sequence)]
    case Sending(frame) => [FrameToken(frame)]
    case _ => []
  }

  function RecogniserTokens(r: Recogniser): seq<Token> {
    match r
    case Hearing(turn) => [Closes(turn.sequence)]
    case Answering(frame) => [FrameToken(frame)]
    case _ => []
  }

  lemma {:induction false} MessageTokensJoin(a: seq<Message>, b: seq<Message>)
    ensures MessageTokens(a + b) == MessageTokens(a) + MessageTokens(b)
  {
    if a == [] {
      assert a + b == b;
    } else {
      assert (a + b)[1..] == a[1..] + b;
      MessageTokensJoin(a[1..], b);
    }
  }

  /** How often a token occurs. */
  function Count(ts: seq<Token>, t: Token): nat {
    if ts == [] then 0 else (if ts[0] == t then 1 else 0) + Count(ts[1..], t)
  }

  lemma {:induction false} CountJoin(a: seq<Token>, b: seq<Token>, t: Token)
    ensures Count(a + b, t) == Count(a, t) + Count(b, t)
  {
    if a == [] {
      assert a + b == b;
    } else {
      assert (a + b)[1..] == a[1..] + b;
      CountJoin(a[1..], b, t);
    }
  }

  // How often it occurs in each place a token can be.

  function InMessages(ms: seq<Message>, t: Token): nat {
    Count(MessageTokens(ms), t)
  }

  function InTurns(turns: seq<PttEvent>, t: Token): nat {
    Count(TurnTokens(turns), t)
  }

  function OnWire(wire: seq<WireFrame>, t: Token): nat {
    Count(WireTokens(wire), t)
  }

  lemma InMessagesJoin(a: seq<Message>, b: seq<Message>, t: Token)
    ensures InMessages(a + b, t) == InMessages(a, t) + InMessages(b, t)
  {
    MessageTokensJoin(a, b);
    CountJoin(MessageTokens(a), MessageTokens(b), t);
  }

  lemma InTurnsJoin(a: seq<PttEvent>, b: seq<PttEvent>, t: Token)
    ensures InTurns(a + b, t) == InTurns(a, t) + InTurns(b, t)
  {
    assert TurnTokens(a + b) == TurnTokens(a) + TurnTokens(b);
    CountJoin(TurnTokens(a), TurnTokens(b), t);
  }

  lemma OnWireJoin(a: seq<WireFrame>, b: seq<WireFrame>, t: Token)
    ensures OnWire(a + b, t) == OnWire(a, t) + OnWire(b, t)
  {
    assert WireTokens(a + b) == WireTokens(a) + WireTokens(b);
    CountJoin(WireTokens(a), WireTokens(b), t);
  }

  // -------------------------------------------------- conservation in the sink

  /** Where the accepted tokens equal to t are: queued, discarded, with a
      worker, waiting to be transcribed, or sent. */
  function Accounted(s: Sink, t: Token): nat {
    InMessages(s.queue, t) + InMessages(s.lost, t) + Count(WorkerTokens(s.worker), t)
    + InTurns(s.transcriptions, t) + Count(RecogniserTokens(s.recogniser), t) + OnWire(s.wire, t)
  }

  ghost predicate Conserved(s: Sink, t: Token) {
    InMessages(s.accepted, t) == Accounted(s, t)
  }

  predicate Bounded(s: Sink) {
    && |s.queue| <= MAX_QUEUED_MESSAGES
    && |s.transcriptions| <= MAX_QUEUED_TRANSCRIPTIONS
    && s.dropped == |s.lost|
  }

  /** A recogniser that is not there has nothing waiting for it, and a worker leaves only an empty queue behind. */
  predicate Orderly(s: Sink) {
    && (s.recogniser.Absent? || s.recogniser.Gone? ==> s.transcriptions == [])
    && (s.recogniser.Gone? ==> s.stopping)
    && (s.worker.Exited? ==> s.stopping && s.queue == [])
    && (s.recogniser.Answering? ==> s.recogniser.frame.AudioCancel? || s.recogniser.frame.Transcript?)
  }

  lemma AcceptConserves(s: Sink, m: Message, t: Token)
    requires Conserved(s, t)
    ensures Conserved(Accept(s, m), t)
  {
    var excess := if |s.queue| >= MAX_QUEUED_MESSAGES then |s.queue| + 1 - MAX_QUEUED_MESSAGES else 0;
    assert s.queue == s.queue[..excess] + s.queue[excess..];
    InMessagesJoin(s.queue[..excess], s.queue[excess..], t);
    InMessagesJoin(s.queue[excess..], [m], t);
    InMessagesJoin(s.lost, s.queue[..excess], t);
    InMessagesJoin(s.accepted, [m], t);
  }

  lemma TakeConserves(s: Sink, t: Token)
    requires Conserved(s, t) && Enabled(s, WorkerTake)
    ensures Conserved(Next(s, WorkerTake), t)
  {
    var m := s.queue[0];
    assert s.queue == [m] + s.queue[1..];
    InMessagesJoin([m], s.queue[1..], t);
    OneMessage(m, t);
    assert MessageToken(m) == WorkerTokens(Dispatched(m));
  }

  lemma TranscribeConserves(s: Sink, t: Token)
    requires Conserved(s, t) && Enabled(s, WorkerTranscribe)
    ensures Conserved(Next(s, WorkerTranscribe), t)
  {
    if CanTranscribe(s) {
      QueuedTurnConserves(s, t);
    } else {
      assert WorkerTokens(Next(s, WorkerTranscribe).worker) == WorkerTokens(s.worker);
    }
  }

  lemma QueuedTurnConserves(s: Sink, t: Token)
    requires Conserved(s, t) && s.worker.Routing?
    ensures Conserved(s.(transcriptions := s.transcriptions + [s.worker.turn], worker := Waiting), t)
  {
    var turn := s.worker.turn;
    InTurnsJoin(s.transcriptions, [turn], t);
    assert TurnTokens([turn]) == WorkerTokens(s.worker);
  }

  lemma RecogniserTakeConserves(s: Sink, t: Token)
    requires Conserved(s, t) && Enabled(s, RecogniserTake)
    ensures Conserved(Next(s, RecogniserTake), t)
  {
    var turn := s.transcriptions[0];
    assert s.transcriptions == [turn] + s.transcriptions[1..];
    InTurnsJoin([turn], s.transcriptions[1..], t);
    assert TurnTokens([turn]) == RecogniserTokens(Hearing(turn));
  }

  lemma SendConserves(s: Sink, step: Step, t: Token)
    requires Conserved(s, t) && Enabled(s, step) && (step.WorkerSend? || step.RecogniserSend?)
    ensures Conserved(Next(s, step), t)
  {
    var frame := if step.WorkerSend? then s.worker.frame else s.recogniser.frame;
    OnWireJoin(s.wire, [frame], t);
    assert WireTokens([frame]) == [FrameToken(frame)];
  }

  /** No step loses or doubles a token. */
  lemma StepConserves(s: Sink, step: Step, t: Token)
    requires Conserved(s, t) && Enabled(s, step)
    ensures Conserved(Next(s, step), t)
  {
    match step
    case Publish(m) => if !s.stopping { AcceptConserves(s, m, t); }
    case WorkerTake => TakeConserves(s, t);
    case WorkerTranscribe => TranscribeConserves(s, t);
    case RecogniserTake => RecogniserTakeConserves(s, t);
    case WorkerSend => SendConserves(s, step, t);
    case RecogniserSend => SendConserves(s, step, t);
    case _ =>
  }

  lemma StepKeepsOrder(s: Sink, step: Step)
    requires Orderly(s) && Bounded(s) && Enabled(s, step)
    ensures Orderly(Next(s, step)) && Bounded(Next(s, step))
  {}

  // ------------------------------------------------------- a start before its close

  /** In the queue the start of a turn comes before its close. */
  predicate OpensFirst(queue: seq<Message>, turn: nat) {
    queue == [] || MessageToken(queue[0]) == [Opens(turn)]
    || (MessageToken(queue[0]) != [Closes(turn)] && OpensFirst(queue[1..], turn))
  }

  lemma {:induction false} OpensFirstAfterDrop(queue: seq<Message>, k: nat, turn: nat)
    requires OpensFirst(queue, turn) && k <= |queue|
    requires InMessages(queue[..k], Opens(turn)) == 0
    ensures OpensFirst(queue[k..], turn)
  {
    if k > 0 {
      assert queue[..k] == [queue[0]] + queue[1..][..k - 1];
      assert queue[1..][k - 1..] == queue[k..];
      InMessagesJoin([queue[0]], queue[1..][..k - 1], Opens(turn));
      OneMessage(queue[0], Opens(turn));
      OpensFirstAfterDrop(queue[1..], k - 1, turn);
    } else {
      assert queue[k..] == queue;
    }
  }

  lemma {:induction false} OpensFirstAfterPush(queue: seq<Message>, m: Message, turn: nat)
    requires OpensFirst(queue, turn)
    requires MessageToken(m) == [Closes(turn)] ==> InMessages(queue, Opens(turn)) > 0
    ensures OpensFirst(queue + [m], turn)
  {
    if queue == [] {
      assert queue + [m] == [m] && [m][1..] == [];
    } else if MessageToken(queue[0]) != [Opens(turn)] {
      assert (queue + [m])[1..] == queue[1..] + [m];
      assert queue == [queue[0]] + queue[1..];
      InMessagesJoin([queue[0]], queue[1..], Opens(turn));
      OneMessage(queue[0], Opens(turn));
      OpensFirstAfterPush(queue[1..], m, turn);
    }
  }

  lemma OneMessage(m: Message, t: Token)
    ensures MessageTokens([m]) == MessageToken(m)
    ensures InMessages([m], t) == if MessageToken(m) == [t] then 1 else 0
  {
    assert [m][1..] == [];
    var ts := MessageToken(m);
    assert MessageTokens([m]) == ts;
    if ts != [] {
      assert ts == [ts[0]];
      assert ts[1..] == [];
      assert Count(ts, t) == if ts[0] == t then 1 else 0;
    }
  }

  /** Every close on the wire has the start somewhere before it. */
  predicate WireOrdered(wire: seq<WireFrame>, turn: nat) {
    forall i :: 0 <= i < |wire| && FrameToken(wire[i]) == Closes(turn) ==> AudioStart(turn) in wire[..i]
  }

  /** A close that has left the queue finds the start already sent; one still queued has it ahead. */
  predicate StartLeads(s: Sink, turn: nat) {
    && WireOrdered(s.wire, turn)
    && (AudioStart(turn) in s.wire ||
        (&& Closes(turn) !in WorkerTokens(s.worker)
         && Closes(turn) !in TurnTokens(s.transcriptions)
         && Closes(turn) !in RecogniserTokens(s.recogniser)
         && (s.worker == Sending(AudioStart(turn)) || OpensFirst(s.queue, turn))))
  }

  lemma {:induction false} CountIsPresence(ts: seq<Token>, t: Token)
    ensures Count(ts, t) > 0 <==> t in ts
  {
    if ts != [] {
      CountIsPresence(ts[1..], t);
    }
  }

  lemma AcceptKeepsLead(s: Sink, m: Message, turn: nat)
    requires StartLeads(s, turn) && Conserved(s, Opens(turn)) && Orderly(s)
    requires MessageToken(m) == [Closes(turn)] ==> InMessages(s.accepted, Opens(turn)) > 0
    requires InMessages(Accept(s, m).lost, Opens(turn)) == 0
    ensures StartLeads(Accept(s, m), turn)
  {
    var excess := if |s.queue| >= MAX_QUEUED_MESSAGES then |s.queue| + 1 - MAX_QUEUED_MESSAGES else 0;
    InMessagesJoin(s.lost, s.queue[..excess], Opens(turn));
    if AudioStart(turn) !in s.wire && s.worker != Sending(AudioStart(turn)) {
      OpensFirstAfterDrop(s.queue, excess, turn);
      if MessageToken(m) == [Closes(turn)] {
        StartIsQueued(s, turn, excess);
      }
      OpensFirstAfterPush(s.queue[excess..], m, turn);
    }
  }

  // A start accepted, not lost and not yet sent can only be in the queue.
  lemma StartIsQueued(s: Sink, turn: nat, excess: nat)
    requires StartLeads(s, turn) && Conserved(s, Opens(turn)) && excess <= |s.queue|
    requires AudioStart(turn) !in s.wire && s.worker != Sending(AudioStart(turn))
    requires InMessages(s.accepted, Opens(turn)) > 0
    requires InMessages(s.lost, Opens(turn)) == 0 && InMessages(s.queue[..excess], Opens(turn)) == 0
    requires s.recogniser.Answering? ==> s.recogniser.frame.AudioCancel? || s.recogniser.frame.Transcript?
    ensures InMessages(s.queue[excess..], Opens(turn)) > 0
  {
    AllIsQueued(s, turn);
    assert s.queue == s.queue[..excess] + s.queue[excess..];
    InMessagesJoin(s.queue[..excess], s.queue[excess..], Opens(turn));
  }

  lemma AllIsQueued(s: Sink, turn: nat)
    requires Conserved(s, Opens(turn)) && InMessages(s.lost, Opens(turn)) == 0
    requires AudioStart(turn) !in s.wire && s.worker != Sending(AudioStart(turn))
    requires s.recogniser.Answering? ==> s.recogniser.frame.AudioCancel? || s.recogniser.frame.Transcript?
    ensures InMessages(s.queue, Opens(turn)) == InMessages(s.accepted, Opens(turn))
  {
    NotSentYet(s, turn);
  }

  lemma NotSentYet(s: Sink, turn: nat)
    requires s.recogniser.Answering? ==> s.recogniser.frame.AudioCancel? || s.recogniser.frame.Transcript?
    requires AudioStart(turn) !in s.wire && s.worker != Sending(AudioStart(turn))
    ensures OnWire(s.wire, Opens(turn)) == 0 && InTurns(s.transcriptions, Opens(turn)) == 0
    ensures Count(WorkerTokens(s.worker), Opens(turn)) == 0 && Count(RecogniserTokens(s.recogniser), Opens(turn)) == 0
  {
    NotOnWire(s.wire, turn);
    CountIsPresence(TurnTokens(s.transcriptions), Opens(turn));
    CountIsPresence(RecogniserTokens(s.recogniser), Opens(turn));
    CountIsPresence(WorkerTokens(s.worker), Opens(turn));
  }

  lemma NotOnWire(wire: seq<WireFrame>, turn: nat)
    requires AudioStart(turn) !in wire
    ensures OnWire(wire, Opens(turn)) == 0
  {
    CountIsPresence(WireTokens(wire), Opens(turn));
  }

  lemma TakeKeepsLead(s: Sink, turn: nat)
    requires StartLeads(s, turn) && Enabled(s, WorkerTake)
    ensures StartLeads(Next(s, WorkerTake), turn)
  {
    assert MessageToken(s.queue[0]) == WorkerTokens(Next(s, WorkerTake).worker);
  }

  lemma TranscribeKeepsLead(s: Sink, turn: nat)
    requires StartLeads(s, turn) && Enabled(s, WorkerTranscribe)
    ensures StartLeads(Next(s, WorkerTranscribe), turn)
  {
    var t := Next(s, WorkerTranscribe);
    if CanTranscribe(s) {
      assert TurnTokens(t.transcriptions) == TurnTokens(s.transcriptions) + WorkerTokens(s.worker);
    }
  }

  lemma RecogniserTakeKeepsLead(s: Sink, turn: nat)
    requires StartLeads(s, turn) && Enabled(s, RecogniserTake)
    ensures StartLeads(Next(s, RecogniserTake), turn)
  {
    var t := Next(s, RecogniserTake);
    assert TurnTokens(s.transcriptions) == RecogniserTokens(t.recogniser) + TurnTokens(t.transcriptions);
  }

  lemma StepKeepsLead(s: Sink, step: Step, turn: nat)
    requires StartLeads(s, turn) && Conserved(s, Opens(turn)) && Orderly(s) && Enabled(s, step)
    requires step.Publish? && MessageToken(step.message) == [Closes(turn)] && !s.stopping ==>
               InMessages(s.accepted, Opens(turn)) > 0
    requires InMessages(Next(s, step).lost, Opens(turn)) == 0
    ensures StartLeads(Next(s, step), turn)
  {
    match step
    case Publish(m) => if !s.stopping { AcceptKeepsLead(s, m, turn); }
    case WorkerTake => TakeKeepsLead(s, turn);
    case WorkerTranscribe => TranscribeKeepsLead(s, turn);
    case RecogniserTake => RecogniserTakeKeepsLead(s, turn);
    case WorkerSend => SendKeepsLead(s, s.worker.frame, turn);
    case RecogniserSend => SendKeepsLead(s, s.recogniser.frame, turn);
    case _ =>
  }

  lemma SendKeepsLead(s: Sink, frame: WireFrame, turn: nat)
    requires WireOrdered(s.wire, turn)
    requires FrameToken(frame) == Closes(turn) ==> AudioStart(turn) in s.wire
    ensures WireOrdered(s.wire + [frame], turn)
    ensures AudioStart(turn) in s.wire + [frame] <==> AudioStart(turn) in s.wire || frame == AudioStart(turn)
  {
    var wire := s.wire + [frame];
    forall i | 0 <= i < |wire| && FrameToken(wire[i]) == Closes(turn)
      ensures AudioStart(turn) in wire[..i]
    {
      assert wire[..i] == s.wire[..i];
      assert s.wire[..|s.wire|] == s.wire;
    }
  }

  // ---------------------------------------------------------------- whole runs

  /** The pilot's controller, everything it has published, and the sink it publishes to. */
  datatype System = System(controller: Controller, published: seq<Message>, sink: Sink)

  datatype Action = Pilot(command: Command) | Say(payload: string) | Internal(step: Step)

  const START := System(FRESH, [], NEW_SINK)

  predicate Allowed(sys: System, action: Action) {
    action.Internal? ==> !action.step.Publish? && Enabled(sys.sink, action.step)
  }

  function Act(sys: System, config: Config, action: Action): System
    requires Allowed(sys, action)
  {
    match action
    case Pilot(command) =>
      var outcome := Obey(sys.controller, config, command);
      System(outcome.next, sys.published + Messages(outcome.published), PublishAll(sys.sink, outcome.published))
    case Say(payload) => sys.(sink := Next(sys.sink, Publish(Text(payload))))
    case Internal(step) => sys.(sink := Next(sys.sink, step))
  }

  function Messages(events: seq<PttEvent>): (ms: seq<Message>)
    ensures |ms| == |events| && forall i :: 0 <= i < |ms| ==> ms[i] == Event(events[i])
  {
    seq(|events|, i requires 0 <= i < |events| => Event(events[i]))
  }

  predicate Legal(sys: System, config: Config, run: seq<Action>)
    decreases |run|
  {
    run == [] || (Allowed(sys, run[0]) && Legal(Act(sys, config, run[0]), config, run[1..]))
  }

  function After(sys: System, config: Config, run: seq<Action>): System
    requires Legal(sys, config, run)
    decreases |run|
  {
    if run == [] then sys else After(Act(sys, config, run[0]), config, run[1..])
  }

  /** The turn has been opened and is no longer being recorded. */
  predicate Ended(c: Controller, turn: nat) {
    1 <= turn < c.nextSequence && !(c.state.Recording? && c.activeSequence == turn)
  }

  /** The controller opens turns 1, 2, 3, ... and ends each once, before it opens the next. */
  predicate Disciplined(c: Controller, published: seq<Message>, turn: nat) {
    && c.nextSequence >= 1
    && (c.state.Recording? ==> c.activeSequence == c.nextSequence - 1 && c.activeSequence >= 1)
    && (c.state.Idle? ==> c.activeSequence == 0)
    && InMessages(published, Opens(turn)) == (if 1 <= turn < c.nextSequence then 1 else 0)
    && InMessages(published, Closes(turn)) == (if Ended(c, turn) then 1 else 0)
  }

  /** Until it stops, the sink accepts all that is published; then nothing more. */
  predicate Linked(published: seq<Message>, s: Sink, t: Token) {
    && InMessages(s.accepted, t) <= InMessages(published, t)
    && (!s.stopping ==> InMessages(s.accepted, t) == InMessages(published, t))
  }

  ghost predicate Inv(sys: System, turn: nat) {
    var s := sys.sink;
    && Disciplined(sys.controller, sys.published, turn)
    && Linked(sys.published, s, Opens(turn)) && Linked(sys.published, s, Closes(turn))
    && (InMessages(s.accepted, Closes(turn)) > 0 ==> InMessages(s.accepted, Opens(turn)) > 0)
    && Orderly(s) && Bounded(s)
    && Conserved(s, Opens(turn)) && Conserved(s, Closes(turn))
    && (InMessages(s.lost, Opens(turn)) == 0 ==> StartLeads(s, turn))
  }

  lemma LostOnlyGrows(s: Sink, step: Step, t: Token)
    requires Enabled(s, step)
    ensures InMessages(s.lost, t) <= InMessages(Next(s, step).lost, t)
    ensures InMessages(s.accepted, t) <= InMessages(Next(s, step).accepted, t)
  {
    if step.Publish? && !s.stopping {
      var m := step.message;
      var excess := if |s.queue| >= MAX_QUEUED_MESSAGES then |s.queue| + 1 - MAX_QUEUED_MESSAGES else 0;
      InMessagesJoin(s.lost, s.queue[..excess], t);
      InMessagesJoin(s.accepted, [m], t);
    }
  }

  // What one sink step keeps, whoever takes it.
  lemma SinkStepKeeps(s: Sink, step: Step, turn: nat)
    requires Enabled(s, step) && Orderly(s) && Bounded(s)
    requires Conserved(s, Opens(turn)) && Conserved(s, Closes(turn))
    requires InMessages(s.lost, Opens(turn)) == 0 ==> StartLeads(s, turn)
    requires step.Publish? && MessageToken(step.message) == [Closes(turn)] && !s.stopping ==>
               InMessages(s.accepted, Opens(turn)) > 0
    ensures var t := Next(s, step);
            && Orderly(t) && Bounded(t)
            && Conserved(t, Opens(turn)) && Conserved(t, Closes(turn))
            && (InMessages(t.lost, Opens(turn)) == 0 ==> StartLeads(t, turn))
  {
    StepKeepsOrder(s, step);
    StepConserves(s, step, Opens(turn));
    StepConserves(s, step, Closes(turn));
    LostOnlyGrows(s, step, Opens(turn));
    if InMessages(Next(s, step).lost, Opens(turn)) == 0 {
      StepKeepsLead(s, step, turn);
    }
  }

  lemma InternalKeepsInv(sys: System, config: Config, step: Step, turn: nat)
    requires Inv(sys, turn) && !step.Publish? && Enabled(sys.sink, step)
    ensures Inv(sys.(sink := Next(sys.sink, step)), turn)
  {
    SinkStepKeeps(sys.sink, step, turn);
    assert Next(sys.sink, step).accepted == sys.sink.accepted;
  }

  lemma SayKeepsInv(sys: System, payload: string, turn: nat)
    requires Inv(sys, turn)
    ensures Inv(sys.(sink := Next(sys.sink, Publish(Text(payload)))), turn)
  {
    var m := Text(payload);
    SinkStepKeeps(sys.sink, Publish(m), turn);
    OneMessage(m, Opens(turn));
    OneMessage(m, Closes(turn));
    InMessagesJoin(sys.sink.accepted, [m], Opens(turn));
    InMessagesJoin(sys.sink.accepted, [m], Closes(turn));
  }

  // The controller's own step: at most one event, which opens the next turn or
  // ends the one being recorded.
  lemma CommandKeepsDiscipline(c: Controller, config: Config, command: Command, published: seq<Message>, turn: nat)
    requires Disciplined(c, published, turn)
    ensures var outcome := Obey(c, config, command);
            && |outcome.published| <= 1
            && Disciplined(outcome.next, published + Messages(outcome.published), turn)
            && (outcome.published != [] && EventToken(outcome.published[0]) == [Closes(turn)] ==>
                  InMessages(published, Opens(turn)) > 0)
  {
    var outcome := Obey(c, config, command);
    if outcome.published == [] {
      assert published + Messages(outcome.published) == published;
    } else {
      var m := Event(outcome.published[0]);
      assert Messages(outcome.published) == [m];
      OneMessage(m, Opens(turn));
      OneMessage(m, Closes(turn));
      InMessagesJoin(published, [m], Opens(turn));
      InMessagesJoin(published, [m], Closes(turn));
    }
  }

  lemma OnePublished(s: Sink, events: seq<PttEvent>)
    requires |events| == 1
    ensures PublishAll(s, events) == Next(s, Publish(Event(events[0])))
  {
    assert PublishAll(Next(s, Publish(Event(events[0]))), events[1..]) == Next(s, Publish(Event(events[0])));
  }

  lemma PilotKeepsInv(sys: System, config: Config, command: Command, turn: nat)
    requires Inv(sys, turn)
    ensures Inv(Act(sys, config, Pilot(command)), turn)
  {
    var outcome := Obey(sys.controller, config, command);
    CommandKeepsDiscipline(sys.controller, config, command, sys.published, turn);
    if outcome.published == [] {
      assert Messages(outcome.published) == [];
      assert sys.published + [] == sys.published;
    } else {
      var m := Event(outcome.published[0]);
      assert Messages(outcome.published) == [m];
      OnePublished(sys.sink, outcome.published);
      OneMessage(m, Opens(turn));
      OneMessage(m, Closes(turn));
      InMessagesJoin(sys.published, [m], Opens(turn));
      InMessagesJoin(sys.published, [m], Closes(turn));
      InMessagesJoin(sys.sink.accepted, [m], Opens(turn));
      InMessagesJoin(sys.sink.accepted, [m], Closes(turn));
      SinkStepKeeps(sys.sink, Publish(m), turn);
    }
  }

  lemma ActionKeepsInv(sys: System, config: Config, action: Action, turn: nat)
    requires Inv(sys, turn) && Allowed(sys, action)
    ensures Inv(Act(sys, config, action), turn)
  {
    match action
    case Pilot(command) => PilotKeepsInv(sys, config, command, turn);
    case Say(payload) => SayKeepsInv(sys, payload, turn);
    case Internal(step) => InternalKeepsInv(sys, config, step, turn);
  }

  lemma {:induction false} InvHolds(sys: System, config: Config, run: seq<Action>, turn: nat)
    requires Inv(sys, turn) && Legal(sys, config, run)
    ensures Inv(After(sys, config, run), turn)
    decreases |run|
  {
    if run != [] {
      ActionKeepsInv(sys, config, run[0], turn);
      InvHolds(Act(sys, config, run[0]), config, run[1..], turn);
    }
  }

  lemma StartHoldsInv(turn: nat)
    ensures Inv(START, turn)
  {
  }

  predicate WorkersGone(s: Sink) {
    s.worker.Exited? && (s.recogniser.Absent? || s.recogniser.Gone?)
  }

  /** In every run: at most one audio_start and one close per turn, and no more
      than 256 messages and four turns ever waiting, with every discard counted.
      The start comes before the close exactly when the start was not discarded
      or no close has been sent. */
  lemma TurnsAreUniqueAndOrdered(config: Config, run: seq<Action>, turn: nat)
    requires Legal(START, config, run)
    ensures var s := After(START, config, run).sink;
            && OnWire(s.wire, Opens(turn)) <= 1
            && OnWire(s.wire, Closes(turn)) <= 1
            && (WireOrdered(s.wire, turn) <==>
                  InMessages(s.lost, Opens(turn)) == 0 || OnWire(s.wire, Closes(turn)) == 0)
            && Bounded(s)
  {
    var s := After(START, config, run).sink;
    StartHoldsInv(turn);
    InvHolds(START, config, run, turn);
    CloseIsOnWire(s.wire, turn);
    if InMessages(s.lost, Opens(turn)) > 0 && OnWire(s.wire, Closes(turn)) > 0 {
      StartIsOnWire(s.wire, turn);
    }
  }

  lemma CloseIsOnWire(wire: seq<WireFrame>, turn: nat)
    ensures OnWire(wire, Closes(turn)) > 0 <==> exists i :: 0 <= i < |wire| && FrameToken(wire[i]) == Closes(turn)
  {
    CountIsPresence(WireTokens(wire), Closes(turn));
    if i :| 0 <= i < |wire| && FrameToken(wire[i]) == Closes(turn) {
      assert WireTokens(wire)[i] == Closes(turn);
    }
  }

  lemma StartIsOnWire(wire: seq<WireFrame>, turn: nat)
    ensures AudioStart(turn) in wire ==> OnWire(wire, Opens(turn)) > 0
  {
    CountIsPresence(WireTokens(wire), Opens(turn));
    if i :| 0 <= i < |wire| && wire[i] == AudioStart(turn) {
      assert WireTokens(wire)[i] == Opens(turn);
    }
  }

  lemma {:induction false} RunsJoin(sys: System, config: Config, first: seq<Action>, second: seq<Action>)
    requires Legal(sys, config, first + second)
    ensures Legal(sys, config, first)
    ensures Legal(After(sys, config, first), config, second)
    ensures After(sys, config, first + second) == After(After(sys, config, first), config, second)
    decreases |first|
  {
    if first == [] {
      assert first + second == second;
    } else {
      assert (first + second)[1..] == first[1..] + second;
      RunsJoin(Act(sys, config, first[0]), config, first[1..], second);
    }
  }

  lemma ActionKeepsAccepted(sys: System, config: Config, action: Action, turn: nat)
    requires Allowed(sys, action) && Inv(sys, turn)
    ensures InMessages(sys.sink.accepted, Closes(turn))
            <= InMessages(Act(sys, config, action).sink.accepted, Closes(turn))
  {
    match action
    case Pilot(command) =>
      var events := Obey(sys.controller, config, command).published;
      CommandKeepsDiscipline(sys.controller, config, command, sys.published, turn);
      if events != [] {
        OnePublished(sys.sink, events);
        LostOnlyGrows(sys.sink, Publish(Event(events[0])), Closes(turn));
      }
    case Say(payload) => LostOnlyGrows(sys.sink, Publish(Text(payload)), Closes(turn));
    case Internal(step) => LostOnlyGrows(sys.sink, step, Closes(turn));
  }

  lemma {:induction false} AcceptedOnlyGrows(sys: System, config: Config, run: seq<Action>, turn: nat)
    requires Legal(sys, config, run) && Inv(sys, turn)
    ensures InMessages(sys.sink.accepted, Closes(turn))
            <= InMessages(After(sys, config, run).sink.accepted, Closes(turn))
    decreases |run|
  {
    if run != [] {
      ActionKeepsAccepted(sys, config, run[0], turn);
      ActionKeepsInv(sys, config, run[0], turn);
      AcceptedOnlyGrows(Act(sys, config, run[0]), config, run[1..], turn);
    }
  }

  /** A turn that had ended before the sink was told to stop is closed on the
      wire exactly once by the time both workers are gone, unless its end was
      one of the messages the full queue discarded. */
  lemma EndedTurnsAreClosed(config: Config, before: seq<Action>, after: seq<Action>, turn: nat)
    requires Legal(START, config, before + after)
    requires Legal(START, config, before)
    requires Ended(After(START, config, before).controller, turn)
    requires !After(START, config, before).sink.stopping
    requires WorkersGone(After(START, config, before + after).sink)
    ensures var s := After(START, config, before + after).sink;
            OnWire(s.wire, Closes(turn)) + InMessages(s.lost, Closes(turn)) == 1
  {
    StartHoldsInv(turn);
    InvHolds(START, config, before, turn);
    InvHolds(START, config, before + after, turn);
    RunsJoin(START, config, before, after);
    AcceptedOnlyGrows(After(START, config, before), config, after, turn);
  }

  // ---------------------------------------------------------------- shutting down

  /** How much is left to do once the sink is stopping. */
  function Work(s: Sink): nat {
    3 * |s.queue| + 3 * |s.transcriptions|
    + (match s.worker case Routing(_) => 3 case Sending(_) => 2 case Waiting => 1 case Exited => 0)
    + (match s.recogniser case Hearing(_) => 3 case Answering(_) => 2 case Listening => 1 case _ => 0)
  }

  predicate OwnStep(step: Step) {
    !step.Publish? && !step.Stop? && !step.SetTranscriber?
  }

  /** After stop, every step of a worker is progress, and there is one to take until both are gone. */
  lemma StopDrains(s: Sink)
    requires s.stopping && Orderly(s)
    ensures forall step :: OwnStep(step) && Enabled(s, step) ==> Work(Next(s, step)) < Work(s)
    ensures !WorkersGone(s) ==> exists step :: OwnStep(step) && Enabled(s, step)
  {
    if !WorkersGone(s) {
      var step :=
        if s.worker.Waiting? then (if s.queue == [] then WorkerExit else WorkerTake)
        else if s.worker.Routing? then WorkerTranscribe
        else if s.worker.Sending? then WorkerSend
        else if s.recogniser.Listening? then (if s.transcriptions == [] then RecogniserExit else RecogniserTake)
        else if s.recogniser.Hearing? then RecogniserHear(false)
        else RecogniserSend;
      assert OwnStep(step) && Enabled(s, step);
    }
  }

  // ------------------------------------------------------------ what discards cost

  const TOO_SHORT := Config(1, 0)

  function Texts(n: nat): (r: seq<Action>)
    ensures |r| == n && forall i :: 0 <= i < n ==> r[i] == Say("")
  {
    seq(n, _ => Say(""))
  }

  function TextMessages(n: nat): (r: seq<Message>)
    ensures |r| == n && forall i :: 0 <= i < n ==> r[i] == Text("")
  {
    seq(n, _ => Text(""))
  }

  /** What the messages said do to a queue that holds `queue` and has room for all but one of them. */
  lemma {:induction false} TextsPile(sys: System, config: Config, n: nat)
    requires !sys.sink.stopping && |sys.sink.queue| + n <= MAX_QUEUED_MESSAGES
    ensures Legal(sys, config, Texts(n))
    ensures After(sys, config, Texts(n))
            == sys.(sink := sys.sink.(queue := sys.sink.queue + TextMessages(n),
                                      accepted := sys.sink.accepted + TextMessages(n)))
    decreases n
  {
    if n == 0 {
      assert sys.sink.queue + [] == sys.sink.queue && sys.sink.accepted + [] == sys.sink.accepted;
    } else {
      var next := Act(sys, config, Say(""));
      assert Texts(n)[1..] == Texts(n - 1);
      assert sys.sink.queue[0..] == sys.sink.queue && sys.sink.lost + [] == sys.sink.lost;
      assert next.sink == sys.sink.(queue := sys.sink.queue + [Text("")], accepted := sys.sink.accepted + [Text("")]);
      TextsPile(next, config, n - 1);
      assert forall q: seq<Message> :: q + [Text("")] + TextMessages(n - 1) == q + TextMessages(n);
    }
  }

  const PRESSED := Event(Plain(Started, 1, 0))
  const RELEASED := Event(EndEvent(Controller(Recording, 2, 1, 0), TOO_SHORT, 0, CommandReleased, []))

  const PRESS := Pilot(Begin(0, true))
  const RELEASE := Pilot(End(0, Recorded([])))
  const HOLDING := System(Controller(Recording, 2, 1, 0), [PRESSED],
                          NEW_SINK.(queue := [PRESSED], accepted := [PRESSED]))
  const LET_GO :=
    System(Controller(Idle, 2, 0, 0), [PRESSED, RELEASED],
           NEW_SINK.(queue := [PRESSED, RELEASED], accepted := [PRESSED, RELEASED]))

  lemma PressHolds()
    ensures Act(START, TOO_SHORT, PRESS) == HOLDING
  {
    OnePublished(NEW_SINK, [Plain(Started, 1, 0)]);
    assert Messages([Plain(Started, 1, 0)]) == [PRESSED];
  }

  lemma ReleaseLetsGo()
    ensures Act(HOLDING, TOO_SHORT, RELEASE) == LET_GO
  {
    OnePublished(HOLDING.sink, [RELEASED.event]);
    assert Messages([RELEASED.event]) == [RELEASED];
    assert Accept(HOLDING.sink, RELEASED) == LET_GO.sink;
  }

  lemma PressAndRelease()
    ensures Legal(START, TOO_SHORT, [PRESS, RELEASE]) && After(START, TOO_SHORT, [PRESS, RELEASE]) == LET_GO
  {
    PressHolds();
    ReleaseLetsGo();
    assert [PRESS, RELEASE][1..] == [RELEASE] && [RELEASE][1..] == [];
    assert Legal(HOLDING, TOO_SHORT, [RELEASE]) && After(HOLDING, TOO_SHORT, [RELEASE]) == LET_GO;
  }

  const LAST := [Say(""), Internal(WorkerTake), Internal(WorkerSend)]

  lemma OverflowLosesTheStart(texts: nat)
    requires texts + 2 == MAX_QUEUED_MESSAGES
    ensures var run := [PRESS, RELEASE] + (Texts(texts) + LAST);
            && Legal(START, TOO_SHORT, run)
            && After(START, TOO_SHORT, run).sink.wire == [AudioCancel(1)]
            && After(START, TOO_SHORT, run).sink.lost == [PRESSED]
  {
    PressAndRelease();
    TextsPile(LET_GO, TOO_SHORT, texts);
    OneTextMore(After(LET_GO, TOO_SHORT, Texts(texts)));
    RunsFollow(LET_GO, TOO_SHORT, Texts(texts), LAST);
    RunsFollow(START, TOO_SHORT, [PRESS, RELEASE], Texts(texts) + LAST);
  }

  /** A queue that overflows can lose a start and still deliver its close: a legal
      run of press, release, 255 texts and one turn of the socket worker. */
  lemma DiscardedStartLeavesCloseAlone()
    ensures exists run ::
              && Legal(START, TOO_SHORT, run)
              && After(START, TOO_SHORT, run).sink.wire == [AudioCancel(1)]
              && After(START, TOO_SHORT, run).sink.lost == [PRESSED]
    ensures !WireOrdered([AudioCancel(1)], 1)
  {
    var texts := MAX_QUEUED_MESSAGES - 2;
    OverflowLosesTheStart(texts);
    assert Legal(START, TOO_SHORT, [PRESS, RELEASE] + (Texts(texts) + LAST));
    assert FrameToken([AudioCancel(1)][0]) == Closes(1) && [AudioCancel(1)][..0] == [];
  }

  /** A full queue takes one more text by losing its front, and the worker sends the new front. */
  lemma OneTextMore(sys: System)
    requires |sys.sink.queue| == MAX_QUEUED_MESSAGES && sys.sink.queue[0] == PRESSED && sys.sink.queue[1] == RELEASED
    requires !sys.sink.stopping && sys.sink.worker.Waiting? && sys.sink.wire == [] && sys.sink.lost == []
    ensures Legal(sys, TOO_SHORT, LAST)
    ensures After(sys, TOO_SHORT, LAST).sink.wire == [AudioCancel(1)]
    ensures After(sys, TOO_SHORT, LAST).sink.lost == [PRESSED]
  {
    var said := Act(sys, TOO_SHORT, Say(""));
    var taken := Act(said, TOO_SHORT, Internal(WorkerTake));
    var sent := Act(taken, TOO_SHORT, Internal(WorkerSend));
    assert sys.sink.queue[..1] == [PRESSED];
    assert said.sink.queue[0] == RELEASED && said.sink.lost == [PRESSED];
    assert sent.sink.wire == [AudioCancel(1)] && sent.sink.lost == [PRESSED];
    var run := LAST;
    assert run[1..] == [Internal(WorkerTake), Internal(WorkerSend)];
    assert run[1..][1..] == [Internal(WorkerSend)] && run[1..][1..][1..] == [];
    assert Legal(taken, TOO_SHORT, run[1..][1..]) && After(taken, TOO_SHORT, run[1..][1..]) == sent;
    assert Legal(said, TOO_SHORT, run[1..]) && After(said, TOO_SHORT, run[1..]) == sent;
  }

  lemma {:induction false} RunsFollow(sys: System, config: Config, first: seq<Action>, second: seq<Action>)
    requires Legal(sys, config, first) && Legal(After(sys, config, first), config, second)
    ensures Legal(sys, config, first + second)
    ensures After(sys, config, first + second) == After(After(sys, config, first), config, second)
    decreases |first|
  {
    if first == [] {
      assert first + second == second;
    } else {
      assert (first + second)[1..] == first[1..] + second;
      RunsFollow(Act(sys, config, first[0]), config, first[1..], second);
    }
  }
}
