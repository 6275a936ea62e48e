// The push-to-talk turn protocol as values: what the controller publishes
// (src/ptt/push_to_talk_controller.cpp) and what every atomic step of the
// asynchronous sink and its two workers does
// (src/transport/async_websocket_ptt_sink.cpp).
module PushToTalk {
  // -------------------------------------------------------------- the controller

  datatype Kind = Started | TransmissionReady | Cancelled | Ignored | Error
  datatype EndReason = CommandReleased | MaxDurationReached
  datatype IgnoreReason = DuplicateBegin | ReleaseWithoutBegin | WhileFaulted

  datatype PttEvent = PttEvent(
    kind: Kind, sequence: nat, timestampMs: nat, durationMs: nat,
    endReason: EndReason, ignoreReason: IgnoreReason, audio: seq<int>)

  datatype State = Idle | Recording | Faulted
  datatype Config = Config(minTransmissionMs: nat, maxTransmissionMs: nat)
  datatype Controller = Controller(state: State, nextSequence: nat, activeSequence: nat, startedAtMs: nat)

  /** What the recorder answered: None is a failure. */
  datatype Recorded = Recorded(audio: seq<int>) | RecorderFailed

  datatype Command =
    | Begin(now: nat, started: bool)
    | End(now: nat, recorded: Recorded)
    | Tick(now: nat, recorded: Recorded)
    | ResetFault

  const FRESH := Controller(Idle, 1, 0, 0)

  function Plain(kind: Kind, sequence: nat, now: nat): PttEvent {
    PttEvent(kind, sequence, now, 0, CommandReleased, ReleaseWithoutBegin, [])
  }

  function Elapsed(c: Controller, now: nat): nat {
    if now < c.startedAtMs then 0 else now - c.startedAtMs
  }

  /** A turn that ends well: long enough to transcribe, or cancelled as too short. */
  function EndEvent(c: Controller, config: Config, now: nat, reason: EndReason, audio: seq<int>): PttEvent {
    PttEvent(if Elapsed(c, now) < config.minTransmissionMs then Cancelled else TransmissionReady,
             c.activeSequence, now, Elapsed(c, now), reason, ReleaseWithoutBegin, audio)
  }

  datatype Outcome = Outcome(next: Controller, published: seq<PttEvent>)

  function Ignore(c: Controller, now: nat, reason: IgnoreReason): Outcome {
    Outcome(c, [Plain(Ignored, c.activeSequence, now).(ignoreReason := reason)])
  }

  function Finish(c: Controller, config: Config, now: nat, reason: EndReason, recorded: Recorded): Outcome {
    match recorded
    case RecorderFailed =>
      Outcome(c.(state := Faulted), [Plain(Error, c.activeSequence, now)])
    case Recorded(audio) =>
      Outcome(c.(state := Idle, activeSequence := 0, startedAtMs := 0), [EndEvent(c, config, now, reason, audio)])
  }

  function Obey(c: Controller, config: Config, command: Command): Outcome {
    match command
    case Begin(now, started) =>
      if c.state.Faulted? then Ignore(c, now, WhileFaulted)
      else if c.state.Recording? then Ignore(c, now, DuplicateBegin)
      else if !started then Outcome(c.(state := Faulted), [Plain(Error, c.activeSequence, now)])
      else Outcome(Controller(Recording, c.nextSequence + 1, c.nextSequence, now),
                   [Plain(Started, c.nextSequence, now)])
    case End(now, recorded) =>
      if c.state.Faulted? then Ignore(c, now, WhileFaulted)
      else if !c.state.Recording? then Ignore(c, now, ReleaseWithoutBegin)
      else Finish(c, config, now, CommandReleased, recorded)
    case Tick(now, recorded) =>
      if c.state.Recording? && config.maxTransmissionMs != 0 && Elapsed(c, now) >= config.maxTransmissionMs then
        Finish(c, config, now, MaxDurationReached, recorded)
      else Outcome(c, [])
    case ResetFault =>
      if c.state.Faulted? then Outcome(c.(state := Idle, activeSequence := 0, startedAtMs := 0), [])
      else Outcome(c, [])
  }

  // -------------------------------------------------------------------- the sink

  const MAX_QUEUED_MESSAGES := 256
  const MAX_QUEUED_TRANSCRIPTIONS := 4

  datatype Message = Event(event: PttEvent) | Text(payload: string)

  datatype WireFrame =
    | AudioStart(turn: nat)
    | AudioCancel(turn: nat)
    | Transcript(turn: nat, durationMs: nat)
    | Payload(payload: string)

  /** The socket worker: between messages, about to queue a turn for transcription, about to send, or gone. */
  datatype Worker = Waiting | Routing(turn: PttEvent) | Sending(frame: WireFrame) | Exited

  /** The recogniser's thread, which exists once a transcriber is set. */
  datatype Recogniser = Absent | Listening | Hearing(turn: PttEvent) | Answering(frame: WireFrame) | Gone

  /** The sink's fields, each worker's place in its loop, and the history of
      what was queued, what was discarded and what was sent. */
  datatype Sink = Sink(
    queue: seq<Message>, dropped: nat, stopping: bool,
    transcriptions: seq<PttEvent>, worker: Worker, recogniser: Recogniser,
    accepted: seq<Message>, lost: seq<Message>, wire: seq<WireFrame>)

  const NEW_SINK := Sink([], 0, false, [], Waiting, Absent, [], [], [])

  datatype Step =
    | Publish(message: Message) | Stop | SetTranscriber
    | WorkerTake | WorkerTranscribe | WorkerSend | WorkerExit
    | RecogniserTake | RecogniserHear(ok: bool) | RecogniserSend | RecogniserExit

  predicate Enabled(s: Sink, step: Step) {
    match step
    case Publish(_) => true
    case Stop => true
    case SetTranscriber => true
    case WorkerTake => s.worker.Waiting? && s.queue != []
    case WorkerTranscribe => s.worker.Routing?
    case WorkerSend => s.worker.Sending?
    case WorkerExit => s.worker.Waiting? && s.queue == [] && s.stopping
    case RecogniserTake => s.recogniser.Listening? && s.transcriptions != []
    case RecogniserHear(_) => s.recogniser.Hearing?
    case RecogniserSend => s.recogniser.Answering?
    case RecogniserExit => s.recogniser.Listening? && s.transcriptions == [] && s.stopping
  }

  /** Where the worker goes with a message it has taken. */
  function Dispatched(m: Message): Worker {
    match m
    case Text(payload) => Sending(Payload(payload))
    case Event(e) =>
      match e.kind
      case Started => Sending(AudioStart(e.sequence))
      case TransmissionReady => Routing(e)
      case Cancelled => Sending(AudioCancel(e.sequence))
      case Ignored => Waiting
      case Error => if e.sequence != 0 then Sending(AudioCancel(e.sequence)) else Waiting
  }

  function Accept(s: Sink, m: Message): Sink {
    var excess := if |s.queue| >= MAX_QUEUED_MESSAGES then |s.queue| + 1 - MAX_QUEUED_MESSAGES else 0;
    s.(queue := s.queue[excess..] + [m], dropped := s.dropped + excess,
       accepted := s.accepted + [m], lost := s.lost + s.queue[..excess])
  }

  predicate CanTranscribe(s: Sink) {
    !s.recogniser.Absent? && !s.stopping && |s.transcriptions| < MAX_QUEUED_TRANSCRIPTIONS
  }

  function Next(s: Sink, step: Step): Sink
    requires Enabled(s, step)
  {
    match step
    case Publish(m) => if s.stopping then s else Accept(s, m)
    case Stop => s.(stopping := true)
    case SetTranscriber => if s.recogniser.Absent? then s.(recogniser := Listening) else s
    case WorkerTake => s.(queue := s.queue[1..], worker := Dispatched(s.queue[0]))
    case WorkerTranscribe =>
      if CanTranscribe(s) then s.(transcriptions := s.transcriptions + [s.worker.turn], worker := Waiting)
      else s.(worker := Sending(AudioCancel(s.worker.turn.sequence)))
    case WorkerSend => s.(worker := Waiting, wire := s.wire + [s.worker.frame])
    case WorkerExit => s.(worker := Exited)
    case RecogniserTake => s.(transcriptions := s.transcriptions[1..], recogniser := Hearing(s.transcriptions[0]))
    case RecogniserHear(ok) =>
      var turn := s.recogniser.turn;
      s.(recogniser := Answering(if ok then Transcript(turn.sequence, turn.durationMs) else AudioCancel(turn.sequence)))
    case RecogniserSend => s.(recogniser := Listening, wire := s.wire + [s.recogniser.frame])
    case RecogniserExit => s.(recogniser := Gone)
  }

  function PublishAll(s: Sink, events: seq<PttEvent>): Sink
    decreases |events|
  {
    if events == [] then s else PublishAll(Next(s, Publish(Event(events[0]))), events[1..])
  }
}
