// src/xplane/xplane_plugin.cpp, the reply arbiter: which of the controller's
// replies is on the air, and what the console is told of each. A pass of the
// flight loop is several steps: wherever it lets go of a lock, replies may
// arrive and the synthesizer may go on.
module ReplyArbiter {
  import opened ByteText
  import RadioText
  import SentenceCutting

  const MAX_QUEUED_REPLIES := 16
  const MAX_IMMEDIATE_REPLIES := 16
  const SENTENCE_GAP_MS := 120
  const SYNTHESIS_DEADLINE_MS := 12000

  /** A reply, numbered as it arrived. It is voiced when the synthesizer was given it. */
  datatype Reply = Reply(id: nat, category: string, text: string, speak: bool, generation: nat, voiced: bool)

  /** What there is of a Speech: how long each finished sentence is, and whether more will come. */
  datatype Speech = Speech(durations: seq<nat>, finished: bool, failed: bool)

  datatype Active = Active(reply: Reply, startedAt: nat, nextSentence: nat, endsAt: nat)

  datatype Basis =
    | NotRequested | EmptyText | VoicesUnavailable | SynthesisFailed | FailedPartway | TimedOut
    | RadioRefused | Preempted | PlaybackElapsed

  /** `late` counts the sentences of a reply that came between the two looks that settled it. */
  datatype Event =
    | Played(id: nat, sentence: nat, at: nat, until: nat)
    | Silenced(id: nat, at: nat)
    | Settled(id: nat, acked: bool, ok: bool, basis: Basis, at: nat, late: nat)

  /** Where the flight loop is: outside a pass; about to take the next of the
      replies it may still start; or between its two looks at the Speech on the
      air. `refused` are the replies whose audio the radio will not take. */
  datatype Place =
    | Resting
    | Taking(tries: nat, refused: set<nat>)
    | Looking(tries: nat, refused: set<nat>, late: nat)

  /** The queue and the reply on the air, the Speeches by reply, the flight
      loop's place, and what happened: every arrival, what overflow dropped, and
      the log. */
  datatype Desk = Desk(
    queue: seq<Reply>, active: Option<Active>, speeches: map<nat, Speech>, clock: nat, place: Place,
    arrived: seq<Reply>, dropped: set<nat>, log: seq<Event>)

  const IDLE := Desk([], None, map[], 0, Resting, [], {}, [])

  predicate IsUrgent(category: string) {
    category == "safety_alert" || category == "emergency_assistance"
  }

  predicate Urgent(r: Reply) {
    IsUrgent(r.category)
  }

  /** How many sentences a text is said in. */
  function Total(text: string): nat {
    |SentenceCutting.Sentences(RadioText.RadioText(text))|
  }

  const UNHEARD := Speech([], false, false)

  function SpeechOf(d: Desk, id: nat): Speech {
    if id in d.speeches then d.speeches[id] else UNHEARD
  }

  // ------------------------------------------------------------------ one reply

  function Noted(d: Desk, e: Event): Desk {
    d.(log := d.log + [e])
  }

  function Late(d: Desk): nat {
    if d.place.Looking? then d.place.late else 0
  }

  function Settlement(d: Desk, r: Reply, ok: bool, basis: Basis): Event {
    Settled(r.id, r.generation != 0, ok, basis, d.clock, Late(d))
  }

  /** The acknowledgement; a reply without a generation gets none. */
  function Acknowledged(d: Desk, r: Reply, ok: bool, basis: Basis): Desk {
    Noted(d, Settlement(d, r, ok, basis))
  }

  function Hushed(d: Desk, a: Active): Desk {
    if a.nextSentence > 0 && d.clock < a.endsAt then Noted(d, Silenced(a.reply.id, d.clock)) else d
  }

  /** The reply on the air is over; a sentence still playing is stopped. */
  function Ending(d: Desk, ok: bool, basis: Basis): Desk
    requires d.active.Some?
  {
    var a := d.active.value;
    Acknowledged(Hushed(d, a), a.reply, ok, basis).(active := None)
  }

  function Playing(d: Desk, duration: nat): Desk
    requires d.active.Some?
  {
    var a := d.active.value;
    var endsAt := d.clock + duration + SENTENCE_GAP_MS;
    Noted(d, Played(a.reply.id, a.nextSentence, d.clock, endsAt))
      .(active := Some(a.(nextSentence := a.nextSentence + 1, endsAt := endsAt)))
  }

  /** The first look at the reply on the air: its next sentence, when there is one and the air is free. */
  function FirstLook(d: Desk, tries: nat, refused: set<nat>): Desk
    requires d.active.Some?
  {
    var a := d.active.value;
    var durations := SpeechOf(d, a.reply.id).durations;
    if d.clock < a.endsAt then d.(place := Resting)
    else if a.nextSentence >= |durations| then d.(place := Looking(tries, refused, 0))
    else if a.reply.id in refused then Ending(d, false, RadioRefused).(place := Taking(tries, refused))
    else Playing(d, durations[a.nextSentence]).(place := Resting)
  }

  /** The second look: whether no sentence will come, or none came in time. */
  function SecondLook(d: Desk): Desk
    requires d.active.Some? && d.place.Looking?
  {
    var a, after := d.active.value, Taking(d.place.tries, d.place.refused);
    var speech := SpeechOf(d, a.reply.id);
    if speech.finished then
      (if a.nextSentence == 0 then Ending(d, false, SynthesisFailed)
       else if speech.failed then Ending(d, false, FailedPartway)
       else Ending(d, true, PlaybackElapsed)).(place := after)
    else if a.nextSentence == 0 && d.clock >= a.startedAt + SYNTHESIS_DEADLINE_MS then
      Ending(d, false, TimedOut).(place := after)
    else d.(place := Resting)
  }

  /** A reply is started: settled at once, or put on the air and looked at. */
  function Started(d: Desk, r: Reply, tries: nat, refused: set<nat>): Desk {
    if r.text == "" then Acknowledged(d, r, false, EmptyText).(place := Taking(tries, refused))
    else if !r.speak then Acknowledged(d, r, true, NotRequested).(place := Taking(tries, refused))
    else if !r.voiced then Acknowledged(d, r, false, VoicesUnavailable).(place := Taking(tries, refused))
    else FirstLook(d.(active := Some(Active(r, d.clock, 0, 0))), tries, refused)
  }

  // ------------------------------------------------------------------- the queue

  function FirstUrgent(queue: seq<Reply>): (i: nat)
    ensures i <= |queue| && (i < |queue| ==> Urgent(queue[i])) && forall k :: 0 <= k < i ==> !Urgent(queue[k])
  {
    if queue == [] || Urgent(queue[0]) then 0 else 1 + FirstUrgent(queue[1..])
  }

  function Without(queue: seq<Reply>, i: nat): (r: seq<Reply>)
    requires i < |queue|
    ensures |r| == |queue| - 1 && forall k :: 0 <= k < |r| ==> r[k] == if k < i then queue[k] else queue[k + 1]
  {
    queue[..i] + queue[i + 1..]
  }

  function Taken(d: Desk, i: nat): Desk
    requires i < |d.queue|
  {
    d.(queue := Without(d.queue, i))
  }

  /** A pass begins. An urgent reply that waits ends the one on the air, urgent or not. */
  function Begun(d: Desk, refused: set<nat>): Desk
    requires d.place.Resting?
  {
    var i := FirstUrgent(d.queue);
    if d.active.None? then d.(place := Taking(MAX_IMMEDIATE_REPLIES, refused))
    else if i < |d.queue| then Started(Ending(Taken(d, i), false, Preempted), d.queue[i], 0, refused)
    else FirstLook(d, MAX_IMMEDIATE_REPLIES, refused)
  }

  /** The next reply is taken, when one waits and another may be started in this pass. */
  function NextTaken(d: Desk): Desk
    requires d.place.Taking?
  {
    if d.place.tries == 0 || d.queue == [] then d.(place := Resting)
    else Started(Taken(d, 0).(place := Resting), d.queue[0], d.place.tries - 1, d.place.refused)
  }

  function DropOldest(d: Desk): Desk {
    if |d.queue| >= MAX_QUEUED_REPLIES then d.(queue := d.queue[1..], dropped := d.dropped + {d.queue[0].id}) else d
  }

  function Queued(d: Desk, r: Reply, speech: Option<Speech>): Desk {
    d.(queue := d.queue + [r], arrived := d.arrived + [r],
       speeches := if speech.Some? then d.speeches[r.id := speech.value] else d.speeches)
  }

  // ----------------------------------------------------------------------- steps

  datatype Step =
    | Arrive(category: string, text: string, speak: bool, generation: nat, speech: Option<Speech>)
    | Pass(now: nat, refused: set<nat>)
    | TakeNext
    | LookAgain
    | Voiced(id: nat, duration: nat)
    | Complete(id: nat, failed: bool)

  predicate SpeechFits(s: Speech, total: nat) {
    |s.durations| <= total && (s.finished && !s.failed ==> |s.durations| == total)
  }

  /** The clock never runs back; a Speech grows until it is finished, and is
      finished without failure only with all its sentences. */
  predicate Enabled(d: Desk, step: Step) {
    match step
    case Arrive(_, text, speak, _, speech) =>
      speech.Some? ==> speak && text != "" && SpeechFits(speech.value, Total(text))
    case Pass(now, _) => d.place.Resting? && now >= d.clock
    case TakeNext => d.place.Taking?
    case LookAgain => d.place.Looking? && d.active.Some?
    case Voiced(id, _) =>
      id in d.speeches && id < |d.arrived| && !d.speeches[id].finished
      && |d.speeches[id].durations| < Total(d.arrived[id].text)
    case Complete(id, failed) =>
      id in d.speeches && id < |d.arrived| && !d.speeches[id].finished
      && (!failed ==> |d.speeches[id].durations| == Total(d.arrived[id].text))
  }

  function ReplyOf(d: Desk, step: Step): Reply
    requires step.Arrive?
  {
    Reply(|d.arrived|, step.category, step.text, step.speak, step.generation, step.speech.Some?)
  }

  predicate IsOnAir(d: Desk, id: nat) {
    d.active.Some? && d.active.value.reply.id == id
  }

  function Grown(d: Desk, id: nat, duration: nat): Desk
    requires id in d.speeches
  {
    var s := d.speeches[id];
    d.(speeches := d.speeches[id := s.(durations := s.durations + [duration])],
       place := if d.place.Looking? && IsOnAir(d, id) then d.place.(late := d.place.late + 1) else d.place)
  }

  function Closed(d: Desk, id: nat, failed: bool): Desk
    requires id in d.speeches
  {
    d.(speeches := d.speeches[id := d.speeches[id].(finished := true, failed := failed)])
  }

  function Next(d: Desk, step: Step): Desk
    requires Enabled(d, step)
  {
    match step
    case Arrive(_, _, _, _, speech) => Queued(DropOldest(d), ReplyOf(d, step), speech)
    case Pass(now, refused) => Begun(d.(clock := now), refused)
    case TakeNext => NextTaken(d)
    case LookAgain => SecondLook(d)
    case Voiced(id, duration) => Grown(d, id, duration)
    case Complete(id, failed) => Closed(d, id, failed)
  }

  predicate Legal(d: Desk, run: seq<Step>)
    decreases |run|
  {
    run == [] || (Enabled(d, run[0]) && Legal(Next(d, run[0]), run[1..]))
  }

  function After(d: Desk, run: seq<Step>): Desk
    requires Legal(d, run)
    decreases |run|
  {
    if run == [] then d else After(Next(d, run[0]), run[1..])
  }
}
