// The synthesizer and the arbiter together: the Speech a reply carries is the
// one the synthesizer fills, so what the arbiter sees of it follows from what
// the voices do. src/xplane/xplane_plugin.cpp:628-641, src/tts/synthesis.cpp.
module SpokenReplies {
  import opened ByteText
  import opened ReplyArbiter
  import opened ArbiterRuns
  import opened ArbiterLooks
  import Synthesis = SynthesisSteps
  import SynthesisRuns
  import SentenceCutting
  import RadioText

  /** How long the audio of a job's sentence plays. */
  type Lengths = (nat, nat) -> nat

  /** A reply the receiver has given to the voices and not yet put on the queue. */
  datatype Received = Received(
    category: string, text: string, speak: bool, generation: nat, speaker: int, job: Option<nat>)

  /** `jobOf` is the job a reply carries the Speech of, `asked` the speaker each
      reply asked for, both by the reply's number. */
  datatype Cockpit = Cockpit(
    desk: Desk, voices: Synthesis.Queue, jobOf: map<nat, nat>, asked: seq<int>, received: Option<Received>)

  function Start(hasVoice: bool): Cockpit {
    Cockpit(IDLE, Synthesis.New(hasVoice), map[], [], None)
  }

  // ---------------------------------------------------------- a shared Speech

  /** What the arbiter sees of a Speech. */
  function Heard(s: Synthesis.Speech, job: nat, length: Lengths): (r: Speech)
    ensures |r.durations| == |s.audio| && r.finished == s.finished && r.failed == s.failed
    ensures forall k :: 0 <= k < |r.durations| ==> r.durations[k] == length(job, k)
  {
    Speech(seq(|s.audio|, (k: nat) => length(job, k)), s.finished, s.failed)
  }

  function SpeechesSeen(speeches: seq<Synthesis.Speech>, jobOf: map<nat, nat>, length: Lengths): (r: map<nat, Speech>)
    ensures forall id :: id in r <==> id in jobOf && jobOf[id] < |speeches|
    ensures forall id :: id in r ==> r[id] == Heard(speeches[jobOf[id]], jobOf[id], length)
  {
    map id | id in jobOf && jobOf[id] < |speeches| :: Heard(speeches[jobOf[id]], jobOf[id], length)
  }

  /** Between its looks the loop counts the sentences that are there and were not played. */
  function Counted(d: Desk): Place {
    if d.place.Looking? && d.active.Some? then
      var ready, played := |SpeechOf(d, d.active.value.reply.id).durations|, d.active.value.nextSentence;
      d.place.(late := if ready >= played then ready - played else 0)
    else d.place
  }

  function Seen(d: Desk, speeches: seq<Synthesis.Speech>, jobOf: map<nat, nat>, length: Lengths): Desk {
    var r := d.(speeches := SpeechesSeen(speeches, jobOf, length));
    r.(place := Counted(r))
  }

  // -------------------------------------------------------------------- steps

  datatype Move =
    | Receive(category: string, text: string, speak: bool, generation: nat, voiced: bool, speaker: int)
    | Push
    | Loop(step: Step)
    | Voice(part: Synthesis.Step)

  predicate Submits(m: Move) {
    m.Receive? && m.voiced && m.speak && m.text != ""
  }

  predicate CanMove(c: Cockpit, m: Move) {
    match m
    case Receive(_, _, _, _, _, _) => c.received.None? && (Submits(m) ==> !c.voices.stopping)
    case Push => c.received.Some?
    case Loop(step) => !FromOutside(step) && Enabled(c.desk, step)
    case Voice(part) => !part.Submit? && Synthesis.Enabled(c.voices, part)
  }

  function VoicesMove(c: Cockpit, step: Synthesis.Step, length: Lengths): Cockpit
    requires Synthesis.AllKnown(c.voices) && Synthesis.Enabled(c.voices, step)
  {
    var voices := Synthesis.Next(c.voices, step);
    c.(voices := voices, desk := Seen(c.desk, voices.speeches, c.jobOf, length))
  }

  function SubmitOf(m: Move): Synthesis.Step
    requires m.Receive?
  {
    Synthesis.Submit(RadioText.RadioText(m.text), m.speaker, IsUrgent(m.category))
  }

  function ArrivalOf(c: Cockpit, r: Received, length: Lengths): Step {
    var speech := if r.job.Some? && r.job.value < |c.voices.speeches|
                  then Some(Heard(c.voices.speeches[r.job.value], r.job.value, length)) else None;
    Arrive(r.category, r.text, r.speak, r.generation, speech)
  }

  function Pushed(c: Cockpit, length: Lengths): Cockpit
    requires c.received.Some?
  {
    var r := c.received.value;
    var arrival := ArrivalOf(c, r, length);
    c.(desk := Queued(DropOldest(c.desk), ReplyOf(c.desk, arrival), arrival.speech), received := None,
       asked := c.asked + [r.speaker],
       jobOf := if r.job.Some? then c.jobOf[|c.desk.arrived| := r.job.value] else c.jobOf)
  }

  function Moved(c: Cockpit, m: Move, length: Lengths): Cockpit
    requires Synthesis.AllKnown(c.voices) && CanMove(c, m)
  {
    match m
    case Receive(category, text, speak, generation, _, speaker) =>
      var job := if Submits(m) then Some(|c.voices.submitted|) else None;
      (if Submits(m) then VoicesMove(c, SubmitOf(m), length) else c)
        .(received := Some(Received(category, text, speak, generation, speaker, job)))
    case Push => Pushed(c, length)
    case Loop(step) => c.(desk := Next(c.desk, step))
    case Voice(part) => VoicesMove(c, part, length)
  }

  /** The job was submitted for this: what is said, how urgent it is and who says it. */
  predicate Serves(job: Synthesis.Job, category: string, text: string, speaker: int) {
    && job.text == RadioText.RadioText(text) && job.speaker == speaker
    && (job.urgent <==> category in {"safety_alert", "emergency_assistance"})
  }

  /** A reply is spoken by the Speech that was made for it, and by no other. */
  predicate Linked(c: Cockpit, length: Lengths) {
    && |c.voices.speeches| == |c.voices.submitted| && |c.asked| == |c.desk.arrived|
    && c.desk.speeches == SpeechesSeen(c.voices.speeches, c.jobOf, length)
    && (forall id :: id in c.jobOf ==>
          id < |c.desk.arrived| && c.jobOf[id] < |c.voices.submitted|
          && Serves(c.voices.submitted[c.jobOf[id]], c.desk.arrived[id].category, c.desk.arrived[id].text, c.asked[id]))
    && (forall id, other :: id in c.jobOf && other in c.jobOf && id != other ==> c.jobOf[id] != c.jobOf[other])
  }

  predicate ReceivedFits(c: Cockpit) {
    c.received.Some? && c.received.value.job.Some? ==>
      var r := c.received.value;
      && r.speak && r.text != ""
      && r.job.value < |c.voices.submitted|
      && Serves(c.voices.submitted[r.job.value], r.category, r.text, r.speaker)
      && forall id :: id in c.jobOf ==> c.jobOf[id] != r.job.value
  }

  predicate Joined(c: Cockpit, length: Lengths) {
    Inv(c.desk, None) && Synthesis.Inv(c.voices) && Linked(c, length) && ReceivedFits(c)
  }

  // ------------------------------------- what the voices do, as the arbiter sees it

  lemma NothingSeen(speeches: seq<Synthesis.Speech>, later: seq<Synthesis.Speech>, jobOf: map<nat, nat>,
                    length: Lengths)
    requires |speeches| <= |later|
    requires forall id :: id in jobOf ==> jobOf[id] < |speeches| && later[jobOf[id]] == speeches[jobOf[id]]
    ensures SpeechesSeen(later, jobOf, length) == SpeechesSeen(speeches, jobOf, length)
  {}

  lemma OneSeen(speeches: seq<Synthesis.Speech>, id: nat, s: Synthesis.Speech, jobOf: map<nat, nat>, length: Lengths)
    requires forall k :: k in jobOf ==> jobOf[k] < |speeches|
    requires id in jobOf && forall k :: k in jobOf && k != id ==> jobOf[k] != jobOf[id]
    ensures SpeechesSeen(speeches[jobOf[id] := s], jobOf, length)
            == SpeechesSeen(speeches, jobOf, length)[id := Heard(s, jobOf[id], length)]
  {}

  lemma HeardMore(s: Synthesis.Speech, audio: Synthesis.Audio, job: nat, length: Lengths)
    ensures var h := Heard(s, job, length);
            Heard(s.(audio := s.audio + [audio]), job, length)
              == h.(durations := h.durations + [length(job, |s.audio|)])
  {}

  lemma HeardEnd(s: Synthesis.Speech, failed: bool, job: nat, length: Lengths)
    ensures Heard(s.(finished := true, failed := failed), job, length)
            == Heard(s, job, length).(finished := true, failed := failed)
  {}

  lemma CountStays(d: Desk)
    requires PlaceFits(d)
    ensures Counted(d) == d.place
  {}

  lemma CountGrows(d: Desk, id: nat, duration: nat)
    requires PlaceFits(d) && id in d.speeches
    ensures var r := Grown(d, id, duration);
            r == d.(speeches := r.speeches, place := Counted(d.(speeches := r.speeches)))
  {}

  lemma CountIsKept(d: Desk, id: nat, failed: bool)
    requires PlaceFits(d) && id in d.speeches
    ensures var r := Closed(d, id, failed);
            r == d.(speeches := r.speeches, place := Counted(d.(speeches := r.speeches)))
  {}

  lemma SeenIsTheSame(c: Cockpit, speeches: seq<Synthesis.Speech>, length: Lengths)
    requires PlaceFits(c.desk) && Linked(c, length) && |speeches| >= |c.voices.speeches|
    requires forall id :: id in c.jobOf ==> speeches[c.jobOf[id]] == c.voices.speeches[c.jobOf[id]]
    ensures Seen(c.desk, speeches, c.jobOf, length) == c.desk
  {
    NothingSeen(c.voices.speeches, speeches, c.jobOf, length);
    CountStays(c.desk);
  }

  /** The reply a job speaks for, if one was put on the queue. */
  lemma ReplyOfJob(c: Cockpit, job: nat) returns (reply: Option<nat>)
    ensures reply.Some? ==> reply.value in c.jobOf && c.jobOf[reply.value] == job
    ensures reply.None? ==> forall id :: id in c.jobOf ==> c.jobOf[id] != job
  {
    if id :| id in c.jobOf && c.jobOf[id] == job {
      reply := Some(id);
    } else {
      reply := None;
    }
  }

  lemma GrownIsSeen(c: Cockpit, id: nat, speeches: seq<Synthesis.Speech>, audio: Synthesis.Audio, length: Lengths)
    requires PlaceFits(c.desk) && Linked(c, length) && id in c.jobOf
    requires var job := c.jobOf[id];
             var s := c.voices.speeches[job];
             speeches == c.voices.speeches[job := s.(audio := s.audio + [audio])]
    ensures id in c.desk.speeches
    ensures Grown(c.desk, id, length(c.jobOf[id], |c.desk.speeches[id].durations|))
            == Seen(c.desk, speeches, c.jobOf, length)
  {
    var d, job := c.desk, c.jobOf[id];
    var s := c.voices.speeches[job];
    OneSeen(c.voices.speeches, id, s.(audio := s.audio + [audio]), c.jobOf, length);
    HeardMore(s, audio, job, length);
    CountGrows(d, id, length(job, |s.audio|));
  }

  lemma ClosedIsSeen(c: Cockpit, id: nat, speeches: seq<Synthesis.Speech>, failed: bool, length: Lengths)
    requires PlaceFits(c.desk) && Linked(c, length) && id in c.jobOf
    requires var job := c.jobOf[id];
             speeches == c.voices.speeches[job := c.voices.speeches[job].(finished := true, failed := failed)]
    ensures id in c.desk.speeches
    ensures Closed(c.desk, id, failed) == Seen(c.desk, speeches, c.jobOf, length)
  {
    var d, job := c.desk, c.jobOf[id];
    var s := c.voices.speeches[job];
    OneSeen(c.voices.speeches, id, s.(finished := true, failed := failed), c.jobOf, length);
    HeardEnd(s, failed, job, length);
    CountIsKept(d, id, failed);
  }

  lemma OneStepRun(d: Desk, step: Step)
    requires Enabled(d, step) && FromOutside(step)
    ensures Legal(d, [step]) && After(d, [step]) == Next(d, step) && AllOutside([step])
  {
    assert [step][1..] == [];
  }

  /** A sentence that is voiced is one the arbiter sees come, or nothing to it. */
  lemma VoicedIsSeen(c: Cockpit, job: nat, audio: Synthesis.Audio, speeches: seq<Synthesis.Speech>, length: Lengths)
    returns (steps: seq<Step>)
    requires Joined(c, length) && job < |c.voices.speeches|
    requires var s := c.voices.speeches[job];
             !s.finished && |s.audio| < |SentenceCutting.Sentences(c.voices.submitted[job].text)|
             && speeches == c.voices.speeches[job := s.(audio := s.audio + [audio])]
    ensures AllOutside(steps) && Legal(c.desk, steps)
    ensures After(c.desk, steps) == Seen(c.desk, speeches, c.jobOf, length)
  {
    var reply := ReplyOfJob(c, job);
    if reply.Some? {
      var step := Voiced(reply.value, length(job, |c.desk.speeches[reply.value].durations|));
      GrownIsSeen(c, reply.value, speeches, audio, length);
      OneStepRun(c.desk, step);
      steps := [step];
    } else {
      SeenIsTheSame(c, speeches, length);
      steps := [];
    }
  }

  /** A Speech that is finished is one the arbiter sees end, whole unless it failed. */
  lemma FinishIsSeen(c: Cockpit, job: nat, failed: bool, speeches: seq<Synthesis.Speech>, length: Lengths)
    returns (steps: seq<Step>)
    requires Joined(c, length) && job < |c.voices.speeches|
    requires var s := c.voices.speeches[job];
             !s.finished && (failed || |s.audio| == |SentenceCutting.Sentences(c.voices.submitted[job].text)|)
             && speeches == c.voices.speeches[job := s.(finished := true, failed := failed)]
    ensures AllOutside(steps) && Legal(c.desk, steps)
    ensures After(c.desk, steps) == Seen(c.desk, speeches, c.jobOf, length)
  {
    var reply := ReplyOfJob(c, job);
    if reply.Some? {
      ClosedIsSeen(c, reply.value, speeches, failed, length);
      OneStepRun(c.desk, Complete(reply.value, failed));
      steps := [Complete(reply.value, failed)];
    } else {
      SeenIsTheSame(c, speeches, length);
      steps := [];
    }
  }

  // --------------------------------------------------------------- every step

  lemma JoinedAfter(c: Cockpit, voices: Synthesis.Queue, steps: seq<Step>, length: Lengths)
    requires Joined(c, length) && Synthesis.Inv(voices) && c.voices.submitted <= voices.submitted
    requires Legal(c.desk, steps) && After(c.desk, steps) == Seen(c.desk, voices.speeches, c.jobOf, length)
    ensures Joined(c.(voices := voices, desk := Seen(c.desk, voices.speeches, c.jobOf, length)), length)
  {
    RunKeepsFrom(c.desk, steps);
  }

  lemma SeenTwice(d: Desk, some: seq<Synthesis.Speech>, more: seq<Synthesis.Speech>, jobOf: map<nat, nat>,
                  length: Lengths)
    ensures Seen(Seen(d, some, jobOf, length), more, jobOf, length) == Seen(d, more, jobOf, length)
  {}

  lemma WaitingIsUnfinished(q: Synthesis.Queue, i: nat)
    requires Synthesis.Inv(q) && i < |q.jobs|
    ensures q.jobs[i].id < |q.speeches| && q.speeches[q.jobs[i].id] == Synthesis.SILENCE
  {
    assert Synthesis.Known(q, q.jobs[i].id) && Synthesis.IsWaiting(q, q.jobs[i].id);
    assert Synthesis.Placed(q, q.jobs[i].id);
  }

  lemma GivenUpIsSeen(c: Cockpit, i: nat, length: Lengths) returns (steps: seq<Step>)
    requires Joined(c, length) && i < |c.voices.jobs|
    requires Synthesis.Known(c.voices, c.voices.jobs[i].id)
    ensures AllOutside(steps) && Legal(c.desk, steps)
    ensures After(c.desk, steps)
            == Seen(c.desk, Synthesis.Finished(c.voices, c.voices.jobs[i].id, true).speeches, c.jobOf, length)
  {
    WaitingIsUnfinished(c.voices, i);
    steps := FinishIsSeen(c, c.voices.jobs[i].id, true,
                          Synthesis.Finished(c.voices, c.voices.jobs[i].id, true).speeches, length);
  }

  lemma SubmitIsSeen(c: Cockpit, text: string, speaker: int, urgent: bool, length: Lengths) returns (steps: seq<Step>)
    requires Joined(c, length)
    ensures AllOutside(steps) && Legal(c.desk, steps)
    ensures After(c.desk, steps)
            == Seen(c.desk, Synthesis.Queued(Synthesis.Evicted(c.voices), text, speaker, urgent).speeches, c.jobOf,
                    length)
  {
    var evicted := Synthesis.Evicted(c.voices).speeches;
    if |c.voices.jobs| < Synthesis.MAX_WAITING {
      SeenIsTheSame(c, evicted, length);
      steps := [];
    } else {
      steps := GivenUpIsSeen(c, Synthesis.Victim(c.voices.jobs), length);
    }
    NothingSeen(evicted, evicted + [Synthesis.SILENCE], c.jobOf, length);
  }

  lemma SayingIsSeen(c: Cockpit, voiced: bool, length: Lengths) returns (steps: seq<Step>)
    requires Joined(c, length) && Synthesis.Enabled(c.voices, Synthesis.Say(voiced))
    ensures AllOutside(steps) && Legal(c.desk, steps)
    ensures After(c.desk, steps) == Seen(c.desk, Synthesis.Said(c.voices, voiced).speeches, c.jobOf, length)
  {
    var w, speeches := c.voices.worker, Synthesis.Said(c.voices, voiced).speeches;
    if voiced {
      steps := VoicedIsSeen(c, w.job.id, Synthesis.Audio(SentenceCutting.Sentences(w.job.text)[w.said], w.job.speaker),
                            speeches, length);
    } else {
      SeenIsTheSame(c, speeches, length);
      steps := [];
    }
  }

  lemma DoneIsSeen(c: Cockpit, length: Lengths) returns (steps: seq<Step>)
    requires Joined(c, length) && Synthesis.Enabled(c.voices, Synthesis.Finish)
    ensures AllOutside(steps) && Legal(c.desk, steps)
    ensures After(c.desk, steps) == Seen(c.desk, Synthesis.Done(c.voices).speeches, c.jobOf, length)
  {
    var w := c.voices.worker;
    steps := FinishIsSeen(c, w.job.id, w.failed, Synthesis.Done(c.voices).speeches, length);
  }

  /** The jobs that still wait when the destructor is through are given up one by one. */
  lemma {:induction false} DrainIsSeen(c: Cockpit, length: Lengths) returns (steps: seq<Step>)
    requires Joined(c, length)
    ensures AllOutside(steps) && Legal(c.desk, steps)
    ensures After(c.desk, steps)
            == Seen(c.desk, Synthesis.FinishAll(c.voices, c.voices.jobs).speeches, c.jobOf, length)
    decreases |c.voices.jobs|
  {
    var q := c.voices;
    if q.jobs == [] {
      SeenIsTheSame(c, q.speeches, length);
      return [];
    }
    var first := GivenUpIsSeen(c, 0, length);
    var rest := OneGivenUp(c, first, length);
    var more := DrainIsSeen(rest, length);
    SeenTwice(c.desk, rest.voices.speeches, Synthesis.FinishAll(rest.voices, rest.voices.jobs).speeches, c.jobOf,
              length);
    RunParts(c.desk, first, more);
    steps := first + more;
  }

  lemma OneGivenUp(c: Cockpit, steps: seq<Step>, length: Lengths) returns (rest: Cockpit)
    requires Joined(c, length) && c.voices.jobs != [] && Legal(c.desk, steps)
    requires After(c.desk, steps)
             == Seen(c.desk, Synthesis.Finished(c.voices, c.voices.jobs[0].id, true).speeches, c.jobOf, length)
    ensures Joined(rest, length) && |rest.voices.jobs| < |c.voices.jobs| && rest.desk == After(c.desk, steps)
    ensures rest.jobOf == c.jobOf && rest.desk == Seen(c.desk, rest.voices.speeches, c.jobOf, length)
    ensures Synthesis.FinishAll(rest.voices, rest.voices.jobs).speeches
            == Synthesis.FinishAll(c.voices, c.voices.jobs).speeches
  {
    var q := c.voices;
    var finished := Synthesis.Finished(q, q.jobs[0].id, true);
    var voices := finished.(jobs := q.jobs[1..]);
    SynthesisRuns.GivenUpKeeps(q, 0);
    assert Synthesis.Without(q.jobs, 0) == q.jobs[1..];
    rest := c.(voices := voices, desk := Seen(c.desk, voices.speeches, c.jobOf, length));
    JoinedAfter(c, voices, steps, length);
    SynthesisRuns.FinishAllIgnoresJobs(finished, q.jobs[1..], q.jobs[1..]);
  }

  /** Whatever the voices do is a step the arbiter may see, or none. */
  lemma VoicesAreSeen(c: Cockpit, part: Synthesis.Step, length: Lengths) returns (steps: seq<Step>)
    requires Joined(c, length) && Synthesis.Enabled(c.voices, part)
    ensures AllOutside(steps) && Legal(c.desk, steps)
    ensures After(c.desk, steps) == VoicesMove(c, part, length).desk && Joined(VoicesMove(c, part, length), length)
  {
    var voices := Synthesis.Next(c.voices, part);
    match part {
      case Submit(text, speaker, urgent) => steps := SubmitIsSeen(c, text, speaker, urgent, length);
      case Say(voiced) => steps := SayingIsSeen(c, voiced, length);
      case Finish => steps := DoneIsSeen(c, length);
      case Drain => steps := DrainIsSeen(c, length);
      case _ =>
        SeenIsTheSame(c, voices.speeches, length);
        steps := [];
    }
    SynthesisRuns.StepKeeps(c.voices, part);
    SubmittedStay(c.voices, part);
    JoinedAfter(c, voices, steps, length);
  }

  lemma SubmittedStay(q: Synthesis.Queue, part: Synthesis.Step)
    requires Synthesis.Inv(q) && Synthesis.Enabled(q, part)
    ensures q.submitted <= Synthesis.Next(q, part).submitted
  {
    if part.Drain? {
      SynthesisRuns.FinishAllKeeps(q);
    }
  }

  lemma SubmittedLast(q: Synthesis.Queue, part: Synthesis.Step)
    requires Synthesis.Inv(q) && Synthesis.Enabled(q, part) && part.Submit?
    ensures var r := Synthesis.Next(q, part);
            && |r.submitted| == |q.submitted| + 1
            && r.submitted[|q.submitted|] == Synthesis.Job(part.text, part.speaker, part.urgent, |q.submitted|)
  {}

  lemma ReceiveIsSeen(c: Cockpit, m: Move, length: Lengths) returns (steps: seq<Step>)
    requires Joined(c, length) && m.Receive? && CanMove(c, m)
    ensures Legal(c.desk, steps) && After(c.desk, steps) == Moved(c, m, length).desk
    ensures Joined(Moved(c, m, length), length)
  {
    if Submits(m) {
      steps := VoicesAreSeen(c, SubmitOf(m), length);
      SubmittedLast(c.voices, SubmitOf(m));
    } else {
      steps := [];
    }
  }

  /** What there is of a Speech when its reply is put on the queue fits the reply. */
  lemma ArrivalIsEnabled(c: Cockpit, length: Lengths)
    requires Joined(c, length) && c.received.Some?
    ensures Enabled(c.desk, ArrivalOf(c, c.received.value, length))
  {
    var r := c.received.value;
    if r.job.Some? {
      assert Synthesis.Known(c.voices, r.job.value) && Synthesis.Placed(c.voices, r.job.value);
    }
  }

  lemma OneMoreSeen(speeches: seq<Synthesis.Speech>, id: nat, job: nat, jobOf: map<nat, nat>, length: Lengths)
    requires job < |speeches| && id !in jobOf
    ensures SpeechesSeen(speeches, jobOf[id := job], length)
            == SpeechesSeen(speeches, jobOf, length)[id := Heard(speeches[job], job, length)]
  {}

  lemma PushedIsLinked(c: Cockpit, length: Lengths)
    requires Joined(c, length) && c.received.Some?
    ensures Linked(Pushed(c, length), length)
  {
    var r, id := c.received.value, |c.desk.arrived|;
    DropLeavesSpeeches(c.desk);
    if r.job.Some? {
      OneMoreSeen(c.voices.speeches, id, r.job.value, c.jobOf, length);
      JobIsLinked(c, Pushed(c, length), id, r.job.value, length);
    }
  }

  lemma DropLeavesSpeeches(d: Desk)
    ensures DropOldest(d).speeches == d.speeches && DropOldest(d).arrived == d.arrived
  {}

  lemma JobIsLinked(c: Cockpit, r: Cockpit, id: nat, job: nat, length: Lengths)
    requires Linked(c, length) && id == |c.desk.arrived| && |r.desk.arrived| == id + 1
             && r.desk.arrived[..id] == c.desk.arrived
    requires r.voices == c.voices && r.jobOf == c.jobOf[id := job] && job < |c.voices.submitted|
    requires |r.asked| == |r.desk.arrived| && r.asked[..id] == c.asked
    requires Serves(c.voices.submitted[job], r.desk.arrived[id].category, r.desk.arrived[id].text, r.asked[id])
    requires forall k :: k in c.jobOf ==> c.jobOf[k] != job
    requires r.desk.speeches == SpeechesSeen(r.voices.speeches, r.jobOf, length)
    ensures Linked(r, length)
  {
    forall k | k in r.jobOf
      ensures k < |r.desk.arrived| && r.jobOf[k] < |r.voices.submitted|
      ensures Serves(r.voices.submitted[r.jobOf[k]], r.desk.arrived[k].category, r.desk.arrived[k].text, r.asked[k])
    {
      assert k != id ==> k in c.jobOf && r.desk.arrived[k] == c.desk.arrived[k] && r.asked[k] == c.asked[k];
    }
  }

  lemma PushIsSeen(c: Cockpit, length: Lengths) returns (steps: seq<Step>)
    requires Joined(c, length) && c.received.Some?
    ensures Legal(c.desk, steps) && After(c.desk, steps) == Pushed(c, length).desk
    ensures Joined(Pushed(c, length), length)
  {
    var arrival := ArrivalOf(c, c.received.value, length);
    ArrivalIsEnabled(c, length);
    OneStepRun(c.desk, arrival);
    StepKeeps(c.desk, arrival);
    PushedIsLinked(c, length);
    steps := [arrival];
  }

  lemma LoopIsSeen(c: Cockpit, step: Step, length: Lengths)
    requires Joined(c, length) && !FromOutside(step) && Enabled(c.desk, step)
    ensures Legal(c.desk, [step]) && After(c.desk, [step]) == Next(c.desk, step)
    ensures Joined(c.(desk := Next(c.desk, step)), length)
  {
    assert [step][1..] == [];
    LoopLeavesSpeeches(c.desk, step);
    StepKeeps(c.desk, step);
  }

  lemma MoveIsSeen(c: Cockpit, m: Move, length: Lengths) returns (steps: seq<Step>)
    requires Joined(c, length) && CanMove(c, m)
    ensures Legal(c.desk, steps) && After(c.desk, steps) == Moved(c, m, length).desk
    ensures Joined(Moved(c, m, length), length)
  {
    match m {
      case Receive(_, _, _, _, _, _) => steps := ReceiveIsSeen(c, m, length);
      case Push => steps := PushIsSeen(c, length);
      case Loop(step) =>
        LoopIsSeen(c, step, length);
        steps := [step];
      case Voice(part) => steps := VoicesAreSeen(c, part, length);
    }
  }

  // ---------------------------------------------------------------- whole runs

  predicate CanRun(c: Cockpit, moves: seq<Move>, length: Lengths)
    decreases |moves|
  {
    moves == [] || (Synthesis.AllKnown(c.voices) && CanMove(c, moves[0])
                    && CanRun(Moved(c, moves[0], length), moves[1..], length))
  }

  function AfterMoves(c: Cockpit, moves: seq<Move>, length: Lengths): Cockpit
    requires CanRun(c, moves, length)
    decreases |moves|
  {
    if moves == [] then c else AfterMoves(Moved(c, moves[0], length), moves[1..], length)
  }

  lemma {:induction false} RunIsSeenFrom(c: Cockpit, moves: seq<Move>, length: Lengths) returns (run: seq<Step>)
    requires Joined(c, length) && CanRun(c, moves, length)
    ensures Legal(c.desk, run) && After(c.desk, run) == AfterMoves(c, moves, length).desk
    ensures Joined(AfterMoves(c, moves, length), length)
    decreases |moves|
  {
    if moves == [] {
      return [];
    }
    var steps := MoveIsSeen(c, moves[0], length);
    var more := RunIsSeenFrom(Moved(c, moves[0], length), moves[1..], length);
    RunParts(c.desk, steps, more);
    run := steps + more;
  }

  lemma NewQueueKeeps(hasVoice: bool)
    ensures Synthesis.Inv(Synthesis.New(hasVoice))
  {}

  lemma NothingIsLinked(c: Cockpit, length: Lengths)
    requires c.voices.speeches == [] && c.voices.submitted == [] && c.desk.speeches == map[] && c.jobOf == map[]
    requires |c.asked| == |c.desk.arrived|
    ensures Linked(c, length)
  {
    assert SpeechesSeen(c.voices.speeches, c.jobOf, length) == map[];
  }

  lemma IdleKeeps()
    ensures Inv(IDLE, None)
  {
    NothingRun(IDLE);
    RunKeeps([]);
  }

  lemma Together(c: Cockpit, length: Lengths)
    requires Inv(c.desk, None) && Synthesis.Inv(c.voices) && Linked(c, length) && c.received.None?
    ensures Joined(c, length)
  {}

  lemma StartIsJoined(hasVoice: bool, length: Lengths)
    ensures Joined(Start(hasVoice), length)
  {
    IdleKeeps();
    NewQueueKeeps(hasVoice);
    NothingIsLinked(Start(hasVoice), length);
    Together(Start(hasVoice), length);
  }

  /** Every run of receiver, voices and flight loop together is, to the arbiter, a
      run of its own steps: no more is assumed of a Speech than the voices keep. */
  lemma ArbiterSeesARun(hasVoice: bool, moves: seq<Move>, length: Lengths) returns (run: seq<Step>)
    requires CanRun(Start(hasVoice), moves, length)
    ensures Legal(IDLE, run) && After(IDLE, run) == AfterMoves(Start(hasVoice), moves, length).desk
    ensures Joined(AfterMoves(Start(hasVoice), moves, length), length)
  {
    StartIsJoined(hasVoice, length);
    run := RunIsSeenFrom(Start(hasVoice), moves, length);
  }

  // ------------------------------------------------------------ what is heard

  /** A sentence played is one of the reply's Speech and plays as long as that
      does; a spoken reply is delivered only with its Speech finished whole. */
  predicate Matches(d: Desk, e: Event) {
    && (e.Played? ==>
          e.id in d.speeches && e.sentence < |d.speeches[e.id].durations|
          && e.until == e.at + d.speeches[e.id].durations[e.sentence] + SENTENCE_GAP_MS)
    && (Delivery(e) && e.id < |d.arrived| && d.arrived[e.id].speak ==>
          e.id in d.speeches && d.speeches[e.id].finished && !d.speeches[e.id].failed)
  }

  predicate AllMatch(d: Desk) {
    forall k :: 0 <= k < |d.log| ==> Matches(d, d.log[k])
  }

  predicate GoesOn(s: Speech, r: Speech) {
    s.durations <= r.durations && (s.finished ==> r == s)
  }

  lemma SpeechesGoOn(d: Desk, step: Step)
    requires Inv(d, None) && Enabled(d, step)
    ensures forall id :: id in d.speeches ==>
              id in Next(d, step).speeches && GoesOn(d.speeches[id], Next(d, step).speeches[id])
  {
    if !FromOutside(step) {
      LoopLeavesSpeeches(d, step);
    }
  }

  lemma MatchesStill(d: Desk, r: Desk, e: Event)
    requires Matches(d, e) && e.id < |d.arrived| && d.arrived <= r.arrived
    requires forall id :: id in d.speeches ==> id in r.speeches && GoesOn(d.speeches[id], r.speeches[id])
    ensures Matches(r, e)
  {}

  predicate PlaysMatch(d: Desk, r: Desk) {
    d.log <= r.log && r.speeches == d.speeches
    && forall k :: |d.log| <= k < |r.log| && r.log[k].Played? ==>
         var e := r.log[k];
         && e.id in d.speeches && e.sentence < |d.speeches[e.id].durations|
         && e.until == e.at + d.speeches[e.id].durations[e.sentence] + SENTENCE_GAP_MS
  }

  lemma FirstLookMatches(d: Desk, tries: nat, refused: set<nat>)
    requires d.active.Some?
    ensures PlaysMatch(d, FirstLook(d, tries, refused))
  {}

  lemma StartedMatches(d: Desk, r: Reply, tries: nat, refused: set<nat>)
    ensures PlaysMatch(d, Started(d, r, tries, refused))
  {
    FirstLookMatches(d.(active := Some(Active(r, d.clock, 0, 0))), tries, refused);
  }

  lemma EndingMatches(d: Desk, ok: bool, basis: Basis)
    requires d.active.Some?
    ensures PlaysMatch(d, Ending(d, ok, basis))
  {}

  lemma BegunMatches(d: Desk, refused: set<nat>)
    requires d.place.Resting?
    ensures PlaysMatch(d, Begun(d, refused))
  {
    var i := FirstUrgent(d.queue);
    if d.active.Some? && i < |d.queue| {
      EndingMatches(Taken(d, i), false, Preempted);
      StartedMatches(Ending(Taken(d, i), false, Preempted), d.queue[i], 0, refused);
    } else if d.active.Some? {
      FirstLookMatches(d, MAX_IMMEDIATE_REPLIES, refused);
    }
  }

  lemma LoopMatches(d: Desk, step: Step)
    requires Enabled(d, step) && !FromOutside(step)
    ensures PlaysMatch(d, Next(d, step))
  {
    match step
    case Pass(now, refused) => BegunMatches(d.(clock := now), refused);
    case TakeNext =>
      if d.place.tries > 0 && d.queue != [] {
        StartedMatches(Taken(d, 0).(place := Resting), d.queue[0], d.place.tries - 1, d.place.refused);
      }
    case LookAgain => SecondLookMatches(d);
  }

  lemma SecondLookMatches(d: Desk)
    requires d.active.Some? && d.place.Looking?
    ensures PlaysMatch(d, SecondLook(d))
  {
    EndingMatches(d, false, SynthesisFailed);
    EndingMatches(d, false, FailedPartway);
    EndingMatches(d, true, PlaybackElapsed);
    EndingMatches(d, false, TimedOut);
  }

  /** What a second look reports as delivered is finished and did not fail. */
  lemma DeliveredIsFinished(d: Desk, n: nat)
    requires d.active.Some? && d.place.Looking? && |d.log| <= n < |SecondLook(d).log| && Delivery(SecondLook(d).log[n])
    ensures var s := SpeechOf(d, d.active.value.reply.id); s.finished && !s.failed
  {}

  lemma NotedMatches(d: Desk, step: Step, n: nat)
    requires Inv(d, None) && Enabled(d, step) && |d.log| <= n < |Next(d, step).log|
    ensures Matches(Next(d, step), Next(d, step).log[n])
  {
    var r := Next(d, step);
    LoopMatches(d, step);
    LoopLeavesSpeeches(d, step);
    if Delivery(r.log[n]) && r.log[n].id < |r.arrived| && r.arrived[r.log[n].id].speak {
      DeliveredAtALook(d, step, n);
      DeliveredIsFinished(d, n);
    }
  }

  lemma StepMatches(d: Desk, step: Step)
    requires Inv(d, None) && AllMatch(d) && Enabled(d, step)
    ensures AllMatch(Next(d, step))
  {
    var r := Next(d, step);
    StepAppends(d, step);
    SpeechesGoOn(d, step);
    forall k | 0 <= k < |r.log|
      ensures Matches(r, r.log[k])
    {
      if k < |d.log| {
        MatchesStill(d, r, d.log[k]);
      } else {
        NotedMatches(d, step, k);
      }
    }
  }

  lemma {:induction false} RunMatches(d: Desk, run: seq<Step>)
    requires Inv(d, None) && AllMatch(d) && Legal(d, run)
    ensures AllMatch(After(d, run))
    decreases |run|
  {
    if run != [] {
      StepMatches(d, run[0]);
      StepKeeps(d, run[0]);
      RunMatches(Next(d, run[0]), run[1..]);
    }
  }

  function SpeakerOf(m: Move): seq<int> {
    if m.Receive? then [m.speaker] else []
  }

  /** The speakers of the replies received, in order. */
  function SpeakersIn(moves: seq<Move>): seq<int> {
    if moves == [] then [] else SpeakerOf(moves[0]) + SpeakersIn(moves[1..])
  }

  function AskedSoFar(c: Cockpit): seq<int> {
    c.asked + if c.received.Some? then [c.received.value.speaker] else []
  }

  lemma MoveAsks(c: Cockpit, m: Move, length: Lengths)
    requires Synthesis.AllKnown(c.voices) && CanMove(c, m)
    ensures AskedSoFar(Moved(c, m, length)) == AskedSoFar(c) + SpeakerOf(m)
  {}

  lemma Grouped(a: seq<int>, b: seq<int>, c: seq<int>)
    ensures a + b + c == a + (b + c)
  {}

  lemma {:induction false} AskedAsReceived(c: Cockpit, moves: seq<Move>, length: Lengths)
    requires CanRun(c, moves, length)
    ensures AskedSoFar(AfterMoves(c, moves, length)) == AskedSoFar(c) + SpeakersIn(moves)
    decreases |moves|
  {
    if moves != [] {
      AskedAsReceived(Moved(c, moves[0], length), moves[1..], length);
      MoveAsks(c, moves[0], length);
      Grouped(AskedSoFar(c), SpeakerOf(moves[0]), SpeakersIn(moves[1..]));
    }
  }

  lemma AskedAreReceived(hasVoice: bool, moves: seq<Move>, length: Lengths)
    requires CanRun(Start(hasVoice), moves, length)
    ensures AfterMoves(Start(hasVoice), moves, length).asked <= SpeakersIn(moves)
  {
    AskedAsReceived(Start(hasVoice), moves, length);
    AskedIsAPrefix(AfterMoves(Start(hasVoice), moves, length), AskedSoFar(Start(hasVoice)), SpeakersIn(moves));
  }

  lemma AskedIsAPrefix(c: Cockpit, none: seq<int>, speakers: seq<int>)
    requires none == [] && AskedSoFar(c) == none + speakers
    ensures c.asked <= speakers
  {
    assert none + speakers == speakers;
    assert c.asked <= AskedSoFar(c);
  }

  /** The job of the reply that an event is about. */
  predicate HasJob(c: Cockpit, id: nat) {
    && id < |c.desk.arrived| == |c.asked| && id in c.jobOf && c.jobOf[id] < |c.voices.speeches| == |c.voices.submitted|
    && Serves(c.voices.submitted[c.jobOf[id]], c.desk.arrived[id].category, c.desk.arrived[id].text, c.asked[id])
  }

  /** The sentence was that reply's own, in the voice it asked for, and played its length. */
  predicate PlayedItsOwn(c: Cockpit, length: Lengths, e: Event)
    requires e.Played? && HasJob(c, e.id)
  {
    var audio := c.voices.speeches[c.jobOf[e.id]].audio;
    var pieces := SentenceCutting.Sentences(RadioText.RadioText(c.desk.arrived[e.id].text));
    && e.sentence < |audio| <= |pieces|
    && audio[e.sentence] == Synthesis.Audio(pieces[e.sentence], c.asked[e.id])
    && e.until == e.at + length(c.jobOf[e.id], e.sentence) + SENTENCE_GAP_MS
  }

  lemma PlayedOfJoined(c: Cockpit, length: Lengths, e: Event)
    requires Joined(c, length) && e.Played? && Matches(c.desk, e)
    ensures HasJob(c, e.id) && PlayedItsOwn(c, length, e)
  {
    var job := c.jobOf[e.id];
    assert Synthesis.Known(c.voices, job) && Synthesis.Placed(c.voices, job);
  }

  /** Each sentence that is played is the audio of that sentence of what the reply
      says, by the speaker it was received with, and holds the air as long as it
      lasts. */
  lemma PlayedIsWhatWasSaid(hasVoice: bool, moves: seq<Move>, length: Lengths, n: nat)
    requires CanRun(Start(hasVoice), moves, length)
    requires var d := AfterMoves(Start(hasVoice), moves, length).desk; n < |d.log| && d.log[n].Played?
    ensures var c := AfterMoves(Start(hasVoice), moves, length);
            var e := c.desk.log[n];
            HasJob(c, e.id) && c.asked <= SpeakersIn(moves) && PlayedItsOwn(c, length, e)
  {
    var c := AfterMoves(Start(hasVoice), moves, length);
    var run := ArbiterSeesARun(hasVoice, moves, length);
    IdleKeeps();
    RunMatches(IDLE, run);
    AskedAreReceived(hasVoice, moves, length);
    assert Matches(c.desk, c.desk.log[n]);
    PlayedOfJoined(c, length, c.desk.log[n]);
  }

  lemma DeliveredOfJoined(c: Cockpit, length: Lengths, e: Event)
    requires Joined(c, length) && Delivery(e) && Matches(c.desk, e) && e.id < |c.desk.arrived|
             && c.desk.arrived[e.id].speak
    ensures HasJob(c, e.id)
    ensures var job, speech := c.voices.submitted[c.jobOf[e.id]], c.voices.speeches[c.jobOf[e.id]];
            && speech.finished && !speech.failed && speech.audio == Synthesis.AllSpoken(job)
            && |speech.audio| == Total(c.desk.arrived[e.id].text)
  {
    var job := c.jobOf[e.id];
    assert Synthesis.Known(c.voices, job) && Synthesis.Placed(c.voices, job);
  }

  /** A spoken reply reported as delivered was synthesized whole, and was played
      whole, no sentence of it cut off, exactly when none came between the looks. */
  lemma DeliveredIsWhatWasSaid(hasVoice: bool, moves: seq<Move>, length: Lengths, n: nat)
    requires CanRun(Start(hasVoice), moves, length)
    requires var d := AfterMoves(Start(hasVoice), moves, length).desk;
             n < |d.log| && Delivery(d.log[n]) && d.log[n].id < |d.arrived| && d.arrived[d.log[n].id].speak
    ensures var c := AfterMoves(Start(hasVoice), moves, length);
            var e := c.desk.log[n];
            && HasJob(c, e.id)
            && var job, speech := c.voices.submitted[c.jobOf[e.id]], c.voices.speeches[c.jobOf[e.id]];
               && speech.finished && !speech.failed && speech.audio == Synthesis.AllSpoken(job)
               && (Plays(c.desk.log, e.id) == FirstNumbers(|speech.audio|) <==> e.late == 0)
               && forall k :: 0 <= k < |c.desk.log| && c.desk.log[k].id == e.id ==> !c.desk.log[k].Silenced?
  {
    var c := AfterMoves(Start(hasVoice), moves, length);
    var run := ArbiterSeesARun(hasVoice, moves, length);
    IdleKeeps();
    RunMatches(IDLE, run);
    DeliveredMeansHeard(run, n);
    assert Matches(c.desk, c.desk.log[n]);
    DeliveredOfJoined(c, length, c.desk.log[n]);
  }
}
