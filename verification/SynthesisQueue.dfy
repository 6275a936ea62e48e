// src/tts/synthesis.cpp: transmissions waiting for a voice, and the worker that
// gives them one. Each locked section is one step; the audio a sentence became
// is kept as the sentence and the speaker.
module SynthesisSteps {
  import opened SentenceCutting

  const MAX_WAITING := 16

  datatype Job = Job(text: string, speaker: int, urgent: bool, id: nat)
  datatype Audio = Audio(sentence: string, speaker: int)
  datatype Speech = Speech(audio: seq<Audio>, finished: bool, failed: bool)
  datatype Worker = Waiting | Saying(job: Job, said: nat, failed: bool) | Exited

  /** The queue's fields, every Speech by its number, and what happened: the
      jobs submitted and how often each Speech was finished. */
  datatype Queue = Queue(
    hasVoice: bool, jobs: seq<Job>, stopping: bool, worker: Worker, drained: bool,
    speeches: seq<Speech>, submitted: seq<Job>, finishes: seq<nat>)

  const SILENCE := Speech([], false, false)

  function New(hasVoice: bool): Queue {
    Queue(hasVoice, [], false, Waiting, false, [], [], [])
  }

  /** The console numbers voices from one; zero gets the default. */
  function SpeakerFor(voice: nat, speakers: int, defaultSpeaker: int): (r: int)
    ensures speakers > 0 ==> 0 <= r < speakers
    ensures speakers > 0 && voice == 0 && 0 <= defaultSpeaker < speakers ==> r == defaultSpeaker
  {
    if speakers <= 0 then 0
    else if voice == 0 then
      if defaultSpeaker < 0 then 0 else if defaultSpeaker > speakers - 1 then speakers - 1 else defaultSpeaker
    else (voice - 1) % speakers
  }

  // ------------------------------------------------------------------- steps

  datatype Step =
    | Submit(text: string, speaker: int, urgent: bool)
    | Take
    | Say(voiced: bool)
    | Finish
    | Stop
    | Exit
    | Drain

  predicate Known(q: Queue, id: nat) {
    id < |q.speeches| == |q.submitted| == |q.finishes|
  }

  /** The numbers a queue holds all stand for a Speech. */
  predicate AllKnown(q: Queue) {
    && |q.speeches| == |q.submitted| == |q.finishes|
    && (forall i :: 0 <= i < |q.jobs| ==> Known(q, q.jobs[i].id))
    && (q.worker.Saying? ==> Known(q, q.worker.job.id))
  }

  predicate Enabled(q: Queue, step: Step) {
    match step
    case Submit(_, _, _) => !q.stopping
    case Take => q.worker.Waiting? && !q.stopping && q.jobs != []
    case Say(_) => q.worker.Saying? && !q.worker.failed && q.worker.said < |Sentences(q.worker.job.text)|
    case Finish => q.worker.Saying? && (q.worker.failed || q.worker.said >= |Sentences(q.worker.job.text)|)
    case Stop => !q.stopping
    case Exit => q.worker.Waiting? && q.stopping
    case Drain => q.worker.Exited? && !q.drained
  }

  function Finished(q: Queue, id: nat, failed: bool): Queue
    requires Known(q, id)
  {
    var s := q.speeches[id];
    q.(speeches := q.speeches[id := s.(finished := true, failed := s.failed || failed)],
       finishes := q.finishes[id := q.finishes[id] + 1])
  }

  /** The first routine job, or with none the first job of all. */
  function Victim(jobs: seq<Job>): (v: nat)
    ensures jobs != [] ==> v < |jobs|
  {
    if jobs == [] || FirstRoutine(jobs) == |jobs| then 0 else FirstRoutine(jobs)
  }

  function FirstRoutine(jobs: seq<Job>): (r: nat)
    ensures r <= |jobs| && (r < |jobs| ==> !jobs[r].urgent)
    ensures forall i :: 0 <= i < r ==> jobs[i].urgent
  {
    if jobs == [] || !jobs[0].urgent then 0 else 1 + FirstRoutine(jobs[1..])
  }

  function Without(jobs: seq<Job>, i: nat): (r: seq<Job>)
    requires i < |jobs|
    ensures |r| == |jobs| - 1
    ensures forall k :: 0 <= k < |r| ==> r[k] == if k < i then jobs[k] else jobs[k + 1]
  {
    jobs[..i] + jobs[i + 1..]
  }

  function Evicted(q: Queue): Queue
    requires AllKnown(q)
  {
    var v := Victim(q.jobs);
    if |q.jobs| < MAX_WAITING then q
    else Finished(q, q.jobs[v].id, true).(jobs := Without(q.jobs, v))
  }

  function Queued(q: Queue, text: string, speaker: int, urgent: bool): Queue {
    var job := Job(text, speaker, urgent, |q.submitted|);
    q.(jobs := if urgent then [job] + q.jobs else q.jobs + [job],
       speeches := q.speeches + [SILENCE], submitted := q.submitted + [job], finishes := q.finishes + [0])
  }

  function Taken(q: Queue): Queue
    requires q.jobs != []
  {
    q.(jobs := q.jobs[1..], worker := Saying(q.jobs[0], 0, !q.hasVoice))
  }

  function Said(q: Queue, voiced: bool): Queue
    requires q.worker.Saying? && Known(q, q.worker.job.id) && q.worker.said < |Sentences(q.worker.job.text)|
  {
    var w := q.worker;
    if voiced then
      var s := q.speeches[w.job.id];
      var audio := Audio(Sentences(w.job.text)[w.said], w.job.speaker);
      q.(worker := w.(said := w.said + 1), speeches := q.speeches[w.job.id := s.(audio := s.audio + [audio])])
    else q.(worker := w.(failed := true))
  }

  function Done(q: Queue): Queue
    requires q.worker.Saying? && Known(q, q.worker.job.id)
  {
    Finished(q, q.worker.job.id, q.worker.failed).(worker := Waiting)
  }

  function FinishAll(q: Queue, jobs: seq<Job>): Queue
    requires |q.speeches| == |q.submitted| == |q.finishes|
    requires forall i :: 0 <= i < |jobs| ==> jobs[i].id < |q.speeches|
    decreases |jobs|
  {
    if jobs == [] then q else FinishAll(Finished(q, jobs[0].id, true), jobs[1..])
  }

  function Drained(q: Queue): Queue
    requires AllKnown(q)
  {
    FinishAll(q, q.jobs).(jobs := [], drained := true)
  }

  function Next(q: Queue, step: Step): Queue
    requires AllKnown(q) && Enabled(q, step)
  {
    match step
    case Submit(text, speaker, urgent) => Queued(Evicted(q), text, speaker, urgent)
    case Take => Taken(q)
    case Say(voiced) => Said(q, voiced)
    case Finish => Done(q)
    case Stop => q.(stopping := true)
    case Exit => q.(worker := Exited)
    case Drain => Drained(q)
  }

  // --------------------------------------------------------------- invariants

  /** Urgent jobs, newest first, then routine jobs in the order they came; sixteen at most. */
  predicate InOrder(jobs: seq<Job>) {
    && |jobs| <= MAX_WAITING
    && (forall i, j :: 0 <= i < j < |jobs| ==> jobs[i].id != jobs[j].id)
    && forall i, j :: 0 <= i < j < |jobs| ==>
         if jobs[j].urgent then jobs[i].urgent && jobs[i].id > jobs[j].id
         else jobs[i].urgent || jobs[i].id < jobs[j].id
  }

  /** Everything a job's Speech comes to when it is spoken in full. */
  function AllSpoken(job: Job): (r: seq<Audio>)
    ensures |r| == |Sentences(job.text)|
    ensures forall k :: 0 <= k < |r| ==> r[k] == Audio(Sentences(job.text)[k], job.speaker)
  {
    seq(|Sentences(job.text)|, k requires 0 <= k < |Sentences(job.text)| => Audio(Sentences(job.text)[k], job.speaker))
  }

  predicate IsWaiting(q: Queue, id: nat) {
    exists i :: 0 <= i < |q.jobs| && q.jobs[i].id == id
  }

  predicate IsSaid(q: Queue, id: nat) {
    q.worker.Saying? && q.worker.job.id == id
  }

  /** A Speech is waiting, being said or finished, never two of these; and its audio fits where it is. */
  predicate Placed(q: Queue, id: nat)
    requires Known(q, id)
  {
    var s, job := q.speeches[id], q.submitted[id];
    && job.id == id
    && (q.finishes[id] == if IsWaiting(q, id) || IsSaid(q, id) then 0 else 1)
    && (s.finished <==> q.finishes[id] == 1)
    && !(IsWaiting(q, id) && IsSaid(q, id))
    && (IsWaiting(q, id) ==> s == SILENCE)
    && s.audio <= AllSpoken(job)
    && (s.finished && !s.failed ==> s.audio == AllSpoken(job))
  }

  /** The worker has said a first part of its job, and has failed only short of the end or without a voice. */
  predicate WorkerFits(q: Queue)
    requires AllKnown(q)
  {
    q.worker.Saying? ==>
      var w := q.worker;
      && w.job == q.submitted[w.job.id]
      && w.said <= |Sentences(w.job.text)|
      && q.speeches[w.job.id] == Speech(AllSpoken(w.job)[..w.said], false, false)
      && (if q.hasVoice then w.failed ==> w.said < |Sentences(w.job.text)| else w.failed)
  }

  predicate JobsFit(q: Queue)
    requires AllKnown(q)
  {
    forall i :: 0 <= i < |q.jobs| ==> q.jobs[i] == q.submitted[q.jobs[i].id]
  }

  predicate Stopped(q: Queue) {
    && (q.worker.Exited? ==> q.stopping)
    && (q.drained ==> q.worker.Exited? && q.jobs == [])
  }

  predicate Inv(q: Queue) {
    && AllKnown(q) && InOrder(q.jobs) && JobsFit(q) && WorkerFits(q) && Stopped(q)
    && forall id :: 0 <= id < |q.speeches| ==> Placed(q, id)
  }
}
