// Which transmission is given up, which is said next and how it ends, said of
// two states of a run one step apart.
module SynthesisChoices {
  import opened SentenceCutting
  import opened SynthesisSteps
  import opened SynthesisRuns

  predicate SomeRoutine(jobs: seq<Job>) {
    exists i :: 0 <= i < |jobs| && !jobs[i].urgent
  }

  /** The one to give up: the oldest routine job, or with urgent jobs alone the newest of all. */
  predicate IsGivenUp(jobs: seq<Job>, gone: Job) {
    && gone in jobs
    && (if SomeRoutine(jobs) then !gone.urgent && forall j :: j in jobs && !j.urgent ==> gone.id <= j.id
        else forall j :: j in jobs ==> gone.id >= j.id)
  }

  /** The one to say: the newest urgent job, or with routine jobs alone the oldest. */
  predicate IsNext(jobs: seq<Job>, next: Job) {
    && next in jobs
    && (if exists j :: j in jobs && j.urgent then next.urgent && forall j :: j in jobs && j.urgent ==> next.id >= j.id
        else forall j :: j in jobs ==> next.id <= j.id)
  }

  /** Everything but this Speech is as it was, and waits as it did. */
  predicate OthersStay(q: Queue, r: Queue, gone: nat) {
    && |q.speeches| <= |r.speeches|
    && forall id :: 0 <= id < |q.speeches| && id != gone ==>
         r.speeches[id] == q.speeches[id] && (IsWaiting(r, id) <==> IsWaiting(q, id))
  }

  lemma MemberIsWaiting(q: Queue, j: Job)
    requires j in q.jobs
    ensures IsWaiting(q, j.id)
  {
    var i :| 0 <= i < |q.jobs| && q.jobs[i] == j;
  }

  lemma StepsFrom(states: seq<Queue>, steps: seq<Step>, k: nat)
    requires IsRun(states, steps) && k < |steps|
    ensures Inv(states[k]) && Enabled(states[k], steps[k]) && states[k + 1] == Next(states[k], steps[k])
  {
    RunKeeps(states, steps, k);
  }

  /** A job submitted to a full queue ends one of those that wait, unspoken, and no
      other: the oldest routine job, or with urgent jobs alone the newest. */
  lemma FullQueueGivesUpOne(states: seq<Queue>, steps: seq<Step>, k: nat) returns (gone: Job)
    requires IsRun(states, steps) && k < |steps| && steps[k].Submit? && |states[k].jobs| >= 16
    ensures var q, r := states[k], states[k + 1];
            && IsGivenUp(q.jobs, gone) && Known(q, gone.id) && Known(r, gone.id)
            && q.speeches[gone.id] == SILENCE && r.speeches[gone.id] == Speech([], true, true)
            && IsWaiting(q, gone.id) && !IsWaiting(r, gone.id)
            && OthersStay(q, r, gone.id)
  {
    var q, r := states[k], states[k + 1];
    StepsFrom(states, steps, k);
    var v := Victim(q.jobs);
    gone := q.jobs[v];
    MemberIsWaiting(q, gone);
    assert Placed(q, gone.id);
    EvictedKeeps(q);
    VictimIsGivenUp(q.jobs);
    forall id | 0 <= id < |q.speeches|
      ensures IsWaiting(r, id) <==> IsWaiting(q, id) && id != gone.id
    {
      WaitingWithout(q, Evicted(q), v, id);
      WaitingQueued(Evicted(q), steps[k].text, steps[k].speaker, steps[k].urgent, id);
    }
  }

  lemma VictimIsGivenUp(jobs: seq<Job>)
    requires InOrder(jobs) && jobs != []
    ensures IsGivenUp(jobs, jobs[Victim(jobs)])
  {
    var v := Victim(jobs);
    forall j | j in jobs && (SomeRoutine(jobs) ==> !j.urgent)
      ensures if SomeRoutine(jobs) then jobs[v].id <= j.id else jobs[v].id >= j.id
    {
      var i :| 0 <= i < |jobs| && jobs[i] == j;
    }
  }

  /** A job submitted to a queue that is not full ends none. */
  lemma RoomGivesUpNone(states: seq<Queue>, steps: seq<Step>, k: nat)
    requires IsRun(states, steps) && k < |steps| && steps[k].Submit? && |states[k].jobs| < 16
    ensures OthersStay(states[k], states[k + 1], |states[k].speeches|)
  {
    var q := states[k];
    StepsFrom(states, steps, k);
    forall id | 0 <= id < |q.speeches|
      ensures IsWaiting(states[k + 1], id) <==> IsWaiting(q, id)
    {
      WaitingQueued(q, steps[k].text, steps[k].speaker, steps[k].urgent, id);
    }
  }

  /** A job that is submitted waits, with what was asked of it. */
  lemma SubmittedWaits(states: seq<Queue>, steps: seq<Step>, k: nat)
    requires IsRun(states, steps) && k < |steps| && steps[k].Submit?
    ensures var q, r, step := states[k], states[k + 1], steps[k];
            && |r.speeches| == |q.speeches| + 1 && r.speeches[|q.speeches|] == SILENCE
            && Job(step.text, step.speaker, step.urgent, |q.speeches|) in r.jobs
  {
    StepsFrom(states, steps, k);
    EvictedKeeps(states[k]);
  }

  /** The worker takes the newest urgent job that waits, or with routine jobs alone
      the oldest; the others go on waiting. */
  lemma NextIsSaid(states: seq<Queue>, steps: seq<Step>, k: nat)
    requires IsRun(states, steps) && k < |steps| && steps[k].Take?
    ensures var q, r := states[k], states[k + 1];
            && r.worker.Saying? && r.worker.said == 0 && IsNext(q.jobs, r.worker.job)
            && r.speeches == q.speeches && !IsWaiting(r, r.worker.job.id) && OthersStay(q, r, r.worker.job.id)
  {
    var q := states[k];
    StepsFrom(states, steps, k);
    FirstIsNext(q.jobs);
    WaitingTaken(q, q.jobs[0].id);
    forall id | 0 <= id < |q.speeches|
      ensures IsWaiting(states[k + 1], id) <==> IsWaiting(q, id) && id != q.jobs[0].id
    {
      WaitingTaken(q, id);
    }
  }

  lemma FirstIsNext(jobs: seq<Job>)
    requires InOrder(jobs) && jobs != []
    ensures IsNext(jobs, jobs[0])
  {
    forall j | j in jobs
      ensures j.urgent ==> jobs[0].urgent && jobs[0].id >= j.id
      ensures !jobs[0].urgent ==> jobs[0].id <= j.id
    {
      var i :| 0 <= i < |jobs| && jobs[i] == j;
    }
  }

  /** A Speech ends as failed exactly when there is no voice or some sentence of it is missing. */
  lemma FailedWhenShort(states: seq<Queue>, steps: seq<Step>, k: nat)
    requires IsRun(states, steps) && k < |steps| && steps[k].Finish?
    ensures var q, r := states[k], states[k + 1];
            && q.worker.Saying? && Known(r, q.worker.job.id) && r.worker.Waiting?
            && var s := r.speeches[q.worker.job.id];
               && s.finished && s.audio == q.speeches[q.worker.job.id].audio
               && (s.failed <==> !q.hasVoice || |s.audio| < |Sentences(q.worker.job.text)|)
  {
    StepsFrom(states, steps, k);
  }

  /** Voices are numbered from one, the first speaker's the first; zero is the
      default speaker, kept within the count. */
  lemma VoicesAreNumbered(voice: nat, speakers: int, defaultSpeaker: int)
    requires speakers > 0
    ensures 1 <= voice <= speakers ==> SpeakerFor(voice, speakers, defaultSpeaker) == voice - 1
    ensures SpeakerFor(0, speakers, defaultSpeaker)
            == if defaultSpeaker < 0 then 0 else if defaultSpeaker >= speakers then speakers - 1 else defaultSpeaker
  {}

  /** Beyond the count they go round again. */
  lemma VoicesGoRound(voice: nat, speakers: int, defaultSpeaker: int)
    requires speakers > 0 && voice >= 1
    ensures 0 <= SpeakerFor(voice, speakers, defaultSpeaker) < speakers
    ensures voice - 1 == speakers * ((voice - 1) / speakers) + SpeakerFor(voice, speakers, defaultSpeaker)
  {}
}
