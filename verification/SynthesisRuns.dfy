// What every run of the synthesis queue keeps.
module SynthesisRuns {
  import opened SynthesisSteps

  // ------------------------------------------------------------ step by step

  lemma WithoutStaysInOrder(jobs: seq<Job>, v: nat)
    requires InOrder(jobs) && v < |jobs|
    ensures InOrder(Without(jobs, v))
  {}

  lemma WaitingWithout(q: Queue, r: Queue, v: nat, id: nat)
    requires InOrder(q.jobs) && v < |q.jobs| && r.jobs == Without(q.jobs, v)
    ensures IsWaiting(r, id) <==> IsWaiting(q, id) && id != q.jobs[v].id
  {
    if IsWaiting(q, id) && id != q.jobs[v].id {
      var i :| 0 <= i < |q.jobs| && q.jobs[i].id == id;
      assert r.jobs[if i < v then i else i - 1].id == id;
    }
    if IsWaiting(r, id) {
      WasWaiting(q.jobs, v, id);
    }
  }

  lemma WasWaiting(jobs: seq<Job>, v: nat, id: nat)
    requires InOrder(jobs) && v < |jobs| && exists i :: 0 <= i < |jobs| - 1 && Without(jobs, v)[i].id == id
    ensures id != jobs[v].id && exists k :: 0 <= k < |jobs| && jobs[k].id == id
  {
    var i :| 0 <= i < |jobs| - 1 && Without(jobs, v)[i].id == id;
    assert jobs[if i < v then i else i + 1].id == id;
  }

  /** Finishing a waiting job in place of saying it. */
  lemma GivenUpIsPlaced(q: Queue, r: Queue, v: nat, id: nat)
    requires Inv(q) && v < |q.jobs| && Known(q, id)
    requires r == Finished(q, q.jobs[v].id, true).(jobs := Without(q.jobs, v))
    ensures Placed(r, id)
  {
    assert Placed(q, id);
    WaitingWithout(q, r, v, id);
    assert IsWaiting(q, q.jobs[v].id);
    assert IsSaid(r, id) <==> IsSaid(q, id);
  }

  lemma GivenUpKeeps(q: Queue, v: nat)
    requires Inv(q) && v < |q.jobs|
    ensures Inv(Finished(q, q.jobs[v].id, true).(jobs := Without(q.jobs, v)))
  {
    var r := Finished(q, q.jobs[v].id, true).(jobs := Without(q.jobs, v));
    WithoutStaysInOrder(q.jobs, v);
    assert IsWaiting(q, q.jobs[v].id) && Placed(q, q.jobs[v].id);
    forall id | 0 <= id < |r.speeches|
      ensures Placed(r, id)
    {
      GivenUpIsPlaced(q, r, v, id);
    }
  }

  lemma EvictedKeeps(q: Queue)
    requires Inv(q)
    ensures Inv(Evicted(q)) && |Evicted(q).jobs| < MAX_WAITING && Evicted(q).stopping == q.stopping
    ensures Evicted(q).submitted == q.submitted
  {
    if |q.jobs| >= MAX_WAITING {
      GivenUpKeeps(q, Victim(q.jobs));
    }
  }

  lemma WaitingQueued(q: Queue, text: string, speaker: int, urgent: bool, id: nat)
    ensures IsWaiting(Queued(q, text, speaker, urgent), id) <==> IsWaiting(q, id) || id == |q.submitted|
  {
    var r := Queued(q, text, speaker, urgent);
    var shift := if urgent then 1 else 0;
    if IsWaiting(q, id) {
      var i :| 0 <= i < |q.jobs| && q.jobs[i].id == id;
      assert r.jobs[i + shift] == q.jobs[i];
    }
    assert r.jobs[if urgent then 0 else |q.jobs|].id == |q.submitted|;
    if IsWaiting(r, id) && id != |q.submitted| {
      var i :| 0 <= i < |r.jobs| && r.jobs[i].id == id;
      assert q.jobs[i - shift].id == id;
    }
  }

  lemma QueuedStaysInOrder(q: Queue, text: string, speaker: int, urgent: bool)
    requires Inv(q) && |q.jobs| < MAX_WAITING
    ensures InOrder(Queued(q, text, speaker, urgent).jobs)
  {}

  lemma QueuedIsPlaced(q: Queue, text: string, speaker: int, urgent: bool, id: nat)
    requires Inv(q) && id <= |q.speeches|
    ensures Known(Queued(q, text, speaker, urgent), id) && Placed(Queued(q, text, speaker, urgent), id)
  {
    WaitingQueued(q, text, speaker, urgent, id);
    if id < |q.speeches| {
      assert Placed(q, id);
    }
  }

  lemma QueuedKeeps(q: Queue, text: string, speaker: int, urgent: bool)
    requires Inv(q) && |q.jobs| < MAX_WAITING && !q.stopping
    ensures Inv(Queued(q, text, speaker, urgent))
  {
    var r := Queued(q, text, speaker, urgent);
    QueuedStaysInOrder(q, text, speaker, urgent);
    forall id | 0 <= id < |r.speeches|
      ensures Placed(r, id)
    {
      QueuedIsPlaced(q, text, speaker, urgent, id);
    }
  }

  lemma WaitingTaken(q: Queue, id: nat)
    requires InOrder(q.jobs) && q.jobs != []
    ensures IsWaiting(Taken(q), id) <==> IsWaiting(q, id) && id != q.jobs[0].id
  {
    assert q.jobs[1..] == Without(q.jobs, 0);
    WaitingWithout(q, Taken(q), 0, id);
  }

  lemma TakenKeeps(q: Queue)
    requires Inv(q) && Enabled(q, Take)
    ensures Inv(Taken(q))
  {
    var r, first := Taken(q), q.jobs[0];
    assert IsWaiting(q, first.id) && Placed(q, first.id);
    assert AllSpoken(first)[..0] == [];
    forall id | 0 <= id < |r.speeches|
      ensures Placed(r, id)
    {
      assert Placed(q, id);
      WaitingTaken(q, id);
    }
  }

  lemma SaidKeeps(q: Queue, voiced: bool)
    requires Inv(q) && Enabled(q, Say(voiced))
    ensures Inv(Said(q, voiced))
  {
    var r, w := Said(q, voiced), q.worker;
    assert IsSaid(q, w.job.id) && Placed(q, w.job.id);
    if voiced {
      assert AllSpoken(w.job)[..w.said + 1] == AllSpoken(w.job)[..w.said] + [AllSpoken(w.job)[w.said]];
    }
    forall id | 0 <= id < |r.speeches|
      ensures Placed(r, id)
    {
      assert Placed(q, id);
      assert IsWaiting(r, id) <==> IsWaiting(q, id);
    }
  }

  lemma DoneKeeps(q: Queue)
    requires Inv(q) && Enabled(q, Finish)
    ensures Inv(Done(q))
  {
    var r, w := Done(q), q.worker;
    assert IsSaid(q, w.job.id) && Placed(q, w.job.id);
    if !w.failed {
      assert AllSpoken(w.job)[..w.said] == AllSpoken(w.job);
    }
    forall id | 0 <= id < |r.speeches|
      ensures Placed(r, id)
    {
      assert Placed(q, id);
      assert IsWaiting(r, id) <==> IsWaiting(q, id);
    }
  }

  lemma {:induction false} FinishAllKeeps(q: Queue)
    requires Inv(q)
    ensures var r := FinishAll(q, q.jobs).(jobs := []);
            Inv(r) && r.worker == q.worker && r.stopping == q.stopping && r.submitted == q.submitted
    decreases |q.jobs|
  {
    if q.jobs != [] {
      var next := Finished(q, q.jobs[0].id, true).(jobs := q.jobs[1..]);
      assert q.jobs[1..] == Without(q.jobs, 0);
      GivenUpKeeps(q, 0);
      FinishAllKeeps(next);
      FinishAllIgnoresJobs(Finished(q, q.jobs[0].id, true), q.jobs[1..], q.jobs[1..]);
    } else {
      assert FinishAll(q, q.jobs).(jobs := []) == q;
    }
  }

  // Finishing the Speeches of a list does not look at the queue's own list.
  lemma {:induction false} FinishAllIgnoresJobs(q: Queue, jobs: seq<Job>, other: seq<Job>)
    requires |q.speeches| == |q.submitted| == |q.finishes|
    requires forall i :: 0 <= i < |jobs| ==> jobs[i].id < |q.speeches|
    ensures FinishAll(q.(jobs := other), jobs).(jobs := []) == FinishAll(q, jobs).(jobs := [])
    decreases |jobs|
  {
    if jobs != [] {
      assert Finished(q.(jobs := other), jobs[0].id, true) == Finished(q, jobs[0].id, true).(jobs := other);
      FinishAllIgnoresJobs(Finished(q, jobs[0].id, true), jobs[1..], other);
    }
  }

  lemma DrainedKeeps(q: Queue)
    requires Inv(q) && Enabled(q, Drain)
    ensures Inv(Drained(q))
  {
    FinishAllKeeps(q);
    var r := FinishAll(q, q.jobs).(jobs := []);
    assert Drained(q) == r.(drained := true);
    forall id | 0 <= id < |r.speeches|
      ensures Placed(Drained(q), id)
    {
      assert Placed(r, id);
      assert IsWaiting(Drained(q), id) <==> IsWaiting(r, id);
    }
  }

  lemma FlagKeeps(q: Queue, r: Queue)
    requires Inv(q) && Stopped(r)
    requires r == q.(stopping := r.stopping) || (r == q.(worker := Exited) && q.worker.Waiting?)
    ensures Inv(r)
  {
    forall id | 0 <= id < |r.speeches|
      ensures Placed(r, id)
    {
      assert Placed(q, id);
      assert IsWaiting(r, id) <==> IsWaiting(q, id);
    }
  }

  lemma StepKeeps(q: Queue, step: Step)
    requires Inv(q) && Enabled(q, step)
    ensures Inv(Next(q, step))
  {
    match step
    case Submit(text, speaker, urgent) =>
      EvictedKeeps(q);
      QueuedKeeps(Evicted(q), text, speaker, urgent);
    case Take => TakenKeeps(q);
    case Say(voiced) => SaidKeeps(q, voiced);
    case Finish => DoneKeeps(q);
    case Stop => FlagKeeps(q, Next(q, Stop));
    case Exit => FlagKeeps(q, Next(q, Exit));
    case Drain => DrainedKeeps(q);
  }

  // ------------------------------------------------------------- over whole runs

  predicate IsRun(states: seq<Queue>, steps: seq<Step>) {
    && |states| == |steps| + 1
    && (exists hasVoice :: states[0] == New(hasVoice))
    && forall k :: 0 <= k < |steps| ==>
         AllKnown(states[k]) && Enabled(states[k], steps[k]) && states[k + 1] == Next(states[k], steps[k])
  }

  lemma {:induction false} RunKeeps(states: seq<Queue>, steps: seq<Step>, k: nat)
    requires IsRun(states, steps) && k < |states|
    ensures Inv(states[k])
  {
    if k > 0 {
      RunKeeps(states, steps, k - 1);
      StepKeeps(states[k - 1], steps[k - 1]);
    }
  }

  /** Once the destructor is through, every Speech has been finished, and once. */
  lemma EverySpeechIsFinishedOnce(states: seq<Queue>, steps: seq<Step>, k: nat, id: nat)
    requires IsRun(states, steps) && k < |states| && states[k].drained && Known(states[k], id)
    ensures states[k].finishes[id] == 1 && states[k].speeches[id].finished
  {
    RunKeeps(states, steps, k);
    assert Placed(states[k], id);
    assert !IsWaiting(states[k], id);
  }

  /** At any time a Speech has been finished at most once and holds the audio of
      its first sentences, in order; finished without failure, that of them all. */
  lemma FinishedSpeechIsWhole(states: seq<Queue>, steps: seq<Step>, k: nat, id: nat)
    requires IsRun(states, steps) && k < |states| && Known(states[k], id)
    ensures states[k].finishes[id] <= 1
    ensures states[k].speeches[id].finished <==> states[k].finishes[id] == 1
    ensures var s := states[k].speeches[id];
            s.audio <= AllSpoken(states[k].submitted[id])
            && (s.finished && !s.failed ==> s.audio == AllSpoken(states[k].submitted[id]))
  {
    RunKeeps(states, steps, k);
    assert Placed(states[k], id);
  }

  /** Urgent jobs wait before routine ones, routine ones in the order they were submitted, sixteen in all. */
  lemma WaitingListIsOrdered(states: seq<Queue>, steps: seq<Step>, k: nat)
    requires IsRun(states, steps) && k < |states|
    ensures InOrder(states[k].jobs)
  {
    RunKeeps(states, steps, k);
  }

  /** While a routine job waits it is the oldest routine job that is given up; with
      urgent jobs alone it is the newest of them, not the oldest. */
  lemma WhoIsGivenUp(states: seq<Queue>, steps: seq<Step>, k: nat, i: nat)
    requires IsRun(states, steps) && k < |states| && i < |states[k].jobs|
    ensures var jobs := states[k].jobs;
            var victim := jobs[Victim(jobs)];
            && (!jobs[i].urgent ==> !victim.urgent && victim.id <= jobs[i].id)
            && (victim.urgent ==> jobs[i].urgent && victim.id >= jobs[i].id)
  {
    RunKeeps(states, steps, k);
  }

  // ------------------------------------------------- a queue of urgent jobs

  function UrgentJob(text: string, id: nat): Job {
    Job(text, 0, true, id)
  }

  /** After n urgent jobs, none of them taken up yet: the newest is in front. */
  function Crowded(text: string, n: nat): Queue {
    New(true).(
      jobs := seq(n, i requires 0 <= i < n => UrgentJob(text, n - 1 - i)),
      submitted := seq(n, i requires 0 <= i < n => UrgentJob(text, i)),
      speeches := seq(n, i => SILENCE), finishes := seq(n, i => 0))
  }

  lemma OneMoreUrgent(text: string, n: nat)
    requires n < MAX_WAITING
    ensures AllKnown(Crowded(text, n)) && Next(Crowded(text, n), Submit(text, 0, true)) == Crowded(text, n + 1)
  {
    var r := Next(Crowded(text, n), Submit(text, 0, true));
    assert r.jobs == Crowded(text, n + 1).jobs;
    assert r.speeches == Crowded(text, n + 1).speeches;
    assert r.submitted == Crowded(text, n + 1).submitted;
    assert r.finishes == Crowded(text, n + 1).finishes;
  }

  lemma {:induction false} CrowdGathers(text: string, n: nat) returns (states: seq<Queue>, steps: seq<Step>)
    requires n <= MAX_WAITING
    ensures IsRun(states, steps) && |steps| == n && states[n] == Crowded(text, n)
  {
    if n == 0 {
      var none := Crowded(text, 0);
      assert none == New(true);
      return [none], [];
    }
    states, steps := CrowdGathers(text, n - 1);
    OneMoreUrgent(text, n - 1);
    states, steps := states + [Crowded(text, n)], steps + [Submit(text, 0, true)];
  }

  /** With sixteen urgent jobs waiting a seventeenth ends the newest of them, and
      the oldest stays. */
  lemma UrgentQueueGivesUpItsNewest(text: string) returns (states: seq<Queue>, steps: seq<Step>)
    ensures IsRun(states, steps) && |steps| == MAX_WAITING + 1
    ensures var q, next := states[MAX_WAITING], states[MAX_WAITING + 1];
            && |q.jobs| == MAX_WAITING && (forall i :: 0 <= i < MAX_WAITING ==> q.jobs[i].urgent)
            && q.jobs[Victim(q.jobs)].id == MAX_WAITING - 1
            && |next.speeches| == MAX_WAITING + 1
            && next.speeches[MAX_WAITING - 1] == Speech([], true, true) && next.speeches[0] == SILENCE
  {
    var n := MAX_WAITING;
    states, steps := CrowdGathers(text, n);
    var q := states[n];
    AllUrgent(q.jobs);
    states, steps := states + [Next(q, Submit(text, 0, true))], steps + [Submit(text, 0, true)];
  }

  lemma AllUrgent(jobs: seq<Job>)
    requires forall i :: 0 <= i < |jobs| ==> jobs[i].urgent
    ensures Victim(jobs) == 0
  {}
}
