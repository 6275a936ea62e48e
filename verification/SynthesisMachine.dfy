// The SynthesisQueue object. Each method is one locked section, of a caller or of
// the worker, except the destructor, which sees the worker out.
module SynthesisMachine {
  import opened SentenceCutting
  import opened SynthesisSteps
  import opened SynthesisRuns

  class SynthesisQueue {
    const hasVoice: bool
    var jobs: seq<Job>
    var stopping: bool
    var worker: Worker
    var speeches: seq<Speech>

    ghost var drained: bool
    ghost var submitted: seq<Job>
    ghost var finishes: seq<nat>

    ghost function View(): Queue
      reads this
    {
      Queue(hasVoice, jobs, stopping, worker, drained, speeches, submitted, finishes)
    }

    constructor (hasVoice: bool)
      ensures View() == New(hasVoice) && Inv(View())
    {
      this.hasVoice := hasVoice;
      jobs, stopping, worker, speeches := [], false, Waiting, [];
      drained, submitted, finishes := false, [], [];
    }

    method FinishSpeech(id: nat, failed: bool)
      requires Known(View(), id)
      modifies this
      ensures View() == Finished(old(View()), id, failed)
    {
      var speech := speeches[id];
      speeches := speeches[id := speech.(finished := true, failed := speech.failed || failed)];
      finishes := finishes[id := finishes[id] + 1];
    }

    method Submit(text: string, voice: nat, speakers: int, defaultSpeaker: int, urgent: bool) returns (id: nat)
      requires Inv(View()) && !stopping
      modifies this
      ensures id == |old(submitted)|
      ensures View()
              == Next(old(View()), SynthesisSteps.Submit(text, SpeakerFor(voice, speakers, defaultSpeaker), urgent))
      ensures Inv(View())
    {
      StepKeeps(View(), SynthesisSteps.Submit(text, SpeakerFor(voice, speakers, defaultSpeaker), urgent));
      id := |speeches|;
      var job := Job(text, SpeakerFor(voice, speakers, defaultSpeaker), urgent, id);
      if |jobs| >= MAX_WAITING {
        var oldest := FindRoutine();
        if oldest == |jobs| {
          oldest := 0;
        }
        FinishSpeech(jobs[oldest].id, true);
        jobs := Without(jobs, oldest);
      }
      jobs := if urgent then [job] + jobs else jobs + [job];
      speeches, submitted, finishes := speeches + [SILENCE], submitted + [job], finishes + [0];
    }

    method FindRoutine() returns (at: nat)
      ensures at == FirstRoutine(jobs)
    {
      at := 0;
      while at < |jobs| && jobs[at].urgent
        invariant at <= |jobs| && FirstRoutine(jobs) == at + FirstRoutine(jobs[at..])
      {
        assert jobs[at..][1..] == jobs[at + 1..];
        at := at + 1;
      }
    }

    method TakeJob()
      requires Inv(View()) && Enabled(View(), Take)
      modifies this
      ensures View() == Next(old(View()), Take) && Inv(View())
    {
      StepKeeps(View(), Take);
      worker := Saying(jobs[0], 0, !hasVoice);
      jobs := jobs[1..];
    }

    /** The worker has asked for the next sentence; an empty audio is a failure. */
    method SaySentence(voiced: bool)
      requires Inv(View()) && Enabled(View(), Say(voiced))
      modifies this
      ensures View() == Next(old(View()), Say(voiced)) && Inv(View())
    {
      StepKeeps(View(), Say(voiced));
      if !voiced {
        worker := worker.(failed := true);
        return;
      }
      var pieces := CutSentences(worker.job.text);
      var speech := speeches[worker.job.id];
      var audio := Audio(pieces[worker.said], worker.job.speaker);
      speeches := speeches[worker.job.id := speech.(audio := speech.audio + [audio])];
      worker := worker.(said := worker.said + 1);
    }

    method FinishJob()
      requires Inv(View()) && Enabled(View(), Finish)
      modifies this
      ensures View() == Next(old(View()), Finish) && Inv(View())
    {
      StepKeeps(View(), Finish);
      FinishSpeech(worker.job.id, worker.failed);
      worker := Waiting;
    }

    /** One pass of the worker: the rest of a job's sentences, each voiced or not.
        Its Speech is finished, failed unless every sentence was voiced, and no
        other Speech is touched. */
    method SayTheRest()
      requires Inv(View()) && worker.Saying?
      modifies this
      ensures Inv(View()) && worker.Waiting? && stopping == old(stopping) && jobs == old(jobs)
      ensures submitted == old(submitted) && drained == old(drained)
      ensures var job := old(worker.job);
              |speeches| == |old(speeches)| && speeches[job.id].finished && finishes[job.id] == 1
              && old(speeches)[job.id].audio <= speeches[job.id].audio <= AllSpoken(job)
              && (speeches[job.id].failed <==> !hasVoice || speeches[job.id].audio != AllSpoken(job))
      ensures forall id :: 0 <= id < |speeches| && id != old(worker.job.id) ==>
                speeches[id] == old(speeches)[id] && finishes[id] == old(finishes)[id]
    {
      var pieces := CutSentences(worker.job.text);
      ghost var job := worker.job;
      assert IsSaid(View(), job.id) && Placed(View(), job.id);
      while !worker.failed && worker.said < |pieces|
        invariant Inv(View()) && worker.Saying? && worker.job == job
        invariant stopping == old(stopping) && jobs == old(jobs) && submitted == old(submitted)
                  && drained == old(drained)
        invariant |speeches| == |old(speeches)| && finishes == old(finishes)
        invariant old(speeches)[job.id].audio <= speeches[job.id].audio
        invariant forall id :: 0 <= id < |speeches| && id != job.id ==> speeches[id] == old(speeches)[id]
        decreases !worker.failed, |pieces| - worker.said
      {
        var voiced := *;
        SaySentence(voiced);
      }
      assert AllSpoken(job)[..|AllSpoken(job)|] == AllSpoken(job);
      FinishJob();
    }

    /** The destructor: the worker leaves after the job in hand, and what still waits is given up. */
    method Destroy()
      requires Inv(View()) && !stopping && !worker.Exited?
      modifies this
      ensures Inv(View()) && drained && submitted == old(submitted)
      ensures forall id :: 0 <= id < |submitted| ==> finishes[id] == 1 && speeches[id].finished
    {
      StepKeeps(View(), Stop);
      stopping := true;
      if worker.Saying? {
        SayTheRest();
      }
      StepKeeps(View(), Exit);
      worker := Exited;
      Drain();
      forall id | 0 <= id < |submitted|
        ensures finishes[id] == 1 && speeches[id].finished
      {
        assert Placed(View(), id);
        assert !IsWaiting(View(), id);
      }
    }

    method Drain()
      requires Inv(View()) && Enabled(View(), SynthesisSteps.Drain)
      modifies this
      ensures View() == Next(old(View()), SynthesisSteps.Drain) && Inv(View()) && submitted == old(submitted)
    {
      StepKeeps(View(), SynthesisSteps.Drain);
      FinishAllKeeps(View());
      ghost var was := View();
      var i := 0;
      while i < |jobs|
        invariant i <= |jobs| && jobs == was.jobs && |speeches| == |submitted| == |finishes| == |was.speeches|
        invariant FinishAll(View(), jobs[i..]) == FinishAll(was, was.jobs)
      {
        assert jobs[i..][1..] == jobs[i + 1..];
        FinishSpeech(jobs[i].id, true);
        i := i + 1;
      }
      jobs := [];
      drained := true;
    }
  }
}
