// The controller and the sink as the plugin runs them: objects whose methods
// update their fields. Each method is one critical section, and does exactly
// what PushToTalk says of the step.
module PttMachines {
  import opened PushToTalk
  import opened BoundedQueue
  import PttTurns

  class AsyncWebSocketPttSink {
    var queue: seq<Message>
    var dropped: nat
    var stopping: bool
    var transcriptions: seq<PttEvent>

    // Each thread's place in its loop, with the local it holds there.
    var worker: Worker
    var recogniser: Recogniser

    // History.
    ghost var accepted: seq<Message>
    ghost var lost: seq<Message>
    ghost var wire: seq<WireFrame>

    ghost function View(): Sink
      reads this
    {
      Sink(queue, dropped, stopping, transcriptions, worker, recogniser, accepted, lost, wire)
    }

    constructor ()
      ensures View() == NEW_SINK
    {
      queue, dropped, stopping, transcriptions := [], 0, false, [];
      worker, recogniser := Waiting, Absent;
      accepted, lost, wire := [], [], [];
    }

    method EnqueueLocked(message: Message)
      modifies this
      ensures View() == Accept(old(View()), message)
    {
      ghost var was := queue;
      var held, discarded := PushBounded(queue, message, MAX_QUEUED_MESSAGES);
      queue, dropped := held, dropped + discarded;
      accepted, lost := accepted + [message], lost + was[..discarded];
    }

    method Publish(event: PttEvent)
      modifies this
      ensures View() == Next(old(View()), Step.Publish(Event(event)))
    {
      if !stopping {
        EnqueueLocked(Event(event));
      }
    }

    method PublishText(payload: string)
      modifies this
      ensures View() == Next(old(View()), Step.Publish(Text(payload)))
    {
      if !stopping {
        EnqueueLocked(Text(payload));
      }
    }

    method SetTranscriber()
      modifies this
      ensures View() == Next(old(View()), Step.SetTranscriber)
    {
      if recogniser.Absent? {
        recogniser := Listening;
      }
    }

    method RequestStop()
      modifies this
      ensures View() == Next(old(View()), Step.Stop)
    {
      stopping := true;
    }

    /** Hands a frame to the socket; a failure to send is reported elsewhere and changes nothing here. */
    method SendText(frame: WireFrame)
      modifies `wire
      ensures wire == old(wire) + [frame]
    {
      wire := wire + [frame];
    }

    // -------------------------------------------------------- the socket worker

    method WorkerTake()
      requires Enabled(View(), Step.WorkerTake)
      modifies this
      ensures View() == Next(old(View()), Step.WorkerTake)
    {
      var message := queue[0];
      queue := queue[1..];
      match message {
        case Text(payload) => worker := Sending(Payload(payload));
        case Event(event) => ProcessEvent(event);
      }
    }

    method ProcessEvent(event: PttEvent)
      requires worker.Waiting?
      modifies `worker
      ensures worker == Dispatched(Event(event))
    {
      match event.kind {
        case Started => worker := Sending(AudioStart(event.sequence));
        case TransmissionReady => worker := Routing(event);
        case Cancelled => worker := Sending(AudioCancel(event.sequence));
        case Ignored =>
        case Error =>
          if event.sequence != 0 {
            worker := Sending(AudioCancel(event.sequence));
          }
      }
    }

    method Transcribe()
      requires Enabled(View(), Step.WorkerTranscribe)
      modifies this
      ensures View() == Next(old(View()), Step.WorkerTranscribe)
    {
      var event := worker.turn;
      if !recogniser.Absent? && !stopping && |transcriptions| < MAX_QUEUED_TRANSCRIPTIONS {
        transcriptions := transcriptions + [event];
        worker := Waiting;
        return;
      }
      worker := Sending(AudioCancel(event.sequence));
    }

    method WorkerSend()
      requires Enabled(View(), Step.WorkerSend)
      modifies this
      ensures View() == Next(old(View()), Step.WorkerSend)
    {
      SendText(worker.frame);
      worker := Waiting;
    }

    method WorkerExit()
      requires Enabled(View(), Step.WorkerExit)
      modifies this
      ensures View() == Next(old(View()), Step.WorkerExit)
    {
      worker := Exited;
    }

    // ----------------------------------------------------- the recogniser's thread

    method RecogniserTake()
      requires Enabled(View(), Step.RecogniserTake)
      modifies this
      ensures View() == Next(old(View()), Step.RecogniserTake)
    {
      recogniser := Hearing(transcriptions[0]);
      transcriptions := transcriptions[1..];
    }

    method RecogniserHear(ok: bool)
      requires Enabled(View(), Step.RecogniserHear(ok))
      modifies this
      ensures View() == Next(old(View()), Step.RecogniserHear(ok))
    {
      var event := recogniser.turn;
      if ok {
        recogniser := Answering(Transcript(event.sequence, event.durationMs));
      } else {
        recogniser := Answering(AudioCancel(event.sequence));
      }
    }

    method RecogniserSend()
      requires Enabled(View(), Step.RecogniserSend)
      modifies this
      ensures View() == Next(old(View()), Step.RecogniserSend)
    {
      SendText(recogniser.frame);
      recogniser := Listening;
    }

    method RecogniserExit()
      requires Enabled(View(), Step.RecogniserExit)
      modifies this
      ensures View() == Next(old(View()), Step.RecogniserExit)
    {
      recogniser := Gone;
    }

    /** Stopping waits for both threads, which may interleave in any way and
        always finish: everything still queued reaches the wire. */
    method Stop()
      requires PttTurns.Orderly(View())
      modifies this
      ensures PttTurns.WorkersGone(View()) && PttTurns.Orderly(View())
      ensures forall t :: old(PttTurns.Conserved(View(), t)) ==> PttTurns.Conserved(View(), t)
      ensures queue == [] && transcriptions == [] && lost == old(lost) && accepted == old(accepted)
    {
      RequestStop();
      while !(worker.Exited? && (recogniser.Absent? || recogniser.Gone?))
        invariant stopping && PttTurns.Orderly(View())
        invariant forall t :: old(PttTurns.Conserved(View(), t)) ==> PttTurns.Conserved(View(), t)
        invariant lost == old(lost) && accepted == old(accepted)
        decreases PttTurns.Work(View())
      {
        RunSomeThread();
      }
    }

    method RunSomeThread()
      requires stopping && PttTurns.Orderly(View()) && !PttTurns.WorkersGone(View())
      modifies this
      ensures stopping && PttTurns.Orderly(View())
      ensures PttTurns.Work(View()) < old(PttTurns.Work(View()))
      ensures forall t :: old(PttTurns.Conserved(View(), t)) ==> PttTurns.Conserved(View(), t)
      ensures lost == old(lost) && accepted == old(accepted)
    {
      ghost var before := View();
      PttTurns.StopDrains(before);
      ghost var step;
      if {
        case worker.Waiting? && queue != [] => step := Step.WorkerTake; WorkerTake();
        case worker.Routing? => step := Step.WorkerTranscribe; Transcribe();
        case worker.Sending? => step := Step.WorkerSend; WorkerSend();
        case worker.Waiting? && queue == [] => step := Step.WorkerExit; WorkerExit();
        case recogniser.Listening? && transcriptions != [] => step := Step.RecogniserTake; RecogniserTake();
        case recogniser.Hearing? =>
          var ok: bool := *;
          step := Step.RecogniserHear(ok);
          RecogniserHear(ok);
        case recogniser.Answering? => step := Step.RecogniserSend; RecogniserSend();
        case recogniser.Listening? && transcriptions == [] => step := Step.RecogniserExit; RecogniserExit();
      }
      assert View() == Next(before, step);
      forall t | PttTurns.Conserved(before, t)
        ensures PttTurns.Conserved(View(), t)
      {
        PttTurns.StepConserves(before, step, t);
      }
    }
  }

  class PushToTalkController {
    const sink: AsyncWebSocketPttSink
    const config: Config
    var state: State
    var nextSequence: nat
    var activeSequence: nat
    var startedAtMs: nat

    ghost function View(): Controller
      reads this
    {
      Controller(state, nextSequence, activeSequence, startedAtMs)
    }

    constructor (sink: AsyncWebSocketPttSink, config: Config)
      ensures View() == FRESH && this.sink == sink && this.config == config
    {
      this.sink, this.config := sink, config;
      state, nextSequence, activeSequence, startedAtMs := Idle, 1, 0, 0;
    }

    method CommandBegin(now: nat, started: bool)
      modifies this, sink
      ensures var o := Obey(old(View()), config, Begin(now, started));
              View() == o.next && sink.View() == PublishAll(old(sink.View()), o.published)
    {
      if state == Faulted {
        PublishIgnored(now, WhileFaulted);
        return;
      }
      if state == Recording {
        PublishIgnored(now, DuplicateBegin);
        return;
      }
      if !started {
        state := Faulted;
        PublishError(now);
        return;
      }
      state := Recording;
      activeSequence := nextSequence;
      nextSequence := nextSequence + 1;
      startedAtMs := now;
      PublishEvent(Plain(Started, activeSequence, now));
    }

    method CommandEnd(now: nat, recorded: Recorded)
      modifies this, sink
      ensures var o := Obey(old(View()), config, End(now, recorded));
              View() == o.next && sink.View() == PublishAll(old(sink.View()), o.published)
    {
      if state == Faulted {
        PublishIgnored(now, WhileFaulted);
        return;
      }
      if state != Recording {
        PublishIgnored(now, ReleaseWithoutBegin);
        return;
      }
      FinishRecording(now, CommandReleased, recorded);
    }

    method OnTick(now: nat, recorded: Recorded)
      modifies this, sink
      ensures var o := Obey(old(View()), config, Tick(now, recorded));
              View() == o.next && sink.View() == PublishAll(old(sink.View()), o.published)
    {
      if state != Recording || config.maxTransmissionMs == 0 {
        return;
      }
      var elapsed := ElapsedMs(now);
      if elapsed >= config.maxTransmissionMs {
        FinishRecording(now, MaxDurationReached, recorded);
      }
    }

    method ClearFault()
      modifies this
      ensures View() == Obey(old(View()), config, ResetFault).next
    {
      if state == Faulted {
        state := Idle;
        activeSequence := 0;
        startedAtMs := 0;
      }
    }

    method FinishRecording(now: nat, reason: EndReason, recorded: Recorded)
      modifies this, sink
      ensures var o := Finish(old(View()), config, now, reason, recorded);
              View() == o.next && sink.View() == PublishAll(old(sink.View()), o.published)
    {
      if recorded.RecorderFailed? {
        state := Faulted;
        PublishError(now);
        return;
      }
      var duration := ElapsedMs(now);
      var sequence := activeSequence;
      state := Idle;
      activeSequence := 0;
      startedAtMs := 0;
      var kind := if duration < config.minTransmissionMs then Cancelled else TransmissionReady;
      PublishEvent(PttEvent(kind, sequence, now, duration, reason, ReleaseWithoutBegin, recorded.audio));
    }

    method PublishEvent(event: PttEvent)
      modifies sink
      ensures sink.View() == PublishAll(old(sink.View()), [event])
    {
      sink.Publish(event);
      PttTurns.OnePublished(old(sink.View()), [event]);
    }

    method PublishIgnored(now: nat, reason: IgnoreReason)
      modifies sink
      ensures sink.View() == PublishAll(old(sink.View()), Ignore(View(), now, reason).published)
    {
      PublishEvent(PttEvent(Ignored, activeSequence, now, 0, CommandReleased, reason, []));
    }

    method PublishError(now: nat)
      modifies sink
      ensures sink.View() == PublishAll(old(sink.View()), [Plain(Error, activeSequence, now)])
    {
      PublishEvent(Plain(Error, activeSequence, now));
    }

    method ElapsedMs(now: nat) returns (elapsed: nat)
      ensures elapsed == Elapsed(View(), now)
    {
      if now < startedAtMs {
        return 0;
      }
      return now - startedAtMs;
    }
  }
}
