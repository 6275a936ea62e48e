// The reply arbiter's globals, g_reply_queue and g_active_speech, and the
// functions of xplane_plugin.cpp that change them in place. Where a function
// lets go of a lock, `between` says what the other threads do there.
module ArbiterMachine {
  import opened ByteText
  import opened ReplyArbiter
  import opened ArbiterRuns
  import opened ArbiterLooks

  lemma OutsideLeaves(d: Desk, step: Step)
    requires Enabled(d, step) && FromOutside(step)
    ensures var r := Next(d, step);
            r.active == d.active && r.clock == d.clock
            && (if d.place.Looking? then
                  r.place.Looking? && r.place.tries == d.place.tries && r.place.refused == d.place.refused
                else r.place == d.place)
  {}

  /** What the other threads do leaves the reply on the air where it is, and the loop in its place. */
  lemma {:induction false} OthersLeave(d: Desk, steps: seq<Step>)
    requires Legal(d, steps) && AllOutside(steps)
    ensures var r := After(d, steps);
            r.active == d.active && r.clock == d.clock
            && (if d.place.Looking? then
                  r.place.Looking? && r.place.tries == d.place.tries && r.place.refused == d.place.refused
                else r.place == d.place)
    decreases |steps|
  {
    if steps != [] {
      OutsideLeaves(d, steps[0]);
      OthersLeave(Next(d, steps[0]), steps[1..]);
    }
  }

  /** The second look, when a first one led to it, and what happened before it. */
  predicate LookedAgain(d: Desk, steps: seq<Step>) {
    if d.place.Looking? then steps != [] && steps[|steps| - 1].LookAgain? && AllOutside(steps[..|steps| - 1])
    else steps == []
  }

  /** The steps of one pass of the flight loop, among those of the others. */
  predicate OnePass(run: seq<Step>, at: nat, refused: set<nat>) {
    run != [] && run[0] == Pass(at, refused) && NoPass(run[1..])
  }

  predicate NoPass(run: seq<Step>) {
    forall i :: 0 <= i < |run| ==> !run[i].Pass?
  }

  /** The loop is past its looks, and may start no more replies than before. */
  predicate LetGo(place: Place, tries: nat, refused: set<nat>) {
    place.Resting? || (place.Taking? && place.tries <= tries && place.refused == refused)
  }

  class Arbiter {
    var replyQueue: seq<Reply>
    var activeSpeech: Option<Active>
    var speeches: map<nat, Speech>
    var now: nat
    var place: Place

    var arrived: seq<Reply>
    var dropped: set<nat>
    var log: seq<Event>

    function View(): Desk
      reads this
    {
      Desk(replyQueue, activeSpeech, speeches, now, place, arrived, dropped, log)
    }

    constructor ()
      ensures View() == IDLE
    {
      replyQueue, activeSpeech, speeches, now, place := [], None, map[], 0, Resting;
      arrived, dropped, log := [], {}, [];
    }

    /** `soFar` is what the synthesizer has of the reply when it is queued. */
    method QueueReply(category: string, text: string, speak: bool, generation: nat, hasVoices: bool, soFar: Speech)
      requires SpeechFits(soFar, Total(text))
      modifies this
      ensures var speech := if hasVoices && speak && text != "" then Some(soFar) else None;
              Enabled(old(View()), Arrive(category, text, speak, generation, speech))
              && View() == Next(old(View()), Arrive(category, text, speak, generation, speech))
    {
      var id, voiced := |arrived|, hasVoices && speak && text != "";
      var reply := Reply(id, category, text, speak, generation, voiced);
      if voiced {
        speeches := speeches[id := soFar];
      }
      if |replyQueue| >= MAX_QUEUED_REPLIES {
        dropped := dropped + {replyQueue[0].id};
        replyQueue := replyQueue[1..];
      }
      replyQueue, arrived := replyQueue + [reply], arrived + [reply];
    }

    method TakeReply(urgentOnly: bool) returns (taken: Option<Reply>)
      modifies this
      ensures var i := if urgentOnly then FirstUrgent(old(replyQueue)) else 0;
              if i < |old(replyQueue)| then taken == Some(old(replyQueue)[i]) && View() == Taken(old(View()), i)
              else taken == None && View() == old(View())
    {
      if replyQueue == [] {
        return None;
      }
      var selected := 0;
      if urgentOnly {
        while selected < |replyQueue| && !Urgent(replyQueue[selected])
          invariant selected <= |replyQueue|
          invariant FirstUrgent(replyQueue) == selected + FirstUrgent(replyQueue[selected..])
        {
          assert replyQueue[selected..][1..] == replyQueue[selected + 1..];
          selected := selected + 1;
        }
        if selected == |replyQueue| {
          return None;
        }
      }
      taken := Some(replyQueue[selected]);
      replyQueue := Without(replyQueue, selected);
    }

    method SendSpeakAck(reply: Reply, ok: bool, basis: Basis)
      modifies this
      ensures View() == Acknowledged(old(View()), reply, ok, basis)
    {
      log := log + [Settled(reply.id, reply.generation != 0, ok, basis, now, if place.Looking? then place.late else 0)];
    }

    method FinishActiveSpeech(ok: bool, basis: Basis)
      modifies this
      ensures View() == if old(activeSpeech).None? then old(View()) else Ending(old(View()), ok, basis)
    {
      if activeSpeech.None? {
        return;
      }
      var active := activeSpeech.value;
      activeSpeech := None;
      if active.nextSentence > 0 && now < active.endsAt {
        log := log + [Silenced(active.reply.id, now)];
      }
      SendSpeakAck(active.reply, ok, basis);
    }

    /** What another thread does, if it can do that now. */
    method Other(step: Step) returns (done: bool)
      modifies this
      ensures done == (FromOutside(step) && Enabled(old(View()), step))
      ensures View() == if done then Next(old(View()), step) else old(View())
    {
      done := FromOutside(step) && Enabled(View(), step);
      if !done {
        return;
      }
      if step.Arrive? {
        QueueReply(step.category, step.text, step.speak, step.generation, step.speech.Some?,
                   if step.speech.Some? then step.speech.value else UNHEARD);
      } else if step.Voiced? {
        if place.Looking? && IsOnAir(View(), step.id) {
          place := place.(late := place.late + 1);
        }
        var speech := speeches[step.id];
        speeches := speeches[step.id := speech.(durations := speech.durations + [step.duration])];
      } else {
        speeches := speeches[step.id := speeches[step.id].(finished := true, failed := step.failed)];
      }
    }

    method Others(between: seq<Step>) returns (ghost steps: seq<Step>)
      modifies this
      ensures AllOutside(steps) && Legal(old(View()), steps) && View() == After(old(View()), steps)
    {
      steps := [];
      for i := 0 to |between|
        invariant AllOutside(steps) && Legal(old(View()), steps) && View() == After(old(View()), steps)
      {
        var done := Other(between[i]);
        if done {
          RunMore(old(View()), steps, between[i]);
          steps := steps + [between[i]];
        }
      }
    }

    method AdvanceSynthesizedSpeech(tries: nat, refused: set<nat>, between: seq<Step>) returns (ghost steps: seq<Step>)
      requires !place.Looking?
      modifies this
      ensures old(activeSpeech).None? ==> View() == old(View()) && steps == []
      ensures old(activeSpeech).Some? ==>
                var first := FirstLook(old(View()), tries, refused);
                LookedAgain(first, steps) && Legal(first, steps) && View() == After(first, steps)
                && LetGo(place, tries, refused)
    {
      steps := [];
      if activeSpeech.None? {
        return;
      }
      Advance(tries, refused);
      if place.Looking? {
        steps := LookAfter(between);
      }
    }

    /** The next sentence goes on the air, if it is there and the air is free. */
    method Advance(tries: nat, refused: set<nat>)
      requires activeSpeech.Some? && !place.Looking?
      modifies this
      ensures View() == FirstLook(old(View()), tries, refused)
      ensures place.Looking? || LetGo(place, tries, refused)
      ensures place.Looking? ==> place.tries == tries && place.refused == refused && activeSpeech.Some?
    {
      var active := activeSpeech.value;
      if now < active.endsAt {
        place := Resting;
        return;
      }
      var ready := if active.reply.id in speeches then speeches[active.reply.id].durations else [];
      if active.nextSentence >= |ready| {
        place := Looking(tries, refused, 0);
        return;
      }
      if active.reply.id in refused {
        FinishActiveSpeech(false, RadioRefused);
        place := Taking(tries, refused);
        return;
      }
      var endsAt := now + ready[active.nextSentence] + SENTENCE_GAP_MS;
      log := log + [Played(active.reply.id, active.nextSentence, now, endsAt)];
      activeSpeech := Some(active.(nextSentence := active.nextSentence + 1, endsAt := endsAt));
      place := Resting;
    }

    /** The others go on, and then the Speech is looked at again. */
    method LookAfter(between: seq<Step>) returns (ghost steps: seq<Step>)
      requires place.Looking? && activeSpeech.Some?
      modifies this
      ensures LookedAgain(old(View()), steps) && Legal(old(View()), steps) && View() == After(old(View()), steps)
      ensures LetGo(place, old(place).tries, old(place).refused)
    {
      steps := Others(between);
      OthersLeave(old(View()), steps);
      RunMore(old(View()), steps, LookAgain);
      steps := steps + [LookAgain];
      Decide(activeSpeech.value, place.tries, place.refused);
    }

    /** The second look at the Speech of the reply on the air. */
    method Decide(active: Active, ghost tries: nat, ghost refused: set<nat>)
      requires activeSpeech == Some(active) && place.Looking? && place.tries == tries && place.refused == refused
      modifies this
      ensures View() == SecondLook(old(View()))
    {
      var speech := if active.reply.id in speeches then speeches[active.reply.id] else UNHEARD;
      var after := Taking(place.tries, place.refused);
      if speech.finished {
        if active.nextSentence == 0 {
          FinishActiveSpeech(false, SynthesisFailed);
        } else {
          var ok := !speech.failed;
          FinishActiveSpeech(ok, if ok then PlaybackElapsed else FailedPartway);
        }
      } else if active.nextSentence == 0 && now >= active.startedAt + SYNTHESIS_DEADLINE_MS {
        FinishActiveSpeech(false, TimedOut);
      } else {
        after := Resting;
      }
      place := after;
    }

    method StartReply(reply: Reply, tries: nat, refused: set<nat>, between: seq<Step>) returns (ghost steps: seq<Step>)
      requires !place.Looking?
      modifies this
      ensures var first := Started(old(View()), reply, tries, refused);
              LookedAgain(first, steps) && Legal(first, steps) && View() == After(first, steps)
              && LetGo(place, tries, refused)
    {
      steps := [];
      var ok := reply.text != "";
      if !ok || !reply.speak {
        SendSpeakAck(reply, ok, if ok then NotRequested else EmptyText);
        place := Taking(tries, refused);
        return;
      }
      if !reply.voiced {
        SendSpeakAck(reply, false, VoicesUnavailable);
        place := Taking(tries, refused);
        return;
      }
      activeSpeech := Some(Active(reply, now, 0, 0));
      steps := AdvanceSynthesizedSpeech(tries, refused, between);
    }

    /** A pass begins: what waits and is urgent ends the reply on the air, or that goes on. */
    method BeginPass(refused: set<nat>, between: seq<Step>) returns (ghost steps: seq<Step>)
      requires place.Resting?
      modifies this
      ensures var first := Begun(old(View()), refused);
              LookedAgain(first, steps) && Legal(first, steps) && View() == After(first, steps)
      ensures LetGo(place, MAX_IMMEDIATE_REPLIES, refused)
    {
      steps := [];
      if activeSpeech.None? {
        place := Taking(MAX_IMMEDIATE_REPLIES, refused);
        return;
      }
      var urgent := TakeReply(true);
      if urgent.Some? {
        FinishActiveSpeech(false, Preempted);
        steps := StartReply(urgent.value, 0, refused, between);
      } else {
        steps := AdvanceSynthesizedSpeech(MAX_IMMEDIATE_REPLIES, refused, between);
      }
    }

    /** The oldest reply is taken and started, if one waits and may still be. */
    method TakeAndStart(between: seq<Step>) returns (ghost steps: seq<Step>)
      requires place.Taking?
      modifies this
      ensures var first := NextTaken(old(View()));
              LookedAgain(first, steps) && Legal(first, steps) && View() == After(first, steps)
      ensures place.Taking? ==> place.tries < old(place).tries
      ensures !place.Looking?
    {
      steps := [];
      if place.tries == 0 || replyQueue == [] {
        place := Resting;
        return;
      }
      var tries, refused := place.tries - 1, place.refused;
      var reply := TakeReply(false);
      place := Resting;
      steps := StartReply(reply.value, tries, refused, between);
    }

    method Begin(at: nat, refused: set<nat>, between: seq<Step>) returns (ghost run: seq<Step>)
      requires place.Resting? && at >= now
      modifies this
      ensures Legal(old(View()), run) && View() == After(old(View()), run) && OnePass(run, at, refused)
      ensures !place.Looking?
    {
      now := at;
      ghost var steps := BeginPass(refused, between);
      PassRuns(old(View()), at, refused, steps);
      run := [Pass(at, refused)] + steps;
    }

    /** Others act, and then the next reply is taken and started. */
    method NextReply(before: seq<Step>, between: seq<Step>) returns (ghost run: seq<Step>)
      requires place.Taking?
      modifies this
      ensures Legal(old(View()), run) && View() == After(old(View()), run)
      ensures NoPass(run)
      ensures !place.Looking? && (place.Taking? ==> place.tries < old(place).tries)
    {
      run := Others(before);
      OthersLeave(old(View()), run);
      ghost var steps := TakeAndStart(between);
      TakeNextRuns(old(View()), run, steps);
      run := run + [TakeNext] + steps;
    }

    /** One pass of the flight loop; `between` says what the others do at each pause. */
    method ProcessReplies(at: nat, refused: set<nat>, between: seq<seq<Step>>) returns (ghost run: seq<Step>)
      requires Inv(View(), None) && place.Resting? && at >= now
      modifies this
      ensures Legal(old(View()), run) && View() == After(old(View()), run) && OnePass(run, at, refused)
      ensures place.Resting? && Inv(View(), None)
    {
      run := Begin(at, refused, PauseAt(between, 0));
      var pause := 1;
      while place.Taking?
        invariant Legal(old(View()), run) && View() == After(old(View()), run) && OnePass(run, at, refused)
        invariant !place.Looking?
        decreases if place.Taking? then place.tries + 1 else 0
      {
        ghost var more := NextReply(PauseAt(between, pause), PauseAt(between, pause + 1));
        RunParts(old(View()), run, more);
        StillOnePass(run, more, at, refused);
        run := run + more;
        pause := pause + 2;
      }
      RunKeepsFrom(old(View()), run);
    }
  }

  function PauseAt(between: seq<seq<Step>>, i: nat): seq<Step> {
    if i < |between| then between[i] else []
  }

  lemma LookingIsNoPass(d: Desk, steps: seq<Step>)
    requires LookedAgain(d, steps)
    ensures NoPass(steps)
  {}

  lemma PassRuns(d: Desk, at: nat, refused: set<nat>, steps: seq<Step>)
    requires Enabled(d, Pass(at, refused))
    requires var first := Next(d, Pass(at, refused));
             LookedAgain(first, steps) && Legal(first, steps)
    ensures var run := [Pass(at, refused)] + steps;
            Legal(d, run) && After(d, run) == After(Next(d, Pass(at, refused)), steps) && OnePass(run, at, refused)
  {
    LookingIsNoPass(Next(d, Pass(at, refused)), steps);
    assert ([Pass(at, refused)] + steps)[1..] == steps;
  }

  lemma TakeNextRuns(d: Desk, run: seq<Step>, steps: seq<Step>)
    requires Legal(d, run) && AllOutside(run) && After(d, run).place.Taking?
    requires LookedAgain(NextTaken(After(d, run)), steps) && Legal(NextTaken(After(d, run)), steps)
    ensures Legal(d, run + [TakeNext] + steps) && NoPass(run + [TakeNext] + steps)
    ensures After(d, run + [TakeNext] + steps) == After(NextTaken(After(d, run)), steps)
  {
    LookingIsNoPass(NextTaken(After(d, run)), steps);
    RunMore(d, run, TakeNext);
    RunParts(d, run + [TakeNext], steps);
  }

  lemma StillOnePass(run: seq<Step>, more: seq<Step>, at: nat, refused: set<nat>)
    requires OnePass(run, at, refused) && NoPass(more)
    ensures OnePass(run + more, at, refused)
  {
    assert (run + more)[1..] == run[1..] + more;
  }
}
