// What a settlement means, when a reply is given up, and how much one pass does.
module ArbiterReasons {
  import opened ByteText
  import opened ReplyArbiter
  import opened ArbiterRuns
  import opened ArbiterLooks
  import opened SpokenReplies

  // ------------------------------------------------------- what is settled and why

  predicate PlayedBefore(log: seq<Event>, n: nat, id: nat)
    requires n <= |log|
  {
    exists k :: 0 <= k < n && log[k].Played? && log[k].id == id
  }

  /** What the basis of settlement n says of its reply is so. */
  predicate Meant(d: Desk, n: nat)
    requires n < |d.log| && d.log[n].Settled? && d.log[n].id < |d.arrived|
  {
    var e := d.log[n];
    var r, s, played := d.arrived[e.id], SpeechOf(d, e.id), PlayedBefore(d.log, n, e.id);
    match e.basis
    case EmptyText => !e.ok && r.text == "" && !played
    case NotRequested => e.ok && r.text != "" && !r.speak && !played
    case VoicesUnavailable => !e.ok && r.text != "" && r.speak && !r.voiced && !played
    case SynthesisFailed => !e.ok && r.voiced && s.finished && !played
    case FailedPartway => !e.ok && r.voiced && s.finished && s.failed && played
    case PlaybackElapsed => e.ok && r.voiced && s.finished && !s.failed && played
    case TimedOut => !e.ok && r.voiced && !played
    case RadioRefused => !e.ok && r.voiced
    case Preempted => !e.ok && r.voiced
  }

  predicate AllMeant(d: Desk) {
    forall n :: 0 <= n < |d.log| && d.log[n].Settled? && d.log[n].id < |d.arrived| ==> Meant(d, n)
  }

  lemma {:induction false} PlaysTell(log: seq<Event>, id: nat)
    ensures Plays(log, id) == [] <==> !PlayedBefore(log, |log|, id)
  {
    if log != [] {
      var last := |log| - 1;
      assert log == log[..last] + [log[last]];
      LogMore(log[..last], log[last], id);
      PlaysTell(log[..last], id);
      if k :| 0 <= k < last && log[k].Played? && log[k].id == id {
        assert log[..last][k] == log[k];
      }
    }
  }

  lemma SamePrefix(log: seq<Event>, more: seq<Event>, n: nat, id: nat)
    requires log <= more && n <= |log|
    ensures PlayedBefore(more, n, id) <==> PlayedBefore(log, n, id)
  {
    assert forall k :: 0 <= k < n ==> more[k] == log[k];
  }

  lemma MeantStill(d: Desk, r: Desk, n: nat)
    requires n < |d.log| && d.log[n].Settled? && d.log[n].id < |d.arrived| && Meant(d, n)
    requires d.log <= r.log && d.arrived <= r.arrived
    requires forall id :: id in d.speeches ==> id in r.speeches && GoesOn(d.speeches[id], r.speeches[id])
    ensures Meant(r, n)
  {
    SamePrefix(d.log, r.log, n, d.log[n].id);
  }

  /** The end of the reply on the air, for a reason that is so. */
  predicate MayEnd(d: Desk, ok: bool, basis: Basis)
    requires d.active.Some?
  {
    var a := d.active.value;
    var s := SpeechOf(d, a.reply.id);
    match basis
    case SynthesisFailed => !ok && s.finished && a.nextSentence == 0
    case FailedPartway => !ok && s.finished && s.failed && a.nextSentence > 0
    case PlaybackElapsed => ok && s.finished && !s.failed && a.nextSentence > 0
    case TimedOut => !ok && a.nextSentence == 0
    case RadioRefused => !ok
    case Preempted => !ok
    case _ => false
  }

  lemma EndingNotes(d: Desk, ok: bool, basis: Basis)
    requires d.active.Some?
    ensures var r := Ending(d, ok, basis);
            && d.log < r.log && r.arrived == d.arrived && r.speeches == d.speeches
            && (forall n :: |d.log| <= n < |r.log| - 1 ==> r.log[n].Silenced?)
            && r.log[|r.log| - 1] == Settlement(d, d.active.value.reply, ok, basis)
  {}

  lemma EndingIsMeant(d: Desk, ok: bool, basis: Basis, hand: Option<nat>)
    requires Inv(d, hand) && d.active.Some? && MayEnd(d, ok, basis)
    ensures SettlesRightly(d, Ending(d, ok, basis))
  {
    var a, r := d.active.value, Ending(d, ok, basis);
    EndingNotes(d, ok, basis);
    PlaysTell(d.log, a.reply.id);
    FirstNone(a.nextSentence);
    NoPlaysAdded(d, r, |r.log| - 1, a.reply.id);
    LastIsMeant(d, r, ok, basis);
  }

  lemma LastIsMeant(d: Desk, r: Desk, ok: bool, basis: Basis)
    requires Numbered(d) && OnAir(d) && Speeches(d) && d.active.Some? && MayEnd(d, ok, basis)
    requires d.log < r.log && r.arrived == d.arrived && r.speeches == d.speeches
    requires r.log[|r.log| - 1] == Settlement(d, d.active.value.reply, ok, basis)
    requires PlayedBefore(r.log, |r.log| - 1, d.active.value.reply.id) <==> d.active.value.nextSentence > 0
    ensures Meant(r, |r.log| - 1)
  {}

  lemma FirstNone(n: nat)
    ensures FirstNumbers(n) == [] <==> n == 0
  {}

  lemma NoPlaysAdded(d: Desk, r: Desk, n: nat, id: nat)
    requires d.log <= r.log && |d.log| <= n <= |r.log| && forall k :: |d.log| <= k < n ==> !r.log[k].Played?
    ensures PlayedBefore(r.log, n, id) <==> PlayedBefore(d.log, |d.log|, id)
  {
    SamePrefix(d.log, r.log, |d.log|, id);
    if k :| 0 <= k < n && r.log[k].Played? && r.log[k].id == id {
      assert k < |d.log|;
    }
  }

  /** What a step settles, it settles for its reason. */
  predicate SettlesRightly(d: Desk, r: Desk) {
    && d.log <= r.log && r.arrived == d.arrived && r.speeches == d.speeches
    && forall n :: |d.log| <= n < |r.log| && r.log[n].Settled? ==> r.log[n].id < |d.arrived| && Meant(r, n)
  }

  lemma RightlyTwice(a: Desk, b: Desk, c: Desk)
    requires SettlesRightly(a, b) && SettlesRightly(b, c)
    ensures SettlesRightly(a, c)
  {
    forall n | |a.log| <= n < |c.log| && c.log[n].Settled?
      ensures c.log[n].id < |a.arrived| && Meant(c, n)
    {
      if n < |b.log| {
        assert b.log[n] == c.log[n];
        SamePrefix(b.log, c.log, n, b.log[n].id);
      }
    }
  }

  lemma NothingSettled(d: Desk, r: Desk)
    requires d.log <= r.log && r.arrived == d.arrived && r.speeches == d.speeches
    requires forall n :: |d.log| <= n < |r.log| ==> !r.log[n].Settled?
    ensures SettlesRightly(d, r)
  {}

  lemma Elsewhere(d: Desk, r: Desk, place: Place)
    requires SettlesRightly(d, r)
    ensures SettlesRightly(d, r.(place := place))
  {
    forall n | |d.log| <= n < |r.log| && r.log[n].Settled?
      ensures Meant(r.(place := place), n)
    {
      assert Meant(r, n);
    }
  }

  lemma FirstLookSettles(d: Desk, tries: nat, refused: set<nat>)
    requires Inv(d, None) && d.active.Some?
    ensures SettlesRightly(d, FirstLook(d, tries, refused))
  {
    var a := d.active.value;
    var durations := SpeechOf(d, a.reply.id).durations;
    if d.clock >= a.endsAt && a.nextSentence < |durations| && a.reply.id in refused {
      EndingIsMeant(d, false, RadioRefused, None);
      Elsewhere(d, Ending(d, false, RadioRefused), Taking(tries, refused));
    } else {
      NothingSettled(d, FirstLook(d, tries, refused));
    }
  }

  lemma EndingSettles(d: Desk, ok: bool, basis: Basis, place: Place)
    requires Inv(d, None) && d.active.Some? && MayEnd(d, ok, basis)
    ensures SettlesRightly(d, Ending(d, ok, basis).(place := place))
  {
    EndingIsMeant(d, ok, basis, None);
    Elsewhere(d, Ending(d, ok, basis), place);
  }

  lemma SecondLookSettles(d: Desk)
    requires Inv(d, None) && d.active.Some? && d.place.Looking?
    ensures SettlesRightly(d, SecondLook(d))
  {
    var a, after := d.active.value, Taking(d.place.tries, d.place.refused);
    var speech := SpeechOf(d, a.reply.id);
    if speech.finished && a.nextSentence == 0 {
      EndingSettles(d, false, SynthesisFailed, after);
    } else if speech.finished && speech.failed {
      EndingSettles(d, false, FailedPartway, after);
    } else if speech.finished {
      EndingSettles(d, true, PlaybackElapsed, after);
    } else if a.nextSentence == 0 && d.clock >= a.startedAt + SYNTHESIS_DEADLINE_MS {
      EndingSettles(d, false, TimedOut, after);
    } else {
      NothingSettled(d, SecondLook(d));
    }
  }

  lemma AtOnceSettles(d: Desk, reply: Reply, ok: bool, basis: Basis, place: Place)
    requires Inv(d, Some(reply.id)) && reply == d.arrived[reply.id]
    requires basis.EmptyText? || basis.NotRequested? || basis.VoicesUnavailable?
    requires if basis.EmptyText? then !ok && reply.text == ""
             else if basis.NotRequested? then ok && reply.text != "" && !reply.speak
             else !ok && reply.text != "" && reply.speak && !reply.voiced
    ensures SettlesRightly(d, Acknowledged(d, reply, ok, basis).(place := place))
  {
    assert Tidy(d, Some(reply.id), reply.id);
    assert !PlayedBefore(Acknowledged(d, reply, ok, basis).log, |d.log|, reply.id);
  }

  lemma StartedSettles(d: Desk, reply: Reply, tries: nat, refused: set<nat>)
    requires Inv(d, Some(reply.id)) && d.active.None? && reply == d.arrived[reply.id] && d.place.Resting?
    ensures SettlesRightly(d, Started(d, reply, tries, refused))
  {
    if reply.text == "" {
      AtOnceSettles(d, reply, false, EmptyText, Taking(tries, refused));
    } else if !reply.speak {
      AtOnceSettles(d, reply, true, NotRequested, Taking(tries, refused));
    } else if !reply.voiced {
      AtOnceSettles(d, reply, false, VoicesUnavailable, Taking(tries, refused));
    } else {
      var on := d.(active := Some(Active(reply, d.clock, 0, 0)));
      ActivatedKeeps(d, reply);
      FirstLookSettles(on, tries, refused);
      FromActivated(d, on, FirstLook(on, tries, refused));
    }
  }

  lemma FromActivated(d: Desk, on: Desk, r: Desk)
    requires SettlesRightly(on, r) && on.log == d.log && on.arrived == d.arrived && on.speeches == d.speeches
    ensures SettlesRightly(d, r)
  {}

  lemma NextSettles(d: Desk)
    requires Inv(d, None) && d.place.Taking?
    ensures SettlesRightly(d, NextTaken(d))
  {
    if d.place.tries == 0 || d.queue == [] {
      NothingSettled(d, NextTaken(d));
    } else {
      TakenSettles(d, d.place.tries - 1, d.place.refused, NextTaken(d));
    }
  }

  lemma TakenSettles(d: Desk, tries: nat, refused: set<nat>, next: Desk)
    requires Inv(d, None) && d.place.Taking? && d.queue != []
    requires next == Started(Taken(d, 0).(place := Resting), d.queue[0], tries, refused)
    ensures SettlesRightly(d, next)
  {
    var taken := Taken(d, 0).(place := Resting);
    InHandKeeps(d);
    StartedSettles(taken, d.queue[0], tries, refused);
    FromActivated(d, taken, next);
  }

  lemma CutSettles(d: Desk, i: nat, refused: set<nat>)
    requires Inv(d, None) && d.place.Resting? && d.active.Some? && i < |d.queue|
    ensures SettlesRightly(d, Started(Ending(Taken(d, i), false, Preempted), d.queue[i], 0, refused))
  {
    var taken, reply := Taken(d, i), d.queue[i];
    var ended := Ending(taken, false, Preempted);
    TakenKeeps(d, i);
    EndingKeeps(taken, Some(reply.id), false, Preempted, Resting);
    assert ended.(place := Resting) == ended;
    EndingIsMeant(taken, false, Preempted, Some(reply.id));
    FromActivated(d, taken, ended);
    StartedSettles(ended, reply, 0, refused);
    RightlyTwice(d, ended, Started(ended, reply, 0, refused));
  }

  lemma PassSettles(d: Desk, refused: set<nat>)
    requires Inv(d, None) && d.place.Resting?
    ensures SettlesRightly(d, ReplyArbiter.Begun(d, refused))
  {
    var i := FirstUrgent(d.queue);
    if d.active.None? {
      NothingSettled(d, ReplyArbiter.Begun(d, refused));
    } else if i < |d.queue| {
      CutSettles(d, i, refused);
    } else {
      FirstLookSettles(d, MAX_IMMEDIATE_REPLIES, refused);
    }
  }

  lemma LoopSettles(d: Desk, step: Step)
    requires Inv(d, None) && Enabled(d, step) && !FromOutside(step)
    ensures SettlesRightly(d, Next(d, step))
  {
    if step.Pass? {
      var later := d.(clock := step.now);
      LaterKeeps(d, step.now);
      PassSettles(later, step.refused);
      FromActivated(d, later, ReplyArbiter.Begun(later, step.refused));
    } else if step.TakeNext? {
      NextSettles(d);
    } else {
      SecondLookSettles(d);
    }
  }

  lemma StepMeant(d: Desk, step: Step)
    requires Inv(d, None) && AllMeant(d) && Enabled(d, step)
    ensures AllMeant(Next(d, step))
  {
    var r := Next(d, step);
    StepAppends(d, step);
    SpeechesGoOn(d, step);
    if FromOutside(step) {
      OutsideNotesNothing(d, step);
    } else {
      LoopSettles(d, step);
    }
    forall n | 0 <= n < |r.log| && r.log[n].Settled? && r.log[n].id < |r.arrived|
      ensures Meant(r, n)
    {
      if n < |d.log| {
        assert r.log[n] == d.log[n];
        assert d.log[n].id < |d.arrived|;
        MeantStill(d, r, n);
      }
    }
  }

  lemma {:induction false} RunMeant(d: Desk, run: seq<Step>)
    requires Inv(d, None) && AllMeant(d) && Legal(d, run)
    ensures AllMeant(After(d, run))
    decreases |run|
  {
    if run != [] {
      StepMeant(d, run[0]);
      StepKeeps(d, run[0]);
      RunMeant(Next(d, run[0]), run[1..]);
    }
  }

  /** In every run a reply is settled for the reason that its settlement gives. */
  lemma SettledForItsReason(run: seq<Step>)
    requires Legal(IDLE, run)
    ensures AllMeant(After(IDLE, run))
  {
    IdleKeeps();
    RunMeant(IDLE, run);
  }
}
