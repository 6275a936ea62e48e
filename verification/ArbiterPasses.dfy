// What an arrival drops, when a reply that is silent is given up, and how many
// replies one pass of the flight loop takes up.
module ArbiterPasses {
  import opened ByteText
  import opened ReplyArbiter
  import opened ArbiterRuns
  import opened ArbiterLooks
  import opened ArbiterOrder

  // ------------------------------------------------------------------ arrivals

  /** A reply that arrives goes last, with what it came with; only a queue that holds
      sixteen drops one for it, the first. */
  lemma OnlyAFullQueueDrops(run: seq<Step>, step: Step)
    requires Legal(IDLE, run) && step.Arrive? && Enabled(After(IDLE, run), step)
    ensures var d, r := After(IDLE, run), Next(After(IDLE, run), step);
            var reply := Reply(|d.arrived|, step.category, step.text, step.speak, step.generation, step.speech.Some?);
            && r.arrived == d.arrived + [reply] && r.log == d.log && r.active == d.active
            && r.speeches == (if step.speech.Some? then d.speeches[reply.id := step.speech.value] else d.speeches)
            && (if |d.queue| < 16 then r.queue == d.queue + [reply] && r.dropped == d.dropped
                else r.queue == d.queue[1..] + [reply] && r.dropped == d.dropped + {d.queue[0].id})
  {}

  // ---------------------------------------------------------- how long silence may last

  /** When each reply that was left on the air was put there, as the steps show it. */
  function AiredBy(d: Desk, step: Step, aired: map<nat, nat>): map<nat, nat>
    requires Enabled(d, step)
  {
    var r := Next(d, step);
    if r.active.Some? && !IsOnAir(d, r.active.value.reply.id) then aired[r.active.value.reply.id := r.clock] else aired
  }

  function AiredFrom(d: Desk, run: seq<Step>, aired: map<nat, nat>): map<nat, nat>
    requires Legal(d, run)
    decreases |run|
  {
    if run == [] then aired else AiredFrom(Next(d, run[0]), run[1..], AiredBy(d, run[0], aired))
  }

  predicate GivenUp(e: Event) {
    e.Settled? && e.basis.TimedOut?
  }

  predicate AirTimesFit(d: Desk, aired: map<nat, nat>) {
    && (d.active.Some? ==>
          d.active.value.reply.id in aired && aired[d.active.value.reply.id] == d.active.value.startedAt)
    && (forall k :: 0 <= k < |d.log| && GivenUp(d.log[k]) ==>
          d.log[k].id in aired && d.log[k].at >= aired[d.log[k].id] + 12000)
  }

  predicate GivesUpNone(d: Desk, r: Desk) {
    d.log <= r.log && forall k :: |d.log| <= k < |r.log| ==> !GivenUp(r.log[k])
  }

  /** The reply on the air is the same, since the same time; or another, since now. */
  predicate AirStays(d: Desk, r: Desk) {
    r.active.Some? ==>
      if IsOnAir(d, r.active.value.reply.id) then r.active.value.startedAt == d.active.value.startedAt
      else r.active.value.startedAt == r.clock
  }

  lemma FirstLookAirs(d: Desk, tries: nat, refused: set<nat>)
    requires d.active.Some?
    ensures var r := FirstLook(d, tries, refused); GivesUpNone(d, r) && r.clock == d.clock
    ensures var r := FirstLook(d, tries, refused);
            r.active.Some? ==> r.active.value.reply == d.active.value.reply
                               && r.active.value.startedAt == d.active.value.startedAt
  {}

  lemma StartedAirs(d: Desk, reply: Reply, tries: nat, refused: set<nat>)
    requires d.active.None?
    ensures var r := Started(d, reply, tries, refused); GivesUpNone(d, r) && r.clock == d.clock
    ensures var r := Started(d, reply, tries, refused);
            r.active.Some? ==> r.active.value.reply == reply && r.active.value.startedAt == d.clock
  {
    FirstLookAirs(d.(active := Some(Active(reply, d.clock, 0, 0))), tries, refused);
  }

  lemma PassAirs(d: Desk, refused: set<nat>)
    requires Inv(d, None) && d.place.Resting?
    ensures var r := ReplyArbiter.Begun(d, refused); GivesUpNone(d, r) && AirStays(d, r)
  {
    var i := FirstUrgent(d.queue);
    if d.active.Some? && i < |d.queue| {
      CutAirs(d, i, refused);
    } else if d.active.Some? {
      FirstLookAirs(d, MAX_IMMEDIATE_REPLIES, refused);
    }
  }

  lemma WaitingIsNotOnAir(d: Desk, i: nat)
    requires Inv(d, None) && i < |d.queue|
    ensures !IsOnAir(d, d.queue[i].id)
  {
    assert IsWaiting(d, d.queue[i].id) && Tidy(d, None, d.queue[i].id);
  }

  lemma CutAirs(d: Desk, i: nat, refused: set<nat>)
    requires Inv(d, None) && d.active.Some? && i < |d.queue|
    ensures var r := Started(Ending(Taken(d, i), false, Preempted), d.queue[i], 0, refused);
            GivesUpNone(d, r) && AirStays(d, r)
  {
    var ended := Ending(Taken(d, i), false, Preempted);
    WaitingIsNotOnAir(d, i);
    StartedAirs(ended, d.queue[i], 0, refused);
  }

  lemma NextAirs(d: Desk)
    requires Inv(d, None) && d.place.Taking?
    ensures GivesUpNone(d, NextTaken(d)) && AirStays(d, NextTaken(d))
  {
    if d.place.tries > 0 && d.queue != [] {
      TakenAirs(d, d.place.tries - 1, d.place.refused, NextTaken(d));
    }
  }

  lemma TakenAirs(d: Desk, tries: nat, refused: set<nat>, next: Desk)
    requires d.active.None? && d.queue != []
    requires next == Started(Taken(d, 0).(place := Resting), d.queue[0], tries, refused)
    ensures GivesUpNone(d, next) && AirStays(d, next)
  {
    StartedAirs(Taken(d, 0).(place := Resting), d.queue[0], tries, refused);
  }

  lemma LookAirs(d: Desk)
    requires d.active.Some? && d.place.Looking?
    ensures var r := SecondLook(d);
            && d.log <= r.log && AirStays(d, r)
            && (forall k :: |d.log| <= k < |r.log| && GivenUp(r.log[k]) ==>
                  r.log[k].id == d.active.value.reply.id && r.log[k].at >= d.active.value.startedAt + 12000)
            && (r.active.Some? && r.active.value.nextSentence == 0 ==> r.clock < r.active.value.startedAt + 12000)
  {}

  lemma StepAirs(d: Desk, step: Step)
    requires Inv(d, None) && Enabled(d, step)
    ensures var r := Next(d, step);
            && d.log <= r.log && AirStays(d, r)
            && (!step.LookAgain? ==> GivesUpNone(d, r))
  {
    match step
    case Pass(now, refused) =>
      LaterKeeps(d, now);
      PassAirs(d.(clock := now), refused);
    case TakeNext => NextAirs(d);
    case LookAgain => LookAirs(d);
    case _ =>
  }

  lemma OnAirIsUnsettled(d: Desk, k: nat)
    requires Inv(d, None) && k < |d.log| && d.log[k].Settled? && d.active.Some?
    ensures d.log[k].id != d.active.value.reply.id
  {
    NoneSettledOnAir(d, None);
  }

  lemma StepFits(d: Desk, step: Step, aired: map<nat, nat>)
    requires Inv(d, None) && Enabled(d, step) && AirTimesFit(d, aired)
    ensures AirTimesFit(Next(d, step), AiredBy(d, step, aired))
  {
    var r, now := Next(d, step), AiredBy(d, step, aired);
    StepAirs(d, step);
    StepKeeps(d, step);
    forall k | 0 <= k < |r.log| && GivenUp(r.log[k])
      ensures r.log[k].id in now && r.log[k].at >= now[r.log[k].id] + 12000
    {
      if r.active.Some? {
        OnAirIsUnsettled(r, k);
      }
      if k < |d.log| {
        assert d.log[k] == r.log[k];
      } else {
        LookAirs(d);
      }
    }
  }

  lemma {:induction false} RunFits(d: Desk, run: seq<Step>, aired: map<nat, nat>)
    requires Inv(d, None) && AirTimesFit(d, aired) && Legal(d, run)
    ensures AirTimesFit(After(d, run), AiredFrom(d, run, aired))
    decreases |run|
  {
    if run != [] {
      StepFits(d, run[0], aired);
      StepKeeps(d, run[0]);
      RunFits(Next(d, run[0]), run[1..], AiredBy(d, run[0], aired));
    }
  }

  /** A reply of which nothing was heard is given up at a second look no sooner than
      twelve seconds after it was put on the air, and at no later look is it kept. */
  lemma SilenceIsBounded(run: seq<Step>)
    requires Legal(IDLE, run)
    ensures var d, aired := After(IDLE, run), AiredFrom(IDLE, run, map[]);
            && AirTimesFit(d, aired)
            && (Enabled(d, LookAgain) ==>
                  var r := Next(d, LookAgain);
                  r.active.Some? && r.active.value.nextSentence == 0 ==>
                    r.active.value.reply.id in aired && r.clock < aired[r.active.value.reply.id] + 12000)
  {
    NothingRun(IDLE);
    RunKeeps([]);
    RunFits(IDLE, run, map[]);
    var d := After(IDLE, run);
    if Enabled(d, LookAgain) {
      LookAirs(d);
      LookKeepsReply(d);
    }
  }

  lemma LookKeepsReply(d: Desk)
    requires d.active.Some? && d.place.Looking?
    ensures SecondLook(d).active.Some? ==> SecondLook(d).active == d.active
  {}

  // -------------------------------------------------------------- one pass's share

  /** How many replies the loop has taken up since its pass began, and whether it
      began by cutting one off. */
  datatype Tally = Tally(taken: nat, cut: bool)

  function Counted(d: Desk, step: Step, t: Tally): Tally
    requires Enabled(d, step)
  {
    match step
    case Pass(_, _) => Tally(0, d.active.Some? && exists i :: 0 <= i < |d.queue| && CutsIn(d.queue[i]))
    case TakeNext => if |Next(d, step).queue| < |d.queue| then t.(taken := t.taken + 1) else t
    case _ => t
  }

  function TallyFrom(d: Desk, run: seq<Step>, t: Tally): Tally
    requires Legal(d, run)
    decreases |run|
  {
    if run == [] then t else TallyFrom(Next(d, run[0]), run[1..], Counted(d, run[0], t))
  }

  predicate TriesFit(d: Desk, t: Tally) {
    && t.taken <= 16
    && (d.place.Taking? || d.place.Looking? ==> d.place.tries == if t.cut then 0 else 16 - t.taken)
  }

  /** A loop that has come to rest had done its share: the air is taken, nothing
      waits, it began by cutting a reply off, or it has taken sixteen. */
  predicate RestsRightly(d: Desk, t: Tally) {
    d.active.Some? || d.queue == [] || t.cut || t.taken == 16
  }

  lemma StartedQueue(d: Desk, r: Reply, tries: nat, refused: set<nat>)
    ensures var next := Started(d, r, tries, refused);
            && next.queue == d.queue
            && (next.place.Taking? || next.place.Looking? ==> next.place.tries == tries)
            && (next.place.Resting? ==> next.active.Some?)
  {}

  lemma PassCounts(d: Desk, step: Step, t: Tally)
    requires Enabled(d, step) && step.Pass?
    ensures var r := Next(d, step);
            TriesFit(r, Counted(d, step, t)) && (r.place.Resting? ==> r.active.Some?)
  {
    var i, later := FirstUrgent(d.queue), d.(clock := step.now);
    if d.active.Some? && i < |d.queue| {
      UrgentCutsIn(d.queue[i]);
      StartedQueue(Ending(Taken(later, i), false, Preempted), d.queue[i], 0, step.refused);
    } else if d.active.Some? {
      assert forall k :: 0 <= k < |d.queue| ==> !Urgent(d.queue[k]);
      assert forall k :: 0 <= k < |d.queue| ==> !CutsIn(d.queue[k]);
    }
  }

  lemma TakeCounts(d: Desk, t: Tally)
    requires d.place.Taking? && TriesFit(d, t)
    ensures var r, now := NextTaken(d), Counted(d, TakeNext, t);
            TriesFit(r, now) && (r.place.Resting? ==> RestsRightly(r, now))
  {
    if d.place.tries > 0 && d.queue != [] {
      StartedQueue(Taken(d, 0).(place := Resting), d.queue[0], d.place.tries - 1, d.place.refused);
    }
  }

  lemma LookCounts(d: Desk, t: Tally)
    requires d.active.Some? && d.place.Looking? && TriesFit(d, t)
    ensures TriesFit(SecondLook(d), t) && (SecondLook(d).place.Resting? ==> SecondLook(d).active.Some?)
  {}

  lemma OutsideCounts(d: Desk, step: Step, t: Tally)
    requires Enabled(d, step) && FromOutside(step) && TriesFit(d, t)
    ensures TriesFit(Next(d, step), Counted(d, step, t))
  {}

  lemma {:induction false} RunCounts(d: Desk, run: seq<Step>, t: Tally)
    requires TriesFit(d, t) && Legal(d, run)
    ensures TriesFit(After(d, run), TallyFrom(d, run, t))
    decreases |run|
  {
    if run != [] {
      if FromOutside(run[0]) {
        OutsideCounts(d, run[0], t);
      } else if run[0].Pass? {
        PassCounts(d, run[0], t);
      } else if run[0].TakeNext? {
        TakeCounts(d, t);
      } else {
        LookCounts(d, t);
      }
      RunCounts(Next(d, run[0]), run[1..], Counted(d, run[0], t));
    }
  }

  /** A pass takes up sixteen replies at most, and comes to rest with fewer only when
      the air is taken, nothing waits, or it began by cutting a reply off. */
  lemma OnePassTakesSixteen(run: seq<Step>)
    requires Legal(IDLE, run)
    ensures TriesFit(After(IDLE, run), TallyFrom(IDLE, run, Tally(0, false)))
    ensures var d, t := After(IDLE, run), TallyFrom(IDLE, run, Tally(0, false));
            Enabled(d, TakeNext) && Next(d, TakeNext).place.Resting? ==>
              RestsRightly(Next(d, TakeNext), Counted(d, TakeNext, t))
  {
    RunCounts(IDLE, run, Tally(0, false));
    if Enabled(After(IDLE, run), TakeNext) {
      TakeCounts(After(IDLE, run), TallyFrom(IDLE, run, Tally(0, false)));
    }
  }
}
