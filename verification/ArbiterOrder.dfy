// In which order the arbiter's replies leave the queue, and which are dropped.
module ArbiterOrder {
  import opened ByteText
  import opened ReplyArbiter
  import opened ArbiterRuns
  import opened ArbiterLooks

  /** The categories that may cut in. */
  predicate CutsIn(r: Reply) {
    r.category in {"safety_alert", "emergency_assistance"}
  }

  lemma UrgentCutsIn(r: Reply)
    ensures Urgent(r) <==> CutsIn(r)
  {}

  /** The replies that a step put ahead of others: a pass that finds one on the air,
      and takes one that may cut in from the queue. */
  function Ahead(d: Desk, step: Step): set<nat>
    requires Enabled(d, step)
  {
    set i | 0 <= i < |d.queue| && step.Pass? && d.active.Some? && CutsIn(d.queue[i])
            && d.queue[i] !in Next(d, step).queue :: d.queue[i].id
  }

  function AllAhead(d: Desk, run: seq<Step>): set<nat>
    requires Legal(d, run)
    decreases |run|
  {
    if run == [] then {} else Ahead(d, run[0]) + AllAhead(Next(d, run[0]), run[1..])
  }

  /** The reply is on the air, or something was noted of it. */
  predicate HasBegun(d: Desk, id: nat) {
    IsOnAir(d, id) || exists k :: 0 <= k < |d.log| && d.log[k].id == id
  }

  /** While a reply waits, no later one has begun but one that was put ahead of it,
      and that only of one that may not cut in itself. */
  ghost predicate InTurn(d: Desk, ahead: set<nat>) {
    forall i, id :: 0 <= i < |d.queue| && id > d.queue[i].id && HasBegun(d, id) ==> id in ahead && !CutsIn(d.queue[i])
  }

  /** What was dropped came before all that waits. */
  ghost predicate OldestDropped(d: Desk) {
    forall i, id :: 0 <= i < |d.queue| && id in d.dropped ==> id < d.queue[i].id
  }

  lemma LookBeginsNone(d: Desk, tries: nat, refused: set<nat>, id: nat)
    requires d.active.Some?
    ensures HasBegun(FirstLook(d, tries, refused), id) ==> HasBegun(d, id)
    ensures FirstLook(d, tries, refused).queue == d.queue && FirstLook(d, tries, refused).dropped == d.dropped
  {
    var a, next := d.active.value, FirstLook(d, tries, refused);
    if k :| 0 <= k < |next.log| && next.log[k].id == id {
      assert k < |d.log| ==> d.log[k].id == id;
      assert k >= |d.log| ==> id == a.reply.id;
    }
  }

  lemma EndingBeginsNone(d: Desk, ok: bool, basis: Basis, id: nat)
    requires d.active.Some?
    ensures HasBegun(Ending(d, ok, basis), id) ==> HasBegun(d, id)
    ensures Ending(d, ok, basis).queue == d.queue && Ending(d, ok, basis).dropped == d.dropped
  {
    var a, next := d.active.value, Ending(d, ok, basis);
    if k :| 0 <= k < |next.log| && next.log[k].id == id {
      assert k < |d.log| ==> d.log[k].id == id;
      assert k >= |d.log| ==> id == a.reply.id;
    }
  }

  lemma SecondLookBeginsNone(d: Desk, id: nat)
    requires d.active.Some? && d.place.Looking?
    ensures HasBegun(SecondLook(d), id) ==> HasBegun(d, id)
    ensures SecondLook(d).queue == d.queue && SecondLook(d).dropped == d.dropped
  {
    EndingBeginsNone(d, false, SynthesisFailed, id);
    EndingBeginsNone(d, false, FailedPartway, id);
    EndingBeginsNone(d, true, PlaybackElapsed, id);
    EndingBeginsNone(d, false, TimedOut, id);
  }

  lemma StartedBeginsOne(d: Desk, r: Reply, tries: nat, refused: set<nat>, id: nat)
    ensures HasBegun(Started(d, r, tries, refused), id) ==> HasBegun(d, id) || id == r.id || d.active.Some?
    ensures Started(d, r, tries, refused).queue == d.queue && Started(d, r, tries, refused).dropped == d.dropped
  {
    var on := d.(active := Some(Active(r, d.clock, 0, 0)));
    LookBeginsNone(on, tries, refused, id);
    var next := Started(d, r, tries, refused);
    if r.text == "" || !r.speak || !r.voiced {
      if k :| 0 <= k < |next.log| && next.log[k].id == id {
        assert k < |d.log| ==> d.log[k].id == id;
      }
    }
  }

  lemma SameTurns(d: Desk, r: Desk, ahead: set<nat>)
    requires InTurn(d, ahead) && OldestDropped(d) && r.queue == d.queue && r.dropped == d.dropped
    requires forall id :: HasBegun(r, id) ==> HasBegun(d, id)
    ensures InTurn(r, ahead) && OldestDropped(r)
  {}

  /** The reply that is taken goes, and it alone may begin. */
  lemma TakenInTurn(d: Desk, r: Desk, at: nat, ahead: set<nat>)
    requires Inv(d, None) && InTurn(d, ahead) && OldestDropped(d) && at < |d.queue|
    requires r.queue == Without(d.queue, at) && r.dropped == d.dropped
    requires forall id :: HasBegun(r, id) ==> HasBegun(d, id) || id == d.queue[at].id
    requires forall j :: 0 <= j < at ==> d.queue[at].id in ahead && !CutsIn(d.queue[j])
    ensures InTurn(r, ahead) && OldestDropped(r)
  {
    forall i, id | 0 <= i < |r.queue| && id > r.queue[i].id && HasBegun(r, id)
      ensures id in ahead && !CutsIn(r.queue[i])
    {
      var j := if i < at then i else i + 1;
      assert r.queue[i] == d.queue[j];
      assert id == d.queue[at].id ==> j < at;
    }
  }

  lemma NextInTurn(d: Desk, ahead: set<nat>)
    requires Inv(d, None) && InTurn(d, ahead) && OldestDropped(d) && d.place.Taking?
    ensures InTurn(NextTaken(d), ahead) && OldestDropped(NextTaken(d))
  {
    var r := NextTaken(d);
    if d.place.tries == 0 || d.queue == [] {
      SameTurns(d, r, ahead);
    } else {
      var taken := Taken(d, 0).(place := Resting);
      assert d.active.None?;
      forall id
        ensures HasBegun(r, id) ==> HasBegun(d, id) || id == d.queue[0].id
      {
        StartedBeginsOne(taken, d.queue[0], d.place.tries - 1, d.place.refused, id);
        StillBegun(taken, d, id);
      }
      StartedBeginsOne(taken, d.queue[0], d.place.tries - 1, d.place.refused, 0);
      TakenInTurn(d, r, 0, ahead);
    }
  }

  lemma StillBegun(r: Desk, d: Desk, id: nat)
    requires r.log == d.log && r.active == d.active
    ensures HasBegun(r, id) <==> HasBegun(d, id)
  {}

  lemma CutInTurn(d: Desk, refused: set<nat>, ahead: set<nat>)
    requires Inv(d, None) && InTurn(d, ahead) && OldestDropped(d) && d.place.Resting? && d.active.Some?
    requires var i := FirstUrgent(d.queue); i < |d.queue| && d.queue[i].id in ahead
    ensures InTurn(ReplyArbiter.Begun(d, refused), ahead) && OldestDropped(ReplyArbiter.Begun(d, refused))
  {
    var at, r := FirstUrgent(d.queue), ReplyArbiter.Begun(d, refused);
    var ended := Ending(Taken(d, at), false, Preempted);
    assert r == Started(ended, d.queue[at], 0, refused);
    forall id
      ensures HasBegun(r, id) ==> HasBegun(d, id) || id == d.queue[at].id
    {
      StartedBeginsOne(ended, d.queue[at], 0, refused, id);
      EndingBeginsNone(Taken(d, at), false, Preempted, id);
      StillBegun(Taken(d, at), d, id);
    }
    StartedBeginsOne(ended, d.queue[at], 0, refused, 0);
    EndingBeginsNone(Taken(d, at), false, Preempted, 0);
    TakenInTurn(d, r, at, ahead);
  }

  lemma PassInTurn(d: Desk, refused: set<nat>, ahead: set<nat>)
    requires Inv(d, None) && InTurn(d, ahead) && OldestDropped(d) && d.place.Resting?
    requires d.active.Some? && FirstUrgent(d.queue) < |d.queue| ==> d.queue[FirstUrgent(d.queue)].id in ahead
    ensures InTurn(ReplyArbiter.Begun(d, refused), ahead) && OldestDropped(ReplyArbiter.Begun(d, refused))
  {
    var r := ReplyArbiter.Begun(d, refused);
    if d.active.Some? && FirstUrgent(d.queue) < |d.queue| {
      CutInTurn(d, refused, ahead);
    } else {
      forall id
        ensures HasBegun(r, id) ==> HasBegun(d, id)
      {
        if d.active.Some? {
          LookBeginsNone(d, MAX_IMMEDIATE_REPLIES, refused, id);
        }
      }
      if d.active.Some? {
        LookBeginsNone(d, MAX_IMMEDIATE_REPLIES, refused, 0);
      }
      SameTurns(d, r, ahead);
    }
  }

  lemma LookInTurn(d: Desk, ahead: set<nat>)
    requires InTurn(d, ahead) && OldestDropped(d) && d.active.Some? && d.place.Looking?
    ensures InTurn(SecondLook(d), ahead) && OldestDropped(SecondLook(d))
  {
    forall id
      ensures HasBegun(SecondLook(d), id) ==> HasBegun(d, id)
    {
      SecondLookBeginsNone(d, id);
    }
    SecondLookBeginsNone(d, 0);
    SameTurns(d, SecondLook(d), ahead);
  }

  lemma ArrivalInTurn(d: Desk, step: Step, ahead: set<nat>)
    requires Inv(d, None) && InTurn(d, ahead) && OldestDropped(d) && Enabled(d, step) && step.Arrive?
    ensures InTurn(Next(d, step), ahead) && OldestDropped(Next(d, step))
  {
    var r := Next(d, step);
    forall i | 0 <= i < |r.queue|
      ensures r.queue[i] in d.queue || r.queue[i].id == |d.arrived|
    {}
    forall i, id | 0 <= i < |r.queue| && id > r.queue[i].id && HasBegun(r, id)
      ensures id in ahead && !CutsIn(r.queue[i])
    {
      StillBegun(r, d, id);
      assert id < |d.arrived|;
    }
  }

  lemma FirstIsAhead(d: Desk, step: Step)
    requires Inv(d, None) && Enabled(d, step) && step.Pass? && d.active.Some? && FirstUrgent(d.queue) < |d.queue|
    ensures d.queue[FirstUrgent(d.queue)].id in Ahead(d, step)
  {
    var at := FirstUrgent(d.queue);
    var later := d.(clock := step.now);
    var ended := Ending(Taken(later, at), false, Preempted);
    StartedBeginsOne(ended, d.queue[at], 0, step.refused, 0);
    EndingBeginsNone(Taken(later, at), false, Preempted, 0);
    assert Next(d, step).queue == Without(d.queue, at);
    UrgentCutsIn(d.queue[at]);
  }

  lemma MoreAhead(d: Desk, ahead: set<nat>, more: set<nat>)
    requires InTurn(d, ahead)
    ensures InTurn(d, ahead + more)
  {}

  lemma StepInTurn(d: Desk, step: Step, ahead: set<nat>)
    requires Inv(d, None) && InTurn(d, ahead) && OldestDropped(d) && Enabled(d, step)
    ensures InTurn(Next(d, step), ahead + Ahead(d, step)) && OldestDropped(Next(d, step))
  {
    var both := ahead + Ahead(d, step);
    MoreAhead(d, ahead, Ahead(d, step));
    match step
    case Arrive(_, _, _, _, _) => ArrivalInTurn(d, step, both);
    case Pass(now, refused) =>
      var later := d.(clock := now);
      LaterKeeps(d, now);
      if d.active.Some? && FirstUrgent(d.queue) < |d.queue| {
        FirstIsAhead(d, step);
      }
      LaterInTurn(d, later, both);
      PassInTurn(later, refused, both);
    case TakeNext => NextInTurn(d, both);
    case LookAgain => LookInTurn(d, both);
    case _ => LaterInTurn(d, Next(d, step), both);
  }

  lemma LaterInTurn(d: Desk, r: Desk, ahead: set<nat>)
    requires InTurn(d, ahead) && OldestDropped(d)
    requires r.queue == d.queue && r.dropped == d.dropped && r.log == d.log && r.active == d.active
    ensures InTurn(r, ahead) && OldestDropped(r)
  {
    forall id
      ensures HasBegun(r, id) ==> HasBegun(d, id)
    {
      StillBegun(r, d, id);
    }
    SameTurns(d, r, ahead);
  }

  lemma {:induction false} RunInTurn(d: Desk, run: seq<Step>, ahead: set<nat>)
    requires Inv(d, None) && InTurn(d, ahead) && OldestDropped(d) && Legal(d, run)
    ensures InTurn(After(d, run), ahead + AllAhead(d, run)) && OldestDropped(After(d, run))
    decreases |run|
  {
    if run == [] {
      assert ahead + {} == ahead;
    } else {
      StepInTurn(d, run[0], ahead);
      StepKeeps(d, run[0]);
      RunInTurn(Next(d, run[0]), run[1..], ahead + Ahead(d, run[0]));
      assert ahead + Ahead(d, run[0]) + AllAhead(Next(d, run[0]), run[1..]) == ahead + AllAhead(d, run);
    }
  }

  /** In every run replies begin in the order they came in: while one waits, no later
      one is on the air or was settled but one that cut in, and none cuts in on one
      that could cut in itself; and what overflow dropped came before all that waits. */
  lemma RepliesBeginInTurn(run: seq<Step>)
    requires Legal(IDLE, run)
    ensures InTurn(After(IDLE, run), AllAhead(IDLE, run)) && OldestDropped(After(IDLE, run))
  {
    NothingRun(IDLE);
    RunKeeps([]);
    RunInTurn(IDLE, run, {});
    assert {} + AllAhead(IDLE, run) == AllAhead(IDLE, run);
  }
}
