// When the arbiter reports a reply as delivered that was not played whole, and
// when it cuts one off: conditions over every run, with runs that show each.
module ArbiterLooks {
  import opened ByteText
  import opened ReplyArbiter
  import opened ArbiterRuns
  import opened SampleReply

  // ------------------------------------------------------------------ runs

  lemma {:induction false} RunStep(d: Desk, run: seq<Step>, k: nat)
    requires Legal(d, run) && k < |run|
    ensures Legal(d, run[..k]) && Enabled(After(d, run[..k]), run[k])
    ensures Legal(d, run[..k + 1]) && After(d, run[..k + 1]) == Next(After(d, run[..k]), run[k])
    decreases k
  {
    if k == 0 {
      assert run[..0] == [] && run[..1] == [run[0]] && [run[0]][1..] == [];
    } else {
      RunStep(Next(d, run[0]), run[1..], k - 1);
      assert run[..k][1..] == run[1..][..k - 1] && run[..k + 1][1..] == run[1..][..k];
    }
  }

  lemma NothingRun(d: Desk)
    ensures Legal(d, []) && After(d, []) == d
  {}

  lemma StepBefore(d: Desk, step: Step, rest: seq<Step>)
    requires Enabled(d, step) && Legal(Next(d, step), rest)
    ensures Legal(d, [step] + rest) && After(d, [step] + rest) == After(Next(d, step), rest)
  {
    assert ([step] + rest)[1..] == rest;
  }

  lemma {:induction false} RunParts(d: Desk, first: seq<Step>, second: seq<Step>)
    requires Legal(d, first) && Legal(After(d, first), second)
    ensures Legal(d, first + second) && After(d, first + second) == After(After(d, first), second)
    decreases |first|
  {
    if first == [] {
      assert first + second == second;
    } else {
      RunParts(Next(d, first[0]), first[1..], second);
      StepBefore(d, first[0], first[1..] + second);
      assert first + second == [first[0]] + (first[1..] + second);
    }
  }

  /** One more step at the end of a run. */
  lemma RunMore(d: Desk, run: seq<Step>, step: Step)
    requires Legal(d, run) && Enabled(After(d, run), step)
    ensures Legal(d, run + [step]) && After(d, run + [step]) == Next(After(d, run), step)
  {
    assert [step][1..] == [];
    RunParts(d, run, [step]);
  }

  lemma StartedAppends(d: Desk, r: Reply, tries: nat, refused: set<nat>)
    ensures d.log <= Started(d, r, tries, refused).log
  {}

  lemma BegunAppends(d: Desk, refused: set<nat>)
    requires d.place.Resting?
    ensures d.log <= Begun(d, refused).log && d.arrived <= Begun(d, refused).arrived
  {
    var i := FirstUrgent(d.queue);
    if d.active.Some? && i < |d.queue| {
      StartedAppends(Ending(Taken(d, i), false, Preempted), d.queue[i], 0, refused);
    }
  }

  lemma StepAppends(d: Desk, step: Step)
    requires Enabled(d, step)
    ensures d.log <= Next(d, step).log && d.arrived <= Next(d, step).arrived
  {
    match step
    case Pass(now, refused) => BegunAppends(d.(clock := now), refused);
    case TakeNext =>
      if d.place.tries > 0 && d.queue != [] {
        StartedAppends(Taken(d, 0).(place := Resting), d.queue[0], d.place.tries - 1, d.place.refused);
      }
    case _ =>
  }

  /** What may happen while the flight loop is between two of its steps. */
  predicate FromOutside(step: Step) {
    step.Arrive? || step.Voiced? || step.Complete?
  }

  lemma LoopLeavesSpeeches(d: Desk, step: Step)
    requires Enabled(d, step) && !FromOutside(step)
    ensures Next(d, step).speeches == d.speeches && Next(d, step).arrived == d.arrived
  {
    match step
    case Pass(now, refused) =>
      var i := FirstUrgent(d.queue);
      if d.active.Some? && i < |d.queue| {
        StartedLeavesSpeeches(Ending(Taken(d.(clock := now), i), false, Preempted), d.queue[i], 0, refused);
      }
    case TakeNext =>
      if d.place.tries > 0 && d.queue != [] {
        StartedLeavesSpeeches(Taken(d, 0).(place := Resting), d.queue[0], d.place.tries - 1, d.place.refused);
      }
    case _ =>
  }

  lemma StartedLeavesSpeeches(d: Desk, r: Reply, tries: nat, refused: set<nat>)
    ensures Started(d, r, tries, refused).speeches == d.speeches && Started(d, r, tries, refused).arrived == d.arrived
  {}

  lemma {:induction false} RunAppends(run: seq<Step>, k: nat)
    requires Legal(IDLE, run) && k <= |run|
    ensures Legal(IDLE, run[..k]) && After(IDLE, run[..k]).log <= After(IDLE, run).log
    ensures After(IDLE, run[..k]).arrived <= After(IDLE, run).arrived
    decreases |run| - k
  {
    if k < |run| {
      RunStep(IDLE, run, k);
      RunAppends(run, k + 1);
      StepAppends(After(IDLE, run[..k]), run[k]);
    } else {
      assert run[..k] == run;
    }
  }

  // ------------------------------------------------------- who is cut off

  predicate CutsOff(d: Desk, after: Desk)
    requires d.active.Some?
  {
    exists m :: |d.log| <= m < |after.log| && after.log[m].Settled? && after.log[m].basis.Preempted?
                && after.log[m].id == d.active.value.reply.id
  }

  /** A pass settles the reply on the air as preempted exactly when an urgent one
      waits, whatever the reply on the air is. */
  lemma CutOffExactlyByUrgent(d: Desk, now: nat, refused: set<nat>)
    requires Enabled(d, Pass(now, refused)) && d.active.Some?
    ensures CutsOff(d, Next(d, Pass(now, refused))) <==>
              exists i :: 0 <= i < |d.queue| && d.queue[i].category in {"safety_alert", "emergency_assistance"}
  {
    var i := FirstUrgent(d.queue);
    var later := d.(clock := now);
    if i < |d.queue| {
      var ended := Ending(Taken(later, i), false, Preempted);
      StartedAppends(ended, d.queue[i], 0, refused);
      var after := Started(ended, d.queue[i], 0, refused);
      assert after.log[|ended.log| - 1] == ended.log[|ended.log| - 1];
    }
  }

  // ------------------------------------------------------- between the looks

  predicate AllOutside(steps: seq<Step>) {
    forall i :: 0 <= i < |steps| ==> FromOutside(steps[i])
  }

  predicate OutsideBetween(run: seq<Step>, j: int, k: int)
    requires 0 <= j < k <= |run|
  {
    forall i :: j < i < k ==> FromOutside(run[i])
  }

  predicate NoneCameBetween(run: seq<Step>, j: int, k: int, id: nat)
    requires 0 <= j < k <= |run|
  {
    forall i :: j < i < k ==> !(run[i].Voiced? && run[i].id == id)
  }

  /** The loop's own steps leave it looking only right after a first look. */
  lemma LooksAfresh(d: Desk, step: Step)
    requires Enabled(d, step) && !FromOutside(step) && Next(d, step).place.Looking?
    ensures Next(d, step).place.late == 0 && !step.LookAgain?
  {}

  lemma StillLooks(d: Desk, step: Step)
    requires Enabled(d, step) && FromOutside(step) && Next(d, step).place.Looking?
    ensures d.place.Looking? && Next(d, step).active == d.active
    ensures d.active.Some? ==>
              Next(d, step).place.late == d.place.late + One(step.Voiced? && step.id == d.active.value.reply.id)
  {}

  // What was so since step j up to k is so, with the step there, up to k + 1.
  lemma StretchesOn(run: seq<Step>, j: nat, k: nat, before: Desk, after: Desk)
    requires j < k < |run| && OutsideBetween(run, j, k) && FromOutside(run[k])
    requires before.active.Some? && after.active == before.active && before.place.Looking? && after.place.Looking?
    requires var id := before.active.value.reply.id;
             && (before.place.late == 0 <==> NoneCameBetween(run, j, k, id))
             && after.place.late == before.place.late + One(run[k].Voiced? && run[k].id == id)
    ensures OutsideBetween(run, j, k + 1)
    ensures after.place.late == 0 <==> NoneCameBetween(run, j, k + 1, after.active.value.reply.id)
  {}

  /** Where the first look was: the loop has not moved since, and the count is
      zero exactly when no sentence of the reply came since. */
  lemma {:induction false} FirstLookWas(run: seq<Step>, k: nat) returns (j: nat)
    requires Legal(IDLE, run) && k <= |run| && Legal(IDLE, run[..k])
    requires After(IDLE, run[..k]).place.Looking? && After(IDLE, run[..k]).active.Some?
    ensures j < k && (run[j].Pass? || run[j].TakeNext?) && OutsideBetween(run, j, k)
    ensures var d := After(IDLE, run[..k]);
            d.place.late == 0 <==> NoneCameBetween(run, j, k, d.active.value.reply.id)
    decreases k
  {
    assert run[..0] == [];
    RunStep(IDLE, run, k - 1);
    var before, step := After(IDLE, run[..k - 1]), run[k - 1];
    if FromOutside(step) {
      StillLooks(before, step);
      j := FirstLookWas(run, k - 1);
      StretchesOn(run, j, k - 1, before, Next(before, step));
    } else {
      LooksAfresh(before, step);
      j := k - 1;
    }
  }

  /** Which step of a run noted event n. */
  lemma {:induction false} NotedBy(run: seq<Step>, n: nat, upTo: nat) returns (k: nat)
    requires Legal(IDLE, run) && upTo <= |run| && Legal(IDLE, run[..upTo]) && n < |After(IDLE, run[..upTo]).log|
    ensures k < upTo && Legal(IDLE, run[..k]) && Enabled(After(IDLE, run[..k]), run[k])
    ensures |After(IDLE, run[..k]).log| <= n < |Next(After(IDLE, run[..k]), run[k]).log|
    ensures Legal(IDLE, run[..k + 1]) && After(IDLE, run[..k + 1]) == Next(After(IDLE, run[..k]), run[k])
    decreases upTo
  {
    assert run[..0] == [];
    RunStep(IDLE, run, upTo - 1);
    if n < |After(IDLE, run[..upTo - 1]).log| {
      k := NotedBy(run, n, upTo - 1);
    } else {
      k := upTo - 1;
    }
  }

  predicate Delivery(e: Event) {
    e.Settled? && e.ok
  }

  lemma FirstLookDeliversNothing(d: Desk, tries: nat, refused: set<nat>)
    requires d.active.Some?
    ensures var log := FirstLook(d, tries, refused).log;
            d.log <= log && forall m :: |d.log| <= m < |log| ==> !Delivery(log[m])
  {}

  /** Starting a reply reports only that reply as delivered, and only when it is not to be spoken. */
  lemma StartedDeliversUnspoken(d: Desk, r: Reply, tries: nat, refused: set<nat>)
    ensures var log := Started(d, r, tries, refused).log;
            d.log <= log && forall m :: |d.log| <= m < |log| && Delivery(log[m]) ==> log[m].id == r.id && !r.speak
  {
    FirstLookDeliversNothing(d.(active := Some(Active(r, d.clock, 0, 0))), tries, refused);
  }

  lemma PreemptingDeliversNothing(d: Desk, i: nat)
    requires d.active.Some? && i < |d.queue|
    ensures var log := Ending(Taken(d, i), false, Preempted).log;
            d.log <= log && forall m :: |d.log| <= m < |log| ==> !Delivery(log[m])
  {}

  lemma PassDeliversUnspoken(d: Desk, refused: set<nat>, m: nat)
    requires Inv(d, None) && d.place.Resting?
    requires |d.log| <= m < |Begun(d, refused).log| && Delivery(Begun(d, refused).log[m])
    ensures Begun(d, refused).log[m].id < |d.arrived| && !d.arrived[Begun(d, refused).log[m].id].speak
  {
    var i := FirstUrgent(d.queue);
    if d.active.Some? && i < |d.queue| {
      PreemptingDeliversNothing(d, i);
      StartedDeliversUnspoken(Ending(Taken(d, i), false, Preempted), d.queue[i], 0, refused);
    } else if d.active.Some? {
      FirstLookDeliversNothing(d, MAX_IMMEDIATE_REPLIES, refused);
    }
  }

  lemma TakingDeliversUnspoken(d: Desk, m: nat)
    requires Inv(d, None) && d.place.Taking?
    requires |d.log| <= m < |NextTaken(d).log| && Delivery(NextTaken(d).log[m])
    ensures NextTaken(d).log[m].id < |d.arrived| && !d.arrived[NextTaken(d).log[m].id].speak
  {
    var r := d.queue[0];
    StartedDeliversUnspoken(Taken(d, 0).(place := Resting), r, d.place.tries - 1, d.place.refused);
    assert NextTaken(d) == Started(Taken(d, 0).(place := Resting), r, d.place.tries - 1, d.place.refused);
    assert NextTaken(d).log[m].id == r.id && r == d.arrived[r.id];
  }

  lemma OutsideNotesNothing(d: Desk, step: Step)
    requires Enabled(d, step) && FromOutside(step)
    ensures Next(d, step).log == d.log
  {}

  lemma LookDelivers(d: Desk, n: nat)
    requires d.active.Some? && d.place.Looking?
    requires |d.log| <= n < |SecondLook(d).log| && Delivery(SecondLook(d).log[n])
    ensures SecondLook(d).log[n].id == d.active.value.reply.id && SecondLook(d).log[n].late == d.place.late
  {}

  /** Only a second look reports a spoken reply as delivered, and it is the one on the air. */
  lemma DeliveredAtALook(d: Desk, step: Step, n: nat)
    requires Inv(d, None) && Enabled(d, step)
    requires |d.log| <= n < |Next(d, step).log| && Delivery(Next(d, step).log[n])
    requires Next(d, step).log[n].id < |d.arrived| && d.arrived[Next(d, step).log[n].id].speak
    ensures step.LookAgain? && d.place.Looking? && d.active.Some?
    ensures Next(d, step).log[n].id == d.active.value.reply.id && Next(d, step).log[n].late == d.place.late
  {
    if FromOutside(step) {
      OutsideNotesNothing(d, step);
    } else if step.Pass? {
      LaterKeeps(d, step.now);
      PassDeliversUnspoken(d.(clock := step.now), step.refused, n);
    } else if step.TakeNext? {
      TakingDeliversUnspoken(d, n);
    } else {
      LookDelivers(d, n);
    }
  }

  /** A spoken reply reported as delivered was played whole exactly when no
      sentence of it came between the two looks that settled it. */
  lemma DeliveredWholeUnlessOneCameBetween(run: seq<Step>, n: nat) returns (j: nat, k: nat)
    requires Legal(IDLE, run) && n < |After(IDLE, run).log|
    requires var d := After(IDLE, run);
             d.log[n].Settled? && d.log[n].ok && d.log[n].id < |d.arrived| && d.arrived[d.log[n].id].speak
    ensures j < k < |run| && (run[j].Pass? || run[j].TakeNext?) && run[k].LookAgain? && OutsideBetween(run, j, k)
    ensures Legal(IDLE, run[..k]) && |After(IDLE, run[..k]).log| <= n
    ensures Legal(IDLE, run[..k + 1]) && n < |After(IDLE, run[..k + 1]).log|
    ensures var d := After(IDLE, run);
            var e := d.log[n];
            Plays(d.log, e.id) == FirstNumbers(Total(d.arrived[e.id].text)) <==> NoneCameBetween(run, j, k, e.id)
  {
    var d := After(IDLE, run);
    assert run[..|run|] == run;
    k := NotedBy(run, n, |run|);
    var before := After(IDLE, run[..k]);
    RunAppends(run, k);
    RunAppends(run, k + 1);
    RunKeepsPrefix(run, k);
    StepAppends(before, run[k]);
    NotedEvent(run, n, k);
    DeliveredAtALook(before, run[k], n);
    j := FirstLookWas(run, k);
    DeliveredMeansHeard(run, n);
  }

  lemma RunKeepsPrefix(run: seq<Step>, k: nat)
    requires Legal(IDLE, run) && k <= |run| && Legal(IDLE, run[..k])
    ensures Inv(After(IDLE, run[..k]), None)
  {
    RunKeeps(run[..k]);
  }

  lemma NotedEvent(run: seq<Step>, n: nat, k: nat)
    requires Legal(IDLE, run) && k < |run| && Legal(IDLE, run[..k]) && Enabled(After(IDLE, run[..k]), run[k])
    requires Legal(IDLE, run[..k + 1]) && After(IDLE, run[..k + 1]) == Next(After(IDLE, run[..k]), run[k])
    requires |After(IDLE, run[..k]).log| <= n < |After(IDLE, run[..k + 1]).log|
    ensures n < |After(IDLE, run).log| && After(IDLE, run).log[n] == After(IDLE, run[..k + 1]).log[n]
    ensures After(IDLE, run).log[n].id < |After(IDLE, run[..k]).arrived|
    ensures After(IDLE, run[..k]).arrived <= After(IDLE, run).arrived
  {
    RunAppends(run, k + 1);
    RunAppends(run, k);
    RunKeepsPrefix(run, k + 1);
    OnlyArrivalsArrive(After(IDLE, run[..k]), run[k], n);
  }

  lemma OnlyArrivalsArrive(d: Desk, step: Step, n: nat)
    requires Enabled(d, step) && |d.log| <= n < |Next(d, step).log|
    ensures Next(d, step).arrived == d.arrived
  {
    if FromOutside(step) {
      OutsideNotesNothing(d, step);
    } else {
      LoopLeavesSpeeches(d, step);
    }
  }

  // ------------------------------------------------------ two runs that show it

  predicate TwoSentences(text: string) {
    text != "" && Total(text) == 2
  }

  /** One reply whose first sentence of a second has just gone on the air. */
  function Sounding(text: string, category: string): Desk {
    var r := Reply(0, category, text, true, 1, true);
    Desk([], Some(Active(r, 0, 1, 1120)), map[0 := Speech([1000], false, false)], 0, Resting, [r], {},
         [Played(0, 0, 0, 1120)])
  }

  function SoundingRun(text: string, category: string): seq<Step> {
    [Arrive(category, text, true, 1, Some(UNHEARD)), Voiced(0, 1000), Pass(0, {}), TakeNext]
  }

  lemma SoundingIsReached(text: string, category: string)
    requires TwoSentences(text)
    ensures Legal(IDLE, SoundingRun(text, category))
            && After(IDLE, SoundingRun(text, category)) == Sounding(text, category)
  {
    var run := SoundingRun(text, category);
    var r := Reply(0, category, text, true, 1, true);
    var arrived := IDLE.(queue := [r], arrived := [r], speeches := map[0 := UNHEARD]);
    var voiced := arrived.(speeches := map[0 := Speech([1000], false, false)]);
    var taking := voiced.(place := Taking(MAX_IMMEDIATE_REPLIES, {}));
    assert Next(IDLE, run[0]) == arrived;
    assert UNHEARD.durations + [1000] == [1000];
    assert Next(arrived, run[1]) == voiced;
    assert Next(voiced, run[2]) == taking;
    assert Without([r], 0) == [];
    assert Next(taking, run[3]) == Sounding(text, category);
    FourSteps(IDLE, arrived, voiced, taking, Sounding(text, category), run);
  }

  lemma FourSteps(a: Desk, b: Desk, c: Desk, d: Desk, e: Desk, run: seq<Step>)
    requires |run| == 4
    requires Enabled(a, run[0]) && Next(a, run[0]) == b && Enabled(b, run[1]) && Next(b, run[1]) == c
    requires Enabled(c, run[2]) && Next(c, run[2]) == d && Enabled(d, run[3]) && Next(d, run[3]) == e
    ensures Legal(a, run) && After(a, run) == e
  {
    assert run[1..][1..] == run[2..] && run[2..][1..] == run[3..] && run[3..][1..] == [];
    assert Legal(d, run[3..]) && After(d, run[3..]) == e;
    assert Legal(c, run[2..]) && After(c, run[2..]) == e;
    assert Legal(b, run[1..]) && After(b, run[1..]) == e;
  }

  /** Between the two looks at the reply its second sentence comes, and the last. */
  function SplitLooks(): seq<Step> {
    [Pass(1120, {}), Voiced(0, 1000), Complete(0, false), LookAgain]
  }

  /** The reply as the second look finds it. */
  function Overtaken(text: string): Desk {
    Sounding(text, "").(clock := 1120, speeches := map[0 := Speech([1000, 1000], true, false)],
      place := Looking(MAX_IMMEDIATE_REPLIES, {}, 1))
  }

  function Underheard(text: string): Desk {
    var d := Overtaken(text);
    d.(active := None, place := Taking(MAX_IMMEDIATE_REPLIES, {}),
       log := d.log + [Settled(0, true, true, PlaybackElapsed, 1120, 1)])
  }

  lemma LooksAreSplit(text: string)
    requires TwoSentences(text)
    ensures Legal(Sounding(text, ""), SplitLooks()) && After(Sounding(text, ""), SplitLooks()) == Underheard(text)
  {
    var d := Sounding(text, "");
    var looking := d.(clock := 1120, place := Looking(MAX_IMMEDIATE_REPLIES, {}, 0));
    var grown := looking.(speeches := map[0 := Speech([1000, 1000], false, false)],
                          place := Looking(MAX_IMMEDIATE_REPLIES, {}, 1));
    assert [1000] + [1000] == [1000, 1000];
    assert Next(d, Pass(1120, {})) == looking;
    assert Next(looking, Voiced(0, 1000)) == grown;
    assert Next(grown, Complete(0, false)) == Overtaken(text);
    LastLookDelivers(text);
    FourSteps(d, looking, grown, Overtaken(text), Underheard(text), SplitLooks());
  }

  lemma LastLookDelivers(text: string)
    ensures Enabled(Overtaken(text), LookAgain) && Next(Overtaken(text), LookAgain) == Underheard(text)
  {}

  function PlayedOnce(): seq<Event> {
    [Played(0, 0, 0, 1120), Settled(0, true, true, PlaybackElapsed, 1120, 1)]
  }

  lemma PlayedOnceOnly()
    ensures Plays(PlayedOnce(), 0) == [0] && FirstNumbers(2) == [0, 1]
  {
    assert PlayedOnce() == [Played(0, 0, 0, 1120)] + [Settled(0, true, true, PlaybackElapsed, 1120, 1)];
    LogMore([Played(0, 0, 0, 1120)], Settled(0, true, true, PlaybackElapsed, 1120, 1), 0);
    assert [Played(0, 0, 0, 1120)] == [] + [Played(0, 0, 0, 1120)];
    LogMore([], Played(0, 0, 0, 1120), 0);
  }

  /** A reply of two sentences can be reported as delivered with its second never played. */
  lemma SplitLooksMissASentence() returns (run: seq<Step>)
    ensures Legal(IDLE, run)
    ensures var d := After(IDLE, run);
            d.arrived == [Reply(0, "", TWO_SENTENCES, true, 1, true)] && Total(TWO_SENTENCES) == 2
            && d.log == PlayedOnce() && Plays(d.log, 0) == [0] != FirstNumbers(2)
  {
    var text := TWO_SENTENCES;
    SaidInTwo(text);
    SoundingIsReached(text, "");
    LooksAreSplit(text);
    RunParts(IDLE, SoundingRun(text, ""), SplitLooks());
    PlayedOnceOnly();
    run := SoundingRun(text, "") + SplitLooks();
  }

  /** An urgent reply is on the air, and another comes. */
  function AnotherUrgent(text: string): seq<Step> {
    [Arrive("emergency_assistance", text, true, 2, Some(UNHEARD)), Pass(10, {})]
  }

  lemma UrgentGivesWay(text: string)
    requires TwoSentences(text)
    ensures var d := Sounding(text, "safety_alert");
            Legal(d, AnotherUrgent(text)) && After(d, AnotherUrgent(text)).log
            == [Played(0, 0, 0, 1120), Silenced(0, 10), Settled(0, true, false, Preempted, 10, 0)]
  {
    var d, steps := Sounding(text, "safety_alert"), AnotherUrgent(text);
    var waiting := Next(d, steps[0]);
    AnotherWaits(d, steps[0], text);
    PassCutsOff(waiting, Reply(1, "emergency_assistance", text, true, 2, true));
    assert steps[1..] == [steps[1]] && steps[1..][1..] == [];
    assert Legal(waiting, steps[1..]) && After(waiting, steps[1..]) == Next(waiting, steps[1]);
  }

  lemma AnotherWaits(d: Desk, step: Step, text: string)
    requires TwoSentences(text) && d == Sounding(text, "safety_alert") && step == AnotherUrgent(text)[0]
    ensures Enabled(d, step)
    ensures var waiting := Next(d, step);
            && waiting.queue == [Reply(1, "emergency_assistance", text, true, 2, true)] && waiting.active == d.active
            && waiting.log == d.log && waiting.place == Resting && waiting.clock == 0
            && 1 in waiting.speeches && waiting.speeches[1] == UNHEARD
  {}

  lemma PassCutsOff(d: Desk, r: Reply)
    requires d.queue == [r] && r.id == 1 && Urgent(r) && r.text != "" && r.speak && r.voiced
    requires d.place == Resting && d.clock == 0 && 1 in d.speeches && d.speeches[1] == UNHEARD
    requires d.active.Some? && d.log == [Played(0, 0, 0, 1120)]
    requires var a := d.active.value;
             a.reply.id == 0 && a.reply.generation == 1 && a.nextSentence == 1 && a.endsAt == 1120
    ensures Enabled(d, Pass(10, {}))
    ensures Next(d, Pass(10, {})).log
            == [Played(0, 0, 0, 1120), Silenced(0, 10), Settled(0, true, false, Preempted, 10, 0)]
  {
    var ended := Ending(Taken(d.(clock := 10), 0), false, Preempted);
    assert Next(d, Pass(10, {})) == Started(ended, r, 0, {});
    assert ended.log == d.log + [Silenced(0, 10)] + [Settled(0, true, false, Preempted, 10, 0)];
    assert SpeechOf(ended, 1) == UNHEARD;
  }

  /** An urgent reply on the air is cut off by another one. */
  lemma UrgentCutsOffUrgent() returns (run: seq<Step>)
    ensures Legal(IDLE, run) && |After(IDLE, run).arrived| > 0 && Urgent(After(IDLE, run).arrived[0])
    ensures After(IDLE, run).log == [Played(0, 0, 0, 1120), Silenced(0, 10), Settled(0, true, false, Preempted, 10, 0)]
  {
    var text := TWO_SENTENCES;
    SaidInTwo(text);
    SoundingIsReached(text, "safety_alert");
    UrgentGivesWay(text);
    run := SoundingRun(text, "safety_alert") + AnotherUrgent(text);
    RunParts(IDLE, SoundingRun(text, "safety_alert"), AnotherUrgent(text));
    RunAppends(run, 4);
    assert run[..4] == SoundingRun(text, "safety_alert");
    assert After(IDLE, run[..4]).arrived[0].category == "safety_alert";
  }
}
