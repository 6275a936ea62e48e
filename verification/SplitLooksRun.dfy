// A run of receiver, voices and flight loop in which a reply of two sentences is
// reported as delivered and its second sentence is never played.
module SplitLooksRun {
  import opened ByteText
  import opened ReplyArbiter
  import opened ArbiterRuns
  import opened ArbiterLooks
  import opened SampleReply
  import opened SpokenReplies
  import Synthesis = SynthesisSteps
  import SentenceCutting
  import RadioText

  /** Every sentence lasts a second. */
  const SECOND: Lengths := (job: nat, sentence: nat) => 1000

  function TheJob(text: string): Synthesis.Job {
    Synthesis.Job(RadioText.RadioText(text), 0, false, 0)
  }

  /** The voices with the one job, `said` of its sentences voiced. */
  function VoicesAt(text: string, jobs: seq<Synthesis.Job>, worker: Synthesis.Worker, said: nat,
                    over: bool): Synthesis.Queue
    requires said <= |SentenceCutting.Sentences(RadioText.RadioText(text))|
  {
    Synthesis.Queue(true, jobs, false, worker, false,
                    [Synthesis.Speech(Synthesis.AllSpoken(TheJob(text))[..said], over, false)], [TheJob(text)],
                    [if over then 1 else 0])
  }

  function SayingAt(text: string, said: nat): Synthesis.Queue
    requires said <= |SentenceCutting.Sentences(RadioText.RadioText(text))|
  {
    VoicesAt(text, [], Synthesis.Saying(TheJob(text), said, false), said, false)
  }

  lemma SubmitGoes(text: string)
    ensures Synthesis.Next(Synthesis.New(true), Synthesis.Submit(RadioText.RadioText(text), 0, false))
            == VoicesAt(text, [TheJob(text)], Synthesis.Waiting, 0, false)
  {
    assert Synthesis.AllSpoken(TheJob(text))[..0] == [];
    assert [] + [TheJob(text)] == [TheJob(text)];
    assert [] + [Synthesis.SILENCE] == [Synthesis.SILENCE];
  }

  lemma TakeGoes(text: string)
    ensures var q := VoicesAt(text, [TheJob(text)], Synthesis.Waiting, 0, false);
            Synthesis.AllKnown(q) && Synthesis.Enabled(q, Synthesis.Take)
              && Synthesis.Next(q, Synthesis.Take) == SayingAt(text, 0)
  {
    assert [TheJob(text)][1..] == [];
  }

  lemma SayGoes(text: string, said: nat)
    requires said < |SentenceCutting.Sentences(RadioText.RadioText(text))|
    ensures var q := SayingAt(text, said);
            Synthesis.AllKnown(q) && Synthesis.Enabled(q, Synthesis.Say(true))
            && Synthesis.Next(q, Synthesis.Say(true)) == SayingAt(text, said + 1)
  {
    var all := Synthesis.AllSpoken(TheJob(text));
    assert all[..said + 1] == all[..said] + [all[said]];
  }

  lemma FinishGoes(text: string)
    ensures var n := |SentenceCutting.Sentences(RadioText.RadioText(text))|;
            var q := SayingAt(text, n);
            Synthesis.AllKnown(q) && Synthesis.Enabled(q, Synthesis.Finish)
            && Synthesis.Next(q, Synthesis.Finish) == VoicesAt(text, [], Synthesis.Waiting, n, true)
  {}

  /** What the arbiter sees of the one Speech. */
  lemma SpeechIsSeen(text: string, said: nat, over: bool, durations: seq<nat>)
    requires said <= |SentenceCutting.Sentences(RadioText.RadioText(text))|
    requires |durations| == said && forall k :: 0 <= k < said ==> durations[k] == 1000
    ensures SpeechesSeen([Synthesis.Speech(Synthesis.AllSpoken(TheJob(text))[..said], over, false)], map[0 := 0],
                         SECOND)
            == map[0 := Speech(durations, over, false)]
  {
    var s := Synthesis.Speech(Synthesis.AllSpoken(TheJob(text))[..said], over, false);
    assert Heard(s, 0, SECOND).durations == durations;
  }

  // ------------------------------------------------------------- the ten moves

  /** The cockpit with the reply queued and its Speech linked to it. */
  function CockpitAt(desk: Desk, voices: Synthesis.Queue): Cockpit {
    Cockpit(desk, voices, map[0 := 0], [0], None)
  }

  /** These moves end with the reply reported as delivered and half of it played. */
  predicate Leads(c: Cockpit, moves: seq<Move>, text: string) {
    CanRun(c, moves, SECOND) && AfterMoves(c, moves, SECOND).desk == Underheard(text)
  }

  lemma MoveThen(c: Cockpit, m: Move, next: Cockpit, rest: seq<Move>, text: string)
    requires Synthesis.AllKnown(c.voices) && CanMove(c, m) && Moved(c, m, SECOND) == next && Leads(next, rest, text)
    ensures Leads(c, [m] + rest, text)
  {
    assert ([m] + rest)[1..] == rest;
  }

  /** The voices go on, and the arbiter sees the durations that are there then. */
  lemma VoiceThen(text: string, desk: Desk, part: Synthesis.Step, was: Synthesis.Queue, now: Synthesis.Queue,
                  said: nat, over: bool, durations: seq<nat>, seen: Desk, rest: seq<Move>)
    requires said <= |SentenceCutting.Sentences(RadioText.RadioText(text))|
    requires Synthesis.AllKnown(was) && Synthesis.Enabled(was, part) && !part.Submit?
             && Synthesis.Next(was, part) == now
    requires now.speeches == [Synthesis.Speech(Synthesis.AllSpoken(TheJob(text))[..said], over, false)]
    requires |durations| == said && forall k :: 0 <= k < said ==> durations[k] == 1000
    requires var d := desk.(speeches := map[0 := Speech(durations, over, false)]); seen == d.(place := Counted(d))
    requires Leads(CockpitAt(seen, now), rest, text)
    ensures Leads(CockpitAt(desk, was), [Voice(part)] + rest, text)
  {
    SpeechIsSeen(text, said, over, durations);
    MoveThen(CockpitAt(desk, was), Voice(part), CockpitAt(seen, now), rest, text);
  }

  lemma LoopThen(voices: Synthesis.Queue, desk: Desk, step: Step, next: Desk, rest: seq<Move>, text: string)
    requires Synthesis.AllKnown(voices) && !FromOutside(step) && Enabled(desk, step) && Next(desk, step) == next
    requires Leads(CockpitAt(next, voices), rest, text)
    ensures Leads(CockpitAt(desk, voices), [Loop(step)] + rest, text)
  {
    MoveThen(CockpitAt(desk, voices), Loop(step), CockpitAt(next, voices), rest, text);
  }

  /** One more sentence is voiced. */
  lemma SayThen(text: string, desk: Desk, said: nat, durations: seq<nat>, seen: Desk, rest: seq<Move>)
    requires said < |SentenceCutting.Sentences(RadioText.RadioText(text))|
    requires |durations| == said + 1 && forall k :: 0 <= k <= said ==> durations[k] == 1000
    requires var d := desk.(speeches := map[0 := Speech(durations, false, false)]); seen == d.(place := Counted(d))
    requires Leads(CockpitAt(seen, SayingAt(text, said + 1)), rest, text)
    ensures Leads(CockpitAt(desk, SayingAt(text, said)), [Voice(Synthesis.Say(true))] + rest, text)
  {
    SayGoes(text, said);
    VoiceThen(text, desk, Synthesis.Say(true), SayingAt(text, said), SayingAt(text, said + 1), said + 1, false,
              durations, seen, rest);
  }

  /** Between its looks, with the second sentence there already. */
  function AlmostOvertaken(text: string): Desk {
    Sounding(text, "").(clock := 1120, speeches := map[0 := Speech([1000, 1000], false, false)],
      place := Looking(MAX_IMMEDIATE_REPLIES, {}, 1))
  }

  lemma EndMovesGo(text: string) returns (moves: seq<Move>)
    requires TwoSentences(text)
    ensures Leads(CockpitAt(AlmostOvertaken(text), SayingAt(text, 2)), moves, text)
  {
    var whole := VoicesAt(text, [], Synthesis.Waiting, 2, true);
    FinishGoes(text);
    LookAgainGoes(text);
    LoopThen(whole, Overtaken(text), LookAgain, Underheard(text), [], text);
    VoiceThen(text, AlmostOvertaken(text), Synthesis.Finish, SayingAt(text, 2), whole, 2, true, [1000, 1000],
              Overtaken(text), [Loop(LookAgain)] + []);
    moves := [Voice(Synthesis.Finish)] + ([Loop(LookAgain)] + []);
  }

  lemma LookAgainGoes(text: string)
    ensures Enabled(Overtaken(text), LookAgain) && Next(Overtaken(text), LookAgain) == Underheard(text)
  {}

  lemma LastMovesGo(text: string) returns (moves: seq<Move>)
    requires TwoSentences(text)
    ensures Leads(CockpitAt(Sounding(text, ""), SayingAt(text, 1)), moves, text)
  {
    var looking := Sounding(text, "").(clock := 1120, place := Looking(MAX_IMMEDIATE_REPLIES, {}, 0));
    var end := EndMovesGo(text);
    SayThen(text, looking, 1, [1000, 1000], AlmostOvertaken(text), end);
    var more := [Voice(Synthesis.Say(true))] + end;
    LoopThen(SayingAt(text, 1), Sounding(text, ""), Pass(1120, {}), looking, more, text);
    moves := [Loop(Pass(1120, {}))] + more;
  }

  /** The reply is queued, with nothing of it voiced. */
  function Waiting(text: string): Desk {
    var r := Reply(0, "", text, true, 1, true);
    IDLE.(queue := [r], arrived := [r], speeches := map[0 := UNHEARD])
  }

  /** The first sentence is there, and the loop has not looked yet. */
  function Ready(text: string): Desk {
    Waiting(text).(speeches := map[0 := Speech([1000], false, false)])
  }

  lemma MiddleMovesGo(text: string) returns (moves: seq<Move>)
    requires TwoSentences(text)
    ensures Leads(CockpitAt(Ready(text), SayingAt(text, 1)), moves, text)
  {
    var taking := Ready(text).(place := Taking(MAX_IMMEDIATE_REPLIES, {}));
    var last := LastMovesGo(text);
    TakeNextGoes(text, taking);
    LoopThen(SayingAt(text, 1), taking, TakeNext, Sounding(text, ""), last, text);
    var more := [Loop(TakeNext)] + last;
    LoopThen(SayingAt(text, 1), Ready(text), Pass(0, {}), taking, more, text);
    moves := [Loop(Pass(0, {}))] + more;
  }

  lemma TakeNextGoes(text: string, taking: Desk)
    requires text != ""
    requires taking == Ready(text).(place := Taking(MAX_IMMEDIATE_REPLIES, {}))
    ensures Enabled(taking, TakeNext) && Next(taking, TakeNext) == Sounding(text, "")
  {
    assert Without(taking.queue, 0) == [];
  }

  lemma FirstMovesGo(text: string) returns (moves: seq<Move>)
    requires TwoSentences(text)
    ensures Leads(CockpitAt(Waiting(text), VoicesAt(text, [TheJob(text)], Synthesis.Waiting, 0, false)), moves, text)
  {
    var middle := MiddleMovesGo(text);
    SayThen(text, Waiting(text), 0, [1000], Ready(text), middle);
    var more := [Voice(Synthesis.Say(true))] + middle;
    TakeThen(text, more);
    moves := [Voice(Synthesis.Take)] + more;
  }

  lemma TakeThen(text: string, rest: seq<Move>)
    requires Leads(CockpitAt(Waiting(text), SayingAt(text, 0)), rest, text)
    ensures Leads(CockpitAt(Waiting(text), VoicesAt(text, [TheJob(text)], Synthesis.Waiting, 0, false)),
                  [Voice(Synthesis.Take)] + rest, text)
  {
    TakeGoes(text);
    VoiceThen(text, Waiting(text), Synthesis.Take, VoicesAt(text, [TheJob(text)], Synthesis.Waiting, 0, false),
              SayingAt(text, 0), 0, false, [], Waiting(text), rest);
  }

  lemma ReceiveGoes(text: string)
    requires TwoSentences(text)
    ensures var m := Receive("", text, true, 1, true, 0);
            CanMove(Start(true), m) && Moved(Start(true), m, SECOND)
            == Cockpit(IDLE, VoicesAt(text, [TheJob(text)], Synthesis.Waiting, 0, false), map[], [],
                       Some(Received("", text, true, 1, 0, Some(0))))
  {
    var m := Receive("", text, true, 1, true, 0);
    var voices := VoicesAt(text, [TheJob(text)], Synthesis.Waiting, 0, false);
    SubmitGoes(text);
    assert SubmitOf(m) == Synthesis.Submit(RadioText.RadioText(text), 0, false);
    assert SpeechesSeen(voices.speeches, map[], SECOND) == map[];
    assert Seen(IDLE, voices.speeches, map[], SECOND) == IDLE;
  }

  lemma PushGoes(text: string)
    requires TwoSentences(text)
    ensures var voices := VoicesAt(text, [TheJob(text)], Synthesis.Waiting, 0, false);
            Moved(Cockpit(IDLE, voices, map[], [], Some(Received("", text, true, 1, 0, Some(0)))), Push, SECOND)
            == CockpitAt(Waiting(text), voices)
  {
    var voices := VoicesAt(text, [TheJob(text)], Synthesis.Waiting, 0, false);
    assert Synthesis.AllSpoken(TheJob(text))[..0] == [];
    assert Heard(voices.speeches[0], 0, SECOND) == UNHEARD;
  }

  lemma AllMovesGo(text: string) returns (moves: seq<Move>)
    requires TwoSentences(text)
    ensures Leads(Start(true), moves, text)
  {
    var voices := VoicesAt(text, [TheJob(text)], Synthesis.Waiting, 0, false);
    var received := Cockpit(IDLE, voices, map[], [], Some(Received("", text, true, 1, 0, Some(0))));
    var first := FirstMovesGo(text);
    PushGoes(text);
    MoveThen(received, Push, CockpitAt(Waiting(text), voices), first, text);
    var more := [Push] + first;
    ReceiveGoes(text);
    MoveThen(Start(true), Receive("", text, true, 1, true, 0), received, more, text);
    moves := [Receive("", text, true, 1, true, 0)] + more;
  }

  /** With the voices themselves in the run, too, a reply of two sentences can be
      reported as delivered with its second never played. */
  lemma VoicesOvertakeTheLooks() returns (moves: seq<Move>)
    ensures CanRun(Start(true), moves, SECOND)
    ensures var d := AfterMoves(Start(true), moves, SECOND).desk;
            d.arrived == [Reply(0, "", TWO_SENTENCES, true, 1, true)] && Total(TWO_SENTENCES) == 2
            && d.log == PlayedOnce() && Plays(d.log, 0) == [0] != FirstNumbers(2)
  {
    var text := TWO_SENTENCES;
    SaidInTwo(text);
    moves := AllMovesGo(text);
    PlayedOnceOnly();
  }
}
