// What the controller publishes, told from the pilot's commands alone: which
// turns are opened, how long each was, and whether it was long enough to send.
module PttRecordings {
  import opened PushToTalk
  import opened PttTurns

  datatype Ending = Ending(at: nat, audio: seq<int>, reason: EndReason)

  /** A diary of the commands: whether a fault is on, the turn being recorded (0
      for none), and when each turn began and ended. */
  datatype Diary = Diary(fault: bool, open: nat, began: map<nat, nat>, ended: map<nat, Ending>)

  const BLANK := Diary(false, 0, map[], map[])

  /** The recorder hands over the turn, or fails. */
  function Closed(d: Diary, at: nat, recorded: Recorded, reason: EndReason): Diary {
    if recorded.RecorderFailed? then d.(fault := true, open := 0)
    else d.(open := 0, ended := d.ended[d.open := Ending(at, recorded.audio, reason)])
  }

  predicate TimeIsUp(d: Diary, config: Config, now: nat) {
    d.open in d.began && config.maxTransmissionMs > 0 && now >= d.began[d.open] + config.maxTransmissionMs
  }

  function Entered(d: Diary, config: Config, command: Command): Diary {
    match command
    case Begin(now, started) =>
      if d.fault || d.open > 0 then d
      else if !started then d.(fault := true)
      else d.(open := |d.began| + 1, began := d.began[|d.began| + 1 := now])
    case End(now, recorded) => if d.open == 0 then d else Closed(d, now, recorded, CommandReleased)
    case Tick(now, recorded) =>
      if d.open == 0 || !TimeIsUp(d, config, now) then d else Closed(d, now, recorded, MaxDurationReached)
    case ResetFault => d.(fault := false)
  }

  function DiaryFrom(d: Diary, config: Config, run: seq<Action>): Diary
    decreases |run|
  {
    if run == [] then d
    else DiaryFrom(if run[0].Pilot? then Entered(d, config, run[0].command) else d, config, run[1..])
  }

  /** The event that a turn of this beginning and ending deserves. */
  function EndOf(config: Config, turn: nat, began: nat, ending: Ending): PttEvent {
    var duration := if ending.at <= began then 0 else ending.at - began;
    PttEvent(if duration >= config.minTransmissionMs then TransmissionReady else Cancelled,
             turn, ending.at, duration, ending.reason, ReleaseWithoutBegin, ending.audio)
  }

  predicate IsEnd(e: PttEvent) {
    e.kind.TransmissionReady? || e.kind.Cancelled?
  }

  ghost predicate Numbered(d: Diary) {
    && (forall t :: t in d.began <==> 1 <= t <= |d.began|)
    && (forall t :: t in d.ended ==> t in d.began)
    && (d.open > 0 ==> d.open == |d.began| && !d.fault && d.open !in d.ended)
  }

  /** The controller is where the diary says. */
  predicate StateFits(c: Controller, d: Diary) {
    && (c.state.Faulted? <==> d.fault)
    && (c.state.Recording? <==> d.open > 0)
    && (c.state.Recording? ==> c.activeSequence == d.open && d.open in d.began && c.startedAtMs == d.began[d.open])
    && c.nextSequence == |d.began| + 1
  }

  /** Exactly the starts and the ends that the diary tells are published. */
  ghost predicate EventsFit(published: seq<Message>, config: Config, d: Diary) {
    && (forall e :: Event(e) in published && e.kind.Started? ==>
          e.sequence in d.began && e.timestampMs == d.began[e.sequence])
    && (forall e :: Event(e) in published && IsEnd(e) ==>
          e.sequence in d.ended && e.sequence in d.began
          && e == EndOf(config, e.sequence, d.began[e.sequence], d.ended[e.sequence]))
    && (forall t :: t in d.ended && t in d.began ==> Event(EndOf(config, t, d.began[t], d.ended[t])) in published)
  }

  ghost predicate Fits(sys: System, config: Config, d: Diary) {
    Numbered(d) && StateFits(sys.controller, d) && EventsFit(sys.published, config, d)
  }

  lemma CommandKeepsState(c: Controller, config: Config, d: Diary, command: Command)
    requires Numbered(d) && StateFits(c, d)
    ensures Numbered(Entered(d, config, command))
    ensures StateFits(Obey(c, config, command).next, Entered(d, config, command))
  {
    if command.Begin? && !d.fault && d.open == 0 && command.started {
      assert |d.began[|d.began| + 1 := command.now]| == |d.began| + 1;
    }
  }

  lemma {:induction false} Kept(sys: System, config: Config, run: seq<Action>, d: Diary)
    requires Fits(sys, config, d) && Legal(sys, config, run)
    ensures Fits(After(sys, config, run), config, DiaryFrom(d, config, run))
    decreases |run|
  {
    if run != [] {
      if run[0].Pilot? {
        CommandKeeps(sys, config, run[0].command, d);
        Kept(Act(sys, config, run[0]), config, run[1..], Entered(d, config, run[0].command));
      } else {
        Kept(Act(sys, config, run[0]), config, run[1..], d);
      }
    }
  }

  lemma CommandKeeps(sys: System, config: Config, command: Command, d: Diary)
    requires Fits(sys, config, d)
    ensures Fits(Act(sys, config, Pilot(command)), config, Entered(d, config, command))
  {
    CommandKeepsState(sys.controller, config, d, command);
    CommandKeepsEvents(sys.controller, sys.published, config, d, command);
  }

  predicate IsNews(e: PttEvent) {
    e.kind.Started? || IsEnd(e)
  }

  lemma NoNewsKeeps(published: seq<Message>, config: Config, d: Diary, e: PttEvent)
    requires EventsFit(published, config, d) && !IsNews(e)
    ensures EventsFit(published + [Event(e)], config, d)
  {}

  lemma StartKeeps(published: seq<Message>, config: Config, d: Diary, now: nat)
    requires Numbered(d) && EventsFit(published, config, d) && d.open == 0 && !d.fault
    ensures EventsFit(published + [Event(Plain(Started, |d.began| + 1, now))], config,
                      Entered(d, config, Begin(now, true)))
  {}

  lemma EndKeeps(published: seq<Message>, config: Config, d: Diary, now: nat, audio: seq<int>, reason: EndReason)
    requires Numbered(d) && EventsFit(published, config, d) && d.open > 0
    ensures var e := EndOf(config, d.open, d.began[d.open], Ending(now, audio, reason));
            EventsFit(published + [Event(e)], config, Closed(d, now, Recorded(audio), reason))
  {}

  lemma CommandKeepsEvents(c: Controller, published: seq<Message>, config: Config, d: Diary, command: Command)
    requires Numbered(d) && StateFits(c, d) && EventsFit(published, config, d)
    ensures EventsFit(published + Messages(Obey(c, config, command).published), config, Entered(d, config, command))
  {
    var events := Obey(c, config, command).published;
    if events == [] {
      assert published + Messages(events) == published;
    } else {
      assert Messages(events) == [Event(events[0])];
      if events[0].kind.Started? {
        StartKeeps(published, config, d, command.now);
      } else if IsEnd(events[0]) {
        EndKeeps(published, config, d, command.now, command.recorded.audio, events[0].endReason);
      } else {
        NoNewsKeeps(published, config, d, events[0]);
      }
    }
  }

  /** In every run: turns begin and end when the commands say, faults and time
      limits included; every turn that the recorder hands over is published once,
      as ready when it was long enough and as cancelled when not, with its own
      length, time, reason and sound. */
  lemma TurnsAreAsCommanded(config: Config, run: seq<Action>)
    requires Legal(START, config, run)
    ensures Fits(After(START, config, run), config, DiaryFrom(BLANK, config, run))
  {
    Kept(START, config, run, BLANK);
  }

  /** A command is ignored exactly when a fault is on, when it begins a turn during
      one, or when it ends a turn outside one; and the event says which. */
  lemma IgnoredForItsReason(config: Config, run: seq<Action>, command: Command)
    requires Legal(START, config, run)
    ensures var events, d := Obey(After(START, config, run).controller, config, command).published,
                             DiaryFrom(BLANK, config, run);
            if (command.Begin? || command.End?) && d.fault then
              |events| == 1 && events[0].kind.Ignored? && events[0].ignoreReason.WhileFaulted?
            else if command.Begin? && d.open > 0 then
              |events| == 1 && events[0].kind.Ignored? && events[0].ignoreReason.DuplicateBegin?
            else if command.End? && d.open == 0 then
              |events| == 1 && events[0].kind.Ignored? && events[0].ignoreReason.ReleaseWithoutBegin?
            else forall i :: 0 <= i < |events| ==> !events[i].kind.Ignored?
  {
    TurnsAreAsCommanded(config, run);
  }
}
