// What every run of the reply arbiter keeps, whatever arrives and whatever the
// synthesizer does between its steps.
module ArbiterRuns {
  import opened ByteText
  import opened ReplyArbiter

  // --------------------------------------------------------------- the log

  function Settlements(log: seq<Event>, id: nat): nat {
    if log == [] then 0
    else
      var e := log[|log| - 1];
      Settlements(log[..|log| - 1], id) + if e.Settled? && e.id == id then 1 else 0
  }

  /** The sentences of a reply that were put on the air, in order. */
  function Plays(log: seq<Event>, id: nat): seq<nat> {
    if log == [] then []
    else
      var e := log[|log| - 1];
      Plays(log[..|log| - 1], id) + if e.Played? && e.id == id then [e.sentence] else []
  }

  /** From when the air is free: the end of the last sentence, or when it was stopped. */
  function FreeAt(log: seq<Event>): nat {
    if log == [] then 0
    else match log[|log| - 1]
         case Played(_, _, _, until) => until
         case Silenced(_, at) => at
         case Settled(_, _, _, _, _, _) => FreeAt(log[..|log| - 1])
  }

  /** No sentence starts before the one before it has ended or been stopped. */
  predicate NeverOverlaps(log: seq<Event>) {
    if log == [] then true
    else
      var e := log[|log| - 1];
      NeverOverlaps(log[..|log| - 1]) && (e.Played? ==> FreeAt(log[..|log| - 1]) <= e.at)
  }

  function FirstNumbers(n: nat): (r: seq<nat>)
    ensures |r| == n && forall k :: 0 <= k < n ==> r[k] == k
  {
    seq(n, k => k)
  }

  lemma LogMore(log: seq<Event>, e: Event, id: nat)
    ensures Settlements(log + [e], id) == Settlements(log, id) + if e.Settled? && e.id == id then 1 else 0
    ensures Plays(log + [e], id) == Plays(log, id) + if e.Played? && e.id == id then [e.sentence] else []
    ensures e.Settled? ==> FreeAt(log + [e]) == FreeAt(log)
    ensures e.Silenced? ==> FreeAt(log + [e]) == e.at
    ensures e.Played? ==> FreeAt(log + [e]) == e.until
    ensures NeverOverlaps(log + [e]) <==> NeverOverlaps(log) && (e.Played? ==> FreeAt(log) <= e.at)
  {
    assert (log + [e])[..|log|] == log;
  }

  /** No event speaks of the reply. */
  predicate NoEvents(log: seq<Event>, id: nat) {
    forall k :: 0 <= k < |log| ==> log[k].id != id
  }

  lemma {:induction false} NoEventsCountNothing(log: seq<Event>, id: nat)
    requires NoEvents(log, id)
    ensures Settlements(log, id) == 0 && Plays(log, id) == []
  {
    if log != [] {
      NoEventsCountNothing(log[..|log| - 1], id);
    }
  }

  // -------------------------------------------------------------- invariants

  predicate IsWaiting(d: Desk, id: nat) {
    exists i :: 0 <= i < |d.queue| && d.queue[i].id == id
  }

  function One(b: bool): nat {
    if b then 1 else 0
  }

  /** A reply is in one place: waiting, dropped, on the air, settled, or in the loop's hand. */
  predicate InOnePlace(d: Desk, hand: Option<nat>, id: nat) {
    1 == One(IsWaiting(d, id)) + One(id in d.dropped) + One(IsOnAir(d, id)) + Settlements(d.log, id)
         + One(hand == Some(id))
  }

  /** What was played of a reply is its first sentences, each once, in order; and
      nothing is said of a reply before it is started. */
  predicate Tidy(d: Desk, hand: Option<nat>, id: nat) {
    && InOnePlace(d, hand, id)
    && Plays(d.log, id) == FirstNumbers(|Plays(d.log, id)|)
    && (IsWaiting(d, id) || id in d.dropped || hand == Some(id) ==> NoEvents(d.log, id))
  }

  predicate AllTidy(d: Desk, hand: Option<nat>) {
    forall id :: 0 <= id < |d.arrived| ==> Tidy(d, hand, id)
  }

  predicate Numbered(d: Desk) {
    && |d.queue| <= MAX_QUEUED_REPLIES
    && (forall i :: 0 <= i < |d.arrived| ==> d.arrived[i].id == i)
    && (forall i :: 0 <= i < |d.queue| ==> d.queue[i].id < |d.arrived| && d.queue[i] == d.arrived[d.queue[i].id])
    && (forall i, j :: 0 <= i < j < |d.queue| ==> d.queue[i].id < d.queue[j].id)
    && (forall id :: id in d.speeches ==> id < |d.arrived|)
    && (forall id :: id in d.dropped ==> id < |d.arrived|)
    && (forall k :: 0 <= k < |d.log| ==> d.log[k].id < |d.arrived|)
    && (d.active.Some? ==>
          d.active.value.reply.id < |d.arrived| && d.active.value.reply == d.arrived[d.active.value.reply.id])
  }

  predicate Speeches(d: Desk)
    requires Numbered(d)
  {
    && (forall id :: 0 <= id < |d.arrived| ==> (d.arrived[id].voiced <==> id in d.speeches))
    && (forall id :: id in d.speeches ==> SpeechFits(d.speeches[id], Total(d.arrived[id].text)))
    && (forall id :: 0 <= id < |d.arrived| && d.arrived[id].voiced ==> d.arrived[id].speak && d.arrived[id].text != "")
  }

  /** Nothing but plays is noted of the reply on the air, and they end when it says at the latest. */
  predicate PlaysOnly(d: Desk, a: Active) {
    forall k :: 0 <= k < |d.log| && d.log[k].id == a.reply.id ==> d.log[k].Played? && d.log[k].until <= a.endsAt
  }

  /** The reply on the air has played its first sentences, and the last of them ends when it says. */
  predicate OnAir(d: Desk)
    requires Numbered(d)
  {
    d.active.Some? ==>
      var a := d.active.value;
      && a.reply.voiced
      && a.nextSentence <= |SpeechOf(d, a.reply.id).durations|
      && Plays(d.log, a.reply.id) == FirstNumbers(a.nextSentence)
      && PlaysOnly(d, a)
      && (if a.nextSentence > 0 then FreeAt(d.log) == a.endsAt else FreeAt(d.log) <= d.clock && a.endsAt == 0)
  }

  predicate AirIsFree(d: Desk) {
    NeverOverlaps(d.log) && (d.active.None? ==> FreeAt(d.log) <= d.clock)
  }

  /** Between the looks, the sentences that came since the first one are counted. */
  predicate PlaceFits(d: Desk) {
    && (d.place.Taking? ==> d.active.None?)
    && (d.place.Looking? ==>
          && d.active.Some?
          && d.active.value.endsAt <= d.clock
          && |SpeechOf(d, d.active.value.reply.id).durations| == d.active.value.nextSentence + d.place.late)
  }

  /** What a settlement must say. A reply settled as delivered was never stopped
      and is settled no earlier than its last sentence ended, and what was not
      played of it came between the two looks. */
  predicate Fair(d: Desk, e: Event)
    requires e.Settled? && Numbered(d) && e.id < |d.arrived|
  {
    var r := d.arrived[e.id];
    && e.acked == (r.generation != 0)
    && (e.ok && !r.speak ==> r.text != "")
    && (e.ok && r.speak ==>
          && |Plays(d.log, e.id)| > 0
          && |Plays(d.log, e.id)| + e.late == Total(r.text)
          && (forall k :: 0 <= k < |d.log| && d.log[k].id == e.id ==> !d.log[k].Silenced?)
          && (forall k :: 0 <= k < |d.log| && d.log[k].id == e.id && d.log[k].Played? ==> d.log[k].until <= e.at))
  }

  predicate Truthful(d: Desk)
    requires Numbered(d)
  {
    forall k :: 0 <= k < |d.log| && d.log[k].Settled? ==> Fair(d, d.log[k])
  }

  predicate Inv(d: Desk, hand: Option<nat>) {
    && Numbered(d) && Speeches(d) && AllTidy(d, hand) && OnAir(d) && AirIsFree(d) && PlaceFits(d) && Truthful(d)
    && (hand.Some? ==> hand.value < |d.arrived|)
  }

  lemma SameWaiting(d: Desk, r: Desk, id: nat)
    requires r.queue == d.queue
    ensures IsWaiting(r, id) <==> IsWaiting(d, id)
  {}

  // A settlement that was fair stays so when nothing more is said of its reply.
  lemma FairStays(d: Desk, r: Desk, e: Event)
    requires Numbered(d) && Numbered(r) && e.Settled? && e.id < |d.arrived| && Fair(d, e)
    requires d.arrived <= r.arrived
    requires Plays(r.log, e.id) == Plays(d.log, e.id)
    requires forall k :: 0 <= k < |r.log| && r.log[k].id == e.id && !r.log[k].Settled? ==> r.log[k] in d.log
    ensures Fair(r, e)
  {
    assert r.arrived[e.id] == d.arrived[e.id];
    forall k | 0 <= k < |r.log| && r.log[k].id == e.id && !r.log[k].Settled?
      ensures !(Fair(d, e) && e.ok && d.arrived[e.id].speak)
              || (!r.log[k].Silenced? && (r.log[k].Played? ==> r.log[k].until <= e.at))
    {
      var m :| 0 <= m < |d.log| && d.log[m] == r.log[k];
    }
  }

  lemma SameLogIsTruthful(d: Desk, r: Desk)
    requires Numbered(d) && Truthful(d) && Numbered(r) && r.log == d.log && d.arrived <= r.arrived
    ensures Truthful(r)
  {
    forall k | 0 <= k < |r.log| && r.log[k].Settled?
      ensures Fair(r, r.log[k])
    {
      assert Fair(d, d.log[k]);
      assert r.arrived[d.log[k].id] == d.arrived[d.log[k].id];
    }
  }

  // ------------------------------------------------------------ noting one event

  /** One more event of a reply that is on the air or in hand: the settlements of others stay fair. */
  lemma OthersStayFair(d: Desk, r: Desk, e: Event, hand: Option<nat>)
    requires Inv(d, hand) && Numbered(r) && r.arrived == d.arrived && r.log == d.log + [e]
    requires IsOnAir(d, e.id) || hand == Some(e.id)
    ensures forall k :: 0 <= k < |d.log| && d.log[k].Settled? ==> d.log[k].id != e.id && Fair(r, d.log[k])
  {
    forall k | 0 <= k < |d.log| && d.log[k].Settled?
      ensures d.log[k].id != e.id && Fair(r, d.log[k])
    {
      SettledIsCounted(d.log, k);
      assert Tidy(d, hand, d.log[k].id);
      LogMore(d.log, e, d.log[k].id);
      FairStays(d, r, d.log[k]);
    }
  }

  lemma {:induction false} SettledIsCounted(log: seq<Event>, k: nat)
    requires k < |log| && log[k].Settled?
    ensures Settlements(log, log[k].id) > 0
  {
    if k < |log| - 1 {
      SettledIsCounted(log[..|log| - 1], k);
    }
  }

  // ------------------------------------------------------------ settling at once

  lemma SettledInHand(d: Desk, reply: Reply, ok: bool, basis: Basis, place: Place)
    requires Inv(d, Some(reply.id)) && d.active.None? && reply == d.arrived[reply.id] && !place.Looking?
    requires ok ==> !reply.speak && reply.text != ""
    ensures Inv(Acknowledged(d, reply, ok, basis).(place := place), None)
  {
    var r, e := Acknowledged(d, reply, ok, basis).(place := place), Settlement(d, reply, ok, basis);
    LogMore(d.log, e, reply.id);
    OthersStayFair(d, r, e, Some(reply.id));
    forall id | 0 <= id < |r.arrived|
      ensures Tidy(r, None, id)
    {
      LogMore(d.log, e, id);
      SameWaiting(d, r, id);
      assert Tidy(d, Some(reply.id), id);
    }
  }

  // ------------------------------------------------------------ taking off the air

  lemma HushedLog(d: Desk, hand: Option<nat>, id: nat)
    requires Inv(d, hand) && d.active.Some?
    ensures var r := Hushed(d, d.active.value);
            && NeverOverlaps(r.log) && FreeAt(r.log) <= d.clock
            && Plays(r.log, id) == Plays(d.log, id) && Settlements(r.log, id) == Settlements(d.log, id)
            && (id != d.active.value.reply.id && NoEvents(d.log, id) ==> NoEvents(r.log, id))
  {
    LogMore(d.log, Silenced(d.active.value.reply.id, d.clock), id);
  }

  lemma SilencedStaysFair(d: Desk, hand: Option<nat>)
    requires Inv(d, hand) && d.active.Some?
    ensures var r, a := Noted(d, Silenced(d.active.value.reply.id, d.clock)), d.active.value;
            && Numbered(r)
            && forall k :: 0 <= k < |r.log| && r.log[k].Settled? ==> r.log[k].id != a.reply.id && Fair(r, r.log[k])
  {
    var e := Silenced(d.active.value.reply.id, d.clock);
    OthersStayFair(d, Noted(d, e), e, hand);
  }

  lemma HushedStaysFair(d: Desk, hand: Option<nat>)
    requires Inv(d, hand) && d.active.Some?
    ensures var r, a := Hushed(d, d.active.value), d.active.value;
            && Numbered(r)
            && forall k :: 0 <= k < |r.log| && r.log[k].Settled? ==> r.log[k].id != a.reply.id && Fair(r, r.log[k])
  {
    var a := d.active.value;
    if Hushed(d, a) == d {
      NoneSettledOnAir(d, hand);
    } else {
      SilencedStaysFair(d, hand);
    }
  }

  lemma NoneSettledOnAir(d: Desk, hand: Option<nat>)
    requires Inv(d, hand) && d.active.Some?
    ensures forall k :: 0 <= k < |d.log| && d.log[k].Settled? ==> d.log[k].id != d.active.value.reply.id
  {}

  /** An end of the reply on the air that may be called a delivery. */
  predicate Delivers(d: Desk)
    requires d.active.Some?
  {
    var a := d.active.value;
    a.nextSentence > 0 && a.nextSentence + Late(d) == Total(a.reply.text) && a.endsAt <= d.clock
  }

  lemma EndingIsNumbered(d: Desk, ok: bool, basis: Basis, place: Place)
    requires Numbered(d) && d.active.Some?
    ensures var a, r := d.active.value, Ending(d, ok, basis).(place := place);
            && Numbered(r) && r.arrived == d.arrived
            && r.log == Hushed(d, a).log + [Settlement(d, a.reply, ok, basis)]
  {}

  lemma EndingIsFair(d: Desk, hand: Option<nat>, ok: bool, basis: Basis, place: Place)
    requires Inv(d, hand) && d.active.Some? && (ok ==> Delivers(d))
    ensures var r := Ending(d, ok, basis).(place := place); Numbered(r) && Truthful(r)
  {
    var a, r := d.active.value, Ending(d, ok, basis).(place := place);
    EndingIsNumbered(d, ok, basis, place);
    HushedStaysFair(d, hand);
    EarlierStayFair(Hushed(d, a), r, Settlement(d, a.reply, ok, basis));
    LastIsFair(d, r, hand, ok, basis);
  }

  lemma LastIsFair(d: Desk, r: Desk, hand: Option<nat>, ok: bool, basis: Basis)
    requires Inv(d, hand) && d.active.Some? && (ok ==> Delivers(d)) && Numbered(r) && r.arrived == d.arrived
    requires r.log == Hushed(d, d.active.value).log + [Settlement(d, d.active.value.reply, ok, basis)]
    ensures Fair(r, Settlement(d, d.active.value.reply, ok, basis))
  {
    var a := d.active.value;
    HushedLog(d, hand, a.reply.id);
    LogMore(Hushed(d, a).log, Settlement(d, a.reply, ok, basis), a.reply.id);
    EndIsFair(d, r, Settlement(d, a.reply, ok, basis));
  }

  lemma EarlierStayFair(h: Desk, r: Desk, e: Event)
    requires Numbered(h) && e.Settled? && Numbered(r) && r.log == h.log + [e] && r.arrived == h.arrived
    requires forall k :: 0 <= k < |h.log| && h.log[k].Settled? ==> h.log[k].id != e.id && Fair(h, h.log[k])
    ensures forall k :: 0 <= k < |h.log| && r.log[k].Settled? ==> Fair(r, r.log[k])
  {
    forall k | 0 <= k < |h.log| && r.log[k].Settled?
      ensures Fair(r, r.log[k])
    {
      assert r.log[k] == h.log[k];
      LogMore(h.log, e, r.log[k].id);
      FairStays(h, r, r.log[k]);
    }
  }

  lemma EndIsFair(d: Desk, r: Desk, e: Event)
    requires Numbered(d) && OnAir(d) && d.active.Some? && Numbered(r) && r.arrived == d.arrived
    requires e.Settled? && e.id == d.active.value.reply.id && e.at == d.clock && e.late == Late(d)
    requires e.acked == (d.active.value.reply.generation != 0)
    requires e.ok ==> Delivers(d) && r.log == d.log + [e]
    requires Speeches(d) && Plays(r.log, e.id) == Plays(d.log, e.id)
    ensures Fair(r, e)
  {}

  lemma EndingLog(d: Desk, hand: Option<nat>, ok: bool, basis: Basis, place: Place, id: nat)
    requires Inv(d, hand) && d.active.Some?
    ensures var log, own := Ending(d, ok, basis).(place := place).log, d.active.value.reply.id;
            && Settlements(log, id) == Settlements(d.log, id) + One(id == own)
            && Plays(log, id) == Plays(d.log, id)
            && (id != own && NoEvents(d.log, id) ==> NoEvents(log, id))
  {
    EndingIsNumbered(d, ok, basis, place);
    HushedLog(d, hand, id);
    SettledLog(Hushed(d, d.active.value).log, Settlement(d, d.active.value.reply, ok, basis), id);
  }

  lemma SettledLog(log: seq<Event>, e: Event, id: nat)
    requires e.Settled?
    ensures Settlements(log + [e], id) == Settlements(log, id) + One(id == e.id)
    ensures Plays(log + [e], id) == Plays(log, id)
    ensures id != e.id && NoEvents(log, id) ==> NoEvents(log + [e], id)
  {
    LogMore(log, e, id);
  }

  lemma EndingIsTidy(d: Desk, hand: Option<nat>, ok: bool, basis: Basis, place: Place, id: nat)
    requires Inv(d, hand) && d.active.Some? && id < |d.arrived|
    ensures Tidy(Ending(d, ok, basis).(place := place), hand, id)
  {
    var r := Ending(d, ok, basis).(place := place);
    EndingLog(d, hand, ok, basis, place, id);
    SameWaiting(d, r, id);
    assert Tidy(d, hand, id);
    assert IsOnAir(d, id) <==> id == d.active.value.reply.id;
  }

  lemma EndingKeeps(d: Desk, hand: Option<nat>, ok: bool, basis: Basis, place: Place)
    requires Inv(d, hand) && d.active.Some? && (ok ==> Delivers(d)) && !place.Looking?
    ensures Inv(Ending(d, ok, basis).(place := place), hand)
  {
    var a, r := d.active.value, Ending(d, ok, basis).(place := place);
    EndingIsFair(d, hand, ok, basis, place);
    HushedLog(d, hand, a.reply.id);
    LogMore(Hushed(d, a).log, Settlement(Hushed(d, a), a.reply, ok, basis), a.reply.id);
    forall id | 0 <= id < |r.arrived|
      ensures Tidy(r, hand, id)
    {
      EndingIsTidy(d, hand, ok, basis, place, id);
    }
  }

  // ------------------------------------------------------------------- playing

  function PlayedNow(d: Desk, duration: nat): Event
    requires d.active.Some?
  {
    var a := d.active.value;
    Played(a.reply.id, a.nextSentence, d.clock, d.clock + duration + SENTENCE_GAP_MS)
  }

  lemma NextNumber(n: nat)
    ensures FirstNumbers(n + 1) == FirstNumbers(n) + [n]
  {}

  lemma PlayingIsTidy(d: Desk, duration: nat, id: nat)
    requires Inv(d, None) && d.active.Some? && id < |d.arrived|
    ensures Tidy(Playing(d, duration).(place := Resting), None, id)
  {
    var a, r := d.active.value, Playing(d, duration).(place := Resting);
    LogMore(d.log, PlayedNow(d, duration), id);
    SameWaiting(d, r, id);
    assert Tidy(d, None, id);
    if IsOnAir(d, id) {
      NextNumber(a.nextSentence);
    }
  }

  predicate MayPlay(d: Desk) {
    && d.active.Some? && d.clock >= d.active.value.endsAt
    && d.active.value.nextSentence < |SpeechOf(d, d.active.value.reply.id).durations|
  }

  lemma PlayingIsNumbered(d: Desk, duration: nat)
    requires Inv(d, None) && MayPlay(d)
    ensures Numbered(Playing(d, duration).(place := Resting))
  {}

  lemma PlayingIsClear(d: Desk, duration: nat)
    requires Inv(d, None) && MayPlay(d)
    ensures AirIsFree(Playing(d, duration).(place := Resting))
  {
    LogMore(d.log, PlayedNow(d, duration), d.active.value.reply.id);
  }

  lemma SameSpeeches(d: Desk, r: Desk)
    requires Numbered(d) && Speeches(d) && Numbered(r) && r.speeches == d.speeches && r.arrived == d.arrived
    ensures Speeches(r)
  {}

  lemma PlayingIsOnAir(d: Desk, duration: nat)
    requires Inv(d, None) && MayPlay(d)
    ensures var r := Playing(d, duration).(place := Resting); Numbered(r) && OnAir(r)
  {
    var a, r := d.active.value, Playing(d, duration).(place := Resting);
    PlayingIsNumbered(d, duration);
    LogMore(d.log, PlayedNow(d, duration), a.reply.id);
    NextNumber(a.nextSentence);
    assert PlaysOnly(d, a);
    assert PlaysOnly(r, r.active.value);
  }

  lemma PlayingKeeps(d: Desk, duration: nat)
    requires Inv(d, None) && MayPlay(d)
    ensures Inv(Playing(d, duration).(place := Resting), None)
  {
    PlayingIsNumbered(d, duration);
    PlayingIsClear(d, duration);
    PlayingIsOnAir(d, duration);
    PlayingIsKept(d, duration, Playing(d, duration).(place := Resting));
    AllPlayingIsTidy(d, duration, Playing(d, duration).(place := Resting));
    Assembled(Playing(d, duration).(place := Resting));
  }

  lemma PlayingIsKept(d: Desk, duration: nat, r: Desk)
    requires Inv(d, None) && MayPlay(d) && r == Playing(d, duration).(place := Resting) && Numbered(r)
    ensures Speeches(r) && Truthful(r)
  {
    SameSpeeches(d, r);
    PlayingIsTruthful(d, r, PlayedNow(d, duration));
  }

  lemma Assembled(d: Desk)
    requires Numbered(d) && Speeches(d) && AllTidy(d, None) && OnAir(d) && AirIsFree(d) && Truthful(d)
    requires d.place.Resting?
    ensures Inv(d, None)
  {}

  lemma AllPlayingIsTidy(d: Desk, duration: nat, r: Desk)
    requires Inv(d, None) && d.active.Some? && r == Playing(d, duration).(place := Resting)
    ensures AllTidy(r, None)
  {
    forall id | 0 <= id < |r.arrived|
      ensures Tidy(r, None, id)
    {
      PlayingIsTidy(d, duration, id);
    }
  }

  lemma PlayingIsTruthful(d: Desk, r: Desk, e: Event)
    requires Inv(d, None) && Numbered(r) && r.arrived == d.arrived && r.log == d.log + [e]
    requires e.Played? && IsOnAir(d, e.id)
    ensures Truthful(r)
  {
    OthersStayFair(d, r, e, None);
  }

  // ------------------------------------------------------------------- looking

  /** Moving the loop to another place changes nothing else. */
  lemma MovedKeeps(d: Desk, hand: Option<nat>, place: Place)
    requires Inv(d, hand) && PlaceFits(d.(place := place))
    ensures Inv(d.(place := place), hand)
  {
    var r := d.(place := place);
    forall id | 0 <= id < |r.arrived|
      ensures Tidy(r, hand, id)
    {
      SameWaiting(d, r, id);
      assert Tidy(d, hand, id);
    }
    SameLogIsTruthful(d, r);
  }

  lemma FirstLookKeeps(d: Desk, tries: nat, refused: set<nat>)
    requires Inv(d, None) && d.active.Some?
    ensures Inv(FirstLook(d, tries, refused), None)
  {
    var a := d.active.value;
    var durations := SpeechOf(d, a.reply.id).durations;
    if d.clock < a.endsAt {
      MovedKeeps(d, None, Resting);
    } else if a.nextSentence >= |durations| {
      MovedKeeps(d, None, Looking(tries, refused, 0));
    } else if a.reply.id in refused {
      EndingKeeps(d, None, false, RadioRefused, Taking(tries, refused));
    } else {
      PlayingKeeps(d, durations[a.nextSentence]);
    }
  }

  lemma SecondLookKeeps(d: Desk)
    requires Inv(d, None) && d.active.Some? && d.place.Looking?
    ensures Inv(SecondLook(d), None)
  {
    var a, after := d.active.value, Taking(d.place.tries, d.place.refused);
    if SpeechOf(d, a.reply.id).finished {
      FinishedLookKeeps(d, after);
    } else if a.nextSentence == 0 && d.clock >= a.startedAt + SYNTHESIS_DEADLINE_MS {
      EndingKeeps(d, None, false, TimedOut, after);
    } else {
      MovedKeeps(d, None, Resting);
    }
  }

  lemma FinishedLookKeeps(d: Desk, after: Place)
    requires Inv(d, None) && d.active.Some? && d.place.Looking? && SpeechOf(d, d.active.value.reply.id).finished
    requires after == Taking(d.place.tries, d.place.refused)
    ensures Inv(SecondLook(d), None)
  {
    var a := d.active.value;
    if a.nextSentence == 0 {
      EndingKeeps(d, None, false, SynthesisFailed, after);
    } else if SpeechOf(d, a.reply.id).failed {
      EndingKeeps(d, None, false, FailedPartway, after);
    } else {
      FinishedIsWhole(d);
      EndingKeeps(d, None, true, PlaybackElapsed, after);
    }
  }

  lemma FinishedIsWhole(d: Desk)
    requires Inv(d, None) && d.active.Some?
    requires var s := SpeechOf(d, d.active.value.reply.id); s.finished && !s.failed
    ensures var a := d.active.value; |SpeechOf(d, a.reply.id).durations| == Total(a.reply.text)
  {
    assert SpeechFits(d.speeches[d.active.value.reply.id], Total(d.active.value.reply.text));
  }

  // ------------------------------------------------------------------ starting

  lemma ActivatedKeeps(d: Desk, reply: Reply)
    requires Inv(d, Some(reply.id)) && d.active.None? && reply == d.arrived[reply.id] && reply.voiced
             && !d.place.Taking?
    ensures Inv(d.(active := Some(Active(reply, d.clock, 0, 0))), None)
  {
    var r := d.(active := Some(Active(reply, d.clock, 0, 0)));
    assert Tidy(d, Some(reply.id), reply.id);
    NoEventsCountNothing(d.log, reply.id);
    assert FirstNumbers(0) == [];
    forall id | 0 <= id < |r.arrived|
      ensures Tidy(r, None, id)
    {
      SameWaiting(d, r, id);
      assert Tidy(d, Some(reply.id), id);
    }
    SameLogIsTruthful(d, r);
  }

  lemma StartedKeeps(d: Desk, reply: Reply, tries: nat, refused: set<nat>)
    requires Inv(d, Some(reply.id)) && d.active.None? && reply == d.arrived[reply.id] && d.place.Resting?
    ensures Inv(Started(d, reply, tries, refused), None)
  {
    if reply.text == "" {
      SettledInHand(d, reply, false, EmptyText, Taking(tries, refused));
    } else if !reply.speak {
      SettledInHand(d, reply, true, NotRequested, Taking(tries, refused));
    } else if !reply.voiced {
      SettledInHand(d, reply, false, VoicesUnavailable, Taking(tries, refused));
    } else {
      ActivatedKeeps(d, reply);
      FirstLookKeeps(d.(active := Some(Active(reply, d.clock, 0, 0))), tries, refused);
    }
  }

  lemma WaitingWithout(d: Desk, i: nat, id: nat)
    requires Numbered(d) && i < |d.queue|
    ensures IsWaiting(Taken(d, i), id) <==> IsWaiting(d, id) && id != d.queue[i].id
  {
    if IsWaiting(d, id) && id != d.queue[i].id {
      WaitsOn(d, i, id);
    }
    if IsWaiting(Taken(d, i), id) {
      WaitedBefore(d, i, id);
    }
  }

  lemma WaitsOn(d: Desk, i: nat, id: nat)
    requires i < |d.queue| && IsWaiting(d, id) && id != d.queue[i].id
    ensures IsWaiting(Taken(d, i), id)
  {
    var k :| 0 <= k < |d.queue| && d.queue[k].id == id;
    assert Taken(d, i).queue[if k < i then k else k - 1].id == id;
  }

  lemma WaitedBefore(d: Desk, i: nat, id: nat)
    requires Numbered(d) && i < |d.queue| && IsWaiting(Taken(d, i), id)
    ensures IsWaiting(d, id) && id != d.queue[i].id
  {
    var k :| 0 <= k < |Taken(d, i).queue| && Taken(d, i).queue[k].id == id;
    assert d.queue[if k < i then k else k + 1].id == id;
  }

  lemma TakenKeeps(d: Desk, i: nat)
    requires Inv(d, None) && i < |d.queue|
    ensures Inv(Taken(d, i), Some(d.queue[i].id))
  {
    var r, hand := Taken(d, i), Some(d.queue[i].id);
    assert IsWaiting(d, d.queue[i].id);
    forall id | 0 <= id < |r.arrived|
      ensures Tidy(r, hand, id)
    {
      WaitingWithout(d, i, id);
      assert Tidy(d, None, id);
    }
    SameLogIsTruthful(d, r);
  }

  lemma BegunKeeps(d: Desk, refused: set<nat>)
    requires Inv(d, None) && d.place.Resting?
    ensures Inv(Begun(d, refused), None)
  {
    var i := FirstUrgent(d.queue);
    if d.active.None? {
      MovedKeeps(d, None, Taking(MAX_IMMEDIATE_REPLIES, refused));
    } else if i < |d.queue| {
      TakenKeeps(d, i);
      EndingKeeps(Taken(d, i), Some(d.queue[i].id), false, Preempted, Resting);
      var ended := Ending(Taken(d, i), false, Preempted);
      assert ended.(place := Resting) == ended;
      StartedKeeps(ended, d.queue[i], 0, refused);
    } else {
      FirstLookKeeps(d, MAX_IMMEDIATE_REPLIES, refused);
    }
  }

  lemma NextTakenKeeps(d: Desk)
    requires Inv(d, None) && d.place.Taking?
    ensures Inv(NextTaken(d), None)
  {
    if d.place.tries == 0 || d.queue == [] {
      MovedKeeps(d, None, Resting);
    } else {
      TakenAndStartedKeeps(d, d.place.tries - 1, d.place.refused, NextTaken(d));
    }
  }

  lemma TakenAndStartedKeeps(d: Desk, tries: nat, refused: set<nat>, next: Desk)
    requires Inv(d, None) && d.place.Taking? && d.queue != []
    requires next == Started(Taken(d, 0).(place := Resting), d.queue[0], tries, refused)
    ensures Inv(next, None)
  {
    NextStartedKeeps(d, tries, refused);
  }

  lemma NextStartedKeeps(d: Desk, tries: nat, refused: set<nat>)
    requires Inv(d, None) && d.queue != [] && d.active.None?
    ensures Inv(Started(Taken(d, 0).(place := Resting), d.queue[0], tries, refused), None)
  {
    InHandKeeps(d);
    StartedKeeps(Taken(d, 0).(place := Resting), d.queue[0], tries, refused);
  }

  lemma InHandKeeps(d: Desk)
    requires Inv(d, None) && d.queue != []
    ensures Inv(Taken(d, 0).(place := Resting), Some(d.queue[0].id))
  {
    TakenKeeps(d, 0);
    MovedKeeps(Taken(d, 0), Some(d.queue[0].id), Resting);
  }

  // ------------------------------------------------------- arrivals and the voices

  lemma LaterKeeps(d: Desk, now: nat)
    requires Inv(d, None) && now >= d.clock
    ensures Inv(d.(clock := now), None)
  {
    var r := d.(clock := now);
    SameLogIsTruthful(d, r);
    forall id | 0 <= id < |r.arrived|
      ensures Tidy(r, None, id)
    {
      SameWaiting(d, r, id);
      assert Tidy(d, None, id);
    }
  }

  lemma DropOldestKeeps(d: Desk)
    requires Inv(d, None)
    ensures Inv(DropOldest(d), None) && |DropOldest(d).queue| < MAX_QUEUED_REPLIES && DropOldest(d).arrived == d.arrived
  {
    if |d.queue| >= MAX_QUEUED_REPLIES {
      TakenKeeps(d, 0);
      DroppedKeeps(Taken(d, 0), d.queue[0].id);
      assert d.queue[1..] == Without(d.queue, 0);
    }
  }

  lemma DroppedKeeps(d: Desk, id: nat)
    requires Inv(d, Some(id))
    ensures Inv(d.(dropped := d.dropped + {id}), None)
  {
    var r := d.(dropped := d.dropped + {id});
    SameLogIsTruthful(d, r);
    forall k | 0 <= k < |r.arrived|
      ensures Tidy(r, None, k)
    {
      SameWaiting(d, r, k);
      assert Tidy(d, Some(id), k);
    }
  }

  lemma WaitingQueued(d: Desk, reply: Reply, speech: Option<Speech>, id: nat)
    ensures IsWaiting(Queued(d, reply, speech), id) <==> IsWaiting(d, id) || id == reply.id
  {
    var r := Queued(d, reply, speech);
    assert r.queue[|d.queue|] == reply;
    if IsWaiting(d, id) {
      var i :| 0 <= i < |d.queue| && d.queue[i].id == id;
      assert r.queue[i] == d.queue[i];
    }
  }

  lemma QueuedIsTidy(d: Desk, reply: Reply, speech: Option<Speech>, id: nat)
    requires Inv(d, None) && reply.id == |d.arrived| && id <= |d.arrived|
    ensures Tidy(Queued(d, reply, speech), None, id)
  {
    WaitingQueued(d, reply, speech, id);
    if id == |d.arrived| {
      NoEventsCountNothing(d.log, id);
      assert !IsWaiting(d, id);
    } else {
      assert Tidy(d, None, id);
    }
  }

  predicate CanArrive(reply: Reply, speech: Option<Speech>) {
    && (reply.voiced <==> speech.Some?)
    && (speech.Some? ==> reply.speak && reply.text != "" && SpeechFits(speech.value, Total(reply.text)))
  }

  lemma QueuedIsNumbered(d: Desk, reply: Reply, speech: Option<Speech>)
    requires Inv(d, None) && |d.queue| < MAX_QUEUED_REPLIES && reply.id == |d.arrived| && CanArrive(reply, speech)
    ensures var r := Queued(d, reply, speech); Numbered(r) && Speeches(r) && OnAir(r) && PlaceFits(r)
  {
    var r := Queued(d, reply, speech);
    assert Numbered(r);
    QueuedSpeechesFit(d, reply, speech);
  }

  lemma QueuedSpeechesFit(d: Desk, reply: Reply, speech: Option<Speech>)
    requires Numbered(d) && Speeches(d) && reply.id == |d.arrived| && CanArrive(reply, speech)
    requires Numbered(Queued(d, reply, speech))
    ensures Speeches(Queued(d, reply, speech))
  {
    var r := Queued(d, reply, speech);
    forall id | id in r.speeches
      ensures SpeechFits(r.speeches[id], Total(r.arrived[id].text))
    {
      assert id in d.speeches ==> SpeechFits(d.speeches[id], Total(d.arrived[id].text));
    }
  }

  lemma QueuedKeeps(d: Desk, reply: Reply, speech: Option<Speech>)
    requires Inv(d, None) && |d.queue| < MAX_QUEUED_REPLIES && reply.id == |d.arrived| && CanArrive(reply, speech)
    ensures Inv(Queued(d, reply, speech), None)
  {
    var r := Queued(d, reply, speech);
    QueuedIsNumbered(d, reply, speech);
    SameLogIsTruthful(d, r);
    forall id | 0 <= id < |r.arrived|
      ensures Tidy(r, None, id)
    {
      QueuedIsTidy(d, reply, speech, id);
    }
  }

  /** The voices going on with a Speech: the count between the looks goes with it. */
  lemma VoicedKeeps(d: Desk, r: Desk, id: nat)
    requires Inv(d, None) && id in d.speeches && id in r.speeches
    requires r == d.(speeches := d.speeches[id := r.speeches[id]], place := r.place)
    requires SpeechFits(r.speeches[id], Total(d.arrived[id].text))
             && |r.speeches[id].durations| >= |d.speeches[id].durations|
    requires PlaceFits(r)
    ensures Inv(r, None)
  {
    SpeechesGrow(d, r, id);
    SameLogIsTruthful(d, r);
    forall k | 0 <= k < |r.arrived|
      ensures Tidy(r, None, k)
    {
      SameWaiting(d, r, k);
      assert Tidy(d, None, k);
    }
  }

  lemma SpeechesGrow(d: Desk, r: Desk, id: nat)
    requires Inv(d, None) && id in d.speeches && id in r.speeches
    requires r == d.(speeches := d.speeches[id := r.speeches[id]], place := r.place)
    requires SpeechFits(r.speeches[id], Total(d.arrived[id].text))
             && |r.speeches[id].durations| >= |d.speeches[id].durations|
    ensures Numbered(r) && Speeches(r) && OnAir(r)
  {
    assert r.speeches.Keys == d.speeches.Keys;
    forall k | k in r.speeches
      ensures SpeechFits(r.speeches[k], Total(r.arrived[k].text))
    {
      assert SpeechFits(d.speeches[k], Total(d.arrived[k].text));
    }
  }

  lemma ArriveKeeps(d: Desk, reply: Reply, speech: Option<Speech>)
    requires Inv(d, None) && reply.id == |d.arrived| && CanArrive(reply, speech)
    ensures Inv(Queued(DropOldest(d), reply, speech), None)
  {
    DropOldestKeeps(d);
    QueuedKeeps(DropOldest(d), reply, speech);
  }

  // ------------------------------------------------------------------ every step

  lemma PassKeeps(d: Desk, now: nat, refused: set<nat>)
    requires Inv(d, None) && d.place.Resting? && now >= d.clock
    ensures Inv(Begun(d.(clock := now), refused), None)
  {
    LaterKeeps(d, now);
    BegunKeeps(d.(clock := now), refused);
  }

  lemma SpeechKeeps(d: Desk, step: Step)
    requires Inv(d, None) && Enabled(d, step) && (step.Voiced? || step.Complete?)
    ensures Inv(Next(d, step), None)
  {
    VoicedKeeps(d, Next(d, step), step.id);
  }

  lemma StepKeeps(d: Desk, step: Step)
    requires Inv(d, None) && Enabled(d, step)
    ensures Inv(Next(d, step), None)
  {
    match step
    case Arrive(_, _, _, _, speech) => ArriveKeeps(d, ReplyOf(d, step), speech);
    case Pass(now, refused) => PassKeeps(d, now, refused);
    case TakeNext => NextTakenKeeps(d);
    case LookAgain => SecondLookKeeps(d);
    case _ => SpeechKeeps(d, step);
  }

  lemma {:induction false} RunKeepsFrom(d: Desk, run: seq<Step>)
    requires Inv(d, None) && Legal(d, run)
    ensures Inv(After(d, run), None)
    decreases |run|
  {
    if run != [] {
      StepKeeps(d, run[0]);
      RunKeepsFrom(Next(d, run[0]), run[1..]);
    }
  }

  lemma RunKeeps(run: seq<Step>)
    requires Legal(IDLE, run)
    ensures Inv(After(IDLE, run), None)
  {
    RunKeepsFrom(IDLE, run);
  }

  // --------------------------------------------------------------- over whole runs

  /** Every reply that arrived waits, was dropped, is on the air, or was settled once; never two of these. */
  lemma EveryReplyIsInOnePlace(run: seq<Step>, id: nat)
    requires Legal(IDLE, run) && id < |After(IDLE, run).arrived|
    ensures var d := After(IDLE, run);
            One(IsWaiting(d, id)) + One(id in d.dropped) + One(IsOnAir(d, id)) + Settlements(d.log, id) == 1
  {
    RunKeeps(run);
    assert Tidy(After(IDLE, run), None, id);
  }

  function Acks(log: seq<Event>, id: nat): nat {
    if log == [] then 0
    else
      var e := log[|log| - 1];
      Acks(log[..|log| - 1], id) + if e.Settled? && e.id == id && e.acked then 1 else 0
  }

  lemma {:induction false} AcksAreSettlements(log: seq<Event>, id: nat, generation: nat)
    requires forall k :: 0 <= k < |log| && log[k].Settled? && log[k].id == id ==> log[k].acked == (generation != 0)
    ensures Acks(log, id) == if generation == 0 then 0 else Settlements(log, id)
  {
    if log != [] {
      AcksAreSettlements(log[..|log| - 1], id, generation);
    }
  }

  /** A reply with a generation is acknowledged once, when it is settled; one
      without, or one dropped from the queue, is never acknowledged. */
  lemma EverySettledReplyIsAcknowledgedOnce(run: seq<Step>, id: nat)
    requires Legal(IDLE, run) && id < |After(IDLE, run).arrived|
    ensures var d := After(IDLE, run);
            && Acks(d.log, id) == (if d.arrived[id].generation == 0 then 0 else Settlements(d.log, id))
            && Settlements(d.log, id) <= 1
            && (id in d.dropped ==> Acks(d.log, id) == 0)
  {
    var d := After(IDLE, run);
    RunKeeps(run);
    assert Tidy(d, None, id);
    forall k | 0 <= k < |d.log| && d.log[k].Settled? && d.log[k].id == id
      ensures d.log[k].acked == (d.arrived[id].generation != 0)
    {
      assert Fair(d, d.log[k]);
    }
    AcksAreSettlements(d.log, id, d.arrived[id].generation);
  }

  /** Sentences go on the air in order, each once, and none before the last has ended or been stopped. */
  lemma SentencesNeverOverlap(run: seq<Step>, id: nat)
    requires Legal(IDLE, run) && id < |After(IDLE, run).arrived|
    ensures var log := After(IDLE, run).log;
            NeverOverlaps(log) && Plays(log, id) == FirstNumbers(|Plays(log, id)|)
  {
    RunKeeps(run);
    assert Tidy(After(IDLE, run), None, id);
  }

  /** The queue is the newest of the waiting replies, in the order they arrived, sixteen at most. */
  lemma QueueIsInOrder(run: seq<Step>)
    requires Legal(IDLE, run)
    ensures var queue := After(IDLE, run).queue;
            |queue| <= MAX_QUEUED_REPLIES && forall i, j :: 0 <= i < j < |queue| ==> queue[i].id < queue[j].id
  {
    RunKeeps(run);
  }

  /** Of a spoken reply reported as delivered every sentence that was played was
      heard to its end, before the report; and all were played exactly when none
      came between the two looks that settled it. */
  lemma DeliveredMeansHeard(run: seq<Step>, n: nat)
    requires Legal(IDLE, run) && n < |After(IDLE, run).log|
    requires var e := After(IDLE, run).log[n]; e.Settled? && e.ok
    ensures var d := After(IDLE, run);
            var e := d.log[n];
            && e.id < |d.arrived|
            && (!d.arrived[e.id].speak ==> d.arrived[e.id].text != "")
            && (d.arrived[e.id].speak ==>
                  && (Plays(d.log, e.id) == FirstNumbers(Total(d.arrived[e.id].text)) <==> e.late == 0)
                  && |Plays(d.log, e.id)| + e.late == Total(d.arrived[e.id].text)
                  && (forall k :: 0 <= k < |d.log| && d.log[k].id == e.id ==> !d.log[k].Silenced?)
                  && (forall k :: 0 <= k < |d.log| && d.log[k].id == e.id && d.log[k].Played? ==>
                        d.log[k].until <= e.at))
  {
    var d := After(IDLE, run);
    RunKeeps(run);
    assert Fair(d, d.log[n]);
    assert Tidy(d, None, d.log[n].id);
  }
}
