// src/telemetry/traffic.cpp: the nearest aircraft of one read of X-Plane's TCAS
// arrays, and the account of those left out.
module Traffic {
  const TCAS_SLOTS := 64
  const STRING_SLOT_WIDTH := 8
  const FEET_PER_METRE := 3.280839895
  const KNOTS_PER_MPS := 1.943844492
  const MAX_GROUND_ROLL_KTS := 200.0
  const MAX_GROUND_VERTICAL_SPEED_FPM := 1000.0
  const ON_GROUND_MAX_HEIGHT_M := 10.0

  /** A floating-point number, exact where it is finite. */
  datatype Number = Finite(value: real) | PositiveInfinity | NegativeInfinity | NaN

  function Times(x: Number, factor: real): Number
    requires factor > 0.0
  {
    if x.Finite? then Finite(x.value * factor) else x
  }

  // No comparison with NaN holds.
  predicate Above(x: Number, bound: real) {
    x.PositiveInfinity? || (x.Finite? && x.value > bound)
  }

  function Magnitude(x: real): (r: real) {
    if x < 0.0 then -x else x
  }

  function Absolute(x: Number): Number {
    match x
    case Finite(value) => Finite(Magnitude(value))
    case NegativeInfinity => PositiveInfinity
    case _ => x
  }

  function Minus(x: Number, y: real): Number {
    if x.Finite? then Finite(x.value - y) else x
  }

  datatype Arrays = Arrays(
    modeS: seq<int>, lat: seq<Number>, lon: seq<Number>, elevation: seq<Number>,
    verticalSpeed: seq<Number>, track: seq<Number>, heading: seq<Number>, speed: seq<Number>,
    weightOnWheels: seq<int>, height: seq<Number>, flightId: string, icaoType: string)

  datatype Target = Target(
    id: int, callsign: string, icaoType: string, lat: Number, lon: Number, altFt: Number,
    groundspeedKts: Number, verticalSpeedFpm: Number, track: Number, heading: Number, onGround: bool)

  datatype Identity = Identity(modeS: int, callsign: string, icaoType: string)
  datatype Own = Own(lat: real, lon: real, altFt: real)
  datatype Bounds = Bounds(radiusNm: real, verticalFt: real, maxTargets: int)
  datatype Status = Unavailable | KnownEmpty | Current
  datatype Census = Census(reported: int, seen: nat, droppedRange: nat, droppedVertical: nat, droppedCap: nat)
  datatype Extract = Extract(ownship: Identity, targets: seq<Target>, status: Status, truncated: bool, census: Census)

  /** A target with its distance, and the slot it was read from. */
  datatype Scored = Scored(slot: nat, target: Target, distance: real)

  type Distance = (real, real, real, real) -> real

  // ----------------------------------------------------------------- one slot

  /** A missing element reads as zero. */
  function At(v: seq<Number>, i: nat): Number {
    if i < |v| then v[i] else Finite(0.0)
  }

  function IntAt(v: seq<int>, i: nat): int {
    if i < |v| then v[i] else 0
  }

  /** Finite, on the globe, and off the null island. */
  predicate Populated(a: Arrays, i: nat) {
    var lat, lon := At(a.lat, i), At(a.lon, i);
    && lat.Finite? && lon.Finite?
    && -90.0 <= lat.value <= 90.0 && -180.0 <= lon.value <= 180.0
    && !(Magnitude(lat.value) < 0.000000001 && Magnitude(lon.value) < 0.000000001)
  }

  predicate OnGround(weightOnWheels: bool, height: Number, groundspeed: Number, verticalSpeed: Number) {
    if Above(groundspeed, MAX_GROUND_ROLL_KTS)
       || Above(Absolute(verticalSpeed), MAX_GROUND_VERTICAL_SPEED_FPM) then false
    else if height.Finite? then height.value < ON_GROUND_MAX_HEIGHT_M
    else weightOnWheels
  }

  function TargetAt(a: Arrays, i: nat): Target {
    var groundspeed := Times(At(a.speed, i), KNOTS_PER_MPS);
    var verticalSpeed := At(a.verticalSpeed, i);
    Target(IntAt(a.modeS, i), Record(a.flightId, i, STRING_SLOT_WIDTH), Record(a.icaoType, i, STRING_SLOT_WIDTH),
           At(a.lat, i), At(a.lon, i), Times(At(a.elevation, i), FEET_PER_METRE),
           groundspeed, verticalSpeed, At(a.track, i), At(a.heading, i),
           OnGround(IntAt(a.weightOnWheels, i) != 0, if i < |a.height| then a.height[i] else NaN, groundspeed,
                    verticalSpeed))
  }

  // --------------------------------------------------------- a fixed-width record

  predicate Printable(c: char) {
    ' ' <= c < 127 as char
  }

  function NulAt(s: string): (n: nat)
    ensures n <= |s| && (n < |s| ==> s[n] == 0 as char) && forall i :: 0 <= i < n ==> s[i] != 0 as char
  {
    if s == "" || s[0] == 0 as char then 0 else 1 + NulAt(s[1..])
  }

  function FirstRecord(s: string): string {
    s[..NulAt(s)]
  }

  function OnlyPrintable(s: string): (r: string)
    ensures |r| <= |s| && forall i :: 0 <= i < |r| ==> Printable(r[i])
  {
    if s == "" then ""
    else OnlyPrintable(s[..|s| - 1]) + if Printable(s[|s| - 1]) then [s[|s| - 1]] else ""
  }

  function WithoutPadding(s: string): (r: string)
    ensures r <= s && (r != "" ==> r[|r| - 1] != ' ')
    ensures forall i :: |r| <= i < |s| ==> s[i] == ' '
  {
    if s != "" && s[|s| - 1] == ' ' then WithoutPadding(s[..|s| - 1]) else s
  }

  function Slice(blob: string, index: int, width: int): string {
    if index < 0 || width <= 0 || index * width >= |blob| then ""
    else
      Base(index, width);
      blob[index * width..if index * width + width < |blob| then index * width + width else |blob|]
  }

  lemma Base(index: nat, width: nat)
    ensures index * width >= 0
  {}

  /** The printable text of a record, up to its NUL, without its padding. */
  function Record(blob: string, index: int, width: int): string {
    WithoutPadding(OnlyPrintable(FirstRecord(Slice(blob, index, width))))
  }

  method TcasStringAt(blob: string, index: int, width: int) returns (out: string)
    ensures out == Record(blob, index, width)
  {
    if index < 0 || width <= 0 {
      return "";
    }
    var base := index * width;
    Base(index, width);
    if base >= |blob| {
      return "";
    }
    var end := if base + width < |blob| then base + width else |blob|;
    out := KeepPrintable(blob[base..end]);
    out := DropPadding(out);
  }

  method KeepPrintable(s: string) returns (out: string)
    ensures out == OnlyPrintable(FirstRecord(s))
  {
    out := "";
    var i := 0;
    while i < |s|
      invariant i <= NulAt(s)
      invariant out == OnlyPrintable(s[..i])
    {
      if s[i] == 0 as char {
        break;
      }
      assert s[..i + 1][..i] == s[..i];
      if Printable(s[i]) {
        out := out + [s[i]];
      }
      i := i + 1;
    }
    assert i == NulAt(s);
  }

  method DropPadding(s: string) returns (out: string)
    ensures out == WithoutPadding(s)
  {
    out := s;
    while out != "" && out[|out| - 1] == ' '
      invariant WithoutPadding(out) == WithoutPadding(s)
      decreases |out|
    {
      out := out[..|out| - 1];
    }
  }

  // -------------------------------------------------------------- the whole picture

  /** The populated slots below `upTo`, from slot 1 on; a positive count stops the scan once that many were seen. */
  function Seen(a: Arrays, count: int, upTo: nat): (r: seq<nat>)
    ensures forall k :: 0 <= k < |r| ==> 1 <= r[k] < upTo && Populated(a, r[k])
    ensures forall j, k :: 0 <= j < k < |r| ==> r[j] < r[k]
  {
    if upTo <= 1 then []
    else
      var before := Seen(a, count, upTo - 1);
      if (count > 0 && |before| >= count) || !Populated(a, upTo - 1) then before else before + [upTo - 1]
  }

  predicate TooHigh(a: Arrays, own: Own, bounds: Bounds, i: nat) {
    Above(Absolute(Minus(TargetAt(a, i).altFt, own.altFt)), bounds.verticalFt)
  }

  function DistanceTo(a: Arrays, own: Own, distance: Distance, i: nat): real {
    if Populated(a, i) then distance(own.lat, own.lon, At(a.lat, i).value, At(a.lon, i).value) else 0.0
  }

  datatype Verdict = High | Far | Near

  function Judge(a: Arrays, own: Own, bounds: Bounds, distance: Distance, i: nat): Verdict {
    if TooHigh(a, own, bounds, i) then High
    else if DistanceTo(a, own, distance, i) > bounds.radiusNm then Far
    else Near
  }

  function Judging(a: Arrays, own: Own, bounds: Bounds, distance: Distance): nat -> Verdict {
    (i: nat) => Judge(a, own, bounds, distance, i)
  }

  /** The slots judged so, in order. */
  function Judged(slots: seq<nat>, judge: nat -> Verdict, v: Verdict): (r: seq<nat>)
    ensures |r| <= |slots|
  {
    if slots == [] then []
    else
      var last := slots[|slots| - 1];
      Judged(slots[..|slots| - 1], judge, v) + if judge(last) == v then [last] else []
  }

  function Score(a: Arrays, own: Own, distance: Distance, i: nat): Scored {
    Scored(i, TargetAt(a, i), DistanceTo(a, own, distance, i))
  }

  function Scores(a: Arrays, own: Own, distance: Distance, slots: seq<nat>): (r: seq<Scored>)
    ensures |r| == |slots| && forall k :: 0 <= k < |r| ==> r[k] == Score(a, own, distance, slots[k])
  {
    seq(|slots|, k requires 0 <= k < |slots| => Score(a, own, distance, slots[k]))
  }

  /** After every element no farther. */
  function Insert(s: seq<Scored>, x: Scored): (r: seq<Scored>)
    ensures |r| == |s| + 1
  {
    if s == [] || s[|s| - 1].distance <= x.distance then s + [x]
    else Insert(s[..|s| - 1], x) + [s[|s| - 1]]
  }

  /** The stable sort by distance. */
  function Sorted(s: seq<Scored>): (r: seq<Scored>)
    ensures |r| == |s|
  {
    if s == [] then [] else Insert(Sorted(s[..|s| - 1]), s[|s| - 1])
  }

  function Ownship(a: Arrays): Identity {
    Identity(IntAt(a.modeS, 0), Record(a.flightId, 0, STRING_SLOT_WIDTH), Record(a.icaoType, 0, STRING_SLOT_WIDTH))
  }

  function Nearest(a: Arrays, own: Own, bounds: Bounds, distance: Distance, count: int): seq<Scored> {
    Sorted(Scores(a, own, distance, Judged(Seen(a, count, TCAS_SLOTS), Judging(a, own, bounds, distance), Near)))
  }

  predicate Capped(found: nat, maxTargets: int) {
    maxTargets > 0 && found > maxTargets
  }

  function TargetsOf(s: seq<Scored>): (r: seq<Target>)
    ensures |r| == |s| && forall k :: 0 <= k < |r| ==> r[k] == s[k].target
  {
    seq(|s|, k requires 0 <= k < |s| => s[k].target)
  }

  function Kept(found: seq<Scored>, maxTargets: int): seq<Scored> {
    if Capped(|found|, maxTargets) then found[..maxTargets] else found
  }

  function CountIn(slots: seq<nat>, judge: nat -> Verdict, v: Verdict): nat {
    |Judged(slots, judge, v)|
  }

  function Account(a: Arrays, own: Own, bounds: Bounds, distance: Distance, count: int): Census {
    var seen := Seen(a, count, TCAS_SLOTS);
    var found := CountIn(seen, Judging(a, own, bounds, distance), Near);
    Census(count, |seen|,
           CountIn(seen, Judging(a, own, bounds, distance), Far),
           CountIn(seen, Judging(a, own, bounds, distance), High),
           if Capped(found, bounds.maxTargets) then found - bounds.maxTargets else 0)
  }

  method ExtractTargets(a: Arrays, count: int, own: Own, bounds: Bounds, distance: Distance, resolved: bool)
    returns (out: Extract)
    ensures out.ownship == Ownship(a)
    ensures !resolved ==> out == Extract(Ownship(a), [], Unavailable, false, Census(0, 0, 0, 0, 0))
    ensures resolved ==>
              var kept := Kept(Nearest(a, own, bounds, distance, count), bounds.maxTargets);
              && out.targets == TargetsOf(kept)
              && out.status == (if kept == [] then KnownEmpty else Current)
              && out.census == Account(a, own, bounds, distance, count)
              && out.truncated == (out.census.droppedCap > 0)
  {
    if !resolved {
      return Extract(Ownship(a), [], Unavailable, false, Census(0, 0, 0, 0, 0));
    }
    var found, seen, droppedRange, droppedVertical := ScanSlots(a, count, own, bounds, distance, TCAS_SLOTS);
    found := Sorted(found);
    var truncated, droppedCap := false, 0;
    if bounds.maxTargets > 0 && |found| > bounds.maxTargets {
      droppedCap := |found| - bounds.maxTargets;
      found := found[..bounds.maxTargets];
      truncated := true;
    }
    var targets := TargetsOf(found);
    out := Extract(Ownship(a), targets, if targets == [] then KnownEmpty else Current, truncated,
                   Census(count, seen, droppedRange, droppedVertical, droppedCap));
  }

  /** Slot 0 is the aircraft itself and is never looked at. */
  method ScanSlots(a: Arrays, count: int, own: Own, bounds: Bounds, distance: Distance, slots: nat)
    returns (found: seq<Scored>, seen: nat, droppedRange: nat, droppedVertical: nat)
    requires slots >= 1
    ensures ScanIs(a, count, own, bounds, distance, slots, found, seen, droppedRange, droppedVertical)
  {
    found, seen, droppedRange, droppedVertical := [], 0, 0, 0;
    var i := 1;
    while i < slots
      invariant 1 <= i <= slots
      invariant ScanIs(a, count, own, bounds, distance, i, found, seen, droppedRange, droppedVertical)
    {
      if count > 0 && seen >= count {
        ScanIsOver(a, count, i, slots);
        return;
      }
      if Populated(a, i) {
        OneMoreScanned(a, count, own, bounds, distance, i, found, seen, droppedRange, droppedVertical);
        seen := seen + 1;
        var verdict := JudgeTarget(a, own, bounds, distance, i);
        match verdict {
          case High => droppedVertical := droppedVertical + 1;
          case Far => droppedRange := droppedRange + 1;
          case Near => found := found + [Score(a, own, distance, i)];
        }
      } else {
        NotSeen(a, count, i);
      }
      i := i + 1;
    }
  }

  method JudgeTarget(a: Arrays, own: Own, bounds: Bounds, distance: Distance, i: nat) returns (v: Verdict)
    requires Populated(a, i)
    ensures v == Judge(a, own, bounds, distance, i)
  {
    var target := TargetAt(a, i);
    if Above(Absolute(Minus(target.altFt, own.altFt)), bounds.verticalFt) {
      return High;
    }
    var away := distance(own.lat, own.lon, target.lat.value, target.lon.value);
    v := if away > bounds.radiusNm then Far else Near;
  }

  lemma NotSeen(a: Arrays, count: int, i: nat)
    requires i >= 1 && !Populated(a, i)
    ensures Seen(a, count, i + 1) == Seen(a, count, i)
  {}

  lemma OneMoreScanned(a: Arrays, count: int, own: Own, bounds: Bounds, distance: Distance, i: nat,
                       found: seq<Scored>, seen: nat, droppedRange: nat, droppedVertical: nat)
    requires i >= 1 && Populated(a, i) && (count > 0 ==> seen < count)
    requires ScanIs(a, count, own, bounds, distance, i, found, seen, droppedRange, droppedVertical)
    ensures match Judge(a, own, bounds, distance, i)
            case High => ScanIs(a, count, own, bounds, distance, i + 1, found, seen + 1, droppedRange,
                                droppedVertical + 1)
            case Far => ScanIs(a, count, own, bounds, distance, i + 1, found, seen + 1, droppedRange + 1,
                               droppedVertical)
            case Near => ScanIs(a, count, own, bounds, distance, i + 1, found + [Score(a, own, distance, i)], seen + 1,
                                droppedRange, droppedVertical)
  {
    OneMoreSeen(a, count, i);
    var before := Seen(a, count, i);
    JudgedMore(before, Judging(a, own, bounds, distance), High, i);
    JudgedMore(before, Judging(a, own, bounds, distance), Far, i);
    JudgedMore(before, Judging(a, own, bounds, distance), Near, i);
    ScoresMore(a, own, distance, Judged(before, Judging(a, own, bounds, distance), Near), i);
  }

  lemma ScoresMore(a: Arrays, own: Own, distance: Distance, slots: seq<nat>, i: nat)
    ensures Scores(a, own, distance, slots + [i]) == Scores(a, own, distance, slots) + [Score(a, own, distance, i)]
  {}

  ghost predicate ScanIs(a: Arrays, count: int, own: Own, bounds: Bounds, distance: Distance, upTo: nat,
                         found: seq<Scored>, seen: nat, droppedRange: nat, droppedVertical: nat) {
    var slots := Seen(a, count, upTo);
    && seen == |slots|
    && found == Scores(a, own, distance, Judged(slots, Judging(a, own, bounds, distance), Near))
    && droppedRange == CountIn(slots, Judging(a, own, bounds, distance), Far)
    && droppedVertical == CountIn(slots, Judging(a, own, bounds, distance), High)
  }

  lemma {:induction false} ScanIsOver(a: Arrays, count: int, from: nat, upTo: nat)
    requires 1 <= from <= upTo && count > 0 && |Seen(a, count, from)| >= count
    ensures Seen(a, count, upTo) == Seen(a, count, from)
  {
    if from < upTo {
      ScanIsOver(a, count, from, upTo - 1);
    }
  }

  lemma OneMoreSeen(a: Arrays, count: int, i: nat)
    requires i >= 1 && Populated(a, i) && (count > 0 ==> |Seen(a, count, i)| < count)
    ensures Seen(a, count, i + 1) == Seen(a, count, i) + [i]
  {}

  lemma JudgedMore(slots: seq<nat>, judge: nat -> Verdict, v: Verdict, i: nat)
    ensures Judged(slots + [i], judge, v)
            == Judged(slots, judge, v) + if judge(i) == v then [i] else []
  {
    assert (slots + [i])[..|slots|] == slots;
  }

  // ------------------------------------------------------------ what is promised

  /** Element i of every array that holds it, in the units that are reported. */
  lemma TargetIsItsSlot(a: Arrays, i: nat)
    ensures i < |a.modeS| ==> TargetAt(a, i).id == a.modeS[i]
    ensures i < |a.lat| ==> TargetAt(a, i).lat == a.lat[i]
    ensures i < |a.lon| ==> TargetAt(a, i).lon == a.lon[i]
    ensures i < |a.elevation| && a.elevation[i].Finite? ==>
              TargetAt(a, i).altFt == Finite(a.elevation[i].value * 3.280839895)
    ensures i < |a.speed| && a.speed[i].Finite? ==>
              TargetAt(a, i).groundspeedKts == Finite(a.speed[i].value * 1.943844492)
    ensures i < |a.verticalSpeed| ==> TargetAt(a, i).verticalSpeedFpm == a.verticalSpeed[i]
    ensures i < |a.track| ==> TargetAt(a, i).track == a.track[i]
    ensures i < |a.heading| ==> TargetAt(a, i).heading == a.heading[i]
    ensures TargetAt(a, i).callsign == Record(a.flightId, i, 8) && TargetAt(a, i).icaoType == Record(a.icaoType, i, 8)
  {}

  /** Neither rolling nor climbing too fast, and then within ten metres of the ground;
      only where the height is not known do the wheels decide. */
  lemma OnGroundMeans(a: Arrays, i: nat, knots: real, climb: real)
    requires i < |a.speed| && a.speed[i].Finite? && i < |a.verticalSpeed| && a.verticalSpeed[i] == Finite(climb)
    requires knots == a.speed[i].value * 1.943844492
    ensures TargetAt(a, i).onGround <==>
              && knots <= 200.0 && -1000.0 <= climb <= 1000.0
              && (if i < |a.height| && a.height[i].Finite? then a.height[i].value < 10.0
                  else i < |a.weightOnWheels| && a.weightOnWheels[i] != 0)
  {}

  /** What is kept is within the bounds, what is not is out of one: height is judged first. */
  lemma BoundsMean(a: Arrays, own: Own, bounds: Bounds, distance: Distance, i: nat, feet: real)
    requires Populated(a, i) && i < |a.elevation| && a.elevation[i].Finite?
    requires feet == a.elevation[i].value * 3.280839895
    ensures var high := feet - own.altFt > bounds.verticalFt || own.altFt - feet > bounds.verticalFt;
            var away := distance(own.lat, own.lon, At(a.lat, i).value, At(a.lon, i).value);
            Judge(a, own, bounds, distance, i)
            == if high then High else if away > bounds.radiusNm then Far else Near
  {}

  /** Nearest first, and of two as near the one from the lower slot. */
  predicate NearestFirst(s: seq<Scored>) {
    forall i, j :: 0 <= i < j < |s| ==>
      s[i].distance < s[j].distance || (s[i].distance == s[j].distance && s[i].slot < s[j].slot)
  }

  lemma {:induction false} InsertKeepsElements(s: seq<Scored>, x: Scored)
    ensures multiset(Insert(s, x)) == multiset(s) + multiset{x}
  {
    if s != [] && s[|s| - 1].distance > x.distance {
      var front, last := s[..|s| - 1], s[|s| - 1];
      InsertKeepsElements(front, x);
      assert s == front + [last];
    }
  }

  lemma {:induction false} SortedKeepsElements(s: seq<Scored>)
    ensures multiset(Sorted(s)) == multiset(s)
  {
    if s != [] {
      var front, last := s[..|s| - 1], s[|s| - 1];
      SortedKeepsElements(front);
      InsertKeepsElements(Sorted(front), last);
      assert s == front + [last];
    }
  }

  lemma {:induction false} InsertIsNearestFirst(s: seq<Scored>, x: Scored)
    requires NearestFirst(s) && forall k :: 0 <= k < |s| ==> s[k].slot < x.slot
    ensures NearestFirst(Insert(s, x))
  {
    if s != [] && s[|s| - 1].distance > x.distance {
      var front, last := s[..|s| - 1], s[|s| - 1];
      InsertIsNearestFirst(front, x);
      InsertKeepsElements(front, x);
      var r := Insert(front, x);
      forall k | 0 <= k < |r|
        ensures r[k].distance < last.distance || (r[k].distance == last.distance && r[k].slot < last.slot)
      {
        assert r[k] in multiset(r);
        assert r[k] in front || r[k] == x;
      }
    }
  }

  lemma {:induction false} SortedIsNearestFirst(s: seq<Scored>)
    requires forall j, k :: 0 <= j < k < |s| ==> s[j].slot < s[k].slot
    ensures NearestFirst(Sorted(s))
  {
    if s != [] {
      var front, last := s[..|s| - 1], s[|s| - 1];
      SortedIsNearestFirst(front);
      SortedKeepsElements(front);
      var r := Sorted(front);
      forall k | 0 <= k < |r|
        ensures r[k].slot < last.slot
      {
        assert r[k] in multiset(r);
        assert r[k] in front;
      }
      InsertIsNearestFirst(r, last);
    }
  }

  lemma {:induction false} JudgedMembers(slots: seq<nat>, judge: nat -> Verdict, v: Verdict, i: nat)
    ensures i in Judged(slots, judge, v) <==> i in slots && judge(i) == v
  {
    if slots != [] {
      var front, last := slots[..|slots| - 1], slots[|slots| - 1];
      JudgedMembers(front, judge, v, i);
      assert i in slots <==> i in front || i == last;
    }
  }

  predicate Rising(slots: seq<nat>) {
    forall j, k :: 0 <= j < k < |slots| ==> slots[j] < slots[k]
  }

  lemma {:induction false} JudgedInOrder(slots: seq<nat>, judge: nat -> Verdict, v: Verdict)
    requires Rising(slots)
    ensures Rising(Judged(slots, judge, v))
  {
    if slots != [] {
      var front, last := slots[..|slots| - 1], slots[|slots| - 1];
      var before := Judged(front, judge, v);
      assert forall j :: 0 <= j < |front| ==> front[j] < last;
      JudgedInOrder(front, judge, v);
      forall k | 0 <= k < |before|
        ensures before[k] < last
      {
        JudgedMembers(front, judge, v, before[k]);
      }
      RisingMore(before, last);
    }
  }

  lemma RisingMore(slots: seq<nat>, last: nat)
    requires Rising(slots) && forall k :: 0 <= k < |slots| ==> slots[k] < last
    ensures Rising(slots + [last])
  {}

  lemma {:induction false} JudgedCounts(slots: seq<nat>, judge: nat -> Verdict)
    ensures CountIn(slots, judge, High) + CountIn(slots, judge, Far)
            + CountIn(slots, judge, Near) == |slots|
  {
    if slots != [] {
      JudgedCounts(slots[..|slots| - 1], judge);
    }
  }

  /** Every slot seen is kept, or dropped for its height, its range or the cap; and
      the picture is truncated exactly when the cap dropped something. */
  lemma EveryTargetIsAccountedFor(a: Arrays, own: Own, bounds: Bounds, distance: Distance, count: int)
    ensures var c, found := Account(a, own, bounds, distance, count), Nearest(a, own, bounds, distance, count);
            && c.seen == |Kept(found, bounds.maxTargets)| + c.droppedRange + c.droppedVertical + c.droppedCap
            && (c.droppedCap > 0 <==> Capped(|found|, bounds.maxTargets))
            && (bounds.maxTargets > 0 ==> |Kept(found, bounds.maxTargets)| <= bounds.maxTargets)
  {
    JudgedCounts(Seen(a, count, TCAS_SLOTS), Judging(a, own, bounds, distance));
  }

  /** The targets found are the populated slots that were seen and are in bounds,
      each once and never slot 0, nearest first; the lower slot first of two as near. */
  lemma FoundAreTheNearest(a: Arrays, own: Own, bounds: Bounds, distance: Distance, count: int, i: nat)
    ensures var found := Nearest(a, own, bounds, distance, count);
            && NearestFirst(found)
            && (Score(a, own, distance, i) in found
                <==> i in Seen(a, count, TCAS_SLOTS) && Judge(a, own, bounds, distance, i) == Near)
            && forall k :: 0 <= k < |found| ==> found[k].slot >= 1 && found[k] == Score(a, own, distance, found[k].slot)
  {
    var seen, judge := Seen(a, count, TCAS_SLOTS), Judging(a, own, bounds, distance);
    var slots := Judged(seen, judge, Near);
    JudgedInOrder(seen, judge, Near);
    JudgedMembers(seen, judge, Near, i);
    SortedScores(a, own, distance, slots, i);
    JudgedArePositive(seen, judge, Near);
  }

  lemma JudgedArePositive(seen: seq<nat>, judge: nat -> Verdict, v: Verdict)
    requires forall k :: 0 <= k < |seen| ==> seen[k] >= 1
    ensures forall i :: i in Judged(seen, judge, v) ==> i >= 1
  {
    forall i | i in Judged(seen, judge, v)
      ensures i >= 1
    {
      JudgedMembers(seen, judge, v, i);
    }
  }

  lemma SortedScores(a: Arrays, own: Own, distance: Distance, slots: seq<nat>, i: nat)
    requires Rising(slots)
    ensures var sorted := Sorted(Scores(a, own, distance, slots));
            && NearestFirst(sorted)
            && (Score(a, own, distance, i) in sorted <==> i in slots)
            && forall k :: 0 <= k < |sorted| ==>
                 sorted[k].slot in slots && sorted[k] == Score(a, own, distance, sorted[k].slot)
  {
    var scores := Scores(a, own, distance, slots);
    var sorted := Sorted(scores);
    SortedIsNearestFirst(scores);
    SortedKeepsElements(scores);
    ScoresMembers(a, own, distance, slots, i);
    SameElements(sorted, scores, Score(a, own, distance, i));
    forall k | 0 <= k < |sorted|
      ensures sorted[k].slot in slots && sorted[k] == Score(a, own, distance, sorted[k].slot)
    {
      SameElements(sorted, scores, sorted[k]);
      IsItsScore(a, own, distance, slots, sorted[k]);
    }
  }

  lemma IsItsScore(a: Arrays, own: Own, distance: Distance, slots: seq<nat>, x: Scored)
    requires x in Scores(a, own, distance, slots)
    ensures x.slot in slots && x == Score(a, own, distance, x.slot)
  {
    var j :| 0 <= j < |slots| && Scores(a, own, distance, slots)[j] == x;
    assert x.slot == slots[j];
  }

  lemma SameElements(some: seq<Scored>, other: seq<Scored>, x: Scored)
    requires multiset(some) == multiset(other)
    ensures x in some <==> x in other
  {
    assert x in some <==> x in multiset(some);
    assert x in other <==> x in multiset(other);
  }

  lemma ScoresMembers(a: Arrays, own: Own, distance: Distance, slots: seq<nat>, i: nat)
    ensures Score(a, own, distance, i) in Scores(a, own, distance, slots) <==> i in slots
  {
    if i in slots {
      HasItsScore(a, own, distance, slots, i);
    }
    if Score(a, own, distance, i) in Scores(a, own, distance, slots) {
      IsItsScore(a, own, distance, slots, Score(a, own, distance, i));
    }
  }

  lemma HasItsScore(a: Arrays, own: Own, distance: Distance, slots: seq<nat>, i: nat)
    requires i in slots
    ensures Score(a, own, distance, i) in Scores(a, own, distance, slots)
  {
    var k :| 0 <= k < |slots| && slots[k] == i;
    assert Scores(a, own, distance, slots)[k] == Score(a, own, distance, i);
  }

  /** No target the cap dropped is nearer than one that was kept. */
  lemma NothingNearerIsDropped(a: Arrays, own: Own, bounds: Bounds, distance: Distance, count: int, kept: nat,
                               dropped: nat)
    requires var found := Nearest(a, own, bounds, distance, count);
             kept < |Kept(found, bounds.maxTargets)| <= dropped < |found|
    ensures var found := Nearest(a, own, bounds, distance, count);
            Kept(found, bounds.maxTargets)[kept] == found[kept] && found[kept].distance <= found[dropped].distance
  {
    FoundAreTheNearest(a, own, bounds, distance, count, 0);
  }

  // -------------------------------------------------------------- who is seen

  /** The populated slots below `upTo`, from slot 1 on. */
  function AllPopulated(a: Arrays, upTo: nat): seq<nat> {
    if upTo <= 1 then [] else AllPopulated(a, upTo - 1) + if Populated(a, upTo - 1) then [upTo - 1] else []
  }

  lemma {:induction false} AllPopulatedMembers(a: Arrays, upTo: nat, i: nat)
    ensures i in AllPopulated(a, upTo) <==> 1 <= i < upTo && Populated(a, i)
  {
    if upTo > 1 {
      AllPopulatedMembers(a, upTo - 1, i);
    }
  }

  /** The scan sees the first populated slots, up to the count when it is positive. */
  lemma {:induction false} SeenIsAPrefix(a: Arrays, count: int, upTo: nat)
    ensures var all := AllPopulated(a, upTo);
            Seen(a, count, upTo) == if count > 0 && |all| > count then all[..count] else all
  {
    if upTo > 1 {
      SeenIsAPrefix(a, count, upTo - 1);
    }
  }

  /** Every populated slot is seen exactly when the count is not positive or covers them all. */
  lemma WhenEverySlotIsSeen(a: Arrays, count: int)
    ensures (forall i: nat :: 1 <= i < TCAS_SLOTS && Populated(a, i) ==> i in Seen(a, count, TCAS_SLOTS))
            <==> count <= 0 || |AllPopulated(a, TCAS_SLOTS)| <= count
  {
    var all, upTo := AllPopulated(a, TCAS_SLOTS), TCAS_SLOTS;
    SeenIsAPrefix(a, count, upTo);
    forall i: nat
      ensures i in all <==> 1 <= i < TCAS_SLOTS && Populated(a, i)
    {
      AllPopulatedMembers(a, upTo, i);
    }
    if count > 0 && |all| > count {
      AllPopulatedRise(a, upTo);
      var missed := all[count];
      assert missed in all && missed !in all[..count];
    }
  }

  lemma {:induction false} AllPopulatedRise(a: Arrays, upTo: nat)
    ensures Rising(AllPopulated(a, upTo))
  {
    if upTo > 1 {
      var before := AllPopulated(a, upTo - 1);
      AllPopulatedRise(a, upTo - 1);
      forall k | 0 <= k < |before|
        ensures before[k] < upTo - 1
      {
        AllPopulatedMembers(a, upTo - 1, before[k]);
      }
      RisingMore(before, upTo - 1);
      assert AllPopulated(a, upTo) == before || AllPopulated(a, upTo) == before + [upTo - 1];
    }
  }

  /** A record's text is printable, no longer than its slot, and does not end in a space. */
  lemma RecordIsClean(blob: string, index: int, width: int)
    ensures var r := Record(blob, index, width);
            && (forall i :: 0 <= i < |r| ==> Printable(r[i])) && (r != "" ==> r[|r| - 1] != ' ')
            && (|r| == 0 || |r| <= width)
  {}
}
