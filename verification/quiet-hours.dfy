/**
 Wall-clock times in a time zone, and moving a notification out of quiet hours
 (src/modules/notifications/bill-schedule.ts). Instants and wall times are minutes since 1970-01-01T00:00.
 */
module QuietHours {
  import opened Wrappers
  import opened Calendar

  const DAY := 1440
  const HOUR := 60
  const WALK_BACK := 36 * 60
  const ITERATIONS := 5

  /** A zone whose offset from UTC changes at most once. */
  datatype Zone = Zone(change: int, before: int, after: int)
  {
    function Offset(t: int): int { if t < change then before else after }

    function Wall(t: int): int { t + Offset(t) }
  }

  function HourOf(wall: int): int {
    wall % DAY / HOUR
  }

  function EpochDay(): Date {
    Date(1970, 1, 1)
  }

  /** The date part of a wall time. */
  function DateOf(wall: int): (r: Date)
    ensures Valid(r)
  {
    Shift(EpochDay(), wall / DAY)
  }

  function MidnightOf(date: Date): int
    requires Valid(date)
  {
    DayNumber(date) * DAY
  }

  /** Years below 100 do not survive `Date.UTC`, and ISO dates have four-digit years. */
  predicate ParseIsoDate(date: Date) {
    Valid(date) && 100 <= date.y <= 9999
  }

  lemma DateOfMidnight(wall: int)
    ensures MidnightOf(DateOf(wall)) == wall - wall % DAY
  {
    ShiftMovesDayNumber(EpochDay(), wall / DAY);
    assert DayNumber(EpochDay()) == 0;
  }

  // ------------------------------------------------------------------ solving for an instant

  ghost predicate HasInstant(zone: Zone, wall: int) {
    exists t :: zone.Wall(t) == wall
  }

  /** The only two instants a wall time can have. */
  lemma InstantsAre(zone: Zone, wall: int)
    ensures forall t :: zone.Wall(t) == wall <==>
              (t == wall - zone.before && t < zone.change) || (t == wall - zone.after && t >= zone.change)
  {
  }

  /** Both exist, and the guess `wall` lands on the later side. */
  predicate MissesEarliest(zone: Zone, wall: int) {
    zone.change <= wall && wall - zone.before < zone.change < wall - zone.after
  }

  /** The walk back through a fold, minute by minute: it gets past a later instant only from the change itself. */
  method WalkBack(zone: Zone, wall: int, found: int) returns (earliest: int)
    requires zone.Wall(found) == wall
    ensures zone.Wall(earliest) == wall && earliest <= found
    ensures found != zone.change ==> earliest == found
    ensures found == zone.change && zone.before > zone.after && zone.before - zone.after <= WALK_BACK ==> earliest == wall - zone.before
    ensures found == zone.change && zone.before <= zone.after ==> earliest == found
  {
    earliest := found;
    for minutes := 1 to WALK_BACK + 1
      invariant zone.Wall(earliest) == wall && earliest <= found
      invariant found != zone.change ==> minutes == 1 && earliest == found
      invariant found == zone.change ==>
                  earliest == if found - minutes < wall - zone.before < found then wall - zone.before else found
    {
      var earlier := found - minutes;
      if zone.Wall(earlier) == wall {
        earliest := earlier;
        continue;
      }
      if zone.Wall(earlier) < wall { break; }
    }
  }

  /** Which instant the walk back ends at. */
  lemma EarliestIff(zone: Zone, wall: int, found: int, earliest: int)
    requires zone.Wall(found) == wall && zone.Wall(earliest) == wall && zone.before - zone.after <= WALK_BACK
    requires found == wall - zone.Offset(wall) || zone.Wall(wall - zone.before) != wall || zone.Wall(wall - zone.after) != wall
    requires found != zone.change ==> earliest == found
    requires found == zone.change && zone.before > zone.after ==> earliest == wall - zone.before
    requires found == zone.change && zone.before <= zone.after ==> earliest == found
    ensures (forall t :: zone.Wall(t) == wall ==> earliest <= t) <==> !MissesEarliest(zone, wall)
  {
    if MissesEarliest(zone, wall) {
      assert zone.Wall(wall - zone.before) == wall;
    } else {
      forall t | zone.Wall(t) == wall
        ensures earliest <= t
      {
        InstantsAre(zone, wall);
      }
    }
  }

  /** No answer exactly when the clock skips this time; otherwise an instant that shows it, and nearly always the first. */
  method ZonedWallTime(date: Date, hour: int, zone: Zone) returns (r: Option<int>)
    ensures !(Valid(date) && 100 <= date.y <= 9999 && 0 <= hour <= 23) ==> r == None
    ensures Valid(date) && 100 <= date.y <= 9999 && 0 <= hour <= 23 ==>
              var wall := MidnightOf(date) + hour * HOUR;
              && (r.Some? <==> HasInstant(zone, wall))
              && (r.Some? ==> zone.Wall(r.value) == wall)
              && (r.Some? && zone.before - zone.after <= WALK_BACK ==>
                    ((forall t :: zone.Wall(t) == wall ==> r.value <= t) <==> !MissesEarliest(zone, wall)))
  {
    if !ParseIsoDate(date) || !(0 <= hour <= 23) { return None; }
    var wall := MidnightOf(date) + hour * HOUR;
    r := Solve(zone, wall);
  }

  method Solve(zone: Zone, wall: int) returns (r: Option<int>)
    ensures r.Some? <==> HasInstant(zone, wall)
    ensures r.Some? ==> zone.Wall(r.value) == wall
    ensures r.Some? && zone.before - zone.after <= WALK_BACK ==>
              ((forall t :: zone.Wall(t) == wall ==> r.value <= t) <==> !MissesEarliest(zone, wall))
  {
    InstantsAre(zone, wall);
    var candidate := wall;
    for i := 0 to ITERATIONS
      invariant i == 0 ==> candidate == wall
      invariant i == 1 ==> candidate == wall - zone.Offset(wall)
      invariant i >= 1 ==> candidate == wall - zone.before || candidate == wall - zone.after
      invariant i >= 2 ==> zone.Wall(wall - zone.before) != wall || zone.Wall(wall - zone.after) != wall
      invariant i == 2 && candidate == wall - zone.before ==> zone.Wall(wall - zone.after) != wall
      invariant i == 2 && candidate == wall - zone.after ==> zone.Wall(wall - zone.before) != wall
      invariant i >= 3 ==> zone.Wall(wall - zone.before) != wall && zone.Wall(wall - zone.after) != wall
    {
      var delta := zone.Wall(candidate) - wall;
      if delta == 0 {
        var earliest := WalkBack(zone, wall, candidate);
        if zone.before - zone.after <= WALK_BACK { EarliestIff(zone, wall, candidate, earliest); }
        return Some(earliest);
      }
      candidate := candidate - delta;
    }
    r := None;
  }

  /** A station whose clocks go back two hours, from three to one, on 26 October 2025 (Antarctica/Troll). */
  const TROLL := Zone(MidnightOf(Date(2025, 10, 26)) + HOUR, 2 * HOUR, 0)

  /** Asked for the two o'clock that comes twice that night, the code answers the second one. */
  method TrollTwoOClock() returns (r: Option<int>)
    ensures r.Some? && TROLL.Wall(r.value) == MidnightOf(Date(2025, 10, 26)) + 2 * HOUR
    ensures TROLL.Wall(r.value - 2 * HOUR) == TROLL.Wall(r.value)
  {
    hide DayNumber;
    var wall := MidnightOf(Date(2025, 10, 26)) + 2 * HOUR;
    assert TROLL.Wall(wall) == wall && TROLL.Wall(wall - 2 * HOUR) == wall;
    r := ZonedWallTime(Date(2025, 10, 26), 2, TROLL);
    InstantsAre(TROLL, wall);
    assert MissesEarliest(TROLL, wall);
  }

  // ------------------------------------------------------------------ quiet hours

  datatype Prefs = Prefs(enabled: bool, start: int, end: int)

  predicate InQuietHours(hour: int, start: int, end: int) {
    start != end && if start < end then start <= hour < end else hour >= start || hour < end
  }

  /** The hour the clock shows so many hours after `start`. */
  function HoursOn(start: int, k: int): int {
    (start + k) % 24
  }

  /**
   The quiet hours are those the clock shows on its way from the start hour round to the end hour, over midnight if
   need be; equal hours mean none.
   */
  lemma QuietIsRoundTheClock(hour: int, start: int, end: int)
    requires 0 <= hour <= 23 && 0 <= start <= 23 && 0 <= end <= 23
    ensures InQuietHours(hour, start, end) <==> exists k :: 0 <= k < HoursOn(end, -start) && hour == HoursOn(start, k)
  {
    var span := HoursOn(end, -start);
    assert span == if start <= end then end - start else end - start + 24;
    forall k: int | 0 <= k < span
      ensures HoursOn(start, k) == if start + k < 24 then start + k else start + k - 24
    {
    }
    if InQuietHours(hour, start, end) {
      var k := if hour >= start then hour - start else hour - start + 24;
      assert 0 <= k < span && hour == HoursOn(start, k);
    }
  }

  predicate Quiet(prefs: Prefs, zone: Zone, t: int) {
    prefs.enabled && InQuietHours(HourOf(zone.Wall(t)), prefs.start, prefs.end)
  }

  /** The date on which the quiet window around this wall time ends. */
  function TargetDate(wall: int, prefs: Prefs): Date {
    if prefs.start > prefs.end && HourOf(wall) >= prefs.start then Shift(DateOf(wall), 1) else DateOf(wall)
  }

  function WindowEnd(wall: int, prefs: Prefs): int {
    MidnightOf(TargetDate(wall, prefs)) + prefs.end * HOUR
  }

  /** The start of a wall time's day. */
  function DayStart(wall: int): int {
    wall - wall % DAY
  }

  lemma WindowEndIs(wall: int, prefs: Prefs)
    ensures WindowEnd(wall, prefs) ==
            DayStart(wall) + 60 * prefs.end + if prefs.start > prefs.end && HourOf(wall) >= prefs.start then 1440 else 0
  {
    hide DateOf, DayNumber, Shift, HourOf;
    DateOfMidnight(wall);
    ShiftMovesDayNumber(DateOf(wall), 1);
    assert DayNumber(Shift(DateOf(wall), 1)) * DAY == MidnightOf(DateOf(wall)) + DAY;
  }

  lemma HourWithin(wall: int)
    ensures 0 <= HourOf(wall) <= 23
    ensures DayStart(wall) + 60 * HourOf(wall) <= wall < DayStart(wall) + 60 * HourOf(wall) + 60
  {
  }

  lemma SameDay(wall: int, w: int)
    requires DayStart(wall) <= w < DayStart(wall) + 1440
    ensures DayStart(w) == DayStart(wall)
  {
  }

  lemma NextDay(wall: int, w: int)
    requires DayStart(wall) + 1440 <= w < DayStart(wall) + 2880
    ensures DayStart(w) == DayStart(wall) + 1440
  {
  }

  /** Where a wall time within the next two days falls. */
  lemma DayOf(wall: int, w: int)
    requires DayStart(wall) <= w < DayStart(wall) + 2880
    ensures DayStart(w) == if w < DayStart(wall) + 1440 then DayStart(wall) else DayStart(wall) + 1440
  {
    hide DayStart;
    if w < DayStart(wall) + 1440 { SameDay(wall, w); } else { NextDay(wall, w); }
  }

  /** The window's end is the first wall time after this one that is not quiet. */
  lemma WindowEndsFirst(wall: int, prefs: Prefs, w: int)
    requires InQuietHours(HourOf(wall), prefs.start, prefs.end) && 0 <= prefs.end <= 23
    ensures wall < WindowEnd(wall, prefs)
    ensures !InQuietHours(HourOf(WindowEnd(wall, prefs)), prefs.start, prefs.end)
    ensures wall <= w < WindowEnd(wall, prefs) ==> InQuietHours(HourOf(w), prefs.start, prefs.end)
  {
    hide HourOf, DayStart, WindowEnd;
    var end := WindowEnd(wall, prefs);
    WindowEndIs(wall, prefs);
    HourWithin(wall);
    HourWithin(end);
    DayOf(wall, end);
    if wall <= w < end {
      HourWithin(w);
      DayOf(wall, w);
    }
  }

  /**
   An instant outside quiet hours stays; one inside moves to an instant that shows the end of its window, if the
   clock ever shows it. Every answer is outside quiet hours, so shifting it again changes nothing.
   */
  method ShiftOutOfQuiet(t: int, prefs: Prefs, zone: Zone) returns (r: Option<int>)
    ensures !Quiet(prefs, zone, t) ==> r == Some(t)
    ensures Quiet(prefs, zone, t) ==>
              var wall := zone.Wall(t);
              && (r.Some? <==> 100 <= TargetDate(wall, prefs).y <= 9999 && 0 <= prefs.end <= 23 && HasInstant(zone, WindowEnd(wall, prefs))
                               && (TargetDate(wall, prefs) != DateOf(wall) ==> 100 <= DateOf(wall).y <= 9999))
              && (r.Some? ==> zone.Wall(r.value) == WindowEnd(wall, prefs))
    ensures r.Some? ==> !Quiet(prefs, zone, r.value)
  {
    if !prefs.enabled { return Some(t); }
    var wall := zone.Wall(t);
    if Quiet(prefs, zone, t) && 0 <= prefs.end <= 23 { WindowEndsFirst(wall, prefs, 0); }
    if !InQuietHours(HourOf(wall), prefs.start, prefs.end) { return Some(t); }
    var target := DateOf(wall);
    if prefs.start > prefs.end && HourOf(wall) >= prefs.start {
      if !ParseIsoDate(target) { return None; }
      target := Shift(target, 1);
    }
    r := ZonedWallTime(target, prefs.end, zone);
  }

  /** It never moves back in time, unless the clocks went back between the two instants. */
  lemma ShiftMovesOn(t: int, prefs: Prefs, zone: Zone, r: int)
    requires Quiet(prefs, zone, t) && 0 <= prefs.end <= 23 && zone.Wall(r) == WindowEnd(zone.Wall(t), prefs)
    ensures t < r || (r < zone.change <= t && zone.after < zone.before)
  {
    WindowEndsFirst(zone.Wall(t), prefs, 0);
  }
}
