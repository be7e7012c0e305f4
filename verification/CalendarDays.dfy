/** The working-day calendar of pkg/controller/calendar/util.go: days that fit, offsets that
    skip the days that do not, and the hours in which a pipeline may start.

    An instant is a number of nanoseconds since the epoch. The zone is a fixed number of
    hours, and a skipped date is the number of its day since the epoch. */
module CalendarDays {
  import opened Prelude

  const SECOND: int := 1_000_000_000
  const HOUR: int := 3600 * SECOND
  const DAY: int := 24 * HOUR

  datatype WeekdayRange = WeekdayRange(first: int, last: int)

  datatype Days = Days(weekdays: seq<WeekdayRange>, skip: seq<int>)

  /** A time offset after parsing: a duration and an optional minute of the day. */
  datatype Offset = NoOffset | BadOffset | Offset(duration: int, clock: Clock)

  datatype Clock = KeepClock | BadClock | At(hour: int, minute: int)

  function DayOf(local: int): int {
    local / DAY
  }

  function TimeOfDay(local: int): int {
    local % DAY
  }

  // The epoch was a Thursday, and Sunday is day 0 of the week.
  function Weekday(day: int): int {
    (day + 4) % 7
  }

  predicate Everyday(d: Days) {
    d.weekdays == [] && d.skip == []
  }

  predicate WeekdayAllowed(d: Days, w: int) {
    exists r | r in d.weekdays :: r.first <= w <= r.last
  }

  predicate Fits(d: Days, day: int) {
    Everyday(d) || (WeekdayAllowed(d, Weekday(day)) && day !in d.skip)
  }

  /** Without an allowed weekday the search for a fitting day never ends. */
  predicate Feasible(d: Days) {
    Everyday(d) || exists w | 0 <= w < 7 :: WeekdayAllowed(d, w)
  }

  // ------------------------------------------------------------------ termination

  ghost function AnyWeekday(d: Days): (w: int)
    requires Feasible(d) && !Everyday(d)
    ensures 0 <= w < 7 && WeekdayAllowed(d, w)
  {
    var w :| 0 <= w < 7 && WeekdayAllowed(d, w); w
  }

  ghost function SkipsFrom(d: Days, w: int, day: int): set<int> {
    set x | x in d.skip && x >= day && Weekday(x) == w
  }

  ghost function SkipsUpTo(d: Days, w: int, day: int): set<int> {
    set x | x in d.skip && x <= day && Weekday(x) == w
  }

  /** How many days the search forward can still take: the skipped days that fall on one
      allowed weekday, a week for each, and the rest of the current week. */
  ghost function SlackForward(d: Days, day: int): nat
    requires Feasible(d)
  {
    if Everyday(d) then 0 else
    var w := AnyWeekday(d);
    7 * |SkipsFrom(d, w, day)| + (w - Weekday(day)) % 7
  }

  ghost function SlackBackward(d: Days, day: int): nat
    requires Feasible(d)
  {
    if Everyday(d) then 0 else
    var w := AnyWeekday(d);
    7 * |SkipsUpTo(d, w, day)| + (Weekday(day) - w) % 7
  }

  lemma WeekdayDistance(w: int, day: int)
    requires 0 <= w < 7
    ensures Weekday(day) == w ==> (w - Weekday(day + 1)) % 7 == 6 && (Weekday(day - 1) - w) % 7 == 6
    ensures Weekday(day) != w ==> (w - Weekday(day + 1)) % 7 == (w - Weekday(day)) % 7 - 1
    ensures Weekday(day) != w ==> (Weekday(day - 1) - w) % 7 == (Weekday(day) - w) % 7 - 1
  {
    assert Weekday(day + 1) == if Weekday(day) == 6 then 0 else Weekday(day) + 1;
    assert Weekday(day - 1) == if Weekday(day) == 0 then 6 else Weekday(day) - 1;
  }

  lemma SkipsShrink(d: Days, w: int, day: int)
    ensures day in d.skip && Weekday(day) == w ==>
              && |SkipsFrom(d, w, day + 1)| == |SkipsFrom(d, w, day)| - 1
              && |SkipsUpTo(d, w, day - 1)| == |SkipsUpTo(d, w, day)| - 1
    ensures Weekday(day) != w ==>
              && SkipsFrom(d, w, day + 1) == SkipsFrom(d, w, day)
              && SkipsUpTo(d, w, day - 1) == SkipsUpTo(d, w, day)
  {
    if day in d.skip && Weekday(day) == w {
      assert SkipsFrom(d, w, day + 1) == SkipsFrom(d, w, day) - {day};
      assert SkipsUpTo(d, w, day - 1) == SkipsUpTo(d, w, day) - {day};
    }
  }

  lemma SlackDrops(d: Days, day: int)
    requires Feasible(d) && !Fits(d, day)
    ensures SlackForward(d, day + 1) < SlackForward(d, day)
    ensures SlackBackward(d, day - 1) < SlackBackward(d, day)
  {
    var w := AnyWeekday(d);
    WeekdayDistance(w, day);
    SkipsShrink(d, w, day);
  }

  ghost function DistinctSkips(d: Days): set<int> {
    set x | x in d.skip
  }

  lemma {:induction false} SlackBounded(d: Days, day: int)
    requires Feasible(d)
    ensures SlackForward(d, day) < 7 * (|DistinctSkips(d)| + 1)
    ensures SlackBackward(d, day) < 7 * (|DistinctSkips(d)| + 1)
  {
    if !Everyday(d) {
      var w := AnyWeekday(d);
      SubsetSize(SkipsFrom(d, w, day), DistinctSkips(d));
      SubsetSize(SkipsUpTo(d, w, day), DistinctSkips(d));
    }
  }

  // ------------------------------------------------------------------ the nearest fitting day

  lemma NextDay(local: int)
    ensures DayOf(local + DAY) == DayOf(local) + 1 && TimeOfDay(local + DAY) == TimeOfDay(local)
  {
  }

  function FitsInForward(local: int, d: Days): (r: int)
    requires Feasible(d)
    ensures TimeOfDay(r) == TimeOfDay(local) && Fits(d, DayOf(r))
    ensures DayOf(local) <= DayOf(r) <= DayOf(local) + SlackForward(d, DayOf(local))
    ensures forall day :: DayOf(local) <= day < DayOf(r) ==> !Fits(d, day)
    decreases SlackForward(d, DayOf(local))
  {
    if Fits(d, DayOf(local)) then local
    else
      SlackDrops(d, DayOf(local));
      NextDay(local);
      FitsInForward(local + DAY, d)
  }

  function FitsInBackward(local: int, d: Days): (r: int)
    requires Feasible(d)
    ensures TimeOfDay(r) == TimeOfDay(local) && Fits(d, DayOf(r))
    ensures DayOf(local) - SlackBackward(d, DayOf(local)) <= DayOf(r) <= DayOf(local)
    ensures forall day :: DayOf(r) < day <= DayOf(local) ==> !Fits(d, day)
    decreases SlackBackward(d, DayOf(local))
  {
    if Fits(d, DayOf(local)) then local
    else
      SlackDrops(d, DayOf(local));
      NextDay(local - DAY);
      FitsInBackward(local - DAY, d)
  }

  /** The search moves less than 7 * (distinct skipped days + 1) days in either direction. */
  lemma SearchIsShort(local: int, d: Days)
    requires Feasible(d)
    ensures DayOf(FitsInForward(local, d)) - DayOf(local) < 7 * (|DistinctSkips(d)| + 1)
    ensures DayOf(local) - DayOf(FitsInBackward(local, d)) < 7 * (|DistinctSkips(d)| + 1)
  {
    SlackBounded(d, DayOf(local));
  }

  /** Why feasibility is demanded: without an allowed weekday no day fits, and neither search has an
      answer to give; with one, there is always a day ahead, however many are skipped. */
  lemma FeasibleIsExact(d: Days, day: int)
    ensures Feasible(d) <==> exists later :: later >= day && Fits(d, later)
  {
    if Feasible(d) {
      var local := FitsInForward(day * DAY, d);
      assert DayOf(day * DAY) == day;
      assert DayOf(local) >= day && Fits(d, DayOf(local));
    } else {
      forall later ensures !Fits(d, later) {
        assert 0 <= Weekday(later) < 7;
      }
    }
  }

  // ------------------------------------------------------------------ offsets

  function Advance(local: int, duration: int, d: Days): int
    requires Feasible(d)
    decreases duration
  {
    if duration <= 0 then local
    else
      Advance(FitsInForward(local + (if duration > DAY then DAY else duration), d), duration - DAY, d)
  }

  function Retreat(local: int, duration: int, d: Days): int
    requires Feasible(d)
    decreases -duration
  {
    if duration >= 0 then local
    else
      Retreat(FitsInBackward(local + (if duration < -DAY then -DAY else duration), d), duration + DAY, d)
  }

  function Shift(local: int, duration: int, d: Days): int
    requires Feasible(d)
  {
    if duration > 0 then Advance(local, duration, d) else Retreat(local, duration, d)
  }

  function GetTimeWithOffset(t: int, offset: Offset, zone: int, d: Days): Result<int>
    requires Feasible(d)
  {
    match offset
    case NoOffset => Ok(t)
    case BadOffset => Err
    case Offset(duration, clock) =>
      var local := Shift(t + zone * HOUR, duration, d);
      match clock
      case KeepClock => Ok(local - zone * HOUR)
      case BadClock => Err
      case At(hour, minute) => Ok(DayOf(local) * DAY + hour * HOUR + minute * 60 * SECOND - zone * HOUR)
  }

  /** The loops of the original, which move at most one day at a time. */
  method MoveForward(start: int, amount: int, d: Days) returns (local: int)
    requires Feasible(d) && amount > 0
    ensures local == Advance(start, amount, d)
  {
    hide FitsInForward;
    local := start;
    var duration := amount;
    while duration > 0
      invariant Advance(local, duration, d) == Advance(start, amount, d)
    {
      local := if duration > DAY then local + DAY else local + duration;
      local := FitsInForward(local, d);
      duration := duration - DAY;
    }
  }

  method MoveBackward(start: int, amount: int, d: Days) returns (local: int)
    requires Feasible(d) && amount <= 0
    ensures local == Retreat(start, amount, d)
  {
    hide FitsInBackward;
    local := start;
    var duration := amount;
    while duration < 0
      invariant Retreat(local, duration, d) == Retreat(start, amount, d)
      decreases -duration
    {
      local := if duration < -DAY then local - DAY else local + duration;
      local := FitsInBackward(local, d);
      duration := duration + DAY;
    }
  }

  method ComputeTimeWithOffset(t: int, offset: Offset, zone: int, d: Days) returns (when: Result<int>)
    requires Feasible(d)
    ensures when == GetTimeWithOffset(t, offset, zone, d)
  {
    hide FitsInForward, FitsInBackward, Feasible, Advance, Retreat;
    if offset.NoOffset? {
      return Ok(t);
    }
    if offset.BadOffset? {
      return Err;
    }
    var local := t + zone * HOUR;
    if offset.duration > 0 {
      local := MoveForward(local, offset.duration, d);
    } else {
      local := MoveBackward(local, offset.duration, d);
    }
    match offset.clock
    case KeepClock => return Ok(local - zone * HOUR);
    case BadClock => return Err;
    case At(hour, minute) =>
      return Ok(DayOf(local) * DAY + hour * HOUR + minute * 60 * SECOND - zone * HOUR);
  }

  // ------------------------------------------------------------------ the cut timeline

  /** Fitting days in [lo, hi). */
  ghost function FittingDays(d: Days, lo: int, hi: int): nat
    requires lo <= hi
    decreases hi - lo
  {
    if lo == hi then 0
    else FittingDays(d, lo, hi - 1) + (if Fits(d, hi - 1) then 1 else 0)
  }

  lemma {:induction false} FittingDaysSplit(d: Days, lo: int, mid: int, hi: int)
    requires lo <= mid <= hi
    ensures FittingDays(d, lo, hi) == FittingDays(d, lo, mid) + FittingDays(d, mid, hi)
    decreases hi - mid
  {
    if mid < hi {
      FittingDaysSplit(d, lo, mid, hi - 1);
    }
  }

  /** The number of a day once the days that do not fit are cut out; day 0 is the origin. */
  ghost function Ordinal(d: Days, day: int): int {
    if day >= 0 then FittingDays(d, 0, day) else 0 - FittingDays(d, day, 0)
  }

  lemma OrdinalSpan(d: Days, lo: int, hi: int)
    requires lo <= hi
    ensures Ordinal(d, hi) - Ordinal(d, lo) == FittingDays(d, lo, hi)
  {
    if 0 <= lo {
      FittingDaysSplit(d, 0, lo, hi);
    } else if hi < 0 {
      FittingDaysSplit(d, lo, hi, 0);
    } else {
      FittingDaysSplit(d, lo, 0, hi);
    }
  }

  lemma {:induction false} NoFittingDays(d: Days, lo: int, hi: int)
    requires lo <= hi && forall day :: lo <= day < hi ==> !Fits(d, day)
    ensures FittingDays(d, lo, hi) == 0
    decreases hi - lo
  {
    if lo < hi {
      NoFittingDays(d, lo, hi - 1);
    }
  }

  /** The position of an instant on the timeline with the non-fitting days cut out. */
  ghost function WorkPosition(d: Days, local: int): int {
    Ordinal(d, DayOf(local)) * DAY + TimeOfDay(local)
  }

  lemma ForwardKeepsPosition(local: int, d: Days)
    requires Feasible(d)
    ensures Ordinal(d, DayOf(FitsInForward(local, d))) == Ordinal(d, DayOf(local))
  {
    var r := FitsInForward(local, d);
    NoFittingDays(d, DayOf(local), DayOf(r));
    OrdinalSpan(d, DayOf(local), DayOf(r));
  }

  lemma BackwardPosition(local: int, d: Days)
    requires Feasible(d)
    ensures var r := FitsInBackward(local, d);
            Ordinal(d, DayOf(r)) + 1 == Ordinal(d, DayOf(local) + 1)
  {
    var r := FitsInBackward(local, d);
    NoFittingDays(d, DayOf(r) + 1, DayOf(local) + 1);
    OrdinalSpan(d, DayOf(r) + 1, DayOf(local) + 1);
    OrdinalSpan(d, DayOf(r), DayOf(r) + 1);
    assert FittingDays(d, DayOf(r), DayOf(r) + 1) == FittingDays(d, DayOf(r), DayOf(r)) + 1;
  }

  lemma NextOrdinal(d: Days, day: int)
    ensures Ordinal(d, day + 1) == Ordinal(d, day) + (if Fits(d, day) then 1 else 0)
  {
    OrdinalSpan(d, day, day + 1);
    assert FittingDays(d, day, day + 1) == FittingDays(d, day, day) + (if Fits(d, day) then 1 else 0);
  }

  lemma DayStep(local: int, step: int)
    requires -DAY <= step <= DAY
    ensures var clock := TimeOfDay(local) + step;
            var carry := if clock < 0 then -1 else if clock < DAY then 0 else 1;
            DayOf(local + step) == DayOf(local) + carry && TimeOfDay(local + step) == clock - carry * DAY
  {
    assert local == DayOf(local) * DAY + TimeOfDay(local);
  }

  lemma OneStepForward(local: int, step: int, d: Days)
    requires Feasible(d) && Fits(d, DayOf(local)) && 0 < step <= DAY
    ensures WorkPosition(d, FitsInForward(local + step, d)) == WorkPosition(d, local) + step
  {
    hide FitsInForward, Ordinal, Feasible, Fits, DayOf;
    var day, clock := DayOf(local), TimeOfDay(local);
    DayStep(local, step);
    NextOrdinal(d, day);
    ForwardKeepsPosition(local + step, d);
    var r := FitsInForward(local + step, d);
    assert clock + step < DAY ==> Ordinal(d, DayOf(r)) == Ordinal(d, day);
    assert clock + step >= DAY ==> Ordinal(d, DayOf(r)) == Ordinal(d, day) + 1;
  }

  lemma OneStepBackward(local: int, step: int, d: Days)
    requires Feasible(d) && Fits(d, DayOf(local)) && -DAY <= step < 0
    ensures WorkPosition(d, FitsInBackward(local + step, d)) == WorkPosition(d, local) + step
  {
    hide FitsInBackward, Ordinal, Feasible, Fits, DayOf;
    var day, clock := DayOf(local), TimeOfDay(local);
    DayStep(local, step);
    NextOrdinal(d, day);
    BackwardPosition(local + step, d);
    var r := FitsInBackward(local + step, d);
    assert clock + step >= 0 ==> Ordinal(d, DayOf(r)) == Ordinal(d, day);
    assert clock + step < 0 ==> Ordinal(d, DayOf(r)) == Ordinal(d, day) - 1;
  }

  lemma {:induction false} AdvanceAdds(local: int, duration: int, d: Days)
    requires Feasible(d) && Fits(d, DayOf(local)) && duration >= 0
    ensures var r := Advance(local, duration, d);
            Fits(d, DayOf(r)) && WorkPosition(d, r) == WorkPosition(d, local) + duration
    decreases duration
  {
    hide FitsInForward, WorkPosition, Feasible, Fits;
    if duration > DAY {
      OneStepForward(local, DAY, d);
      AdvanceAdds(FitsInForward(local + DAY, d), duration - DAY, d);
    } else if duration > 0 {
      OneStepForward(local, duration, d);
    }
  }

  lemma {:induction false} RetreatAdds(local: int, duration: int, d: Days)
    requires Feasible(d) && Fits(d, DayOf(local)) && duration <= 0
    ensures var r := Retreat(local, duration, d);
            Fits(d, DayOf(r)) && WorkPosition(d, r) == WorkPosition(d, local) + duration
    decreases -duration
  {
    if duration < -DAY {
      OneStepBackward(local, -DAY, d);
      RetreatAdds(FitsInBackward(local - DAY, d), duration + DAY, d);
    } else if duration < 0 {
      OneStepBackward(local, duration, d);
    }
  }

  /** Working-time offsets are plain addition once the days off are cut out. */
  lemma OffsetIsAddition(local: int, duration: int, d: Days)
    requires Feasible(d) && Fits(d, DayOf(local))
    ensures var r := Shift(local, duration, d);
            Fits(d, DayOf(r)) && WorkPosition(d, r) == WorkPosition(d, local) + duration
  {
    if duration > 0 {
      AdvanceAdds(local, duration, d);
    } else {
      RetreatAdds(local, duration, d);
    }
  }

  lemma {:induction false} SomeFittingDay(d: Days, lo: int, hi: int)
    requires lo < hi && Fits(d, lo)
    ensures FittingDays(d, lo, hi) > 0
    decreases hi - lo
  {
    if lo + 1 < hi {
      SomeFittingDay(d, lo, hi - 1);
    } else {
      assert FittingDays(d, lo, hi - 1) == 0;
    }
  }

  /** Two instants on fitting days at one position are the same instant. */
  lemma PositionIsUnique(a: int, b: int, d: Days)
    requires Fits(d, DayOf(a)) && Fits(d, DayOf(b))
    requires WorkPosition(d, a) == WorkPosition(d, b)
    ensures a == b
  {
    if DayOf(a) < DayOf(b) {
      SomeFittingDay(d, DayOf(a), DayOf(b));
      OrdinalSpan(d, DayOf(a), DayOf(b));
    } else if DayOf(b) < DayOf(a) {
      SomeFittingDay(d, DayOf(b), DayOf(a));
      OrdinalSpan(d, DayOf(b), DayOf(a));
    }
  }

  /** Offsets of either sign compose; +x then -x comes back. */
  lemma OffsetsCompose(local: int, x: int, y: int, d: Days)
    requires Feasible(d) && Fits(d, DayOf(local))
    ensures Shift(Shift(local, x, d), y, d) == Shift(local, x + y, d)
    ensures Shift(Shift(local, x, d), -x, d) == local
  {
    OffsetIsAddition(local, x, d);
    var once := Shift(local, x, d);
    OffsetIsAddition(once, y, d);
    OffsetIsAddition(local, x + y, d);
    PositionIsUnique(Shift(once, y, d), Shift(local, x + y, d), d);
    OffsetIsAddition(once, -x, d);
    PositionIsUnique(Shift(once, -x, d), local, d);
  }

  lemma SameClock(a: int, x: int, b: int, y: int, n: int)
    requires a * DAY + x == b * DAY + y + n * DAY && 0 <= x < DAY && 0 <= y < DAY
    ensures a == b + n && x == y
  {
    assert (a - b - n) * DAY == y - x;
  }

  /** n whole days ahead is the same time on the n-th later fitting day. */
  lemma WholeDays(local: int, n: nat, d: Days)
    requires Feasible(d) && Fits(d, DayOf(local))
    ensures var r := Shift(local, n * DAY, d);
            && TimeOfDay(r) == TimeOfDay(local) && Fits(d, DayOf(r))
            && DayOf(local) <= DayOf(r) && FittingDays(d, DayOf(local), DayOf(r)) == n
  {
    hide Shift, Ordinal, Feasible, Fits;
    OffsetIsAddition(local, n * DAY, d);
    var r := Shift(local, n * DAY, d);
    SameClock(Ordinal(d, DayOf(r)), TimeOfDay(r), Ordinal(d, DayOf(local)), TimeOfDay(local), n);
    if DayOf(r) < DayOf(local) {
      SomeFittingDay(d, DayOf(r), DayOf(local));
      OrdinalSpan(d, DayOf(r), DayOf(local));
    } else {
      OrdinalSpan(d, DayOf(local), DayOf(r));
    }
  }

  /** With no weekdays and no skipped days an offset is ordinary addition. */
  lemma EverydayOffset(t: int, duration: int, zone: int, d: Days)
    requires Everyday(d)
    ensures GetTimeWithOffset(t, Offset(duration, KeepClock), zone, d) == Ok(t + duration)
  {
    var local := t + zone * HOUR;
    OffsetIsAddition(local, duration, d);
    EverydayOrdinal(d, DayOf(local));
    EverydayOrdinal(d, DayOf(Shift(local, duration, d)));
  }

  lemma {:induction false} EverydayOrdinal(d: Days, day: int)
    requires Everyday(d)
    ensures Ordinal(d, day) == day
    decreases if day < 0 then -day else day
  {
    if day > 0 {
      EverydayOrdinal(d, day - 1);
      NextOrdinal(d, day - 1);
    } else if day < 0 {
      EverydayOrdinal(d, day + 1);
      NextOrdinal(d, day);
    }
  }

  // ------------------------------------------------------------------ offsets in the calendar's zone

  /** Offsets are counted in the zone of the calendar: from a day that fits there, the result is
      plain addition on that zone's timeline with the days off cut out. */
  lemma OffsetInZone(t: int, duration: int, zone: int, d: Days)
    requires Feasible(d)
    ensures var r := GetTimeWithOffset(t, Offset(duration, KeepClock), zone, d);
            && r.Ok?
            && (Fits(d, DayOf(t + zone * HOUR)) ==>
                 && Fits(d, DayOf(r.value + zone * HOUR))
                 && WorkPosition(d, r.value + zone * HOUR) == WorkPosition(d, t + zone * HOUR) + duration)
            && (duration != 0 ==> Fits(d, DayOf(r.value + zone * HOUR)))
            && (duration == 0 ==> r.value == t)
  {
    hide Advance, Retreat, Fits, WorkPosition, Feasible;
    var local := t + zone * HOUR;
    if Fits(d, DayOf(local)) {
      OffsetIsAddition(local, duration, d);
    }
    if duration != 0 {
      var m := FirstStep(local, duration, d);
    } else {
      NoShift(local, d);
    }
  }

  lemma NoShift(local: int, d: Days)
    requires Feasible(d)
    ensures Shift(local, 0, d) == local
  {
  }

  /** m is the nearest fitting day from x on, in the direction of the offset, at the same time of day. */
  ghost predicate Lands(d: Days, x: int, m: int, forward: bool) {
    && Fits(d, DayOf(m)) && TimeOfDay(m) == TimeOfDay(x)
    && (if forward then DayOf(x) <= DayOf(m) else DayOf(m) <= DayOf(x))
    && forall day :: (if forward then DayOf(x) <= day < DayOf(m) else DayOf(m) < day <= DayOf(x)) ==> !Fits(d, day)
  }

  /** At most a day at a time. */
  function OneDayOf(duration: int): int {
    if duration > DAY then DAY else if duration < -DAY then -DAY else duration
  }

  lemma FirstStep(local: int, duration: int, d: Days) returns (m: int)
    requires Feasible(d) && duration != 0
    ensures Lands(d, local + OneDayOf(duration), m, duration > 0)
    ensures var r := Shift(local, duration, d);
            Fits(d, DayOf(r)) && WorkPosition(d, r) == WorkPosition(d, m) + duration - OneDayOf(duration)
  {
    hide Fits, WorkPosition, Feasible, Advance, Retreat;
    var x := local + OneDayOf(duration);
    if duration > 0 {
      m := FitsInForward(x, d);
      AdvanceOnce(local, duration, d);
      AdvanceAdds(m, duration - OneDayOf(duration), d);
    } else {
      m := FitsInBackward(x, d);
      RetreatOnce(local, duration, d);
      RetreatAdds(m, duration - OneDayOf(duration), d);
    }
  }

  lemma AdvanceOnce(local: int, duration: int, d: Days)
    requires Feasible(d) && duration > 0
    ensures Advance(local, duration, d) == Advance(FitsInForward(local + OneDayOf(duration), d), duration - OneDayOf(duration), d)
  {
    hide FitsInForward, Feasible;
    if duration <= DAY {
      var m := FitsInForward(local + duration, d);
      assert Advance(m, duration - DAY, d) == m == Advance(m, 0, d);
    }
  }

  lemma RetreatOnce(local: int, duration: int, d: Days)
    requires Feasible(d) && duration < 0
    ensures Retreat(local, duration, d) == Retreat(FitsInBackward(local + OneDayOf(duration), d), duration - OneDayOf(duration), d)
  {
    hide FitsInBackward, Feasible;
    if duration >= -DAY {
      var m := FitsInBackward(local + duration, d);
      assert Retreat(m, duration + DAY, d) == m == Retreat(m, 0, d);
    }
  }

  /** From any day: the first day's worth of an offset is added as it is and then moved to the nearest
      fitting day, the rest is plain addition with the days off cut out. This settles the result. */
  lemma OffsetFromAnyDay(t: int, duration: int, zone: int, d: Days, m: int, u: int)
    requires Feasible(d) && duration != 0 && Lands(d, t + zone * HOUR + OneDayOf(duration), m, duration > 0)
    ensures GetTimeWithOffset(t, Offset(duration, KeepClock), zone, d) == Ok(u) <==>
              && Fits(d, DayOf(u + zone * HOUR))
              && WorkPosition(d, u + zone * HOUR) == WorkPosition(d, m) + duration - OneDayOf(duration)
  {
    hide Advance, Retreat, Fits, WorkPosition, Feasible, Shift;
    var local := t + zone * HOUR;
    var n := FirstStep(local, duration, d);
    LandsOnce(d, local + OneDayOf(duration), m, n, duration > 0);
    var r := Shift(local, duration, d);
    if Fits(d, DayOf(u + zone * HOUR)) && WorkPosition(d, u + zone * HOUR) == WorkPosition(d, r) {
      PositionIsUnique(u + zone * HOUR, r, d);
    }
  }

  lemma LandsOnce(d: Days, x: int, m: int, n: int, forward: bool)
    requires Lands(d, x, m, forward) && Lands(d, x, n, forward)
    ensures m == n
  {
    hide Fits;
    assert DayOf(m) == DayOf(n);
    assert m == DayOf(m) * DAY + TimeOfDay(m) && n == DayOf(n) * DAY + TimeOfDay(n);
  }

  /** The clock part moves the time within the day the duration reached, in the calendar's zone;
      what cannot be parsed is an error, and no offset is no change. */
  lemma ClockKeepsDay(t: int, duration: int, hour: int, minute: int, zone: int, d: Days)
    requires Feasible(d) && 0 <= hour < 24 && 0 <= minute < 60
    ensures var r := GetTimeWithOffset(t, Offset(duration, At(hour, minute)), zone, d);
            var kept := GetTimeWithOffset(t, Offset(duration, KeepClock), zone, d);
            && r.Ok? && kept.Ok?
            && DayOf(r.value + zone * HOUR) == DayOf(kept.value + zone * HOUR) == DayOf(Shift(t + zone * HOUR, duration, d))
            && TimeOfDay(r.value + zone * HOUR) == hour * HOUR + minute * 60 * SECOND
            && (duration != 0 ==> Fits(d, DayOf(r.value + zone * HOUR)))
    ensures GetTimeWithOffset(t, NoOffset, zone, d) == Ok(t) && GetTimeWithOffset(t, BadOffset, zone, d).Err?
    ensures GetTimeWithOffset(t, Offset(duration, BadClock), zone, d).Err?
  {
    hide Shift, Fits, WorkPosition, Feasible;
    OffsetInZone(t, duration, zone, d);
  }

  // ------------------------------------------------------------------ days by the calendar

  /** The days of the week follow one another, and the epoch was a Thursday. */
  lemma WeekdaysFollow(day: int)
    ensures Weekday(0) == 4 && 0 <= Weekday(day) < 7 && (Weekday(day) == 6 <==> Weekday(day + 1) == 0)
    ensures Weekday(day) < 6 ==> Weekday(day + 1) == Weekday(day) + 1
  {
  }

  predicate SameDay(a: int, b: int, zone: int) {
    DayOf(a + zone * HOUR) == DayOf(b + zone * HOUR)
  }

  /** A range of weekdays allows its two ends and what lies between, several ranges what any of them
      allows; skipping a day takes away that day and no other. */
  lemma RestrictionsAdd(first: int, last: int, d: Days, e: Days, skipped: int, day: int)
    requires d.weekdays != [] && e.weekdays != [] && d.skip == e.skip
    ensures Fits(Days([WeekdayRange(first, last)], []), day) <==> first <= Weekday(day) <= last
    ensures Fits(Days(d.weekdays + e.weekdays, d.skip), day) <==> Fits(d, day) || Fits(e, day)
    ensures Fits(Days(d.weekdays, d.skip + [skipped]), day) <==> Fits(d, day) && day != skipped
  {
    assert WeekdayRange(first, last) in [WeekdayRange(first, last)];
    assert forall r :: r in d.weekdays + e.weekdays <==> r in d.weekdays || r in e.weekdays;
  }

  /** Two instants are on one day if no midnight of the zone lies between them. */
  lemma SameDayIsLocal(a: int, b: int, zone: int)
    ensures SameDay(a, b, zone) <==>
              forall midnight ::
                !(a + zone * HOUR < midnight * DAY <= b + zone * HOUR) && !(b + zone * HOUR < midnight * DAY <= a + zone * HOUR)
  {
    var x, y := a + zone * HOUR, b + zone * HOUR;
    assert DayOf(x) * DAY <= x < (DayOf(x) + 1) * DAY && DayOf(y) * DAY <= y < (DayOf(y) + 1) * DAY;
    if SameDay(a, b, zone) {
      forall midnight ensures !(x < midnight * DAY <= y) && !(y < midnight * DAY <= x) {
        assert midnight * DAY <= DayOf(x) * DAY || midnight * DAY >= (DayOf(x) + 1) * DAY;
      }
    } else {
      var midnight := if DayOf(x) < DayOf(y) then DayOf(y) else DayOf(x);
      assert x < midnight * DAY <= y || y < midnight * DAY <= x;
    }
  }
}
