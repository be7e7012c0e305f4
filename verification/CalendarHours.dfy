/** inCalendarHours of pkg/controller/calendar/util.go: whether a pipeline may start now, and
    if not, how long to wait. A window opens at hour `first` of every day and closes at hour
    `last`, which lies on the following day when it is 24 or more. */
module CalendarHours {
  import opened CalendarDays

  datatype Window = Window(first: int, last: int)

  function HourOf(local: int): int {
    TimeOfDay(local) / HOUR
  }

  /** The branch of the original that lets a pipeline start. */
  predicate LetsIn(local: int, w: Window) {
    if HourOf(local) < w.first then w.last > 24 && HourOf(local) < w.last - 24
    else HourOf(local) < w.last
  }

  function UntilOpening(local: int, w: Window): int {
    (if HourOf(local) < w.first then 0 else DAY) + w.first * HOUR - TimeOfDay(local)
  }

  function Scan(local: int, windows: seq<Window>, estimate: int): int {
    if windows == [] then estimate
    else if LetsIn(local, windows[0]) then 0
    else
      var e := UntilOpening(local, windows[0]);
      Scan(local, windows[1..], if e < estimate then e else estimate)
  }

  function WaitForHours(t: int, windows: seq<Window>, zone: int): int {
    if windows == [] then 0 else Scan(t + zone * HOUR, windows, DAY)
  }

  method InCalendarHours(t: int, windows: seq<Window>, zone: int) returns (wait: int)
    ensures wait == WaitForHours(t, windows, zone)
  {
    if |windows| == 0 {
      return 0;
    }
    var estimate := DAY;
    var local := t + zone * HOUR;
    for i := 0 to |windows|
      invariant Scan(local, windows[i..], estimate) == Scan(local, windows, DAY)
    {
      assert windows[i..][1..] == windows[i + 1..];
      if HourOf(local) < windows[i].first {
        if windows[i].last > 24 && HourOf(local) < windows[i].last - 24 {
          return 0;
        }
        var e := windows[i].first * HOUR - TimeOfDay(local);
        if e < estimate {
          estimate := e;
        }
      } else {
        if HourOf(local) < windows[i].last {
          return 0;
        }
        var e := DAY + windows[i].first * HOUR - TimeOfDay(local);
        if e < estimate {
          estimate := e;
        }
      }
    }
    return estimate;
  }

  // ------------------------------------------------------------------ what a window means

  function Opens(w: Window, day: int): int {
    day * DAY + w.first * HOUR
  }

  function Closes(w: Window, day: int): int {
    day * DAY + w.last * HOUR
  }

  /** The instant lies in the window some day opens. */
  ghost predicate Inside(local: int, w: Window) {
    exists day :: Opens(w, day) <= local < Closes(w, day)
  }

  ghost predicate InsideAny(local: int, windows: seq<Window>) {
    exists w :: w in windows && Inside(local, w)
  }

  /** The bounds the resource definition puts on both ends of a window. */
  predicate InBounds(w: Window) {
    0 <= w.first <= 47 && 0 <= w.last <= 47
  }

  predicate Proper(w: Window) {
    0 <= w.first <= 23 && w.first < w.last <= 47
  }

  /** Membership in one day's window, counted in whole hours. */
  lemma InsideOn(local: int, w: Window, day: int)
    ensures Opens(w, day) <= local < Closes(w, day)
      <==> w.first <= 24 * (DayOf(local) - day) + HourOf(local) < w.last
  {
    ghost var hours, rest := 24 * (DayOf(local) - day) + HourOf(local), TimeOfDay(local) - HourOf(local) * HOUR;
    assert local == day * DAY + hours * HOUR + rest;
  }

  lemma InsideDays(local: int, w: Window)
    requires InBounds(w)
    ensures var hour, today := HourOf(local), DayOf(local);
            Inside(local, w) <==> w.first <= hour < w.last || w.first <= hour + 24 < w.last
  {
    InsideOn(local, w, DayOf(local));
    InsideOn(local, w, DayOf(local) - 1);
    if Inside(local, w) {
      var day :| Opens(w, day) <= local < Closes(w, day);
      InsideOn(local, w, day);
    }
  }

  /** The test of the original means the window exactly when at most one end of it lies
      beyond midnight: for every other window it lets pipelines start too early. */
  lemma LetsInIsExact(w: Window)
    requires InBounds(w)
    ensures (forall local :: LetsIn(local, w) <==> Inside(local, w)) <==> w.first <= 24 || w.last <= 24
  {
    if w.first <= 24 || w.last <= 24 {
      forall local ensures LetsIn(local, w) <==> Inside(local, w) {
        InsideDays(local, w);
      }
    } else {
      InsideDays(0, w);
      assert HourOf(0) == 0 && LetsIn(0, w) && !Inside(0, w);
    }
  }

  /** Windows that close no later than they open, on the first day, never open: every sync
      is told to wait, at every hour of every day. */
  lemma ClosedWindowsNeverOpen(t: int, windows: seq<Window>, zone: int)
    requires windows != [] && forall w :: w in windows ==> 0 <= w.last <= w.first <= 23
    ensures WaitForHours(t, windows, zone) > 0
  {
    ScanOfClosed(t + zone * HOUR, windows, DAY);
  }

  lemma {:induction false} ScanOfClosed(local: int, windows: seq<Window>, estimate: int)
    requires estimate > 0 && forall w :: w in windows ==> 0 <= w.last <= w.first <= 23
    ensures Scan(local, windows, estimate) > 0
  {
    if windows != [] {
      var e := UntilOpening(local, windows[0]);
      assert e > 0;
      ScanOfClosed(local, windows[1..], if e < estimate then e else estimate);
    }
  }

  // ------------------------------------------------------------------ one wait suffices

  lemma OneOpening(local: int, w: Window)
    requires Proper(w) && !LetsIn(local, w)
    ensures var e := UntilOpening(local, w);
            && 0 < e < DAY && Inside(local + e, w)
            && forall u :: local <= u < local + e ==> !Inside(u, w)
  {
    var e, today := UntilOpening(local, w), DayOf(local);
    var opening := if HourOf(local) < w.first then today else today + 1;
    assert local + e == Opens(w, opening);
    assert Opens(w, opening) < Closes(w, opening);
    forall u | local <= u < local + e ensures !Inside(u, w) {
      if Inside(u, w) {
        var day :| Opens(w, day) <= u < Closes(w, day);
        ClosedBefore(local, w, day, opening);
      }
    }
  }

  lemma ClosedBefore(local: int, w: Window, day: int, opening: int)
    requires Proper(w) && !LetsIn(local, w)
    requires opening == if HourOf(local) < w.first then DayOf(local) else DayOf(local) + 1
    requires Opens(w, day) < Opens(w, opening)
    ensures Closes(w, day) <= local
  {
    assert day <= opening - 1;
    assert Closes(w, day) <= Closes(w, opening - 1);
  }

  ghost predicate FirstOpening(local: int, e: int, windows: seq<Window>) {
    InsideAny(local + e, windows) && forall u :: local <= u < local + e ==> !InsideAny(u, windows)
  }

  lemma {:induction false} ScanFindsFirst(local: int, seen: seq<Window>, windows: seq<Window>, estimate: int)
    requires forall w :: w in seen + windows ==> Proper(w)
    requires forall w :: w in seen ==> !LetsIn(local, w)
    requires 0 < estimate <= DAY
    requires if seen == [] then estimate == DAY else estimate < DAY && FirstOpening(local, estimate, seen)
    requires seen + windows != []
    ensures var wait := Scan(local, windows, estimate);
            && 0 <= wait < DAY
            && (wait == 0 <==> InsideAny(local, seen + windows))
            && FirstOpening(local, wait, seen + windows)
    decreases |windows|
  {
    if windows == [] {
      assert seen + windows == seen;
      assert !InsideAny(local + 0, seen);
    } else {
      var w := windows[0];
      assert w in seen + windows;
      LetsInIsExact(w);
      if LetsIn(local, w) {
        assert w in seen + windows && Inside(local, w);
      } else {
        OneOpening(local, w);
        var e := UntilOpening(local, w);
        var best := if e < estimate then e else estimate;
        assert seen + [w] + windows[1..] == seen + windows;
        forall u | local <= u < local + best ensures !InsideAny(u, seen + [w]) {
          assert !InsideAny(u, seen);
        }
        if e < estimate {
          assert w in seen + [w];
        } else {
          var x :| x in seen && Inside(local + best, x);
          assert x in seen + [w];
        }
        ScanFindsFirst(local, seen + [w], windows[1..], best);
      }
    }
  }

  /** For proper windows the answer is exact: zero just when the instant is inside a window,
      and otherwise the distance to the first instant inside one, less than a day away. */
  lemma WaitIsExact(t: int, windows: seq<Window>, zone: int)
    requires windows != [] && forall w :: w in windows ==> Proper(w)
    ensures var local, wait := t + zone * HOUR, WaitForHours(t, windows, zone);
            && 0 <= wait < DAY
            && (wait == 0 <==> InsideAny(local, windows))
            && FirstOpening(local, wait, windows)
            && WaitForHours(t + wait, windows, zone) == 0
  {
    var local, wait := t + zone * HOUR, WaitForHours(t, windows, zone);
    assert [] + windows == windows;
    ScanFindsFirst(local, [], windows, DAY);
    ScanFindsFirst(local + wait, [], windows, DAY);
  }
}
