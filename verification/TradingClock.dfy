/**
 * The calendars of engines/market/trading_clock.py: weekday fallback, snapshot, and the window cache over a fetcher.
 */
module TradingClock {
  import opened Wrappers
  import opened Sessions

  // ---- Weekdays ------------------------------------------------------------------------

  /** Day 0 is a Monday. */
  const WEEKDAYS: Calendar := (d: int) => d % 7 < 5

  class WeekdayCalendar {
    method Normalize(value: int) returns (day: int)
      ensures IsNormal(WEEKDAYS, value, day)
    {
      day := value;
      while day % 7 >= 5
        invariant day <= value && NoneIn(WEEKDAYS, day + 1, value)
        decreases day % 7
      {
        day := day - 1;
      }
    }

    method NextSession(value: int) returns (day: int)
      ensures IsNext(WEEKDAYS, value, day)
    {
      day := value + 1;
      while day % 7 >= 5
        invariant value < day && NoneIn(WEEKDAYS, value + 1, day - 1)
        decreases if day % 7 >= 5 then 7 - day % 7 else 0
      {
        day := day + 1;
      }
    }

    method PreviousSession(value: int) returns (day: int)
      ensures IsPrevious(WEEKDAYS, value, day)
    {
      day := value - 1;
      while day % 7 >= 5
        invariant day < value && NoneIn(WEEKDAYS, day + 1, value - 1)
        decreases day % 7
      {
        day := day - 1;
      }
    }

    method AdvanceSessions(value: int, sessions: int) returns (day: int)
      ensures IsAnswer(WEEKDAYS, value, sessions, day)
    {
      day := Normalize(value);
      ghost var base := day;
      var n := 0;
      while n < (if sessions >= 0 then sessions else -sessions)
        invariant 0 <= n <= if sessions >= 0 then sessions else -sessions
        invariant IsAdvance(WEEKDAYS, base, if sessions >= 0 then n else -n, day)
      {
        ghost var from := day;
        if sessions >= 0 {
          day := NextSession(day);
          NextIsOneStep(WEEKDAYS, from, day);
        } else {
          day := PreviousSession(day);
          PreviousIsOneStep(WEEKDAYS, from, day);
        }
        DistanceAdds(WEEKDAYS, base, from, day);
        n := n + 1;
      }
    }
  }

  // ---- Snapshots -----------------------------------------------------------------------

  /** A parsed calendar row. */
  datatype Row = Row(day: int, open: bool)

  /** The session dictionary, in insertion order. */
  type Snapshot = seq<Row>

  /** Dictionary assignment: a later row of the same day replaces the earlier one. */
  function Put(s: Snapshot, row: Row): Snapshot {
    if s == [] then [row]
    else if s[0].day == row.day then [row] + s[1..]
    else [s[0]] + Put(s[1..], row)
  }

  function FromRows(rows: seq<Row>): Snapshot {
    if rows == [] then [] else Put(FromRows(rows[..|rows| - 1]), rows[|rows| - 1])
  }

  predicate OpenIn(s: Snapshot, d: int) {
    s != [] && ((s[0].day == d && s[0].open) || OpenIn(s[1..], d))
  }

  function OpenOf(s: Snapshot): Calendar { (d: int) => OpenIn(s, d) }

  /** The largest open day at or before `d`. */
  function NormalizeIn(s: Snapshot, d: int): (r: Option<int>)
    ensures r.Some? ==> r.value <= d && OpenIn(s, r.value) && forall x :: r.value < x <= d ==> !OpenIn(s, x)
    ensures r.None? ==> forall x :: x <= d ==> !OpenIn(s, x)
  {
    if s == [] then None
    else
      var rest := NormalizeIn(s[1..], d);
      if s[0].open && s[0].day <= d && (rest.None? || rest.value < s[0].day) then Some(s[0].day) else rest
  }

  /** The smallest open day after `d`. */
  function NextIn(s: Snapshot, d: int): (r: Option<int>)
    ensures r.Some? ==> d < r.value && OpenIn(s, r.value) && forall x :: d < x < r.value ==> !OpenIn(s, x)
    ensures r.None? ==> forall x :: d < x ==> !OpenIn(s, x)
  {
    if s == [] then None
    else
      var rest := NextIn(s[1..], d);
      if s[0].open && d < s[0].day && (rest.None? || s[0].day < rest.value) then Some(s[0].day) else rest
  }

  /** The largest open day before `d`. */
  function PreviousIn(s: Snapshot, d: int): (r: Option<int>)
    ensures r.Some? ==> r.value < d && OpenIn(s, r.value) && forall x :: r.value < x < d ==> !OpenIn(s, x)
    ensures r.None? ==> forall x :: x < d ==> !OpenIn(s, x)
  {
    if s == [] then None
    else
      var rest := PreviousIn(s[1..], d);
      if s[0].open && s[0].day < d && (rest.None? || rest.value < s[0].day) then Some(s[0].day) else rest
  }

  /** Advancing over an immutable snapshot: it raises exactly when the snapshot holds no answer. */
  method AdvanceInSnapshot(s: Snapshot, value: int, sessions: int) returns (day: Option<int>)
    ensures day.Some? ==> IsAnswer(OpenOf(s), value, sessions, day.value)
    ensures day.None? ==> forall r :: !IsAnswer(OpenOf(s), value, sessions, r)
  {
    day := NormalizeIn(s, value);
    if day.None? {
      return;
    }
    ghost var base := day.value;
    ghost var open := OpenOf(s);
    var n := 0;
    while n < (if sessions >= 0 then sessions else -sessions)
      invariant 0 <= n <= if sessions >= 0 then sessions else -sessions
      invariant day.Some? && IsNormal(open, value, base)
      invariant IsAdvance(open, base, if sessions >= 0 then n else -n, day.value)
    {
      ghost var from := day.value;
      day := if sessions >= 0 then NextIn(s, day.value) else PreviousIn(s, day.value);
      if day.None? {
        forall r ensures !IsAnswer(open, value, sessions, r) {
          DeadEnd(open, value, base, if sessions >= 0 then n else -n, from, sessions, r);
        }
        return;
      }
      StepDistance(open, from, day.value, sessions >= 0);
      DistanceAdds(open, base, from, day.value);
      n := n + 1;
    }
  }

  lemma StepDistance(open: Calendar, from: int, day: int, forward: bool)
    requires open(from) && if forward then IsNext(open, from, day) else IsPrevious(open, from, day)
    ensures Distance(open, from, day) == if forward then 1 else -1
  {
    if forward {
      NextIsOneStep(open, from, day);
    } else {
      PreviousIsOneStep(open, from, day);
    }
  }

  // ---- The window cache ----------------------------------------------------------------

  /** The fetcher's rows for an inclusive range; `None` is a contract-version mismatch. */
  type Fetcher = (int, int) -> Option<seq<Row>>

  const BACK := 370
  const AHEAD := 30

  /** Rows that are exactly the true sessions of a range. */
  ghost predicate Covers(rows: seq<Row>, lo: int, hi: int, open: Calendar) {
    forall d :: OpenIn(FromRows(rows), d) <==> lo <= d <= hi && open(d)
  }

  /** The fetcher answers with exactly the true sessions of the asked range. */
  ghost predicate Honest(fetch: Fetcher, open: Calendar) {
    forall lo, hi :: fetch(lo, hi).Some? ==> Covers(fetch(lo, hi).value, lo, hi, open)
  }

  ghost predicate AlwaysAnswers(fetch: Fetcher) { forall lo, hi :: fetch(lo, hi).Some? }

  /** From each open day the steps pass, the next one in their direction lies within the reach of a refetch. */
  ghost predicate InReach(open: Calendar, base: int, sessions: int) {
    forall d :: open(d) && Passed(open, base, sessions, d) ==>
      if sessions >= 0 then OpenDayIn(open, d + 1, d + 61) else OpenDayIn(open, d - 371, d - 1)
  }

  ghost predicate Passed(open: Calendar, base: int, sessions: int, d: int) {
    var n := Distance(open, base, d);
    if sessions >= 0 then 0 <= n < sessions else sessions < n <= 0
  }

  ghost predicate OpenDayIn(open: Calendar, lo: int, hi: int) { !NoneIn(open, lo, hi) }

  /** The window a query for `day` looks at: the loaded one if it covers the day, else a new one around it. */
  function Window(loaded: Option<(int, int)>, day: int): (int, int) {
    if loaded.Some? && loaded.value.0 <= day <= loaded.value.1 then loaded.value else (day - BACK, day + AHEAD)
  }

  class QuantCalendar {
    const fetch: Fetcher
    var snapshot: Snapshot
    var loaded: Option<(int, int)>

    /** Whatever range is marked loaded, the snapshot is the full calendar restricted to it. */
    ghost predicate Valid(open: Calendar)
      reads this
    {
      && Honest(fetch, open)
      && (loaded.Some? ==>
            && forall d :: OpenIn(snapshot, d) <==> loaded.value.0 <= d <= loaded.value.1 && open(d))
    }

    constructor (fetch: Fetcher)
      ensures this.fetch == fetch && loaded == None
    {
      this.fetch := fetch;
      snapshot, loaded := [], None;
    }

    /** False is the raised contract mismatch. */
    method Refresh(day: int, ghost open: Calendar) returns (ok: bool)
      requires Valid(open)
      modifies this
      ensures Valid(open) && (AlwaysAnswers(fetch) ==> ok)
      ensures ok ==> loaded == Some(Window(old(loaded), day))
    {
      var start, end := day - BACK, day + AHEAD;
      if loaded.Some? && loaded.value.0 <= day <= loaded.value.1 {
        return true;
      }
      var rows := fetch(start, end);
      if rows.None? {
        return false;
      }
      assert Covers(rows.value, start, end, open);
      snapshot := FromRows(rows.value);
      loaded := Some((start, end));
      return true;
    }

    method IsTradingDay(day: int, ghost open: Calendar) returns (answer: Option<bool>)
      requires Valid(open)
      modifies this
      ensures Valid(open) && (AlwaysAnswers(fetch) ==> answer.Some?)
      ensures answer.Some? ==> answer.value == open(day)
    {
      var ok := Refresh(day, open);
      return if ok then Some(OpenIn(snapshot, day)) else None;
    }

    /** No refetch: it raises when the window has no open day up to `day`, even if the full calendar has one. */
    method Normalize(day: int, ghost open: Calendar) returns (answer: Option<int>)
      requires Valid(open)
      modifies this
      ensures Valid(open)
      ensures answer.Some? ==> IsNormal(open, day, answer.value)
      ensures AlwaysAnswers(fetch) ==> loaded == Some(Window(old(loaded), day))
      ensures AlwaysAnswers(fetch) ==> (answer.Some? <==> OpenDayIn(open, Window(old(loaded), day).0, day))
    {
      var ok := Refresh(day, open);
      answer := if ok then NormalizeIn(snapshot, day) else None;
    }

    /** Refetches once, 31 days later, when the window shows no later session. */
    method NextSession(day: int, ghost open: Calendar) returns (answer: Option<int>)
      requires Valid(open)
      modifies this
      ensures Valid(open)
      ensures answer.Some? ==> IsNext(open, day, answer.value)
      ensures AlwaysAnswers(fetch) ==>
                (answer.Some? <==>
                   OpenDayIn(open, day + 1, Window(old(loaded), day).1) || OpenDayIn(open, day + 1, day + 61))
    {
      var ok := Refresh(day, open);
      if !ok {
        return None;
      }
      answer := NextIn(snapshot, day);
      if answer.None? {
        loaded := None;
        ok := Refresh(day + 31, open);
        answer := if ok then NextIn(snapshot, day) else None;
      }
    }

    /** Refetches once, one day earlier, when the window shows no earlier session. */
    method PreviousSession(day: int, ghost open: Calendar) returns (answer: Option<int>)
      requires Valid(open)
      modifies this
      ensures Valid(open)
      ensures answer.Some? ==> IsPrevious(open, day, answer.value)
      ensures AlwaysAnswers(fetch) ==>
                (answer.Some? <==>
                   OpenDayIn(open, Window(old(loaded), day).0, day - 1) || OpenDayIn(open, day - 371, day - 1))
    {
      var ok := Refresh(day, open);
      if !ok {
        return None;
      }
      answer := PreviousIn(snapshot, day);
      if answer.None? {
        loaded := None;
        ok := Refresh(day - 1, open);
        answer := if ok then PreviousIn(snapshot, day) else None;
      }
    }

    /** Normalize, then step; the answer, when there is one, is the full calendar's. */
    method AdvanceSessions(value: int, sessions: int, ghost open: Calendar) returns (day: Option<int>)
      requires Valid(open)
      modifies this
      ensures Valid(open)
      ensures day.Some? ==> IsAnswer(open, value, sessions, day.value)
      ensures AlwaysAnswers(fetch) && (forall base :: IsNormal(open, value, base) ==> InReach(open, base, sessions)) ==>
                (day.Some? <==> OpenDayIn(open, Window(old(loaded), value).0, value))
    {
      day := Normalize(value, open);
      if day.None? {
        return;
      }
      ghost var base := day.value;
      var n := 0;
      while n < (if sessions >= 0 then sessions else -sessions)
        invariant 0 <= n <= if sessions >= 0 then sessions else -sessions
        invariant Valid(open) && day.Some? && IsNormal(open, value, base)
        invariant IsAdvance(open, base, if sessions >= 0 then n else -n, day.value)
      {
        ghost var from := day.value;
        assert IsNormal(open, value, base);
        assert open(from) && Passed(open, base, sessions, from);
        if sessions >= 0 {
          day := NextSession(day.value, open);
        } else {
          day := PreviousSession(day.value, open);
        }
        if day.None? {
          return;
        }
        StepDistance(open, from, day.value, sessions >= 0);
        DistanceAdds(open, base, from, day.value);
        n := n + 1;
      }
    }
  }

  /** A fetcher's answer for weekdays: one row per open day of the range. */
  function WeekdayRows(lo: int, hi: int): seq<Row>
    decreases hi - lo
  {
    if hi < lo then [] else WeekdayRows(lo, hi - 1) + (if hi % 7 < 5 then [Row(hi, true)] else [])
  }

  lemma {:induction false} PutNew(s: Snapshot, row: Row, d: int)
    requires forall k :: 0 <= k < |s| ==> s[k].day < row.day
    ensures Put(s, row) == s + [row]
    ensures OpenIn(Put(s, row), d) <==> OpenIn(s, d) || (row.open && row.day == d)
  {
    if s != [] {
      PutNew(s[1..], row, d);
      assert (s + [row])[1..] == s[1..] + [row];
    }
  }

  lemma {:induction false} WeekdayRowsCover(lo: int, hi: int, d: int)
    ensures forall k :: 0 <= k < |FromRows(WeekdayRows(lo, hi))| ==> FromRows(WeekdayRows(lo, hi))[k].day <= hi
    ensures OpenIn(FromRows(WeekdayRows(lo, hi)), d) <==> lo <= d <= hi && d % 7 < 5
    decreases hi - lo
  {
    if lo <= hi {
      WeekdayRowsCover(lo, hi - 1, d);
      var before, rows := WeekdayRows(lo, hi - 1), WeekdayRows(lo, hi);
      if hi % 7 < 5 {
        assert rows[..|rows| - 1] == before;
        PutNew(FromRows(before), Row(hi, true), d);
      } else {
        assert rows == before;
      }
    }
  }

  /**
   * Two queries on plain weekdays: on a Sunday at the edge of the window the second raises, although Friday is open.
   */
  method NormalizeCanMiss() returns (first: Option<int>, second: Option<int>)
    ensures first == Some(375) && second == None
    ensures IsNormal(WEEKDAYS, 376, 375) && IsNormal(WEEKDAYS, 6, 4)
  {
    var fetch: Fetcher := (lo: int, hi: int) => Some(WeekdayRows(lo, hi));
    var calendar := new QuantCalendar(fetch);
    forall lo, hi ensures Covers(WeekdayRows(lo, hi), lo, hi, WEEKDAYS) {
      forall d ensures OpenIn(FromRows(WeekdayRows(lo, hi)), d) <==> lo <= d <= hi && WEEKDAYS(d) {
        WeekdayRowsCover(lo, hi, d);
      }
    }
    assert calendar.Valid(WEEKDAYS);
    assert WEEKDAYS(375);
    first := calendar.Normalize(376, WEEKDAYS);
    NormalUnique(WEEKDAYS, 376, 375, first.value);
    second := calendar.Normalize(6, WEEKDAYS);
  }
}
