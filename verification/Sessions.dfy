/** Open days, their neighbours and their count: the algebra every trading calendar must satisfy. Days are integers. */
module Sessions {
  import opened Wrappers

  type Calendar = int -> bool

  ghost predicate NoneIn(open: Calendar, lo: int, hi: int) { forall x :: lo <= x <= hi ==> !open(x) }

  /** The first open day after `d`. */
  ghost predicate IsNext(open: Calendar, d: int, r: int) { d < r && open(r) && NoneIn(open, d + 1, r - 1) }

  /** The last open day before `d`. */
  ghost predicate IsPrevious(open: Calendar, d: int, r: int) { r < d && open(r) && NoneIn(open, r + 1, d - 1) }

  /** The last open day at or before `d`. */
  ghost predicate IsNormal(open: Calendar, d: int, r: int) { r <= d && open(r) && NoneIn(open, r + 1, d) }

  /** Open days in (a, b]. */
  function Count(open: Calendar, a: int, b: int): nat
    decreases b - a
  {
    if b <= a then 0 else Count(open, a, b - 1) + (if open(b) then 1 else 0)
  }

  /** Signed number of sessions from a to b. */
  function Distance(open: Calendar, a: int, b: int): int {
    if a <= b then Count(open, a, b) else 0 - Count(open, b, a)
  }

  /** `r` lies `n` sessions after the open day `base` (before it, for negative `n`). */
  ghost predicate IsAdvance(open: Calendar, base: int, n: int, r: int) { open(r) && Distance(open, base, r) == n }

  /** What advancing from any day must answer: the day `n` sessions from the normalised one. */
  ghost predicate IsAnswer(open: Calendar, value: int, n: int, r: int) {
    exists base :: IsNormal(open, value, base) && IsAdvance(open, base, n, r)
  }

  lemma {:induction false} CountSplits(open: Calendar, a: int, b: int, c: int)
    requires a <= b <= c
    ensures Count(open, a, c) == Count(open, a, b) + Count(open, b, c)
    decreases c - b
  {
    if b < c {
      CountSplits(open, a, b, c - 1);
    }
  }

  /** Distances add up, whatever the order of the three days. */
  lemma DistanceAdds(open: Calendar, a: int, b: int, c: int)
    ensures Distance(open, a, c) == Distance(open, a, b) + Distance(open, b, c)
  {
    if a <= b <= c {
      CountSplits(open, a, b, c);
    } else if a <= c < b {
      CountSplits(open, a, c, b);
    } else if b < a <= c {
      CountSplits(open, b, a, c);
    } else if b <= c < a {
      CountSplits(open, b, c, a);
    } else if c < a <= b {
      CountSplits(open, c, a, b);
    } else {
      CountSplits(open, c, b, a);
    }
  }

  lemma {:induction false} EmptyCount(open: Calendar, a: int, b: int)
    requires NoneIn(open, a + 1, b)
    ensures Count(open, a, b) == 0
    decreases b - a
  {
    if a < b {
      EmptyCount(open, a, b - 1);
    }
  }

  lemma NextIsOneStep(open: Calendar, d: int, r: int)
    requires IsNext(open, d, r)
    ensures Distance(open, d, r) == 1
  {
    EmptyCount(open, d, r - 1);
  }

  lemma PreviousIsOneStep(open: Calendar, d: int, r: int)
    requires IsPrevious(open, d, r) && open(d)
    ensures Distance(open, d, r) == -1
  {
    EmptyCount(open, r, d - 1);
  }

  lemma {:induction false} OpenDayCounts(open: Calendar, a: int, b: int)
    requires a < b && open(b)
    ensures Count(open, a, b) >= 1
  {
  }

  /** There is only one open day at each distance. */
  lemma AdvanceUnique(open: Calendar, base: int, n: int, r: int, s: int)
    requires IsAdvance(open, base, n, r) && IsAdvance(open, base, n, s)
    ensures r == s
  {
    DistanceAdds(open, base, r, s);
    if r < s {
      OpenDayCounts(open, r, s);
    } else if s < r {
      OpenDayCounts(open, s, r);
    }
  }

  /** Advancing by m and then by n is advancing by m + n, for any signs. */
  lemma AdvanceComposes(open: Calendar, base: int, m: int, n: int, r: int, s: int)
    requires IsAdvance(open, base, m, r) && IsAdvance(open, r, n, s)
    ensures IsAdvance(open, base, m + n, s)
  {
    DistanceAdds(open, base, r, s);
  }

  /** Advancing by n and then by -n comes back. */
  lemma AdvanceInverts(open: Calendar, base: int, n: int, r: int, back: int)
    requires open(base) && IsAdvance(open, base, n, r) && IsAdvance(open, r, -n, back)
    ensures back == base
  {
    DistanceAdds(open, base, r, back);
    assert Distance(open, base, base) == 0;
    AdvanceUnique(open, base, 0, base, back);
  }

  lemma NormalUnique(open: Calendar, d: int, r: int, s: int)
    requires IsNormal(open, d, r) && IsNormal(open, d, s)
    ensures r == s
  {
  }

  /** There is at most one answer. */
  lemma AnswerUnique(open: Calendar, value: int, n: int, r: int, s: int)
    requires IsAnswer(open, value, n, r) && IsAnswer(open, value, n, s)
    ensures r == s
  {
    var base :| IsNormal(open, value, base) && IsAdvance(open, base, n, r);
    var other :| IsNormal(open, value, other) && IsAdvance(open, other, n, s);
    NormalUnique(open, value, base, other);
    AdvanceUnique(open, base, n, r, s);
  }

  /** When the steps run out of open days there is no answer. */
  lemma DeadEnd(open: Calendar, value: int, base: int, taken: int, day: int, n: int, r: int)
    requires IsNormal(open, value, base) && IsAdvance(open, base, taken, day)
    requires if n >= 0 then taken < n && forall x :: day < x ==> !open(x) else n < taken && forall x :: x < day ==>
              !open(x)
    ensures !IsAnswer(open, value, n, r)
  {
    if IsAnswer(open, value, n, r) {
      var other :| IsNormal(open, value, other) && IsAdvance(open, other, n, r);
      NormalUnique(open, value, base, other);
      DistanceAdds(open, base, day, r);
    }
  }

  /** Answers compose: advancing by m and then by n answers advancing by m + n, for any signs and from any day. */
  lemma AnswersCompose(open: Calendar, value: int, m: int, n: int, r: int, s: int)
    requires IsAnswer(open, value, m, r) && IsAnswer(open, r, n, s)
    ensures IsAnswer(open, value, m + n, s)
  {
    var base :| IsNormal(open, value, base) && IsAdvance(open, base, m, r);
    var same :| IsNormal(open, r, same) && IsAdvance(open, same, n, s);
    NormalUnique(open, r, r, same);
    AdvanceComposes(open, base, m, n, r, s);
  }

  /** Going there and back answers the normalised day. */
  lemma AnswersInvert(open: Calendar, value: int, n: int, r: int, back: int)
    requires IsAnswer(open, value, n, r) && IsAnswer(open, r, 0 - n, back)
    ensures IsNormal(open, value, back)
  {
    var base :| IsNormal(open, value, base) && IsAdvance(open, base, n, r);
    var same :| IsNormal(open, r, same) && IsAdvance(open, same, 0 - n, back);
    NormalUnique(open, r, r, same);
    AdvanceInverts(open, base, n, r, back);
  }
}
