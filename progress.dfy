/** `calculateProgress`: the share of an investment's term that has elapsed,
    as a whole percentage. The investor pages (wallet table, investment cards)
    share one definition; the admin table has a status-aware variant. */
module Progress {
  import opened Wrappers
  import opened Investments

  /** Integer division by a positive divisor is monotone in the dividend. */
  lemma DivMonotone(a: int, b: int, d: int)
    requires 0 <= a <= b && d > 0
    ensures a / d <= b / d
  {
    var qa, qb := a / d, b / d;
    assert d * qa <= a;
    assert b < d * qb + d;
    if qa > qb {
      assert d * qa >= d * (qb + 1) by { MulMonotone(d, qb + 1, qa); }
      assert false;
    }
  }

  lemma MulMonotone(d: int, x: int, y: int)
    requires d > 0 && x <= y
    ensures d * x <= d * y
  {
  }

  /** For `0 < a < b`, `floor(100 a / b)` lies in `[0, 99]`. */
  lemma PercentBelowHundred(a: int, b: int)
    requires 0 < a < b
    ensures 0 <= (100 * a) / b <= 99
  {
    var q := (100 * a) / b;
    assert b * q <= 100 * a;
    assert 100 * a < 100 * b;
  }

  /** The guarded arithmetic once both dates are known: the `now >= end` guard
      comes first, so the division is reached only when `start < now < end`. */
  function Elapsed(start: int, end: int, now: int): (p: int)
    ensures 0 <= p <= 100
    ensures now >= end ==> p == 100
    ensures now < end && now <= start ==> p == 0
    ensures start < now < end ==> p == (100 * (now - start)) / (end - start) && p <= 99
  {
    if now >= end then 100
    else if now <= start then 0
    else
      PercentBelowHundred(now - start, end - start);
      (100 * (now - start)) / (end - start)
  }

  /** `calculateProgress(startDate, endDate)` at wall-clock time `now`. */
  function CalculateProgress(start: Option<int>, end: Option<int>, now: int): (p: int)
    ensures 0 <= p <= 100
    ensures start.None? || end.None? ==> p == 0
  {
    if start.None? || end.None? then 0 else Elapsed(start.value, end.value, now)
  }

  /** Both dates known: the three guarded cases. */
  lemma ProgressCases(start: int, end: int, now: int)
    ensures now >= end ==> CalculateProgress(Some(start), Some(end), now) == 100
    ensures start < end && now <= start ==> CalculateProgress(Some(start), Some(end), now) == 0
    ensures start < now < end ==>
      CalculateProgress(Some(start), Some(end), now) == (100 * (now - start)) / (end - start) <= 99
  {
  }

  /** A term whose end is not after its start shows 0 before the end and 100
      from then on; no division happens. */
  lemma DegenerateTerm(start: int, end: int, now: int)
    requires end <= start
    ensures CalculateProgress(Some(start), Some(end), now) == if now >= end then 100 else 0
  {
  }

  /** Progress never goes down as time passes. */
  lemma {:induction false} ProgressMonotone(start: Option<int>, end: Option<int>, now1: int, now2: int)
    requires now1 <= now2
    ensures CalculateProgress(start, end, now1) <= CalculateProgress(start, end, now2)
  {
    if start.Some? && end.Some? {
      var s, e := start.value, end.value;
      if s < now1 && now2 < e {
        DivMonotone(100 * (now1 - s), 100 * (now2 - s), e - s);
      }
    }
  }

  /** The admin table's variant: 0 for a `pending` row, otherwise as above.
      `status` is `None` when the caller leaves the argument out. */
  function AdminProgress(start: Option<int>, end: Option<int>, status: Option<Status>, now: int): (p: int)
    ensures 0 <= p <= 100
    ensures status == Some(Pending) ==> p == 0
    ensures status != Some(Pending) ==> p == CalculateProgress(start, end, now)
  {
    if status == Some(Pending) || start.None? || end.None? then 0
    else Elapsed(start.value, end.value, now)
  }
}
