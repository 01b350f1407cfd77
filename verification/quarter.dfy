/** `get_quarter_start_month` of the P304 and P110 examples: the first
    month of the quarter a month falls in, used to form the start date of
    a daily energy-data request. */
module QuarterStart {
  import opened Calendar

  /** The arithmetic form of the P304 example. Months are `u32` and at
      least 1, so the subtraction does not underflow. */
  function QuarterStartMonth(m: int): (r: int)
    requires 1 <= m <= 12
    ensures r == 1 || r == 4 || r == 7 || r == 10
    ensures r <= m <= r + 2
  {
    ((m - 1) / 3) * 3 + 1
  }

  /** The guarded `match` of the P110 example. */
  function QuarterStartMonthByMatch(m: int): (r: int)
    requires 1 <= m <= 12
  {
    if m < 4 then 1 else if m < 7 then 4 else if m < 10 then 7 else 10
  }

  /** The two examples agree on every month. */
  lemma {:induction false} MatchIsArithmetic(m: int)
    requires 1 <= m <= 12
    ensures QuarterStartMonthByMatch(m) == QuarterStartMonth(m)
  {
    var r := QuarterStartMonth(m);
    assert r == 1 || r == 4 || r == 7 || r == 10;
  }

  /** The result is the one quarter start at or before `m` and less than
      three months before it. */
  lemma QuarterStartIsUnique(m: int, q: int)
    requires 1 <= m <= 12
    requires q == 1 || q == 4 || q == 7 || q == 10
    requires q <= m <= q + 2
    ensures q == QuarterStartMonth(m)
  {
  }

  /** Day 1 of that month is a real calendar day, so `from_ymd_opt(..).unwrap()`
      in the examples does not panic, whatever the year. */
  lemma QuarterStartDateIsValid(year: int, m: int)
    requires 1 <= m <= 12
    ensures ValidDate(Date(year, QuarterStartMonth(m), 1))
  {
  }
}
