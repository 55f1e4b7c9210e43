/**
 * The end-of-session summary (per-state totals with their share of the
 * grand total) and the countdown's minutes/seconds split.
 */
module Report {
  import opened Activity
  import opened Timeline

  /** One summary line: a state, its total in milliseconds, its percentage of the grand total. */
  datatype Row = Row(state: State, total: int, percent: real)

  /** The order the totals are listed in: the insertion order of the source's dictionary. */
  const Order: seq<State> := [Studying, Playing, Nothing]

  /** `rows` lists each state's total and its percentage of the grand total, in dictionary order. */
  predicate Lists(rows: seq<Row>, totals: map<State, int>)
    requires Complete(totals)
  {
    && |rows| == |Order|
    && forall i :: 0 <= i < |rows| ==>
      && rows[i].state == Order[i]
      && rows[i].total == totals[Order[i]]
      && rows[i].percent == Percentage(totals[Order[i]], Grand(totals))
  }

  /** `part` as a percentage of `whole`, or 0 when `whole` is 0, so there is never a division by zero. */
  function Percentage(part: int, whole: int): (p: real)
    ensures whole == 0 ==> p == 0.0
    ensures whole != 0 ==> p * (whole as real) == (part as real) * 100.0
  {
    if whole != 0 then (part as real / whole as real) * 100.0 else 0.0
  }

  /** A non-negative part of a positive whole is between 0 and 100 percent of it. */
  lemma PercentageBounds(part: int, whole: int)
    requires 0 <= part <= whole && whole > 0
    ensures 0.0 <= Percentage(part, whole) <= 100.0
  {
    var q := part as real / whole as real;
    assert 0.0 <= q <= 1.0;
  }

  /** With a non-zero grand total, the three exact percentages add up to 100. */
  lemma SharesAddUp(totals: map<State, int>)
    requires Complete(totals)
    requires Grand(totals) != 0
    ensures Percentage(totals[Studying], Grand(totals)) + Percentage(totals[Playing], Grand(totals))
          + Percentage(totals[Nothing], Grand(totals)) == 100.0
  {
    var g := Grand(totals) as real;
    var a, b, c := totals[Studying] as real, totals[Playing] as real, totals[Nothing] as real;
    assert a + b + c == g;
    calc {
      Percentage(totals[Studying], Grand(totals)) + Percentage(totals[Playing], Grand(totals))
        + Percentage(totals[Nothing], Grand(totals));
      (a / g) * 100.0 + (b / g) * 100.0 + (c / g) * 100.0;
      ((a + b + c) / g) * 100.0;
      100.0;
    }
  }

  /**
   * When no total is negative, every summary row's total is at most the
   * grand total and its percentage lies between 0 and 100.
   */
  lemma RowsBounded(rows: seq<Row>, totals: map<State, int>)
    requires Complete(totals) && Lists(rows, totals)
    requires forall st :: st in totals ==> totals[st] >= 0
    ensures forall i :: 0 <= i < |rows| ==>
      0 <= rows[i].total <= Grand(totals) && 0.0 <= rows[i].percent <= 100.0
  {
    forall i | 0 <= i < |rows|
      ensures 0 <= rows[i].total <= Grand(totals) && 0.0 <= rows[i].percent <= 100.0
    {
      if Grand(totals) > 0 {
        PercentageBounds(rows[i].total, Grand(totals));
      }
    }
  }

  /**
   * Lists every state's total and its share of the grand total, in the
   * dictionary's order; the totals come from a finished or interrupted
   * session and have exactly the three states as keys.
   */
  method Summarize(totals: map<State, int>) returns (rows: seq<Row>)
    requires Complete(totals)
    ensures Lists(rows, totals)
  {
    var whole := Grand(totals);
    rows := [];
    var i := 0;
    while i < |Order|
      invariant 0 <= i <= |Order|
      invariant |rows| == i
      invariant forall j :: 0 <= j < i ==>
        && rows[j].state == Order[j]
        && rows[j].total == totals[Order[j]]
        && rows[j].percent == Percentage(totals[Order[j]], whole)
    {
      var k := Order[i];
      var v := totals[k];
      rows := rows + [Row(k, v, Percentage(v, whole))];
      i := i + 1;
    }
  }

  /**
   * Whole seconds left on the countdown, as `int(end_time - now)`: the
   * remaining milliseconds divided by 1000 and truncated toward zero.
   */
  function RemainingSeconds(endTime: int, now: int): (r: int)
    ensures endTime - now >= 0 ==> 0 <= r && r * 1000 <= endTime - now < r * 1000 + 1000
    ensures endTime - now < 0 ==> r <= 0 && r * 1000 - 1000 < endTime - now <= r * 1000
  {
    var d := endTime - now;
    if d >= 0 then d / 1000 else -((-d) / 1000)
  }

  /**
   * The countdown's minutes and seconds, as Python's `divmod(remaining, 60)`
   * (floor division; for the positive divisor 60 it agrees with Dafny's).
   */
  function MinutesSeconds(remaining: int): (r: (int, int))
    ensures r.0 * 60 + r.1 == remaining
    ensures 0 <= r.1 < 60
    ensures remaining >= 0 ==> r.0 >= 0
  {
    (remaining / 60, remaining % 60)
  }

  /** Minutes and seconds are the only split of `remaining` with seconds in [0, 60). */
  lemma MinutesSecondsUnique(remaining: int, mm: int, ss: int)
    requires mm * 60 + ss == remaining && 0 <= ss < 60
    ensures MinutesSeconds(remaining) == (mm, ss)
  {
  }
}
