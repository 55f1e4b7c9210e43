/**
 * The session timeline: the closed periods `(state, start, end, duration)`
 * the tracker appends, and the per-state totals it credits.
 *
 * The predicates over a timeline are defined from its last period back, the
 * way the tracker builds it, so that appending one period unfolds each of
 * them by exactly one step.
 */
module Timeline {
  import opened Activity

  /** One closed interval of constant activity; the source's `status_periods` entries. */
  datatype Period = Period(state: State, start: int, end: int, duration: int)

  /** The totals a session starts with: zero for exactly the three states. */
  const Zero: map<State, int> := map[Studying := 0, Playing := 0, Nothing := 0]

  /** Sum of the durations of the periods of `ps` whose state is `s`. */
  function Spent(ps: seq<Period>, s: State): (r: int)
  {
    if ps == [] then 0
    else Spent(ps[..|ps| - 1], s) + (if ps[|ps| - 1].state == s then ps[|ps| - 1].duration else 0)
  }

  /** Sum of the durations of all periods of `ps`. */
  function Elapsed(ps: seq<Period>): (r: int)
  {
    if ps == [] then 0 else Elapsed(ps[..|ps| - 1]) + ps[|ps| - 1].duration
  }

  /**
   * The periods tile [from, to] without gap or overlap, each one's duration
   * being its end minus its start: the last ends at `to`, and the others
   * tile [from, start of the last].
   */
  ghost predicate Tiles(ps: seq<Period>, from: int, to: int)
  {
    if ps == [] then from == to
    else
      var p := ps[|ps| - 1];
      && p.end == to
      && p.duration == p.end - p.start
      && Tiles(ps[..|ps| - 1], from, p.start)
  }

  /** No two consecutive periods have the same state. */
  ghost predicate Alternating(ps: seq<Period>)
  {
    |ps| <= 1 || (ps[|ps| - 2].state != ps[|ps| - 1].state && Alternating(ps[..|ps| - 1]))
  }

  /** Every period of `ps` lasts at least `d`. */
  ghost predicate Lasting(ps: seq<Period>, d: int)
  {
    ps == [] || (ps[|ps| - 1].duration >= d && Lasting(ps[..|ps| - 1], d))
  }

  /** The totals map has a total for every state (and, there being only these three states, no other key). */
  predicate Complete(totals: map<State, int>) {
    forall st: State :: st in totals
  }

  /** Every state has a total, and each total is what the periods credit to its state. */
  ghost predicate Credits(totals: map<State, int>, ps: seq<Period>) {
    && Complete(totals)
    && totals[Studying] == Spent(ps, Studying)
    && totals[Playing] == Spent(ps, Playing)
    && totals[Nothing] == Spent(ps, Nothing)
  }

  /** Sum of the totals over all states; the source's `sum(total_times.values())`. */
  function Grand(totals: map<State, int>): (r: int)
    requires Complete(totals)
  {
    totals[Studying] + totals[Playing] + totals[Nothing]
  }

  /** The zero totals have exactly the three states as keys and credit the empty timeline. */
  lemma ZeroCreditsEmpty()
    ensures Zero.Keys == AllStates
    ensures Credits(Zero, []) && Grand(Zero) == 0
  {
    forall st: State
      ensures st in Zero
    {
      match st
      case Studying =>
      case Playing =>
      case Nothing =>
    }
  }

  /** Appending a period credits its duration to its own state and to no other. */
  lemma SpentAppend(ps: seq<Period>, p: Period, s: State)
    ensures Spent(ps + [p], s) == Spent(ps, s) + (if p.state == s then p.duration else 0)
  {
  }

  /** A measured period that starts where a tiling ends extends it to the period's end. */
  lemma TilesAppend(ps: seq<Period>, from: int, p: Period)
    requires Tiles(ps, from, p.start)
    requires p.duration == p.end - p.start
    ensures Tiles(ps + [p], from, p.end)
  {
  }

  /** A period whose state differs from the last one's keeps the timeline alternating. */
  lemma AlternatingAppend(ps: seq<Period>, p: Period)
    requires Alternating(ps)
    requires ps != [] ==> ps[|ps| - 1].state != p.state
    ensures Alternating(ps + [p])
  {
  }

  /** Appending a period that lasts at least `d` keeps every period lasting at least `d`. */
  lemma LastingAppend(ps: seq<Period>, p: Period, d: int)
    requires Lasting(ps, d) && p.duration >= d
    ensures Lasting(ps + [p], d)
  {
  }

  /**
   * In a tiling of [from, to] the first period starts at `from`, each
   * period starts where the previous one ended, the last ends at `to`, and
   * each duration is end minus start.
   */
  lemma {:induction false} TilesAdjacent(ps: seq<Period>, from: int, to: int)
    requires Tiles(ps, from, to)
    ensures ps == [] ==> from == to
    ensures ps != [] ==> ps[0].start == from && ps[|ps| - 1].end == to
    ensures forall i :: 0 <= i < |ps| ==> ps[i].duration == ps[i].end - ps[i].start
    ensures forall i :: 0 < i < |ps| ==> ps[i - 1].end == ps[i].start
  {
    if ps != [] {
      var init := ps[..|ps| - 1];
      TilesAdjacent(init, from, ps[|ps| - 1].start);
      assert forall i :: 0 <= i < |init| ==> init[i] == ps[i];
    }
  }

  /** In an alternating timeline no two consecutive periods share a state. */
  lemma {:induction false} AlternatingAdjacent(ps: seq<Period>)
    requires Alternating(ps)
    ensures forall i :: 0 < i < |ps| ==> ps[i - 1].state != ps[i].state
  {
    if |ps| > 1 {
      var init := ps[..|ps| - 1];
      AlternatingAdjacent(init);
      assert forall i :: 0 <= i < |init| ==> init[i] == ps[i];
    }
  }

  /**
   * Closing period `p` where the timeline ends, and crediting its duration to
   * its state, keeps the totals crediting exactly the periods and the
   * timeline tiled, now up to p.end.
   */
  lemma CloseKeepsAccounts(totals: map<State, int>, ps: seq<Period>, from: int, p: Period)
    requires Credits(totals, ps) && Tiles(ps, from, p.start)
    requires p.duration == p.end - p.start
    ensures p.state in totals
    ensures Credits(totals[p.state := totals[p.state] + p.duration], ps + [p])
    ensures Tiles(ps + [p], from, p.end)
  {
    TilesAppend(ps, from, p);
    SpentAppend(ps, p, Studying);
    SpentAppend(ps, p, Playing);
    SpentAppend(ps, p, Nothing);
  }

  /** Periods that each last at least `d` also each last at least any `e` below `d`. */
  lemma {:induction false} LastingWeaken(ps: seq<Period>, d: int, e: int)
    requires Lasting(ps, d) && e <= d
    ensures Lasting(ps, e)
  {
    if ps != [] {
      LastingWeaken(ps[..|ps| - 1], d, e);
    }
  }

  /** Periods that are none of them negative credit no state a negative total. */
  lemma {:induction false} SpentNonNegative(ps: seq<Period>, s: State)
    requires Lasting(ps, 0)
    ensures 0 <= Spent(ps, s) <= Elapsed(ps)
  {
    if ps != [] {
      SpentNonNegative(ps[..|ps| - 1], s);
    }
  }

  /** Periods that each last at least `d` take at least |ps| * d together. */
  lemma {:induction false} ElapsedAtLeast(ps: seq<Period>, d: int)
    requires Lasting(ps, d)
    ensures Elapsed(ps) >= |ps| * d
  {
    if ps != [] {
      ElapsedAtLeast(ps[..|ps| - 1], d);
    }
  }

  /** The durations of a tiling of [from, to] add up to to - from. */
  lemma {:induction false} Telescoping(ps: seq<Period>, from: int, to: int)
    requires Tiles(ps, from, to)
    ensures Elapsed(ps) == to - from
  {
    if ps != [] {
      Telescoping(ps[..|ps| - 1], from, ps[|ps| - 1].start);
    }
  }

  /** The elapsed time is split exactly among the three states. */
  lemma {:induction false} ElapsedSplits(ps: seq<Period>)
    ensures Elapsed(ps) == Spent(ps, Studying) + Spent(ps, Playing) + Spent(ps, Nothing)
  {
    if ps != [] {
      ElapsedSplits(ps[..|ps| - 1]);
    }
  }

  /**
   * Totals that credit a tiling of [from, to] add up to to - from: the
   * totals telescope to the elapsed time.
   */
  lemma GrandIsElapsed(totals: map<State, int>, ps: seq<Period>, from: int, to: int)
    requires Credits(totals, ps)
    requires Tiles(ps, from, to)
    ensures Grand(totals) == to - from
  {
    ElapsedSplits(ps);
    Telescoping(ps, from, to);
  }
}
