/**
 * The activity-state tracker that runs inside each detection loop: it keeps
 * the last-seen times of the two meaningful labels, samples the classified
 * state at most once per second, and closes a period on every change.
 *
 * Timestamps are milliseconds since the Unix epoch, as `time.time()` reads
 * them, so every session starts long after the 2 s pen window: the last-seen
 * times start at 0, which then means "never seen".
 */
module Tracking {
  import opened Activity
  import opened Timeline

  /** The detector label of a hand holding a pen. */
  const PenLabel: string := "hand_with_pen"

  /** The detector label of a smartphone. */
  const PhoneLabel: string := "smartphone"

  /** The sampler looks at the classification at most once per this many milliseconds. */
  const SampleInterval: int := 1000

  /** Boxes of the same label collapse into one entry of the detected set. */
  lemma DuplicatesCollapse(labels: seq<string>, i: nat)
    requires i < |labels|
    ensures (set l | l in labels + [labels[i]]) == (set l | l in labels)
    ensures |set l | l in labels| <= |labels|
  {
    LabelSetSize(labels);
  }

  /** A sequence of labels has at most as many distinct labels as entries. */
  lemma {:induction false} LabelSetSize(labels: seq<string>)
    ensures |set l | l in labels| <= |labels|
  {
    if labels != [] {
      var rest := labels[1..];
      LabelSetSize(rest);
      assert (set l | l in labels) == {labels[0]} + (set l | l in rest);
    }
  }

  /** The loop's variables between two frames. */
  datatype Snapshot = Snapshot(
    lastHand: int, lastPhone: int, prevTime: int,
    current: State, statusStart: int,
    periods: seq<Period>, totals: map<State, int>)

  /** The variables when a session starts at `start`: nothing seen, state Nothing, no periods, zero totals. */
  function Initial(start: int): (s: Snapshot)
    ensures Complete(s.totals) && Open(s, start)
  {
    ZeroCreditsEmpty();
    Snapshot(0, 0, start, Nothing, start, [], Zero)
  }

  /** The boxes of one frame, seen at `at`: each of the two meaningful labels present moves its last-seen time to `at`. */
  function Seen(s: Snapshot, labels: seq<string>, at: int): (r: Snapshot)
    ensures r.(lastHand := s.lastHand, lastPhone := s.lastPhone) == s
    ensures PenLabel in labels ==> r.lastHand == at
    ensures PenLabel !in labels ==> r.lastHand == s.lastHand
    ensures PhoneLabel in labels ==> r.lastPhone == at
    ensures PhoneLabel !in labels ==> r.lastPhone == s.lastPhone
  {
    s.(lastHand := if PenLabel in labels then at else s.lastHand,
       lastPhone := if PhoneLabel in labels then at else s.lastPhone)
  }

  /**
   * The sampler at `now`: when a sampling interval has passed since the
   * previous sample and the frame's classification differs from the current
   * state, the open period is closed, credited to its state, and a new one
   * opens at `now`.
   */
  function Sample(s: Snapshot, now: int): (r: Snapshot)
    requires Complete(s.totals)
    ensures Complete(r.totals)
  {
    var detected := Classify(now, s.lastHand, s.lastPhone);
    if now - s.prevTime < SampleInterval then s
    else if detected == s.current then s.(prevTime := now)
    else
      s.(prevTime := now, current := detected, statusStart := now,
         periods := s.periods + [Period(s.current, s.statusStart, now, now - s.statusStart)],
         totals := s.totals[s.current := s.totals[s.current] + (now - s.statusStart)])
  }

  /** The end of a session at `now`: the open period is closed and credited to its state. */
  function Closing(s: Snapshot, now: int): (r: Snapshot)
    requires Complete(s.totals)
    ensures Complete(r.totals)
  {
    s.(periods := s.periods + [Period(s.current, s.statusStart, now, now - s.statusStart)],
       totals := s.totals[s.current := s.totals[s.current] + (now - s.statusStart)])
  }

  /**
   * Invariant of an open session started at `origin`: the closed periods
   * tile [origin, statusStart], the totals credit exactly them, consecutive
   * periods differ in state (the last one also from the open period's), and
   * each closed period lasted at least one sampling interval.
   */
  ghost predicate Open(s: Snapshot, origin: int) {
    && Credits(s.totals, s.periods)
    && Tiles(s.periods, origin, s.statusStart)
    && s.statusStart <= s.prevTime
    && Alternating(s.periods)
    && (s.periods != [] ==> s.periods[|s.periods| - 1].state != s.current)
    && Lasting(s.periods, SampleInterval)
  }

  /**
   * Invariant of a session whose open period was closed at `end`: the
   * periods tile [origin, end], the totals credit exactly them, and only
   * the last (closing) period may be shorter than a sampling interval.
   */
  ghost predicate Done(s: Snapshot, origin: int, end: int) {
    && Credits(s.totals, s.periods)
    && Tiles(s.periods, origin, end)
    && Alternating(s.periods)
    && s.periods != []
    && Lasting(s.periods[..|s.periods| - 1], SampleInterval)
  }

  /** A session that never saw a pen or a phone classifies every frame from its start on as Nothing. */
  lemma NeverSeen(start: int, now: int)
    requires start > PenGrace && now >= start
    ensures Classify(now, Initial(start).lastHand, Initial(start).lastPhone) == Nothing
  {
  }

  /** Sampling keeps an open session's invariant. */
  lemma SampleKeeps(s: Snapshot, origin: int, now: int)
    requires Open(s, origin)
    ensures Open(Sample(s, now), origin)
  {
    var detected := Classify(now, s.lastHand, s.lastPhone);
    if now - s.prevTime >= SampleInterval && detected != s.current {
      var closing := Period(s.current, s.statusStart, now, now - s.statusStart);
      CloseKeepsAccounts(s.totals, s.periods, origin, closing);
      AlternatingAppend(s.periods, closing);
      LastingAppend(s.periods, closing, SampleInterval);
    }
  }

  /**
   * Closing an open session at `now` leaves it closed at `now`, with totals
   * that add up to the whole session, now - origin.
   */
  lemma ClosingCloses(s: Snapshot, origin: int, now: int)
    requires Open(s, origin)
    ensures Done(Closing(s, now), origin, now)
    ensures Grand(Closing(s, now).totals) == now - origin
  {
    var closing := Period(s.current, s.statusStart, now, now - s.statusStart);
    var c := Closing(s, now);
    assert c.periods == s.periods + [closing];
    CloseKeepsAccounts(s.totals, s.periods, origin, closing);
    AlternatingAppend(s.periods, closing);
    assert c.periods[..|s.periods|] == s.periods;
    GrandIsElapsed(c.totals, c.periods, origin, now);
  }

  /**
   * In an open session the totals cover only the closed periods: they add
   * up to the time from the session start to the start of the open period,
   * which is at least one sampling interval per closed period.
   */
  lemma OpenTotals(s: Snapshot, origin: int)
    requires Open(s, origin)
    ensures Grand(s.totals) == s.statusStart - origin
    ensures origin + |s.periods| * SampleInterval <= s.statusStart
  {
    GrandIsElapsed(s.totals, s.periods, origin, s.statusStart);
    Telescoping(s.periods, origin, s.statusStart);
    ElapsedAtLeast(s.periods, SampleInterval);
  }

  /**
   * In a closed session whose closing period is not negative (the clock did
   * not go back between the last change and the end), every total lies
   * between 0 and the grand total.
   */
  lemma DoneTotalsBounded(s: Snapshot, origin: int, end: int)
    requires Done(s, origin, end)
    requires end >= s.periods[|s.periods| - 1].start
    ensures forall st :: st in s.totals ==> 0 <= s.totals[st] <= Grand(s.totals)
  {
    var ps := s.periods;
    LastingWeaken(ps[..|ps| - 1], SampleInterval, 0);
    assert ps[..|ps| - 1] + [ps[|ps| - 1]] == ps;
    LastingAppend(ps[..|ps| - 1], ps[|ps| - 1], 0);
    SpentNonNegative(ps, Studying);
    SpentNonNegative(ps, Playing);
    SpentNonNegative(ps, Nothing);
    forall st | st in s.totals
      ensures 0 <= s.totals[st] <= Grand(s.totals)
    {
      match st
      case Studying =>
      case Playing =>
      case Nothing =>
    }
  }

  /**
   * Closing an open session no earlier than its open period started leaves
   * every total between 0 and the grand total.
   */
  lemma ClosingBounded(s: Snapshot, origin: int, now: int)
    requires Open(s, origin) && now >= s.statusStart
    ensures forall st :: st in Closing(s, now).totals ==>
      0 <= Closing(s, now).totals[st] <= Grand(Closing(s, now).totals)
  {
    var c := Closing(s, now);
    ClosingCloses(s, origin, now);
    assert c.periods[|c.periods| - 1].start == s.statusStart;
    DoneTotalsBounded(c, origin, now);
  }

  class Tracker {
    var lastHand: int
    var lastPhone: int
    var prevTime: int
    var current: State
    var statusStart: int
    var periods: seq<Period>
    var totals: map<State, int>

    /** The time the session started: the initial `prev_time` and `status_start_time`. */
    ghost const origin: int

    /** The tracker's variables as a value. */
    function Snap(): Snapshot
      reads this
    {
      Snapshot(lastHand, lastPhone, prevTime, current, statusStart, periods, totals)
    }

    /** The tracker is in an open session. */
    ghost predicate Valid()
      reads this
    {
      Open(Snap(), origin)
    }

    /** The tracker's session was closed at `end`. */
    ghost predicate Closed(end: int)
      reads this
    {
      Done(Snap(), origin, end)
    }

    /** Starts a session at `start`: nothing seen yet, state Nothing, no periods, all totals zero. */
    constructor (start: int)
      requires start > PenGrace
      ensures Valid() && origin == start
      ensures Snap() == Initial(start)
    {
      origin := start;
      lastHand, lastPhone := 0, 0;
      prevTime := start;
      periods := [];
      totals := Zero;
      current := Nothing;
      statusStart := start;
      new;
      assert Snap() == Initial(start);
    }

    /**
     * Records the labels of one frame's boxes, seen at `at`. Returns the set
     * of labels; only the two meaningful labels move their last-seen time.
     */
    method Observe(labels: seq<string>, at: int) returns (detected: set<string>)
      modifies this`lastHand, this`lastPhone
      ensures detected == set l | l in labels
      ensures lastHand == (if PenLabel in labels then at else old(lastHand))
      ensures lastPhone == (if PhoneLabel in labels then at else old(lastPhone))
      ensures Snap() == Seen(old(Snap()), labels, at)
      ensures Valid() <==> old(Valid())
    {
      detected := {};
      var i := 0;
      while i < |labels|
        invariant 0 <= i <= |labels|
        invariant detected == set l | l in labels[..i]
        invariant lastHand == (if PenLabel in labels[..i] then at else old(lastHand))
        invariant lastPhone == (if PhoneLabel in labels[..i] then at else old(lastPhone))
      {
        var name := labels[i];
        assert labels[..i + 1] == labels[..i] + [name];
        detected := detected + {name};
        if name == PenLabel {
          lastHand := at;
        } else if name == PhoneLabel {
          lastPhone := at;
        }
        i := i + 1;
      }
      assert labels[..i] == labels;
    }

    /**
     * Classifies the frame at `now` and, when at least one sampling interval
     * has passed since the previous sample, samples it: on a change the open
     * period is closed and credited to its own state, and a new one opens.
     */
    method Tick(now: int) returns (detected: State)
      requires Valid()
      modifies this`prevTime, this`current, this`statusStart, this`periods, this`totals
      ensures Valid()
      ensures Snap() == Sample(old(Snap()), now)
      ensures detected == Classify(now, lastHand, lastPhone)
      ensures now - old(prevTime) < SampleInterval ==>
        && prevTime == old(prevTime) && current == old(current) && statusStart == old(statusStart)
        && periods == old(periods) && totals == old(totals)
      ensures now - old(prevTime) >= SampleInterval ==> prevTime == now
      ensures now - old(prevTime) >= SampleInterval && detected == old(current) ==>
        && current == old(current) && statusStart == old(statusStart)
        && periods == old(periods) && totals == old(totals)
      ensures now - old(prevTime) >= SampleInterval && detected != old(current) ==>
        && periods == old(periods) + [Period(old(current), old(statusStart), now, now - old(statusStart))]
        && totals == old(totals)[old(current) := old(totals)[old(current)] + (now - old(statusStart))]
        && current == detected && statusStart == now
      ensures forall s :: s in old(totals) ==> s in totals && old(totals)[s] <= totals[s]
    {
      ghost var next := Sample(Snap(), now);
      detected := Classify(now, lastHand, lastPhone);
      if now - prevTime >= SampleInterval {
        prevTime := now;
        if detected != current {
          var duration := now - statusStart;
          periods := periods + [Period(current, statusStart, now, duration)];
          totals := totals[current := totals[current] + duration];
          current := detected;
          statusStart := now;
        }
      }
      assert Snap() == next;
      SampleKeeps(old(Snap()), origin, now);
    }

    /**
     * Closes the open period at `now` and credits it to its state, exactly
     * once; afterwards the totals add up to the whole session.
     */
    method Finalize(now: int)
      requires Valid()
      modifies this`periods, this`totals
      ensures Snap() == Closing(old(Snap()), now)
      ensures periods == old(periods) + [Period(current, statusStart, now, now - statusStart)]
      ensures totals == old(totals)[current := old(totals)[current] + (now - statusStart)]
      ensures Closed(now)
      ensures Grand(totals) == now - origin
      ensures now >= statusStart ==> forall s :: s in old(totals) ==> s in totals && old(totals)[s] <= totals[s]
    {
      ClosingCloses(Snap(), origin, now);
      var duration := now - statusStart;
      totals := totals[current := totals[current] + duration];
      periods := periods + [Period(current, statusStart, now, duration)];
    }
  }
}
