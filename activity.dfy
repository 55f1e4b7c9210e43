/**
 * The per-frame activity classifier of the study timer.
 *
 * Timestamps are integers counting milliseconds, so the grace windows of
 * 2 s (pen) and 1 s (phone) become exact integer comparisons.
 */
module Activity {

  /** The activity a frame is classified as; the source's 'STUDYING', 'PLAYING' and 'NOTHING'. */
  datatype State = Studying | Playing | Nothing

  const AllStates: set<State> := {Studying, Playing, Nothing}

  /** A pen-holding hand seen at most this long ago still counts as studying. */
  const PenGrace: int := 2000

  /** A phone seen at most this long ago still counts as playing. */
  const PhoneGrace: int := 1000

  /** The label seen within `grace` of `now`. */
  predicate Recent(now: int, lastSeen: int, grace: int) {
    now - lastSeen <= grace
  }

  /**
   * Classifies the frame at `now` from the last times a pen-holding hand and
   * a phone were seen. A recent pen wins over a recent phone.
   */
  function Classify(now: int, lastHand: int, lastPhone: int): (s: State)
    ensures s == Studying <==> Recent(now, lastHand, PenGrace)
    ensures s == Playing <==> !Recent(now, lastHand, PenGrace) && Recent(now, lastPhone, PhoneGrace)
    ensures s == Nothing <==> !Recent(now, lastHand, PenGrace) && !Recent(now, lastPhone, PhoneGrace)
  {
    if now - lastHand <= PenGrace then Studying
    else if now - lastPhone <= PhoneGrace then Playing
    else Nothing
  }

  /** Orders the states by how strongly they indicate work. */
  function Rank(s: State): (r: nat) {
    match s
    case Studying => 2
    case Playing => 1
    case Nothing => 0
  }

  /** The pen wins even when the phone was seen later than the pen. */
  lemma PenPrecedence(now: int, lastHand: int, lastPhone: int)
    requires lastHand < lastPhone <= now
    requires now - lastHand <= PenGrace
    ensures Classify(now, lastHand, lastPhone) == Studying
  {
  }

  /** The classification depends only on how long ago each label was seen. */
  lemma ShiftInvariant(now: int, lastHand: int, lastPhone: int, d: int)
    ensures Classify(now + d, lastHand + d, lastPhone + d) == Classify(now, lastHand, lastPhone)
  {
  }

  /**
   * A pen seen at `seen` keeps the frame Studying for exactly the closed
   * window [seen, seen + PenGrace]; one millisecond later it no longer does.
   */
  lemma PenWindow(seen: int, lastPhone: int, now: int)
    ensures seen <= now <= seen + PenGrace ==> Classify(now, seen, lastPhone) == Studying
    ensures Classify(seen + PenGrace + 1, seen, lastPhone) != Studying
  {
  }

  /** A phone seen at `seen`, with no pen for longer than its grace, gives Playing for exactly [seen, seen + PhoneGrace]. */
  lemma PhoneWindow(seen: int, lastHand: int, now: int)
    requires now - lastHand > PenGrace
    ensures seen <= now <= seen + PhoneGrace ==> Classify(now, lastHand, seen) == Playing
    ensures now > seen + PhoneGrace ==> Classify(now, lastHand, seen) == Nothing
  {
  }

  /**
   * Without new sightings the classification only decays as time passes:
   * Studying may become Playing or Nothing, Playing may become Nothing,
   * never the other way.
   */
  lemma Decay(now: int, later: int, lastHand: int, lastPhone: int)
    requires now <= later
    ensures Rank(Classify(later, lastHand, lastPhone)) <= Rank(Classify(now, lastHand, lastPhone))
  {
  }
}
