/**
 * The two detection loops that drive the tracker: a countdown that ends at a
 * fixed time, and an open-ended loop that ends when 'q' is pressed or a
 * frame cannot be read.
 *
 * The camera and the detector are inputs: each iteration is one `Frame`,
 * holding whether the read succeeded, the labels of the detector's boxes,
 * the clock reading of that iteration, and whether 'q' was pressed.
 */
module Sessions {
  import opened Activity
  import opened Timeline
  import opened Tracking
  import opened Report

  datatype Frame = Frame(ok: bool, labels: seq<string>, now: int, quit: bool)

  /** How the open-ended loop ended: a failed read, the quit key, or still running when the frames given ran out. */
  datatype Exit = ReadFailed | Quit | Running

  /** One iteration of either loop on a frame that was read: record its boxes, then classify and sample. */
  function Step(s: Snapshot, f: Frame): (r: Snapshot)
    requires Complete(s.totals)
    ensures Complete(r.totals)
  {
    Sample(Seen(s, f.labels, f.now), f.now)
  }

  /** The loop's variables after the iterations on `frames`, in order, from `s`. */
  function Run(s: Snapshot, frames: seq<Frame>): (r: Snapshot)
    requires Complete(s.totals)
    ensures Complete(r.totals)
  {
    if frames == [] then s else Step(Run(s, frames[..|frames| - 1]), frames[|frames| - 1])
  }

  /** Running one more frame is one more step. */
  lemma RunAppend(s: Snapshot, frames: seq<Frame>, i: nat)
    requires Complete(s.totals) && i < |frames|
    ensures Run(s, frames[..i + 1]) == Step(Run(s, frames[..i]), frames[i])
  {
    assert frames[..i + 1][..i] == frames[..i];
  }

  /** However the frames go, a session started at `start` is open after them. */
  lemma {:induction false} RunKeepsOpen(start: int, frames: seq<Frame>)
    ensures Open(Run(Initial(start), frames), start)
  {
    if frames != [] {
      var before := Run(Initial(start), frames[..|frames| - 1]);
      var f := frames[|frames| - 1];
      RunKeepsOpen(start, frames[..|frames| - 1]);
      SampleKeeps(Seen(before, f.labels, f.now), start, f.now);
    }
  }

  /**
   * A session in which no frame from the start on shows a pen or a phone
   * stays in state Nothing and closes no period, however long it runs.
   */
  lemma {:induction false} QuietSession(start: int, frames: seq<Frame>)
    requires start > PenGrace
    requires forall i :: 0 <= i < |frames| ==>
      frames[i].now >= start && PenLabel !in frames[i].labels && PhoneLabel !in frames[i].labels
    ensures Run(Initial(start), frames).current == Nothing
    ensures Run(Initial(start), frames).periods == []
    ensures Run(Initial(start), frames).lastHand == 0 && Run(Initial(start), frames).lastPhone == 0
  {
    if frames != [] {
      var f := frames[|frames| - 1];
      QuietSession(start, frames[..|frames| - 1]);
      NeverSeen(start, f.now);
    }
  }

  /**
   * The iteration on `frames[i]`, a frame that was read, of a session from
   * `start`: the tracker records its boxes, then classifies and samples.
   */
  method Iterate(t: Tracker, start: int, frames: seq<Frame>, i: nat)
    requires i < |frames|
    requires t.origin == start && t.Snap() == Run(Initial(start), frames[..i])
    modifies t
    ensures t.Snap() == Run(Initial(start), frames[..i + 1])
  {
    RunKeepsOpen(start, frames[..i]);
    var seen := t.Observe(frames[i].labels, frames[i].now);
    var state := t.Tick(frames[i].now);
    RunAppend(Initial(start), frames, i);
  }

  /**
   * The countdown's loop from `start` to `endTime`: frames are processed
   * while the clock is before the end time, and it stops at the first frame
   * that could not be read.
   */
  method CountdownLoop(start: int, endTime: int, frames: seq<Frame>) returns (t: Tracker, processed: nat)
    requires start > PenGrace
    ensures fresh(t) && t.origin == start
    ensures processed <= |frames|
    ensures forall j :: 0 <= j < processed ==> frames[j].ok && frames[j].now < endTime
    ensures processed < |frames| ==> !frames[processed].ok || frames[processed].now >= endTime
    ensures t.Snap() == Run(Initial(start), frames[..processed])
  {
    t := new Tracker(start);
    processed := 0;
    while processed < |frames| && frames[processed].now < endTime
      invariant processed <= |frames|
      invariant t.origin == start
      invariant t.Snap() == Run(Initial(start), frames[..processed])
      invariant forall j :: 0 <= j < processed ==> frames[j].ok && frames[j].now < endTime
    {
      if !frames[processed].ok {
        break;
      }
      Iterate(t, start, frames, processed);
      processed := processed + 1;
    }
  }

  /**
   * A timed session of `duration` milliseconds from `start`: the countdown
   * loop runs; then, whichever way it ended, the open period is closed at
   * `finish` and the totals are summarized.
   */
  method RunTimed(start: int, duration: int, frames: seq<Frame>, finish: int)
    returns (t: Tracker, processed: nat, rows: seq<Row>)
    requires start > PenGrace
    ensures fresh(t) && t.origin == start
    ensures processed <= |frames|
    ensures forall j :: 0 <= j < processed ==> frames[j].ok && frames[j].now < start + duration
    ensures processed < |frames| ==> !frames[processed].ok || frames[processed].now >= start + duration
    ensures t.Snap() == Closing(Run(Initial(start), frames[..processed]), finish)
    ensures t.Closed(finish)
    ensures Grand(t.totals) == finish - start
    ensures Lists(rows, t.totals)
    ensures finish >= t.statusStart ==> forall i :: 0 <= i < |rows| ==>
      0 <= rows[i].total <= Grand(t.totals) && 0.0 <= rows[i].percent <= 100.0
  {
    t, processed := CountdownLoop(start, start + duration, frames);
    RunKeepsOpen(start, frames[..processed]);
    t.Finalize(finish);
    rows := Summarize(t.totals);
    if finish >= t.statusStart {
      ClosingBounded(Run(Initial(start), frames[..processed]), start, finish);
      RowsBounded(rows, t.totals);
    }
  }

  /**
   * The 'q' key pressed at `frames[i]`, after that frame was processed: the
   * open period is closed at the frame's time.
   */
  method CloseOnQuit(t: Tracker, start: int, frames: seq<Frame>, i: nat)
    requires i < |frames|
    requires t.origin == start && t.Snap() == Run(Initial(start), frames[..i + 1])
    modifies t
    ensures t.Snap() == Closing(Run(Initial(start), frames[..i + 1]), frames[i].now)
  {
    RunKeepsOpen(start, frames[..i + 1]);
    t.Finalize(frames[i].now);
  }

  /**
   * The open-ended loop from `start`: frames are processed until a read
   * fails (the open period is then left unclosed) or 'q' is pressed (the
   * frame is processed, then the open period is closed at that frame's
   * time, once, and the loop ends).
   */
  method QuitLoop(start: int, frames: seq<Frame>) returns (t: Tracker, processed: nat, exit: Exit)
    requires start > PenGrace
    ensures fresh(t) && t.origin == start
    ensures processed <= |frames|
    ensures forall j :: 0 <= j < processed ==> frames[j].ok && !frames[j].quit
    ensures exit == Running <==> processed == |frames|
    ensures exit == ReadFailed ==> processed < |frames| && !frames[processed].ok
    ensures exit == Quit ==> processed < |frames| && frames[processed].ok && frames[processed].quit
    ensures exit != Quit ==> t.Snap() == Run(Initial(start), frames[..processed])
    ensures exit == Quit ==> (processed < |frames| &&
      t.Snap() == Closing(Run(Initial(start), frames[..processed + 1]), frames[processed].now))
  {
    t := new Tracker(start);
    processed := 0;
    exit := Running;
    while processed < |frames|
      invariant processed <= |frames|
      invariant t.origin == start
      invariant t.Snap() == Run(Initial(start), frames[..processed])
      invariant forall j :: 0 <= j < processed ==> frames[j].ok && !frames[j].quit
    {
      if !frames[processed].ok {
        exit := ReadFailed;
        break;
      }
      Iterate(t, start, frames, processed);
      if frames[processed].quit {
        CloseOnQuit(t, start, frames, processed);
        exit := Quit;
        break;
      }
      processed := processed + 1;
    }
  }

  /**
   * The open-ended session from `start`: its loop runs until a read fails
   * or 'q' is pressed, and the totals are summarized either way. After a
   * failed read they cover only the closed periods.
   */
  method RunUntilQuit(start: int, frames: seq<Frame>)
    returns (t: Tracker, processed: nat, exit: Exit, rows: seq<Row>)
    requires start > PenGrace
    ensures fresh(t) && t.origin == start
    ensures processed <= |frames|
    ensures forall j :: 0 <= j < processed ==> frames[j].ok && !frames[j].quit
    ensures exit == Running <==> processed == |frames|
    ensures exit == ReadFailed ==> processed < |frames| && !frames[processed].ok
    ensures exit == Quit ==> processed < |frames| && frames[processed].ok && frames[processed].quit
    ensures exit != Quit ==> t.Snap() == Run(Initial(start), frames[..processed])
    ensures exit == Quit ==> (processed < |frames| &&
      t.Snap() == Closing(Run(Initial(start), frames[..processed + 1]), frames[processed].now))
    ensures exit != Quit ==> t.Valid() && Grand(t.totals) == t.statusStart - start
    ensures exit == Quit ==> (processed < |frames| &&
      t.Closed(frames[processed].now) && Grand(t.totals) == frames[processed].now - start)
    ensures Lists(rows, t.totals)
  {
    t, processed, exit := QuitLoop(start, frames);
    if exit != Quit {
      RunKeepsOpen(start, frames[..processed]);
      OpenTotals(t.Snap(), start);
    } else {
      RunKeepsOpen(start, frames[..processed + 1]);
      ClosingCloses(Run(Initial(start), frames[..processed + 1]), start, frames[processed].now);
    }
    rows := Summarize(t.totals);
  }
}
