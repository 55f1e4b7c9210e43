# Study-timer activity tracker, in Dafny

The study timer watches a webcam with an object detector. Each frame it
labels the user as studying (a hand holding a pen was seen in the last 2 s),
playing (a phone was seen in the last 1 s) or doing nothing. At most once per
second it samples that label. When the label changes, it closes the open
period `(state, start, end, duration)` and adds its duration to that state's
total. At the end of a session the open period is closed, and a summary lists
each state's total and its percentage of the grand total.

This project models that tracker as it appears in `app.py`
(`run_detection_with_timer`, `format_status_summary`, the `divmod` of
`draw_circle`) and in `opensw/opensw/opensw_v8_detect6.py` (the module-level
detection loop). It then proves the tracker's accounting: the periods tile
the session without gaps, each total is the sum of its state's periods, and
the totals add up to the elapsed time.

Modules:

- `Activity` (`activity.dfy`): the three states, the two grace windows and
  the classifier.
- `Timeline` (`timeline.dfy`): the period record, the sums over a timeline,
  the tiling of the session by periods, and the lemmas that make the totals telescope.
- `Tracking` (`tracker.dfy`): the loop's variables as a value (`Snapshot`),
  the three things one iteration does to them as functions (`Seen`, the box
  loop; `Sample`, the sampler; `Closing`, the final close), and the
  invariants of an open session (`Open`) and of a closed one (`Done`). Then
  the `Tracker` class. Its fields are the loop's variables (`lastHand`,
  `lastPhone`, `prevTime`, `current`, `statusStart`, the append-only
  `periods` and the `totals` map). Its methods are `Observe` (the box loop),
  `Tick` (classify and sample) and `Finalize` (close the open period). Each
  method's contract says that the new `Snap()` is the matching function of
  the old one. `Valid()` is `Open` of the fields, and `Closed(end)` is
  `Done`.
- `Report` (`report.dfy`): percentages with the zero-total guard, the
  summary rows, and the countdown's seconds and `mm:ss` split.
- `Sessions` (`sessions.dfy`): `Run`, the loop's variables after a
  sequence of frames, and the two loops. `RunTimed` is app.py's countdown. It
  stops at the end time or on a failed read, and always finalizes.
  `RunUntilQuit` is detect6's open-ended loop. It finalizes when 'q' is
  pressed. After a failed read it stops without closing the open period.
  Each loop is its own method (`CountdownLoop`, `QuitLoop`), and both state
  the tracker's final variables as `Run` of the frames they processed.

Abstractions made:

- Timestamps are integers counting milliseconds since the Unix epoch, as
  `time.time()` reads them. The grace windows (2000 and 1000) and the
  sampling interval (1000) are therefore exact comparisons, and
  `round(now - start, 2)` becomes exact subtraction.
- The last-seen times start at 0, as in the source, where that means "never
  seen". This holds only because an epoch clock reading is far larger than
  the 2 s pen window. So a session requires `start > PenGrace` (2000 ms
  after the epoch). `NeverSeen` and `QuietSession` prove that 0 then acts as
  "never seen".
- The camera and the detector are inputs. Each loop iteration is one `Frame`
  with four fields: whether the read succeeded, the labels of the detector's
  boxes, the clock, and whether 'q' was pressed. The source reads the clock
  several times per iteration: at the loop test, once per matching box, for
  `now`, and again on quit. The model uses the frame's single clock reading
  for all of these. The clock read after app.py's loop is the parameter
  `finish`.
- The clock is not assumed to be monotonic. The telescoping identities hold
  for any clock readings. Every period a sample closes lasts at least one
  second anyway, because the open period never starts after the previous
  sample.
- Period start and end are kept as timestamps. The source stores them as
  `datetime` strings.
- The frames are a finite sequence. When `RunTimed` runs out of frames, its
  loop ends as though time were up. When `RunUntilQuit` runs out, it returns
  `Running` with the session still open.

## Model

| member | source | states |
|---|---|---|
| `Activity.Classify` | app.py:91-97 | Studying iff the pen was seen within 2 s (inclusive). Otherwise Playing iff the phone was seen within 1 s (inclusive), else Nothing. The three cases are exclusive and exhaustive. |
| `Activity.PenPrecedence` | app.py:92-95 | The pen wins even when the phone was seen after the pen. |
| `Activity.ShiftInvariant` | opensw/opensw/opensw_v8_detect6.py:82-87 | The classification depends only on the time since each sighting. |
| `Activity.PenWindow` | app.py:92-93 | A pen sighting keeps the frame Studying for exactly the closed window [seen, seen + 2 s], and not one millisecond longer. |
| `Activity.PhoneWindow` | app.py:94-97 | With no recent pen, a phone sighting gives Playing for exactly [seen, seen + 1 s], and Nothing after it. |
| `Activity.Decay` | opensw/opensw/opensw_v8_detect6.py:82-87 | Without new sightings, the state only decays over time (Studying, then Playing, then Nothing), never the reverse. |
| `Timeline.ZeroCreditsEmpty` | app.py:64-65 | The initial totals are zero for exactly the three states. They credit the empty period list and add up to 0. |
| `Timeline.SpentAppend` | app.py:105-106 | Appending a period credits its duration to its own state's sum and to no other. |
| `Timeline.TilesAppend` | app.py:102-108 | A period that starts where the timeline ends, with duration end − start, extends the tiling to its end. |
| `Timeline.AlternatingAppend` | app.py:101-105 | Appending a period whose state differs from the last one keeps consecutive periods distinct in state. |
| `Timeline.LastingAppend` | app.py:99-105 | Appending a period that lasts at least d keeps every period lasting at least d. |
| `Timeline.LastingWeaken` | app.py:99-108 | Periods that each last at least d each last at least any smaller e. |
| `Timeline.SpentNonNegative` | app.py:104-106 | With no negative period, each state's sum lies between 0 and the elapsed time. |
| `Timeline.TilesAdjacent` | app.py:102-108 | In a tiling of [from, to], the first period starts at from and the last ends at to. Each period starts where the previous one ended, and each duration is end − start. |
| `Timeline.AlternatingAdjacent` | app.py:101-105 | In an alternating timeline, no two consecutive periods share a state. |
| `Timeline.CloseKeepsAccounts` | app.py:104-108 | Closing the open period and crediting it to its state keeps two things: each total equals the sum of its state's durations, and the periods still tile the session, now up to the new end. |
| `Timeline.ElapsedAtLeast` | app.py:99-108 | Periods that each last at least d together last at least \|ps\|·d. |
| `Timeline.Telescoping` | app.py:102-108 | The durations of a tiling of [from, to] add up to to − from. |
| `Timeline.ElapsedSplits` | app.py:104-106 | The elapsed time is split exactly among the three states. |
| `Timeline.GrandIsElapsed` | app.py:118-122 | Totals that credit a tiling of [from, to] add up to to − from. |
| `Tracking.DuplicatesCollapse` | opensw/opensw/opensw_v8_detect6.py:58-63 | A repeated label adds nothing to the detected set, and that set is never larger than the number of boxes. |
| `Tracking.LabelSetSize` | opensw/opensw/opensw_v8_detect6.py:58-63 | The set of distinct labels has at most as many entries as there are boxes. |
| `Tracking.Initial` | app.py:60-67 | The starting variables keep a total for every state and satisfy the open-session invariant. |
| `Tracking.Seen` | opensw/opensw/opensw_v8_detect6.py:58-73 | One frame's boxes: the pen's last-seen time becomes the frame time iff a pen box is present, the phone's likewise, and nothing else changes. |
| `Tracking.Sample` | app.py:91-108 | The sampler's transition keeps a total for every state. Its partner is `SampleKeeps`. |
| `Tracking.Closing` | app.py:118-122 | The final close keeps a total for every state. Its partner is `ClosingCloses`. |
| `Tracking.NeverSeen` | app.py:61-62 | With an epoch start, the initial last-seen times 0 classify every frame from the start on as Nothing. |
| `Tracking.SampleKeeps` | app.py:99-108 | Sampling keeps the open-session invariant: the periods tile [start, open start], the totals credit exactly them, states alternate (the last also differs from the open state), and each closed period lasts at least 1 s. |
| `Tracking.ClosingCloses` | app.py:118-122 | Closing an open session at now leaves it closed at now, with totals adding up to now − start. |
| `Tracking.OpenTotals` | opensw/opensw/opensw_v8_detect6.py:51-54 | In an open session the totals cover only the closed periods. They add up to the open period's start minus the session start, which is at least 1 s per closed period. |
| `Tracking.DoneTotalsBounded` | opensw/opensw/opensw_v8_detect6.py:121-126 | In a closed session whose closing period is not negative, every total lies between 0 and the grand total. |
| `Tracking.ClosingBounded` | app.py:118-122 | Closing an open session no earlier than its open start leaves every total between 0 and the grand total. |
| `Tracking.Tracker.constructor` | app.py:60-67 | Requires an epoch start (`start > PenGrace`). The tracker's variables are `Initial(start)`: last-seen times 0 (never seen), state Nothing, open period and sampling clock at start, no periods, all totals zero. The open-session invariant holds. |
| `Tracking.Tracker.Observe` | opensw/opensw/opensw_v8_detect6.py:58-73 | Returns the set of box labels. The pen's last-seen time becomes the frame time iff a pen box is present, and the phone's the same for a phone box. Other labels change neither. The new variables are `Seen` of the old ones, and the invariant is unaffected. |
| `Tracking.Tracker.Tick` | app.py:91-108 | Returns the frame's classification. The new variables are `Sample` of the old ones. Spelled out: less than 1 s after the last sample, nothing changes. Otherwise `prevTime` becomes now. An unchanged state leaves periods and totals alone. A changed state appends exactly the period (old state, open start, now, now − open start), credits only the old state, and opens a new period at now. Totals never decrease, and the open-session invariant is kept. |
| `Tracking.Tracker.Finalize` | app.py:118-122 | The new variables are `Closing` of the old ones: exactly one closing period is appended, and only its state is credited. Afterwards the periods tile [start, now], each total is its state's sum, only the closing period may be shorter than 1 s, and the totals add up to now − start. |
| `Report.Percentage` | app.py:48-50 | Zero when the grand total is zero, with no division. Otherwise the percentage p satisfies p · total = part · 100. |
| `Report.PercentageBounds` | opensw/opensw/opensw_v8_detect6.py:124-126 | The share of a non-negative part of a positive whole is between 0 and 100. |
| `Report.RowsBounded` | app.py:47-51 | When no total is negative, each summary row's total is at most the grand total and its percentage lies in [0, 100]. |
| `Report.SharesAddUp` | opensw/opensw/opensw_v8_detect6.py:121-126 | With a non-zero grand total, the three exact percentages add up to 100. |
| `Report.Summarize` | app.py:47-52 | One row per state in dictionary order (STUDYING, PLAYING, NOTHING), each with its total and its percentage of the grand total. |
| `Report.RemainingSeconds` | app.py:110 | The countdown's whole seconds: the remaining time truncated toward zero, as Python's `int()` does. |
| `Report.MinutesSeconds` | app.py:31 | `divmod(remaining, 60)`: mm·60 + ss = remaining with 0 ≤ ss < 60, and mm ≥ 0 for non-negative remaining. |
| `Report.MinutesSecondsUnique` | app.py:31 | That split is the only one with seconds in [0, 60). |
| `Sessions.Step` | app.py:76-108 | One iteration on a frame that was read (`Seen`, then `Sample`) keeps a total for every state. |
| `Sessions.Run` | app.py:70-116 | The fold of `Step` over the frames in order keeps a total for every state. |
| `Sessions.RunKeepsOpen` | app.py:70-116 | After any sequence of frames, a session is open: the invariant holds of `Run` from `Initial(start)`. |
| `Sessions.QuietSession` | opensw/opensw/opensw_v8_detect6.py:47-48 | With an epoch start, frames that never show a pen or a phone leave the state Nothing, with no period closed and the last-seen times still 0. |
| `Sessions.Iterate` | app.py:76-108 | One loop iteration on a read frame takes the tracker from `Run` of the frames before it to `Run` of the frames up to and including it. |
| `Sessions.CountdownLoop` | app.py:70-116 | Processes frames while they are before the end time and reads succeed, stopping at the first that is not. The tracker ends as `Run` of exactly the processed frames. |
| `Sessions.CloseOnQuit` | opensw/opensw/opensw_v8_detect6.py:103-110 | On 'q', the tracker's variables become `Closing` at the quit frame's time of `Run` up to and including that frame. |
| `Sessions.QuitLoop` | opensw/opensw/opensw_v8_detect6.py:50-110 | Processes frames until a read fails or 'q' is pressed, and says which. After a failed read the tracker is `Run` of the processed frames. After 'q' it is `Closing` of `Run` up to and including the quit frame. |
| `Sessions.RunTimed` | app.py:60-124 | Processes frames while they are before the end time and reads succeed, and stops at the first that is not. The tracker ends as the fold `Run` of exactly the processed frames, followed by `Closing` at the finish time. So the session is closed and the totals add up to finish − start. The summary lists those totals. When the clock did not go back past the open period's start, each row's total is within [0, grand total] and its percentage within [0, 100]. |
| `Sessions.RunUntilQuit` | opensw/opensw/opensw_v8_detect6.py:37-126 | Processes frames until a read fails or 'q' is pressed. On a failed read (or when the frames run out) the tracker is `Run` of the processed frames: the session is still open, and the totals add up only to the open period's start − start. On 'q' the quit frame is processed too, then `Closing` at its time runs exactly once, and the totals add up to that time − start. The summary lists the totals either way. |

## Left out

- Loading the YOLO model and running inference: the detector is a foreign library. Its output is a frame's sequence of box labels.
- The camera: opening it, reading frames and releasing it. A failed read is the frame's `ok` flag. app.py's early return when the camera cannot be opened happens before any tracker state exists, and is not modelled.
- The window: drawing boxes and labels, `imshow`, and `waitKey`. The 'q' key is the frame's `quit` flag.
- Streamlit: the page, sidebar, buttons, toasts, `st.audio` and `components.html`. The button handler calls `run_detection_with_timer` twice, focus then break. Each call is an independent session, which `RunTimed` captures with a fresh tracker. The handler itself is not modelled.
- `time.sleep(0.03)`: only pacing.
- The runtime `pip install` in detect6.
- Float arithmetic: `round(now - start, 2)`, `round(v, 2)` and `round(percentage, 1)`. Durations are exact integer milliseconds and percentages exact reals. So in the model the totals telescope exactly and the shares add up to exactly 100. In the source, rounding makes both hold only approximately.
- Text formatting: the per-period log lines, `datetime` strings, the start/end/elapsed lines detect6 prints, and the `pct`/`angle` of the countdown circle. The model keeps the periods and totals that these lines print.
- `Sessions.RunTimed`: the countdown display computed in each iteration (`int(end_time - time.time())`, then `draw_circle`) is not wired into the loop. `Report.RemainingSeconds` and `Report.MinutesSeconds` model it on their own.
- `Report.Summarize`: requires the totals to have a key for each of the three states, because the model's map has no insertion order. The source's dictionary always has these keys.
- `Tracking.Tracker.Finalize`: requires an open session. In both sources it runs once, and the loop ends right after, so a second call cannot happen.
- `Tracking.Tracker.constructor`: requires `start > PenGrace`, and so do the two sessions. The source relies on `time.time()` being an epoch reading and checks nothing. A start within 2 s of the epoch is therefore not modelled: there, a last-seen time of 0 would count as a recent pen.
- `Tracking.Sample`: its own contract says only that a total is kept for every state. What it computes is stated by `Tracking.Tracker.Tick`, which is tied to it, and by `Tracking.SampleKeeps`.
- `Tracking.Closing`: its own contract says only that a total is kept for every state. What it computes is stated by `Tracking.Tracker.Finalize` and `Tracking.ClosingCloses`.
- `Sessions.Step`: its own contract says only that a total is kept for every state. It is `Seen` followed by `Sample`.
- `Sessions.Run`: its own contract says only that a total is kept for every state. The invariant it keeps is `Sessions.RunKeepsOpen`.
