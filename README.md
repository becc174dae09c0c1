# Ball quadrant tracker: a verified model

This project models the core of a small video-analysis script. The script finds coloured balls in each
frame of a video. It classifies each ball's centroid into one of the four quadrants of the frame. It
writes an event row (time, quadrant left, colour, `Exit`/`Entry`) whenever a colour's quadrant
changes between two sightings.

The model covers five components:

- `Quadrants` (quadrants.dfy): `check_quadrant` and the centroid `x + w // 2, y + h // 2`.
- `Detection` (detection.dfy): the filter loop of `detect_balls`. The contours of each colour's mask are
  visited in the mask table's order: red, yellow, dark green, white. Only contours whose area is above 500
  are kept, each tagged with its mask's colour.
- `Transitions` (transitions.dfy): what the detection loop does to the `last_positions` map and to the
  log, stated as functions. `Step` covers one ball and `Replay` covers a list of balls. The lemmas prove
  the "last wins" rule, that absent colours are untouched, that rows are one per quadrant change, and that
  only `Exit` rows are written.
- `Tracking` (tracking.dfy): `last_positions` and the log as the fields of a class, `Tracker`. Its methods
  `Observe` (one ball) and `ProcessFrame` (the loop over a frame's balls) update the fields in place.
  `ProcessVideo` is the frame loop of `process_video`. Each method is proved against `Transitions`.
- `Scenarios` (scenarios.dfy): end-to-end scenarios, proved as lemmas.

Python's `width / 2` is true division. The model uses real division, so `x < width / 2` is compared
exactly. `CheckQuadrant` proves that this comparison is `2 * x < width`. The trailing `return None` is kept
in the model, and the contract proves it cannot be reached. The tracker's map stores what the classifier
returns, an optional quadrant, as the Python dictionary does. This keeps the line
`'Exit' if ... is not None else 'Entry'` as written, and the invariant `Tracker.Valid` proves that
`Entry` is never written.

Three points of the code fix the model's behaviour:

- The masks are visited in the dictionary's insertion order (main.py:10-18). Only the order of contours
  within one mask is an input.
- `Observe` takes the centroid, because the loop classifies it against the frame size read once from the
  capture (main.py:48-49, 72-73).
- The area test is `area > 500` (main.py:22), so the value 500 itself is rejected.

## Model

| member | source | states |
|---|---|---|
| Quadrants.CheckQuadrant | main.py:28-37 | The result is always one of 1..4, so the trailing `None` is unreachable. Each number is characterised exactly: 1 iff 2x<w and 2y<h, 2 iff 2x>=w and 2y<h, 3 iff 2x<w and 2y>=h, 4 iff 2x>=w and 2y>=h. The four regions are disjoint and cover every point. |
| Quadrants.Centroid | main.py:72 | The centroid offset is the floor of half the box size. For a box of non-negative size, the centroid lies inside the box on both axes. |
| Detection.Keep | main.py:20-24 | One mask contributes at most as many balls as it has contours. |
| Detection.KeepSound | main.py:20-24 | Every ball a mask contributes has that mask's colour and the box of a contour whose area is strictly above 500. |
| Detection.KeepComplete | main.py:20-24 | Every contour whose area is above 500 yields a ball with its box and the mask's colour. |
| Detection.KeepSingle | main.py:20-24 | One contour yields exactly one ball (its box, the mask's colour) when its area is above 500, and none otherwise. |
| Detection.KeepAppend | main.py:20-24 | The balls kept from two runs of contours are those of the first run followed by those of the second: with `KeepSingle` this gives one ball per large contour, in contour order, repeats included. |
| Detection.Gather | main.py:18-24 | The balls of the masks of a list of colours, mask after mask. Every ball has one of those colours and the box of a contour of its mask whose area is above 500. `GatherExact` gives membership as an iff and `GatherGrouped` the grouping; the order and number of balls within one mask are those of `Keep`, fixed by `KeepSingle` and `KeepAppend`. |
| Detection.Detections | main.py:17-25 | The list `detect_balls` returns. Every ball has the box of a contour of its colour's mask whose area is above 500. `DetectionsByMask` fixes it exactly as the kept balls of the red, yellow, dark green and white masks in turn, with `KeepSingle` and `KeepAppend` fixing each mask's part; `DetectionsExact` (membership as an iff), `DetectionsGrouped` and `DetectionsNone` follow. |
| Detection.DetectBalls | main.py:17-25 | The nested loops over masks and contours return exactly `Detections`, the masks' kept balls concatenated in mask order. |
| Detection.DetectionsByMask | main.py:10-24 | The detections are exactly the kept balls of the red mask, then the yellow, the dark green and the white mask. |
| Detection.DetectionsExact | main.py:18-24 | A ball is detected iff some contour of its colour's mask has an area above 500 and the ball's box. The exclusive boundary follows. |
| Detection.DetectionsGrouped | main.py:10-18 | The detections are grouped by colour in the order red, yellow, dark green, white. |
| Detection.DetectionsNone | main.py:18-24 | If no mask has a contour above the threshold (empty masks included), there is no detection. |
| Transitions.Step | main.py:75-80 | After one ball, the map gives that colour the new quadrant in all three branches, and other colours are unchanged. At most one row is written, and one is written iff the colour was recorded in a different quadrant. The row carries the time, the colour and the quadrant left. With only genuine quadrants recorded, the row is an `Exit`. |
| Transitions.FrameSightings | main.py:71-73 | Each ball of a frame becomes one sighting: its colour, the quadrant of its centroid, and the frame's time, in list order. |
| Transitions.Replay | main.py:71-80 | The loop over a list of balls: `Step` applied in list order. Each sighting writes at most one row, and a colour once recorded is never removed. `ReplayAppend`, `ReplayLastWins`, `ReplayAbsent`, `ReplayLastSighting`, `ReplayEventsPerColour`, `ReplayEventCount` and `ReplayOnlyExits` characterise it; `Tracker.ProcessFrame` and `ProcessVideo` are proved against it. |
| Transitions.VideoSightings | main.py:64-73 | The sightings the frame loop produces, frame after frame. Every sighting holds a quadrant 1..4 and the time of one of the frames. `ProcessVideo` and `QuietVideo` are stated against it. |
| Transitions.ReplayAppend | main.py:71-80 | Processing a list in two parts equals processing it whole: the second part starts from the map the first part left, and its rows follow the first part's rows. Rows therefore appear in list order, within a frame and across frames. |
| Transitions.ReplayLastWins | main.py:71-80 | After a list, a colour is in the map iff it was recorded before or sighted in the list. Its entry is the last quadrant in its history (last wins). |
| Transitions.ReplayAbsent | main.py:71-80 | A colour absent from the list keeps its prior entry, or stays unrecorded. |
| Transitions.ReplayLastSighting | main.py:71-80 | The last sighting of a colour in a list decides that colour's entry. |
| Transitions.VacatedByStep | main.py:77-80 | One ball writes a row about colour c iff it is of colour c, c was recorded, and c's recorded quadrant differs; the row names the recorded quadrant. |
| Transitions.ReplayEventsPerColour | main.py:71-80 | For each colour, the quadrant column of that colour's rows equals `Departures` of its history: one entry per change between consecutive recorded quadrants, each the quadrant left. The first sighting and stationary sightings write nothing. |
| Transitions.ReplayEventCount | main.py:71-80 | The number of rows about a colour is the number of its consecutive quadrant changes. |
| Transitions.ReplayOnlyExits | main.py:75-80 | Suppose the map holds only quadrants 1..4 and so does every sighting. Then so does the map afterwards, and every row written is an `Exit` from a quadrant 1..4: the `Entry` label is unreachable. |
| Transitions.StepIdempotent | main.py:77 | A second identical sighting right after the first writes nothing and leaves the map unchanged. |
| Tracking.Tracker.constructor | main.py:55-62 | A run starts with an empty map and no rows after the header. |
| Tracking.Tracker.Observe | main.py:72-80 | For a first sighting, the map records the quadrant and no row is written. For the same quadrant, nothing changes. For a different quadrant, exactly one `Exit` row about the quadrant left is appended and the map records the new quadrant. The invariant `Valid` is kept. The new state is `Step` of the old one. |
| Tracking.Tracker.ProcessFrame | main.py:71-80 | After a frame's balls, the map is `Replay` of the old map over the frame's sightings, and the log is the old log followed by `Replay`'s rows. `Valid` is kept. |
| Tracking.ProcessVideo | main.py:55-80 | The rows of a run are `Replay` from the empty map over all frames' sightings. Every row is an `Exit` from a quadrant 1..4. |
| Scenarios.RedCrossesVerticalMidline | main.py:71-80 | A red ball centred at (10,10) and then at (90,10) one second later, in a 100x100 frame, writes exactly one row: time 1.0, quadrant 1, red, `Exit`. |
| Scenarios.TwoColoursMoveTogether | main.py:71-80 | Two colours changing quadrant in the same frame each write their own row, attributed to the right colour, in detection order. |
| Scenarios.QuietVideo | main.py:18-24 | A video whose masks never have a contour above the threshold yields no sighting and no row. |

## Left out

- Colour conversion, mask thresholds and contour search (`cvtColor`, `inRange`, `findContours`, `contourArea`, `boundingRect`, main.py:9-23): these are library calls. Their result, the list of contours per colour with area and bounding box, is the input `Masks`.
- The uint8 addition of the two red masks (main.py:11) and `visualize_masks` (main.py:40-43): pixel operations on library images.
- Wall-clock time (main.py:57, 70): floating-point and non-deterministic. Each frame's time is an input.
- Drawing and overlays (main.py:83-97): presentation only. This includes the caption, which prints the new quadrant after the map update.
- Video capture and writing, the preview window, the `q` key stop, CSV formatting and release calls (main.py:47-52, 59-67, 99-106): I/O. `ProcessVideo` takes the frames read before the stream ended or the operator stopped it.
- The module-level call with fixed paths (main.py:110-113).
- Quadrants.CheckQuadrant: the model halves the frame size exactly. Python compares the integer coordinate with the float `width / 2` (and `height / 2`) exactly. Only the halving itself rounds, and only for frame sizes above 2**53. This is not modelled.
