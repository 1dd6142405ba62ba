# Lizard animation and seven-segment clock: a Dafny model

This project models the two components of an Avalonia desktop toy that plays a
two-layer sprite animation over a digital clock.

- **Sprite player** (`Lizard` module, `lizard.dfy`, from `LizardAnimation.cs`).
  - The loader builds the frame library from already-parsed layer records. It drops a layer whose colour or geometry is null or whitespace, and keeps one frame per raw frame.
  - Sequence group 0 becomes the base sequence and group 1 the overlay sequence. A missing or null group becomes empty.
  - Two playback cursors advance on their own timer ticks.
    - On overrun, the base cursor clamps to the last index and its timer stops, so the track freezes on its last pose.
    - On overrun, the overlay cursor stays one past the end and its timer stops, so the track disappears.
  - `Render` picks each track's frame and paints the base frame's layers, then the overlay frame's layers, both in layer order.
  - The class `LizardAnimation` holds the library, both sequences, both indices and both timer states as fields.
  - Ghost tick counters tie each cursor to the closed-form functions `BaseAfter` and `OverlayAfter`.
  - A tick method requires its timer to be started, because a stopped `DispatcherTimer` delivers no more ticks.
  - `Render` reads each track through `CurrentFrame`, whose guard is `0 <= index < Count`. The guard as written, `index < Count`, is kept as `ReadAsWritten`; see "## Findings".
- **Clock** (`Clock` module, `clock.dfy`, from `SevenSegmentClock.cs`).
  - A constant 10×7 table lists the lit segments of each digit.
  - Each lit segment becomes one six-point chamfered hexagon.
  - The colon is two four-point rhombi. It is drawn after the second digit while the colon flag is set. The flag starts true and flips on every one-second tick.
  - Coordinates are exact `real`s. The source's integer divisions of its `int` constants stay integer divisions: `13 / 2 = 6` and `45 / 2 = 22`. Its divisions of `double`s are real halves, such as `13 / 2.0 = 6.5`.
  - Each drawn polygon is a `Figure`: a start point, one line-to per later point, filled and closed. That is what `DrawPolygon` hands to a `StreamGeometry`.
- `wrappers.dfy` holds the `Option` datatype used for null-or-value fields.

Behaviours of the code worth noting:
- a blank layer is one whose string is null *or whitespace* (`string.IsNullOrWhiteSpace`), not only an empty one;
- exactly three slots are horizontal bars (0, 3 and 6);
- once the overlay has run out, its index rests at the sequence length, not inside the sequence;
- an out-of-range sequence value is not validated anywhere. Its read fails the way a .NET list indexer does (`OutOfRange`, and `Faulted` for the whole render).

## Model

| member | source | states |
|---|---|---|
| `Lizard.FilterLayers` | LizardAnimation.cs:71-80 | at most one layer per record; exactly one per record iff every record is kept (both strings non-blank) |
| `Lizard.FilterLayersAppend` | LizardAnimation.cs:70-81 | filtering distributes over concatenation, so loaded layers keep record order |
| `Lizard.FilterLayersMembers` | LizardAnimation.cs:73-79 | a layer is loaded iff it is the parse of some record whose colour and geometry are both non-blank |
| `Lizard.AllBlankFrameIsEmpty` | LizardAnimation.cs:73-81 | a frame whose records are all blank still loads, as a frame with no layers |
| `Lizard.LizardAnimation.LoadFramesAndSequences` | LizardAnimation.cs:68-86 | appends one filtered frame per raw frame (frame count grows by the raw count); appends group 0 to base and group 1 to overlay, empty when absent or null |
| `Lizard.LizardAnimation.constructor` | LizardAnimation.cs:25-53 | after loading, both indices are 0 and both timers are started |
| `Lizard.LizardAnimation.BaseTick` | LizardAnimation.cs:32-41 | increments the index; when it reaches the count, sets it to count - 1 and stops the base timer; keeps the cursor invariant |
| `Lizard.LizardAnimation.OverlayTick` | LizardAnimation.cs:43-49 | increments the index; when it reaches the count, stops the overlay timer and leaves the index at count |
| `Lizard.BaseAfterClosedForm` | LizardAnimation.cs:32-41 | after k ticks the base cursor is (k, running) while k < count, then (count - 1, stopped); an empty sequence gives index -1 after the first tick |
| `Lizard.OverlayAfterClosedForm` | LizardAnimation.cs:43-49 | after k ticks the overlay cursor is (k, running) while k < count, then (count, stopped); 1 for an empty sequence |
| `Lizard.BaseIndexInRange` | LizardAnimation.cs:34-38 | for a non-empty sequence the base index stays within [0, count - 1] |
| `Lizard.OverlayIndexInRange` | LizardAnimation.cs:45-47 | the overlay index stays within [0, count] and equals count exactly when its timer has stopped |
| `Lizard.BaseFreezesOnLastPose` | LizardAnimation.cs:34-38 | from tick count - 1 on, the base track paints the frame of its last sequence value; from tick count on its timer is stopped |
| `Lizard.OverlayDisappearsAfterLastFrame` | LizardAnimation.cs:114-119 | after count - 1 ticks the overlay paints its last frame; from the count-th tick on it paints nothing and its timer is stopped |
| `Lizard.ReadAsWritten` | LizardAnimation.cs:106-108 | the read as written: paints only for an index inside the sequence naming a library frame; any negative index faults, and so does an in-range index whose value names no frame |
| `Lizard.CurrentFrame` | LizardAnimation.cs:106-116 | paints frames[seq[index]] iff 0 <= index < count and the value names a frame; faults iff the index is in range and its value names no frame |
| `Lizard.ReadAgreesOnNonNegative` | LizardAnimation.cs:106-116 | on a non-negative index the written and the corrected guard agree |
| `Lizard.EmptyBaseFaultsAsWritten` | LizardAnimation.cs:106-108 | with an empty base sequence, the first tick gives index -1 and the read as written faults |
| `Lizard.EmptySequenceNeverPaints` | LizardAnimation.cs:106-116 | with the corrected guard, a track with an empty sequence paints nothing after any number of ticks |
| `Lizard.CorrectionOnlyAffectsEmptyBase` | LizardAnimation.cs:106-116 | on every reachable cursor of a non-empty base track, and of any overlay track, the two guards agree |
| `Lizard.ReachableReadsNeverFault` | LizardAnimation.cs:106-116 | when every sequence value names a frame, no reachable cursor of either track faults |
| `Lizard.CompositeFaultsIffBadValue` | LizardAnimation.cs:93-119 | a Render faults iff the library is non-empty and a track's in-range index holds a value that names no frame |
| `Lizard.CompositeNeverFaultsWhenValid` | LizardAnimation.cs:32-119 | when both sequences name only library frames, every Render reachable by any number of ticks of the two timers draws |
| `Lizard.CompositeAsWritten` | LizardAnimation.cs:93-119 | the Render as written: with a non-empty library, a negative base index faults |
| `Lizard.RenderCorrectionOnlyAffectsEmptyBase` | LizardAnimation.cs:32-108 | on every reachable cursor pair the written and the corrected Render agree, except an empty base sequence with a non-empty library after a base tick, where the written Render faults |
| `Lizard.TwoTrackScenario` | LizardAnimation.cs:32-49 | three frames, base [0,1,2], overlay [2,1]: one tick each paints frame 1 under frame 1; after a second overlay tick only base frame 1 is painted |
| `Lizard.LizardAnimation.Render` | LizardAnimation.cs:89-121 | draws exactly the composite of the two tracks' current frames (corrected guard), layer by layer |
| `Clock.DigitTableRows` | SevenSegmentClock.cs:21-33 | ten rows of seven entries; row 8 lights every slot; row 1 lights exactly slots 1 and 2 |
| `Clock.HorizontalSegment` | SevenSegmentClock.cs:80-93 | a horizontal segment outline has six points |
| `Clock.HorizontalInBox` | SevenSegmentClock.cs:80-93 | a segment no shorter than its chamfer lies in the box l by SegmentWidth at its anchor |
| `Clock.HorizontalSymmetric` | SevenSegmentClock.cs:83-91 | the outline is mirror-symmetric about its vertical and its horizontal centre lines, point for point |
| `Clock.VerticalSegment` | SevenSegmentClock.cs:95-108 | a vertical segment outline has six points |
| `Clock.VerticalIsTransposedHorizontal` | SevenSegmentClock.cs:95-108 | the vertical outline at (x, y) is the horizontal outline at (y, x) with coordinates swapped, in the same point order |
| `Clock.VerticalInBox` | SevenSegmentClock.cs:95-108 | a vertical segment no shorter than its chamfer lies in the box SegmentWidth by l at its anchor |
| `Clock.Rhomb` | SevenSegmentClock.cs:117-127 | a rhombus outline has four points |
| `Clock.RhombIsDiamond` | SevenSegmentClock.cs:117-127 | each corner lies at L1 distance size/2 from the centre of its size-by-size box, inside the box |
| `Clock.Colon` | SevenSegmentClock.cs:110-115 | the colon is two four-point outlines |
| `Clock.ColonShape` | SevenSegmentClock.cs:110-115 | the second rhombus is the first moved down by 4 * size, and lies wholly below it |
| `Clock.SlotOrientation` | SevenSegmentClock.cs:71-77 | slots 0, 3 and 6 are horizontal bars and slots 1, 2, 4 and 5 vertical ones |
| `Clock.SegmentInBox` | SevenSegmentClock.cs:71-77 | every segment of a digit lies in the 58 by 103 box at the digit's anchor |
| `Clock.LitUpToCount` | SevenSegmentClock.cs:71-77 | the first n slots emit one outline per true entry among them |
| `Clock.LitUpToMembers` | SevenSegmentClock.cs:71-77 | an outline is emitted iff it is the outline of a lit slot |
| `Clock.DigitGlyphShape` | SevenSegmentClock.cs:66-78 | a digit emits popcount(row) outlines, six points each, exactly the outlines of its lit slots |
| `Clock.DigitInBox` | SevenSegmentClock.cs:66-78 | every point of a digit lies in its 58 by 103 box at the digit's anchor |
| `Clock.DigitsDoNotOverlap` | SevenSegmentClock.cs:53-57 | every point of an earlier digit lies strictly left of every point of a later digit |
| `Clock.ClockPrefixCount` | SevenSegmentClock.cs:53-63 | the first n digits emit their lit segments, plus two colon outlines exactly when the colon is shown and n >= 2 |
| `Clock.ClockPrefixNonHexagons` | SevenSegmentClock.cs:58-62 | the only outlines that are not six-point segments are the colon rhombi at (165, y + 22) and (165, y + 62), and only while the colon is shown |
| `Clock.ClockPrefixHasColon` | SevenSegmentClock.cs:58-62 | while the colon is shown and there are at least two digits, both rhombi are drawn |
| `Clock.ClockPolygonsShape` | SevenSegmentClock.cs:53-63 | the same three facts for the whole time string |
| `Clock.DrawPolygon` | SevenSegmentClock.cs:129-140 | the figure starts at points[0], adds a line to each later point in order, and is filled and closed; point count preserved |
| `Clock.DrawDigit` | SevenSegmentClock.cs:66-78 | copies the digit's row, then draws exactly the digit's glyph |
| `Clock.DrawSegments` | SevenSegmentClock.cs:71-77 | the seven guarded draws emit the lit slots' outlines in slot order |
| `Clock.DrawColon` | SevenSegmentClock.cs:110-115 | draws exactly the colon's two rhombi, upper first |
| `Clock.SevenSegmentClock.constructor` | SevenSegmentClock.cs:35-44 | the colon starts shown, at zero ticks |
| `Clock.SevenSegmentClock.TimerTick` | SevenSegmentClock.cs:38-42 | negates the colon flag; after k ticks the colon is shown exactly when k is even |
| `Clock.SevenSegmentClock.Render` | SevenSegmentClock.cs:46-64 | draws digit i at x = 95 * i and, after digit 1 while the colon is shown, the colon at (x + 70, y + 22) with size 10 |

## Left out

- File reading, asset paths and JSON deserialization (LizardAnimation.cs:57-67, 84). The loader takes the parsed records as parameters. A null frame or null layer inside the lists would throw and is not modelled.
- `Color.Parse`, `Geometry.Parse`, `SolidColorBrush` and `StreamGeometry` are host calls. Parsing is an opaque constructor that keeps the source string, so a malformed colour or path that makes the host throw is not modelled.
- `DispatcherTimer` scheduling, the 150/110/1000 ms periods and `InvalidateVisual`. A tick is an explicit method call, and the running flags stand in for `Start`/`Stop`.
- The scale/translate `Matrix` and the `Bounds`-dependent offsets (LizardAnimation.cs:96-103, SevenSegmentClock.cs:51). The clock's baseline `y` is a parameter.
- `DateTime.Now.ToString("HHmm")`. The time string is a parameter whose characters are digits.
- `MainWindow.axaml.cs`: window bootstrap and layout only.
- `DrawGeometry` onto a drawing context. The lizard's render returns the painted layers in order, and the clock returns its figures in order.
- Lizard.LizardAnimation.Render: it reads each track with the corrected guard `0 <= index < Count` (`Composite`), not the base guard as written at LizardAnimation.cs:106 (`CompositeAsWritten`). So with an empty base sequence, a non-empty library and at least one base tick, it draws the overlay where the code throws; `RenderCorrectionOnlyAffectsEmptyBase` proves this is the only difference. When a read faults, it returns `Faulted` without the layers that were already drawn before the exception.
- 32-bit overflow of the frame indices is not modelled, because each timer stops once its index reaches the sequence length.

## Findings

| source | as written | input that shows it | evidently intended | confidence | as-written member | corrected member |
|---|---|---|---|---|---|---|
| LizardAnimation.cs:106 | the base read is guarded only by `_baseFrameIndex < _baseSequence.Count` | sequence groups with an empty group 0 and at least one frame: the first base tick sets the index to -1 (line 37), the guard passes, and `_baseSequence[-1]` throws | a track with an empty sequence paints nothing (guard `0 <= index < Count`) | medium, not executed | `Lizard.EmptyBaseFaultsAsWritten` | `Lizard.EmptySequenceNeverPaints` |
