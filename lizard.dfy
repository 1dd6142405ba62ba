/**
 * The dual-track sprite player of LizardAnimation.cs: the frame library with
 * its loader, the base and overlay playback cursors with their timer handlers,
 * and the read step of Render that picks each track's frame.
 */
module Lizard {
  import opened Wrappers

  // ------------------------------------------------------------------
  // Layer records and the frame library
  // ------------------------------------------------------------------

  /** A layer record as deserialized; a field that is absent or null arrives as None. */
  datatype FrameLayer = FrameLayer(color: Option<string>, geometry: Option<string>)

  /** Opaque results of the host's Color.Parse and Geometry.Parse. */
  datatype Color = ParsedColor(source: string)
  datatype Geometry = ParsedGeometry(source: string)
  datatype Brush = SolidColorBrush(color: Color)

  /** One paint layer: a solid fill and the shape it fills. */
  datatype Layer = Layer(fill: Brush, shape: Geometry)

  /** A frame is its layers in paint order, back to front. */
  type Frame = seq<Layer>

  /** char.IsWhiteSpace: TAB..CR, NEL, and the Unicode space, line and paragraph separators. */
  predicate IsWhiteSpace(c: char) {
    ('\t' <= c <= '\r') || c == ' ' || c == '\U{0085}' || c == '\U{00A0}' || c == '\U{1680}'
    || ('\U{2000}' <= c <= '\U{200A}') || c == '\U{2028}' || c == '\U{2029}'
    || c == '\U{202F}' || c == '\U{205F}' || c == '\U{3000}'
  }

  /** string.IsNullOrWhiteSpace. */
  predicate IsNullOrWhiteSpace(s: Option<string>) {
    s.None? || forall i :: 0 <= i < |s.value| ==> IsWhiteSpace(s.value[i])
  }

  /** A layer record is loaded exactly when neither of its strings is blank. */
  predicate Kept(l: FrameLayer) {
    !IsNullOrWhiteSpace(l.color) && !IsNullOrWhiteSpace(l.geometry)
  }

  function ParseLayer(l: FrameLayer): Layer
    requires Kept(l)
  {
    Layer(SolidColorBrush(ParsedColor(l.color.value)), ParsedGeometry(l.geometry.value))
  }

  /** The layers the loader keeps from one raw frame, in record order. */
  function FilterLayers(raw: seq<FrameLayer>): (r: Frame)
    ensures |r| <= |raw|
    ensures |r| == |raw| <==> forall i :: 0 <= i < |raw| ==> Kept(raw[i])
  {
    if raw == [] then []
    else
      var front, last := raw[..|raw| - 1], raw[|raw| - 1];
      assert forall i :: 0 <= i < |front| ==> front[i] == raw[i];
      FilterLayers(front) + (if Kept(last) then [ParseLayer(last)] else [])
  }

  /** The frame library built from the raw frames: one frame per raw frame, blank layers dropped. */
  function LoadedFrames(rawFrames: seq<seq<FrameLayer>>): seq<Frame> {
    seq(|rawFrames|, i requires 0 <= i < |rawFrames| => FilterLayers(rawFrames[i]))
  }

  /** Element k of the sequence groups, or the empty sequence when it is absent or null. */
  function SequenceGroup(groups: seq<Option<seq<int>>>, k: nat): seq<int> {
    if k < |groups| && groups[k].Some? then groups[k].value else []
  }

  /** Filtering distributes over concatenation, so layers keep their record order. */
  lemma {:induction false} FilterLayersAppend(a: seq<FrameLayer>, b: seq<FrameLayer>)
    ensures FilterLayers(a + b) == FilterLayers(a) + FilterLayers(b)
    decreases |b|
  {
    if b == [] {
      assert a + b == a;
    } else {
      var front := b[..|b| - 1];
      assert (a + b)[..|a + b| - 1] == a + front;
      assert (a + b)[|a + b| - 1] == b[|b| - 1];
      FilterLayersAppend(a, front);
    }
  }

  /** A layer is loaded exactly when it is the parse of some non-blank record of the frame. */
  lemma {:induction false} FilterLayersMembers(raw: seq<FrameLayer>, layer: Layer)
    ensures layer in FilterLayers(raw) <==>
            exists i :: 0 <= i < |raw| && Kept(raw[i]) && ParseLayer(raw[i]) == layer
  {
    if raw != [] {
      var front := raw[..|raw| - 1];
      FilterLayersMembers(front, layer);
      assert forall i :: 0 <= i < |front| ==> front[i] == raw[i];
      if layer in FilterLayers(front) {
        var i :| 0 <= i < |front| && Kept(front[i]) && ParseLayer(front[i]) == layer;
        assert raw[i] == front[i];
      }
    }
  }

  /** A frame whose records are all blank loads as a frame with no layers. */
  lemma {:induction false} AllBlankFrameIsEmpty(raw: seq<FrameLayer>)
    requires forall i :: 0 <= i < |raw| ==> !Kept(raw[i])
    ensures FilterLayers(raw) == []
  {
    if raw != [] {
      AllBlankFrameIsEmpty(raw[..|raw| - 1]);
    }
  }

  // ------------------------------------------------------------------
  // Playback cursors
  // ------------------------------------------------------------------

  /** A playback cursor: the track's index into its sequence and whether its timer is started. */
  datatype Cursor = Cursor(index: int, running: bool)

  /** The base timer's Tick handler: advance, and on overrun clamp to the last index and stop. */
  function BaseStep(c: Cursor, count: nat): Cursor {
    if c.index + 1 >= count then Cursor(count - 1, false) else Cursor(c.index + 1, c.running)
  }

  /** The overlay timer's Tick handler: advance, and on overrun stop, leaving the index past the end. */
  function OverlayStep(c: Cursor, count: nat): Cursor {
    if c.index + 1 >= count then Cursor(c.index + 1, false) else Cursor(c.index + 1, c.running)
  }

  /** The base cursor after k timer periods from the start; a stopped timer fires no more. */
  function BaseAfter(count: nat, k: nat): Cursor {
    if k == 0 then Cursor(0, true)
    else
      var c := BaseAfter(count, k - 1);
      if c.running then BaseStep(c, count) else c
  }

  /** The overlay cursor after k timer periods from the start. */
  function OverlayAfter(count: nat, k: nat): Cursor {
    if k == 0 then Cursor(0, true)
    else
      var c := OverlayAfter(count, k - 1);
      if c.running then OverlayStep(c, count) else c
  }

  /**
   * The base track runs through its sequence one index per tick and, at the
   * tick that overruns, freezes on the last index with its timer stopped.
   */
  lemma {:induction false} BaseAfterClosedForm(count: nat, k: nat)
    ensures BaseAfter(count, k) ==
            if k == 0 then Cursor(0, true)
            else if k < count then Cursor(k, true)
            else Cursor(count - 1, false)
  {
    if k > 0 {
      BaseAfterClosedForm(count, k - 1);
    }
  }

  /**
   * The overlay track runs through its sequence one index per tick and, at
   * the tick that overruns, stops one past the last index (at 1 for an empty sequence).
   */
  lemma {:induction false} OverlayAfterClosedForm(count: nat, k: nat)
    ensures OverlayAfter(count, k) ==
            if k == 0 then Cursor(0, true)
            else if k < count then Cursor(k, true)
            else Cursor(if count == 0 then 1 else count, false)
  {
    if k > 0 {
      OverlayAfterClosedForm(count, k - 1);
    }
  }

  /** For a non-empty sequence the base index never leaves [0, count - 1]. */
  lemma BaseIndexInRange(count: nat, k: nat)
    requires count > 0
    ensures 0 <= BaseAfter(count, k).index < count
  {
    BaseAfterClosedForm(count, k);
  }

  /** The overlay index never leaves [0, count], and reaches count only once the timer is stopped. */
  lemma OverlayIndexInRange(count: nat, k: nat)
    requires count > 0
    ensures 0 <= OverlayAfter(count, k).index <= count
    ensures OverlayAfter(count, k).index == count <==> !OverlayAfter(count, k).running
  {
    OverlayAfterClosedForm(count, k);
  }

  // ------------------------------------------------------------------
  // Reading a track's frame
  // ------------------------------------------------------------------

  /**
   * What a track contributes to one Render: the layers of its frame, nothing,
   * or the ArgumentOutOfRangeException that the list indexers throw.
   */
  datatype Read = Paints(layers: Frame) | PaintsNothing | OutOfRange

  /** Render's read step as written: it guards only with index < Count. */
  function ReadAsWritten(frames: seq<Frame>, sequence: seq<int>, index: int): (r: Read)
    ensures r.Paints? ==> 0 <= index < |sequence| && 0 <= sequence[index] < |frames|
                          && r.layers == frames[sequence[index]]
    ensures index < 0 ==> r == OutOfRange
    ensures 0 <= index < |sequence| && !(0 <= sequence[index] < |frames|) ==> r == OutOfRange
  {
    if index < |sequence| then
      if 0 <= index && 0 <= sequence[index] < |frames| then Paints(frames[sequence[index]])
      else OutOfRange
    else PaintsNothing
  }

  /** The read step with the guard 0 <= index < Count: a track outside its sequence paints nothing. */
  function CurrentFrame(frames: seq<Frame>, sequence: seq<int>, index: int): (r: Read)
    ensures r.Paints? <==> 0 <= index < |sequence| && 0 <= sequence[index] < |frames|
    ensures r.Paints? ==> r.layers == frames[sequence[index]]
    ensures r.OutOfRange? <==> 0 <= index < |sequence| && !(0 <= sequence[index] < |frames|)
  {
    if 0 <= index < |sequence| then
      if 0 <= sequence[index] < |frames| then Paints(frames[sequence[index]]) else OutOfRange
    else PaintsNothing
  }

  /** Every value of the sequence names a frame of the library (the loader does not check this). */
  predicate ValidSequence(frames: seq<Frame>, sequence: seq<int>) {
    forall i :: 0 <= i < |sequence| ==> 0 <= sequence[i] < |frames|
  }

  /** On a non-negative index the two guards agree. */
  lemma ReadAgreesOnNonNegative(frames: seq<Frame>, sequence: seq<int>, index: int)
    requires index >= 0
    ensures ReadAsWritten(frames, sequence, index) == CurrentFrame(frames, sequence, index)
  {
  }

  /**
   * The guard as written lets the base cursor of an empty sequence through
   * after its first tick (index -1), so the read throws.
   */
  lemma EmptyBaseFaultsAsWritten(frames: seq<Frame>)
    ensures BaseAfter(0, 1) == Cursor(-1, false)
    ensures ReadAsWritten(frames, [], BaseAfter(0, 1).index) == OutOfRange
  {
  }

  /** With the corrected guard a track with an empty sequence never paints and never faults. */
  lemma EmptySequenceNeverPaints(frames: seq<Frame>, k: nat)
    ensures CurrentFrame(frames, [], BaseAfter(0, k).index) == PaintsNothing
    ensures CurrentFrame(frames, [], OverlayAfter(0, k).index) == PaintsNothing
  {
  }

  /** The correction changes nothing for a non-empty base sequence nor for any overlay sequence. */
  lemma {:induction false} CorrectionOnlyAffectsEmptyBase(frames: seq<Frame>, sequence: seq<int>, k: nat)
    ensures |sequence| > 0 ==>
            ReadAsWritten(frames, sequence, BaseAfter(|sequence|, k).index)
            == CurrentFrame(frames, sequence, BaseAfter(|sequence|, k).index)
    ensures ReadAsWritten(frames, sequence, OverlayAfter(|sequence|, k).index)
            == CurrentFrame(frames, sequence, OverlayAfter(|sequence|, k).index)
  {
    BaseAfterClosedForm(|sequence|, k);
    OverlayAfterClosedForm(|sequence|, k);
  }

  /** When the sequence is valid for the library, no reachable cursor of either track faults. */
  lemma {:induction false} ReachableReadsNeverFault(frames: seq<Frame>, sequence: seq<int>, k: nat)
    requires ValidSequence(frames, sequence)
    ensures !CurrentFrame(frames, sequence, BaseAfter(|sequence|, k).index).OutOfRange?
    ensures !CurrentFrame(frames, sequence, OverlayAfter(|sequence|, k).index).OutOfRange?
  {
    BaseAfterClosedForm(|sequence|, k);
    OverlayAfterClosedForm(|sequence|, k);
  }

  /** Once k >= count - 1, the base track paints the frame of its last sequence value, for good. */
  lemma {:induction false} BaseFreezesOnLastPose(frames: seq<Frame>, sequence: seq<int>, k: nat)
    requires |sequence| > 0 && 0 <= sequence[|sequence| - 1] < |frames|
    requires k >= |sequence| - 1
    ensures CurrentFrame(frames, sequence, BaseAfter(|sequence|, k).index)
            == Paints(frames[sequence[|sequence| - 1]])
    ensures k >= |sequence| ==> !BaseAfter(|sequence|, k).running
  {
    BaseAfterClosedForm(|sequence|, k);
  }

  /**
   * After count - 1 ticks the overlay still paints its last frame; from the
   * count-th tick on, it paints nothing and its timer is stopped.
   */
  lemma {:induction false} OverlayDisappearsAfterLastFrame(frames: seq<Frame>, sequence: seq<int>, k: nat)
    requires |sequence| > 0
    ensures k == |sequence| - 1 && 0 <= sequence[|sequence| - 1] < |frames| ==>
            CurrentFrame(frames, sequence, OverlayAfter(|sequence|, k).index)
            == Paints(frames[sequence[|sequence| - 1]])
    ensures k >= |sequence| ==>
            CurrentFrame(frames, sequence, OverlayAfter(|sequence|, k).index) == PaintsNothing
            && !OverlayAfter(|sequence|, k).running
  {
    OverlayAfterClosedForm(|sequence|, k);
  }

  // ------------------------------------------------------------------
  // Compositing
  // ------------------------------------------------------------------

  /** The layers one Render draws, in order, or the fault that aborts it. */
  datatype RenderOutcome = Drawn(layers: seq<Layer>) | Faulted

  function Painted(r: Read): seq<Layer> {
    if r.Paints? then r.layers else []
  }

  /** One Render: nothing for an empty library, else the base frame's layers under the overlay frame's. */
  function Composite(frames: seq<Frame>, baseSequence: seq<int>, baseIndex: int,
                     overlaySequence: seq<int>, overlayIndex: int): RenderOutcome
  {
    if |frames| == 0 then Drawn([])
    else
      var b := CurrentFrame(frames, baseSequence, baseIndex);
      var o := CurrentFrame(frames, overlaySequence, overlayIndex);
      if b.OutOfRange? || o.OutOfRange? then Faulted else Drawn(Painted(b) + Painted(o))
  }

  /** A Render faults exactly when the library is non-empty and a track's in-range index holds a value naming no frame. */
  lemma CompositeFaultsIffBadValue(frames: seq<Frame>, baseSequence: seq<int>, baseIndex: int,
                                   overlaySequence: seq<int>, overlayIndex: int)
    ensures Composite(frames, baseSequence, baseIndex, overlaySequence, overlayIndex).Faulted?
            <==> |frames| > 0
                 && ((0 <= baseIndex < |baseSequence| && !(0 <= baseSequence[baseIndex] < |frames|))
                     || (0 <= overlayIndex < |overlaySequence| && !(0 <= overlaySequence[overlayIndex] < |frames|)))
  {
  }

  /**
   * When both sequences name only library frames, no Render reachable by
   * ticking faults, and it paints the base frame's layers under the
   * overlay frame's.
   */
  lemma CompositeNeverFaultsWhenValid(frames: seq<Frame>, baseSequence: seq<int>, overlaySequence: seq<int>,
                                      k1: nat, k2: nat)
    requires ValidSequence(frames, baseSequence) && ValidSequence(frames, overlaySequence)
    ensures Composite(frames, baseSequence, BaseAfter(|baseSequence|, k1).index,
                      overlaySequence, OverlayAfter(|overlaySequence|, k2).index).Drawn?
  {
    ReachableReadsNeverFault(frames, baseSequence, k1);
    ReachableReadsNeverFault(frames, overlaySequence, k2);
  }

  /** One Render with the base guard as written: index < Count on both tracks. */
  function CompositeAsWritten(frames: seq<Frame>, baseSequence: seq<int>, baseIndex: int,
                              overlaySequence: seq<int>, overlayIndex: int): (r: RenderOutcome)
    ensures |frames| > 0 && baseIndex < 0 ==> r == Faulted
  {
    if |frames| == 0 then Drawn([])
    else
      var b := ReadAsWritten(frames, baseSequence, baseIndex);
      var o := ReadAsWritten(frames, overlaySequence, overlayIndex);
      if b.OutOfRange? || o.OutOfRange? then Faulted else Drawn(Painted(b) + Painted(o))
  }

  /**
   * On every reachable pair of cursors the written and the corrected Render
   * agree, except when the base sequence is empty, the library is not and the
   * base timer has ticked: then the written Render faults.
   */
  lemma {:induction false} RenderCorrectionOnlyAffectsEmptyBase(frames: seq<Frame>, baseSequence: seq<int>,
                                                                 overlaySequence: seq<int>, k1: nat, k2: nat)
    ensures |baseSequence| > 0 || |frames| == 0 || k1 == 0 ==>
            CompositeAsWritten(frames, baseSequence, BaseAfter(|baseSequence|, k1).index,
                               overlaySequence, OverlayAfter(|overlaySequence|, k2).index)
            == Composite(frames, baseSequence, BaseAfter(|baseSequence|, k1).index,
                         overlaySequence, OverlayAfter(|overlaySequence|, k2).index)
    ensures |baseSequence| == 0 && |frames| > 0 && k1 > 0 ==>
            CompositeAsWritten(frames, baseSequence, BaseAfter(0, k1).index,
                               overlaySequence, OverlayAfter(|overlaySequence|, k2).index) == Faulted
  {
    BaseAfterClosedForm(|baseSequence|, k1);
    CorrectionOnlyAffectsEmptyBase(frames, baseSequence, k1);
    CorrectionOnlyAffectsEmptyBase(frames, overlaySequence, k2);
  }

  /**
   * Three frames, base [0, 1, 2], overlay [2, 1]: after one tick of each,
   * frame 1 is painted under frame 1; after a second overlay tick the overlay
   * is gone while the base still paints frame 1.
   */
  lemma TwoTrackScenario(frames: seq<Frame>)
    requires |frames| == 3
    ensures Composite(frames, [0, 1, 2], BaseAfter(3, 1).index, [2, 1], OverlayAfter(2, 1).index)
            == Drawn(frames[1] + frames[1])
    ensures Composite(frames, [0, 1, 2], BaseAfter(3, 1).index, [2, 1], OverlayAfter(2, 2).index)
            == Drawn(frames[1])
  {
    assert BaseAfter(3, 1) == Cursor(1, true);
    assert OverlayAfter(2, 1) == Cursor(1, true);
    assert OverlayAfter(2, 2) == Cursor(2, false);
    assert frames[1] + [] == frames[1];
  }

  // ------------------------------------------------------------------
  // The control
  // ------------------------------------------------------------------

  class LizardAnimation {
    var frames: seq<Frame>
    var baseSequence: seq<int>
    var overlaySequence: seq<int>
    var baseFrameIndex: int
    var overlayFrameIndex: int
    var baseTimerRunning: bool
    var overlayTimerRunning: bool
    /** Handler runs so far, one counter per timer. */
    ghost var baseTicks: nat
    ghost var overlayTicks: nat

    /** Each cursor is where its track's tick count puts it. */
    ghost predicate Valid()
      reads this
    {
      Cursor(baseFrameIndex, baseTimerRunning) == BaseAfter(|baseSequence|, baseTicks)
      && Cursor(overlayFrameIndex, overlayTimerRunning) == OverlayAfter(|overlaySequence|, overlayTicks)
    }

    /** Loads the library and both sequences, then starts both timers with both indices at 0. */
    constructor (rawFrames: seq<seq<FrameLayer>>, sequenceGroups: seq<Option<seq<int>>>)
      ensures Valid() && baseTicks == 0 && overlayTicks == 0
      ensures frames == LoadedFrames(rawFrames)
      ensures baseSequence == SequenceGroup(sequenceGroups, 0)
      ensures overlaySequence == SequenceGroup(sequenceGroups, 1)
    {
      frames, baseSequence, overlaySequence := [], [], [];
      baseFrameIndex, overlayFrameIndex := 0, 0;
      baseTimerRunning, overlayTimerRunning := false, false;
      baseTicks, overlayTicks := 0, 0;
      new;
      LoadFramesAndSequences(rawFrames, sequenceGroups);
      baseTimerRunning, overlayTimerRunning := true, true;
    }

    /** Appends one frame per raw frame (blank layers dropped), then group 0 to base and group 1 to overlay. */
    method LoadFramesAndSequences(rawFrames: seq<seq<FrameLayer>>, sequenceGroups: seq<Option<seq<int>>>)
      modifies this`frames, this`baseSequence, this`overlaySequence
      ensures frames == old(frames) + LoadedFrames(rawFrames)
      ensures |frames| == |old(frames)| + |rawFrames|
      ensures baseSequence == old(baseSequence) + SequenceGroup(sequenceGroups, 0)
      ensures overlaySequence == old(overlaySequence) + SequenceGroup(sequenceGroups, 1)
    {
      for f := 0 to |rawFrames|
        invariant frames == old(frames) + LoadedFrames(rawFrames[..f])
        invariant baseSequence == old(baseSequence) && overlaySequence == old(overlaySequence)
      {
        var frame := rawFrames[f];
        var parsedFrame: Frame := [];
        for j := 0 to |frame|
          invariant parsedFrame == FilterLayers(frame[..j])
        {
          var layer := frame[j];
          assert frame[..j + 1][..j] == frame[..j];
          if IsNullOrWhiteSpace(layer.color) || IsNullOrWhiteSpace(layer.geometry) {
            continue;
          }
          parsedFrame := parsedFrame + [ParseLayer(layer)];
        }
        assert frame[..|frame|] == frame;
        assert LoadedFrames(rawFrames[..f + 1]) == LoadedFrames(rawFrames[..f]) + [FilterLayers(frame)];
        frames := frames + [parsedFrame];
      }
      assert rawFrames[..|rawFrames|] == rawFrames;
      baseSequence := baseSequence + SequenceGroup(sequenceGroups, 0);
      overlaySequence := overlaySequence + SequenceGroup(sequenceGroups, 1);
    }

    /** The base timer's handler; it only runs while that timer is started. */
    method BaseTick()
      requires Valid() && baseTimerRunning
      modifies this`baseFrameIndex, this`baseTimerRunning, this`baseTicks
      ensures Valid() && baseTicks == old(baseTicks) + 1
      ensures Cursor(baseFrameIndex, baseTimerRunning)
              == BaseStep(old(Cursor(baseFrameIndex, baseTimerRunning)), |baseSequence|)
    {
      baseFrameIndex := baseFrameIndex + 1;
      if baseFrameIndex >= |baseSequence| {
        baseFrameIndex := |baseSequence| - 1;
        baseTimerRunning := false;
      }
      baseTicks := baseTicks + 1;
    }

    /** The overlay timer's handler; it only runs while that timer is started. */
    method OverlayTick()
      requires Valid() && overlayTimerRunning
      modifies this`overlayFrameIndex, this`overlayTimerRunning, this`overlayTicks
      ensures Valid() && overlayTicks == old(overlayTicks) + 1
      ensures Cursor(overlayFrameIndex, overlayTimerRunning)
              == OverlayStep(old(Cursor(overlayFrameIndex, overlayTimerRunning)), |overlaySequence|)
    {
      overlayFrameIndex := overlayFrameIndex + 1;
      if overlayFrameIndex >= |overlaySequence| {
        overlayTimerRunning := false;
      }
      overlayTicks := overlayTicks + 1;
    }

    /** Draws the base frame's layers, then the overlay frame's, each in layer order. */
    method Render() returns (r: RenderOutcome)
      ensures r == Composite(frames, baseSequence, baseFrameIndex, overlaySequence, overlayFrameIndex)
    {
      if |frames| == 0 {
        return Drawn([]);
      }
      var painted: seq<Layer> := [];
      var b := CurrentFrame(frames, baseSequence, baseFrameIndex);
      if b.OutOfRange? {
        return Faulted;
      }
      if b.Paints? {
        var frame := b.layers;
        for j := 0 to |frame|
          invariant painted == frame[..j]
        {
          painted := painted + [frame[j]];
        }
      }
      ghost var underneath := painted;
      var o := CurrentFrame(frames, overlaySequence, overlayFrameIndex);
      if o.OutOfRange? {
        return Faulted;
      }
      if o.Paints? {
        var overlayFrame := o.layers;
        for j := 0 to |overlayFrame|
          invariant painted == underneath + overlayFrame[..j]
        {
          painted := painted + [overlayFrame[j]];
        }
      }
      r := Drawn(painted);
    }
  }
}
