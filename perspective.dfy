/** components/guitar-hero/utils/perspective.ts: the highway narrows linearly from
    its bottom width at the bottom of the screen to a third of the screen at the
    perspective start, 40% down; notes and lanes follow it. */
module Perspective {
  import opened Types

  function PerspectiveStartY(gameHeight: real): real {
    gameHeight * PERSPECTIVE_START_Y_RATIO
  }

  function Clamp01(v: real): (r: real)
    ensures 0.0 <= r <= 1.0
    ensures 0.0 <= v <= 1.0 ==> r == v
  {
    if v < 0.0 then 0.0 else if v > 1.0 then 1.0 else v
  }

  /** How far down the visible highway `noteY` lies, clamped to [0, 1]. On a
      zero-height screen the source divides `noteY` by zero: +Infinity, clamped to 1,
      for a positive `noteY`, -Infinity, clamped to 0, for a negative one, and NaN at
      0. The model takes 0 in all three cases. */
  function PerspectiveRatio(noteY: real, gameHeight: real): (r: real)
    ensures 0.0 <= r <= 1.0
  {
    var span := gameHeight - PerspectiveStartY(gameHeight);
    if span == 0.0 then 0.0 else Clamp01((noteY - PerspectiveStartY(gameHeight)) / span)
  }

  function TopWidth(gameWidth: real): real {
    gameWidth * HIGHWAY_TOP_WIDTH_RATIO
  }

  function BottomWidth(gameWidth: real, isMobile: bool): real {
    gameWidth * (if isMobile then 1.0 else HIGHWAY_BOTTOM_WIDTH_RATIO)
  }

  /** The highway's width at height `noteY`. */
  function WidthAt(noteY: real, gameWidth: real, gameHeight: real, isMobile: bool): real {
    TopWidth(gameWidth)
    + (BottomWidth(gameWidth, isMobile) - TopWidth(gameWidth)) * PerspectiveRatio(noteY, gameHeight)
  }

  /** calculatePerspectiveX: the centre of lane `laneIndex` at height `noteY`. */
  function PerspectiveX(laneIndex: int, noteY: real, gameWidth: real, gameHeight: real, isMobile: bool): real {
    var currentWidth := WidthAt(noteY, gameWidth, gameHeight, isMobile);
    var leftEdge := (gameWidth - currentWidth) / 2.0;
    var lanePosition := laneIndex as real / |FRETS| as real;
    leftEdge + currentWidth * lanePosition + currentWidth / |FRETS| as real / 2.0
  }

  /** At or above the perspective start the highway has its top width; at or below the
      bottom of the screen, its bottom width. */
  lemma WidthAtEnds(noteY: real, gameWidth: real, gameHeight: real, isMobile: bool)
    requires gameHeight > 0.0
    ensures noteY <= PerspectiveStartY(gameHeight) ==>
      WidthAt(noteY, gameWidth, gameHeight, isMobile) == 0.33 * gameWidth
    ensures noteY >= gameHeight ==>
      WidthAt(noteY, gameWidth, gameHeight, isMobile) == (if isMobile then 1.0 else 1.2) * gameWidth
  {
    var span := gameHeight - PerspectiveStartY(gameHeight);
    assert span > 0.0;
    if noteY <= PerspectiveStartY(gameHeight) {
      assert (noteY - PerspectiveStartY(gameHeight)) / span <= 0.0;
    }
    if noteY >= gameHeight {
      QuotientAtLeastOne(noteY - PerspectiveStartY(gameHeight), span);
    }
  }

  lemma QuotientAtLeastOne(a: real, b: real)
    requires b > 0.0 && a >= b
    ensures a / b >= 1.0
  {
  }

  /** The highway is at least its top width wide everywhere, so positive for a positive
      screen width. */
  lemma WidthPositive(noteY: real, gameWidth: real, gameHeight: real, isMobile: bool)
    requires gameWidth > 0.0
    ensures WidthAt(noteY, gameWidth, gameHeight, isMobile) >= TopWidth(gameWidth) > 0.0
  {
    var r := PerspectiveRatio(noteY, gameHeight);
    var grow := BottomWidth(gameWidth, isMobile) - TopWidth(gameWidth);
    assert grow >= 0.0;
    assert grow * r >= 0.0;
  }

  /** Lane x is its centre: a half-lane in from the left edge, one lane width apart. */
  lemma LaneCentre(laneIndex: int, noteY: real, gameWidth: real, gameHeight: real, isMobile: bool)
    ensures var w := WidthAt(noteY, gameWidth, gameHeight, isMobile);
      PerspectiveX(laneIndex, noteY, gameWidth, gameHeight, isMobile)
        == (gameWidth - w) / 2.0 + w * (laneIndex as real + 0.5) / 5.0
  {
  }

  /** The middle lane always sits in the middle of the screen. */
  lemma MiddleLaneCentred(noteY: real, gameWidth: real, gameHeight: real, isMobile: bool)
    ensures PerspectiveX(2, noteY, gameWidth, gameHeight, isMobile) == gameWidth / 2.0
  {
    LaneCentre(2, noteY, gameWidth, gameHeight, isMobile);
  }

  /** At any height, lanes further right are drawn further right. */
  lemma LanesOrdered(a: int, b: int, noteY: real, gameWidth: real, gameHeight: real, isMobile: bool)
    requires a < b && gameWidth > 0.0
    ensures PerspectiveX(a, noteY, gameWidth, gameHeight, isMobile) < PerspectiveX(b, noteY, gameWidth, gameHeight, isMobile)
  {
    var w := WidthAt(noteY, gameWidth, gameHeight, isMobile);
    WidthPositive(noteY, gameWidth, gameHeight, isMobile);
    LaneCentre(a, noteY, gameWidth, gameHeight, isMobile);
    LaneCentre(b, noteY, gameWidth, gameHeight, isMobile);
    var u, v := a as real + 0.5, b as real + 0.5;
    ScaleStrictlyMonotone(w, u, v);
  }

  lemma ScaleStrictlyMonotone(w: real, u: real, v: real)
    requires w > 0.0 && u < v
    ensures w * u / 5.0 < w * v / 5.0
  {
    assert w * v - w * u == w * (v - u);
    assert w * (v - u) > 0.0;
  }

  // ---------------------------------------------------------------------------
  // calculateNoteSize

  const BASE_SIZE: real := 18.0

  datatype NoteSize = NoteSize(vertical: real, horizontal: real, base: real)

  function CalculateNoteSize(noteY: real, gameHeight: real): NoteSize {
    var r := PerspectiveRatio(noteY, gameHeight);
    NoteSize(BASE_SIZE * (0.6 + 0.4 * r), BASE_SIZE * (0.9 + 1.2 * r), BASE_SIZE)
  }

  /** Note sizes stay within their far and near extremes. */
  lemma NoteSizeBounds(noteY: real, gameHeight: real)
    ensures var s := CalculateNoteSize(noteY, gameHeight);
      && s.base == 18.0
      && 10.8 <= s.vertical <= 18.0
      && 16.2 <= s.horizontal <= 37.8
  {
  }

  /** The perspective ratio does not decrease down the screen. */
  lemma RatioMonotone(y1: real, y2: real, gameHeight: real)
    requires y1 <= y2 && gameHeight > 0.0
    ensures PerspectiveRatio(y1, gameHeight) <= PerspectiveRatio(y2, gameHeight)
  {
    var span := gameHeight - PerspectiveStartY(gameHeight);
    var ps := PerspectiveStartY(gameHeight);
    assert span > 0.0;
    assert (y1 - ps) / span <= (y2 - ps) / span by {
      assert (y2 - ps) / span - (y1 - ps) / span == (y2 - y1) / span;
    }
  }

  /** Notes grow, never shrink, as they come down the highway. */
  lemma NoteSizeMonotone(y1: real, y2: real, gameHeight: real)
    requires y1 <= y2 && gameHeight > 0.0
    ensures CalculateNoteSize(y1, gameHeight).vertical <= CalculateNoteSize(y2, gameHeight).vertical
    ensures CalculateNoteSize(y1, gameHeight).horizontal <= CalculateNoteSize(y2, gameHeight).horizontal
  {
    RatioMonotone(y1, y2, gameHeight);
  }

  // ---------------------------------------------------------------------------
  // calculateLanePositions

  const HORIZONTAL_LINES: nat := 15

  /** The lane boundaries at the fret line, computed one by one. */
  method LaneBoundaries(gameWidth: real, gameHeight: real, fretY: real, isMobile: bool)
    returns (positions: seq<real>)
    ensures |positions| == |FRETS| + 1
    ensures forall i :: 0 <= i < |positions| ==>
      var w := WidthAt(fretY, gameWidth, gameHeight, isMobile);
        positions[i] == (gameWidth - w) / 2.0 + w * (i as real / 5.0)
  {
    var highwayTopWidth := TopWidth(gameWidth);
    var highwayBottomWidth := BottomWidth(gameWidth, isMobile);
    positions := [];
    var i := 0;
    while i <= |FRETS|
      invariant 0 <= i <= |FRETS| + 1
      invariant |positions| == i
      invariant forall k :: 0 <= k < i ==>
        var w := WidthAt(fretY, gameWidth, gameHeight, isMobile);
          positions[k] == (gameWidth - w) / 2.0 + w * (k as real / 5.0)
    {
      var lanePosition := i as real / |FRETS| as real;
      var perspectiveRatio := PerspectiveRatio(fretY, gameHeight);
      var currentWidth := highwayTopWidth + (highwayBottomWidth - highwayTopWidth) * perspectiveRatio;
      var leftEdge := (gameWidth - currentWidth) / 2.0;
      positions := positions + [leftEdge + currentWidth * lanePosition];
      i := i + 1;
    }
  }

  /** calculateLanePositions: fifteen horizontal lines from the perspective start, a
      tenth of the visible highway apart, and the five lane centres at the fret line,
      each the midpoint of its two boundaries and so where calculatePerspectiveX puts
      that lane. */
  method CalculateLanePositions(gameWidth: real, gameHeight: real, fretY: real, isMobile: bool)
    returns (horizontalLinePositions: seq<real>, lanePositions: seq<real>)
    ensures |horizontalLinePositions| == HORIZONTAL_LINES
    ensures forall i :: 0 <= i < HORIZONTAL_LINES ==>
      horizontalLinePositions[i]
        == PerspectiveStartY(gameHeight) + i as real * ((gameHeight - PerspectiveStartY(gameHeight)) / 10.0)
    ensures |lanePositions| == |FRETS|
    ensures forall i :: 0 <= i < |FRETS| ==>
      lanePositions[i] == PerspectiveX(i, fretY, gameWidth, gameHeight, isMobile)
  {
    var perspectiveStartY := PerspectiveStartY(gameHeight);
    var lineSpacing := (gameHeight - perspectiveStartY) / 10.0;
    horizontalLinePositions := [];
    var i := 0;
    while i < HORIZONTAL_LINES
      invariant 0 <= i <= HORIZONTAL_LINES
      invariant |horizontalLinePositions| == i
      invariant forall k :: 0 <= k < i ==> horizontalLinePositions[k] == perspectiveStartY + k as real * lineSpacing
    {
      horizontalLinePositions := horizontalLinePositions + [perspectiveStartY + i as real * lineSpacing];
      i := i + 1;
    }
    var positions := LaneBoundaries(gameWidth, gameHeight, fretY, isMobile);
    lanePositions := [];
    var j := 0;
    while j < |FRETS|
      invariant 0 <= j <= |FRETS|
      invariant |lanePositions| == j
      invariant forall k :: 0 <= k < j ==> lanePositions[k] == PerspectiveX(k, fretY, gameWidth, gameHeight, isMobile)
    {
      MidpointIsCentre(j, positions[j], positions[j + 1], fretY, gameWidth, gameHeight, isMobile);
      lanePositions := lanePositions + [(positions[j] + positions[j + 1]) / 2.0];
      j := j + 1;
    }
  }

  /** The midpoint of two consecutive boundaries is the lane's centre. */
  lemma MidpointIsCentre(i: int, left: real, right: real, fretY: real, gameWidth: real, gameHeight: real, isMobile: bool)
    requires var w := WidthAt(fretY, gameWidth, gameHeight, isMobile);
      && left == (gameWidth - w) / 2.0 + w * (i as real / 5.0)
      && right == (gameWidth - w) / 2.0 + w * ((i + 1) as real / 5.0)
    ensures (left + right) / 2.0 == PerspectiveX(i, fretY, gameWidth, gameHeight, isMobile)
  {
    var w := WidthAt(fretY, gameWidth, gameHeight, isMobile);
    LaneCentre(i, fretY, gameWidth, gameHeight, isMobile);
    assert w * (i as real / 5.0) + w * ((i + 1) as real / 5.0) == 2.0 * (w * (i as real + 0.5) / 5.0);
  }
}
