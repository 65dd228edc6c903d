/** Shared game types and constants (components/guitar-hero/types.ts). */
module Types {

  /** The five lanes, in fret order; the source uses their colour names as strings. */
  datatype Colour = Green | Red | Yellow | Blue | Orange

  const HIT_THRESHOLD: real := 30.0
  const MAX_MISSES: nat := 10
  /** Pixels per second. */
  const NOTE_SPEED: real := 300.0
  const LANE_COUNT: nat := 5

  const HIGHWAY_TOP_WIDTH_RATIO: real := 0.33
  const HIGHWAY_BOTTOM_WIDTH_RATIO: real := 1.2
  const PERSPECTIVE_START_Y_RATIO: real := 0.4

  /** The y a freshly created note carries before its first placement. */
  const INITIAL_Y: real := -100.0

  /** FRETS: the lane colours in order. */
  const FRETS: seq<Colour> := [Green, Red, Yellow, Blue, Orange]

  /** Position of a colour in FRETS (`FRETS.findIndex`). */
  function LaneIndex(c: Colour): (i: nat)
    ensures i < LANE_COUNT && FRETS[i] == c
  {
    match c
    case Green => 0
    case Red => 1
    case Yellow => 2
    case Blue => 3
    case Orange => 4
  }

  /** A runtime note. `duration` 0 stands for both "no duration" and a zero-length
      sustain: the source tests it for truthiness only. Note ids are not modelled:
      a note's identity is its position in the master note list. */
  datatype Note = Note(color: Colour, y: real, timestamp: real, hit: bool, missed: bool, duration: real)

  datatype HitEffect = HitEffect(x: real, y: real, color: Colour, frame: real)

  datatype AccuracyStats = AccuracyStats(perfect: nat, great: nat, good: nat, missed: nat)

  const ZERO_STATS: AccuracyStats := AccuracyStats(0, 0, 0, 0)

  datatype Dimensions = Dimensions(width: real, height: real, fretY: real)
}
