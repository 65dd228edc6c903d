/** components/guitar-hero/utils/note-generator.ts: the fallback notes the game plays
    when no chart is loaded. Each note takes a random lane and a random time in the
    first ten seconds; the Math.random values are parameters. Its calculateNotePosition
    is the same expression as note-renderer.ts's and is modelled once, as
    NoteRenderer.NotePosition. */
module NoteGenerator {
  import opened Types
  import opened JsMath
  import opened NoteRenderer

  /** Fallback note times are spread over this many milliseconds. */
  const TIME_SPREAD: real := 10000.0

  /** The two Math.random values one note consumes: its lane and its time. */
  datatype NoteDraw = NoteDraw(lane: real, time: real)

  predicate DrawOk(d: NoteDraw) {
    0.0 <= d.lane < 1.0 && 0.0 <= d.time < 1.0
  }

  /** The note built from one draw: a tap note (no duration) off-screen at y = -100. */
  function RandomNote(d: NoteDraw): Note
    requires DrawOk(d)
  {
    ScaledRange(d.lane, LANE_COUNT);
    Note(FRETS[Scaled(d.lane, LANE_COUNT)], INITIAL_Y, d.time * TIME_SPREAD, false, false, 0.0)
  }

  /** The fallback notes for a sequence of draws, in draw order. */
  function RandomNotes(draws: seq<NoteDraw>): seq<Note>
    requires forall k :: 0 <= k < |draws| ==> DrawOk(draws[k])
  {
    seq(|draws|, k requires 0 <= k < |draws| => RandomNote(draws[k]))
  }

  /** generateRandomNotes. */
  method GenerateRandomNotes(count: nat, draws: seq<NoteDraw>) returns (notes: seq<Note>)
    requires |draws| >= count && forall k :: 0 <= k < |draws| ==> DrawOk(draws[k])
    ensures notes == RandomNotes(draws[..count])
  {
    notes := [];
    var colors := FRETS;
    var i := 0;
    while i < count
      invariant 0 <= i <= count
      invariant notes == RandomNotes(draws[..i])
    {
      ScaledRange(draws[i].lane, |colors|);
      var color := colors[Scaled(draws[i].lane, |colors|)];
      var timestamp := draws[i].time * TIME_SPREAD;
      notes := notes + [Note(color, INITIAL_Y, timestamp, false, false, 0.0)];
      assert draws[..i + 1] == draws[..i] + [draws[i]];
      i := i + 1;
    }
  }

  /** Exactly `count` notes, each an unplayed tap note at y = -100 whose time lies in
      [0, 10000) and whose lane is the drawn one. */
  lemma RandomNotesShape(draws: seq<NoteDraw>)
    requires forall k :: 0 <= k < |draws| ==> DrawOk(draws[k])
    ensures var notes := RandomNotes(draws);
      && |notes| == |draws|
      && forall k :: 0 <= k < |notes| ==>
           && notes[k].y == INITIAL_Y && !notes[k].hit && !notes[k].missed && notes[k].duration == 0.0
           && 0.0 <= notes[k].timestamp < TIME_SPREAD
           && LaneIndex(notes[k].color) == Scaled(draws[k].lane, LANE_COUNT)
  {
    var notes := RandomNotes(draws);
    forall k | 0 <= k < |notes|
      ensures 0.0 <= notes[k].timestamp < TIME_SPREAD
      ensures LaneIndex(notes[k].color) == Scaled(draws[k].lane, LANE_COUNT)
    {
      ScaledRange(draws[k].lane, LANE_COUNT);
      TimeInSpread(draws[k].time);
    }
  }

  lemma TimeInSpread(r: real)
    requires 0.0 <= r < 1.0
    ensures 0.0 <= r * TIME_SPREAD < TIME_SPREAD
  {
  }

  /** At the start of a song (time 0) no fallback note has reached the fret line
      yet, and each reaches it exactly at its timestamp. */
  lemma FallbackNotesStartAbove(draws: seq<NoteDraw>, fretY: real, k: nat)
    requires forall j :: 0 <= j < |draws| ==> DrawOk(draws[j])
    requires k < |draws|
    ensures var n := RandomNotes(draws)[k];
      && NotePosition(n.timestamp, 0.0, fretY, NOTE_SPEED) <= fretY
      && NotePosition(n.timestamp, n.timestamp, fretY, NOTE_SPEED) == fretY
  {
    RandomNotesShape(draws);
  }
}
