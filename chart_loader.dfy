/** loadChartFile (components/guitar-hero/utils/chart-loader.ts): from a parsed chart to
    the runtime notes the game plays, plus the decoded audio when there is one. Fetching
    the chart and decoding the audio are I/O; their outcomes are parameters here. */
module ChartLoader {
  import opened Wrappers
  import opened Types
  import opened Sorting
  import opened ChartParser

  /** A chart note turned into a runtime note: off-screen, neither hit nor missed. */
  function FreshNote(n: ChartNote): Note {
    Note(n.color, INITIAL_Y, n.timestamp, false, false, n.duration)
  }

  /** `data.notes.map(...)`. */
  function RuntimeNotes(notes: seq<ChartNote>): (r: seq<Note>)
    ensures |r| == |notes|
    ensures forall i :: 0 <= i < |notes| ==>
      && r[i].color == notes[i].color
      && r[i].timestamp == notes[i].timestamp
      && r[i].duration == notes[i].duration
      && r[i].y == INITIAL_Y && !r[i].hit && !r[i].missed
  {
    if notes == [] then [] else [FreshNote(notes[0])] + RuntimeNotes(notes[1..])
  }

  function NoteStamp(n: Note): real { n.timestamp }

  /** The chart's notes come sorted by time, and so do the runtime notes. */
  lemma RuntimeNotesSorted(data: ChartData)
    requires SortedBy(data.notes, NoteTime)
    ensures SortedBy(RuntimeNotes(data.notes), NoteStamp)
  {
  }

  /** Mapping commutes with concatenation: a chart's notes may be converted in pieces. */
  lemma {:induction false} RuntimeNotesAppend(a: seq<ChartNote>, b: seq<ChartNote>)
    ensures RuntimeNotes(a + b) == RuntimeNotes(a) + RuntimeNotes(b)
  {
    if a == [] {
      assert a + b == b;
    } else {
      assert (a + b)[1..] == a[1..] + b;
      RuntimeNotesAppend(a[1..], b);
    }
  }

  /** What loadChartFile resolves to when the chart loads; `audio` is None when the
      audio could not be fetched or decoded (`audioBuffer: null`). */
  datatype Loaded<A> = Loaded(chartNotes: seq<Note>, data: ChartData, audio: Option<A>)

  /** `fetched` is the chart request's outcome (a failed or non-OK response is a
      Failure); `decoded` is the audio pipeline's outcome. A missing chart gives None
      (`return null`); a missing audio track still gives the notes. */
  function LoadChart<A>(fetched: Result<string, string>, decoded: Option<A>, difficulty: Difficulty)
    : (r: Option<Loaded<A>>)
    ensures r.None? <==> fetched.Failure?
    ensures r.Some? ==>
      && r.value.data == ParseChartText(fetched.value, difficulty)
      && r.value.chartNotes == RuntimeNotes(r.value.data.notes)
      && r.value.audio == decoded
  {
    match fetched
    case Failure(_) => None
    case Success(text) =>
      var data := ParseChartText(text, difficulty);
      Some(Loaded(RuntimeNotes(data.notes), data, decoded))
  }

  /** Whether the audio loads has no effect on the notes. */
  lemma AudioDoesNotAffectNotes<A>(text: string, a: Option<A>, b: Option<A>, difficulty: Difficulty)
    ensures LoadChart(Success(text), a, difficulty).value.chartNotes
         == LoadChart(Success(text), b, difficulty).value.chartNotes
    ensures LoadChart(Success(text), a, difficulty).value.data
         == LoadChart(Success(text), b, difficulty).value.data
  {
  }

  /** The loaded notes are in time order, one per chart note. */
  lemma LoadedNotesSorted<A>(text: string, decoded: Option<A>, difficulty: Difficulty)
    ensures var r := LoadChart(Success(text), decoded, difficulty).value;
      && |r.chartNotes| == |r.data.notes|
      && SortedBy(r.chartNotes, NoteStamp)
  {
    var data := ParseChartText(text, difficulty);
    RuntimeNotesSorted(data);
  }
}
