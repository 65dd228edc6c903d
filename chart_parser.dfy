/** The .chart decoder (lib/chart-parser.ts, parseChartFile and parseNotesFromSection)
    over the already-fetched text: a first pass collecting the difficulty headers, a
    second pass folding every trimmed line into the parser's running state, a stable
    sort of the notes, the zero-note fallback and the sort of the difficulties. */
module ChartParser {
  import opened Wrappers
  import opened Types
  import opened TempoMap
  import opened ChartText
  import opened Sorting

  /** The four playable difficulties, in rank order. */
  datatype Difficulty = Easy | Medium | Hard | Expert {
    /** `difficultyOrder`: easy 0, medium 1, hard 2, expert 3. */
    function Rank(): nat {
      match this
      case Easy => 0
      case Medium => 1
      case Hard => 2
      case Expert => 3
    }
  }

  /** `difficultyMap`: the section that holds a difficulty's notes. */
  function SectionName(d: Difficulty): string {
    match d
    case Easy => "EasySingle"
    case Medium => "MediumSingle"
    case Hard => "HardSingle"
    case Expert => "ExpertSingle"
  }

  /** `DIFFICULTY_SECTIONS`, in the order the zero-note fallback tries them. */
  const DIFFICULTY_SECTIONS: seq<string> := ["EasySingle", "MediumSingle", "HardSingle", "ExpertSingle"]

  /** The first pass's membership test `DIFFICULTY_SECTIONS.includes(name)`, followed by
      `name.replace("Single", "").toLowerCase()`. */
  function SectionDifficulty(name: string): (r: Option<Difficulty>)
    ensures r.Some? <==> name in DIFFICULTY_SECTIONS
  {
    if name == "EasySingle" then Some(Easy)
    else if name == "MediumSingle" then Some(Medium)
    else if name == "HardSingle" then Some(Hard)
    else if name == "ExpertSingle" then Some(Expert)
    else None
  }

  /** A parsed note: time and sustain length in milliseconds, lane colour, source tick. */
  datatype ChartNote = ChartNote(timestamp: real, color: Colour, duration: real, tick: nat)

  datatype SectionMarker = SectionMarker(name: string, timestamp: real)

  /** The song properties. `offset` and `resolution` are None where `parseFloat` or
      `parseInt` give NaN. `difficulty` is never written after the default. */
  datatype Metadata = Metadata(
    name: string, artist: string,
    charter: Option<string>, album: Option<string>, year: Option<string>,
    difficulty: Difficulty, offset: Option<real>, resolution: Option<int>)

  const DEFAULT_METADATA: Metadata :=
    Metadata("Unknown Song", "Unknown Artist", None, None, None, Medium, Some(0.0), Some(192))

  /** The resolution in force before any `Resolution` property. */
  const DEFAULT_RESOLUTION: int := 192

  datatype ChartData = ChartData(
    metadata: Metadata, notes: seq<ChartNote>, sections: seq<SectionMarker>,
    bpmChanges: seq<TempoEntry>, availableDifficulties: seq<Difficulty>)

  function NoteTime(n: ChartNote): real { n.timestamp }

  function DifficultyKey(d: Difficulty): real { d.Rank() as real }

  // ---------------------------------------------------------------------------
  // Splitting the text into lines

  predicate NoNewline(s: string) {
    forall k :: 0 <= k < |s| ==> s[k] != '\n'
  }

  /** `text.split("\n")`: the pieces between the line feeds, at least one. */
  function SplitLines(text: string): (r: seq<string>)
    ensures |r| > 0
    ensures forall i :: 0 <= i < |r| ==> NoNewline(r[i])
  {
    if text == [] then [[]]
    else
      var rest := SplitLines(text[1..]);
      if text[0] == '\n' then [[]] + rest
      else [[text[0]] + rest[0]] + rest[1..]
  }

  /** The inverse of splitting: the lines with a line feed between each two. */
  function JoinLines(lines: seq<string>): string
    requires |lines| > 0
  {
    if |lines| == 1 then lines[0] else lines[0] + "\n" + JoinLines(lines[1..])
  }

  /** Joining the pieces gives back the text. */
  lemma {:induction false} JoinSplitLines(text: string)
    ensures JoinLines(SplitLines(text)) == text
  {
    if text != [] {
      var rest := SplitLines(text[1..]);
      JoinSplitLines(text[1..]);
      if text[0] == '\n' {
        assert JoinLines([[]] + rest) == "\n" + JoinLines(rest) by {
          assert ([[]] + rest)[1..] == rest;
        }
      } else {
        var r := [[text[0]] + rest[0]] + rest[1..];
        if |rest| == 1 {
          assert r == [[text[0]] + rest[0]];
        } else {
          assert r[1..] == rest[1..];
          assert JoinLines(rest) == rest[0] + "\n" + JoinLines(rest[1..]);
        }
      }
    }
  }

  /** Splitting joined lines that hold no line feed gives back the lines. */
  lemma {:induction false} SplitJoinLines(lines: seq<string>)
    requires |lines| > 0 && forall i :: 0 <= i < |lines| ==> NoNewline(lines[i])
    ensures SplitLines(JoinLines(lines)) == lines
  {
    if |lines| == 1 {
      SplitOneLine(lines[0]);
    } else {
      SplitJoinLines(lines[1..]);
      SplitBeforeNewline(lines[0], JoinLines(lines[1..]));
      assert [lines[0]] + lines[1..] == lines;
    }
  }

  lemma {:induction false} SplitOneLine(s: string)
    requires NoNewline(s)
    ensures SplitLines(s) == [s]
  {
    if s != [] {
      SplitOneLine(s[1..]);
      assert [s[0]] + s[1..] == s;
    }
  }

  lemma {:induction false} SplitBeforeNewline(s: string, t: string)
    requires NoNewline(s)
    ensures SplitLines(s + "\n" + t) == [s] + SplitLines(t)
  {
    if s == [] {
      assert ([] + "\n" + t)[1..] == t;
    } else {
      assert (s + "\n" + t)[1..] == s[1..] + "\n" + t;
      SplitBeforeNewline(s[1..], t);
      assert [s[0]] + s[1..] == s;
    }
  }

  // ---------------------------------------------------------------------------
  // First pass

  /** What one line adds to `availableDifficulties`. */
  function HeaderDifficulty(raw: string): seq<Difficulty> {
    var line := Trim(raw);
    if line == [] then []
    else match MatchHeader(line)
      case Some(name) => (match SectionDifficulty(name) case Some(d) => [d] case None => [])
      case None => []
  }

  /** `availableDifficulties` after the first `n` lines, in file order. */
  function FirstPass(lines: seq<string>, n: nat): seq<Difficulty>
    requires n <= |lines|
  {
    Gather(lines, n, HeaderDifficulty)
  }

  /** What `f` gives for each of the first `n` lines, concatenated in order. */
  function Gather<T>(lines: seq<string>, n: nat, f: string -> seq<T>): seq<T>
    requires n <= |lines|
  {
    if n == 0 then [] else Gather(lines, n - 1, f) + f(lines[n - 1])
  }

  /** The difficulty whose section supplies the notes: the requested one, unless it is
      absent and some difficulty is present, in which case the first one found. */
  function ResolveTarget(available: seq<Difficulty>, selected: Difficulty): Difficulty {
    if selected !in available && |available| > 0 then available[0] else selected
  }

  // ---------------------------------------------------------------------------
  // Second pass

  /** The running state of the second pass: `currentSection`, `inBraces`, `resolution`,
      `metadata`, and the `notes`, `sections` and `bpmChanges` pushed so far. */
  datatype PassState = PassState(
    section: string, inBraces: bool, resolution: int, metadata: Metadata,
    notes: seq<ChartNote>, markers: seq<SectionMarker>, tempo: seq<TempoEntry>)

  const INITIAL_PASS: PassState :=
    PassState("", false, DEFAULT_RESOLUTION, DEFAULT_METADATA, [], [], [DEFAULT_ENTRY])

  /** The note a `tick = N lane sustain` line yields under a tempo table:
      `NOTE_COLORS[lane] || "green"`, and the sustain converted to milliseconds. */
  function MakeNote(m: NoteMatch, table: seq<TempoEntry>, resolution: int): (n: ChartNote)
    requires |table| > 0
    ensures n.tick == m.tick && n.timestamp == TickToMs(m.tick, table, resolution)
    ensures m.lane < LANE_COUNT ==> n.color == FRETS[m.lane]
    ensures m.lane >= LANE_COUNT ==> n.color == Green
    ensures m.sustain == 0 ==> n.duration == 0.0
    ensures m.sustain > 0 ==> n.timestamp + n.duration == TickToMs(m.tick + m.sustain, table, resolution)
  {
    var ts := TickToMs(m.tick, table, resolution);
    var dur := if m.sustain > 0 then TickToMs(m.tick + m.sustain, table, resolution) - ts else 0.0;
    var color := if m.lane < LANE_COUNT then FRETS[m.lane] else Green;
    ChartNote(ts, color, dur, m.tick)
  }

  /** A `Key = "value"` property inside `[Song]`, applied to the metadata and the
      running resolution; unknown keys change nothing. `Resolution` sets both (the
      running resolution becomes 0 where `parseInt` gives NaN). */
  function ApplyMeta(md: Metadata, resolution: int, key: string, value: string): (Metadata, int) {
    if key == "Name" then (md.(name := value), resolution)
    else if key == "Artist" then (md.(artist := value), resolution)
    else if key == "Charter" then (md.(charter := Some(value)), resolution)
    else if key == "Album" then (md.(album := Some(value)), resolution)
    else if key == "Year" then (md.(year := Some(value)), resolution)
    else if key == "Offset" then (md.(offset := ParseFloatPrefix(value)), resolution)
    else if key == "Resolution" then
      var r := ParseIntPrefix(value);
      (md.(resolution := r), r.GetOr(0))
    else (md, resolution)
  }

  /** One trimmed, non-empty content line inside braces, by the current section. */
  function ContentLine(st: PassState, line: string, target: string): (r: PassState)
    requires |st.tempo| > 0
    ensures |r.tempo| > 0 && r.tempo[0] == st.tempo[0]
  {
    if st.section == "Song" then
      match MatchMeta(line)
      case Some(m) =>
        var (md, res) := ApplyMeta(st.metadata, st.resolution, m.key, m.value);
        st.(metadata := md, resolution := res)
      case None => st
    else if st.section == "SyncTrack" then
      match MatchSync(line)
      case Some(s) => st.(tempo := Pushed(st.tempo, s.tick, s.milliBpm as real / 1000.0, st.resolution))
      case None => st
    else if st.section == "Events" then
      match MatchEvent(line)
      case Some(e) => st.(markers := st.markers + [SectionMarker(e.name, TickToMs(e.tick, st.tempo, st.resolution))])
      case None => st
    else if st.section == target then
      match MatchNote(line)
      case Some(m) => st.(notes := st.notes + [MakeNote(m, st.tempo, st.resolution)])
      case None => st
    else st
  }

  /** One raw line of the second pass: trimmed, then a header, a brace, or content. */
  function Step(st: PassState, raw: string, target: string): (r: PassState)
    requires |st.tempo| > 0
    ensures |r.tempo| > 0 && r.tempo[0] == st.tempo[0]
  {
    var line := Trim(raw);
    if line == [] then st
    else if MatchHeader(line).Some? then st.(section := line[1..|line| - 1])
    else if line == "{" then st.(inBraces := true)
    else if line == "}" then st.(inBraces := false)
    else if st.inBraces then ContentLine(st, line, target)
    else st
  }

  /** The second pass's state after the first `n` lines. */
  function Run(lines: seq<string>, target: string, n: nat): (r: PassState)
    requires n <= |lines|
    ensures |r.tempo| > 0 && r.tempo[0] == DEFAULT_ENTRY
  {
    if n == 0 then INITIAL_PASS else Step(Run(lines, target, n - 1), lines[n - 1], target)
  }

  // ---------------------------------------------------------------------------
  // parseNotesFromSection and the zero-note fallback

  datatype SectionScan = SectionScan(section: string, inBraces: bool, notes: seq<ChartNote>)

  /** One raw line of parseNotesFromSection: its own header and brace tracking, and
      notes only inside braces of `wanted`, timed by the finished tempo table. */
  function SectionStep(sc: SectionScan, raw: string, wanted: string, table: seq<TempoEntry>, resolution: int): SectionScan
    requires |table| > 0
  {
    var line := Trim(raw);
    if line == [] then sc
    else if MatchHeader(line).Some? then sc.(section := line[1..|line| - 1])
    else if line == "{" then sc.(inBraces := true)
    else if line == "}" then sc.(inBraces := false)
    else if sc.inBraces && sc.section == wanted then
      match MatchNote(line)
      case Some(m) => sc.(notes := sc.notes + [MakeNote(m, table, resolution)])
      case None => sc
    else sc
  }

  function SectionRun(lines: seq<string>, wanted: string, table: seq<TempoEntry>, resolution: int, n: nat): SectionScan
    requires n <= |lines| && |table| > 0
  {
    if n == 0 then SectionScan("", false, [])
    else SectionStep(SectionRun(lines, wanted, table, resolution, n - 1), lines[n - 1], wanted, table, resolution)
  }

  /** parseNotesFromSection's result, in file order. */
  function SectionNotes(lines: seq<string>, wanted: string, table: seq<TempoEntry>, resolution: int): seq<ChartNote>
    requires |table| > 0
  {
    SectionRun(lines, wanted, table, resolution, |lines|).notes
  }

  /** The fallback loop from the `k`-th difficulty section on: the first non-empty
      section's notes, sorted, or nothing. */
  function Fallback(lines: seq<string>, table: seq<TempoEntry>, resolution: int, k: nat): (r: seq<ChartNote>)
    requires |table| > 0 && k <= |DIFFICULTY_SECTIONS|
    ensures SortedBy(r, NoteTime)
    decreases |DIFFICULTY_SECTIONS| - k
  {
    if k == |DIFFICULTY_SECTIONS| then []
    else
      var found := SectionNotes(lines, DIFFICULTY_SECTIONS[k], table, resolution);
      if found != [] then SortBy(found, NoteTime) else Fallback(lines, table, resolution, k + 1)
  }

  /** parseChartFile over the lines of a chart. */
  function ParseChart(lines: seq<string>, selected: Difficulty): (r: ChartData)
    ensures SortedBy(r.notes, NoteTime)
    ensures SortedBy(r.availableDifficulties, DifficultyKey)
    ensures |r.bpmChanges| > 0 && r.bpmChanges[0] == DEFAULT_ENTRY
  {
    var available := FirstPass(lines, |lines|);
    var target := SectionName(ResolveTarget(available, selected));
    var st := Run(lines, target, |lines|);
    var sorted := SortBy(st.notes, NoteTime);
    var notes := if sorted == [] then Fallback(lines, st.tempo, st.resolution, 0) else sorted;
    ChartData(st.metadata, notes, st.markers, st.tempo, SortBy(available, DifficultyKey))
  }

  /** parseChartFile over the fetched text. */
  function ParseChartText(text: string, selected: Difficulty): ChartData {
    ParseChart(SplitLines(text), selected)
  }

  // ---------------------------------------------------------------------------
  // One more line of each fold

  lemma FirstPassNext(lines: seq<string>, i: nat)
    requires i < |lines|
    ensures FirstPass(lines, i + 1) == FirstPass(lines, i) + HeaderDifficulty(lines[i])
  {
  }

  lemma RunStart(lines: seq<string>, target: string)
    ensures Run(lines, target, 0) == PassState("", false, DEFAULT_RESOLUTION, DEFAULT_METADATA, [], [], [DEFAULT_ENTRY])
  {
  }

  lemma RunNext(lines: seq<string>, target: string, i: nat)
    requires i < |lines|
    ensures Run(lines, target, i + 1) == Step(Run(lines, target, i), lines[i], target)
  {
  }

  lemma FallbackNext(lines: seq<string>, table: seq<TempoEntry>, resolution: int, k: nat)
    requires |table| > 0 && k < |DIFFICULTY_SECTIONS|
    ensures var found := SectionNotes(lines, DIFFICULTY_SECTIONS[k], table, resolution);
      Fallback(lines, table, resolution, k)
      == if found != [] then SortBy(found, NoteTime) else Fallback(lines, table, resolution, k + 1)
  {
  }

  lemma FallbackEnd(lines: seq<string>, table: seq<TempoEntry>, resolution: int)
    requires |table| > 0
    ensures Fallback(lines, table, resolution, |DIFFICULTY_SECTIONS|) == []
  {
  }

  lemma SectionRunNext(lines: seq<string>, wanted: string, table: seq<TempoEntry>, resolution: int, i: nat)
    requires i < |lines| && |table| > 0
    ensures SectionRun(lines, wanted, table, resolution, i + 1)
         == SectionStep(SectionRun(lines, wanted, table, resolution, i), lines[i], wanted, table, resolution)
  {
  }

  // ---------------------------------------------------------------------------
  // The source's loops

  /** One note of a matched note line, through calculateTimestampForTick. */
  method BuildNote(m: NoteMatch, table: seq<TempoEntry>, resolution: int) returns (n: ChartNote)
    requires |table| > 0
    ensures n == MakeNote(m, table, resolution)
  {
    var timestamp := TimestampForTick(m.tick, table, resolution);
    var durationMs := 0.0;
    if m.sustain > 0 {
      var end := TimestampForTick(m.tick + m.sustain, table, resolution);
      durationMs := end - timestamp;
    }
    var color := if m.lane < LANE_COUNT then FRETS[m.lane] else Green;
    n := ChartNote(timestamp, color, durationMs, m.tick);
  }

  /** One iteration of parseNotesFromSection's loop. */
  method ScanSectionLine(sc: SectionScan, raw: string, section: string, table: seq<TempoEntry>, resolution: int)
    returns (sc': SectionScan)
    requires |table| > 0
    ensures sc' == SectionStep(sc, raw, section, table, resolution)
  {
    sc' := sc;
    var line := Trim(raw);
    if line == [] {
    } else if MatchHeader(line).Some? {
      sc' := sc'.(section := line[1..|line| - 1]);
    } else if line == "{" {
      sc' := sc'.(inBraces := true);
    } else if line == "}" {
      sc' := sc'.(inBraces := false);
    } else if sc.inBraces && sc.section == section {
      match MatchNote(line) {
        case Some(m) =>
          var n := BuildNote(m, table, resolution);
          sc' := sc'.(notes := sc.notes + [n]);
        case None =>
      }
    }
  }

  /** parseNotesFromSection: `currentSection`, `inBraces` and `notes` are the fields of `sc`. */
  method NotesFromSection(lines: seq<string>, section: string, table: seq<TempoEntry>, resolution: int)
    returns (notes: seq<ChartNote>)
    requires |table| > 0
    ensures notes == SectionNotes(lines, section, table, resolution)
  {
    var sc := SectionScan("", false, []);
    var i := 0;
    while i < |lines|
      invariant 0 <= i <= |lines|
      invariant sc == SectionRun(lines, section, table, resolution, i)
    {
      SectionRunNext(lines, section, table, resolution, i);
      sc := ScanSectionLine(sc, lines[i], section, table, resolution);
      i := i + 1;
    }
    notes := sc.notes;
  }

  /** The second pass's song-property switch. */
  method ApplyProperty(metadata: Metadata, resolution: int, key: string, value: string)
    returns (metadata': Metadata, resolution': int)
    ensures (metadata', resolution') == ApplyMeta(metadata, resolution, key, value)
  {
    metadata', resolution' := metadata, resolution;
    if key == "Name" {
      metadata' := metadata.(name := value);
    } else if key == "Artist" {
      metadata' := metadata.(artist := value);
    } else if key == "Charter" {
      metadata' := metadata.(charter := Some(value));
    } else if key == "Album" {
      metadata' := metadata.(album := Some(value));
    } else if key == "Year" {
      metadata' := metadata.(year := Some(value));
    } else if key == "Offset" {
      metadata' := metadata.(offset := ParseFloatPrefix(value));
    } else if key == "Resolution" {
      var r := ParseIntPrefix(value);
      metadata' := metadata.(resolution := r);
      resolution' := r.GetOr(0);
    }
  }

  /** One iteration of the second pass: a header, a brace, or content. */
  method ProcessLine(currentSection: string, inBraces: bool, resolution: int, metadata: Metadata,
                     notes: seq<ChartNote>, sections: seq<SectionMarker>, bpmChanges: seq<TempoEntry>,
                     raw: string, targetSection: string)
    returns (currentSection': string, inBraces': bool, resolution': int, metadata': Metadata,
             notes': seq<ChartNote>, sections': seq<SectionMarker>, bpmChanges': seq<TempoEntry>)
    requires |bpmChanges| > 0
    ensures |bpmChanges'| > 0
    ensures PassState(currentSection', inBraces', resolution', metadata', notes', sections', bpmChanges')
         == Step(PassState(currentSection, inBraces, resolution, metadata, notes, sections, bpmChanges), raw, targetSection)
  {
    currentSection', inBraces', resolution', metadata' := currentSection, inBraces, resolution, metadata;
    notes', sections', bpmChanges' := notes, sections, bpmChanges;
    var line := Trim(raw);
    if line == [] {
    } else if MatchHeader(line).Some? {
      currentSection' := line[1..|line| - 1];
    } else if line == "{" {
      inBraces' := true;
    } else if line == "}" {
      inBraces' := false;
    } else if inBraces {
      resolution', metadata', notes', sections', bpmChanges' :=
        ProcessContent(currentSection, resolution, metadata, notes, sections, bpmChanges, line, targetSection);
    }
  }

  /** The second pass's `switch (currentSection)` over one content line inside braces. */
  method ProcessContent(currentSection: string, resolution: int, metadata: Metadata,
                        notes: seq<ChartNote>, sections: seq<SectionMarker>, bpmChanges: seq<TempoEntry>,
                        line: string, targetSection: string)
    returns (resolution': int, metadata': Metadata,
             notes': seq<ChartNote>, sections': seq<SectionMarker>, bpmChanges': seq<TempoEntry>)
    requires |bpmChanges| > 0
    ensures PassState(currentSection, true, resolution', metadata', notes', sections', bpmChanges')
         == ContentLine(PassState(currentSection, true, resolution, metadata, notes, sections, bpmChanges), line, targetSection)
  {
    resolution', metadata', notes', sections', bpmChanges' := resolution, metadata, notes, sections, bpmChanges;
    if currentSection == "Song" {
      match MatchMeta(line) {
        case Some(m) =>
          metadata', resolution' := ApplyProperty(metadata, resolution, m.key, m.value);
        case None =>
      }
    } else if currentSection == "SyncTrack" {
      match MatchSync(line) {
        case Some(s) =>
          var timestamp := TimestampForTick(s.tick, bpmChanges, resolution);
          bpmChanges' := bpmChanges + [TempoEntry(s.tick, s.milliBpm as real / 1000.0, timestamp)];
        case None =>
      }
    } else if currentSection == "Events" {
      match MatchEvent(line) {
        case Some(e) =>
          var timestamp := TimestampForTick(e.tick, bpmChanges, resolution);
          sections' := sections + [SectionMarker(e.name, timestamp)];
        case None =>
      }
    } else if currentSection == targetSection {
      match MatchNote(line) {
        case Some(m) =>
          var n := BuildNote(m, bpmChanges, resolution);
          notes' := notes + [n];
        case None =>
      }
    }
  }

  /** One iteration of the first pass: a difficulty header adds its difficulty. */
  method CollectHeader(availableDifficulties: seq<Difficulty>, raw: string) returns (available': seq<Difficulty>)
    ensures available' == availableDifficulties + HeaderDifficulty(raw)
  {
    available' := availableDifficulties;
    var line := Trim(raw);
    if line != [] {
      match MatchHeader(line) {
        case Some(sectionName) =>
          match SectionDifficulty(sectionName) {
            case Some(d) => available' := availableDifficulties + [d];
            case None =>
          }
        case None =>
      }
    }
  }

  /** The first pass: every difficulty header, in file order. */
  method FindDifficulties(lines: seq<string>) returns (availableDifficulties: seq<Difficulty>)
    ensures availableDifficulties == FirstPass(lines, |lines|)
  {
    availableDifficulties := [];
    var i := 0;
    while i < |lines|
      invariant 0 <= i <= |lines|
      invariant availableDifficulties == FirstPass(lines, i)
    {
      FirstPassNext(lines, i);
      availableDifficulties := CollectHeader(availableDifficulties, lines[i]);
      i := i + 1;
    }
  }

  /** The second pass, from the default state. */
  method SecondPass(lines: seq<string>, targetSection: string) returns (st: PassState)
    ensures st == Run(lines, targetSection, |lines|)
  {
    var currentSection: string := "";
    var inBraces := false;
    var resolution := DEFAULT_RESOLUTION;
    var metadata := DEFAULT_METADATA;
    var notes: seq<ChartNote> := [];
    var sections: seq<SectionMarker> := [];
    var bpmChanges := [DEFAULT_ENTRY];
    var i := 0;
    RunStart(lines, targetSection);
    while i < |lines|
      invariant 0 <= i <= |lines|
      invariant |bpmChanges| > 0
      invariant PassState(currentSection, inBraces, resolution, metadata, notes, sections, bpmChanges)
             == Run(lines, targetSection, i)
    {
      RunNext(lines, targetSection, i);
      currentSection, inBraces, resolution, metadata, notes, sections, bpmChanges :=
        ProcessLine(currentSection, inBraces, resolution, metadata, notes, sections, bpmChanges, lines[i], targetSection);
      i := i + 1;
    }
    assert i == |lines|;
    st := PassState(currentSection, inBraces, resolution, metadata, notes, sections, bpmChanges);
  }

  /** The zero-note fallback: `DIFFICULTY_SECTIONS` in order, stopping at the first
      section with notes, which are sorted. */
  method TryFallbackSections(lines: seq<string>, bpmChanges: seq<TempoEntry>, resolution: int)
    returns (notes: seq<ChartNote>)
    requires |bpmChanges| > 0
    ensures notes == Fallback(lines, bpmChanges, resolution, 0)
  {
    notes := [];
    var k := 0;
    while k < |DIFFICULTY_SECTIONS|
      invariant 0 <= k <= |DIFFICULTY_SECTIONS|
      invariant Fallback(lines, bpmChanges, resolution, 0) == Fallback(lines, bpmChanges, resolution, k)
      invariant notes == []
    {
      FallbackNext(lines, bpmChanges, resolution, k);
      var fallbackNotes := NotesFromSection(lines, DIFFICULTY_SECTIONS[k], bpmChanges, resolution);
      if |fallbackNotes| > 0 {
        assert notes + fallbackNotes == fallbackNotes;
        notes := SortBy(notes + fallbackNotes, NoteTime);
        return;
      }
      assert fallbackNotes == [];
      k := k + 1;
    }
    assert k == |DIFFICULTY_SECTIONS|;
    FallbackEnd(lines, bpmChanges, resolution);
  }

  /** parseChartFile after the fetch: both passes, the sort, the fallback and the
      sort of the difficulties. */
  method ParseChartFile(chartContent: string, selectedDifficulty: Difficulty) returns (data: ChartData)
    ensures data == ParseChartText(chartContent, selectedDifficulty)
  {
    var lines := SplitLines(chartContent);
    var availableDifficulties := FindDifficulties(lines);

    var targetSection := SectionName(selectedDifficulty);
    if selectedDifficulty !in availableDifficulties && |availableDifficulties| > 0 {
      targetSection := SectionName(availableDifficulties[0]);
    }
    assert targetSection == SectionName(ResolveTarget(availableDifficulties, selectedDifficulty));

    var st := SecondPass(lines, targetSection);
    var notes := SortBy(st.notes, NoteTime);
    ghost var sorted := notes;

    if notes == [] {
      notes := TryFallbackSections(lines, st.tempo, st.resolution);
    }

    availableDifficulties := SortBy(availableDifficulties, DifficultyKey);
    data := ChartData(st.metadata, notes, st.markers, st.tempo, availableDifficulties);
    ParseChartParts(chartContent, selectedDifficulty, lines, targetSection);
  }

  /** ParseChartText in terms of the passes. */
  lemma ParseChartParts(text: string, selected: Difficulty, lines: seq<string>, target: string)
    requires lines == SplitLines(text)
    requires target == SectionName(ResolveTarget(FirstPass(lines, |lines|), selected))
    ensures var st := Run(lines, target, |lines|);
      var sorted := SortBy(st.notes, NoteTime);
      ParseChartText(text, selected)
      == ChartData(st.metadata, if sorted == [] then Fallback(lines, st.tempo, st.resolution, 0) else sorted,
                   st.markers, st.tempo, SortBy(FirstPass(lines, |lines|), DifficultyKey))
  {
  }
}
