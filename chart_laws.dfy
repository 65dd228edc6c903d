/** Laws of the .chart decoder (lib/chart-parser.ts): which difficulties are found,
    which section supplies the notes, what each kind of line does to the running
    state, where the metadata comes from, and the zero-note fallback. */
module ChartLaws {
  import opened Wrappers
  import opened Types
  import opened TempoMap
  import opened ChartText
  import opened Sorting
  import opened ChartParser

  /** The header line of a difficulty's section, e.g. `[ExpertSingle]`. */
  function HeaderOf(d: Difficulty): string {
    "[" + SectionName(d) + "]"
  }

  /** The section whose notes the second pass collects. */
  function TargetOf(lines: seq<string>, selected: Difficulty): string {
    SectionName(ResolveTarget(FirstPass(lines, |lines|), selected))
  }

  /** The second pass's final state. */
  function MainPass(lines: seq<string>, selected: Difficulty): (st: PassState) {
    Run(lines, TargetOf(lines, selected), |lines|)
  }

  function SectionNotesAt(lines: seq<string>, table: seq<TempoEntry>, resolution: int, k: nat): seq<ChartNote>
    requires |table| > 0 && k < |DIFFICULTY_SECTIONS|
  {
    SectionNotes(lines, DIFFICULTY_SECTIONS[k], table, resolution)
  }

  /** The difficulty sections m, ..., k - 1 hold no note. */
  predicate NoneFound(lines: seq<string>, table: seq<TempoEntry>, resolution: int, m: nat, k: nat)
    requires |table| > 0 && k <= |DIFFICULTY_SECTIONS|
    decreases k - m
  {
    m >= k || (SectionNotesAt(lines, table, resolution, m) == [] && NoneFound(lines, table, resolution, m + 1, k))
  }

  // ---------------------------------------------------------------------------
  // Difficulties and the target section

  /** The section names and the difficulties are in one-to-one correspondence. */
  lemma SectionDifficultyIff(name: string, d: Difficulty)
    ensures SectionDifficulty(name) == Some(d) <==> name == SectionName(d)
  {
  }

  /** A header with a name the pattern accepts is that name in brackets. */
  lemma HeaderShape(line: string)
    requires MatchHeader(line).Some?
    ensures line == "[" + MatchHeader(line).value + "]"
  {
    assert line == [line[0]] + line[1..|line| - 1] + [line[|line| - 1]];
  }

  /** A line adds a difficulty exactly when it trims to that difficulty's header. */
  lemma HeaderLineIff(raw: string, d: Difficulty)
    ensures HeaderDifficulty(raw) == [d] <==> Trim(raw) == HeaderOf(d)
  {
    var line := Trim(raw);
    FormatHeaderRoundTrip(SectionName(d));
    if HeaderDifficulty(raw) == [d] {
      HeaderShape(line);
      SectionDifficultyIff(MatchHeader(line).value, d);
    }
  }

  /** What a line adds is the difficulty its trimmed text names as a header. */
  lemma HeaderLineOf(raw: string)
    ensures HeaderDifficulty(raw) != [] ==> Trim(raw) == HeaderOf(HeaderDifficulty(raw)[0])
  {
    if HeaderDifficulty(raw) != [] {
      HeaderLineIff(raw, HeaderDifficulty(raw)[0]);
    }
  }

  /** The first pass finds a difficulty exactly when one of the lines trims to its header. */
  lemma FirstPassIff(lines: seq<string>, n: nat, d: Difficulty)
    requires n <= |lines|
    ensures d in FirstPass(lines, n) <==> exists i :: 0 <= i < n && Trim(lines[i]) == HeaderOf(d)
  {
    FirstPassHas(lines, n, d);
    forall i | 0 <= i < n
      ensures d in HeaderDifficulty(lines[i]) <==> Trim(lines[i]) == HeaderOf(d)
    {
      HeaderLineIff(lines[i], d);
      HeaderAtMostOne(lines[i]);
    }
  }

  /** The first pass collects the difficulties of the header lines among the first `n`. */
  lemma FirstPassHas(lines: seq<string>, n: nat, d: Difficulty)
    requires n <= |lines|
    ensures d in FirstPass(lines, n) <==> exists i :: 0 <= i < n && d in HeaderDifficulty(lines[i])
  {
    GatherHas(lines, n, HeaderDifficulty, d);
  }

  lemma {:induction false} GatherHas<T>(lines: seq<string>, n: nat, f: string -> seq<T>, x: T)
    requires n <= |lines|
    ensures x in Gather(lines, n, f) <==> exists i :: 0 <= i < n && x in f(lines[i])
  {
    if n > 0 {
      var m := n - 1;
      GatherHas(lines, m, f, x);
      assert Gather(lines, n, f) == Gather(lines, m, f) + f(lines[m]);
    }
  }

  /** Gathering over fewer lines gives a prefix. */
  lemma {:induction false} GatherPrefix<T>(lines: seq<string>, m: nat, n: nat, f: string -> seq<T>)
    requires m <= n <= |lines|
    ensures Gather(lines, m, f) <= Gather(lines, n, f)
    decreases n - m
  {
    if m < n {
      var k := n - 1;
      GatherPrefix(lines, m, k, f);
      var b := Gather(lines, k, f);
      assert Gather(lines, k + 1, f) == b + f(lines[k]);
      assert b <= b + f(lines[k]);
    }
  }

  lemma HeaderAtMostOne(raw: string)
    ensures HeaderDifficulty(raw) == [] || HeaderDifficulty(raw) == [HeaderDifficulty(raw)[0]]
  {
  }

  /** The returned difficulties are those whose headers occur, each as often as its
      header does, sorted easy < medium < hard < expert. */
  lemma AvailableDifficultiesIff(lines: seq<string>, selected: Difficulty, d: Difficulty)
    ensures var r := ParseChart(lines, selected).availableDifficulties;
      && SortedBy(r, DifficultyKey)
      && multiset(r) == multiset(FirstPass(lines, |lines|))
      && (d in r <==> exists i :: 0 <= i < |lines| && Trim(lines[i]) == HeaderOf(d))
  {
    var r := ParseChart(lines, selected).availableDifficulties;
    FirstPassIff(lines, |lines|, d);
    assert d in r <==> d in multiset(r);
  }

  /** The first pass only ever appends. */
  lemma FirstPassPrefix(lines: seq<string>, m: nat, n: nat)
    requires m <= n <= |lines|
    ensures FirstPass(lines, m) <= FirstPass(lines, n)
  {
    GatherPrefix(lines, m, n, HeaderDifficulty);
  }

  lemma {:induction false} FirstPassNone(lines: seq<string>, n: nat)
    requires n <= |lines| && forall j :: 0 <= j < n ==> HeaderDifficulty(lines[j]) == []
    ensures FirstPass(lines, n) == []
  {
    if n > 0 {
      var m := n - 1;
      FirstPassNone(lines, m);
      assert FirstPass(lines, m + 1) == FirstPass(lines, m) + HeaderDifficulty(lines[m]);
    }
  }

  /** When the requested difficulty's header occurs, its section supplies the notes. */
  lemma TargetWhenPresent(lines: seq<string>, selected: Difficulty, i: nat)
    requires i < |lines| && Trim(lines[i]) == HeaderOf(selected)
    ensures TargetOf(lines, selected) == SectionName(selected)
  {
    FirstPassIff(lines, |lines|, selected);
  }

  /** When it does not, the section of the first difficulty header in file order does,
      whatever its rank. */
  lemma TargetFallsBackToFirstHeader(lines: seq<string>, selected: Difficulty, i: nat, d: Difficulty)
    requires forall j :: 0 <= j < |lines| ==> Trim(lines[j]) != HeaderOf(selected)
    requires i < |lines| && Trim(lines[i]) == HeaderOf(d)
    requires forall j, e :: 0 <= j < i ==> Trim(lines[j]) != HeaderOf(e)
    ensures TargetOf(lines, selected) == SectionName(d)
  {
    FirstHeaderFound(lines, i, d);
    FirstPassPrefix(lines, i + 1, |lines|);
    var available := FirstPass(lines, |lines|);
    assert [d] <= available;
    assert available[0] == d;
    FirstPassIff(lines, |lines|, selected);
  }

  /** The first pass up to and including the first header has found just that one. */
  lemma FirstHeaderFound(lines: seq<string>, i: nat, d: Difficulty)
    requires i < |lines| && Trim(lines[i]) == HeaderOf(d)
    requires forall j, e :: 0 <= j < i ==> Trim(lines[j]) != HeaderOf(e)
    ensures FirstPass(lines, i + 1) == [d]
  {
    forall j | 0 <= j < i
      ensures HeaderDifficulty(lines[j]) == []
    {
      HeaderLineOf(lines[j]);
    }
    FirstPassNone(lines, i);
    HeaderLineIff(lines[i], d);
    assert FirstPass(lines, i + 1) == FirstPass(lines, i) + HeaderDifficulty(lines[i]);
  }

  /** With no difficulty header at all, the requested section is read anyway. */
  lemma TargetWithoutHeaders(lines: seq<string>, selected: Difficulty)
    requires forall j, e :: 0 <= j < |lines| ==> Trim(lines[j]) != HeaderOf(e)
    ensures TargetOf(lines, selected) == SectionName(selected)
  {
    forall j | 0 <= j < |lines|
      ensures HeaderDifficulty(lines[j]) == []
    {
      HeaderLineOf(lines[j]);
    }
    FirstPassNone(lines, |lines|);
  }

  // ---------------------------------------------------------------------------
  // What one line does

  /** A trimmed line starting with a word character is content: no header, no brace. */
  lemma WordLineStep(st: PassState, raw: string, target: string)
    requires |st.tempo| > 0 && Trim(raw) != [] && IsWordChar(Trim(raw)[0])
    ensures Step(st, raw, target) == if st.inBraces then ContentLine(st, Trim(raw), target) else st
  {
  }

  lemma DigitsLead(s: string, rest: string)
    requires |s| > 0 && AllDigits(s)
    ensures (s + rest)[0] == s[0] && IsWordChar(s[0])
  {
    assert InClass(s[0], Digit);
  }

  /** The canonical tempo, note and event lines start with a digit of their tick. */
  lemma TickLineLead(tick: nat, rest: string)
    ensures var line := NatToString(tick) + rest;
      line != [] && IsWordChar(line[0])
  {
    DigitsLead(NatToString(tick), rest);
  }

  lemma FormatNoteLead(tick: nat, lane: nat, sustain: nat)
    ensures var line := FormatNote(tick, lane, sustain);
      line != [] && IsWordChar(line[0])
  {
    var rest := " = N " + NatToString(lane) + " " + NatToString(sustain);
    assert FormatNote(tick, lane, sustain) == NatToString(tick) + rest;
    TickLineLead(tick, rest);
  }

  lemma FormatSyncLead(tick: nat, milliBpm: nat)
    ensures var line := FormatSync(tick, milliBpm);
      line != [] && IsWordChar(line[0])
  {
    TickLineLead(tick, " = B " + NatToString(milliBpm));
  }

  lemma FormatEventLead(tick: nat, name: string)
    ensures var line := FormatEvent(tick, name);
      line != [] && IsWordChar(line[0])
  {
    var rest := " = E \"section " + name + "\"";
    assert FormatEvent(tick, name) == NatToString(tick) + rest;
    TickLineLead(tick, rest);
  }

  /** No difficulty section is one of the three special sections. */
  lemma DifficultySectionsAreNotSpecial(d: Difficulty)
    ensures SectionName(d) != "Song" && SectionName(d) != "SyncTrack" && SectionName(d) != "Events"
  {
  }

  /** The content switch on a line the note pattern accepts, in the target section. */
  lemma ContentNote(st: PassState, line: string, target: string, m: NoteMatch)
    requires |st.tempo| > 0 && st.section == target && MatchNote(line) == Some(m)
    requires target != "Song" && target != "SyncTrack" && target != "Events"
    ensures ContentLine(st, line, target) == st.(notes := st.notes + [MakeNote(m, st.tempo, st.resolution)])
  {
  }

  /** Only the target section's case of the switch adds notes. */
  lemma ContentNotesOnlyInTarget(st: PassState, line: string, target: string)
    requires |st.tempo| > 0 && st.section != target
    ensures ContentLine(st, line, target).notes == st.notes
  {
  }

  lemma ContentSync(st: PassState, line: string, target: string, m: SyncMatch)
    requires |st.tempo| > 0 && st.section == "SyncTrack" && MatchSync(line) == Some(m)
    ensures ContentLine(st, line, target)
         == st.(tempo := Pushed(st.tempo, m.tick, m.milliBpm as real / 1000.0, st.resolution))
  {
  }

  lemma ContentNoSync(st: PassState, line: string, target: string)
    requires |st.tempo| > 0 && st.section == "SyncTrack" && MatchSync(line) == None
    ensures ContentLine(st, line, target) == st
  {
  }

  lemma ContentEvent(st: PassState, line: string, target: string, m: EventMatch)
    requires |st.tempo| > 0 && st.section == "Events" && MatchEvent(line) == Some(m)
    ensures ContentLine(st, line, target)
         == st.(markers := st.markers + [SectionMarker(m.name, TickToMs(m.tick, st.tempo, st.resolution))])
  {
  }

  lemma ContentProperty(st: PassState, line: string, target: string, m: MetaMatch)
    requires |st.tempo| > 0 && st.section == "Song" && MatchMeta(line) == Some(m)
    ensures var (md, res) := ApplyMeta(st.metadata, st.resolution, m.key, m.value);
      ContentLine(st, line, target) == st.(metadata := md, resolution := res)
  {
  }

  /** A note line inside the target section appends the note timed by the tempo
      entries read so far, at the resolution in force. */
  lemma NoteLineStep(st: PassState, raw: string, d: Difficulty, tick: nat, lane: nat, sustain: nat)
    requires |st.tempo| > 0 && st.inBraces && st.section == SectionName(d)
    requires Trim(raw) == FormatNote(tick, lane, sustain)
    ensures Step(st, raw, SectionName(d))
         == st.(notes := st.notes + [MakeNote(NoteMatch(tick, lane, sustain), st.tempo, st.resolution)])
  {
    var line := FormatNote(tick, lane, sustain);
    FormatNoteRoundTrip(tick, lane, sustain);
    FormatNoteLead(tick, lane, sustain);
    DifficultySectionsAreNotSpecial(d);
    WordLineStep(st, raw, SectionName(d));
    ContentNote(st, line, SectionName(d), NoteMatch(tick, lane, sustain));
  }

  /** A note line in any other section adds no note. */
  lemma NoteLineElsewhere(st: PassState, raw: string, target: string, tick: nat, lane: nat, sustain: nat)
    requires |st.tempo| > 0 && st.section != target
    requires Trim(raw) == FormatNote(tick, lane, sustain)
    ensures Step(st, raw, target).notes == st.notes
  {
    var line := FormatNote(tick, lane, sustain);
    FormatNoteLead(tick, lane, sustain);
    WordLineStep(st, raw, target);
    ContentNotesOnlyInTarget(st, line, target);
  }

  /** A tempo line in `[SyncTrack]` appends an entry at BPM milliBpm / 1000, timed by
      the table so far; nothing else changes. */
  lemma SyncLineStep(st: PassState, raw: string, target: string, tick: nat, milliBpm: nat)
    requires |st.tempo| > 0 && st.inBraces && st.section == "SyncTrack"
    requires Trim(raw) == FormatSync(tick, milliBpm)
    ensures Step(st, raw, target)
         == st.(tempo := st.tempo + [TempoEntry(tick, milliBpm as real / 1000.0, TickToMs(tick, st.tempo, st.resolution))])
  {
    var line := FormatSync(tick, milliBpm);
    FormatSyncRoundTrip(tick, milliBpm);
    FormatSyncLead(tick, milliBpm);
    WordLineStep(st, raw, target);
    ContentSync(st, line, target, SyncMatch(tick, milliBpm));
  }

  /** A time-signature line (`tick = TS ...`) leaves the state as it was. */
  lemma TimeSignatureStep(st: PassState, raw: string, target: string, tick: nat, rest: string)
    requires |st.tempo| > 0 && st.section == "SyncTrack"
    requires Trim(raw) == NatToString(tick) + " = TS" + rest
    ensures Step(st, raw, target) == st
  {
    var line := NatToString(tick) + " = TS" + rest;
    TimeSignatureIsNotTempo(tick, rest);
    TickLineLead(tick, " = TS" + rest);
    WordLineStep(st, raw, target);
    ContentNoSync(st, line, target);
  }

  /** A section event in `[Events]` appends a marker timed by the table so far. */
  lemma EventLineStep(st: PassState, raw: string, target: string, tick: nat, name: string)
    requires |st.tempo| > 0 && st.inBraces && st.section == "Events" && PlainName(name)
    requires Trim(raw) == FormatEvent(tick, name)
    ensures Step(st, raw, target)
         == st.(markers := st.markers + [SectionMarker(name, TickToMs(tick, st.tempo, st.resolution))])
  {
    var line := FormatEvent(tick, name);
    FormatEventRoundTrip(tick, name);
    FormatEventLead(tick, name);
    WordLineStep(st, raw, target);
    ContentEvent(st, line, target, EventMatch(tick, name));
  }

  /** A `Key = "value"` line in `[Song]` applies the property. */
  lemma PropertyLineStep(st: PassState, raw: string, target: string, key: string, value: string)
    requires |st.tempo| > 0 && st.inBraces && st.section == "Song" && IsKey(key) && NoQuote(value)
    requires Trim(raw) == FormatMeta(key, value)
    ensures var (md, res) := ApplyMeta(st.metadata, st.resolution, key, value);
      Step(st, raw, target) == st.(metadata := md, resolution := res)
  {
    var line := FormatMeta(key, value);
    FormatMetaRoundTrip(key, value);
    assert InClass(key[0], Word);
    assert line[0] == key[0];
    WordLineStep(st, raw, target);
    ContentProperty(st, line, target, MetaMatch(key, value));
  }

  /** `Resolution = "n"` sets the running resolution and the metadata's to n. */
  lemma ResolutionProperty(md: Metadata, resolution: int, n: nat)
    ensures ApplyMeta(md, resolution, "Resolution", NatToString(n)) == (md.(resolution := Some(n)), n)
  {
    ParseIntRoundTrip(n);
  }

  /** `Offset = "n"` sets the offset to n. */
  lemma OffsetProperty(md: Metadata, resolution: int, n: nat)
    ensures ApplyMeta(md, resolution, "Offset", NatToString(n)) == (md.(offset := Some(n as real)), resolution)
  {
    ParseFloatRoundTrip(n);
  }

  /** The metadata and the running resolution change only inside the braces of `[Song]`. */
  lemma MetadataOnlyInSong(st: PassState, raw: string, target: string)
    requires |st.tempo| > 0
    ensures var r := Step(st, raw, target);
      (r.metadata != st.metadata || r.resolution != st.resolution) ==> st.inBraces && st.section == "Song"
  {
  }

  /** A header line whose name is `Song` is exactly `[Song]`. */
  lemma SongHeader(line: string)
    requires MatchHeader(line).Some? && line[1..|line| - 1] == "Song"
    ensures line == "[Song]"
  {
    HeaderShape(line);
  }

  /** Without a `[Song]` header the metadata and the resolution keep their defaults:
      "Unknown Song", "Unknown Artist", offset 0, resolution 192. */
  lemma {:induction false} DefaultsWithoutSong(lines: seq<string>, target: string, n: nat)
    requires n <= |lines| && forall i :: 0 <= i < n ==> Trim(lines[i]) != "[Song]"
    ensures var st := Run(lines, target, n);
      st.metadata == DEFAULT_METADATA && st.resolution == DEFAULT_RESOLUTION && st.section != "Song"
  {
    if n > 0 {
      DefaultsWithoutSong(lines, target, n - 1);
      var st := Run(lines, target, n - 1);
      var line := Trim(lines[n - 1]);
      MetadataOnlyInSong(st, lines[n - 1], target);
      if line != [] && MatchHeader(line).Some? && line[1..|line| - 1] == "Song" {
        SongHeader(line);
      }
    }
  }

  // ---------------------------------------------------------------------------
  // Notes

  /** Over a well-formed tempo table a note's duration is never negative. */
  lemma NoteDurationNonNegative(m: NoteMatch, table: seq<TempoEntry>, resolution: int)
    requires WellFormed(table, resolution)
    ensures MakeNote(m, table, resolution).duration >= 0.0
  {
    if m.sustain > 0 {
      TickToMsMonotone(table, resolution, m.tick, m.tick + m.sustain);
    }
  }

  /** The fallback from section k on is empty exactly when every section from k on is. */
  lemma {:induction false} FallbackEmptyIff(lines: seq<string>, table: seq<TempoEntry>, resolution: int, k: nat)
    requires |table| > 0 && k <= |DIFFICULTY_SECTIONS|
    ensures Fallback(lines, table, resolution, k) == [] <==> NoneFound(lines, table, resolution, k, |DIFFICULTY_SECTIONS|)
    decreases |DIFFICULTY_SECTIONS| - k
  {
    if k < |DIFFICULTY_SECTIONS| {
      FallbackEmptyIff(lines, table, resolution, k + 1);
      FallbackNext(lines, table, resolution, k);
      var found := SectionNotesAt(lines, table, resolution, k);
      assert |SortBy(found, NoteTime)| == |found|;
    }
  }

  /** The fallback takes the first non-empty section in the order Easy, Medium, Hard,
      Expert, sorted. */
  lemma {:induction false} FallbackFirstNonEmpty(lines: seq<string>, table: seq<TempoEntry>, resolution: int, m: nat, k: nat)
    requires |table| > 0 && m <= k < |DIFFICULTY_SECTIONS|
    requires SectionNotesAt(lines, table, resolution, k) != [] && NoneFound(lines, table, resolution, m, k)
    ensures Fallback(lines, table, resolution, m) == SortBy(SectionNotesAt(lines, table, resolution, k), NoteTime)
    decreases k - m
  {
    FallbackNext(lines, table, resolution, m);
    if m < k {
      FallbackFirstNonEmpty(lines, table, resolution, m + 1, k);
    }
  }

  /** Notes from the target section are returned sorted, as a permutation. */
  lemma MainNotes(lines: seq<string>, selected: Difficulty)
    requires MainPass(lines, selected).notes != []
    ensures var r := ParseChart(lines, selected).notes;
      SortedBy(r, NoteTime) && multiset(r) == multiset(MainPass(lines, selected).notes)
  {
    var st := MainPass(lines, selected);
    assert |SortBy(st.notes, NoteTime)| == |st.notes|;
  }

  /** With no note in the target section, the first non-empty difficulty section
      (timed by the complete tempo table) supplies them. */
  lemma FallbackNotes(lines: seq<string>, selected: Difficulty, k: nat)
    requires MainPass(lines, selected).notes == [] && k < |DIFFICULTY_SECTIONS|
    requires var st := MainPass(lines, selected);
      SectionNotesAt(lines, st.tempo, st.resolution, k) != [] && NoneFound(lines, st.tempo, st.resolution, 0, k)
    ensures var st := MainPass(lines, selected);
      ParseChart(lines, selected).notes == SortBy(SectionNotesAt(lines, st.tempo, st.resolution, k), NoteTime)
  {
    var st := MainPass(lines, selected);
    FallbackFirstNonEmpty(lines, st.tempo, st.resolution, 0, k);
  }

  /** The chart has no notes exactly when neither the target section nor any
      difficulty section has one; that is not an error. */
  lemma NoNotesIff(lines: seq<string>, selected: Difficulty)
    ensures var st := MainPass(lines, selected);
      ParseChart(lines, selected).notes == []
      <==> st.notes == [] && NoneFound(lines, st.tempo, st.resolution, 0, |DIFFICULTY_SECTIONS|)
  {
    var st := MainPass(lines, selected);
    FallbackEmptyIff(lines, st.tempo, st.resolution, 0);
    assert |SortBy(st.notes, NoteTime)| == |st.notes|;
  }
}
