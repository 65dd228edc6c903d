# A verified model of the guitar-final rhythm-game engine

This project is a Dafny model of the engine behind a browser rhythm game in the style of Guitar Hero. Notes in five coloured lanes (green, red, yellow, blue, orange) scroll down a perspective highway toward a fret line, and the player presses the matching fret as each note arrives. The model covers everything in the engine that is logic rather than drawing, sound or React glue, and it proves the properties the code promises.

The modules follow the program's files:

- **Wrappers, Types, JsMath.** Option and Result stand for `null`/`undefined` results and thrown errors. Types holds the note, hit-effect and dimension records and the constants of `types.ts`: hit threshold 30 px, at most 10 misses, note speed 300 px/s. JsMath holds the JavaScript number operations in exact arithmetic: `Math.round`, `Math.abs`, `%` truncating toward zero, and the 32-bit conversion behind the bitwise operators.
- **ChartText, ChartParser, ChartLaws, TempoMap, Sorting.** The `.chart` decoder of `lib/chart-parser.ts`, over already-fetched text.
  - ChartText gives `trim`, `parseInt`, `parseFloat` and the line patterns as deterministic scans.
  - ChartParser runs the two passes over the lines, then the stable sort of the notes and the zero-note fallback across the difficulty sections.
  - ChartLaws states what the decoder produces.
  - TempoMap is the piecewise tick-to-millisecond conversion over the tempo table.
  - Sorting is `Array.prototype.sort` with a numeric key, which is stable.
- **ChartLoader.** The mapping from parsed chart notes to runtime notes, and the `null` result when parsing fails.
- **GameLogic.** One simulation step over the master note list, which is an array updated in place. The step collects the visible notes, places or moves each visible note's `y`, marks overdue notes missed, and batches the miss counter.
- **NoteDetection.** Judging a fret press: the closest unhit note within the pixel and time gates, the three quality tiers, and the combo-weighted score. Also the sustain judgement on release.
- **Scoring.** The end-of-song accuracy and the star rating.
- **NoteRenderer, Perspective.** The note-position formula, the in-place compaction of the hit-effect buffer, and the perspective geometry of lanes and notes.
- **PatternNotes, NoteGenerator.** The procedural pattern of `lib/notes.ts` (32-bit string hash, linear congruential generator, chords on expert). Also the random fallback notes of `note-generator.ts`.
- **PlayerState, Store.** The player's emerald wallet and item collection, the store catalogue, and the card-pack flow: price, rarity roll, buy, cancel refund, completion, and paging through the cards, by clicking the card or by the "Next Card" and "Collection" buttons. An item carries its id, type, rarity and its optional song fields (`difficulty`, `chartFile`, `audioFile`); pack copies and a re-picked difficulty keep them.
- **Session.** A play session of `components/guitar-hero/index.tsx`, modelled as a class whose fields stand for the component's React state and refs. It covers:
  - the frame loop, with a 100 ms cap and fixed steps of 1000/120 ms;
  - the edge-triggered fret check and the on-screen fret buttons;
  - the reset of `startGame` and its loading of the selected song's chart;
  - the end-of-song triggers;
  - the guards of `endGame` and `failGame`.

Every random draw, clock reading and audio time is a parameter. Milliseconds and pixels are `real`. The string hash is computed in exact 32-bit arithmetic.

## Model

| member | source | states |
|---|---|---|
| Sorting.Insert | lib/chart-parser.ts:266 | inserting into a sorted list keeps it sorted and adds exactly that element (multiset) |
| Sorting.SortBy | lib/chart-parser.ts:266 | the result is sorted by the key, a permutation of the input, and of the same length |
| Sorting.SortByIsStable | lib/chart-parser.ts:266 | `Array.prototype.sort` is stable: elements with equal keys keep their input order |
| Sorting.InsertKeepsOrder | lib/chart-parser.ts:266 | insertion places the new element before the elements with its key already there, so their order is kept behind it |
| Sorting.SortBySorted | lib/chart-parser.ts:291 | re-sorting an already sorted list leaves it unchanged |
| Sorting.SortedCons | lib/chart-parser.ts:266 | an element no larger than every element of a sorted list can be put in front of it |
| Sorting.WithKey | lib/chart-parser.ts:266 | the elements with a given key, in input order; never more than the input |
| TempoMap.MsPerTick | lib/chart-parser.ts:52 | milliseconds per tick, positive for a positive tempo and resolution |
| TempoMap.PrevIndex | lib/chart-parser.ts:42-48 | index of the tempo change in force: every later-scanned entry up to it starts at or before the tick, the next one (if any) after it |
| TempoMap.ScanFrom | lib/chart-parser.ts:45-48 | the loop's scan from entry i stops at the first entry whose tick lies after the given tick |
| TempoMap.TimestampForTick | lib/chart-parser.ts:37-56 | the loop computes the entry's timestamp plus the elapsed ticks times ms-per-tick (TickToMs) |
| TempoMap.Pushed | lib/chart-parser.ts:215-220 | a tempo change appends one entry timed by the table it is pushed onto, earlier entries untouched |
| TempoMap.DefaultQuarterNote | lib/chart-parser.ts:112-117 | with the default 120 BPM entry and resolution 192, one beat (192 ticks) lasts 500 ms |
| TempoMap.EntryTimesAscending | lib/chart-parser.ts:213-220 | in a table built by pushing changes in tick order, entry timestamps never decrease |
| TempoMap.EntryStep | lib/chart-parser.ts:55 | each pushed entry's timestamp extends the previous entry's segment |
| TempoMap.PrevIndexMonotone | lib/chart-parser.ts:42-48 | a later tick never selects an earlier tempo entry |
| TempoMap.TickToMsMonotone | lib/chart-parser.ts:37-56 | on a well-formed table, tick-to-ms conversion is monotone: later ticks never get earlier times |
| TempoMap.SameSegment | lib/chart-parser.ts:51-55 | within one tempo segment the conversion is monotone |
| TempoMap.CrossSegments | lib/chart-parser.ts:37-56 | across tempo segments the conversion is monotone |
| TempoMap.BeforeNextEntry | lib/chart-parser.ts:51-55 | a tick before the next change maps no later than that change's timestamp |
| TempoMap.SegmentMonotone | lib/chart-parser.ts:55 | one linear segment with non-negative slope is monotone |
| TempoMap.PushKeepsEarlierTicks | lib/chart-parser.ts:215-220 | pushing a change at tick T leaves the time of every tick up to T unchanged |
| TempoMap.PushKeepsWellFormed | lib/chart-parser.ts:213-220 | pushing a positive tempo at a tick no earlier than the last keeps the table well formed |
| TempoMap.TempoAtZeroSupersedesDefault | lib/chart-parser.ts:115-117 | a chart's own tempo at tick 0 replaces the default 120 BPM for every tick |
| ChartText.TrimStartSpec | lib/chart-parser.ts:123 | trimming the front drops exactly a leading run of white space |
| ChartText.TrimEndSpec | lib/chart-parser.ts:123 | trimming the back drops exactly a trailing run of white space |
| ChartText.TrimSpec | lib/chart-parser.ts:123 | `trim()` yields an infix with no white space at either end, empty exactly when the line is all white space |
| ChartText.TrimIdempotent | lib/chart-parser.ts:123 | trimming twice is trimming once |
| ChartText.Span | lib/chart-parser.ts:213 | a regex `\s*`/`\d+` run: the longest run of the class starting at i |
| ChartText.NatToString | lib/chart-parser.ts:215 | decimal rendering of a natural number: non-empty, all digits |
| ChartText.NatToStringRoundTrip | lib/chart-parser.ts:215 | the digits of n read back as n |
| ChartText.ParseIntRoundTrip | lib/chart-parser.ts:204 | `Number.parseInt` on a decimal numeral (with or without a minus sign) returns its value |
| ChartText.ParseFloatRoundTrip | lib/chart-parser.ts:201 | `Number.parseFloat` on a decimal numeral returns its value |
| ChartText.MatchHeader | lib/chart-parser.ts:127 | `^\[([^\]]+)\]$`: a match captures the text between the outer brackets |
| ChartText.FormatHeaderRoundTrip | lib/chart-parser.ts:127-129 | a bracketed name without `]` matches as a header and captures that name |
| ChartText.MatchSpacedNumber | lib/chart-parser.ts:239 | the `\s+(\d+)` part consumes at least one character |
| ChartText.MatchSectionName | lib/chart-parser.ts:226 | the `section\s+([^"]+)` capture is non-empty and free of quotes |
| ChartText.SectionNameRoundTrip | lib/chart-parser.ts:226 | a plain name after a space is captured whole |
| ChartText.SyncLineOfDigits | lib/chart-parser.ts:213 | `t = B b` with digit strings matches the tempo regex with their values |
| ChartText.NoteLineOfDigits | lib/chart-parser.ts:239 | `t = N l u` with digit strings matches the note regex with their values |
| ChartText.EventLineOfDigits | lib/chart-parser.ts:226 | `t = E "section name"` matches the event regex with that tick and name |
| ChartText.FormatSyncRoundTrip | lib/chart-parser.ts:213-216 | a formatted tempo line decodes to the same tick and milli-BPM |
| ChartText.FormatNoteRoundTrip | lib/chart-parser.ts:239-243 | a formatted note line decodes to the same tick, lane and sustain |
| ChartText.FormatEventRoundTrip | lib/chart-parser.ts:226-229 | a formatted section event decodes to the same tick and name |
| ChartText.FormatMetaRoundTrip | lib/chart-parser.ts:179-182 | a `Key = "value"` line decodes to the same key and value |
| ChartText.TimeSignatureIsNotTempo | lib/chart-parser.ts:213 | a `TS` (time signature) line in [SyncTrack] does not match the tempo regex |
| ChartParser.SectionDifficulty | lib/chart-parser.ts:59 | a section name names a difficulty exactly when it is one of the four `...Single` names |
| ChartParser.SplitLines | lib/chart-parser.ts:119 | `split("\n")` yields at least one piece, none containing a newline |
| ChartParser.JoinSplitLines | lib/chart-parser.ts:119 | joining the pieces with newlines gives back the text |
| ChartParser.SplitJoinLines | lib/chart-parser.ts:119 | splitting newline-joined newline-free lines gives back the lines |
| ChartParser.SplitOneLine | lib/chart-parser.ts:119 | a text without newline is one line |
| ChartParser.SplitBeforeNewline | lib/chart-parser.ts:119 | the text before the first newline is the first line |
| ChartParser.MakeNote | lib/chart-parser.ts:241-258 | a parsed note keeps its tick, is timed by the tempo table, takes the lane's colour (green past lane 4), and a sustain maps to the time span it covers |
| ChartParser.ContentLine | lib/chart-parser.ts:175-262 | a content line never replaces the default tempo entry |
| ChartParser.Step | lib/chart-parser.ts:151-172 | one line of the second pass never replaces the default tempo entry |
| ChartParser.Run | lib/chart-parser.ts:147-263 | the tempo table of the second pass always starts with the 120 BPM default |
| ChartParser.Fallback | lib/chart-parser.ts:281-295 | the zero-note fallback returns sorted notes |
| ChartParser.ParseChart | lib/chart-parser.ts:84-310 | the decoded chart has time-sorted notes, difficulty-sorted difficulties and the default tempo first |
| ChartParser.BuildNote | lib/chart-parser.ts:241-258 | computes MakeNote with the tempo-table method |
| ChartParser.ScanSectionLine | lib/chart-parser.ts:330-374 | one iteration of `parseNotesFromSection` is SectionStep |
| ChartParser.NotesFromSection | lib/chart-parser.ts:320-378 | `parseNotesFromSection` returns SectionNotes over all lines |
| ChartParser.ApplyProperty | lib/chart-parser.ts:179-208 | a metadata key updates exactly the field the switch names |
| ChartParser.ProcessLine | lib/chart-parser.ts:151-263 | one iteration of the second pass is Step |
| ChartParser.ProcessContent | lib/chart-parser.ts:175-262 | the in-braces switch is ContentLine |
| ChartParser.CollectHeader | lib/chart-parser.ts:123-134 | one iteration of the first pass appends the line's difficulty, if any |
| ChartParser.FindDifficulties | lib/chart-parser.ts:122-135 | the first-pass loop computes FirstPass over all lines |
| ChartParser.SecondPass | lib/chart-parser.ts:147-263 | the second-pass loop computes Run over all lines |
| ChartParser.TryFallbackSections | lib/chart-parser.ts:284-295 | the fallback loop computes Fallback from the first difficulty section |
| ChartParser.ParseChartFile | lib/chart-parser.ts:64-315 | the whole decoder computes ParseChartText of the fetched text |
| ChartParser.ParseChartParts | lib/chart-parser.ts:265-310 | the result is the sorted main-pass notes, or the fallback when those are empty, with the pass's metadata, sections and tempo table and the sorted difficulties |
| ChartLaws.SectionDifficultyIff | lib/chart-parser.ts:59 | a section name maps to difficulty d if and only if it is d's `...Single` name |
| ChartLaws.HeaderShape | lib/chart-parser.ts:127 | a matched header line is `[` + capture + `]` |
| ChartLaws.HeaderLineIff | lib/chart-parser.ts:123-133 | a line contributes difficulty d if and only if its trimmed text is d's header |
| ChartLaws.HeaderLineOf | lib/chart-parser.ts:123-133 | a line that contributes a difficulty is that difficulty's header |
| ChartLaws.HeaderAtMostOne | lib/chart-parser.ts:127-133 | a line contributes at most one difficulty |
| ChartLaws.FirstPassIff | lib/chart-parser.ts:122-135 | d is available if and only if some line is d's header |
| ChartLaws.FirstPassHas | lib/chart-parser.ts:122-135 | d is available if and only if some line contributes d |
| ChartLaws.GatherHas | lib/chart-parser.ts:122-135 | an element is gathered if and only if some line contributes it |
| ChartLaws.GatherPrefix | lib/chart-parser.ts:122-135 | scanning more lines only extends the gathered list |
| ChartLaws.FirstPassPrefix | lib/chart-parser.ts:122-135 | the difficulties found in a prefix of the file are a prefix of those found in the whole |
| ChartLaws.FirstPassNone | lib/chart-parser.ts:122-135 | no header lines, no difficulties |
| ChartLaws.AvailableDifficultiesIff | lib/chart-parser.ts:122-135 | the reported difficulties are sorted by rank (the sort at lines 300-302), a permutation of those found, and contain d if and only if the file has d's header |
| ChartLaws.TargetWhenPresent | lib/chart-parser.ts:139-145 | when the requested difficulty's header is present, its section is the target |
| ChartLaws.TargetFallsBackToFirstHeader | lib/chart-parser.ts:139-145 | when it is absent, the first difficulty header in file order is the target |
| ChartLaws.FirstHeaderFound | lib/chart-parser.ts:122-135 | the first header line is the first difficulty found |
| ChartLaws.TargetWithoutHeaders | lib/chart-parser.ts:139-145 | with no difficulty headers at all, the requested section stays the target |
| ChartLaws.WordLineStep | lib/chart-parser.ts:151-175 | a line starting with a word character is content inside braces and ignored outside |
| ChartLaws.DifficultySectionsAreNotSpecial | lib/chart-parser.ts:176-238 | no difficulty section is `Song`, `SyncTrack` or `Events`, so the target case is reachable |
| ChartLaws.ContentNote | lib/chart-parser.ts:238-259 | in the target section a note line appends exactly one note |
| ChartLaws.ContentNotesOnlyInTarget | lib/chart-parser.ts:174-262 | outside the target section no note is added |
| ChartLaws.ContentSync | lib/chart-parser.ts:211-221 | in [SyncTrack] a tempo line pushes one tempo entry at milli-BPM / 1000 |
| ChartLaws.ContentNoSync | lib/chart-parser.ts:211-222 | in [SyncTrack] any other line changes nothing |
| ChartLaws.ContentEvent | lib/chart-parser.ts:224-234 | in [Events] a section event appends one timed marker |
| ChartLaws.ContentProperty | lib/chart-parser.ts:177-208 | in [Song] a property line applies that property |
| ChartLaws.NoteLineStep | lib/chart-parser.ts:151-259 | a raw note line inside the target section's braces appends its note |
| ChartLaws.NoteLineElsewhere | lib/chart-parser.ts:174-262 | a raw note line elsewhere adds no note |
| ChartLaws.SyncLineStep | lib/chart-parser.ts:151-221 | a raw tempo line inside [SyncTrack] pushes its entry, timed by the table so far |
| ChartLaws.TimeSignatureStep | lib/chart-parser.ts:211-222 | a raw time-signature line leaves the state unchanged |
| ChartLaws.EventLineStep | lib/chart-parser.ts:151-234 | a raw section event inside [Events] appends its marker |
| ChartLaws.PropertyLineStep | lib/chart-parser.ts:151-208 | a raw property line inside [Song] applies that property |
| ChartLaws.ResolutionProperty | lib/chart-parser.ts:203-206 | `Resolution = "n"` sets both the metadata and the running resolution to n |
| ChartLaws.OffsetProperty | lib/chart-parser.ts:200-202 | `Offset = "n"` sets the offset to n and leaves the resolution alone |
| ChartLaws.MetadataOnlyInSong | lib/chart-parser.ts:177-209 | metadata and resolution change only inside the braces of [Song] |
| ChartLaws.SongHeader | lib/chart-parser.ts:158-159 | the header that opens the Song section is exactly `[Song]` |
| ChartLaws.DefaultsWithoutSong | lib/chart-parser.ts:84-112 | a file without `[Song]` keeps the default metadata and resolution 192 |
| ChartLaws.NoteDurationNonNegative | lib/chart-parser.ts:247-248 | on a well-formed tempo table a note's duration is never negative |
| ChartLaws.FallbackEmptyIff | lib/chart-parser.ts:284-294 | the fallback finds nothing if and only if every difficulty section from k on is empty |
| ChartLaws.FallbackFirstNonEmpty | lib/chart-parser.ts:284-293 | the fallback takes the first non-empty difficulty section in Easy..Expert order, sorted |
| ChartLaws.MainNotes | lib/chart-parser.ts:265-266 | when the target section has notes, the result is exactly those notes, time-sorted |
| ChartLaws.FallbackNotes | lib/chart-parser.ts:281-295 | when it has none, the result is the first non-empty difficulty section, sorted |
| ChartLaws.NoNotesIff | lib/chart-parser.ts:281-295 | the chart yields no notes if and only if the target and every difficulty section are empty |
| ChartLoader.RuntimeNotes | components/guitar-hero/utils/chart-loader.ts:10-18 | one runtime note per chart note, same colour, time and duration, placed at y = -100, neither hit nor missed |
| ChartLoader.RuntimeNotesSorted | components/guitar-hero/utils/chart-loader.ts:10-18 | time-sorted chart notes give time-sorted runtime notes |
| ChartLoader.RuntimeNotesAppend | components/guitar-hero/utils/chart-loader.ts:10-18 | the note conversion works element by element |
| ChartLoader.LoadChart | components/guitar-hero/utils/chart-loader.ts:5-48 | loading fails exactly when the chart fetch fails; otherwise the data is the decoded chart and the notes its runtime notes |
| ChartLoader.AudioDoesNotAffectNotes | components/guitar-hero/utils/chart-loader.ts:21-43 | an audio failure changes neither the notes nor the chart data |
| ChartLoader.LoadedNotesSorted | components/guitar-hero/utils/chart-loader.ts:7-18 | the loaded notes are time-sorted, one per chart note |
| Types.LaneIndex | components/guitar-hero/renderers/note-renderer.ts:31 | every colour has a lane below 5, and the lane's fret is that colour |
| JsMath.Abs | components/guitar-hero/hooks/use-note-detection.ts:40-41 | `Math.abs`: non-negative, and the value or its negation |
| JsMath.MaxNat | components/guitar-hero/hooks/use-note-detection.ts:95 | `Math.max`: at least both arguments and one of them |
| JsMath.Round | components/guitar-hero/utils/scoring.ts:8 | `Math.round` rounds to within one half, halves upward |
| JsMath.ScaledRange | lib/notes.ts:15 | `Math.floor(Math.random() * n)` is an index below n |
| JsMath.ScaledBetween | components/guitar-hero/game-logic.ts:144 | interpolating with a factor in [0, 1] stays between 0 and the distance |
| JsMath.RemainderBounds | components/guitar-hero/game-logic.ts:162 | the `%` of a non-negative number by a positive divisor lies in [0, d), and a number below d is its own remainder |
| JsMath.RemainderInRange | components/guitar-hero/game-logic.ts:162 | the `%` of a non-negative number by a positive divisor lies in [0, d) |
| JsMath.RemainderBelowDivisor | components/guitar-hero/game-logic.ts:162 | a number below the divisor is its own `%` |
| JsMath.RemainderOfIntegers | lib/notes.ts:122 | on integers, `%` is integer remainder |
| JsMath.ToInt32 | lib/notes.ts:112-113 | `hash & hash`: a signed 32-bit value congruent to the input modulo 2^32 |
| JsMath.ToInt32Identity | lib/notes.ts:113 | a signed 32-bit value is its own 32-bit conversion |
| JsMath.CongruentAdd | lib/notes.ts:112 | adding the same value keeps two numbers congruent modulo 2^32 |
| JsMath.CongruentScale | lib/notes.ts:112 | scaling by the same value keeps two numbers congruent modulo 2^32 |
| JsMath.ModShift | lib/notes.ts:113 | adding a multiple of 2^32 keeps the remainder |
| GameLogic.MarkMissed | components/guitar-hero/game-logic.ts:29-48 | marking misses keeps the note list's length |
| GameLogic.CheckMissedNotes | components/guitar-hero/game-logic.ts:5-83 | marks the due visible notes missed in the master list, adds each to the missed stat, counts one miss for the whole call, and returns the deferred reaction for the new miss count |
| GameLogic.CountDueNext | components/guitar-hero/game-logic.ts:29-48 | the loop counts one more when the current visible note is due |
| GameLogic.MarkMissedNext | components/guitar-hero/game-logic.ts:33-43 | the loop marks the current visible note missed exactly when it is due |
| GameLogic.MarkMissedChanges | components/guitar-hero/game-logic.ts:33-43 | only the missed flag changes; it flips exactly for visible, still pending notes past the fret threshold or 200 ms late; hit or missed notes are untouched |
| GameLogic.FlippedAreDue | components/guitar-hero/game-logic.ts:33-43 | the notes whose flag flips are exactly the due visible ones |
| GameLogic.DueSetStep | components/guitar-hero/game-logic.ts:29-48 | the due set grows by the last visible note exactly when it is due |
| GameLogic.CountDueIsCardinality | components/guitar-hero/game-logic.ts:29-48 | the number of misses counted is the number of distinct due notes |
| GameLogic.MissedStatCountsFlips | components/guitar-hero/game-logic.ts:46 | the missed stat grows by exactly the number of notes newly marked missed |
| GameLogic.ReactionThresholds | components/guitar-hero/game-logic.ts:50-81 | a reaction follows exactly when some note was missed; it fails the game from 10 misses and warns from 7, and failure implies the warning |
| GameLogic.Moved | components/guitar-hero/game-logic.ts:103-153 | moving the notes keeps the list's length |
| GameLogic.UpdateVisibleNotes | components/guitar-hero/game-logic.ts:86-166 | moves every relevant note, returns the relevant positions in order, and advances the line offset, wrapping it with `%` past the line spacing |
| GameLogic.VisibleUpToIff | components/guitar-hero/game-logic.ts:103-153 | the visible list is strictly increasing positions, and holds k if and only if note k is relevant (pending within 5 s, hit tap within 200 ms, missed within 500 ms, or sustain still running) |
| GameLogic.MovedOnlyY | components/guitar-hero/game-logic.ts:122-149 | moving changes only y, and only of relevant notes |
| GameLogic.MovedKeepsVisible | components/guitar-hero/game-logic.ts:108-122 | relevance does not depend on y, so moving keeps the visible set |
| GameLogic.FirstPlacement | components/guitar-hero/game-logic.ts:146-149 | a note at its initial -100 is placed straight at its target height |
| GameLogic.SmoothingApproachesTarget | components/guitar-hero/game-logic.ts:133-145 | the smoothed position lies between the old y and the target, and reaches it once 12 * deltaTime >= 1 |
| GameLogic.ExitSpeeds | components/guitar-hero/game-logic.ts:136-141 | past the fret line a missed note moves at 150 px/s and a hit tap at 600 px/s |
| GameLogic.LineOffsetInRange | components/guitar-hero/game-logic.ts:158-163 | the line offset stays between 0 and the line spacing |
| NoteRenderer.OnFretAtTimestamp | components/guitar-hero/renderers/note-renderer.ts:7-10 | a note is on the fret line at its own timestamp |
| NoteRenderer.PositionAdvance | components/guitar-hero/renderers/note-renderer.ts:7-10 | advancing the clock by d ms moves a note down by d/1000 * speed |
| NoteRenderer.PositionMonotone | components/guitar-hero/renderers/note-renderer.ts:7-10 | with a positive speed notes never move up as time passes |
| NoteRenderer.TimeAtHeightInverts | components/guitar-hero/renderers/note-renderer.ts:7-10 | the time at which a note reaches height y is the inverse of the position formula |
| NoteRenderer.AnimationStep | components/guitar-hero/renderers/note-renderer.ts:245-248 | the capped animation step is at most one frame, and non-negative for a non-negative delta |
| NoteRenderer.Truncated | components/guitar-hero/renderers/note-renderer.ts:238-243 | truncation keeps a prefix of at most 15 effects, and leaves a short list alone |
| NoteRenderer.AgeHitEffects | components/guitar-hero/renderers/note-renderer.ts:232-283 | the in-place loop leaves exactly the survivors of the truncated list in the array's first count slots |
| NoteRenderer.KeepIfLive | components/guitar-hero/renderers/note-renderer.ts:254-276 | one iteration appends the aged effect, if still live, to the kept prefix and leaves later slots alone |
| NoteRenderer.SurvivorsNext | components/guitar-hero/renderers/note-renderer.ts:253-277 | the survivors of one more effect are the earlier survivors plus its aged copy |
| NoteRenderer.SurvivorsPrefix | components/guitar-hero/renderers/note-renderer.ts:253-277 | survivors of a prefix are a prefix of the survivors |
| NoteRenderer.SurvivorsLength | components/guitar-hero/renderers/note-renderer.ts:253-280 | the loop never keeps more effects than it had |
| NoteRenderer.SurvivorsIff | components/guitar-hero/renderers/note-renderer.ts:253-277 | an effect survives if and only if it came from one before frame 10 that is still before frame 10 one step on |
| NoteRenderer.SurvivorsLive | components/guitar-hero/renderers/note-renderer.ts:274-276 | every kept effect is before frame 10 |
| NoteRenderer.NewEffectSurvives | components/guitar-hero/renderers/note-renderer.ts:271-276 | a fresh effect always survives its first step |
| Perspective.Clamp01 | components/guitar-hero/utils/perspective.ts:16 | `Math.max(0, Math.min(1, v))` lies in [0, 1] and leaves a value already there alone |
| Perspective.PerspectiveRatio | components/guitar-hero/utils/perspective.ts:16 | the perspective ratio lies in [0, 1] |
| Perspective.WidthAtEnds | components/guitar-hero/utils/perspective.ts:11-19 | the highway is 0.33 of the width above the perspective start and 1.2 (1.0 on mobile) at the bottom |
| Perspective.WidthPositive | components/guitar-hero/utils/perspective.ts:11-19 | the highway is never narrower than its top width |
| Perspective.LaneCentre | components/guitar-hero/utils/perspective.ts:20-24 | a note sits at the centre of its fifth of the highway |
| Perspective.MiddleLaneCentred | components/guitar-hero/utils/perspective.ts:20-24 | lane 2 is always at the middle of the screen |
| Perspective.LanesOrdered | components/guitar-hero/utils/perspective.ts:20-24 | lanes appear left to right in index order |
| Perspective.NoteSizeBounds | components/guitar-hero/utils/perspective.ts:28-45 | note sizes stay between their far and near sizes, base 18 |
| Perspective.RatioMonotone | components/guitar-hero/utils/perspective.ts:16 | the perspective ratio never decreases down the screen |
| Perspective.NoteSizeMonotone | components/guitar-hero/utils/perspective.ts:33-38 | notes grow as they come down the screen |
| Perspective.LaneBoundaries | components/guitar-hero/utils/perspective.ts:61-71 | six lane boundaries at the fifths of the highway's width at the fret line |
| Perspective.CalculateLanePositions | components/guitar-hero/utils/perspective.ts:48-83 | fifteen evenly spaced horizontal lines from the perspective start, and five lane centres, each equal to that lane's note position at the fret line |
| Perspective.MidpointIsCentre | components/guitar-hero/utils/perspective.ts:74-77 | the midpoint of a lane's boundaries is the lane's note position |
| Scoring.CalculateAccuracy | components/guitar-hero/utils/scoring.ts:4-9 | accuracy is 0 with no notes and always in 0..100 |
| Scoring.AccuracyFormula | components/guitar-hero/utils/scoring.ts:8 | accuracy is the weighted ratio (1, 0.7, 0.4, 0) in percent, rounded to within one half |
| Scoring.AllPerfect | components/guitar-hero/utils/scoring.ts:8-15 | all perfect hits give 100 and five stars "PERFECT!" |
| Scoring.AllMissed | components/guitar-hero/utils/scoring.ts:6-19 | no hits give 0 and one star "PASSED" |
| Scoring.RatingMonotone | components/guitar-hero/utils/scoring.ts:12-20 | a higher accuracy never gives fewer stars, and stars are 1..5 |
| Scoring.StarsCountThresholds | components/guitar-hero/utils/scoring.ts:15-19 | the stars are 1 plus the number of thresholds 60, 75, 85, 95 reached |
| NoteDetection.FindHitNote | components/guitar-hero/hooks/use-note-detection.ts:33-48 | returns -1 exactly when no visible note of that colour is unhit, within 30 px and 300 ms; otherwise the index of the closest such note, the first one on ties |
| NoteDetection.ChosenUnique | components/guitar-hero/hooks/use-note-detection.ts:37-48 | the chosen note is unique |
| NoteDetection.MissedStillHittable | components/guitar-hero/hooks/use-note-detection.ts:39 | the search does not look at the missed flag: a missed note in the window can still be hit |
| NoteDetection.HitRewards | components/guitar-hero/hooks/use-note-detection.ts:72-119 | a hit adds 100, 50 or 25 points scaled by 1 + combo/10, 3, 2 or 1 emeralds and one perfect, great or good for an accuracy below 10, below 20, or more; combo goes up by one and the maximum combo follows it |
| NoteDetection.HitEffectCap | components/guitar-hero/hooks/use-note-detection.ts:58-66 | a hit appends a hit effect at the note's position only while fewer than ten are pending, so at most ten stay pending |
| NoteDetection.HitRecordsHeld | components/guitar-hero/hooks/use-note-detection.ts:121-125 | a hit on a note longer than 200 ms records it as held under its colour; other colours' records stay |
| NoteDetection.HandleFretPress | components/guitar-hero/hooks/use-note-detection.ts:26-142 | a press with no candidate changes no note and resets the combo with "MISS!"; otherwise exactly the chosen note is marked hit and the hit is rewarded |
| NoteDetection.FindVisible | components/guitar-hero/hooks/use-note-detection.ts:155 | `find` returns a note exactly when the recorded note is visible with that colour, and then that note |
| NoteDetection.ReleaseOutcomes | components/guitar-hero/hooks/use-note-detection.ts:145-193 | releasing without a record changes nothing; otherwise the record is removed, and a note held for 90% of its duration is recorded as sustained with a bonus of 10 points per whole 100 ms |
| NoteDetection.HoldBonusBounds | components/guitar-hero/hooks/use-note-detection.ts:164 | the hold bonus is between 0 and a tenth of the duration |
| NoteGenerator.GenerateRandomNotes | components/guitar-hero/utils/note-generator.ts:4-21 | the loop builds one note per index from the random draws given, in order |
| NoteGenerator.RandomNotesShape | components/guitar-hero/utils/note-generator.ts:8-19 | count notes, each off-screen at y = -100, unhit, unmissed, without duration, with a random fret and a timestamp in [0, 10000) ms |
| NoteGenerator.TimeInSpread | components/guitar-hero/utils/note-generator.ts:10 | `Math.random() * 10000` lies in [0, 10000) |
| NoteGenerator.FallbackNotesStartAbove | components/guitar-hero/utils/note-generator.ts:23-33 | at song time 0 no generated note is below the fret line, and each reaches it at its timestamp |
| PatternNotes.HashFold | lib/notes.ts:108-114 | the running hash is always a signed 32-bit integer |
| PatternNotes.HashValue | lib/notes.ts:115 | the hash is at most 2^31 and 0 for the empty string |
| PatternNotes.HashString | lib/notes.ts:108-116 | the loop computes HashValue |
| PatternNotes.HashStepIsTimes31 | lib/notes.ts:112-113 | `(hash << 5) - hash + char` is 31 * hash + char modulo 2^32 |
| PatternNotes.HashIsPolynomial | lib/notes.ts:108-114 | the hash is the string's base-31 polynomial modulo 2^32 |
| PatternNotes.HashOfShortString | lib/notes.ts:108-116 | for a string of at most two BMP characters no wrap-around happens: the hash is the polynomial itself |
| PatternNotes.LcgRange | lib/notes.ts:122-123 | from a non-negative seed the next seed lies in [0, 233280) and the output in [0, 1) |
| PatternNotes.LcgOnIntegers | lib/notes.ts:122 | on an integer seed the step is the integer LCG (9301, 49297, 233280) |
| PatternNotes.PseudoRandom.constructor | lib/notes.ts:119-120 | the generator starts at the given seed |
| PatternNotes.PseudoRandom.Next | lib/notes.ts:120-124 | each call advances the seed one LCG step and returns it over the modulus |
| PatternNotes.DrawsFromRange | lib/notes.ts:66-81 | the four outputs drawn from a non-negative seed all lie in [0, 1) |
| PatternNotes.DifficultyParams | lib/notes.ts:31-59 | the switch sets spacing, randomness and complexity per difficulty, the defaults for any other value |
| PatternNotes.Iteration | lib/notes.ts:64-102 | one iteration lowers lastY by spacing plus a random share of randomness, pushes the iteration's notes, and leaves the generator at the seed the branch demands |
| PatternNotes.GenerateRandomNotes | lib/notes.ts:23-105 | the whole loop computes Generate |
| PatternNotes.DifficultyOrdering | lib/notes.ts:36-59 | harder difficulties have smaller spacing, larger randomness and larger colour complexity; other strings (and none) get the defaults |
| PatternNotes.FiveColourPalettes | lib/notes.ts:74 | with five colours easy uses 3, medium 4, the default and hard 5, expert 6 |
| PatternNotes.MainIndexRange | lib/notes.ts:74-75 | the main colour index is below the available colour count |
| PatternNotes.OutputRange | lib/notes.ts:123 | an in-range seed over the modulus is in [0, 1) |
| PatternNotes.LowerBounds | lib/notes.ts:66 | each step lowers lastY by between spacing and spacing plus randomness |
| PatternNotes.StepLowers | lib/notes.ts:64-102 | one iteration moves lastY down within those bounds and only appends notes |
| PatternNotes.StepDescends | lib/notes.ts:64-102 | one iteration keeps the notes in descending screen order |
| PatternNotes.RunDescends | lib/notes.ts:64-102 | after any number of iterations the notes descend |
| PatternNotes.StepUnder | lib/notes.ts:64-102 | one iteration keeps every note at or above the given bound |
| PatternNotes.RunBelowFirstStep | lib/notes.ts:64-102 | every note lies at least one spacing above the start y of -50 set at line 25 |
| PatternNotes.PatternDescends | lib/notes.ts:23-105 | generated notes are ordered by height and all start above -50 minus the spacing |
| PatternNotes.RunIgnoresDraws | lib/notes.ts:71-91 | with a song id the loop uses only the seeded generator |
| PatternNotes.SameSongSamePattern | lib/notes.ts:27-62 | the same song and difficulty always give the same pattern |
| PatternNotes.ChordNotes | lib/notes.ts:77-87 | an iteration pushes one or two notes; two only for a song on expert before the last iteration, at the same height, and with different colours when the palette has two distinct colours |
| PatternNotes.RunDrawsOk | lib/notes.ts:64-102 | the generator's outputs stay in [0, 1) throughout |
| PatternNotes.RunSeedOk | lib/notes.ts:64-102 | the generator's seed stays in range throughout |
| PatternNotes.ShiftedResidueDiffers | lib/notes.ts:81 | shifting an index by 1..n-1 changes it modulo n |
| PatternNotes.RunLength | lib/notes.ts:64-102 | after n iterations there are at least n notes, exactly n unless a song on expert, at most one extra per iteration but the last |
| PatternNotes.PatternLength | lib/notes.ts:23-105 | count notes in general, at most 2 * count - 1 with chords |
| PatternNotes.EmittedColours | lib/notes.ts:74-99 | an iteration's colours come from the palette, and are missing only for an empty palette |
| PatternNotes.ColoursOkAppend | lib/notes.ts:86-101 | the colour rule holds across appended notes |
| PatternNotes.RunColours | lib/notes.ts:64-102 | every generated colour comes from the palette |
| PatternNotes.AvailableWithinPalette | lib/notes.ts:74 | with complexity at most 1 the available colours fit in the palette |
| PatternNotes.PatternColours | lib/notes.ts:23-105 | every note's colour is from the palette, and absent exactly when the palette is empty |
| Store.RarityChances | components/store.tsx:123-132 | each pack's rarity chances are positive and add up to 100 |
| Store.DearerPacksAreRarer | components/store.tsx:123-132 | prices (lines 15-19) rise from basic (50) to premium (100) to ultimate (200), and so do the legendary and epic chances, while the common chance falls |
| Store.RarityBands | components/store.tsx:135-142 | the roll is split into bands: legendary below the legendary chance, then epic, then rare, and common for the rest |
| Store.CommonBand | components/store.tsx:136-141 | a roll in [0, 100) is common exactly when it is at least 100 minus the common chance |
| Store.OfRarity | components/store.tsx:107 | the filter keeps only store items of that rarity |
| Store.OfRarityComplete | components/store.tsx:107 | the filter keeps every store item of that rarity |
| Store.RarityStocked | components/store.tsx:107-110 | every rarity has at least one store item, so the pick never indexes an empty list |
| Store.Chosen | components/store.tsx:104-110 | the picked item is a store item of the rolled rarity |
| Store.PackItemsStep | components/store.tsx:102-117 | each loop iteration appends one card |
| Store.GeneratePackItems | components/store.tsx:97-120 | the loop builds the pack's five cards from the draws |
| Store.SuffixEndsInPosition | components/store.tsx:115 | a card id ends in its position digit |
| Store.PackCardKeepsFiles | components/store.tsx:113-116 | a card keeps its store item's type and song fields, so it has a chart file exactly when it is a copy of song 6, 9 or 10, and such a chart file name is never empty |
| Store.PackCardCopies | components/store.tsx:105-116 | card i has the rolled rarity and is a store item of that rarity under the id `<id>-<now>-<i>`, whose last character is the digit i |
| Store.PackIdsDistinct | components/store.tsx:97-120 | no two cards of a pack share an id |
| Store.PackContents | components/store.tsx:97-120 | a pack has five cards, each a store item of the rolled rarity with `-<now>-<i>` appended to its id, and no two cards share an id |
| Store.StoreScreen.constructor | components/store.tsx:41-48 | the store starts with no pack open, no carousel, card 0, no collection, no slide |
| Store.StoreScreen.StartPackSelection | components/store.tsx:57-66 | buying succeeds exactly when the balance covers the price; it then debits the price and shows the carousel for that pack; otherwise nothing changes |
| Store.StoreScreen.CompletePackSelection | components/store.tsx:69-82 | without a pack type nothing changes; otherwise the pack opens at card 0 with its generated cards, and those cards are added to the collection |
| Store.StoreScreen.CancelPackSelection | components/store.tsx:85-94 | a selected pack's price is refunded by a negative spend; the carousel closes and the pack type is cleared |
| Store.StoreScreen.BuyThenCancel | components/store.tsx:57-94 | buying a pack and cancelling leaves the wallet as it was |
| Store.StoreScreen.ClosePack | components/store.tsx:145-150 | closing clears the open pack, its cards and its type, and resets the card index |
| Store.StoreScreen.HandleCardClick | components/store.tsx:153-182 | a click while sliding is ignored; on the last card the collection opens; otherwise a left slide starts, with its timer only when the card element exists |
| Store.StoreScreen.NextCardButton | components/store.tsx:332-347 | the "Next Card" button acts as a card click on a mounted card: ignored during a slide, otherwise a left slide starts |
| Store.StoreScreen.CollectionButton | components/store.tsx:349-354 | the "Collection" button opens the collection, with no check for a slide in progress |
| Store.StoreScreen.FinishSlide | components/store.tsx:170-180 | the slide timer advances to the next card and ends the slide |
| Store.StoreScreen.BackFromCollection | components/store.tsx:249-252 | leaving the collection hides it and closes the pack |
| PlayerState.CatalogIdInjective | hooks/use-game-state.tsx:61-315 | catalog ids of one item type never repeat |
| PlayerState.CatalogFacts | hooks/use-game-state.tsx:61-315 | each item type's block has distinct ids, all starting with the type's initial |
| PlayerState.CatalogDistinct | hooks/use-game-state.tsx:61-315 | ids within one item type's block are distinct |
| PlayerState.CatalogInitials | hooks/use-game-state.tsx:61-315 | ids within one item type's block start with the type's initial |
| PlayerState.DistinctAppend | hooks/use-game-state.tsx:61-315 | blocks with distinct ids and disjoint initials join into a list with distinct ids |
| PlayerState.StoreIdsDistinct | hooks/use-game-state.tsx:61-315 | no two store items share an id |
| PlayerState.EveryRarityStocked | hooks/use-game-state.tsx:61-315 | every rarity has at least one store item |
| PlayerState.FindById | hooks/use-game-state.tsx:338-340 | `find` returns an element with that id, and none exactly when no element has it |
| PlayerState.FindUnique | hooks/use-game-state.tsx:338-340 | on a list with distinct ids, `find` returns the element with that id |
| PlayerState.DefaultLookups | hooks/use-game-state.tsx:336-343 | the three default song ids are all found, and all are songs |
| PlayerState.StoreItemFound | hooks/use-game-state.tsx:338-340 | every store item is found by its own id |
| PlayerState.DefaultSongIds | hooks/use-game-state.tsx:199-314 | song-9, song-6 and song-10 are store items 24, 21 and 25, all songs |
| PlayerState.StoreItemAt | hooks/use-game-state.tsx:61-315 | store item i is a song exactly from index 16 on, with id `song-<i - 15>` and that song's difficulty, chart and audio fields; other items have none of those fields |
| PlayerState.ChartedIds | hooks/use-game-state.tsx:255-314 | song-6, song-9 and song-10 are store items 21, 24 and 25 and no others |
| PlayerState.CatalogCharts | hooks/use-game-state.tsx:199-314 | in the catalogue only songs have song fields and every song has a difficulty; exactly songs 6, 9 and 10 have a chart file, those also have an audio file, and their difficulty is medium; no chart file name is empty |
| PlayerState.DefaultSongsCharted | hooks/use-game-state.tsx:255-343 | every song of the default collection carries a non-empty chart file name and an audio file at medium difficulty |
| PlayerState.DefaultItems | hooks/use-game-state.tsx:336-343 | the default collection is song-9, song-6 and song-10, which are store items 24, 21 and 25, in that order |
| PlayerState.WithDifficulty | components/playlist.tsx:54-63 | re-picking a difficulty sets the song's difficulty and keeps its id, type, rarity, chart file and audio file |
| PlayerState.Spend | hooks/use-game-state.tsx:407-413 | spending succeeds exactly when the balance covers the amount, and then debits it; otherwise the balance stays |
| PlayerState.SpendNeverOverdraws | hooks/use-game-state.tsx:407-413 | a non-negative balance never becomes negative |
| PlayerState.RefundAlwaysSucceeds | hooks/use-game-state.tsx:407-413 | a negative spend always succeeds and credits the amount |
| PlayerState.SpendThenRefund | hooks/use-game-state.tsx:407-413 | a spend followed by the matching negative spend restores the balance |
| PlayerState.HasItem | hooks/use-game-state.tsx:421-423 | `some`: true exactly when an item has that id |
| PlayerState.HasItemAfterAdd | hooks/use-game-state.tsx:416-423 | after adding items, an id is owned exactly when it was owned or was added |
| PlayerState.PatchOverwritesSupplied | hooks/use-game-state.tsx:431-433 | the spread takes each supplied avatar field and keeps the others |
| PlayerState.GameState.constructor | hooks/use-game-state.tsx:325-376 | a new player has 1000 emeralds, the three default songs, no selected song and the default avatar |
| PlayerState.GameState.AddEmeralds | hooks/use-game-state.tsx:402-404 | adds the amount and changes nothing else |
| PlayerState.GameState.SpendEmeralds | hooks/use-game-state.tsx:407-413 | applies Spend and reports its outcome, changing nothing else |
| PlayerState.GameState.AddItems | hooks/use-game-state.tsx:416-418 | appends the new items in order and changes nothing else |
| PlayerState.GameState.Has | hooks/use-game-state.tsx:421-423 | true exactly when an owned item has that id |
| PlayerState.GameState.SelectSong | hooks/use-game-state.tsx:426-428 | sets the selected song and changes nothing else |
| PlayerState.GameState.UpdateAvatarSettings | hooks/use-game-state.tsx:431-433 | merges the patch into the avatar settings and changes nothing else |
| Session.FrameDelta | components/guitar-hero/index.tsx:345 | the frame delta is the elapsed time in seconds capped at 0.1, and non-negative when time moves forward |
| Session.RisingIff | components/guitar-hero/index.tsx:220-238 | a fret is among those a key change judges exactly when it is down now and was up before, and it is judged at most once |
| Session.RecordedUpToGet | components/guitar-hero/index.tsx:234-238 | after the first i frets are checked in fret order, exactly those frets hold their new state |
| Session.AllRecorded | components/guitar-hero/index.tsx:234-238 | once all five frets are checked the recorded key states are the pressed ones, and the frets judged along the way are exactly those Rising lists |
| Session.UnkeyedSame | components/guitar-hero/index.tsx:220-231 | two session states agree outside the key states and the hit-detection state exactly when one is the other with those two replaced |
| Session.SessionNotesUnplayed | components/guitar-hero/index.tsx:516-618 | a start's notes are all at the top of the highway, neither hit nor missed, and there are 100 of them when the song has no chart file, an empty chart file name, or the fetch failed |
| Session.Frets.With | components/guitar-hero/index.tsx:229 | recording one fret's state sets that fret and leaves the others; recording the state a fret already has changes nothing |
| Session.ResetPlay | components/guitar-hero/index.tsx:483-496 | a restart zeroes score, combo, maximum combo, emeralds, stats, hit effects, held and sustained notes |
| Session.Restarted | components/guitar-hero/index.tsx:476-528 | a started session has no visible notes, no misses, no warning, time and progress 0, is started and neither over nor failed, with no rewards given, no song end and no audio |
| Session.AgeEffects | components/guitar-hero/index.tsx:424 | the hit effects after a step are the survivors of the truncated list, aged one fixed step |
| Session.NewNoteList | components/guitar-hero/index.tsx:524 | the new note list holds exactly the given notes |
| Session.StepCountsMisses | components/guitar-hero/index.tsx:395-421 | a step keeps the note count, adds each note it newly marks missed to the missed stat, and counts one miss when it marked any |
| Session.StepFailsOnlyAtThreshold | components/guitar-hero/index.tsx:406-421 | a step fails the game only at the tenth miss and shows the warning only from the seventh, each only with a new miss; it never ends or starts the game, reports a completion or changes the song time |
| Session.ReactedKeeps | components/guitar-hero/index.tsx:406-421 | the deferred miss reaction leaves the visible notes and end-of-game bookkeeping alone |
| Session.ReactedKeepsCounts | components/guitar-hero/index.tsx:406-421 | the deferred miss reaction does not change the miss count or the stats |
| Session.FloorDrops | components/guitar-hero/index.tsx:386-428 | each fixed step lowers the whole-millisecond part of the accumulator, so the loop ends |
| Session.RunStepsNext | components/guitar-hero/index.tsx:386-428 | n + 1 fixed steps are n steps followed by one |
| Session.GameSession.constructor | components/guitar-hero/index.tsx:28-186 | the mounted component has no notes, empty state, all frets released, and gameOver set to the gameCompleted prop; with a completed game and a positive final score, the mount effect also sets the score to that final score and gameOver |
| Session.GameSession.FailGame | components/guitar-hero/index.tsx:646-661 | failing stops the audio, clears the held notes and sets gameFailed, keeping the session invariant and the note list |
| Session.GameSession.EndGame | components/guitar-hero/index.tsx:622-643 | a second endGame does nothing; the first stops the audio, clears the held notes, sets gameOver, and calls onComplete with the score unless rewards were already given |
| Session.GameSession.Step | components/guitar-hero/index.tsx:388-427 | one fixed step moves the notes, recomputes the visible list, marks misses, applies the deferred miss reaction and ages the hit effects |
| Session.GameSession.Frame | components/guitar-hero/index.tsx:342-428 | a frame does nothing unless playing; otherwise it takes the audio clock's song time, runs as many fixed steps as the capped elapsed time allows, and keeps the remainder, below one step, for the next frame |
| Session.GameSession.RunFixedSteps | components/guitar-hero/index.tsx:386-428 | the while loop runs n fixed steps and leaves the accumulator less n steps' time, below one step and non-negative |
| Session.GameSession.CheckFret | components/guitar-hero/index.tsx:220-231 | a fret is judged exactly on a press after a release; the fret's new state is recorded and nothing outside the key states, the hit-detection state and the notes changes; an unjudged change only records the fret state; a judged press without a hit resets the combo with "MISS!" |
| Session.GameSession.CheckFrets | components/guitar-hero/index.tsx:216-238 | outside play nothing changes; while playing, the frets judged are exactly those that went down since the last check, in fret order, the recorded key states become the pressed ones, nothing else outside the hit-detection state and the notes changes, and neither of those changes when no fret went down |
| Session.GameSession.StartGame | components/guitar-hero/index.tsx:476-619 | a start resets the session; the note list is the selected item's own chart, read at the item's own difficulty or medium, when the item's chart file is present and not empty (the truthiness test of line 516) and the fetch succeeded, and otherwise 100 random notes; pack copies and re-picked difficulties are covered because they carry their fields |
| Session.PickedDifficulty | components/guitar-hero/index.tsx:516-520 | a song selected with a re-picked difficulty plays that difficulty's part of its fetched chart, and without a chart file, with an empty chart file name, or with a failed fetch the 100 fallback notes |
| Session.GameSession.ClickFret | components/guitar-hero/index.tsx:734-741 | an on-screen fret click judges the press at once, whatever the game's flags and key states; a miss resets the combo with "MISS!", a hit marks the chosen visible note hit and scores it; nothing else changes |
| Session.GameSession.StartPlayback | components/guitar-hero/index.tsx:531-555 | the delayed start begins audio playback, keeping the session invariant and the note list |
| Session.GameSession.OnSongEnded | components/guitar-hero/index.tsx:540-548 | the first end of the track schedules endGame, later ones do not |
| Session.GameSession.ProgressTick | components/guitar-hero/index.tsx:561-593 | while audio runs and the song has neither ended nor stopped, a tick updates song time and progress and, within half a second of the end, stops and schedules endGame once; otherwise it stops |

## Left out

- Floating point: times, positions, scores and accuracy are exact reals. IEEE-754 rounding, `Infinity` and `NaN` are not modelled. Where the source would produce a non-finite value, the model picks 0. Cases: a zero bpm × resolution gives a ms-per-tick of 0; a zero divisor in `%` gives 0; a zero track length gives a progress of 0; in PerspectiveRatio a zero span `gameHeight - perspectiveStartY` (a zero game height) gives 0, where the source clamps +Infinity to 1 for a note below the start, clamps −Infinity to 0 for one above it, and returns `NaN` for one at it. A `NaN` from `parseInt`/`parseFloat` is `None`.
- `parseFloat` is modelled for digits with an optional sign and decimal point. Exponents and `Infinity` literals are not read.
- I/O:
  - the chart `fetch` and audio decoding, whose outcomes are parameters of ChartLoader.LoadChart;
  - AudioContext playback and the miss sound;
  - console logging;
  - `alert`s in the store;
  - localStorage persistence and the GLTF preloading of the player state. The mount-time load is modelled as nothing saved.
- Drawing: `drawNotes`, the canvas calls of `drawHitEffects`, the highway renderers and texture, and the canvas setup in the component. Only their non-drawing logic is modelled. The `highwayBgNeedsRedraw` flag only schedules drawing and is left out.
- Scheduling: `requestAnimationFrame`, `setTimeout` and `setInterval` run nothing by themselves here. Their callbacks are methods the environment calls, for example Session.GameSession.Frame, Session.GameSession.ProgressTick, Session.GameSession.OnSongEnded and Session.GameSession.EndGame.
  - The frame loop's closure variables `lastTime` and `accumulator` are passed from frame to frame as a Session.Clock value.
  - The 2000 ms end delay is recorded as a scheduled end, `endsScheduled`, not as a pending timer.
- React semantics: state setters take effect at once.
  - checkMissedNotes defers its combo reset, warning and failGame call to the next animation frame. The model applies that reaction, Session.Reacted, within the same step.
  - Stale closures are not modelled. In the source, the progress interval and the delayed endGame see the `gameOver`, `gameFailed`, `rewardsGiven` and `score` of the render that started the song. The model reads the current state, which is what the guards are evidently meant to test.
- Random note ids are not modelled. A note's identity is its index in the master note list, and held notes and sustained notes record that index.
- PatternNotes.HashString treats a string as UTF-16 code units of value below 65536 each. Characters outside the Basic Multilingual Plane, which `charCodeAt` splits in two, are not modelled.
- `createRandomNote` in `note-generator.ts` has no caller and is not modelled.
- `updateAvatarSettings` with a field explicitly set to `undefined` overwrites the field with `undefined`. The model's AvatarPatch has no such case: a `None` field keeps the old value.
- The store's card ref is modelled by a flag, `cardMounted`. Its animation is not modelled.
- The playlist's own `addEmeralds` call after a song, and the `rewardsGiven` of `game-ui.tsx`, belong to screens outside the engine.
- Session.GameSession.CheckFrets: the key effect calls checkFret five times, once per fret in fret order. The model writes those five calls as a loop over FRETS, which makes the same calls in the same order.
- Session.GameSession.ClickFret: the click's visual feedback, `activeFrets` set for the fret and cleared by a 100 ms timer, is display state and is not modelled.
- Session.GameSession.StartGame: the audio path, `audioFile` or the default track, and audio decoding are not modelled. The outcome of fetching `/charts/<chartFile>` is a parameter. The playlist screen around `handleSelectDifficulty` is not modelled; only its `{ ...selectedSong, difficulty }` copy is, as PlayerState.WithDifficulty.
- Session.GameSession.CheckFret: its contract states when a press is judged and what a miss does. It leaves what a hit does to NoteDetection.HandleFretPress, whose contract states it.
- `handleFretRelease` has no caller in the component, since checkFret ignores releases. It is modelled anyway, as NoteDetection.Release.
- `calculateNotePosition` appears in `chart-parser.ts`, `note-renderer.ts` and `note-generator.ts` with the same expression. It is modelled once, as NoteRenderer.NotePosition.
- Three decoder behaviours, modelled as `lib/chart-parser.ts` has them:
  - A main-pass note is timed by the tempo lines above it in the file (lines 213-220, 241-258).
  - `Resolution = "0"` sets the resolution to 0 (lines 203-206).
  - A missing difficulty resolves to the first difficulty header in file order (lines 122-145).
