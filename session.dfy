/** components/guitar-hero/index.tsx: one play session. The fixed-step frame loop, the
    edge-triggered fret check, starting a song, the end-of-song triggers and ending or
    failing the game. React state updates are applied at once; timers, audio and the
    animation-frame scheduler are outside the model, and their callbacks are methods
    the environment calls. */
module Session {
  import opened Wrappers
  import opened Types
  import opened GameLogic
  import opened NoteRenderer
  import opened NoteDetection
  import opened NoteGenerator
  import ChartParser
  import ChartLoader
  import PlayerState

  /** `fixedTimeStep`: 120 updates per second, in milliseconds. */
  const FIXED_TIME_STEP: real := 1000.0 / 120.0
  /** `fixedDeltaTime`, in seconds. */
  const FIXED_DELTA: real := FIXED_TIME_STEP / 1000.0
  /** A frame never adds more than 100 ms. */
  const MAX_FRAME_DELTA: real := 0.1
  /** How many notes the game generates when it has no chart. */
  const FALLBACK_NOTE_COUNT: nat := 100
  /** The near-end check fires this many seconds before the track ends. */
  const END_MARGIN: real := 0.5

  /** `Math.min((timestamp - lastTime) / 1000, 0.1)`, in seconds. */
  function FrameDelta(timestamp: real, lastTime: real): (r: real)
    ensures r <= MAX_FRAME_DELTA
    ensures r == MAX_FRAME_DELTA || r == (timestamp - lastTime) / 1000.0
    ensures timestamp >= lastTime ==> r >= 0.0
  {
    var d := (timestamp - lastTime) / 1000.0;
    if d < MAX_FRAME_DELTA then d else MAX_FRAME_DELTA
  }

  /** Song progress in percent. A zero duration gives Infinity or NaN in JavaScript;
      0 here. */
  function Progress(currentTime: real, totalDuration: real): real {
    if totalDuration == 0.0 then 0.0 else currentTime / totalDuration * 100.0
  }

  /** The five key states (`prevKeyStatesRef`). */
  datatype Frets = Frets(green: bool, red: bool, yellow: bool, blue: bool, orange: bool) {
    function Get(c: Colour): bool {
      match c
      case Green => green
      case Red => red
      case Yellow => yellow
      case Blue => blue
      case Orange => orange
    }

    /** The states with one fret set, the others kept. */
    function With(c: Colour, pressed: bool): (r: Frets)
      ensures r.Get(c) == pressed
      ensures forall d: Colour :: d != c ==> r.Get(d) == Get(d)
      ensures Get(c) == pressed ==> r == this
    {
      match c
      case Green => this.(green := pressed)
      case Red => this.(red := pressed)
      case Yellow => this.(yellow := pressed)
      case Blue => this.(blue := pressed)
      case Orange => this.(orange := pressed)
    }
  }

  const ALL_RELEASED: Frets := Frets(false, false, false, false, false)

  /** `[c]` when fret `c` went down between the two key states, else nothing. */
  function WentDown(before: Frets, after: Frets, c: Colour): seq<Colour> {
    if after.Get(c) && !before.Get(c) then [c] else []
  }

  /** The frets a change of key states judges, in fret order: those down now that were
      up before. */
  function Rising(before: Frets, after: Frets): seq<Colour> {
    WentDown(before, after, Green) + WentDown(before, after, Red) + WentDown(before, after, Yellow)
    + WentDown(before, after, Blue) + WentDown(before, after, Orange)
  }

  /** The key states `k` with the first `i` frets, in fret order, set to their state
      in `pressed`. */
  function RecordedUpTo(k: Frets, pressed: Frets, i: nat): Frets
    requires i <= |FRETS|
  {
    if i == 0 then k
    else RecordedUpTo(k, pressed, i - 1).With(FRETS[i - 1], pressed.Get(FRETS[i - 1]))
  }

  /** The frets among the first `i` that went down from `k` to `pressed`, in fret
      order. */
  function RisingUpTo(k: Frets, pressed: Frets, i: nat): seq<Colour>
    requires i <= |FRETS|
  {
    if i == 0 then [] else RisingUpTo(k, pressed, i - 1) + WentDown(k, pressed, FRETS[i - 1])
  }

  /** After the first `i` frets are recorded, a fret holds its new state exactly when it
      is among them. */
  lemma {:induction false} RecordedUpToGet(k: Frets, pressed: Frets, i: nat, c: Colour)
    requires i <= |FRETS|
    ensures RecordedUpTo(k, pressed, i).Get(c) == if LaneIndex(c) < i then pressed.Get(c) else k.Get(c)
  {
    if i > 0 {
      RecordedUpToGet(k, pressed, i - 1, c);
      assert LaneIndex(c) == i - 1 <==> c == FRETS[i - 1];
    }
  }

  /** Recording all five frets gives the pressed states, and the frets that went down
      among all five are those Rising lists. */
  lemma AllRecorded(k: Frets, pressed: Frets)
    ensures RecordedUpTo(k, pressed, |FRETS|) == pressed
    ensures RisingUpTo(k, pressed, |FRETS|) == Rising(k, pressed)
  {
    forall c: Colour
      ensures RecordedUpTo(k, pressed, |FRETS|).Get(c) == pressed.Get(c)
    {
      RecordedUpToGet(k, pressed, |FRETS|, c);
    }
    var ks := RecordedUpTo(k, pressed, |FRETS|);
    assert ks.green == ks.Get(Green) && ks.red == ks.Get(Red) && ks.yellow == ks.Get(Yellow);
    assert ks.blue == ks.Get(Blue) && ks.orange == ks.Get(Orange);
    var g, r, y, b := WentDown(k, pressed, Green), WentDown(k, pressed, Red),
      WentDown(k, pressed, Yellow), WentDown(k, pressed, Blue);
    assert RisingUpTo(k, pressed, 1) == [] + g == g;
    assert RisingUpTo(k, pressed, 2) == g + r;
    assert RisingUpTo(k, pressed, 3) == g + r + y;
    assert RisingUpTo(k, pressed, 4) == g + r + y + b;
  }

  lemma WentDownHas(before: Frets, after: Frets, c: Colour, d: Colour)
    ensures c in WentDown(before, after, d) <==> c == d && after.Get(c) && !before.Get(c)
    ensures multiset(WentDown(before, after, d))[c] == if c == d && after.Get(c) && !before.Get(c) then 1 else 0
  {
  }

  /** A fret is judged exactly when it is down now and was up before, and at most
      once. */
  lemma RisingIff(before: Frets, after: Frets, c: Colour)
    ensures c in Rising(before, after) <==> after.Get(c) && !before.Get(c)
    ensures multiset(Rising(before, after))[c] <= 1
  {
    var g, r, y := WentDown(before, after, Green), WentDown(before, after, Red), WentDown(before, after, Yellow);
    var b, o := WentDown(before, after, Blue), WentDown(before, after, Orange);
    assert Rising(before, after) == g + r + y + b + o;
    assert multiset(Rising(before, after)) == multiset(g) + multiset(r) + multiset(y) + multiset(b) + multiset(o);
    WentDownHas(before, after, c, Green);
    WentDownHas(before, after, c, Red);
    WentDownHas(before, after, c, Yellow);
    WentDownHas(before, after, c, Blue);
    WentDownHas(before, after, c, Orange);
  }

  /** What startGame resets of the hit-detection state: score, combo, best combo,
      session emeralds, accuracy stats, hit effects, held notes and sustained notes.
      The feedback text is left alone. */
  function ResetPlay(p: Play): (r: Play)
    ensures r.score == 0.0 && r.combo == 0 && r.maxCombo == 0 && r.emeralds == 0
    ensures r.stats == ZERO_STATS && r.hitEffects == [] && r.held == map[] && r.sustained == []
    ensures r.feedback == p.feedback
  {
    p.(score := 0.0, combo := 0, maxCombo := 0, emeralds := 0, stats := ZERO_STATS, hitEffects := [],
       held := map[], sustained := [])
  }

  /** Everything the session holds besides the note list and the frame loop's own
      locals, as one value. `completions` lists the scores passed to onComplete since
      the last start and `endsScheduled` counts the endGame timers scheduled since
      then; both exist only in the model, to state what the source's guards promise. */
  datatype SessionData = SessionData(
    visibleNotes: seq<nat>, play: Play, missCount: nat, showMissWarning: bool,
    songTime: real, songProgress: real,
    gameStarted: bool, gameOver: bool, gameFailed: bool, rewardsGiven: bool,
    songEnded: bool, audioPlaying: bool, horizontalLineOffset: real,
    prevKeyStates: Frets, completions: seq<real>, endsScheduled: nat)

  /** The notes a step marks missed: the due ones among the visible notes after
      placement. */
  function StepDue(s: seq<Note>, t: real, fretY: real): nat {
    VisibleUpToIff(s, t, |s|);
    CountDue(Moved(s, t, fretY, FIXED_DELTA), VisibleUpTo(s, t, |s|), t, fretY)
  }

  /** The frame callback checkMissedNotes defers, applied: after a miss the combo
      resets and "MISS!" shows, the warning shows from seven misses and failGame runs
      from ten. */
  function Reacted(d: SessionData, reaction: MissReaction): SessionData {
    if reaction.NoReaction? then d
    else
      var p := ApplyMiss(d.play);
      d.(play := if reaction.callFail then p.(held := map[]) else p,
         audioPlaying := d.audioPlaying && !reaction.callFail,
         gameFailed := d.gameFailed || reaction.callFail,
         showMissWarning := d.showMissWarning || reaction.showWarning)
  }

  /** How many misses the session has counted after a step. */
  function StepMisses(d: SessionData, s: seq<Note>, dims: Dimensions): nat {
    if StepDue(s, d.songTime, dims.fretY) > 0 then d.missCount + 1 else d.missCount
  }

  /** A step before its miss reaction: the visible list, the highway-line offset, the
      miss count, the missed counter of the accuracy stats and the aged hit effects. */
  function Checked(d: SessionData, s: seq<Note>, dims: Dimensions): SessionData {
    var due := StepDue(s, d.songTime, dims.fretY);
    d.(visibleNotes := VisibleUpTo(s, d.songTime, |s|),
       horizontalLineOffset := NextLineOffset(d.horizontalLineOffset, FIXED_DELTA, dims.height),
       missCount := StepMisses(d, s, dims),
       play := d.play.(stats := d.play.stats.(missed := d.play.stats.missed + due),
                       hitEffects := Survivors(Truncated(d.play.hitEffects), AnimationStep(FIXED_DELTA))))
  }

  /** The note list after a step: placed, then the due visible notes marked missed. */
  function StepNotes(s: seq<Note>, t: real, dims: Dimensions): seq<Note> {
    MarkMissed(Moved(s, t, dims.fretY, FIXED_DELTA), VisibleUpTo(s, t, |s|), t, dims.fretY)
  }

  /** One fixed step on the session's data `d` and note list `s`: place the notes and
      collect the visible ones, mark the due ones missed, age the hit effects, and
      react to a miss. */
  function StepResult(d: SessionData, s: seq<Note>, dims: Dimensions): (SessionData, seq<Note>) {
    var misses := StepMisses(d, s, dims);
    (Reacted(Checked(d, s, dims), ReactionFor(misses, StepDue(s, d.songTime, dims.fretY) > 0)),
     StepNotes(s, d.songTime, dims))
  }

  /** drawHitEffects on a copy of the effect list. */
  method AgeEffects(effects: seq<HitEffect>) returns (r: seq<HitEffect>)
    ensures r == Survivors(Truncated(effects), AnimationStep(FIXED_DELTA))
  {
    var buffer := new HitEffect[|effects|](k requires 0 <= k < |effects| => effects[k]);
    assert buffer[..] == effects;
    var count := AgeHitEffects(buffer, FIXED_DELTA);
    r := buffer[..count];
  }

  /** A note list as a new array. */
  method NewNoteList(s: seq<Note>) returns (a: array<Note>)
    ensures fresh(a) && a[..] == s
  {
    a := new Note[|s|](k requires 0 <= k < |s| => s[k]);
    assert a[..] == s;
  }

  /** The selected song's chart fields; none without a selection. */
  function SelectedFiles(selected: Option<PlayerState.Item>): PlayerState.SongFiles {
    if selected.Some? then selected.value.files else PlayerState.NO_FILES
  }

  /** The notes startGame plays: with a non-empty chart file name and a successful
      load, the runtime notes of the chart decoded at the song's difficulty
      (`selectedSong.difficulty || "medium"`); otherwise the 100 fallback notes. */
  function SessionNotes(files: PlayerState.SongFiles, fetched: Result<string, string>, draws: seq<NoteDraw>): seq<Note>
    requires |draws| >= FALLBACK_NOTE_COUNT && forall k :: 0 <= k < |draws| ==> DrawOk(draws[k])
  {
    if PlayerState.HasChart(files) && fetched.Success? then
      ChartLoader.RuntimeNotes(ChartParser.ParseChartText(fetched.value, files.difficulty.GetOr(ChartParser.Medium)).notes)
    else RandomNotes(draws[..FALLBACK_NOTE_COUNT])
  }

  /** A song the player picked at `difficulty`: with its chart fetched the session
      plays that difficulty's part of the chart, and without a non-empty chart file or with a
      failed fetch the 100 fallback notes, whatever the difficulty. */
  lemma PickedDifficulty(song: PlayerState.Item, difficulty: ChartParser.Difficulty,
                         fetched: Result<string, string>, draws: seq<NoteDraw>)
    requires |draws| >= FALLBACK_NOTE_COUNT && forall k :: 0 <= k < |draws| ==> DrawOk(draws[k])
    ensures var s := SessionNotes(SelectedFiles(Some(PlayerState.WithDifficulty(song, difficulty))), fetched, draws);
      && (PlayerState.HasChart(song.files) && fetched.Success? ==>
            s == ChartLoader.RuntimeNotes(ChartParser.ParseChartText(fetched.value, difficulty).notes))
      && (!PlayerState.HasChart(song.files) || fetched.Failure? ==> s == RandomNotes(draws[..FALLBACK_NOTE_COUNT]))
  {
  }

  /** A started session's notes are all unplayed and off-screen; without a chart
      there are exactly 100 of them. */
  lemma SessionNotesUnplayed(files: PlayerState.SongFiles, fetched: Result<string, string>, draws: seq<NoteDraw>)
    requires |draws| >= FALLBACK_NOTE_COUNT && forall k :: 0 <= k < |draws| ==> DrawOk(draws[k])
    ensures var s := SessionNotes(files, fetched, draws);
      && (forall k :: 0 <= k < |s| ==> s[k].y == INITIAL_Y && !s[k].hit && !s[k].missed)
      && (!PlayerState.HasChart(files) || fetched.Failure? ==> |s| == FALLBACK_NOTE_COUNT)
  {
    if !PlayerState.HasChart(files) || fetched.Failure? {
      RandomNotesShape(draws[..FALLBACK_NOTE_COUNT]);
    }
  }

  /** The session data with the key states and the hit-detection state blanked out:
      what a fret check leaves alone. */
  function Unkeyed(d: SessionData): SessionData {
    d.(prevKeyStates := ALL_RELEASED, play := Play(0.0, 0, 0, 0, "", ZERO_STATS, [], map[], []))
  }

  /** Two values agree outside the key states and the hit-detection state exactly
      when one is the other with those two replaced. */
  lemma UnkeyedSame(a: SessionData, b: SessionData)
    ensures Unkeyed(a) == Unkeyed(b) <==> b == a.(prevKeyStates := b.prevKeyStates, play := b.play)
  {
  }

  /** failGame's effect. */
  function Failed(d: SessionData): SessionData {
    d.(audioPlaying := false, play := d.play.(held := map[]), gameFailed := true)
  }

  /** startGame's effect on the session data: the resets, a fresh end-of-song flag and
      the started flag. */
  function Restarted(d: SessionData): (r: SessionData)
    ensures r.visibleNotes == [] && r.play == ResetPlay(d.play) && r.missCount == 0 && !r.showMissWarning
    ensures r.songTime == 0.0 && r.songProgress == 0.0
    ensures r.gameStarted && !r.gameOver && !r.gameFailed && !r.rewardsGiven
    ensures !r.songEnded && !r.audioPlaying && r.completions == [] && r.endsScheduled == 0
    ensures r.horizontalLineOffset == d.horizontalLineOffset && r.prevKeyStates == d.prevKeyStates
  {
    d.(visibleNotes := [], play := ResetPlay(d.play), missCount := 0, showMissWarning := false,
       songTime := 0.0, songProgress := 0.0, gameStarted := true, gameOver := false, gameFailed := false,
       rewardsGiven := false, songEnded := false, audioPlaying := false, completions := [], endsScheduled := 0)
  }

  /** A step's miss accounting: the missed counter of the accuracy stats grows by the
      number of notes the step marked missed, the miss count grows by one exactly
      when it marked any, and the note list keeps its length. */
  lemma StepCountsMisses(d: SessionData, s: seq<Note>, dims: Dimensions)
    ensures var r := StepResult(d, s, dims);
      var flipped := |Flipped(Moved(s, d.songTime, dims.fretY, FIXED_DELTA), r.1)|;
      && |r.1| == |s|
      && r.0.play.stats.missed == d.play.stats.missed + flipped
      && r.0.missCount == (if flipped > 0 then d.missCount + 1 else d.missCount)
  {
    var t := d.songTime;
    var m := Moved(s, t, dims.fretY, FIXED_DELTA);
    var vis := VisibleUpTo(s, t, |s|);
    VisibleUpToIff(s, t, |s|);
    MissedStatCountsFlips(m, vis, t, dims.fretY);
    assert StepDue(s, t, dims.fretY) == CountDue(m, vis, t, dims.fretY);
    ReactedKeepsCounts(Checked(d, s, dims), ReactionFor(StepMisses(d, s, dims), StepDue(s, t, dims.fretY) > 0));
  }

  lemma ReactedKeepsCounts(d: SessionData, reaction: MissReaction)
    ensures Reacted(d, reaction).missCount == d.missCount
    ensures Reacted(d, reaction).play.stats == d.play.stats
  {
  }

  /** A step fails the game only at the tenth miss or later, shows the warning only
      from the seventh on, and does either only when it marked a note missed. A step
      never ends the game, starts it, or reports to onComplete. */
  lemma StepFailsOnlyAtThreshold(d: SessionData, s: seq<Note>, dims: Dimensions)
    ensures var r := StepResult(d, s, dims).0;
      && (r.gameFailed && !d.gameFailed ==> r.missCount >= MAX_MISSES && r.missCount == d.missCount + 1)
      && (r.showMissWarning && !d.showMissWarning ==> r.missCount >= WARNING_MISSES && r.missCount == d.missCount + 1)
      && r.gameOver == d.gameOver && r.gameStarted == d.gameStarted
      && r.completions == d.completions && r.songTime == d.songTime
  {
    var c := Checked(d, s, dims);
    var reaction := ReactionFor(StepMisses(d, s, dims), StepDue(s, d.songTime, dims.fretY) > 0);
    ReactionThresholds(StepMisses(d, s, dims), StepDue(s, d.songTime, dims.fretY) > 0);
    assert c.missCount == StepMisses(d, s, dims);
  }

  /** The reaction leaves the visible list and the end-of-game bookkeeping alone. */
  lemma ReactedKeeps(d: SessionData, reaction: MissReaction)
    ensures var r := Reacted(d, reaction);
      && r.visibleNotes == d.visibleNotes && r.completions == d.completions && r.rewardsGiven == d.rewardsGiven
      && r.songEnded == d.songEnded && r.endsScheduled == d.endsScheduled
  {
  }

  /** The time, in ms, that `n` fixed steps consume. */
  function Consumed(n: nat): real {
    if n == 0 then 0.0 else Consumed(n - 1) + FIXED_TIME_STEP
  }

  /** Taking a step's time off an accumulator that holds at least one step lowers
      its whole part. */
  lemma FloorDrops(x: real)
    requires x >= FIXED_TIME_STEP
    ensures 0 <= (x - FIXED_TIME_STEP).Floor < x.Floor
  {
  }

  /** The frame loop's own variables, kept by its closure from one frame to the
      next: the last frame's timestamp and the time not yet stepped, in ms. The loop
      starts with `Clock(performance.now(), 0)`. */
  datatype Clock = Clock(lastTime: real, accumulator: real)

  /** `n` fixed steps in a row. */
  function RunSteps(n: nat, d: SessionData, s: seq<Note>, dims: Dimensions): (SessionData, seq<Note>) {
    if n == 0 then (d, s)
    else
      var r := RunSteps(n - 1, d, s, dims);
      StepResult(r.0, r.1, dims)
  }

  lemma RunStepsNext(n: nat, d: SessionData, s: seq<Note>, dims: Dimensions, r: (SessionData, seq<Note>))
    requires r == RunSteps(n, d, s, dims)
    ensures RunSteps(n + 1, d, s, dims) == StepResult(r.0, r.1, dims)
  {
  }

  /** The session. The component's React state and refs are held together in `data`
      (a SessionData); `notes` is `notesRef.current`. */
  class GameSession {
    var notes: array<Note>
    var data: SessionData
    const dims: Dimensions
    const isMobile: bool

    /** The session's invariant: the visible list holds strictly increasing positions
        into the note list; onComplete has been called at most once since the start,
        and only with `rewardsGiven` set; and an endGame timer has been scheduled
        exactly when the song has been flagged as ended, so at most once. */
    predicate Valid()
      reads this
    {
      && Positions(data.visibleNotes, notes.Length)
      && |data.completions| <= 1
      && (|data.completions| == 1 ==> data.rewardsGiven)
      && data.endsScheduled == (if data.songEnded then 1 else 0)
    }

    /** The game loop runs only while started and neither over nor failed. */
    predicate Playing()
      reads this
    {
      data.gameStarted && !data.gameOver && !data.gameFailed
    }

    /** The component as mounted, after its mount effect: `gameOver` starts as the
        `gameCompleted` prop, and a completed game with a positive `finalScore` shows
        that score (the effect also sets `gameOver`, which is already set then). */
    constructor(dims: Dimensions, isMobile: bool, gameCompleted: bool, finalScore: real)
      ensures Valid() && notes.Length == 0
      ensures this.dims == dims && this.isMobile == isMobile
      ensures data == SessionData([], Play(if gameCompleted && finalScore > 0.0 then finalScore else 0.0,
                                           0, 0, 0, "", ZERO_STATS, [], map[], []), 0, false,
                                  0.0, 0.0, false, gameCompleted, false, false, false, false, 0.0,
                                  ALL_RELEASED, [], 0)
    {
      this.dims := dims;
      this.isMobile := isMobile;
      notes := new Note[0];
      var mounted := SessionData([], Play(0.0, 0, 0, 0, "", ZERO_STATS, [], map[], []), 0, false,
                                 0.0, 0.0, false, gameCompleted, false, false, false, false, 0.0,
                                 ALL_RELEASED, [], 0);
      if gameCompleted && finalScore > 0.0 {
        mounted := mounted.(play := mounted.play.(score := finalScore), gameOver := true);
      }
      data := mounted;
    }

    /** failGame: stop the audio, drop the held notes, flag the failure. */
    method FailGame()
      requires Valid()
      modifies this
      ensures Valid() && notes == old(notes)
      ensures data == Failed(old(data))
    {
      data := data.(audioPlaying := false, play := data.play.(held := map[]), gameFailed := true);
    }

    /** endGame: nothing when the game is already over; otherwise stop the audio, drop
        the held notes, flag the game over, and report the score to onComplete unless
        the rewards were already given. */
    method EndGame()
      requires Valid()
      modifies this
      ensures Valid() && notes == old(notes)
      ensures old(data.gameOver) ==> data == old(data)
      ensures !old(data.gameOver) ==>
        data == old(data).(audioPlaying := false, play := old(data.play).(held := map[]), gameOver := true,
                           rewardsGiven := true,
                           completions := if old(data.rewardsGiven) then old(data.completions)
                                          else old(data.completions) + [old(data.play).score])
    {
      if data.gameOver {
        return;
      }
      data := data.(audioPlaying := false, play := data.play.(held := map[]), gameOver := true);
      if !data.rewardsGiven {
        data := data.(completions := data.completions + [data.play.score], rewardsGiven := true);
      }
    }

    /** One fixed step (StepResult). */
    method Step()
      requires Valid()
      modifies this, notes
      ensures Valid() && notes == old(notes)
      ensures (data, notes[..]) == StepResult(old(data), old(notes[..]), dims)
    {
      ghost var d0, s := data, notes[..];
      ghost var t := data.songTime;
      var vis, offset := UpdateVisibleNotes(FIXED_DELTA, notes, data.songTime, dims, data.horizontalLineOffset);
      VisibleUpToIff(s, t, |s|);
      ghost var moved := notes[..];
      var misses, stats, reaction := CheckMissedNotes(notes, vis, data.songTime, dims.fretY, data.missCount, data.play.stats);
      var effects := AgeEffects(data.play.hitEffects);
      var checked := data.(visibleNotes := vis, horizontalLineOffset := offset, missCount := misses,
                           play := data.play.(stats := stats, hitEffects := effects));
      assert misses == StepMisses(d0, s, dims);
      assert checked == Checked(d0, s, dims);
      assert notes[..] == StepNotes(s, t, dims);
      ReactedKeeps(checked, reaction);
      data := Reacted(checked, reaction);
    }

    /** One animation frame (`render`), given the loop's clock from the frame before:
        add the capped elapsed time to the accumulator, take the song time from the
        audio clock when it runs (`audioTime`, in ms), and run fixed steps while a
        whole step is accumulated. Afterwards less than a step is left, and nothing
        negative when it started non-negative; `steps` is the number of steps run.
        Outside play the loop is not running and nothing happens. */
    method Frame(timestamp: real, audioTime: Option<real>, clock: Clock) returns (steps: nat, clock': Clock)
      requires Valid()
      modifies this, notes
      ensures Valid() && notes == old(notes)
      ensures !old(Playing()) ==> steps == 0 && data == old(data) && notes[..] == old(notes[..]) && clock' == clock
      ensures old(Playing()) ==>
        var total := clock.accumulator + FrameDelta(timestamp, clock.lastTime) * 1000.0;
        && clock'.lastTime == timestamp
        && (data, notes[..]) == RunSteps(steps, old(data).(songTime := audioTime.GetOr(old(data.songTime))),
                                         old(notes[..]), dims)
        && clock'.accumulator == total - Consumed(steps)
        && clock'.accumulator < FIXED_TIME_STEP
        && (total >= 0.0 ==> clock'.accumulator >= 0.0)
    {
      steps, clock' := 0, clock;
      if !Playing() {
        return;
      }
      var deltaTime := FrameDelta(timestamp, clock.lastTime);
      var accumulator := clock.accumulator + deltaTime * 1000.0;
      if audioTime.Some? {
        data := data.(songTime := audioTime.value);
      }
      steps, accumulator := RunFixedSteps(accumulator);
      clock' := Clock(timestamp, accumulator);
    }

    /** The fixed-step loop of `render`: steps run while a whole step is accumulated,
        each taking a step's time off the accumulator. */
    method RunFixedSteps(accumulator: real) returns (steps: nat, left: real)
      requires Valid()
      modifies this, notes
      ensures Valid() && notes == old(notes)
      ensures (data, notes[..]) == RunSteps(steps, old(data), old(notes[..]), dims)
      ensures left == accumulator - Consumed(steps) && left < FIXED_TIME_STEP
      ensures accumulator >= 0.0 ==> left >= 0.0
    {
      steps, left := 0, accumulator;
      ghost var d0, s0 := data, notes[..];
      while left >= FIXED_TIME_STEP
        invariant Valid() && notes == old(notes)
        invariant (data, notes[..]) == RunSteps(steps, d0, s0, dims)
        invariant left == accumulator - Consumed(steps)
        invariant accumulator >= 0.0 ==> left >= 0.0
        decreases left.Floor
      {
        ghost var before := (data, notes[..]);
        Step();
        RunStepsNext(steps, d0, s0, dims, before);
        FloorDrops(left);
        left := left - FIXED_TIME_STEP;
        steps := steps + 1;
      }
    }

    /** checkFret: a fret counts only when its state differs from the last one seen,
        and is judged (handleFretPress) only when it went down; a release just records
        the new state. Only the key states, the hit-detection state and the notes
        change. */
    method CheckFret(color: Colour, isPressed: bool, now: real) returns (judged: bool, hit: bool)
      requires Valid() && Playing()
      modifies this, notes
      ensures Valid() && Playing() && notes == old(notes)
      ensures judged <==> isPressed && !old(data.prevKeyStates).Get(color)
      ensures !judged ==> notes[..] == old(notes[..]) && data.play == old(data.play) && !hit
      ensures judged && !hit ==> data.play == ApplyMiss(old(data.play))
      ensures Unkeyed(data) == Unkeyed(old(data))
      ensures data.prevKeyStates == old(data.prevKeyStates).With(color, isPressed)
    {
      judged, hit := false, false;
      if isPressed != data.prevKeyStates.Get(color) {
        var play := data.play;
        if isPressed {
          judged := true;
          hit, play := HandleFretPress(notes, data.visibleNotes, color, data.songTime, play, dims, isMobile, now);
        }
        data := data.(prevKeyStates := data.prevKeyStates.With(color, isPressed), play := play);
      }
    }

    /** The key effect: outside play it returns at once; otherwise checkFret runs on the five
        frets in fret order, written here as a loop over FRETS. `judged` lists the frets judged, which are exactly those
        that went down since the last check, in fret order. Afterwards the recorded key
        states are the pressed ones; besides them only the hit-detection state and the
        notes change, and neither does when no fret was judged. */
    method CheckFrets(pressed: Frets, now: real) returns (judged: seq<Colour>)
      requires Valid()
      modifies this, notes
      ensures Valid() && notes == old(notes)
      ensures old(Playing()) ==>
        && Playing() && judged == Rising(old(data.prevKeyStates), pressed)
        && data == old(data).(prevKeyStates := pressed, play := data.play)
        && (judged == [] ==> data.play == old(data.play) && notes[..] == old(notes[..]))
      ensures !old(Playing()) ==> judged == [] && data == old(data) && notes[..] == old(notes[..])
    {
      judged := [];
      if !Playing() {
        return;
      }
      ghost var k := data.prevKeyStates;
      for i := 0 to |FRETS|
        invariant Valid() && Playing() && notes == old(notes)
        invariant data.prevKeyStates == RecordedUpTo(k, pressed, i)
        invariant Unkeyed(data) == Unkeyed(old(data))
        invariant judged == RisingUpTo(k, pressed, i)
        invariant judged == [] ==> data.play == old(data.play) && notes[..] == old(notes[..])
      {
        var c := FRETS[i];
        RecordedUpToGet(k, pressed, i, c);
        var j, _ := CheckFret(c, pressed.Get(c), now);
        if j {
          judged := judged + [c];
        }
      }
      AllRecorded(k, pressed);
      UnkeyedSame(old(data), data);
    }

    /** handleFretClick, the on-screen fret button: the press is judged at once, with
        no check of the game's flags or of the fret's earlier state. Only the
        hit-detection state and the notes change; what they become is what
        handleFretPress makes of the visible notes at the current song time. */
    method ClickFret(color: Colour, now: real) returns (hit: bool)
      requires Valid()
      modifies this, notes
      ensures Valid() && notes == old(notes)
      ensures data == old(data).(play := data.play)
      ensures !hit ==> notes[..] == old(notes[..]) && data.play == ApplyMiss(old(data.play))
      ensures hit ==> exists h: nat ::
        && Chosen(old(notes[..]), data.visibleNotes, color, dims.fretY, data.songTime, h)
        && notes[..] == old(notes[..])[data.visibleNotes[h] := old(notes[data.visibleNotes[h]]).(hit := true)]
        && data.play == ApplyHit(old(data.play), old(notes[data.visibleNotes[h]]), data.visibleNotes[h], color,
                                 dims, isMobile, now)
    {
      var play;
      hit, play := HandleFretPress(notes, data.visibleNotes, color, data.songTime, data.play, dims, isMobile, now);
      data := data.(play := play);
    }

    /** startGame for the selected song `selected`, once its loads are done. Everything
        is reset. A song with a non-empty chart file name has `/charts/<chartFile>` loaded by
        ChartLoader.LoadChart at the song's difficulty, medium when it has none;
        `fetched` is that request's outcome. With a chart the notes are the chart's;
        without one, or when the load gives null, they are the 100 fallback
        notes. The game then starts with a fresh end-of-song flag. */
    method StartGame(selected: Option<PlayerState.Item>, fetched: Result<string, string>, draws: seq<NoteDraw>)
      requires |draws| >= FALLBACK_NOTE_COUNT && forall k :: 0 <= k < |draws| ==> DrawOk(draws[k])
      modifies this
      ensures Valid() && fresh(notes)
      ensures notes[..] == SessionNotes(SelectedFiles(selected), fetched, draws)
      ensures data == Restarted(old(data))
    {
      data := Restarted(data).(gameStarted := false);
      var files := SelectedFiles(selected);
      var loaded: Option<ChartLoader.Loaded<()>> := None;
      if PlayerState.HasChart(files) {
        loaded := ChartLoader.LoadChart(fetched, None, files.difficulty.GetOr(ChartParser.Medium));
      }
      var chartNotes: seq<Note>;
      if loaded.Some? {
        chartNotes := loaded.value.chartNotes;
      } else {
        chartNotes := GenerateRandomNotes(FALLBACK_NOTE_COUNT, draws);
      }
      assert chartNotes == SessionNotes(files, fetched, draws);
      notes := NewNoteList(chartNotes);
      data := data.(gameStarted := true);
    }

    /** The delayed audio start: the track plays. */
    method StartPlayback()
      requires Valid()
      modifies this
      ensures Valid() && notes == old(notes)
      ensures data == old(data).(audioPlaying := true)
    {
      data := data.(audioPlaying := true);
    }

    /** `source.onended`: the first end of the track schedules endGame. */
    method OnSongEnded() returns (endScheduled: bool)
      requires Valid()
      modifies this
      ensures Valid() && notes == old(notes)
      ensures endScheduled <==> !old(data.songEnded)
      ensures data == old(data).(songEnded := true, endsScheduled := 1)
    {
      endScheduled := !data.songEnded;
      data := data.(songEnded := true, endsScheduled := 1);
    }

    /** One tick of the progress interval, given the audio clock's `currentTime` in
        seconds since the start and the track's length. While the audio runs and the
        song has neither ended nor stopped, it updates the song time and the progress;
        within half a second of the end it stops ticking and schedules endGame once.
        Otherwise it stops ticking. */
    method ProgressTick(audioAvailable: bool, currentTime: real, totalDuration: real)
      returns (keepTicking: bool, endScheduled: bool)
      requires Valid()
      modifies this
      ensures Valid() && notes == old(notes)
      ensures var live := audioAvailable && !old(data.songEnded) && !old(data.gameOver) && !old(data.gameFailed);
        var nearEnd := currentTime >= totalDuration - END_MARGIN;
        && (keepTicking <==> live && !nearEnd)
        && (endScheduled <==> live && nearEnd)
        && (!live ==> data == old(data))
        && (live ==> data == old(data).(songTime := currentTime * 1000.0,
                                        songProgress := Progress(currentTime, totalDuration),
                                        songEnded := nearEnd, endsScheduled := if nearEnd then 1 else 0))
    {
      keepTicking, endScheduled := false, false;
      if audioAvailable && !data.songEnded && !data.gameOver && !data.gameFailed {
        data := data.(songTime := currentTime * 1000.0, songProgress := Progress(currentTime, totalDuration));
        if currentTime >= totalDuration - END_MARGIN {
          data := data.(songEnded := true, endsScheduled := 1);
          endScheduled := true;
        } else {
          keepTicking := true;
        }
      }
    }
  }
}
