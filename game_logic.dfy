/** components/guitar-hero/game-logic.ts: one simulation step's bookkeeping over the
    master note list. The notes are values in one array standing for `notesRef.current`;
    the visible list holds positions in that array, since in the source the visible
    list and the master list share the same note objects. */
module GameLogic {
  import opened Types
  import opened NoteRenderer
  import opened JsMath

  /** A note this many milliseconds late counts as missed. */
  const TIME_THRESHOLD: real := 200.0
  /** Pending notes this many milliseconds ahead are already on the highway. */
  const TIME_WINDOW: real := 5000.0
  /** Hit taps stay visible this long after their time; missed notes the second. */
  const HIT_LINGER: real := 200.0
  const MISS_LINGER: real := 500.0
  /** Sustains count as held notes above this duration, and linger this long after. */
  const SUSTAIN_MIN: real := 200.0
  const SUSTAIN_LINGER: real := 200.0
  /** MAX_MISSES - 3: from this many misses on the warning shows. */
  const WARNING_MISSES: nat := MAX_MISSES - 3

  predicate Pending(n: Note) {
    !n.hit && !n.missed
  }

  /** The test at game-logic.ts:33. */
  predicate MissDue(n: Note, songTime: real, fretY: real) {
    (n.y > fretY + HIT_THRESHOLD || songTime > n.timestamp + TIME_THRESHOLD) && Pending(n)
  }

  /** Positions into the master list, strictly increasing: what updateVisibleNotes
      produces, so that no note is visited twice. */
  predicate Positions(vis: seq<nat>, n: nat) {
    && (forall i :: 0 <= i < |vis| ==> vis[i] < n)
    && (forall i, j :: 0 <= i < j < |vis| ==> vis[i] < vis[j])
  }

  // ---------------------------------------------------------------------------
  // checkMissedNotes

  /** The master list once the due visible notes are marked missed. */
  function MarkMissed(s: seq<Note>, vis: seq<nat>, songTime: real, fretY: real): (r: seq<Note>)
    ensures |r| == |s|
  {
    seq(|s|, k requires 0 <= k < |s| =>
      if k in vis && MissDue(s[k], songTime, fretY) then s[k].(missed := true) else s[k])
  }

  /** How many visible notes are due to be marked missed. */
  function CountDue(s: seq<Note>, vis: seq<nat>, songTime: real, fretY: real): nat
    requires Positions(vis, |s|)
  {
    if vis == [] then 0
    else
      CountDue(s, vis[..|vis| - 1], songTime, fretY)
      + (if MissDue(s[vis[|vis| - 1]], songTime, fretY) then 1 else 0)
  }

  lemma CountDueNext(s: seq<Note>, vis: seq<nat>, i: nat, songTime: real, fretY: real)
    requires Positions(vis, |s|) && i < |vis|
    ensures Positions(vis[..i], |s|) && Positions(vis[..i + 1], |s|)
    ensures CountDue(s, vis[..i + 1], songTime, fretY)
         == CountDue(s, vis[..i], songTime, fretY) + (if MissDue(s[vis[i]], songTime, fretY) then 1 else 0)
  {
    assert vis[..i + 1][..i] == vis[..i];
  }

  /** One more visible note considered; it was not touched before. */
  lemma MarkMissedNext(s: seq<Note>, vis: seq<nat>, i: nat, songTime: real, fretY: real)
    requires Positions(vis, |s|) && i < |vis|
    ensures MarkMissed(s, vis[..i], songTime, fretY)[vis[i]] == s[vis[i]]
    ensures MarkMissed(s, vis[..i + 1], songTime, fretY)
         == MarkMissed(s, vis[..i], songTime, fretY)[vis[i] :=
              if MissDue(s[vis[i]], songTime, fretY) then s[vis[i]].(missed := true) else s[vis[i]]]
  {
    assert vis[i] !in vis[..i];
    assert vis[..i + 1] == vis[..i] + [vis[i]];
  }

  /** What the frame callback after a miss does: combo to 0 and "MISS!" always, the
      failure callback and the warning from the thresholds on. */
  datatype MissReaction = NoReaction | Reaction(callFail: bool, showWarning: bool)

  function ReactionFor(missCount: nat, anyMissed: bool): MissReaction {
    if !anyMissed then NoReaction
    else Reaction(missCount >= MAX_MISSES, missCount >= WARNING_MISSES)
  }

  /** checkMissedNotes: marks the due visible notes missed in the master list, counts
      each in the accuracy stats, and counts one miss for the whole call. The frame
      callback, deferred in the source, is returned as `reaction`. */
  method CheckMissedNotes(notes: array<Note>, visibleNotes: seq<nat>, songTime: real, fretY: real,
                          missCount: nat, accuracyStats: AccuracyStats)
    returns (missCount': nat, accuracyStats': AccuracyStats, reaction: MissReaction)
    requires Positions(visibleNotes, notes.Length)
    modifies notes
    ensures notes[..] == MarkMissed(old(notes[..]), visibleNotes, songTime, fretY)
    ensures var due := CountDue(old(notes[..]), visibleNotes, songTime, fretY);
      && accuracyStats' == accuracyStats.(missed := accuracyStats.missed + due)
      && missCount' == (if due > 0 then missCount + 1 else missCount)
      && reaction == ReactionFor(missCount', due > 0)
  {
    ghost var s := notes[..];
    var missedNotes := false;
    accuracyStats' := accuracyStats;
    var missThreshold := fretY + HIT_THRESHOLD;
    var i := 0;
    while i < |visibleNotes|
      invariant 0 <= i <= |visibleNotes|
      invariant Positions(visibleNotes[..i], |s|)
      invariant notes[..] == MarkMissed(s, visibleNotes[..i], songTime, fretY)
      invariant accuracyStats' == accuracyStats.(missed := accuracyStats.missed + CountDue(s, visibleNotes[..i], songTime, fretY))
      invariant missedNotes <==> CountDue(s, visibleNotes[..i], songTime, fretY) > 0
    {
      CountDueNext(s, visibleNotes, i, songTime, fretY);
      MarkMissedNext(s, visibleNotes, i, songTime, fretY);
      var index := visibleNotes[i];
      var note := notes[index];
      if (note.y > missThreshold || songTime > note.timestamp + TIME_THRESHOLD) && !note.hit && !note.missed {
        notes[index] := note.(missed := true);
        missedNotes := true;
        accuracyStats' := accuracyStats'.(missed := accuracyStats'.missed + 1);
      }
      i := i + 1;
    }
    assert visibleNotes[..i] == visibleNotes;
    missCount' := missCount;
    reaction := NoReaction;
    if missedNotes {
      missCount' := missCount' + 1;
      reaction := Reaction(missCount' >= MAX_MISSES, missCount' >= WARNING_MISSES);
    }
  }

  /** Marking touches only the `missed` flag, of exactly the due visible notes: hit and
      already-missed notes keep their state. */
  lemma MarkMissedChanges(s: seq<Note>, vis: seq<nat>, songTime: real, fretY: real, k: nat)
    requires k < |s|
    ensures var r := MarkMissed(s, vis, songTime, fretY);
      && r[k] == s[k].(missed := r[k].missed)
      && (r[k].missed && !s[k].missed <==> k in vis && MissDue(s[k], songTime, fretY))
      && (!Pending(s[k]) ==> r[k] == s[k])
  {
  }

  /** The notes whose `missed` flag a call flips. */
  function Flipped(s: seq<Note>, r: seq<Note>): set<nat>
    requires |r| == |s|
  {
    set k: nat | k < |s| && r[k].missed && !s[k].missed
  }

  /** The due visible notes, as a set, are the flipped ones. */
  lemma FlippedAreDue(s: seq<Note>, vis: seq<nat>, songTime: real, fretY: real)
    requires Positions(vis, |s|)
    ensures Flipped(s, MarkMissed(s, vis, songTime, fretY)) == DueSet(s, vis, songTime, fretY)
  {
  }

  /** The due visible notes, as a set. */
  function DueSet(s: seq<Note>, vis: seq<nat>, songTime: real, fretY: real): set<nat> {
    set k: nat | k < |s| && k in vis && MissDue(s[k], songTime, fretY)
  }

  /** Dropping the last visible position drops at most that position from the set. */
  lemma DueSetStep(s: seq<Note>, vis: seq<nat>, songTime: real, fretY: real)
    requires Positions(vis, |s|) && vis != []
    ensures var p, last := vis[..|vis| - 1], vis[|vis| - 1];
      && Positions(p, |s|)
      && last !in DueSet(s, p, songTime, fretY)
      && DueSet(s, vis, songTime, fretY)
         == DueSet(s, p, songTime, fretY) + (if MissDue(s[last], songTime, fretY) then {last} else {})
  {
    var p, last := vis[..|vis| - 1], vis[|vis| - 1];
    assert last !in p;
    assert vis == p + [last];
  }

  /** The due visible notes counted one by one are as many as the set of them. */
  lemma {:induction false} CountDueIsCardinality(s: seq<Note>, vis: seq<nat>, songTime: real, fretY: real)
    requires Positions(vis, |s|)
    ensures CountDue(s, vis, songTime, fretY) == |DueSet(s, vis, songTime, fretY)|
  {
    if vis == [] {
      assert DueSet(s, vis, songTime, fretY) == {};
    } else {
      DueSetStep(s, vis, songTime, fretY);
      CountDueIsCardinality(s, vis[..|vis| - 1], songTime, fretY);
    }
  }

  /** accuracyStats.missed grows by exactly the number of notes newly marked missed. */
  lemma MissedStatCountsFlips(s: seq<Note>, vis: seq<nat>, songTime: real, fretY: real)
    requires Positions(vis, |s|)
    ensures CountDue(s, vis, songTime, fretY) == |Flipped(s, MarkMissed(s, vis, songTime, fretY))|
  {
    FlippedAreDue(s, vis, songTime, fretY);
    CountDueIsCardinality(s, vis, songTime, fretY);
  }

  /** Failing implies warning, and neither happens without a new miss. */
  lemma ReactionThresholds(missCount: nat, anyMissed: bool)
    ensures ReactionFor(missCount, anyMissed).Reaction? <==> anyMissed
    ensures ReactionFor(missCount, anyMissed).Reaction? ==>
      && (ReactionFor(missCount, anyMissed).callFail <==> missCount >= 10)
      && (ReactionFor(missCount, anyMissed).showWarning <==> missCount >= 7)
      && (ReactionFor(missCount, anyMissed).callFail ==> ReactionFor(missCount, anyMissed).showWarning)
  {
  }

  // ---------------------------------------------------------------------------
  // updateVisibleNotes

  /** `isRelevant` at game-logic.ts:108-120; `note.duration` is tested for truthiness. */
  predicate Relevant(n: Note, t: real) {
    || (!n.hit && !n.missed && n.timestamp < t + TIME_WINDOW)
    || (n.hit && !n.missed && n.duration == 0.0 && n.timestamp > t - HIT_LINGER)
    || (n.missed && n.timestamp > t - MISS_LINGER)
    || (n.hit && !n.missed && n.duration != 0.0 && n.duration > SUSTAIN_MIN
        && t < n.timestamp + n.duration + SUSTAIN_LINGER)
  }

  /** `Math.min(1, 12 * deltaTime)`. */
  function Smoothing(deltaTime: real): real {
    if 12.0 * deltaTime < 1.0 then 12.0 * deltaTime else 1.0
  }

  /** The new `y` of a relevant note. */
  function NextY(n: Note, t: real, fretY: real, deltaTime: real): real {
    var targetY := NotePosition(n.timestamp, t, fretY, NOTE_SPEED);
    if n.y != INITIAL_Y then
      var f := Smoothing(deltaTime);
      if n.missed && targetY >= fretY then n.y + NOTE_SPEED * deltaTime * 0.5
      else if n.hit && n.duration == 0.0 && targetY >= fretY then n.y + NOTE_SPEED * deltaTime * 2.0
      else n.y * (1.0 - f) + targetY * f
    else targetY
  }

  /** The master list after placing every relevant note. */
  function Moved(s: seq<Note>, t: real, fretY: real, deltaTime: real): (r: seq<Note>)
    ensures |r| == |s|
  {
    seq(|s|, k requires 0 <= k < |s| =>
      if Relevant(s[k], t) then s[k].(y := NextY(s[k], t, fretY, deltaTime)) else s[k])
  }

  /** The positions, among the first `n`, of the relevant notes, in master-list order. */
  function VisibleUpTo(s: seq<Note>, t: real, n: nat): seq<nat>
    requires n <= |s|
  {
    if n == 0 then [] else VisibleUpTo(s, t, n - 1) + (if Relevant(s[n - 1], t) then [n - 1] else [])
  }

  /** The line spacing: a fifth of the highway below the perspective start. */
  function LineDistance(gameHeight: real): real {
    (gameHeight - gameHeight * PERSPECTIVE_START_Y_RATIO) / 5.0
  }

  function NextLineOffset(offset: real, deltaTime: real, gameHeight: real): real {
    var lineDistance := LineDistance(gameHeight);
    var x := offset + NOTE_SPEED * deltaTime;
    if x > lineDistance then Remainder(x, lineDistance) else x
  }

  /** updateVisibleNotes: places each relevant note and collects the positions of the
      relevant notes in order; then scrolls the highway lines. */
  method UpdateVisibleNotes(deltaTime: real, notes: array<Note>, songTime: real,
                            gameDimensions: Dimensions, horizontalLineOffset: real)
    returns (visibleNotes: seq<nat>, horizontalLineOffset': real)
    modifies notes
    ensures notes[..] == Moved(old(notes[..]), songTime, gameDimensions.fretY, deltaTime)
    ensures visibleNotes == VisibleUpTo(old(notes[..]), songTime, notes.Length)
    ensures horizontalLineOffset' == NextLineOffset(horizontalLineOffset, deltaTime, gameDimensions.height)
  {
    ghost var s := notes[..];
    var fretY := gameDimensions.fretY;
    visibleNotes := [];
    var i := 0;
    while i < notes.Length
      invariant 0 <= i <= notes.Length
      invariant visibleNotes == VisibleUpTo(s, songTime, i)
      invariant forall k :: 0 <= k < i ==>
        notes[k] == (if Relevant(s[k], songTime) then s[k].(y := NextY(s[k], songTime, fretY, deltaTime)) else s[k])
      invariant forall k :: i <= k < notes.Length ==> notes[k] == s[k]
    {
      var note := notes[i];
      if Relevant(note, songTime) {
        var targetY := NotePosition(note.timestamp, songTime, fretY, NOTE_SPEED);
        var y := note.y;
        if y != INITIAL_Y {
          var interpolationFactor := Smoothing(deltaTime);
          if note.missed && targetY >= fretY {
            y := y + NOTE_SPEED * deltaTime * 0.5;
          } else if note.hit && note.duration == 0.0 && targetY >= fretY {
            y := y + NOTE_SPEED * deltaTime * 2.0;
          } else {
            y := y * (1.0 - interpolationFactor) + targetY * interpolationFactor;
          }
        } else {
          y := targetY;
        }
        assert y == NextY(note, songTime, fretY, deltaTime);
        notes[i] := note.(y := y);
        visibleNotes := visibleNotes + [i];
      }
      i := i + 1;
    }
    assert notes[..] == Moved(s, songTime, fretY, deltaTime);
    var lineDistance := LineDistance(gameDimensions.height);
    horizontalLineOffset' := horizontalLineOffset + NOTE_SPEED * deltaTime;
    if horizontalLineOffset' > lineDistance {
      horizontalLineOffset' := Remainder(horizontalLineOffset', lineDistance);
    }
  }

  /** Exactly the relevant notes are visible, each once, in master-list order; so the
      visible list meets checkMissedNotes' precondition. */
  lemma {:induction false} VisibleUpToIff(s: seq<Note>, t: real, n: nat)
    requires n <= |s|
    ensures Positions(VisibleUpTo(s, t, n), n)
    ensures forall k: nat :: k in VisibleUpTo(s, t, n) <==> k < n && Relevant(s[k], t)
  {
    if n > 0 {
      VisibleUpToIff(s, t, n - 1);
      var p := VisibleUpTo(s, t, n - 1);
      var tail := if Relevant(s[n - 1], t) then [n - 1] else [];
      assert VisibleUpTo(s, t, n) == p + tail;
      assert forall k: nat :: k in p + tail <==> k in p || k in tail;
    }
  }

  /** Placement changes only `y`, and only of relevant notes. */
  lemma MovedOnlyY(s: seq<Note>, t: real, fretY: real, deltaTime: real, k: nat)
    requires k < |s|
    ensures var r := Moved(s, t, fretY, deltaTime);
      && r[k] == s[k].(y := r[k].y)
      && (!Relevant(s[k], t) ==> r[k] == s[k])
  {
  }

  /** Neither relevance nor the miss test's status part looks at `y`, so moving the
      notes leaves the visible list as it was. */
  lemma MovedKeepsVisible(s: seq<Note>, t: real, fretY: real, deltaTime: real, n: nat)
    requires n <= |s|
    ensures VisibleUpTo(Moved(s, t, fretY, deltaTime), t, n) == VisibleUpTo(s, t, n)
  {
    if n > 0 {
      MovedKeepsVisible(s, t, fretY, deltaTime, n - 1);
    }
  }

  /** A note seen for the first time is placed exactly where its timestamp puts it. */
  lemma FirstPlacement(n: Note, t: real, fretY: real, deltaTime: real)
    requires n.y == INITIAL_Y
    ensures NextY(n, t, fretY, deltaTime) == NotePosition(n.timestamp, t, fretY, NOTE_SPEED)
  {
  }

  /** Smoothing moves a placed note toward its target without overshooting it, and
      reaches it once a frame lasts a twelfth of a second. */
  lemma SmoothingApproachesTarget(n: Note, t: real, fretY: real, deltaTime: real)
    requires n.y != INITIAL_Y && deltaTime >= 0.0
    requires var targetY := NotePosition(n.timestamp, t, fretY, NOTE_SPEED);
      !(n.missed && targetY >= fretY) && !(n.hit && n.duration == 0.0 && targetY >= fretY)
    ensures var targetY := NotePosition(n.timestamp, t, fretY, NOTE_SPEED);
      var y := NextY(n, t, fretY, deltaTime);
      && (n.y <= targetY ==> n.y <= y <= targetY)
      && (targetY <= n.y ==> targetY <= y <= n.y)
      && (deltaTime >= 1.0 / 12.0 ==> y == targetY)
  {
    var targetY := NotePosition(n.timestamp, t, fretY, NOTE_SPEED);
    var f := Smoothing(deltaTime);
    var d := targetY - n.y;
    assert 0.0 <= f <= 1.0;
    assert n.y * (1.0 - f) + targetY * f == n.y + f * d;
    assert NextY(n, t, fretY, deltaTime) == n.y + f * d;
    ScaledBetween(f, d);
  }

  /** Past the fret line, missed notes leave at half speed and hit taps at double speed. */
  lemma ExitSpeeds(n: Note, t: real, fretY: real, deltaTime: real)
    requires n.y != INITIAL_Y && NotePosition(n.timestamp, t, fretY, NOTE_SPEED) >= fretY
    ensures n.missed ==> NextY(n, t, fretY, deltaTime) == n.y + 150.0 * deltaTime
    ensures !n.missed && n.hit && n.duration == 0.0 ==> NextY(n, t, fretY, deltaTime) == n.y + 600.0 * deltaTime
  {
  }

  /** The line offset stays within one line distance. */
  lemma LineOffsetInRange(offset: real, deltaTime: real, gameHeight: real)
    requires gameHeight > 0.0 && deltaTime >= 0.0
    requires 0.0 <= offset <= LineDistance(gameHeight)
    ensures 0.0 <= NextLineOffset(offset, deltaTime, gameHeight) <= LineDistance(gameHeight)
  {
    var x := offset + NOTE_SPEED * deltaTime;
    if x > LineDistance(gameHeight) {
      RemainderBounds(x, LineDistance(gameHeight));
    }
  }
}
