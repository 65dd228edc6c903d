/** components/guitar-hero/hooks/use-note-detection.ts: judging a fret press against
    the visible notes, and a fret release against the held note. The hook's state
    setters and refs are gathered in one `Play` value; the setters' deferral to the
    next animation frame is not modelled. */
module NoteDetection {
  import opened Wrappers
  import opened Types
  import opened Perspective
  import opened JsMath

  /** A press this many milliseconds away from a note's time cannot hit it. */
  const TIME_GATE: real := 300.0
  /** No effect is added while this many are pending. */
  const MAX_PENDING_EFFECTS: nat := 10
  /** Notes longer than this are held after the hit. */
  const HELD_MIN: real := 200.0
  /** A sustain counts when held for this share of its duration. */
  const SUSTAIN_SHARE: real := 0.9


  /** Every visible position names a note of the master list. */
  predicate InRange(vis: seq<nat>, n: nat) {
    forall i :: 0 <= i < |vis| ==> vis[i] < n
  }

  /** A held sustain: the note (by its master position) and when it was hit. */
  datatype HeldNote = HeldNote(noteId: nat, startTime: real)

  /** What the hook reads and writes: the session's score, combo, best combo, session
      emeralds and feedback text, and the refs of accuracy stats, hit effects and held
      notes, and the sustained-note list. */
  datatype Play = Play(score: real, combo: nat, maxCombo: nat, emeralds: nat, feedback: string,
                       stats: AccuracyStats, hitEffects: seq<HitEffect>,
                       held: map<Colour, HeldNote>, sustained: seq<nat>)

  // ---------------------------------------------------------------------------
  // The candidate search

  /** How far `n` is from the fret line. */
  function Distance(n: Note, fretY: real): real {
    Abs(n.y - fretY)
  }

  /** A note the press may hit. Whether the note was already missed is not looked at. */
  predicate Candidate(n: Note, color: Colour, fretY: real, songTime: real) {
    && n.color == color && !n.hit
    && Distance(n, fretY) < HIT_THRESHOLD
    && Abs(n.timestamp - songTime) < TIME_GATE
  }

  /** Visible index `h` is the one the press hits: a candidate, strictly nearer than every
      earlier candidate and no farther than every later one. */
  predicate Chosen(s: seq<Note>, vis: seq<nat>, color: Colour, fretY: real, songTime: real, h: nat)
    requires InRange(vis, |s|)
  {
    && h < |vis|
    && Candidate(s[vis[h]], color, fretY, songTime)
    && (forall j :: 0 <= j < |vis| && Candidate(s[vis[j]], color, fretY, songTime) ==>
          if j < h then Distance(s[vis[h]], fretY) < Distance(s[vis[j]], fretY)
          else Distance(s[vis[h]], fretY) <= Distance(s[vis[j]], fretY))
  }

  /** The search loop of handleFretPress: -1, or the visible index of the note to hit. */
  method FindHitNote(notes: array<Note>, visibleNotes: seq<nat>, color: Colour, fretY: real, songTime: real)
    returns (hitNoteIndex: int)
    requires InRange(visibleNotes, notes.Length)
    ensures hitNoteIndex == -1 <==>
      forall j :: 0 <= j < |visibleNotes| ==> !Candidate(notes[visibleNotes[j]], color, fretY, songTime)
    ensures hitNoteIndex != -1 ==>
      hitNoteIndex >= 0 && Chosen(notes[..], visibleNotes, color, fretY, songTime, hitNoteIndex)
  {
    hitNoteIndex := -1;
    var closestDistance := HIT_THRESHOLD;
    var i := 0;
    while i < |visibleNotes|
      invariant 0 <= i <= |visibleNotes|
      invariant hitNoteIndex == -1 ==>
        closestDistance == HIT_THRESHOLD
        && forall j :: 0 <= j < i ==> !Candidate(notes[visibleNotes[j]], color, fretY, songTime)
      invariant hitNoteIndex != -1 ==>
        && 0 <= hitNoteIndex < i
        && Candidate(notes[visibleNotes[hitNoteIndex]], color, fretY, songTime)
        && closestDistance == Distance(notes[visibleNotes[hitNoteIndex]], fretY)
        && (forall j :: 0 <= j < i && Candidate(notes[visibleNotes[j]], color, fretY, songTime) ==>
              if j < hitNoteIndex then closestDistance < Distance(notes[visibleNotes[j]], fretY)
              else closestDistance <= Distance(notes[visibleNotes[j]], fretY))
    {
      var note := notes[visibleNotes[i]];
      if note.color == color && !note.hit {
        var distance := Abs(note.y - fretY);
        var timeDistance := Abs(note.timestamp - songTime);
        if distance < HIT_THRESHOLD && timeDistance < TIME_GATE && distance < closestDistance {
          closestDistance := distance;
          hitNoteIndex := i;
        }
      }
      i := i + 1;
    }
  }

  /** The press's target is unique. */
  lemma ChosenUnique(s: seq<Note>, vis: seq<nat>, color: Colour, fretY: real, songTime: real, h1: nat, h2: nat)
    requires InRange(vis, |s|)
    requires Chosen(s, vis, color, fretY, songTime, h1) && Chosen(s, vis, color, fretY, songTime, h2)
    ensures h1 == h2
  {
  }

  /** A note already marked missed but not hit can still be hit. */
  lemma MissedStillHittable(n: Note, color: Colour, fretY: real, songTime: real)
    ensures Candidate(n.(missed := true), color, fretY, songTime) <==> Candidate(n.(missed := false), color, fretY, songTime)
  {
  }

  // ---------------------------------------------------------------------------
  // Judging a hit

  datatype Tier = Perfect | Great | Good {
    function Points(): real {
      match this
      case Perfect => 100.0
      case Great => 50.0
      case Good => 25.0
    }
    function Emeralds(): nat {
      match this
      case Perfect => 3
      case Great => 2
      case Good => 1
    }
    function Feedback(): string {
      match this
      case Perfect => "PERFECT!"
      case Great => "GREAT!"
      case Good => "GOOD!"
    }
  }

  function TierFor(accuracy: real): Tier {
    if accuracy < 10.0 then Perfect else if accuracy < 20.0 then Great else Good
  }

  function Tally(stats: AccuracyStats, tier: Tier): AccuracyStats {
    match tier
    case Perfect => stats.(perfect := stats.perfect + 1)
    case Great => stats.(great := stats.great + 1)
    case Good => stats.(good := stats.good + 1)
  }

  /** The state after hitting `note` (at master position `noteId`) with the `color` fret
      at time `now`. */
  function ApplyHit(p: Play, note: Note, noteId: nat, color: Colour, dims: Dimensions, isMobile: bool, now: real): Play {
    var accuracy := Distance(note, dims.fretY);
    var tier := TierFor(accuracy);
    var noteX := PerspectiveX(LaneIndex(color), note.y, dims.width, dims.height, isMobile);
    var effects :=
      if |p.hitEffects| < MAX_PENDING_EFFECTS then p.hitEffects + [HitEffect(noteX, note.y, color, 0.0)]
      else p.hitEffects;
    var held :=
      if note.duration != 0.0 && note.duration > HELD_MIN then p.held[color := HeldNote(noteId, now)]
      else p.held;
    Play(p.score + tier.Points() * (1.0 + p.combo as real * 0.1), p.combo + 1, MaxNat(p.maxCombo, p.combo + 1),
         p.emeralds + tier.Emeralds(), tier.Feedback(), Tally(p.stats, tier), effects, held, p.sustained)
  }

  /** A press that hits nothing. */
  function ApplyMiss(p: Play): Play {
    p.(combo := 0, feedback := "MISS!")
  }

  /** The rewards of the three tiers, with the score multiplied by the combo before the
      hit, and exactly one accuracy counter moved. */
  lemma HitRewards(p: Play, note: Note, noteId: nat, color: Colour, dims: Dimensions, isMobile: bool, now: real)
    ensures var r := ApplyHit(p, note, noteId, color, dims, isMobile, now);
      var accuracy := Abs(note.y - dims.fretY);
      var mult := 1.0 + p.combo as real * 0.1;
      && r.combo == p.combo + 1
      && r.maxCombo == (if p.combo + 1 > p.maxCombo then p.combo + 1 else p.maxCombo)
      && r.sustained == p.sustained
      && (accuracy < 10.0 ==>
            r.score == p.score + 100.0 * mult && r.emeralds == p.emeralds + 3
            && r.stats == p.stats.(perfect := p.stats.perfect + 1) && r.feedback == "PERFECT!")
      && (10.0 <= accuracy < 20.0 ==>
            r.score == p.score + 50.0 * mult && r.emeralds == p.emeralds + 2
            && r.stats == p.stats.(great := p.stats.great + 1) && r.feedback == "GREAT!")
      && (20.0 <= accuracy ==>
            r.score == p.score + 25.0 * mult && r.emeralds == p.emeralds + 1
            && r.stats == p.stats.(good := p.stats.good + 1) && r.feedback == "GOOD!")
  {
  }

  /** Hit effects are appended, never dropped, and only while fewer than ten are pending;
      so a buffer of at most ten stays at most ten. */
  lemma HitEffectCap(p: Play, note: Note, noteId: nat, color: Colour, dims: Dimensions, isMobile: bool, now: real)
    ensures var r := ApplyHit(p, note, noteId, color, dims, isMobile, now);
      && p.hitEffects <= r.hitEffects
      && |r.hitEffects| == (if |p.hitEffects| < 10 then |p.hitEffects| + 1 else |p.hitEffects|)
      && (|p.hitEffects| <= 10 ==> |r.hitEffects| <= 10)
      && (|r.hitEffects| > |p.hitEffects| ==>
            r.hitEffects[|p.hitEffects|] == HitEffect(PerspectiveX(LaneIndex(color), note.y, dims.width, dims.height, isMobile),
                                                      note.y, color, 0.0))
  {
  }

  /** Hitting a note longer than 200 ms records it under its colour, replacing any
      earlier record there; other colours' records stay. */
  lemma HitRecordsHeld(p: Play, note: Note, noteId: nat, color: Colour, dims: Dimensions, isMobile: bool, now: real)
    ensures var r := ApplyHit(p, note, noteId, color, dims, isMobile, now);
      && (note.duration > HELD_MIN ==> color in r.held && r.held[color] == HeldNote(noteId, now))
      && (note.duration <= HELD_MIN ==> r.held == p.held)
      && (forall c :: c != color ==> (c in r.held <==> c in p.held) && (c in p.held ==> r.held[c] == p.held[c]))
  {
  }

  /** handleFretPress: hits the chosen note (setting its `hit` flag in the master list)
      and rewards it, or resets the combo when there is none. */
  method HandleFretPress(notes: array<Note>, visibleNotes: seq<nat>, color: Colour, songTime: real,
                         p: Play, dims: Dimensions, isMobile: bool, now: real)
    returns (hit: bool, p': Play)
    requires InRange(visibleNotes, notes.Length)
    modifies notes
    ensures !hit ==>
      && notes[..] == old(notes[..]) && p' == ApplyMiss(p)
      && forall j :: 0 <= j < |visibleNotes| ==> !Candidate(old(notes[visibleNotes[j]]), color, dims.fretY, songTime)
    ensures hit ==> exists h: nat ::
      && Chosen(old(notes[..]), visibleNotes, color, dims.fretY, songTime, h)
      && notes[..] == old(notes[..])[visibleNotes[h] := old(notes[visibleNotes[h]]).(hit := true)]
      && p' == ApplyHit(p, old(notes[visibleNotes[h]]), visibleNotes[h], color, dims, isMobile, now)
  {
    var hitNoteIndex := FindHitNote(notes, visibleNotes, color, dims.fretY, songTime);
    if hitNoteIndex != -1 {
      var index := visibleNotes[hitNoteIndex];
      var note := notes[index];
      notes[index] := note.(hit := true);
      p' := ApplyHit(p, note, index, color, dims, isMobile, now);
      hit := true;
      assert Chosen(old(notes[..]), visibleNotes, color, dims.fretY, songTime, hitNoteIndex);
    } else {
      p' := ApplyMiss(p);
      hit := false;
    }
  }

  // ---------------------------------------------------------------------------
  // Judging a release

  /** `visibleNotes.find(n => n.id === noteId && n.color === color)`. */
  function FindVisible(s: seq<Note>, vis: seq<nat>, noteId: nat, color: Colour): (r: Option<Note>)
    requires InRange(vis, |s|)
    ensures r.Some? <==> exists j :: 0 <= j < |vis| && vis[j] == noteId && s[noteId].color == color
    ensures r.Some? ==> noteId < |s| && r.value == s[noteId]
  {
    if vis == [] then None
    else if vis[0] == noteId && s[noteId].color == color then Some(s[noteId])
    else
      var r := FindVisible(s, vis[1..], noteId, color);
      assert forall j :: 1 <= j < |vis| ==> vis[j] == vis[1..][j - 1];
      r
  }

  /** `Math.floor(duration / 100) * 10`. */
  function HoldBonus(duration: real): real {
    ((duration / 100.0).Floor * 10) as real
  }

  /** handleFretRelease, with `now` the clock reading. */
  function Release(s: seq<Note>, vis: seq<nat>, color: Colour, now: real, p: Play): Play
    requires InRange(vis, |s|)
  {
    if color !in p.held then p
    else
      var record := p.held[color];
      var heldDuration := now - record.startTime;
      var judged :=
        match FindVisible(s, vis, record.noteId, color)
        case None => p
        case Some(note) =>
          if note.duration == 0.0 then p
          else if heldDuration >= note.duration * SUSTAIN_SHARE then
            p.(sustained := p.sustained + [record.noteId], score := p.score + HoldBonus(note.duration),
               feedback := "SUSTAINED!")
          else if note.duration > HELD_MIN then p.(feedback := "RELEASED EARLY!")
          else p;
      judged.(held := p.held - {color})
  }

  /** A release without a record changes nothing. With one, the record always goes;
      a sustain held for 90% of its duration is appended to the sustained notes and
      earns ten points per full 100 ms; anything else leaves score and sustained notes. */
  lemma ReleaseOutcomes(s: seq<Note>, vis: seq<nat>, color: Colour, now: real, p: Play)
    requires InRange(vis, |s|)
    ensures var r := Release(s, vis, color, now, p);
      && (color !in p.held ==> r == p)
      && (color in p.held ==>
            var record := p.held[color];
            var found := FindVisible(s, vis, record.noteId, color);
            var success := found.Some? && found.value.duration != 0.0
                           && now - record.startTime >= found.value.duration * 0.9;
            && r.held == p.held - {color}
            && r.combo == p.combo && r.stats == p.stats && r.emeralds == p.emeralds
            && (success ==>
                  r.sustained == p.sustained + [record.noteId]
                  && r.score == p.score + ((found.value.duration / 100.0).Floor * 10) as real
                  && r.feedback == "SUSTAINED!")
            && (!success ==> r.sustained == p.sustained && r.score == p.score))
  {
  }

  /** The hold bonus is ten points per whole 100 ms of the note, so never negative for a
      note of non-negative duration, and never more than a tenth of its duration. */
  lemma HoldBonusBounds(duration: real)
    requires duration >= 0.0
    ensures 0.0 <= HoldBonus(duration) <= duration / 10.0
  {
    var q := duration / 100.0;
    assert q.Floor as real <= q;
    assert q.Floor >= 0;
  }
}
