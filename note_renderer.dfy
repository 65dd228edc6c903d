/** The non-drawing logic of components/guitar-hero/renderers/note-renderer.ts: where a
    note sits on the highway, and how drawHitEffects ages and compacts the hit-effect
    buffer in place. */
module NoteRenderer {
  import opened Types

  /** calculateNotePosition: a note reaches `fretY` at its timestamp and travels
      `noteSpeed` pixels per second (times are in milliseconds). */
  function NotePosition(noteTimestamp: real, currentTime: real, fretY: real, noteSpeed: real): real {
    fretY - (noteTimestamp - currentTime) / 1000.0 * noteSpeed
  }

  /** A note is on the fret line exactly at its own timestamp. */
  lemma OnFretAtTimestamp(ts: real, fretY: real, noteSpeed: real)
    ensures NotePosition(ts, ts, fretY, noteSpeed) == fretY
  {
  }

  /** Letting `d` milliseconds pass moves a note by `d / 1000 * noteSpeed` pixels. */
  lemma PositionAdvance(ts: real, t: real, d: real, fretY: real, noteSpeed: real)
    ensures NotePosition(ts, t + d, fretY, noteSpeed)
         == NotePosition(ts, t, fretY, noteSpeed) + d / 1000.0 * noteSpeed
  {
  }

  /** With a positive speed, notes move down the screen as time passes. */
  lemma PositionMonotone(ts: real, t1: real, t2: real, fretY: real, noteSpeed: real)
    requires t1 <= t2 && noteSpeed > 0.0
    ensures NotePosition(ts, t1, fretY, noteSpeed) <= NotePosition(ts, t2, fretY, noteSpeed)
  {
    PositionAdvance(ts, t1, t2 - t1, fretY, noteSpeed);
    assert (t2 - t1) / 1000.0 * noteSpeed >= 0.0;
    assert t1 + (t2 - t1) == t2;
  }

  /** The song time at which a note with timestamp `ts` is drawn at height `y`. */
  function TimeAtHeight(ts: real, y: real, fretY: real, noteSpeed: real): real
    requires noteSpeed != 0.0
  {
    ts - (fretY - y) * 1000.0 / noteSpeed
  }

  /** TimeAtHeight inverts NotePosition in the song time. */
  lemma TimeAtHeightInverts(ts: real, y: real, fretY: real, noteSpeed: real)
    requires noteSpeed != 0.0
    ensures NotePosition(ts, TimeAtHeight(ts, y, fretY, noteSpeed), fretY, noteSpeed) == y
  {
    var d := (fretY - y) * 1000.0 / noteSpeed;
    assert d * noteSpeed == (fretY - y) * 1000.0;
    assert (ts - (ts - d)) / 1000.0 * noteSpeed == d * noteSpeed / 1000.0;
  }

  // ---------------------------------------------------------------------------
  // drawHitEffects

  const MAX_EFFECTS: nat := 15
  /** Effects live for ten animation frames. */
  const EFFECT_FRAMES: real := 10.0
  /** MAX_ANIMATION_DELTA: the animation never advances by more than a 30 fps frame. */
  const MAX_ANIMATION_DELTA: real := 1.0 / 30.0

  /** How many animation frames one call advances each effect by. */
  function AnimationStep(deltaTime: real): (r: real)
    ensures r <= 1.0
    ensures deltaTime >= 0.0 ==> r >= 0.0
  {
    30.0 * (if deltaTime < MAX_ANIMATION_DELTA then deltaTime else MAX_ANIMATION_DELTA)
  }

  /** What one loop iteration keeps of an effect: nothing when it was already done,
      otherwise the effect one step older, if that is still before the last frame. */
  function Aged(e: HitEffect, speed: real): seq<HitEffect> {
    if e.frame >= EFFECT_FRAMES then []
    else
      var e' := e.(frame := e.frame + speed);
      if e'.frame < EFFECT_FRAMES then [e'] else []
  }

  /** The effects drawHitEffects keeps from `s`, in their order. */
  function Survivors(s: seq<HitEffect>, speed: real): seq<HitEffect> {
    if s == [] then [] else Survivors(s[..|s| - 1], speed) + Aged(s[|s| - 1], speed)
  }

  /** One more effect considered. */
  lemma SurvivorsNext(s: seq<HitEffect>, i: nat, speed: real)
    requires i < |s|
    ensures Survivors(s[..i + 1], speed) == Survivors(s[..i], speed) + Aged(s[i], speed)
  {
    assert s[..i + 1][..i] == s[..i];
  }

  /** `effects.length = maxEffects` when there are more. */
  function Truncated(s: seq<HitEffect>): (r: seq<HitEffect>)
    ensures |r| <= MAX_EFFECTS && r <= s
    ensures |s| <= MAX_EFFECTS ==> r == s
  {
    if |s| > MAX_EFFECTS then s[..MAX_EFFECTS] else s
  }

  /** drawHitEffects without its drawing: drops effects past the fifteenth, ages the
      rest and compacts the live ones to the front of `effects`. The result is the
      buffer's new length (`effects.length = activeEffectsCount`). */
  method AgeHitEffects(effects: array<HitEffect>, deltaTime: real) returns (activeEffectsCount: nat)
    modifies effects
    ensures activeEffectsCount <= MAX_EFFECTS && activeEffectsCount <= effects.Length
    ensures effects[..activeEffectsCount] == Survivors(Truncated(old(effects[..])), AnimationStep(deltaTime))
  {
    ghost var original := effects[..];
    var length := if effects.Length > MAX_EFFECTS then MAX_EFFECTS else effects.Length;
    ghost var kept := Truncated(original);
    assert |kept| == length;
    var animationSpeed := AnimationStep(deltaTime);
    activeEffectsCount := 0;
    var i := 0;
    while i < length
      invariant 0 <= activeEffectsCount <= i <= length
      invariant effects[..activeEffectsCount] == Survivors(kept[..i], animationSpeed)
      invariant forall k :: i <= k < effects.Length ==> effects[k] == original[k]
    {
      var effect := effects[i];
      assert effect == kept[i];
      SurvivorsNext(kept, i, animationSpeed);
      activeEffectsCount := KeepIfLive(effects, activeEffectsCount, i, effect, animationSpeed);
      i := i + 1;
    }
    assert kept[..i] == kept;
  }

  /** One effect of drawHitEffects' loop: aged, and written at the next free slot
      `count` when still live. Slots past `i` are left alone. */
  method KeepIfLive(effects: array<HitEffect>, count: nat, i: nat, effect: HitEffect, speed: real)
    returns (count': nat)
    requires count <= i < effects.Length
    modifies effects
    ensures count' <= count + 1
    ensures effects[..count'] == old(effects[..count]) + Aged(effect, speed)
    ensures forall k :: i < k < effects.Length ==> effects[k] == old(effects[k])
  {
    count' := count;
    if effect.frame < EFFECT_FRAMES {
      var aged := effect.(frame := effect.frame + speed);
      if aged.frame < EFFECT_FRAMES {
        effects[count] := aged;
        assert effects[..count + 1] == old(effects[..count]) + [aged];
        count' := count + 1;
      }
    }
  }

  /** Survivors of a prefix are a prefix of the survivors. */
  lemma {:induction false} SurvivorsPrefix(s: seq<HitEffect>, n: nat, speed: real)
    requires n <= |s|
    ensures Survivors(s[..n], speed) <= Survivors(s, speed)
    decreases |s| - n
  {
    if n < |s| {
      SurvivorsPrefix(s, n + 1, speed);
      SurvivorsNext(s, n, speed);
      assert s[..|s|] == s;
    } else {
      assert s[..n] == s;
    }
  }

  /** No more survivors than effects. */
  lemma {:induction false} SurvivorsLength(s: seq<HitEffect>, speed: real)
    ensures |Survivors(s, speed)| <= |s|
  {
    if s != [] {
      SurvivorsLength(s[..|s| - 1], speed);
    }
  }

  /** Exactly the effects that were live and stay live after one step survive, each
      one step older. */
  lemma {:induction false} SurvivorsIff(s: seq<HitEffect>, speed: real, e: HitEffect)
    ensures e in Survivors(s, speed) <==>
      exists j :: 0 <= j < |s| && s[j].frame < EFFECT_FRAMES && s[j].frame + speed < EFFECT_FRAMES
                  && e == s[j].(frame := s[j].frame + speed)
  {
    if s != [] {
      var p := s[..|s| - 1];
      SurvivorsIff(p, speed, e);
      assert Survivors(s, speed) == Survivors(p, speed) + Aged(s[|s| - 1], speed);
      if e in Survivors(s, speed) && e !in Survivors(p, speed) {
        assert e in Aged(s[|s| - 1], speed);
      }
      forall j | 0 <= j < |p| ensures p[j] == s[j] { }
    }
  }

  /** Everything left in the buffer is still animating. */
  lemma {:induction false} SurvivorsLive(s: seq<HitEffect>, speed: real)
    ensures forall k :: 0 <= k < |Survivors(s, speed)| ==> Survivors(s, speed)[k].frame < EFFECT_FRAMES
  {
    if s != [] {
      SurvivorsLive(s[..|s| - 1], speed);
    }
  }

  /** Since one call advances an effect by at most one frame, a new effect (frame 0)
      survives its first call whatever the frame time. */
  lemma NewEffectSurvives(e: HitEffect, deltaTime: real)
    requires e.frame == 0.0
    ensures Aged(e, AnimationStep(deltaTime)) == [e.(frame := AnimationStep(deltaTime))]
  {
  }
}
