/** lib/notes.ts: the procedural note pattern. A song id is hashed to a seed, a linear
    congruential generator drawn from that seed places the notes one below the other
    and picks their colours, and on expert an occasional chord note is added. The
    note ids, drawn from Math.random, are not modelled; the other Math.random values
    are parameters. */
module PatternNotes {
  import opened Wrappers
  import opened JsMath
  import opened Sorting

  // ---------------------------------------------------------------------------
  // hashString

  /** One iteration: `(hash << 5) - hash + char`, then `hash & hash`. */
  function HashStep(hash: int, c: char): int {
    ToInt32(ToInt32(hash * 32) - hash + c as int)
  }

  /** The hash after folding every character of `s`, a signed 32-bit integer. */
  function HashFold(s: string): (h: int)
    ensures -TWO_31 <= h < TWO_31
  {
    if s == [] then 0 else HashStep(HashFold(s[..|s| - 1]), s[|s| - 1])
  }

  /** hashString's result: the absolute value of the folded hash. */
  function HashValue(s: string): (r: nat)
    ensures r <= TWO_31
    ensures s == [] ==> r == 0
  {
    var h := HashFold(s);
    if h < 0 then -h else h
  }

  /** hashString. */
  method HashString(str: string) returns (r: int)
    ensures r == HashValue(str)
  {
    var hash := 0;
    var i := 0;
    while i < |str|
      invariant 0 <= i <= |str|
      invariant hash == HashFold(str[..i])
    {
      assert str[..i + 1][..i] == str[..i];
      var code := str[i] as int;
      hash := ToInt32(hash * 32) - hash + code;
      hash := ToInt32(hash);
      i := i + 1;
    }
    assert str[..i] == str;
    r := if hash < 0 then -hash else hash;
  }

  /** The textbook string hash, `31 * h + c`, without any truncation. */
  function Polynomial(s: string): int {
    if s == [] then 0 else 31 * Polynomial(s[..|s| - 1]) + s[|s| - 1] as int
  }

  /** One step wraps like `31 * h + c` taken modulo 2^32. */
  lemma HashStepIsTimes31(hash: int, c: char)
    ensures HashStep(hash, c) % TWO_32 == (31 * hash + c as int) % TWO_32
  {
    CongruentAdd(ToInt32(hash * 32), hash * 32, - hash + c as int);
    assert hash * 32 - hash + c as int == 31 * hash + c as int;
  }

  /** The folded hash is the polynomial hash modulo 2^32: the shift and the 32-bit
      truncation only ever lose multiples of 2^32. */
  lemma {:induction false} HashIsPolynomial(s: string)
    ensures HashFold(s) % TWO_32 == Polynomial(s) % TWO_32
  {
    if s != [] {
      var p, c := s[..|s| - 1], s[|s| - 1];
      HashIsPolynomial(p);
      HashStepIsTimes31(HashFold(p), c);
      CongruentScale(HashFold(p), Polynomial(p), 31);
      CongruentAdd(31 * HashFold(p), 31 * Polynomial(p), c as int);
    }
  }

  /** Short strings do not wrap: their hash is the polynomial hash itself. */
  lemma HashOfShortString(s: string)
    requires |s| <= 2 && forall k :: 0 <= k < |s| ==> s[k] as int < 0x1_0000
    ensures HashValue(s) == Polynomial(s)
  {
    if s != [] {
      var p := s[..|s| - 1];
      assert |p| <= 1;
      if p != [] {
        assert p[..|p| - 1] == [];
        assert p[0] == s[0];
        ToInt32Identity(0 + p[0] as int);
      }
      assert 0 <= Polynomial(p) < 0x1_0000;
      assert HashFold(p) == Polynomial(p);
      ToInt32Identity(HashFold(p) * 32);
      ToInt32Identity(HashFold(p) * 32 - HashFold(p) + s[|s| - 1] as int);
    }
  }

  // ---------------------------------------------------------------------------
  // createPseudoRandom

  const LCG_MULTIPLIER: real := 9301.0
  const LCG_INCREMENT: real := 49297.0
  const LCG_MODULUS: real := 233280.0

  /** The next generator state. */
  function LcgNext(seed: real): real {
    Remainder(seed * LCG_MULTIPLIER + LCG_INCREMENT, LCG_MODULUS)
  }

  /** From a non-negative seed, every state lies in [0, 233280) and every output,
      state / 233280, in [0, 1). */
  lemma LcgRange(seed: real)
    requires seed >= 0.0
    ensures 0.0 <= LcgNext(seed) < LCG_MODULUS
    ensures 0.0 <= LcgNext(seed) / LCG_MODULUS < 1.0
  {
    ProductNonNegative(seed, LCG_MULTIPLIER);
    RemainderBounds(seed * LCG_MULTIPLIER + LCG_INCREMENT, LCG_MODULUS);
  }

  /** From an integer seed, such as a hash, the generator stays on integers: it is the
      integer recurrence (seed * 9301 + 49297) mod 233280. */
  lemma LcgOnIntegers(seed: int)
    requires seed >= 0
    ensures LcgNext(seed as real) == ((seed * 9301 + 49297) % 233280) as real
  {
    assert seed as real * LCG_MULTIPLIER + LCG_INCREMENT == (seed * 9301 + 49297) as real;
    RemainderOfIntegers(seed * 9301 + 49297, 233280);
  }

  /** The closure returned by createPseudoRandom, with its captured seed as a field. */
  class PseudoRandom {
    var seed: real

    constructor(seed: real)
      ensures this.seed == seed
    {
      this.seed := seed;
    }

    method Next() returns (r: real)
      modifies this
      ensures seed == LcgNext(old(seed)) && r == seed / LCG_MODULUS
    {
      seed := Remainder(seed * LCG_MULTIPLIER + LCG_INCREMENT, LCG_MODULUS);
      r := seed / LCG_MODULUS;
    }
  }

  // ---------------------------------------------------------------------------
  // generateRandomNotes

  /** Vertical spacing, its random spread, and the share of the palette used. */
  datatype Params = Params(spacing: real, randomness: real, complexity: real)

  const DEFAULT_PARAMS: Params := Params(100.0, 150.0, 1.0)

  /** The difficulty switch; an absent, empty or unknown difficulty (the names are
      lower case) keeps the defaults. */
  function ParamsFor(difficulty: Option<string>): Params {
    if difficulty == Some("easy") then Params(150.0, 100.0, 0.7)
    else if difficulty == Some("medium") then Params(120.0, 130.0, 0.85)
    else if difficulty == Some("hard") then Params(90.0, 160.0, 1.1)
    else if difficulty == Some("expert") then Params(70.0, 180.0, 1.3)
    else DEFAULT_PARAMS
  }

  /** A song id is used only when it is present and non-empty. */
  predicate HasSong(songId: Option<string>) {
    songId.Some? && songId.value != ""
  }

  /** The generator's seed: the song id's hash, or `Math.random() * 1000`. */
  function SongSeed(songId: Option<string>, randomSeed: real): real {
    if HasSong(songId) then HashValue(songId.value) as real else randomSeed * 1000.0
  }

  /** A note of the pattern; `color` is None where the source reads past an empty
      palette and gets `undefined`. */
  datatype PatternNote = PatternNote(color: Option<string>, y: real, hit: bool, missed: bool)

  function Pick(colors: seq<string>, index: int): Option<string> {
    if |colors| == 0 then None else Some(colors[index % |colors|])
  }

  /** `Math.max(1, Math.floor(colors.length * colorComplexity))`. */
  function Available(len: nat, complexity: real): nat {
    var f := (len as real * complexity).Floor;
    if f < 1 then 1 else f
  }

  /** What stays fixed over a call: the note count, the palette, whether a song id
      drives the colours, whether the difficulty is expert, and the parameters. */
  datatype Config = Config(count: nat, colors: seq<string>, song: bool, expert: bool, p: Params)

  /** The configuration generateRandomNotes derives from its arguments. */
  function ConfigFor(count: nat, colors: seq<string>, songId: Option<string>, difficulty: Option<string>): Config {
    Config(count, colors, HasSong(songId), difficulty == Some("expert"), ParamsFor(difficulty))
  }

  /** The generator's state between iterations: the LCG seed, `lastY` and the notes. */
  datatype Gen = Gen(seed: real, lastY: real, notes: seq<PatternNote>)

  /** The next four generator states from `seed`; an iteration uses one to four. */
  datatype Draws = Draws(s1: real, s2: real, s3: real, s4: real)

  function DrawsFrom(seed: real): Draws {
    var s1 := LcgNext(seed);
    var s2 := LcgNext(s1);
    var s3 := LcgNext(s2);
    Draws(s1, s2, s3, LcgNext(s3))
  }

  predicate InRange(s: real) {
    0.0 <= s < LCG_MODULUS
  }

  predicate DrawsOk(d: Draws) {
    InRange(d.s1) && InRange(d.s2) && InRange(d.s3) && InRange(d.s4)
  }

  lemma DrawsFromRange(seed: real)
    requires seed >= 0.0
    ensures DrawsOk(DrawsFrom(seed))
  {
    var d := DrawsFrom(seed);
    LcgRange(seed);
    LcgRange(d.s1);
    LcgRange(d.s2);
    LcgRange(d.s3);
  }

  /** `lastY -= spacing + r * randomness`. */
  function Lower(lastY: real, r: real, p: Params): real {
    lastY - (p.spacing + r * p.randomness)
  }

  /** The main note's colour index with a song id, from the generator output `r`. */
  function MainIndex(r: real, colors: seq<string>, p: Params): int {
    Scaled(r, Available(|colors|, p.complexity))
  }

  /** The chord note's colour index, from the main index and the output `r`. */
  function ChordIndex(main: int, r: real, colors: seq<string>): int {
    main + 1 + Scaled(r, |colors| - 1)
  }

  /** The expert chord test, `pseudoRandom() < 0.15 && i < count - 1`. */
  predicate ChordDue(d: Draws, i: nat, count: nat) {
    d.s3 / LCG_MODULUS < 0.15 && i + 1 < count
  }

  /** The notes iteration `i` pushes at height `y`: a chord note first when one is due,
      then the main note. `draw` is the Math.random value the iteration uses when there
      is no song id. */
  function Emitted(c: Config, d: Draws, i: nat, y: real, draw: real): seq<PatternNote> {
    if c.song then
      var ci := MainIndex(d.s2 / LCG_MODULUS, c.colors, c.p);
      var main := PatternNote(Pick(c.colors, ci), y, false, false);
      if c.expert && ChordDue(d, i, c.count) then
        [PatternNote(Pick(c.colors, ChordIndex(ci, d.s4 / LCG_MODULUS, c.colors)), y, false, false), main]
      else [main]
    else [PatternNote(Pick(c.colors, Scaled(draw, |c.colors|)), y, false, false)]
  }

  /** The generator state after iteration `i`: one draw without a song id, two with
      one, three on expert and four when a chord is added. */
  function SeedAfter(c: Config, d: Draws, i: nat): real {
    if !c.song then d.s1
    else if !c.expert then d.s2
    else if ChordDue(d, i, c.count) then d.s4
    else d.s3
  }

  /** Iteration `i`. */
  function Step(c: Config, g: Gen, i: nat, draw: real): Gen {
    var d := DrawsFrom(g.seed);
    var y := Lower(g.lastY, d.s1 / LCG_MODULUS, c.p);
    Gen(SeedAfter(c, d, i), y, g.notes + Emitted(c, d, i, y, draw))
  }

  const START_Y: real := -50.0

  /** The state after the first `n` iterations. */
  function Run(c: Config, n: nat, seed: real, draws: seq<real>): Gen
    requires n <= |draws|
  {
    if n == 0 then Gen(seed, START_Y, [])
    else Step(c, Run(c, n - 1, seed, draws), n - 1, draws[n - 1])
  }

  /** generateRandomNotes' result, as a function of its inputs and of the Math.random
      values it draws (`randomSeed` for the seed, `draws` for the colours). */
  function Generate(count: nat, colors: seq<string>, songId: Option<string>, difficulty: Option<string>,
                    randomSeed: real, draws: seq<real>): seq<PatternNote>
    requires |draws| >= count
  {
    Run(ConfigFor(count, colors, songId, difficulty), count, SongSeed(songId, randomSeed), draws).notes
  }

  /** The difficulty switch of generateRandomNotes. */
  method DifficultyParams(difficulty: Option<string>) returns (spacing: real, randomness: real, colorComplexity: real)
    ensures Params(spacing, randomness, colorComplexity) == ParamsFor(difficulty)
  {
    spacing, randomness, colorComplexity := 100.0, 150.0, 1.0;
    if difficulty.Some? && difficulty.value != "" {
      match difficulty.value
      case "easy" =>
        spacing, randomness, colorComplexity := 150.0, 100.0, 0.7;
      case "medium" =>
        spacing, randomness, colorComplexity := 120.0, 130.0, 0.85;
      case "hard" =>
        spacing, randomness, colorComplexity := 90.0, 160.0, 1.1;
      case "expert" =>
        spacing, randomness, colorComplexity := 70.0, 180.0, 1.3;
      case _ =>
    }
  }

  /** One iteration of generateRandomNotes' loop: lowers `lastY` and returns the notes
      it pushes, chord note first. */
  method Iteration(pseudoRandom: PseudoRandom, i: nat, count: nat, colors: seq<string>, song: bool, expert: bool,
                   spacing: real, randomness: real, colorComplexity: real, lastY: real, draw: real)
    returns (lastY': real, pushed: seq<PatternNote>)
    modifies pseudoRandom
    ensures var c, d := Config(count, colors, song, expert, Params(spacing, randomness, colorComplexity)),
                        DrawsFrom(old(pseudoRandom.seed));
      && lastY' == Lower(lastY, d.s1 / LCG_MODULUS, c.p)
      && pushed == Emitted(c, d, i, lastY', draw)
      && pseudoRandom.seed == SeedAfter(c, d, i)
  {
    var c := Config(count, colors, song, expert, Params(spacing, randomness, colorComplexity));
    ghost var d := DrawsFrom(pseudoRandom.seed);
    var r := pseudoRandom.Next();
    assert pseudoRandom.seed == d.s1;
    lastY' := Lower(lastY, r, c.p);
    pushed := [];
    var colorIndex;
    if song {
      var availableColors := Available(|colors|, colorComplexity);
      r := pseudoRandom.Next();
      assert r == d.s2 / LCG_MODULUS;
      colorIndex := Scaled(r, availableColors);
      assert colorIndex == MainIndex(d.s2 / LCG_MODULUS, colors, c.p);
      if expert {
        r := pseudoRandom.Next();
        assert pseudoRandom.seed == d.s3;
        if r < 0.15 && i < count - 1 {
          assert ChordDue(d, i, count);
          r := pseudoRandom.Next();
          assert pseudoRandom.seed == d.s4;
          var chordNote := PatternNote(Pick(colors, colorIndex + 1 + Scaled(r, |colors| - 1)), lastY', false, false);
          pushed := pushed + [chordNote];
        } else {
          assert !ChordDue(d, i, count);
        }
      }
    } else {
      colorIndex := Scaled(draw, |colors|);
    }
    var note := PatternNote(Pick(colors, colorIndex), lastY', false, false);
    pushed := pushed + [note];
    assert pushed == Emitted(c, d, i, lastY', draw);
  }

  /** generateRandomNotes. */
  method GenerateRandomNotes(count: nat, colors: seq<string>, songId: Option<string>, difficulty: Option<string>,
                             randomSeed: real, draws: seq<real>)
    returns (notes: seq<PatternNote>)
    requires |draws| >= count
    ensures notes == Generate(count, colors, songId, difficulty, randomSeed, draws)
  {
    notes := [];
    var lastY := START_Y;
    var songSeed;
    if HasSong(songId) {
      var h := HashString(songId.value);
      songSeed := h as real;
    } else {
      songSeed := randomSeed * 1000.0;
    }
    var spacing, randomness, colorComplexity := DifficultyParams(difficulty);
    ghost var c := ConfigFor(count, colors, songId, difficulty);
    var pseudoRandom := new PseudoRandom(songSeed);
    var i := 0;
    while i < count
      invariant 0 <= i <= count
      invariant Gen(pseudoRandom.seed, lastY, notes) == Run(c, i, songSeed, draws)
    {
      var pushed;
      lastY, pushed := Iteration(pseudoRandom, i, count, colors, HasSong(songId), difficulty == Some("expert"),
                                 spacing, randomness, colorComplexity, lastY, draws[i]);
      notes := notes + pushed;
      i := i + 1;
    }
  }

  // ---------------------------------------------------------------------------
  // Properties of the pattern

  /** Harder difficulties space notes closer, spread them more and use more of the
      palette; the names are case-sensitive. */
  lemma DifficultyOrdering()
    ensures var e, m, h, x := ParamsFor(Some("easy")), ParamsFor(Some("medium")),
                              ParamsFor(Some("hard")), ParamsFor(Some("expert"));
      && e.spacing > m.spacing > h.spacing > x.spacing > 0.0
      && 0.0 < e.randomness < m.randomness < h.randomness < x.randomness
      && e.complexity < m.complexity < 1.0 < h.complexity < x.complexity
      && ParamsFor(Some("Expert")) == ParamsFor(None) == ParamsFor(Some("")) == DEFAULT_PARAMS
  {
  }

  /** Over the five frets: easy uses 3 colours, medium 4, the default and hard 5 and
      expert 6, the sixth wrapping round to the first. */
  lemma FiveColourPalettes()
    ensures Available(5, ParamsFor(Some("easy")).complexity) == 3
    ensures Available(5, ParamsFor(Some("medium")).complexity) == 4
    ensures Available(5, DEFAULT_PARAMS.complexity) == 5
    ensures Available(5, ParamsFor(Some("hard")).complexity) == 5
    ensures Available(5, ParamsFor(Some("expert")).complexity) == 6
  {
    assert 5.0 * 0.7 == 3.5;
    assert 5.0 * 0.85 == 4.25;
    assert 5.0 * 1.1 == 5.5;
    assert 5.0 * 1.3 == 6.5;
  }

  /** With a song id the main colour index is below the number of available colours. */
  lemma MainIndexRange(r: real, colors: seq<string>, p: Params)
    requires 0.0 <= r < 1.0
    ensures 0 <= MainIndex(r, colors, p) < Available(|colors|, p.complexity)
  {
    ScaledRange(r, Available(|colors|, p.complexity));
  }

  lemma OutputRange(s: real)
    requires InRange(s)
    ensures 0.0 <= s / LCG_MODULUS < 1.0
  {
  }

  /** Each iteration lowers `lastY` by spacing + r * randomness for an output r in
      [0, 1): at least `spacing`, and less than spacing + randomness. */
  lemma LowerBounds(lastY: real, r: real, p: Params)
    requires 0.0 <= r < 1.0 && p.randomness >= 0.0
    ensures lastY - p.spacing - p.randomness <= Lower(lastY, r, p) <= lastY - p.spacing
    ensures p.randomness > 0.0 ==> lastY - p.spacing - p.randomness < Lower(lastY, r, p)
  {
    ProductNonNegative(r, p.randomness);
    ProductNonNegative(1.0 - r, p.randomness);
    if p.randomness > 0.0 {
      ProductPositive(1.0 - r, p.randomness);
    }
    assert r * p.randomness + (1.0 - r) * p.randomness == p.randomness;
  }

  predicate SeedOk(g: Gen) {
    g.seed >= 0.0
  }

  function Depth(n: PatternNote): real {
    -n.y
  }

  /** What every state of a run satisfies: notes go down the highway (no note above
      an earlier one), and all of them lie at or above `lastY`. */
  predicate Descending(g: Gen) {
    && SortedBy(g.notes, Depth)
    && forall k :: 0 <= k < |g.notes| ==> g.notes[k].y >= g.lastY
  }

  /** One iteration keeps the earlier notes, adds one or two at the new `lastY`, and
      lowers `lastY` by spacing + r * randomness with r in [0, 1). */
  lemma StepLowers(c: Config, g: Gen, i: nat, draw: real)
    requires SeedOk(g) && c.p.randomness >= 0.0
    ensures var g' := Step(c, g, i, draw);
      && SeedOk(g')
      && g.lastY - c.p.spacing - c.p.randomness <= g'.lastY <= g.lastY - c.p.spacing
      && (c.p.randomness > 0.0 ==> g.lastY - c.p.spacing - c.p.randomness < g'.lastY)
      && g'.notes[..|g.notes|] == g.notes
      && |g.notes| < |g'.notes|
      && forall k :: |g.notes| <= k < |g'.notes| ==> g'.notes[k].y == g'.lastY
  {
    var d := DrawsFrom(g.seed);
    DrawsFromRange(g.seed);
    OutputRange(d.s1);
    LowerBounds(g.lastY, d.s1 / LCG_MODULUS, c.p);
    var y := Lower(g.lastY, d.s1 / LCG_MODULUS, c.p);
    var e := Emitted(c, d, i, y, draw);
    assert forall k :: 0 <= k < |e| ==> e[k].y == y;
    assert (g.notes + e)[..|g.notes|] == g.notes;
  }

  lemma StepDescends(c: Config, g: Gen, i: nat, draw: real)
    requires SeedOk(g) && Descending(g) && c.p.randomness >= 0.0 && c.p.spacing >= 0.0
    ensures SeedOk(Step(c, g, i, draw)) && Descending(Step(c, g, i, draw))
  {
    StepLowers(c, g, i, draw);
    var g' := Step(c, g, i, draw);
    forall i, j | 0 <= i < j < |g'.notes|
      ensures Depth(g'.notes[i]) <= Depth(g'.notes[j])
    {
      if j < |g.notes| {
        assert g'.notes[i] == g'.notes[..|g.notes|][i] && g'.notes[j] == g'.notes[..|g.notes|][j];
      } else if i < |g.notes| {
        assert g'.notes[i] == g'.notes[..|g.notes|][i];
      }
    }
    forall k | 0 <= k < |g'.notes|
      ensures g'.notes[k].y >= g'.lastY
    {
      if k < |g.notes| {
        assert g'.notes[k] == g'.notes[..|g.notes|][k];
      }
    }
  }

  lemma {:induction false} RunDescends(c: Config, n: nat, seed: real, draws: seq<real>)
    requires n <= |draws| && seed >= 0.0 && c.p.randomness >= 0.0 && c.p.spacing >= 0.0
    ensures SeedOk(Run(c, n, seed, draws))
    ensures Descending(Run(c, n, seed, draws))
  {
    if n > 0 {
      RunDescends(c, n - 1, seed, draws);
      StepDescends(c, Run(c, n - 1, seed, draws), n - 1, draws[n - 1]);
    }
  }

  /** Every note, and `lastY`, at or below `top`. */
  predicate Under(g: Gen, top: real) {
    g.lastY <= top && forall k :: 0 <= k < |g.notes| ==> g.notes[k].y <= top
  }

  lemma StepUnder(c: Config, g: Gen, i: nat, draw: real, top: real)
    requires SeedOk(g) && c.p.randomness >= 0.0
    requires g.lastY - c.p.spacing <= top && forall k :: 0 <= k < |g.notes| ==> g.notes[k].y <= top
    ensures Under(Step(c, g, i, draw), top)
  {
    StepLowers(c, g, i, draw);
    var g' := Step(c, g, i, draw);
    forall k | 0 <= k < |g'.notes|
      ensures g'.notes[k].y <= top
    {
      if k < |g.notes| {
        assert g'.notes[k] == g'.notes[..|g.notes|][k];
      }
    }
  }

  lemma {:induction false} RunBelowFirstStep(c: Config, n: nat, seed: real, draws: seq<real>)
    requires 0 < n <= |draws| && seed >= 0.0 && c.p.randomness >= 0.0 && c.p.spacing >= 0.0
    ensures Under(Run(c, n, seed, draws), START_Y - c.p.spacing)
  {
    var m := n - 1;
    RunSeedOk(c, m, seed, draws);
    if m > 0 {
      RunBelowFirstStep(c, m, seed, draws);
    }
    StepUnder(c, Run(c, m, seed, draws), m, draws[m], START_Y - c.p.spacing);
  }

  /** The pattern runs down the highway from y = -50: no note sits above an earlier
      one, and every note lies at least one spacing below the start. */
  lemma PatternDescends(count: nat, colors: seq<string>, songId: Option<string>, difficulty: Option<string>,
                        randomSeed: real, draws: seq<real>)
    requires |draws| >= count && randomSeed >= 0.0
    ensures var notes := Generate(count, colors, songId, difficulty, randomSeed, draws);
      && SortedBy(notes, Depth)
      && forall k :: 0 <= k < |notes| ==> notes[k].y <= START_Y - ParamsFor(difficulty).spacing
  {
    var c := ConfigFor(count, colors, songId, difficulty);
    var seed := SongSeed(songId, randomSeed);
    ProductNonNegative(randomSeed, 1000.0);
    RunDescends(c, count, seed, draws);
    if count > 0 {
      RunBelowFirstStep(c, count, seed, draws);
    }
  }

  lemma {:induction false} RunIgnoresDraws(c: Config, n: nat, seed: real, draws1: seq<real>, draws2: seq<real>)
    requires c.song && n <= |draws1| && n <= |draws2|
    ensures Run(c, n, seed, draws1) == Run(c, n, seed, draws2)
  {
    if n > 0 {
      RunIgnoresDraws(c, n - 1, seed, draws1, draws2);
      var g := Run(c, n - 1, seed, draws1);
      var d := DrawsFrom(g.seed);
      var y := Lower(g.lastY, d.s1 / LCG_MODULUS, c.p);
      assert Emitted(c, d, n - 1, y, draws1[n - 1]) == Emitted(c, d, n - 1, y, draws2[n - 1]);
    }
  }

  /** With a song id the pattern depends only on the song id, the difficulty, the count
      and the palette: whatever Math.random returns, the same song gives the same notes. */
  lemma SameSongSamePattern(count: nat, colors: seq<string>, songId: Option<string>, difficulty: Option<string>,
                            randomSeed1: real, draws1: seq<real>, randomSeed2: real, draws2: seq<real>)
    requires HasSong(songId) && |draws1| >= count && |draws2| >= count
    ensures Generate(count, colors, songId, difficulty, randomSeed1, draws1)
         == Generate(count, colors, songId, difficulty, randomSeed2, draws2)
  {
    RunIgnoresDraws(ConfigFor(count, colors, songId, difficulty), count, SongSeed(songId, randomSeed1), draws1, draws2);
  }

  /** Only the expert pattern of a song has chord notes, never on the last iteration;
      a chord note shares its main note's y and, over a palette of at least two
      distinct colours, differs from it in colour. */
  lemma ChordNotes(c: Config, d: Draws, i: nat, y: real, draw: real)
    requires DrawsOk(d)
    requires forall a, b :: 0 <= a < b < |c.colors| ==> c.colors[a] != c.colors[b]
    ensures var e := Emitted(c, d, i, y, draw);
      && (|e| == 1 || |e| == 2)
      && (|e| == 2 ==>
            && c.song && c.expert && i + 1 < c.count
            && e[0].y == e[1].y
            && (|c.colors| >= 2 ==> e[0].color != e[1].color))
  {
    var e := Emitted(c, d, i, y, draw);
    if |e| == 2 && |c.colors| >= 2 {
      OutputRange(d.s2);
      OutputRange(d.s4);
      var ci := MainIndex(d.s2 / LCG_MODULUS, c.colors, c.p);
      MainIndexRange(d.s2 / LCG_MODULUS, c.colors, c.p);
      var j := Scaled(d.s4 / LCG_MODULUS, |c.colors| - 1);
      ScaledRange(d.s4 / LCG_MODULUS, |c.colors| - 1);
      ShiftedResidueDiffers(ci, 1 + j, |c.colors|);
      assert e[0].color == Some(c.colors[(ci + 1 + j) % |c.colors|]);
      assert e[1].color == Some(c.colors[ci % |c.colors|]);
    }
  }

  /** The iterations of a call all draw from seeds the generator reaches, which stay
      in range; so ChordNotes applies to every iteration of a run. */
  lemma RunDrawsOk(c: Config, n: nat, seed: real, draws: seq<real>)
    requires n <= |draws| && seed >= 0.0
    ensures DrawsOk(DrawsFrom(Run(c, n, seed, draws).seed))
  {
    RunSeedOk(c, n, seed, draws);
    DrawsFromRange(Run(c, n, seed, draws).seed);
  }

  lemma {:induction false} RunSeedOk(c: Config, n: nat, seed: real, draws: seq<real>)
    requires n <= |draws| && seed >= 0.0
    ensures SeedOk(Run(c, n, seed, draws))
  {
    if n > 0 {
      RunSeedOk(c, n - 1, seed, draws);
      DrawsFromRange(Run(c, n - 1, seed, draws).seed);
    }
  }

  /** x and x + k fall in different residues when 0 < k < n. */
  lemma ShiftedResidueDiffers(x: int, k: int, n: int)
    requires n >= 2 && 0 < k < n
    ensures (x + k) % n != x % n
  {
    var q, a := x / n, x % n;
    assert x == q * n + a && 0 <= a < n;
    if a + k < n {
      ModOfDecomposition(x + k, n, q, a + k);
    } else {
      assert x + k == (q + 1) * n + (a + k - n);
      ModOfDecomposition(x + k, n, q + 1, a + k - n);
    }
  }

  /** The remainder is determined by any decomposition x == q * n + r with 0 <= r < n. */
  lemma ModOfDecomposition(x: int, n: int, q: int, r: int)
    requires n > 0 && x == q * n + r && 0 <= r < n
    ensures x % n == r
  {
    var q', r' := x / n, x % n;
    assert x == q' * n + r';
    assert (q - q') * n == r' - r;
    if q > q' {
      MulAtLeast(q - q', n);
    } else if q < q' {
      MulAtLeast(q' - q, n);
    }
  }

  lemma MulAtLeast(a: int, n: int)
    requires a >= 1 && n > 0
    ensures a * n >= n
  {
  }

  /** Without chords, a run has one note per iteration, and never more than two. */
  lemma {:induction false} RunLength(c: Config, n: nat, seed: real, draws: seq<real>)
    requires n <= |draws| && n <= c.count
    ensures var g := Run(c, n, seed, draws);
      && n <= |g.notes|
      && (!(c.song && c.expert) ==> |g.notes| == n)
      && |g.notes| <= 2 * n - (if 0 < n == c.count then 1 else 0)
  {
    if n > 0 {
      RunLength(c, n - 1, seed, draws);
    }
  }

  /** generateRandomNotes returns `count` notes, and only the expert pattern of a song
      can have more: at most one chord per iteration but the last. */
  lemma PatternLength(count: nat, colors: seq<string>, songId: Option<string>, difficulty: Option<string>,
                      randomSeed: real, draws: seq<real>)
    requires |draws| >= count
    ensures var notes := Generate(count, colors, songId, difficulty, randomSeed, draws);
      && count <= |notes|
      && (count > 0 ==> |notes| <= 2 * count - 1)
      && (!(HasSong(songId) && difficulty == Some("expert")) ==> |notes| == count)
  {
    RunLength(ConfigFor(count, colors, songId, difficulty), count, SongSeed(songId, randomSeed), draws);
  }

  /** The colour rule for one iteration's notes: from the palette (none at all from an
      empty one), and with a song id on a difficulty whose complexity is at most 1,
      not expert, from its first Available(|colors|, complexity) entries. */
  predicate ColoursOk(c: Config, notes: seq<PatternNote>) {
    && (forall k :: 0 <= k < |notes| ==> (notes[k].color.None? <==> c.colors == []))
    && (forall k :: 0 <= k < |notes| && notes[k].color.Some? ==> notes[k].color.value in c.colors)
    && (c.song && !c.expert && c.p.complexity <= 1.0 ==>
          forall k :: 0 <= k < |notes| && notes[k].color.Some? ==>
            notes[k].color.value in c.colors[..Available(|c.colors|, c.p.complexity)])
  }

  lemma EmittedColours(c: Config, d: Draws, i: nat, y: real, draw: real)
    requires DrawsOk(d) && 0.0 <= draw < 1.0
    ensures ColoursOk(c, Emitted(c, d, i, y, draw))
  {
    if c.colors != [] {
      if c.song {
        OutputRange(d.s2);
        var ci := MainIndex(d.s2 / LCG_MODULUS, c.colors, c.p);
        MainIndexRange(d.s2 / LCG_MODULUS, c.colors, c.p);
        if !c.expert && c.p.complexity <= 1.0 {
          AvailableWithinPalette(|c.colors|, c.p.complexity);
          ModOfDecomposition(ci, |c.colors|, 0, ci);
          assert c.colors[ci] == c.colors[..Available(|c.colors|, c.p.complexity)][ci];
        }
      }
    }
  }

  lemma ColoursOkAppend(c: Config, a: seq<PatternNote>, b: seq<PatternNote>)
    requires ColoursOk(c, a) && ColoursOk(c, b)
    ensures ColoursOk(c, a + b)
  {
    forall k | 0 <= k < |a + b|
      ensures (a + b)[k] == if k < |a| then a[k] else b[k - |a|]
    {
    }
  }

  lemma {:induction false} RunColours(c: Config, n: nat, seed: real, draws: seq<real>)
    requires n <= |draws| && seed >= 0.0
    requires forall k :: 0 <= k < |draws| ==> 0.0 <= draws[k] < 1.0
    ensures SeedOk(Run(c, n, seed, draws))
    ensures ColoursOk(c, Run(c, n, seed, draws).notes)
  {
    if n > 0 {
      var m := n - 1;
      var g := Run(c, m, seed, draws);
      RunColours(c, m, seed, draws);
      var d := DrawsFrom(g.seed);
      DrawsFromRange(g.seed);
      var y := Lower(g.lastY, d.s1 / LCG_MODULUS, c.p);
      EmittedColours(c, d, m, y, draws[m]);
      ColoursOkAppend(c, g.notes, Emitted(c, d, m, y, draws[m]));
    }
  }

  /** A complexity of at most 1 never asks for more colours than the palette has. */
  lemma AvailableWithinPalette(len: nat, complexity: real)
    requires len >= 1 && complexity <= 1.0
    ensures Available(len, complexity) <= len
  {
    if complexity >= 0.0 {
      ProductNonNegative(len as real, 1.0 - complexity);
    } else {
      ProductNonNegative(len as real, -complexity);
    }
  }

  /** Every colour of the pattern comes from the palette, and with a song id on easy,
      medium or no difficulty only from the first Available(|colors|, complexity). */
  lemma PatternColours(count: nat, colors: seq<string>, songId: Option<string>, difficulty: Option<string>,
                       randomSeed: real, draws: seq<real>)
    requires |draws| >= count && 0.0 <= randomSeed
    requires forall k :: 0 <= k < |draws| ==> 0.0 <= draws[k] < 1.0
    ensures var notes := Generate(count, colors, songId, difficulty, randomSeed, draws);
      && (forall k :: 0 <= k < |notes| ==> (notes[k].color.None? <==> colors == []))
      && (forall k :: 0 <= k < |notes| && notes[k].color.Some? ==> notes[k].color.value in colors)
      && (HasSong(songId) && difficulty in {Some("easy"), Some("medium"), None} ==>
            forall k :: 0 <= k < |notes| && notes[k].color.Some? ==>
              notes[k].color.value in colors[..Available(|colors|, ParamsFor(difficulty).complexity)])
  {
    ProductNonNegative(randomSeed, 1000.0);
    var c := ConfigFor(count, colors, songId, difficulty);
    RunColours(c, count, SongSeed(songId, randomSeed), draws);
  }
}
