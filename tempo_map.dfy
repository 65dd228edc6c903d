/** Tick-to-millisecond conversion over a tempo table (lib/chart-parser.ts,
    calculateTimestampForTick). */
module TempoMap {

  /** One tempo change: from `tick` on, `bpm` beats per minute; `timestamp` is the
      time of `tick` in milliseconds. */
  datatype TempoEntry = TempoEntry(tick: int, bpm: real, timestamp: real)

  /** The entry every table starts with: 120 BPM from tick 0 at 0 ms. */
  const DEFAULT_ENTRY: TempoEntry := TempoEntry(0, 120.0, 0.0)

  /** Milliseconds per tick at a tempo. Where the source divides by a zero
      `bpm * resolution` (an Infinity or NaN in JavaScript), the model uses 0. */
  function MsPerTick(bpm: real, resolution: int): (m: real)
    ensures bpm > 0.0 && resolution > 0 ==> m > 0.0
  {
    if bpm * resolution as real == 0.0 then 0.0 else 60000.0 / (bpm * resolution as real)
  }

  /** The entry the source's scan settles on: starting from entry 0, it steps to
      entry i (i >= 1) while entry i's tick does not exceed `tick`, and stops at the
      first entry whose tick does. */
  function PrevIndex(table: seq<TempoEntry>, tick: int): (k: nat)
    requires |table| > 0
    ensures k < |table|
    ensures forall j :: 1 <= j <= k ==> table[j].tick <= tick
    ensures k + 1 == |table| || table[k + 1].tick > tick
  {
    ScanFrom(table, tick, 1)
  }

  function ScanFrom(table: seq<TempoEntry>, tick: int, i: nat): (k: nat)
    requires 1 <= i <= |table|
    requires forall j :: 1 <= j < i ==> table[j].tick <= tick
    ensures i - 1 <= k < |table|
    ensures forall j :: 1 <= j <= k ==> table[j].tick <= tick
    ensures k + 1 == |table| || table[k + 1].tick > tick
    decreases |table| - i
  {
    if i == |table| || table[i].tick > tick then i - 1 else ScanFrom(table, tick, i + 1)
  }

  /** The time of `tick`: the settled entry's time plus the ticks since it at its tempo. */
  function TickToMs(tick: int, table: seq<TempoEntry>, resolution: int): real
    requires |table| > 0
  {
    var e := table[PrevIndex(table, tick)];
    e.timestamp + (tick - e.tick) as real * MsPerTick(e.bpm, resolution)
  }

  /** calculateTimestampForTick: the source's loop, proved to compute TickToMs. */
  method TimestampForTick(tick: int, table: seq<TempoEntry>, resolution: int) returns (ts: real)
    requires |table| > 0
    ensures ts == TickToMs(tick, table, resolution)
  {
    var prev := table[0];
    var i := 1;
    while i < |table|
      invariant 1 <= i <= |table|
      invariant prev == table[i - 1]
      invariant forall j :: 1 <= j < i ==> table[j].tick <= tick
    {
      if table[i].tick > tick {
        break;
      }
      prev := table[i];
      i := i + 1;
    }
    var ticksSinceChange := tick - prev.tick;
    var msPerTick := MsPerTick(prev.bpm, resolution);
    ts := prev.timestamp + ticksSinceChange as real * msPerTick;
  }

  /** The entry appended by the parser for a tempo line at `tick`: its time is the
      conversion of `tick` under the table built so far. */
  function Pushed(table: seq<TempoEntry>, tick: int, bpm: real, resolution: int): (r: seq<TempoEntry>)
    requires |table| > 0
    ensures |r| == |table| + 1 && r[..|table|] == table
    ensures r[|table|] == TempoEntry(tick, bpm, TickToMs(tick, table, resolution))
  {
    table + [TempoEntry(tick, bpm, TickToMs(tick, table, resolution))]
  }

  /** A table the laws below hold for: ticks ascending, tempos and resolution
      positive, and every entry after the first timed by the entries before it. */
  ghost predicate WellFormed(table: seq<TempoEntry>, resolution: int) {
    && |table| > 0
    && resolution > 0
    && (forall i :: 0 <= i < |table| ==> table[i].bpm > 0.0)
    && (forall i, j :: 0 <= i <= j < |table| ==> table[i].tick <= table[j].tick)
    && (forall i :: 1 <= i < |table| ==> EntryTimed(table, i, resolution))
  }

  /** Entry i carries the time its tick has under the entries before it. */
  ghost predicate EntryTimed(table: seq<TempoEntry>, i: nat, resolution: int)
    requires 1 <= i < |table|
  {
    table[i].timestamp == TickToMs(table[i].tick, table[..i], resolution)
  }

  /** One quarter note at the default 120 BPM and resolution 192 lasts 500 ms. */
  lemma DefaultQuarterNote()
    ensures TickToMs(192, [DEFAULT_ENTRY], 192) == 500.0
  {
  }

  lemma MulLeMono(a: real, b: real, m: real)
    requires a <= b && m >= 0.0
    ensures a * m <= b * m
  {
  }

  /** In a well-formed table, an entry's time is its predecessor's time plus the
      ticks between them at the predecessor's tempo. */
  lemma {:induction false} EntryStep(table: seq<TempoEntry>, resolution: int, j: nat)
    requires WellFormed(table, resolution) && 1 <= j < |table|
    ensures table[j].timestamp
         == table[j - 1].timestamp
            + (table[j].tick - table[j - 1].tick) as real * MsPerTick(table[j - 1].bpm, resolution)
  {
    assert EntryTimed(table, j, resolution);
    var prefix := table[..j];
    var k := PrevIndex(prefix, table[j].tick);
    assert k == j - 1;
  }

  /** Entry times never decrease along a well-formed table. */
  lemma {:induction false} EntryTimesAscending(table: seq<TempoEntry>, resolution: int, i: nat, j: nat)
    requires WellFormed(table, resolution) && i <= j < |table|
    ensures table[i].timestamp <= table[j].timestamp
  {
    if i < j {
      EntryTimesAscending(table, resolution, i, j - 1);
      EntryStep(table, resolution, j);
      MulLeMono(0.0, (table[j].tick - table[j - 1].tick) as real, MsPerTick(table[j - 1].bpm, resolution));
    }
  }

  /** Within one tempo segment, a later tick has a later time. */
  lemma SegmentMonotone(e: TempoEntry, m: real, t1: int, t2: int)
    requires m >= 0.0 && t1 <= t2
    ensures e.timestamp + (t1 - e.tick) as real * m <= e.timestamp + (t2 - e.tick) as real * m
  {
    MulLeMono((t1 - e.tick) as real, (t2 - e.tick) as real, m);
  }

  /** A tick before entry k + 1 has at most entry k + 1's time. */
  lemma {:induction false} BeforeNextEntry(table: seq<TempoEntry>, resolution: int, k: nat, t: int)
    requires WellFormed(table, resolution) && k + 1 < |table| && t < table[k + 1].tick
    ensures table[k].timestamp + (t - table[k].tick) as real * MsPerTick(table[k].bpm, resolution)
         <= table[k + 1].timestamp
  {
    EntryStep(table, resolution, k + 1);
    SegmentMonotone(table[k], MsPerTick(table[k].bpm, resolution), t, table[k + 1].tick);
  }

  /** The settled entry never moves back as the tick grows. */
  lemma PrevIndexMonotone(table: seq<TempoEntry>, t1: int, t2: int)
    requires |table| > 0 && t1 <= t2
    ensures PrevIndex(table, t1) <= PrevIndex(table, t2)
  {
    var k1, k2 := PrevIndex(table, t1), PrevIndex(table, t2);
    assert k2 + 1 < |table| ==> table[k2 + 1].tick > t1;
  }

  /** Conversion is non-decreasing in the tick over a well-formed table. */
  lemma TickToMsMonotone(table: seq<TempoEntry>, resolution: int, t1: int, t2: int)
    requires WellFormed(table, resolution) && t1 <= t2
    ensures TickToMs(t1, table, resolution) <= TickToMs(t2, table, resolution)
  {
    var k1, k2 := PrevIndex(table, t1), PrevIndex(table, t2);
    PrevIndexMonotone(table, t1, t2);
    if k1 < k2 {
      CrossSegments(table, resolution, t1, t2, k1, k2);
    } else {
      SameSegment(table, resolution, t1, t2, k1);
    }
  }

  lemma SameSegment(table: seq<TempoEntry>, resolution: int, t1: int, t2: int, k: nat)
    requires WellFormed(table, resolution) && t1 <= t2
    requires k == PrevIndex(table, t1) == PrevIndex(table, t2)
    ensures TickToMs(t1, table, resolution) <= TickToMs(t2, table, resolution)
  {
    var e := table[k];
    var m := MsPerTick(e.bpm, resolution);
    assert m > 0.0;
    assert TickToMs(t1, table, resolution) == e.timestamp + (t1 - e.tick) as real * m;
    assert TickToMs(t2, table, resolution) == e.timestamp + (t2 - e.tick) as real * m;
    SegmentMonotone(e, m, t1, t2);
  }

  lemma {:induction false} CrossSegments(table: seq<TempoEntry>, resolution: int, t1: int, t2: int, k1: nat, k2: nat)
    requires WellFormed(table, resolution) && t1 <= t2
    requires k1 == PrevIndex(table, t1) && k2 == PrevIndex(table, t2) && k1 < k2
    ensures TickToMs(t1, table, resolution) <= TickToMs(t2, table, resolution)
  {
    var e1, e2 := table[k1], table[k2];
    var m1, m2 := MsPerTick(e1.bpm, resolution), MsPerTick(e2.bpm, resolution);
    var a := e1.timestamp + (t1 - e1.tick) as real * m1;
    var b := e2.timestamp + (t2 - e2.tick) as real * m2;
    assert TickToMs(t1, table, resolution) == a;
    assert TickToMs(t2, table, resolution) == b;
    BeforeNextEntry(table, resolution, k1, t1);
    assert a <= table[k1 + 1].timestamp;
    EntryTimesAscending(table, resolution, k1 + 1, k2);
    assert table[k1 + 1].timestamp <= e2.timestamp;
    MulLeMono(0.0, (t2 - e2.tick) as real, m2);
    assert e2.timestamp <= b;
  }

  /** Appending a tempo change never moves any tick up to and including its own:
      the map is continuous at the change and unchanged before it. This holds for
      any table, ascending or not. */
  lemma PushKeepsEarlierTicks(table: seq<TempoEntry>, tick: int, bpm: real, resolution: int, t: int)
    requires |table| > 0 && t <= tick
    ensures TickToMs(t, Pushed(table, tick, bpm, resolution), resolution) == TickToMs(t, table, resolution)
  {
    var r := Pushed(table, tick, bpm, resolution);
    var k, k' := PrevIndex(table, t), PrevIndex(r, t);
    assert forall j :: 0 <= j < |table| ==> r[j] == table[j];
    if k' == |table| {
      assert r[k'] == TempoEntry(tick, bpm, TickToMs(tick, table, resolution));
      assert t == tick;
      assert TickToMs(t, r, resolution) == TickToMs(tick, table, resolution) + 0.0 * MsPerTick(bpm, resolution);
    } else {
      assert r[k' + 1].tick > t;
      if k' + 1 < |table| {
        assert table[k' + 1].tick > t;
      }
      assert forall j :: 1 <= j <= k' ==> table[j].tick <= t;
      assert k' == k;
      assert r[k'] == table[k];
    }
  }

  /** Appending an entry at or after the last tick, at a positive tempo, keeps a
      table well-formed. */
  lemma PushKeepsWellFormed(table: seq<TempoEntry>, tick: int, bpm: real, resolution: int)
    requires WellFormed(table, resolution) && bpm > 0.0 && tick >= table[|table| - 1].tick
    ensures WellFormed(Pushed(table, tick, bpm, resolution), resolution)
  {
    var r := Pushed(table, tick, bpm, resolution);
    forall i | 1 <= i < |r|
      ensures EntryTimed(r, i, resolution)
    {
      assert i == |table| || EntryTimed(table, i, resolution);
      if i < |table| {
        assert r[..i] == table[..i];
      } else {
        assert r[..i] == table;
      }
    }
  }

  /** A file tempo at tick 0 supersedes the default 120 BPM entirely. */
  lemma TempoAtZeroSupersedesDefault(bpm: real, resolution: int, t: int)
    requires bpm > 0.0 && resolution > 0 && t >= 0
    ensures TickToMs(t, Pushed([DEFAULT_ENTRY], 0, bpm, resolution), resolution)
         == t as real * 60000.0 / (bpm * resolution as real)
  {
    var r := Pushed([DEFAULT_ENTRY], 0, bpm, resolution);
    assert r[1].timestamp == 0.0;
    assert PrevIndex(r, t) == 1;
  }
}
