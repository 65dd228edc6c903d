/** components/guitar-hero/utils/scoring.ts: the end-of-song accuracy percentage and
    star rating. Perfect hits weigh 1, great 0.7, good 0.4 and misses 0. */
module Scoring {
  import opened Types
  import opened JsMath

  function Total(stats: AccuracyStats): nat {
    stats.perfect + stats.great + stats.good + stats.missed
  }

  /** The weighted hit count. */
  function Weighted(stats: AccuracyStats): real {
    stats.perfect as real * 1.0 + stats.great as real * 0.7 + stats.good as real * 0.4
  }

  /** calculateAccuracy, in exact arithmetic. */
  function CalculateAccuracy(stats: AccuracyStats): (r: int)
    ensures Total(stats) == 0 ==> r == 0
    ensures 0 <= r <= 100
  {
    var total := Total(stats);
    if total == 0 then 0
    else
      var ratio := Weighted(stats) / total as real;
      RatioBounds(Weighted(stats), total as real);
      RoundPercent(ratio);
      Round(ratio * 100.0)
  }

  lemma RatioBounds(w: real, t: real)
    requires 0.0 <= w <= t && t > 0.0
    ensures 0.0 <= w / t <= 1.0
  {
  }

  lemma RoundPercent(ratio: real)
    requires 0.0 <= ratio <= 1.0
    ensures 0 <= Round(ratio * 100.0) <= 100
  {
  }

  /** With judged notes, accuracy is the rounded weighted share of them. */
  lemma AccuracyFormula(stats: AccuracyStats)
    requires Total(stats) > 0
    ensures var x := (stats.perfect as real + 0.7 * stats.great as real + 0.4 * stats.good as real)
                     / Total(stats) as real * 100.0;
      x - 0.5 < CalculateAccuracy(stats) as real <= x + 0.5
  {
  }

  /** A song of only perfect hits scores 100: five stars. */
  lemma AllPerfect(stats: AccuracyStats)
    requires stats.perfect > 0 && stats.great == 0 && stats.good == 0 && stats.missed == 0
    ensures CalculateAccuracy(stats) == 100
    ensures GetRating(stats) == Rating(5, "PERFECT!")
  {
    assert Weighted(stats) / Total(stats) as real == 1.0;
  }

  /** A song of only misses scores 0: one star. */
  lemma AllMissed(stats: AccuracyStats)
    requires stats.perfect == 0 && stats.great == 0 && stats.good == 0
    ensures CalculateAccuracy(stats) == 0
    ensures GetRating(stats) == Rating(1, "PASSED")
  {
  }

  datatype Rating = Rating(stars: nat, text: string)

  function RatingFor(accuracy: int): Rating {
    if accuracy >= 95 then Rating(5, "PERFECT!")
    else if accuracy >= 85 then Rating(4, "AMAZING!")
    else if accuracy >= 75 then Rating(3, "GREAT!")
    else if accuracy >= 60 then Rating(2, "GOOD")
    else Rating(1, "PASSED")
  }

  /** getRating. */
  function GetRating(stats: AccuracyStats): Rating {
    RatingFor(CalculateAccuracy(stats))
  }

  /** One to five stars, more for higher accuracy. */
  lemma RatingMonotone(a: int, b: int)
    requires a <= b
    ensures 1 <= RatingFor(a).stars <= RatingFor(b).stars <= 5
  {
  }

  /** The star count is the number of thresholds 60, 75, 85, 95 reached, plus one. */
  lemma StarsCountThresholds(a: int)
    ensures RatingFor(a).stars
         == 1 + (if a >= 60 then 1 else 0) + (if a >= 75 then 1 else 0)
              + (if a >= 85 then 1 else 0) + (if a >= 95 then 1 else 0)
  {
  }
}
