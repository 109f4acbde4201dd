// internal/saturation: the composite score, over exact reals.
module Saturation {
  const TARGET_VALUE := 100.0

  function Max(a: real, b: real): real {
    if a < b then b else a
  }

  // A threshold of zero or less means the dimension does not limit scaling and contributes 0.
  function Ratio(reading: real, threshold: real): real {
    if threshold > 0.0 then reading / threshold else 0.0
  }

  function Score(queue: real, queueThreshold: real, kv: real, kvThreshold: real): real {
    Max(Ratio(queue, queueThreshold), Ratio(kv, kvThreshold)) * TARGET_VALUE
  }

  lemma RatioExceeds(reading: real, threshold: real, level: real)
    requires threshold > 0.0
    ensures Ratio(reading, threshold) > level <==> reading > level * threshold
  {
    assert reading == Ratio(reading, threshold) * threshold;
    var r := Ratio(reading, threshold);
    if r > level { MulMonotone(level, r, threshold); } else if r < level { MulMonotone(r, level, threshold); }
  }

  lemma MulMonotone(a: real, b: real, c: real)
    requires a < b && c > 0.0
    ensures a * c < b * c
  {
  }

  // The score exceeds any level, in percent, exactly when some limiting dimension exceeds that share of its
  // threshold; a dimension that does not limit counts as 0.
  lemma ScoreExceedsIff(queue: real, queueThreshold: real, kv: real, kvThreshold: real, level: real)
    ensures Score(queue, queueThreshold, kv, kvThreshold) > level * 100.0
       <==> (if queueThreshold > 0.0 then queue > level * queueThreshold else 0.0 > level)
            || (if kvThreshold > 0.0 then kv > level * kvThreshold else 0.0 > level)
  {
    if queueThreshold > 0.0 { RatioExceeds(queue, queueThreshold, level); }
    if kvThreshold > 0.0 { RatioExceeds(kv, kvThreshold, level); }
  }

  // Above target exactly when a limiting dimension is above its own threshold.
  lemma ScaleOutIff(queue: real, queueThreshold: real, kv: real, kvThreshold: real)
    ensures Score(queue, queueThreshold, kv, kvThreshold) > TARGET_VALUE
       <==> (queueThreshold > 0.0 && queue > queueThreshold) || (kvThreshold > 0.0 && kv > kvThreshold)
  {
    if queueThreshold > 0.0 { RatioExceeds(queue, queueThreshold, 1.0); }
    if kvThreshold > 0.0 { RatioExceeds(kv, kvThreshold, 1.0); }
  }

  lemma RatioMonotone(a: real, b: real, threshold: real)
    requires a <= b
    ensures Ratio(a, threshold) <= Ratio(b, threshold)
  {
    if threshold > 0.0 {
      RatioExceeds(a, threshold, Ratio(b, threshold));
      assert Ratio(b, threshold) * threshold == b;
    }
  }

  lemma ScoreMonotone(q1: real, q2: real, queueThreshold: real, k1: real, k2: real, kvThreshold: real)
    requires q1 <= q2 && k1 <= k2
    ensures Score(q1, queueThreshold, k1, kvThreshold) <= Score(q2, queueThreshold, k2, kvThreshold)
  {
    RatioMonotone(q1, q2, queueThreshold);
    RatioMonotone(k1, k2, kvThreshold);
  }

  // math.Round: to the nearest integer, halves away from zero.
  function Round(x: real): int {
    if x >= 0.0 then (x + 0.5).Floor else -((-x + 0.5).Floor)
  }

  // The integer metric KEDA reads stays within a half of the score and never scales out on its own.
  lemma RoundedMetricIsFaithful(score: real)
    ensures -0.5 <= Round(score) as real - score <= 0.5
    ensures Round(score) > 100 ==> score > TARGET_VALUE
    ensures Round(score) > 100 <==> score >= 100.5
    // Halves go away from zero.
    ensures Round(-score) == -Round(score)
    ensures score >= 0.0 && score == score.Floor as real + 0.5 ==> Round(score) == score.Floor + 1
  {
  }
}
