/** The star row shown for a product score out of 100. */
module Stars {
  import opened Common

  /** `Math.max(1, Math.min(score, 100))`. */
  function ValidScore(score: real): (v: real)
    ensures 1.0 <= v <= 100.0
    ensures 1.0 <= score <= 100.0 ==> v == score
    ensures score < 1.0 ==> v == 1.0
    ensures score > 100.0 ==> v == 100.0
  {
    var m := if score < 100.0 then score else 100.0;
    if 1.0 > m then 1.0 else m
  }

  /** `Math.ceil(validScore / 20)`. */
  function FilledCount(score: real): (n: int)
    ensures 1 <= n <= 5
  {
    Ceil(ValidScore(score) / 20.0)
  }

  /** Five stars, the first `FilledCount(score)` of them filled. */
  function StarRow(score: real): (stars: seq<bool>)
    ensures |stars| == 5
    ensures forall i :: 0 <= i < 5 ==> (stars[i] <==> i < FilledCount(score))
  {
    seq(5, index => index < FilledCount(score))
  }

  /** The filled stars come first, and there are `FilledCount(score)` of
      them, at least one. */
  lemma StarRowPrefix(score: real)
    ensures forall i, j :: 0 <= i < j < 5 && StarRow(score)[j] ==> StarRow(score)[i]
    ensures StarRow(score)[0]
    ensures StarRow(score)[..FilledCount(score)] == seq(FilledCount(score), _ => true)
    ensures StarRow(score)[FilledCount(score)..] == seq(5 - FilledCount(score), _ => false)
  {
  }

  /** A higher score never shows fewer stars. */
  lemma FilledCountMonotone(a: real, b: real)
    requires a <= b
    ensures FilledCount(a) <= FilledCount(b)
  {
    var va := ValidScore(a);
    var vb := ValidScore(b);
    assert va <= vb;
  }

  /** The band boundaries: 20 or less is one star, above 80 is five, and
      each further 20 points adds a star. */
  lemma FilledCountBands(score: real)
    ensures score <= 20.0 ==> FilledCount(score) == 1
    ensures score > 80.0 ==> FilledCount(score) == 5
    ensures 20.0 * (FilledCount(score) - 1) as real < ValidScore(score) <= 20.0 * FilledCount(score) as real
  {
  }
}
