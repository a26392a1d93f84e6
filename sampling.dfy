/** The candidate values the size samplers compute from one draw, and what bounds them.
    Doubles are modelled as reals. Math.log occurs only as Math.log(1 - u) for a draw u,
    so the model takes that composition as one function `logOneMinus` of the draw, which
    obeys LogLaws. */
module Sampling {

  /** What the samplers need of u |-> Math.log(1 - u) on draws u in [0, 1): log(1) = 0
      gives 0 at u = 0, and log(x) < 0 for 0 < x < 1 gives a negative value for 0 < u < 1. */
  ghost predicate LogLaws(logOneMinus: real -> real) {
    logOneMinus(0.0) == 0.0 && forall u :: 0.0 < u < 1.0 ==> logOneMinus(u) < 0.0
  }

  /** The exit test of every rejection loop: a candidate is kept unless
      value < min || value > max. */
  predicate InRange(value: real, min: real, max: real) {
    !(value < min || value > max)
  }

  /** getUniformRandom: min + (max - min) * u. */
  function UniformValue(min: real, max: real, u: real): real {
    min + (max - min) * u
  }

  /** One candidate of getNormalRandom: mean (max + min) / 2 plus z standard deviations
      of (max - min) / 6. */
  function NormalValue(min: real, max: real, z: real): real {
    (max + min) / 2.0 + z * ((max - min) / 6.0)
  }

  /** One candidate of getLeftExponentialRandom as the source computes it:
      max - log(1 - u) / lambda, with the rate lambda fixed at 1.0. */
  function LeftValueAsWritten(max: real, u: real, logOneMinus: real -> real): real {
    max - logOneMinus(u)
  }

  /** The left-skewed candidate the source evidently intends: max + log(1 - u) / lambda
      (lambda = 1.0), the upper bound minus an exponential draw. */
  function LeftValue(max: real, u: real, logOneMinus: real -> real): real {
    max + logOneMinus(u)
  }

  /** One candidate of getRightExponentialRandom: min + log(1 - u) / (-lambda)
      (lambda = 1.0), the lower bound plus an exponential draw. */
  function RightValue(min: real, u: real, logOneMinus: real -> real): real {
    min - logOneMinus(u)
  }

  /** log(1 - u) is 0 for u = 0 and negative for every other draw. */
  lemma LogOfComplement(u: real, logOneMinus: real -> real)
    requires LogLaws(logOneMinus) && 0.0 <= u < 1.0
    ensures logOneMinus(u) <= 0.0
    ensures logOneMinus(u) == 0.0 <==> u == 0.0
  {
  }

  /** The real product as a function application: facts proved about Product(w, u) for
      plain variables carry over unchanged to a compound factor such as max - min. */
  function Product(a: real, b: real): real {
    a * b
  }

  /** A positive width scaled by a draw in [0, 1) stays in [0, width). */
  lemma ScaledDrawBelowWidth(width: real, u: real)
    requires width > 0.0 && 0.0 <= u < 1.0
    ensures 0.0 <= Product(width, u)
    ensures Product(width, u) < width
  {
    assert width * u < width;
  }

  /** A positive width scaled by u is zero only for u = 0. */
  lemma ScaledDrawZero(width: real, u: real)
    requires width > 0.0
    ensures Product(width, u) == 0.0 <==> u == 0.0
  {
    if u != 0.0 {
      assert width * u != 0.0;
    }
  }

  /** A uniform value drawn with u in [0, 1) lies in [min, max) when min < max, and only
      u = 0 gives min itself. */
  lemma UniformInRange(min: real, max: real, u: real)
    requires min < max && 0.0 <= u < 1.0
    ensures min <= UniformValue(min, max, u) < max
    ensures UniformValue(min, max, u) == min <==> u == 0.0
  {
    ScaledDrawBelowWidth(max - min, u);
    ScaledDrawZero(max - min, u);
    assert Product(max - min, u) == (max - min) * u;
  }

  /** Every normal candidate within three standard deviations of the mean lies in
      [min, max]: the design reason for a standard deviation of (max - min) / 6. */
  lemma NormalWithinThreeSigma(min: real, max: real, z: real)
    requires min <= max && -3.0 <= z <= 3.0
    ensures InRange(NormalValue(min, max, z), min, max)
  {
    var width := max - min;
    assert (z + 3.0) * width >= 0.0;
    assert (3.0 - z) * width >= 0.0;
  }

  /** Every right-exponential candidate is at least min, and equals min only for u = 0. */
  lemma RightValueAtLeastMin(min: real, u: real, logOneMinus: real -> real)
    requires LogLaws(logOneMinus) && 0.0 <= u < 1.0
    ensures RightValue(min, u, logOneMinus) >= min
    ensures RightValue(min, u, logOneMinus) == min <==> u == 0.0
  {
    LogOfComplement(u, logOneMinus);
  }

  /** As written, every left-exponential candidate is at least max, and equals max only
      for u = 0. */
  lemma LeftValueAsWrittenAtLeastMax(max: real, u: real, logOneMinus: real -> real)
    requires LogLaws(logOneMinus) && 0.0 <= u < 1.0
    ensures LeftValueAsWritten(max, u, logOneMinus) >= max
    ensures LeftValueAsWritten(max, u, logOneMinus) == max <==> u == 0.0
  {
    LogOfComplement(u, logOneMinus);
  }

  /** As written, the left-exponential loop accepts a candidate only when it is max
      itself, which takes a draw of exactly 0; with min <= max that draw is accepted. */
  lemma LeftValueAsWrittenAccepted(min: real, max: real, u: real, logOneMinus: real -> real)
    requires LogLaws(logOneMinus) && 0.0 <= u < 1.0 && min <= max
    ensures InRange(LeftValueAsWritten(max, u, logOneMinus), min, max) <==> u == 0.0
    ensures InRange(LeftValueAsWritten(max, u, logOneMinus), min, max) ==> LeftValueAsWritten(max, u, logOneMinus) == max
  {
    LeftValueAsWrittenAtLeastMax(max, u, logOneMinus);
  }

  /** Corrected, every left-exponential candidate is at most max, and strictly below it
      for every draw but 0, so values under max can be accepted. */
  lemma LeftValueAtMostMax(max: real, u: real, logOneMinus: real -> real)
    requires LogLaws(logOneMinus) && 0.0 <= u < 1.0
    ensures LeftValue(max, u, logOneMinus) <= max
    ensures LeftValue(max, u, logOneMinus) == max <==> u == 0.0
  {
    LogOfComplement(u, logOneMinus);
  }
}
