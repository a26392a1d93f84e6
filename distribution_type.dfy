/** The distribution names of a mob's configuration and how they are resolved. */
module Distributions {
  import opened Text

  /** The kinds the size sampler dispatches on. The enum declaration lists only the
      first three; RightExponential is the constant the sampler's dispatch names as
      well, and FromString never produces it. */
  datatype DistributionType = Uniform | Normal | LeftExponential | RightExponential

  /** DistributionType.fromString: lower-case the name, then recognise "normal" and
      "leftexponential"; every other name falls back to Uniform. */
  function FromString(str: string): (d: DistributionType)
    ensures d == Uniform || d == Normal || d == LeftExponential
  {
    var lower := Lower(str);
    if lower == "normal" then Normal
    else if lower == "leftexponential" then LeftExponential
    else Uniform
  }

  /** "normal", in any letter case, and nothing else resolves to Normal. */
  lemma FromStringNormal(str: string)
    ensures FromString(str) == Normal <==> EqualsIgnoreCase(str, "normal")
  {
    EqualsIgnoreCaseIffSameLower(str, "normal");
    assert Lower("normal") == "normal";
  }

  /** "leftexponential", in any letter case, and nothing else resolves to LeftExponential. */
  lemma FromStringLeftExponential(str: string)
    ensures FromString(str) == LeftExponential <==> EqualsIgnoreCase(str, "leftexponential")
  {
    EqualsIgnoreCaseIffSameLower(str, "leftexponential");
    assert Lower("leftexponential") == "leftexponential";
  }

  /** Every other name, including the empty one, falls back to Uniform. */
  lemma FromStringFallback(str: string)
    ensures FromString(str) == Uniform <==>
              !EqualsIgnoreCase(str, "normal") && !EqualsIgnoreCase(str, "leftexponential")
  {
    FromStringNormal(str);
    FromStringLeftExponential(str);
  }

  /** Resolution ignores letter case: names equal ignoring case resolve alike, and in
      particular a name resolves like its lower-cased form. */
  lemma FromStringIgnoresCase(s: string, t: string)
    ensures EqualsIgnoreCase(s, t) ==> FromString(s) == FromString(t)
    ensures FromString(Lower(s)) == FromString(s)
  {
    EqualsIgnoreCaseIffSameLower(s, t);
    LowerIdempotent(s);
  }

  /** The recognised names, in the letter cases a user may write. */
  lemma FromStringExamples()
    ensures FromString("Normal") == Normal
    ensures FromString("LEFTEXPONENTIAL") == LeftExponential
  {
    assert Lower("Normal") == "normal";
    assert Lower("LEFTEXPONENTIAL") == "leftexponential";
  }

  /** Names that fall back to Uniform, among them every spelling of "rightexponential". */
  lemma FromStringFallbackExamples()
    ensures FromString("") == Uniform
    ensures FromString("uniform") == Uniform
    ensures FromString("rightexponential") == Uniform
    ensures FromString("RightExponential") == Uniform
  {
    assert Lower("rightexponential") == "rightexponential";
    assert Lower("RightExponential") == "rightexponential";
  }
}
