/** The per-mob configuration record. */
module Configs {

  /** MobConfig: the minimum and maximum scale of one mob type and the name of the
      distribution to sample from. It is a value: set once by the constructor, read by
      its three getters, never changed. The constructor checks nothing, so an inverted
      range (min > max) and an unrecognised distribution name are both representable. */
  datatype MobConfig = MobConfig(min: real, max: real, distribution: string) {

    /** getMin */
    function GetMin(): real { min }

    /** getMax */
    function GetMax(): real { max }

    /** getDistribution: the name exactly as configured, not normalised. */
    function GetDistribution(): string { distribution }
  }

  /** The getters give back the constructor's arguments for every argument, including
      min > max and any distribution string. */
  lemma GettersReturnConstructorArguments(min: real, max: real, distribution: string)
    ensures MobConfig(min, max, distribution).GetMin() == min
    ensures MobConfig(min, max, distribution).GetMax() == max
    ensures MobConfig(min, max, distribution).GetDistribution() == distribution
  {
  }
}
