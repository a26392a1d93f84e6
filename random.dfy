/** The plugin's java.util.Random, seen only through the values it hands out. */
module Randomness {

  /** A random source whose k-th draw (counting from 0, over nextDouble and
      nextGaussian together) is doubles(k) when it is a nextDouble call and
      gaussians(k) when it is a nextGaussian call. `calls` is the number of draws made
      so far: every call advances it by exactly one. */
  class Random {
    const doubles: nat -> real
    const gaussians: nat -> real
    var calls: nat

    /** nextDouble's range: every draw lies in [0, 1). nextGaussian may return any real. */
    ghost predicate Valid() {
      forall k :: 0.0 <= doubles(k) < 1.0
    }

    constructor (doubles: nat -> real, gaussians: nat -> real)
      ensures this.doubles == doubles && this.gaussians == gaussians
      ensures calls == 0
    {
      this.doubles := doubles;
      this.gaussians := gaussians;
      calls := 0;
    }

    /** nextDouble: one draw, in [0, 1) when the source is valid. */
    method NextDouble() returns (u: real)
      modifies this`calls
      ensures calls == old(calls) + 1
      ensures u == doubles(old(calls))
      ensures Valid() ==> 0.0 <= u < 1.0
    {
      u := doubles(calls);
      calls := calls + 1;
    }

    /** nextGaussian: one draw of a standard normal value. */
    method NextGaussian() returns (z: real)
      modifies this`calls
      ensures calls == old(calls) + 1
      ensures z == gaussians(old(calls))
    {
      z := gaussians(calls);
      calls := calls + 1;
    }
  }
}
