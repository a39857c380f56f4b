/**
 * The bounded random source behind the brick boost. Its generator is not part
 * of this model: a draw is any integer of the source's closed interval.
 */
module Randomness {

  class BoostSource {
    const lo: int
    const hi: int

    /** The interval is not empty. */
    predicate Valid()
    {
      lo <= hi
    }

    constructor (lo: int, hi: int)
      requires lo <= hi
      ensures Valid() && this.lo == lo && this.hi == hi
    {
      this.lo, this.hi := lo, hi;
    }

    /** One draw from `[lo, hi]`. */
    method Next() returns (v: int)
      requires Valid()
      ensures lo <= v <= hi
    {
      v :| lo <= v <= hi;
    }
  }
}
