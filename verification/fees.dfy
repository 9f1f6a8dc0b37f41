/**
 * The minimum call-out fee shared by the lane and epoxy quotes: a positive
 * subtotal is never quoted below the minimum, and an empty job costs nothing.
 */
module Fees {

  /** A quoted total together with whether the minimum replaced the subtotal. */
  datatype Floored = Floored(total: real, minimumApplied: bool)

  /** `Math.max`: the least value that is at least both arguments. */
  function Max(a: real, b: real): (m: real)
    ensures m >= a && m >= b
    ensures m == a || m == b
  {
    if a >= b then a else b
  }

  /** Applies the minimum fee `minFee` to `subtotal`. */
  function ApplyMinimum(subtotal: real, minFee: real): (f: Floored)
    ensures subtotal <= 0.0 ==> f.total == 0.0 && !f.minimumApplied
    ensures subtotal > 0.0 ==> f.total >= subtotal && f.total >= minFee
    ensures subtotal > 0.0 ==> f.total == subtotal || f.total == minFee
    ensures f.minimumApplied <==> 0.0 < subtotal < minFee
    ensures f.minimumApplied ==> f.total == minFee
    ensures subtotal > 0.0 && subtotal >= minFee ==> f.total == subtotal
  {
    Floored(if subtotal > 0.0 then Max(subtotal, minFee) else 0.0,
            subtotal < minFee && subtotal > 0.0)
  }

  /** Flooring an already floored total changes nothing. */
  lemma ApplyMinimumIdempotent(subtotal: real, minFee: real)
    ensures ApplyMinimum(ApplyMinimum(subtotal, minFee).total, minFee).total
            == ApplyMinimum(subtotal, minFee).total
  {
  }

  /** With a non-negative minimum, a larger subtotal never yields a smaller total. */
  lemma ApplyMinimumMonotone(s1: real, s2: real, minFee: real)
    requires minFee >= 0.0
    requires s1 <= s2
    ensures ApplyMinimum(s1, minFee).total <= ApplyMinimum(s2, minFee).total
  {
  }
}
