/**
 * PredictionRange: a closed interval of prices, widened by a tolerance when it
 * is built.  Bounds are exact reals; the source's floating point is not modelled.
 */
module Ranges {

  datatype Range = Range(min: real, max: real)

  /** Placeholder for an array slot the source leaves unset (never read). */
  const UNSET: Range := Range(0.0, 0.0)

  /** isPredictionAcceptable: the observed price lies in the range. */
  predicate Accepts(r: Range, v: int)
  {
    r.min <= v as real <= r.max
  }

  /** `inner` is a sub-interval of `outer`. */
  predicate Within(inner: Range, outer: Range)
  {
    outer.min <= inner.min && inner.max <= outer.max
  }

  /** The PredictionRange constructor: `[lo - tol, hi + tol]`. */
  function Widened(lo: real, hi: real, tol: int): (r: Range)
    ensures tol >= 0 ==> forall v: int :: lo <= v as real <= hi ==> Accepts(r, v)
    ensures tol == 0 ==> r == Range(lo, hi)
    ensures r.max - r.min == (hi - lo) + 2.0 * tol as real
  {
    Range(lo - tol as real, hi + tol as real)
  }

  /** A range holding one observed price, built with zero tolerance. */
  function Point(v: int): (r: Range)
    ensures forall w: int :: Accepts(r, w) <==> w == v
  {
    Widened(v as real, v as real, 0)
  }

  /** Adds an offset interval to both bounds (`min += lo; max += hi`). */
  function Offset(r: Range, lo: real, hi: real): Range
  {
    Range(r.min + lo, r.max + hi)
  }

  function Min(a: real, b: real): real { if a <= b then a else b }
  function Max(a: real, b: real): real { if a >= b then a else b }

  /** Slot-wise union of two branches: `min(a.min, b.min)`, `max(a.max, b.max)`. */
  function Hull(a: Range, b: Range): (r: Range)
    ensures Within(a, r) && Within(b, r)
    ensures r.min == a.min || r.min == b.min
    ensures r.max == a.max || r.max == b.max
    ensures forall v: int :: Accepts(a, v) || Accepts(b, v) ==> Accepts(r, v)
  {
    Range(Min(a.min, b.min), Max(a.max, b.max))
  }

  /** Backward narrowing: `[max(r.min, b.min), min(r.max, b.max)]`. */
  function Narrow(r: Range, b: Range): (n: Range)
    ensures Within(n, r)
    ensures forall v: int :: Accepts(n, v) <==> Accepts(r, v) && Accepts(b, v)
  {
    Range(Max(r.min, b.min), Min(r.max, b.max))
  }

  /** The final flooring step: a price is at least 1. */
  function FloorAtOne(r: Range): (f: Range)
    ensures f.max == r.max && f.min >= 1.0 && f.min >= r.min
    ensures forall v: int :: Accepts(f, v) <==> v >= 1 && Accepts(r, v)
  {
    r.(min := Max(1.0, r.min))
  }

  lemma WithinTransitive(a: Range, b: Range, c: Range)
    requires Within(a, b) && Within(b, c)
    ensures Within(a, c)
  {
  }

  /** The tolerance example: (100, 110) with tolerance 5 is (95, 115). */
  lemma ToleranceExample()
    ensures Widened(100.0, 110.0, 5) == Range(95.0, 115.0)
  {
  }
}
