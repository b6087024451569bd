/**
 The integer helpers of the image-evolving genetic algorithm (src/utils.py):
 a random draw from a half-open range, a random vertex inside a canvas,
 clamping, and 2-D vector addition.

 The random source is not modelled as a generator: each draw is a
 nondeterministic choice, and the methods promise only what every draw of
 the source satisfies.
 */
module Utils {
  import opened Wrappers

  /** A 2-D integer vector or point `(x, y)`. */
  type Point = (int, int)

  /** The `ValueError` the random source raises when asked to draw from the
      empty half-open range [start, stop). */
  datatype RangeError = EmptyRange(start: int, stop: int)

  /**
   `randint(min, max)`: an integer in the half-open range [lo, hi). The source
   draws from the inclusive range [lo, hi - 1], which is empty, and raises,
   when hi <= lo.
   */
  method RandInt(lo: int, hi: int) returns (r: Result<int, RangeError>)
    ensures r.Success? <==> lo < hi
    ensures r.Success? ==> lo <= r.value < hi
    ensures r.Failure? ==> r.error == EmptyRange(lo, hi)
  {
    if hi - 1 < lo {
      return Failure(EmptyRange(lo, hi));
    }
    var v :| lo <= v <= hi - 1;
    return Success(v);
  }

  /**
   `rand_vertex(lims)`: a point inside the canvas [0, lims.0) x [0, lims.1).
   The x draw comes first, so a canvas with no columns reports its width
   and only a canvas with columns but no rows reports its height.
   */
  method RandVertex(lims: Point) returns (r: Result<Point, RangeError>)
    ensures r.Success? <==> lims.0 > 0 && lims.1 > 0
    ensures r.Success? ==> 0 <= r.value.0 < lims.0 && 0 <= r.value.1 < lims.1
    ensures r.Failure? ==> r.error == if lims.0 <= 0 then EmptyRange(0, lims.0) else EmptyRange(0, lims.1)
  {
    var x :- RandInt(0, lims.0);
    var y :- RandInt(0, lims.1);
    return Success((x, y));
  }

  /** Python's built-in `max` on two integers. */
  function Max(a: int, b: int): int {
    if a >= b then a else b
  }

  /** Python's built-in `min` on two integers. */
  function Min(a: int, b: int): int {
    if a <= b then a else b
  }

  /**
   `clamp(min_val, x, max_val)`, written `max(min_val, min(max_val, x))`.
   On a non-empty interval the result lies in it and an x already inside is
   returned unchanged; on an empty interval (lo > hi) the outer `max` wins
   and the result is always lo.
   */
  function Clamp(lo: int, x: int, hi: int): (r: int)
    ensures lo <= hi ==> lo <= r <= hi
    ensures lo <= x <= hi ==> r == x
    ensures hi < lo ==> r == lo
  {
    Max(lo, Min(hi, x))
  }

  /** The distance between two integers on the line. */
  function Dist(a: int, b: int): nat {
    if a <= b then b - a else a - b
  }

  /**
   An independent reading of clamping: on a non-empty interval the result is
   the point of [lo, hi] closest to x, and no other point of the interval is
   as close.
   */
  lemma ClampIsNearest(lo: int, x: int, hi: int, y: int)
    requires lo <= hi && lo <= y <= hi
    ensures Dist(Clamp(lo, x, hi), x) <= Dist(y, x)
    ensures Dist(Clamp(lo, x, hi), x) == Dist(y, x) ==> y == Clamp(lo, x, hi)
  {
  }

  /** Clamping a clamped value changes nothing. */
  lemma ClampIdempotent(lo: int, x: int, hi: int)
    ensures Clamp(lo, Clamp(lo, x, hi), hi) == Clamp(lo, x, hi)
  {
  }

  /** Clamping preserves the order of its inputs. */
  lemma ClampMonotone(lo: int, x: int, y: int, hi: int)
    requires x <= y
    ensures Clamp(lo, x, hi) <= Clamp(lo, y, hi)
  {
  }

  /** `sum_vec(v1, v2)`: componentwise addition; subtracting either summand
      from the sum, component by component, gives back the other. */
  function SumVec(v1: Point, v2: Point): (r: Point)
    ensures (r.0 - v1.0, r.1 - v1.1) == v2
    ensures (r.0 - v2.0, r.1 - v2.1) == v1
  {
    (v1.0 + v2.0, v1.1 + v2.1)
  }

  /** Vector addition is commutative. */
  lemma SumVecCommutative(v1: Point, v2: Point)
    ensures SumVec(v1, v2) == SumVec(v2, v1)
  {
  }

  /** Vector addition is associative. */
  lemma SumVecAssociative(u: Point, v: Point, w: Point)
    ensures SumVec(SumVec(u, v), w) == SumVec(u, SumVec(v, w))
  {
  }

  /** `(0, 0)` is the identity of vector addition, on either side. */
  lemma SumVecIdentity(v: Point)
    ensures SumVec(v, (0, 0)) == v && SumVec((0, 0), v) == v
  {
  }
}
