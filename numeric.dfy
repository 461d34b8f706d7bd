/**
  Numeric helpers shared by the scene logic: the JavaScript `Math.abs`,
  `Math.min`, `Math.max` and the clamp idiom `Math.min(Math.max(x, lo), hi)`
  over Dafny `real`, a 3-vector, an `Option` for nullable and optional fields,
  and range predicates standing in for `Math.sin`, `Math.cos` and
  `Math.random`, which the model takes as inputs.
*/
module Numeric {

  /** A nullable or optional value (`T | null`, `T | undefined`). */
  datatype Option<+T> = None | Some(value: T) {
    function GetOr(default: T): T {
      if Some? then value else default
    }
  }

  /** pi as a positive constant; only its position between 3.14 and 3.15 is ever used. */
  const Pi: real := 3.141592653589793
  const TwoPi: real := 2.0 * Pi

  function Abs(x: real): (r: real)
    ensures r >= 0.0
    ensures r == x || r == -x
  {
    if x < 0.0 then -x else x
  }

  function Min(a: real, b: real): (r: real)
    ensures r <= a && r <= b
    ensures r == a || r == b
  {
    if a <= b then a else b
  }

  function Max(a: real, b: real): (r: real)
    ensures r >= a && r >= b
    ensures r == a || r == b
  {
    if a >= b then a else b
  }

  /** `Math.min(Math.max(x, lo), hi)`, the clamp written throughout the dioramas. */
  function Clamp(x: real, lo: real, hi: real): (r: real)
    ensures lo <= hi ==> lo <= r <= hi
    ensures lo <= x <= hi ==> r == x
    ensures x <= lo && lo <= hi ==> r == lo
    ensures hi <= x && lo <= hi ==> r == hi
  {
    Min(Max(x, lo), hi)
  }

  lemma ClampMonotone(x: real, y: real, lo: real, hi: real)
    requires x <= y
    ensures Clamp(x, lo, hi) <= Clamp(y, lo, hi)
  {
  }

  /** A point or direction in scene space (`THREE.Vector3`, `[number, number, number]`). */
  datatype Vec3 = Vec3(x: real, y: real, z: real) {
    function Add(v: Vec3): Vec3 {
      Vec3(x + v.x, y + v.y, z + v.z)
    }
    function LengthSq(): real {
      x * x + y * y + z * z
    }
  }

  /** What the model assumes of `Math.sin` and `Math.cos`. */
  ghost predicate UnitBounded(f: real -> real) {
    forall t :: -1.0 <= f(t) <= 1.0
  }

  /** What the model assumes of each `Math.random()` draw. */
  predicate IsDraw(r: real) {
    0.0 <= r < 1.0
  }

  predicate AllDraws(rs: seq<real>) {
    forall i :: 0 <= i < |rs| ==> IsDraw(rs[i])
  }

  /** `(Math.random() - 0.5) * width` lies in [-width/2, width/2) for a non-negative width. */
  lemma CentredDrawBounds(r: real, width: real)
    requires IsDraw(r) && width >= 0.0
    ensures -width / 2.0 <= (r - 0.5) * width <= width / 2.0
    ensures width > 0.0 ==> (r - 0.5) * width < width / 2.0
  {
    assert (r - 0.5) * width == r * width - width / 2.0;
    assert 0.0 <= r * width;
    assert r * width <= 1.0 * width by {
      assert (1.0 - r) * width >= 0.0;
    }
    if width > 0.0 {
      assert r * width < width by {
        assert (1.0 - r) * width > 0.0;
      }
    }
  }

  /** `Math.random() * width` lies in [0, width) for a positive width. */
  lemma ScaledDrawBounds(r: real, width: real)
    requires IsDraw(r) && width >= 0.0
    ensures 0.0 <= r * width <= width
    ensures width > 0.0 ==> r * width < width
  {
    assert (1.0 - r) * width >= 0.0;
    if width > 0.0 {
      assert (1.0 - r) * width > 0.0;
    }
  }

  lemma MulNonNegative(a: real, b: real)
    requires a >= 0.0 && b >= 0.0
    ensures a * b >= 0.0
  {
  }

  /** Multiplying by a non-negative factor keeps an order. */
  lemma MulMonotone(k: real, a: real, b: real)
    requires k >= 0.0 && a <= b
    ensures k * a <= k * b
  {
    MulNonNegative(k, b - a);
    assert k * b - k * a == k * (b - a);
  }

  /** A product with a factor in [-1, 1] is bounded by the other factor's magnitude. */
  lemma UnitProductBound(s: real, k: real)
    requires -1.0 <= s <= 1.0 && k >= 0.0
    ensures -k <= s * k <= k
  {
    assert (1.0 - s) * k >= 0.0;
    assert (1.0 + s) * k >= 0.0;
  }
}
