/** The few p5.js calls (and JavaScript `Math` calls) whose results flow into sketch state.
    Each is written with the formula p5 documents for it; coordinates are `real`. */
module P5 {

  /** A 2D `p5.Vector`; the sketches only ever create vectors with `z = 0`. */
  datatype Vec = Vec(x: real, y: real)

  /** An optional value; `None` plays the role of JavaScript's `undefined`. */
  datatype Option<T> = None | Some(value: T)

  /** True when both coordinates lie in [0, 1), the range of `Math.random()`. */
  predicate InUnitSquare(v: Vec) {
    0.0 <= v.x < 1.0 && 0.0 <= v.y < 1.0
  }

  /** `Math.min(a, b)`. */
  function Min(a: real, b: real): (r: real)
    ensures r <= a && r <= b
    ensures r == a || r == b
  {
    if a <= b then a else b
  }

  /** `Math.max(a, b)`. */
  function Max(a: real, b: real): (r: real)
    ensures r >= a && r >= b
    ensures r == a || r == b
  {
    if a >= b then a else b
  }

  /** `p.constrain(n, low, high)`, which p5 computes as `Math.max(Math.min(n, high), low)`. */
  function Constrain(n: real, low: real, high: real): (r: real)
    ensures low <= high ==> low <= r <= high
    ensures low <= n <= high ==> r == n
    ensures n <= low ==> r == low
    ensures low <= high <= n ==> r == high
  {
    Max(Min(n, high), low)
  }

  /** `p.map(n, start1, stop1, start2, stop2)` without the bounds flag:
      the affine map sending `start1` to `start2` and `stop1` to `stop2`. */
  function Map(n: real, start1: real, stop1: real, start2: real, stop2: real): (r: real)
    requires start1 != stop1
    ensures n == start1 ==> r == start2
    ensures n == stop1 ==> r == stop2
  {
    var t := (n - start1) / (stop1 - start1);
    DivSelf(stop1 - start1);
    Scale(t, stop2 - start2) + start2
  }

  lemma DivSelf(d: real)
    requires d != 0.0
    ensures d / d == 1.0
  {
  }

  /** `p.random(min, max)` for a raw draw `u` of the underlying generator:
      p5 swaps the bounds when `min > max`, then returns `u * (max - min) + min`
      (written here with the swapped bounds as `lo` and `hi`). */
  function Random(u: real, min: real, max: real): (r: real)
    ensures 0.0 <= u < 1.0 && min < max ==> min <= r < max
    ensures 0.0 <= u < 1.0 && max < min ==> max <= r < min
  {
    var lo, hi := Min(min, max), Max(min, max);
    Scale(u, hi - lo) + lo
  }

  /** `u * width`; a draw in [0, 1) scaled by a positive width lands in [0, width). */
  function Scale(u: real, width: real): (r: real)
    ensures u == 0.0 ==> r == 0.0
    ensures u == 1.0 ==> r == width
    ensures 0.0 <= u < 1.0 && 0.0 < width ==> 0.0 <= r < width
  {
    if 0.0 <= u < 1.0 && 0.0 < width then
      assert (1.0 - u) * width > 0.0;
      u * width
    else
      u * width
  }

  /** `from.lerp(to, amt)` on a copy of `from`: each coordinate moves by `(to - from) * amt`. */
  function Lerp(from: Vec, to: Vec, amt: real): (r: Vec)
    ensures amt == 0.0 ==> r == from
    ensures amt == 1.0 ==> r == to
  {
    Vec(from.x + (to.x - from.x) * amt, from.y + (to.y - from.y) * amt)
  }
}
