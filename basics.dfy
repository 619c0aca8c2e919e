/** Small value types and numeric helpers used throughout the racing-game model. */
module Basics {

  /** An optional result, as returned by a mask-overlap query (a point or nothing). */
  datatype Option<T> = None | Some(value: T)

  /** A pixel coordinate (x, y), as pygame passes points and mouse positions. */
  type Point = (int, int)

  /** Python's min of two numbers. */
  function Min(a: real, b: real): (r: real)
    ensures r <= a && r <= b
    ensures r == a || r == b
  {
    if b < a then b else a
  }

  /** Python's max of two numbers. */
  function Max(a: real, b: real): (r: real)
    ensures r >= a && r >= b
    ensures r == a || r == b
  {
    if b > a then b else a
  }

  /** Python's abs on a number. */
  function Abs(a: real): (r: real)
    ensures r >= 0.0
    ensures r == a || r == -a
  {
    if a < 0.0 then -a else a
  }

  /** Python's int() applied to a float: it truncates toward zero, which for a
      negative argument differs from Dafny's Floor. */
  function Trunc(r: real): (i: int)
    ensures 0.0 <= r ==> 0 <= i && i as real <= r < i as real + 1.0
    ensures r < 0.0 ==> i <= 0 && i as real - 1.0 < r <= i as real
  {
    if r >= 0.0 then r.Floor else -((-r).Floor)
  }
}
