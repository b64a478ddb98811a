/** Plane and space vectors over the reals, and the square-root oracle `mag` rests on. */
module Vectors {

  datatype Point = Point(x: real, y: real)
  {
    function Plus(o: Point): Point { Point(x + o.x, y + o.y) }

    function Minus(o: Point): Point { Point(x - o.x, y - o.y) }

    function Rotate(c: real, s: real): Point { Point(x * c - y * s, x * s + y * c) }

    function ToVector(): Vector { Vector(x, y, 0.0) }
  }

  datatype Vector = Vector(x: real, y: real, z: real)
  {
    function Plus(o: Vector): Vector { Vector(x + o.x, y + o.y, z + o.z) }

    function Minus(o: Vector): Vector { Vector(x - o.x, y - o.y, z - o.z) }

    function Times(k: real): Vector { Vector(x * k, y * k, z * k) }

    function Dot(o: Vector): real { x * o.x + y * o.y + z * o.z }

    function Cross(o: Vector): Vector {
      Vector(y * o.z - z * o.y, z * o.x - x * o.z, x * o.y - y * o.x)
    }

    function Rotate(c: real, s: real): Vector { Vector(x * c - y * s, x * s + y * c, z) }

    function ToPoint(): Point { Point(x, y) }
  }

  const ZERO: Vector := Vector(0.0, 0.0, 0.0)
  const UP: Vector := Vector(0.0, 0.0, 1.0)

  /** What every square root function promises whatever its accuracy: it is never negative
      and it vanishes exactly at zero (on non-negative arguments). */
  ghost predicate IsRoot(f: real -> real) {
    && (forall x: real :: 0.0 <= f(x))
    && (forall x: real :: 0.0 < x ==> 0.0 < f(x))
    && f(0.0) == 0.0
  }

  type Root = f: real -> real | IsRoot(f) ghost witness (x: real) => if x > 0.0 then 1.0 else 0.0

  /** The exact square root. */
  ghost predicate ExactRoot(f: real -> real) {
    forall x: real :: 0.0 <= x ==> f(x) * f(x) == x
  }

  function Mag(root: Root, v: Vector): real { root(v.Dot(v)) }

  /** `Vector::norm`; it throws on the null vector, so callers must have a nonzero one. */
  function Norm(root: Root, v: Vector): Vector
    requires Mag(root, v) != 0.0
  {
    var m := Mag(root, v);
    Vector(v.x / m, v.y / m, v.z / m)
  }

  function Abs(x: real): real { if x < 0.0 then -x else x }

  lemma Product(x: real, y: real) returns (p: real)
    requires 0.0 <= x && 0.0 <= y
    ensures p == x * y && 0.0 <= p
    ensures 0.0 < x && 0.0 < y ==> 0.0 < p
  {
    p := x * y;
  }

  lemma Square(x: real) returns (s: real)
    ensures s == x * x && 0.0 <= s
    ensures x != 0.0 ==> 0.0 < s
  {
    s := x * x;
    if x > 0.0 {
      s := Product(x, x);
    } else if x < 0.0 {
      s := Product(-x, -x);
    }
  }

  lemma DotPositive(v: Vector)
    requires v != ZERO
    ensures v.Dot(v) > 0.0
  {
    var a := Square(v.x);
    var b := Square(v.y);
    var c := Square(v.z);
    assert v.Dot(v) == a + b + c;
    assert v == Vector(v.x, v.y, v.z);
  }

  lemma RootPositive(root: Root, x: real)
    requires x > 0.0
    ensures root(x) > 0.0
  {
    assert IsRoot(root);
  }

  lemma MagPositive(root: Root, v: Vector)
    requires v != ZERO
    ensures Mag(root, v) > 0.0
  {
    DotPositive(v);
    RootPositive(root, v.Dot(v));
  }

  lemma MagZero(root: Root)
    ensures Mag(root, ZERO) == 0.0
  {
    assert ZERO.Dot(ZERO) == 0.0;
  }
}
