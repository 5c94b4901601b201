/** Squares and move vectors of the board, as unbounded integer pairs. */
module Geometry {

  /** A square, or the difference of two squares. Nothing bounds the components:
      positions outside the 8x8 board are ordinary values. */
  datatype Position = Position(x: int, y: int)

  /** Component-wise sum: the square reached from `a` by the vector `b`. */
  function Add(a: Position, b: Position): Position
  {
    Position(a.x + b.x, a.y + b.y)
  }

  /** Component-wise difference: the vector that leads from `b` to `a`. */
  function Sub(a: Position, b: Position): Position
  {
    Position(a.x - b.x, a.y - b.y)
  }

  /** Subtracting the vector that was added gives the square back. */
  lemma AddThenSub(a: Position, b: Position)
    ensures Sub(Add(a, b), b) == a
  {
  }

  /** Adding back the vector that was subtracted gives the square back. */
  lemma SubThenAdd(a: Position, b: Position)
    ensures Add(Sub(a, b), b) == a
  {
  }

  /** Two positions are equal exactly when both components are. */
  lemma EqualIffComponents(a: Position, b: Position)
    ensures a == b <==> a.x == b.x && a.y == b.y
  {
  }

  function Abs(n: int): nat
  {
    if n < 0 then -n else n
  }

  /** The quotient `n / |n|` the sliding rules compute for a nonzero
      component, and 0 for a zero one. */
  function Sign(n: int): (r: int)
    ensures n != 0 ==> r * Abs(n) == n && (r == 1 || r == -1)
    ensures n == 0 ==> r == 0
  {
    if n > 0 then 1 else if n < 0 then -1 else 0
  }

  /** The square `i` steps from `start` along the direction `dir`. */
  function Ray(start: Position, dir: Position, i: int): Position
  {
    Add(start, Position(i * dir.x, i * dir.y))
  }

  /** Along a nonzero unit direction, distinct step counts give distinct squares. */
  lemma RayInjective(start: Position, dir: Position, i: int, j: int)
    requires -1 <= dir.x <= 1 && -1 <= dir.y <= 1 && dir != Position(0, 0)
    ensures Ray(start, dir, i) == Ray(start, dir, j) <==> i == j
  {
    if dir.x == 1 || dir.x == -1 {
      assert i * dir.x == j * dir.x <==> i == j;
    } else {
      assert dir.y == 1 || dir.y == -1;
      assert i * dir.y == j * dir.y <==> i == j;
    }
  }

  /** Walking `n` unit steps and then one step back leaves the walker `n - 1`
      steps along the ray. */
  lemma RayStepBack(start: Position, dir: Position, n: int)
    ensures Sub(Ray(start, dir, n), dir) == Ray(start, dir, n - 1)
  {
    assert (n - 1) * dir.x == n * dir.x - dir.x;
    assert (n - 1) * dir.y == n * dir.y - dir.y;
  }
}
