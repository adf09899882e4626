/** The immutable two-dimensional vector of game.js (class Vector). Coordinates are
    reals: every constant the game uses (0.2, 0.5, 0.8, ...) is a rational, so `real`
    holds them exactly. Being a datatype, a Vector is a value: `Plus` and `Times`
    return new vectors and never change an operand. */
module Vectors {

  datatype Vector = Vector(x: real, y: real) {

    /** `plus`: component-wise sum. The source's runtime check that the operand is a
        Vector is enforced here by the type of `other`. */
    function Plus(other: Vector): Vector {
      Vector(x + other.x, y + other.y)
    }

    /** `times`: both components scaled by `n`. */
    function Times(n: real): Vector {
      Vector(x * n, y * n)
    }
  }

  /** `new Vector()`: both coordinates default to zero. */
  const Zero := Vector(0.0, 0.0)

  /** Vector addition is associative and commutative, with `new Vector()` as identity. */
  lemma PlusIsCommutativeMonoid(a: Vector, b: Vector, c: Vector)
    ensures a.Plus(b).Plus(c) == a.Plus(b.Plus(c))
    ensures a.Plus(b) == b.Plus(a)
    ensures a.Plus(Zero) == a
  {
  }

  /** Scaling distributes over addition and composes multiplicatively; scaling by -1
      (a fireball's bounce) undoes itself, and scaling by 0 gives the zero vector. */
  lemma TimesIsLinear(a: Vector, b: Vector, m: real, n: real)
    ensures a.Plus(b).Times(n) == a.Times(n).Plus(b.Times(n))
    ensures a.Times(m).Times(n) == a.Times(m * n)
    ensures a.Times(1.0) == a
    ensures a.Times(-1.0).Times(-1.0) == a
    ensures a.Times(0.0) == Zero
  {
  }
}
