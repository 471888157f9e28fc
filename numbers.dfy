/** JavaScript numbers as the scholarship finder uses them.
    Arithmetic is exact (reals); NaN is kept because parseFloat produces it
    for an empty or non-numeric field and because an average over zero
    sentences is 0/0. */
module Numbers {

  /** A JavaScript number: NaN or a finite value. */
  datatype JsNumber = NaN | Num(value: real)
  {
    /** JavaScript truthiness: NaN and 0 are falsy, every other number is truthy. */
    predicate Truthy() {
      Num? && value != 0.0
    }

    /** `x > bound`; every comparison with NaN is false. */
    predicate Above(bound: real) {
      Num? && value > bound
    }

    /** `x < bound`; every comparison with NaN is false. */
    predicate Below(bound: real) {
      Num? && value < bound
    }
  }

  /** Math.round: the nearest integer, a half rounded up (towards +infinity). */
  function Round(x: real): (r: int)
    ensures x - 1.0 / 2.0 < r as real <= x + 1.0 / 2.0
  {
    (x + 1.0 / 2.0).Floor
  }

  /** The bounds of Round determine it: only one integer lies in (x - 1/2, x + 1/2]. */
  lemma RoundUnique(x: real, n: int)
    requires x - 1.0 / 2.0 < n as real <= x + 1.0 / 2.0
    ensures Round(x) == n
  {
  }

  /** Rounding an integer gives it back. */
  lemma RoundOfInteger(n: int)
    ensures Round(n as real) == n
  {
    RoundUnique(n as real, n);
  }

  /** Rounding never reverses the order of two numbers. */
  lemma RoundMonotone(x: real, y: real)
    requires x <= y
    ensures Round(x) <= Round(y)
  {
  }

  function MinReal(a: real, b: real): real {
    if a <= b then a else b
  }

  function MaxReal(a: real, b: real): real {
    if a >= b then a else b
  }
}
