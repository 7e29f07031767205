/** Shared vocabulary: an optional value and the JavaScript Math helpers the engine uses on money. */
module Base {

  /** A value that may be absent (JavaScript `null`, a missing field, or a thrown lookup error). */
  datatype Option<+T> = None | Some(value: T)

  /** Math.min on two amounts. */
  function Min(a: real, b: real): (r: real)
    ensures r <= a && r <= b
    ensures r == a || r == b
  {
    if a <= b then a else b
  }

  /** Math.max on two amounts. */
  function Max(a: real, b: real): (r: real)
    ensures r >= a && r >= b
    ensures r == a || r == b
  {
    if a >= b then a else b
  }

  /** Math.abs. */
  function Abs(x: real): (r: real)
    ensures r >= 0.0
    ensures r == x || r == -x
  {
    if x >= 0.0 then x else -x
  }

  /** Math.round: the nearest integer, with halves going up (toward +infinity). */
  function Round(x: real): (r: int)
    ensures r as real - 0.5 <= x < r as real + 0.5
  {
    (x + 0.5).Floor
  }

  /** Rounding never reverses the order of two amounts. */
  lemma RoundMonotone(x: real, y: real)
    requires x <= y
    ensures Round(x) <= Round(y)
  {
  }

  /** Whole amounts are left as they are. */
  lemma RoundWhole(n: int)
    ensures Round(n as real) == n
  {
  }
}
