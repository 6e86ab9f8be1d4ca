/**
 * Headings of the turtle, in whole degrees.
 *
 * `setHeading` stores `degrees % 360` with JavaScript's `%`, whose quotient
 * is truncated toward zero: the remainder keeps the sign of the dividend, so
 * a negative request leaves a negative heading in (-360, 0]. Dafny's own `%`
 * is Euclidean and never negative, so the truncated remainder is written
 * out here, twice: as the expression JavaScript evaluates, and as taking
 * full turns off toward zero until less than a turn is left.
 */
module Angles {

  /** Degrees in a full turn: the divisor of every heading normalisation. */
  const FullTurn: int := 360

  /** Two angles that name the same direction. */
  predicate Congruent(a: int, b: int)
  {
    (a - b) % FullTurn == 0
  }

  /** `degrees % 360` as JavaScript evaluates it, from Dafny's Euclidean `%`. */
  function JsRemainder(degrees: int): (r: int)
    ensures -FullTurn < r < FullTurn
    ensures degrees >= 0 ==> r >= 0
    ensures degrees <= 0 ==> r <= 0
    ensures Congruent(r, degrees)
  {
    if degrees >= 0 then degrees % FullTurn else -((-degrees) % FullTurn)
  }

  /** The heading `setHeading(degrees)` stores: full turns taken off toward zero. */
  function Normalize(degrees: int): (r: int)
    ensures -FullTurn < r < FullTurn
    ensures degrees >= 0 ==> r >= 0
    ensures degrees <= 0 ==> r <= 0
    decreases if degrees >= 0 then degrees else -degrees
  {
    if degrees >= FullTurn then Normalize(degrees - FullTurn)
    else if degrees <= -FullTurn then Normalize(degrees + FullTurn)
    else degrees
  }

  /**
   * The stored heading is below a full turn in magnitude, has the sign of
   * the request (or is 0), and names the same direction.
   */
  lemma {:induction false} NormalizeProperties(degrees: int)
    ensures -FullTurn < Normalize(degrees) < FullTurn
    ensures degrees > 0 ==> Normalize(degrees) >= 0
    ensures degrees < 0 ==> Normalize(degrees) <= 0
    ensures Congruent(Normalize(degrees), degrees)
    decreases if degrees >= 0 then degrees else -degrees
  {
    if degrees >= FullTurn {
      NormalizeProperties(degrees - FullTurn);
    } else if degrees <= -FullTurn {
      NormalizeProperties(degrees + FullTurn);
    }
  }

  /** Taking off full turns computes exactly JavaScript's `%`. */
  lemma {:induction false} NormalizeIsJsRemainder(degrees: int)
    ensures Normalize(degrees) == JsRemainder(degrees)
  {
    NormalizeProperties(degrees);
    NormalizeCharacterized(degrees, JsRemainder(degrees));
  }

  /**
   * The properties of `NormalizeProperties` determine the heading: it is the
   * only value below a full turn in magnitude, of the request's sign and
   * naming the same direction.
   */
  lemma {:induction false} NormalizeCharacterized(degrees: int, h: int)
    ensures h == Normalize(degrees) <==>
              (-FullTurn < h < FullTurn && (degrees > 0 ==> h >= 0) && (degrees < 0 ==> h <= 0)
               && Congruent(h, degrees))
  {
    NormalizeProperties(degrees);
    if -FullTurn < h < FullTurn && (degrees > 0 ==> h >= 0) && (degrees < 0 ==> h <= 0)
       && Congruent(h, degrees) {
      var t := Normalize(degrees);
      assert Congruent(h, t);
      SmallCongruentEqual(h, t);
    }
  }

  /** Two angles below a full turn in magnitude, of one sign and congruent, are equal. */
  lemma SmallCongruentEqual(r: int, t: int)
    requires -FullTurn < r < FullTurn && -FullTurn < t < FullTurn
    requires (r >= 0 && t >= 0) || (r <= 0 && t <= 0)
    requires Congruent(r, t)
    ensures r == t
  {
  }

  /** Every heading strictly inside a full turn, negative ones included, is stored as given. */
  lemma NormalizeFixes(h: int)
    requires -FullTurn < h < FullTurn
    ensures Normalize(h) == h
  {
  }

  /** Normalising a stored heading again changes nothing. */
  lemma {:induction false} NormalizeIdempotent(degrees: int)
    ensures Normalize(Normalize(degrees)) == Normalize(degrees)
  {
    NormalizeProperties(degrees);
  }

  lemma CongruentTransitive(a: int, b: int, c: int)
    requires Congruent(a, b) && Congruent(b, c)
    ensures Congruent(a, c)
  {
  }

  /** Adding the same amount to two congruent angles keeps them congruent. */
  lemma CongruentShift(a: int, b: int, d: int)
    requires Congruent(a, b)
    ensures Congruent(a + d, b + d)
  {
  }

  /** Sums of congruent angles are congruent. */
  lemma CongruentAdd(a: int, b: int, c: int, d: int)
    requires Congruent(a, b) && Congruent(c, d)
    ensures Congruent(a + c, b + d)
  {
  }
}
