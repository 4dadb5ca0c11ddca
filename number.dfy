/** `src/lib/utils/number.ts`: `clamp`, and `getDecimalPlaces` over the
  * decimal text `num.toString()` produces. */
module Number {
  import opened Wrappers
  import opened Text

  function Min(a: real, b: real): real
  {
    if a <= b then a else b
  }

  function Max(a: real, b: real): real
  {
    if a >= b then a else b
  }

  /** `clamp(min, value, max)`: `Math.max(min, Math.min(value, max))`. */
  function Clamp(min: real, value: real, max: real): real
  {
    Max(min, Min(value, max))
  }

  /** With `min <= max` the result lies in the range, is `value` itself when
    * that already does, and otherwise the bound it passed. */
  lemma ClampInRange(min: real, value: real, max: real)
    requires min <= max
    ensures min <= Clamp(min, value, max) <= max
    ensures min <= value <= max ==> Clamp(min, value, max) == value
    ensures value < min ==> Clamp(min, value, max) == min
    ensures value > max ==> Clamp(min, value, max) == max
  {
  }

  /** With `min > max` the lower bound wins. */
  lemma ClampCrossedBounds(min: real, value: real, max: real)
    requires min > max
    ensures Clamp(min, value, max) == min
  {
  }

  /** Clamping twice changes nothing more. */
  lemma ClampIdempotent(min: real, value: real, max: real)
    ensures Clamp(min, Clamp(min, value, max), max) == Clamp(min, value, max)
  {
  }

  /** `getDecimalPlaces`: how many characters follow the first `.`, or 0. */
  function DecimalPlaces(text: string): (r: nat)
  {
    match Find(text, '.')
    case None => 0
    case Some(i) => |text| - i - 1
  }

  /** A number written with a fraction part has as many decimal places as
    * that part has characters; one written without has none. */
  lemma DecimalPlacesOfFraction(whole: string, fraction: string)
    requires '.' !in whole && '.' !in fraction
    ensures DecimalPlaces(whole + "." + fraction) == |fraction|
    ensures DecimalPlaces(whole) == 0
  {
    var s := whole + "." + fraction;
    assert s[|whole|] == '.' && s[..|whole|] == whole;
    FindFirst(s, '.', |whole|);
  }
}
