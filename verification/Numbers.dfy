/** Conversions and small facts about real arithmetic shared by the models. */
module Numbers {

  /** Go's conversion from floating point to an integer type: it truncates toward zero. */
  function Trunc(x: real): (k: int)
    ensures x >= 0.0 ==> 0 <= k && k as real <= x < k as real + 1.0
    ensures x < 0.0 ==> k <= 0 && k as real - 1.0 < x <= k as real
  {
    if x >= 0.0 then x.Floor else -((-x).Floor)
  }

  /** The larger of two reals. */
  function Max(x: real, y: real): (m: real)
    ensures m >= x && m >= y && (m == x || m == y)
  {
    if x >= y then x else y
  }

  lemma MulMono(x: real, y: real, z: real)
    requires x <= y && z >= 0.0
    ensures x * z <= y * z
  {
  }

  lemma MulNonNeg(x: real, y: real)
    requires x >= 0.0 && y >= 0.0
    ensures x * y >= 0.0
  {
  }

  /** A product that proofs can treat as a black box. */
  function Times(x: real, y: real): real {
    x * y
  }

  lemma TimesAssociates(x: real, y: real, z: real)
    ensures Times(x, Times(y, z)) == Times(Times(x, y), z)
  {
  }

  lemma TimesMono(x: real, x': real, y: real, y': real)
    requires 0.0 < x <= x' && 0.0 < y <= y'
    ensures 0.0 < Times(x, y) <= Times(x', y')
  {
    MulMono(x, x', y);
    MulMono(y, y', x');
  }

  lemma TimesOne(x: real)
    ensures Times(x, 1.0) == x == Times(1.0, x)
  {
  }

  lemma TimesCommutes(x: real, y: real)
    ensures Times(x, y) == Times(y, x)
  {
  }

  lemma TimesIs(x: real, y: real)
    ensures Times(x, y) == x * y
  {
  }
}
