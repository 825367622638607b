/** Rounding to three decimals, halves to the even digit. */
module Rounding {

  /** The thousandths of the rounded value. */
  function Thousandths(x: real): int {
    var k, rest := (x * 1000.0).Floor, x * 1000.0 - (x * 1000.0).Floor as real;
    if rest < 0.5 || (rest == 0.5 && k % 2 == 0) then k else k + 1
  }

  function Round3(x: real): real {
    Thousandths(x) as real / 1000.0
  }

  lemma ThousandthsMonotone(x: real, y: real)
    requires x <= y
    ensures Thousandths(x) <= Thousandths(y)
  {
    var a, b := (x * 1000.0).Floor, (y * 1000.0).Floor;
    if a == b {
      assert x * 1000.0 - a as real <= y * 1000.0 - b as real;
    } else {
      assert a + 1 <= b;
    }
  }

  lemma Round3Monotone(x: real, y: real)
    requires x <= y
    ensures Round3(x) <= Round3(y)
  {
    ThousandthsMonotone(x, y);
  }

  /** Values a tenth apart do not round together. */
  lemma Round3Gap(x: real, y: real)
    requires x + 0.1 <= y
    ensures Round3(x) < Round3(y)
  {
    var a, b := (x * 1000.0).Floor, (y * 1000.0).Floor;
    assert a + 2 <= b;
  }

  /** A value whose thousandths are a whole number and a fraction rounds by that fraction. */
  lemma RoundsTo(x: real, k: int, fraction: real)
    requires x * 1000.0 == k as real + fraction && 0.0 <= fraction < 1.0 && fraction != 0.5
    ensures Thousandths(x) == if fraction < 0.5 then k else k + 1
  {
    assert (x * 1000.0).Floor == k;
  }

  /** The nearest number of thousandths, and the even one when two are equally near. */
  lemma NearestThousandth(x: real)
    ensures
      var k := Thousandths(x);
      && Round3(x) * 1000.0 == k as real
      && k as real - 0.5 <= x * 1000.0 <= k as real + 0.5
      && (x * 1000.0 == k as real - 0.5 || x * 1000.0 == k as real + 0.5 ==> k % 2 == 0)
  {
    var k := (x * 1000.0).Floor;
    if x * 1000.0 - k as real == 0.5 {
      assert k % 2 == 0 || (k + 1) % 2 == 0;
    }
  }
}
