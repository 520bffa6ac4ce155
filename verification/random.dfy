/** The components draw all their randomness from `Math.random()`. Here every
    call becomes a value passed in by the caller, so each operation is a
    deterministic function of its draws. */
module Random {

  /** A value `Math.random()` can return: a real in [0, 1). */
  type Draw = r: real | 0.0 <= r < 1.0 witness 0.0

  /** `Math.floor(Math.random() * n) + lo`: a uniform integer in `lo .. lo + n - 1`. */
  function RandomInt(r: Draw, n: nat, lo: int): (v: int)
    requires n > 0
    ensures lo <= v < lo + n
  {
    assert r * n as real < n as real by {
      assert (1.0 - r) * n as real > 0.0;
    }
    (r * n as real).Floor + lo
  }

  /** Draws that scale to a higher value give a value at least as high. */
  lemma RandomIntMonotone(r: Draw, s: Draw, n: nat, lo: int)
    requires n > 0 && r <= s
    ensures RandomInt(r, n, lo) <= RandomInt(s, n, lo)
  {
    assert r * n as real <= s * n as real;
  }

  /** Every integer of the range is the value of some draw. */
  lemma {:induction false} RandomIntCovers(n: nat, lo: int, v: int)
    requires n > 0 && lo <= v < lo + n
    ensures exists r: Draw :: RandomInt(r, n, lo) == v
  {
    var r: Draw := (v - lo) as real / n as real;
    assert r * n as real == (v - lo) as real;
    assert RandomInt(r, n, lo) == v;
  }

  function Min(a: real, b: real): real { if a <= b then a else b }

  function Max(a: real, b: real): real { if a >= b then a else b }
}
