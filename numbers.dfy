/** Small numeric helpers: Python's `min`/`max` on two values and the clamp to [0, 1]
    written `max(0.0, min(1.0, x))` throughout the source. */
module Numbers {
  function Min(a: real, b: real): real { if a <= b then a else b }

  function Max(a: real, b: real): real { if a >= b then a else b }

  function MinNat(a: nat, b: nat): nat { if a <= b then a else b }

  function Clamp01(x: real): (r: real)
    ensures 0.0 <= r <= 1.0
    ensures 0.0 <= x <= 1.0 ==> r == x
  {
    if x < 0.0 then 0.0 else if x > 1.0 then 1.0 else x
  }
}
