/** The arithmetic that the models share. */
module Numbers {

  function SaturatingSub(a: nat, b: nat): nat {
    if a >= b then a - b else 0
  }

  lemma MulMonotone(j: nat, k: nat, m: nat)
    ensures j <= k ==> j * m <= k * m
  {
  }
}
