/** Lists that the models share: a cut after a number of elements, and lists without repetition. */
module Lists {

  function Take<T>(xs: seq<T>, n: nat): seq<T> {
    if |xs| <= n then xs else xs[..n]
  }

  /** What a cut leaves out. */
  function Drop<T>(xs: seq<T>, n: nat): seq<T> {
    if |xs| <= n then [] else xs[n..]
  }

  predicate Distinct(ids: seq<nat>) {
    forall i, j :: 0 <= i < j < |ids| ==> ids[i] != ids[j]
  }
}
