/** Randomness as data, and the Fisher-Yates shuffle `App.shuffleArray` of js/app.js.
    Every `Math.random()` the source draws is supplied by the caller as a real in [0, 1). */
module Shuffle {

  /** A value `Math.random()` can return. */
  predicate IsRandom(x: real) {
    0.0 <= x < 1.0
  }

  /** `rnd` holds at least `n` draws of `Math.random()`. */
  predicate RandomSupply(rnd: seq<real>, n: nat) {
    |rnd| >= n && forall k :: 0 <= k < |rnd| ==> IsRandom(rnd[k])
  }

  /** `Math.floor(x * bound)`: an index below `bound`. */
  function Pick(x: real, bound: nat): (j: nat)
    requires IsRandom(x) && bound > 0
    ensures j < bound
  {
    var y := x * bound as real;
    assert 0.0 <= y < bound as real by {
      assert bound as real - y == (1.0 - x) * bound as real;
    }
    y.Floor
  }

  /** Fisher-Yates on a copy of `arr`: for i from the last index down to 1, swap slot i
      with slot `Pick(rnd[i], i + 1)`. The input is a value and stays as it was; the
      result holds the same elements, each as often, in an order fixed by `rnd`. */
  method ShuffleArray<T>(arr: seq<T>, rnd: seq<real>) returns (r: seq<T>)
    requires RandomSupply(rnd, |arr|)
    ensures |r| == |arr|
    ensures multiset(r) == multiset(arr)
  {
    var a := new T[|arr|](k requires 0 <= k < |arr| => arr[k]);
    assert a[..] == arr;
    var i := |arr| - 1;
    while i > 0
      invariant -1 <= i < a.Length
      invariant multiset(a[..]) == multiset(arr)
    {
      var j := Pick(rnd[i], i + 1);
      a[i], a[j] := a[j], a[i];
      i := i - 1;
    }
    r := a[..];
  }
}
