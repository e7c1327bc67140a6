/** Fisher–Yates shuffling of a copy of a table, with `Math.random()` as an arbitrary draw in [0, 1). */
module Shuffling {

  /** The swap partner for position `i`: `Math.floor(x * (i + 1))` for a draw `x` in [0, 1).
      Whatever the draw, the partner lies in [0, i]. */
  function RandomIndex(x: real, i: nat): (j: nat)
    requires 0.0 <= x < 1.0
    ensures j <= i
  {
    var n := (i + 1) as real;
    var scaled := x * n;
    assert 0.0 <= scaled by {
      assert 0.0 * n == 0.0;
    }
    assert scaled < n by {
      assert (1.0 - x) * n == n - scaled;
      assert (1.0 - x) * n > 0.0;
    }
    scaled.Floor
  }

  /** Every partner in [0, i] is the outcome of some draw, so no swap the algorithm needs is out of reach. */
  lemma RandomIndexReaches(i: nat, j: nat)
    requires j <= i
    ensures var x := j as real / (i + 1) as real;
            0.0 <= x < 1.0 && RandomIndex(x, i) == j
  {
    var x := j as real / (i + 1) as real;
    assert x * (i + 1) as real == j as real;
    assert x < 1.0 by {
      assert j as real < (i + 1) as real;
    }
  }

  /** Shuffles a copy of `input`: for `i` from the last index down to 1, swap
      position `i` with a partner in [0, i]. The result is a permutation of the
      input, and the input itself is left as it was. */
  method Shuffle<T>(input: seq<T>) returns (out: seq<T>)
    ensures |out| == |input|
    ensures multiset(out) == multiset(input)
  {
    var arr := new T[|input|](k requires 0 <= k < |input| => input[k]);
    assert arr[..] == input;
    var i := arr.Length - 1;
    while i > 0
      invariant i < arr.Length
      invariant multiset(arr[..]) == multiset(input)
    {
      var x: real :| 0.0 <= x < 1.0;
      var j := RandomIndex(x, i);
      arr[i], arr[j] := arr[j], arr[i];
      i := i - 1;
    }
    out := arr[..];
  }
}
