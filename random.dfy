/**
 * `Math.random()` draws, passed in as parameters. A draw is a real number in
 * [0, 1); `Math.floor(Math.random() * n)` becomes `Scale(r, n)` and picking
 * from a literal list `[...][Math.floor(Math.random() * n)]` becomes `Pick`.
 */
module Random {

  /** A value `Math.random()` can return. */
  predicate IsDraw(r: real)
  {
    0.0 <= r < 1.0
  }

  /** `Math.floor(r * n)` always lies in 0 .. n-1. */
  function Scale(r: real, n: nat): (k: int)
    requires IsDraw(r) && n > 0
    ensures 0 <= k < n
  {
    assert r * n as real < n as real by {
      assert (1.0 - r) * n as real > 0.0;
    }
    (r * n as real).Floor
  }

  /** `list[Math.floor(Math.random() * list.length)]` is always an element of the list. */
  function Pick<T>(list: seq<T>, r: real): (x: T)
    requires IsDraw(r) && |list| > 0
    ensures x in list
  {
    list[Scale(r, |list|)]
  }

  /** Every element of a list is picked by some draw, so none of them is unreachable. */
  lemma PickReaches<T>(list: seq<T>, k: nat)
    requires k < |list|
    ensures IsDraw(k as real / |list| as real)
    ensures Pick(list, k as real / |list| as real) == list[k]
  {
    var n := |list| as real;
    var r := k as real / n;
    assert r * n == k as real;
    assert r < 1.0 by {
      assert k as real < n;
    }
    assert Scale(r, |list|) == k;
  }
}
