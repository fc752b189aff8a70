/**
 * shuffleArray: Fisher-Yates on a copy of the input. Math.random is
 * injected: `random(k, n)` stands for Math.floor(Math.random() * n) computed
 * with the k-th Math.random call of the page's life, so it is some index
 * below n. A shuffle whose first call is call number `from` uses the calls
 * `from`, `from + 1`, ... in loop order.
 */
module Shuffle {

  type RandomStream = (nat, nat) -> nat

  /** Every scaled draw lies in [0, n), as Math.random in [0, 1) promises. */
  ghost predicate IsRandom(random: RandomStream) {
    forall k: nat, n: nat :: 0 < n ==> random(k, n) < n
  }

  /** Math.floor(Math.random() * (i + 1)) drawn by call `k`: the partner of position `i`. */
  function Pick(random: RandomStream, k: nat, i: nat): (j: nat)
    requires IsRandom(random)
    ensures j <= i
  {
    random(k, i + 1)
  }

  /** The number of Math.random calls a shuffle of `n` items makes (ShuffleArray counts them). */
  function Steps(n: nat): nat {
    if n == 0 then 0 else n - 1
  }

  /** `s` with the entries at `i` and `j` exchanged. */
  function Swap<T>(s: seq<T>, i: nat, j: nat): (r: seq<T>)
    requires i < |s| && j < |s|
    ensures |r| == |s|
  {
    s[i := s[j]][j := s[i]]
  }

  /** A swap moves entries but neither adds nor drops any. */
  lemma SwapIsPermutation<T>(s: seq<T>, i: nat, j: nat)
    requires i < |s| && j < |s|
    ensures multiset(Swap(s, i, j)) == multiset(s)
  {
  }

  /** The swaps the loop still has to make, from position `i` down to position 1. */
  function ShuffleDown<T>(s: seq<T>, i: int, random: RandomStream, from: nat): seq<T>
    requires IsRandom(random) && i < |s|
    decreases i
  {
    if i <= 0 then s
    else ShuffleDown(Swap(s, i, Pick(random, from + (|s| - 1 - i), i)), i - 1, random, from)
  }

  /** One turn of the loop: the swap at position `i` with its drawn partner, then the rest. */
  lemma ShuffleDownStep<T>(s: seq<T>, i: int, j: nat, random: RandomStream, from: nat)
    requires IsRandom(random) && 0 < i < |s| && j == Pick(random, from + (|s| - 1 - i), i)
    ensures ShuffleDown(Swap(s, i, j), i - 1, random, from) == ShuffleDown(s, i, random, from)
  {
  }

  /** The order shuffleArray returns for `s` when its draws start at `from`. */
  function Shuffled<T>(s: seq<T>, random: RandomStream, from: nat): seq<T>
    requires IsRandom(random)
  {
    ShuffleDown(s, |s| - 1, random, from)
  }

  lemma {:induction false} ShuffleDownIsPermutation<T>(s: seq<T>, i: int, random: RandomStream, from: nat)
    requires IsRandom(random) && i < |s|
    ensures |ShuffleDown(s, i, random, from)| == |s|
    ensures multiset(ShuffleDown(s, i, random, from)) == multiset(s)
    decreases i
  {
    if i > 0 {
      var t := Swap(s, i, Pick(random, from + (|s| - 1 - i), i));
      SwapIsPermutation(s, i, Pick(random, from + (|s| - 1 - i), i));
      ShuffleDownIsPermutation(t, i - 1, random, from);
    }
  }

  /** Whatever the draws, a shuffle returns the same questions, each as often as before. */
  lemma ShuffledIsPermutation<T>(s: seq<T>, random: RandomStream, from: nat)
    requires IsRandom(random)
    ensures |Shuffled(s, random, from)| == |s|
    ensures multiset(Shuffled(s, random, from)) == multiset(s)
  {
    ShuffleDownIsPermutation(s, |s| - 1, random, from);
  }

  /**
   * shuffleArray: copies `items` into a fresh array and walks it from the
   * last index down to 1, swapping each position with a drawn partner at or
   * before it. The caller's sequence is a value and is never touched.
   * `next` is the number of the first Math.random call after the shuffle:
   * each turn of the loop makes exactly one call.
   */
  method ShuffleArray<T>(items: seq<T>, random: RandomStream, from: nat) returns (r: seq<T>, next: nat)
    requires IsRandom(random)
    ensures r == Shuffled(items, random, from)
    ensures multiset(r) == multiset(items)
    ensures next == from + Steps(|items|)
  {
    var arr := new T[|items|](k requires 0 <= k < |items| => items[k]);
    var i := arr.Length - 1;
    next := from;
    ghost var shown := items;
    while i > 0
      invariant -1 <= i < arr.Length == |shown| == |items|
      invariant arr.Length > 0 ==> i >= 0
      invariant next == from + (arr.Length - 1 - i)
      invariant forall k :: 0 <= k < arr.Length ==> arr[k] == shown[k]
      invariant ShuffleDown(shown, i, random, from) == Shuffled(items, random, from)
    {
      var j := Pick(random, next, i);
      next := next + 1;
      var tmp := arr[i];
      arr[i] := arr[j];
      arr[j] := tmp;
      ghost var prev := shown;
      shown := Swap(shown, i, j);
      ShuffleDownStep(prev, i, j, random, from);
      i := i - 1;
    }
    r := arr[..];
    assert r == shown;
    ShuffledIsPermutation(items, random, from);
  }
}
