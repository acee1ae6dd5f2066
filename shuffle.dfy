/**
 * The in-place Fisher-Yates shuffle that both card games use
 * (games/solitaire/solitaire.js:29-34, games/blackjack/blackjack.js:46-51):
 * for i from the last index down to 1, swap a[i] with a[j],
 * j = floor(random * (i + 1)).
 */
module Shuffling {
  import opened Chance

  /** `s` with the elements at `i` and `j` exchanged (the destructuring swap). */
  function Swap<T>(s: seq<T>, i: nat, j: nat): (r: seq<T>)
    requires i < |s| && j < |s|
    ensures |r| == |s|
  {
    s[i := s[j]][j := s[i]]
  }

  /** The shuffle's remaining rounds when the loop stands at index `i`. */
  function ShuffledFrom<T>(s: seq<T>, draws: seq<real>, i: nat): (r: seq<T>)
    requires i < |s| && |draws| == |s| && AllDraws(draws)
    decreases i
  {
    if i == 0 then s else ShuffledFrom(Swap(s, i, Pick(draws[i], i + 1)), draws, i - 1)
  }

  /**
   * The order the shuffle leaves `s` in, as a function of the draws:
   * `draws[i]` is the random draw used when the loop stands at index i
   * (`draws[0]` is never used, as the loop stops at 1).
   */
  function Shuffled<T>(s: seq<T>, draws: seq<real>): seq<T>
    requires |draws| == |s| && AllDraws(draws)
  {
    if s == [] then s else ShuffledFrom(s, draws, |s| - 1)
  }

  lemma SwapIsPermutation<T>(s: seq<T>, i: nat, j: nat)
    requires i < |s| && j < |s|
    ensures multiset(Swap(s, i, j)) == multiset(s)
  {
    var r := Swap(s, i, j);
    if i != j {
      assert r == s[i := s[j]][j := s[i]];
      assert multiset(s[i := s[j]]) == multiset(s) - multiset{s[i]} + multiset{s[j]};
    }
  }

  lemma {:induction false} ShuffledFromIsPermutation<T>(s: seq<T>, draws: seq<real>, i: nat)
    requires i < |s| && |draws| == |s| && AllDraws(draws)
    ensures |ShuffledFrom(s, draws, i)| == |s|
    ensures multiset(ShuffledFrom(s, draws, i)) == multiset(s)
    decreases i
  {
    if i > 0 {
      var j := Pick(draws[i], i + 1);
      SwapIsPermutation(s, i, j);
      ShuffledFromIsPermutation(Swap(s, i, j), draws, i - 1);
    }
  }

  /** Whatever the draws, shuffling only reorders: it is a permutation of its input. */
  lemma ShuffledIsPermutation<T>(s: seq<T>, draws: seq<real>)
    requires |draws| == |s| && AllDraws(draws)
    ensures |Shuffled(s, draws)| == |s|
    ensures multiset(Shuffled(s, draws)) == multiset(s)
  {
    if s != [] {
      ShuffledFromIsPermutation(s, draws, |s| - 1);
    }
  }

  /**
   * The in-place loop leaves the array in the order `Shuffled` describes,
   * which is a permutation of the old contents.
   */
  method Shuffle<T>(a: array<T>, draws: seq<real>)
    requires |draws| == a.Length && AllDraws(draws)
    modifies a
    ensures a[..] == Shuffled(old(a[..]), draws)
    ensures multiset(a[..]) == multiset(old(a[..]))
  {
    ghost var original := a[..];
    if a.Length == 0 {
      return;
    }
    var i := a.Length - 1;
    while i > 0
      invariant 0 <= i < a.Length
      invariant ShuffledFrom(a[..], draws, i) == Shuffled(original, draws)
    {
      var j := Pick(draws[i], i + 1);
      ghost var before := a[..];
      a[i], a[j] := a[j], a[i];
      assert a[..] == Swap(before, i, j);
      i := i - 1;
    }
    ShuffledIsPermutation(original, draws);
  }
}
