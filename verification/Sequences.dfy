module Sequences {
  /** `s` back to front. */
  function Reversed<T>(s: seq<T>): seq<T> {
    if s == [] then [] else Reversed(s[1..]) + [s[0]]
  }

  lemma {:induction false} ReversedPush<T>(s: seq<T>, x: T)
    ensures Reversed(s + [x]) == [x] + Reversed(s)
  {
    if s == [] {
      assert (s + [x])[1..] == [];
    } else {
      ReversedPush(s[1..], x);
      assert (s + [x])[1..] == s[1..] + [x];
    }
  }

  /** Popping a sequence from the end down to length `n` and reversing gives the tail back. */
  lemma {:induction false} ReversedSlice<T>(whole: seq<T>, n: nat, popped: seq<T>)
    requires n <= |whole| && |popped| == |whole| - n
    requires forall i :: 0 <= i < |popped| ==> popped[i] == whole[|whole| - 1 - i]
    ensures Reversed(popped) == whole[n..]
    decreases |popped|
  {
    if popped == [] {
      assert whole[n..] == [];
    } else {
      var less, x := popped[..|popped| - 1], popped[|popped| - 1];
      ReversedSlice(whole, n + 1, less);
      ReversedPush(less, x);
      assert popped == less + [x];
      assert whole[n..] == [whole[n]] + whole[n + 1..];
    }
  }
}
