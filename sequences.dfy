/** Small facts about sequences shared by the modules that build lists. */
module Sequences {
  /** Splitting off the last element of a concatenation with a non-empty right part. */
  lemma SplitLast<T>(a: seq<T>, b: seq<T>)
    requires b != []
    ensures (a + b)[..|a + b| - 1] == a + b[..|b| - 1]
    ensures (a + b)[|a + b| - 1] == b[|b| - 1]
  {
  }

  lemma AppendAssoc<T>(a: seq<T>, b: seq<T>, c: seq<T>)
    ensures (a + b) + c == a + (b + c)
  {
  }

  /** The indices of the elements of `s` that satisfy `p`. */
  function Indices<T>(s: seq<T>, p: T -> bool): set<int> {
    set i | 0 <= i < |s| && p(s[i])
  }

  /** Appending an element adds its index exactly when it satisfies `p`. */
  lemma IndicesSnoc<T>(s: seq<T>, p: T -> bool)
    requires s != []
    ensures var n := |s|;
            Indices(s, p) == Indices(s[..n - 1], p) + (if p(s[n - 1]) then {n - 1} else {})
  {
    var n := |s|;
    var init := s[..n - 1];
    forall i | 0 <= i < n - 1
      ensures init[i] == s[i]
    {
    }
  }
}
