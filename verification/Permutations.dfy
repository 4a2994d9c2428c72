/** Python's itertools.permutations: by position, in index order. */
module Permutations {
  import opened Sequences

  function Prepend<T>(x: T, ps: seq<seq<T>>): seq<seq<T>> {
    seq(|ps|, i requires 0 <= i < |ps| => [x] + ps[i])
  }

  function Permutations<T>(s: seq<T>): seq<seq<T>>
    decreases |s|, 1, 0
  {
    if s == [] then [[]] else StartingFrom(s, 0)
  }

  /** The permutations whose first element is s[i], then those starting with s[i + 1], and so on. */
  function StartingFrom<T>(s: seq<T>, i: nat): seq<seq<T>>
    requires i <= |s|
    decreases |s|, 0, |s| - i
  {
    if i == |s| then []
    else Prepend(s[i], Permutations(RemoveAt(s, i))) + StartingFrom(s, i + 1)
  }

  /** Every enumerated sequence is an arrangement of the input. */
  lemma {:induction false} Sound<T>(s: seq<T>, p: seq<T>)
    requires p in Permutations(s)
    ensures multiset(p) == multiset(s)
    decreases |s|, 1, 0
  {
    if s != [] {
      SoundFrom(s, 0, p);
    }
  }

  lemma {:induction false} SoundFrom<T>(s: seq<T>, i: nat, p: seq<T>)
    requires i <= |s| && p in StartingFrom(s, i)
    ensures multiset(p) == multiset(s)
    decreases |s|, 0, |s| - i
  {
    var here := Permutations(RemoveAt(s, i));
    if p in Prepend(s[i], here) {
      var k :| 0 <= k < |here| && p == [s[i]] + here[k];
      Sound(RemoveAt(s, i), here[k]);
      RemoveAtMultiset(s, i);
    } else {
      SoundFrom(s, i + 1, p);
    }
  }

  /** Every arrangement of the input is enumerated. */
  lemma {:induction false} Complete<T>(s: seq<T>, p: seq<T>)
    requires multiset(p) == multiset(s)
    ensures p in Permutations(s)
    decreases |s|, 1, 0
  {
    assert |p| == |multiset(p)| == |multiset(s)| == |s|;
    if s != [] {
      assert p[0] in multiset(s);
      var i :| 0 <= i < |s| && s[i] == p[0];
      CompleteFrom(s, 0, i, p);
    } else {
      assert p == [];
    }
  }

  lemma {:induction false} CompleteFrom<T>(s: seq<T>, j: nat, i: nat, p: seq<T>)
    requires j <= i < |s| && p != [] && p[0] == s[i]
    requires multiset(p) == multiset(s)
    ensures p in StartingFrom(s, j)
    decreases |s|, 0, |s| - j
  {
    if j < i {
      CompleteFrom(s, j + 1, i, p);
    } else {
      CompleteStartingAt(s, i, p);
    }
  }

  lemma CompleteStartingAt<T>(s: seq<T>, i: nat, p: seq<T>)
    requires i < |s| && p != [] && p[0] == s[i] && multiset(p) == multiset(s)
    ensures p in StartingFrom(s, i)
    decreases |s|, 0, 0
  {
    var here, tail := Permutations(RemoveAt(s, i)), p[1..];
    RemoveAtMultiset(s, i);
    RemoveAtMultiset(p, 0);
    assert RemoveAt(p, 0) == tail;
    Complete(RemoveAt(s, i), tail);
    InPrepend(s[i], here, tail);
    assert p == [s[i]] + tail;
  }

  lemma InPrepend<T>(x: T, ps: seq<seq<T>>, q: seq<T>)
    requires q in ps
    ensures [x] + q in Prepend(x, ps)
  {
    var k :| 0 <= k < |ps| && ps[k] == q;
    assert Prepend(x, ps)[k] == [x] + q;
  }

  /** There is always at least one, so a search over them finds something. */
  lemma SomePermutation<T>(s: seq<T>)
    ensures Permutations(s) != []
  {
    Complete(s, s);
  }

  function Factorial(n: nat): nat {
    if n == 0 then 1 else n * Factorial(n - 1)
  }

  /** The enumeration has exactly n! entries: the cost of the brute-force search. */
  lemma {:induction false} Count<T>(s: seq<T>)
    ensures |Permutations(s)| == Factorial(|s|)
    decreases |s|, 1, 0
  {
    if s != [] {
      CountFrom(s, 0);
    }
  }

  lemma {:induction false} CountFrom<T>(s: seq<T>, i: nat)
    requires i <= |s| && s != []
    ensures |StartingFrom(s, i)| == (|s| - i) * Factorial(|s| - 1)
    decreases |s|, 0, |s| - i
  {
    if i < |s| {
      Count(RemoveAt(s, i));
      CountFrom(s, i + 1);
      assert (|s| - i) * Factorial(|s| - 1) == Factorial(|s| - 1) + (|s| - i - 1) * Factorial(|s| - 1);
    }
  }
}
