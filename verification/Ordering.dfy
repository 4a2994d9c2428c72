/** Orders used by the planner: Python's comparison of tuples and strings, and its stable sort. */
module Ordering {

  datatype Option<+T> = None | Some(value: T)

  /** Lexicographic order on integer sequences: how tuples of ids, and strings by code point, compare. */
  predicate LexLe(a: seq<int>, b: seq<int>) {
    if a == [] then true
    else if b == [] then false
    else if a[0] != b[0] then a[0] < b[0]
    else LexLe(a[1..], b[1..])
  }

  function CodePoints(s: string): seq<int> {
    seq(|s|, i requires 0 <= i < |s| => s[i] as int)
  }

  /** The first place where the sequences differ decides; a prefix comes first. */
  lemma {:induction false} LexLeIff(a: seq<int>, b: seq<int>)
    ensures LexLe(a, b) <==> a <= b || exists k | 0 <= k < |a| && k < |b| :: a[..k] == b[..k] && a[k] < b[k]
  {
    if a != [] && b != [] {
      if a[0] == b[0] {
        LexLeIff(a[1..], b[1..]);
        assert a == [a[0]] + a[1..] && b == [b[0]] + b[1..];
        if k :| 0 <= k < |a[1..]| && k < |b[1..]| && a[1..][..k] == b[1..][..k] && a[1..][k] < b[1..][k] {
          assert a[..k + 1] == [a[0]] + a[1..][..k] && b[..k + 1] == [b[0]] + b[1..][..k];
          assert a[k + 1] < b[k + 1];
        }
        if k :| 0 <= k < |a| && k < |b| && a[..k] == b[..k] && a[k] < b[k] {
          assert k > 0;
          assert a[1..][..k - 1] == a[..k][1..] && b[1..][..k - 1] == b[..k][1..];
          assert a[1..][k - 1] < b[1..][k - 1];
        }
      } else {
        if a[0] < b[0] {
          assert a[..0] == b[..0];
        }
        forall k | 0 <= k < |a| && k < |b| ensures a[..k] == b[..k] ==> k == 0 {
          HeadsDiffer(a, b, k);
        }
      }
    }
  }

  lemma HeadsDiffer(a: seq<int>, b: seq<int>, k: nat)
    requires k <= |a| && k <= |b|
    ensures k > 0 && a[..k] == b[..k] ==> a[0] == b[0]
  {
    if k > 0 {
      assert a[0] == a[..k][0] && b[0] == b[..k][0];
    }
  }

  lemma LexLeTotal(a: seq<int>, b: seq<int>)
    ensures LexLe(a, b) || LexLe(b, a)
  {
  }

  lemma {:induction false} LexLeAntisymmetric(a: seq<int>, b: seq<int>)
    requires LexLe(a, b) && LexLe(b, a)
    ensures a == b
  {
    if a != [] && b != [] {
      LexLeAntisymmetric(a[1..], b[1..]);
      assert a == [a[0]] + a[1..] && b == [b[0]] + b[1..];
    }
  }

  lemma {:induction false} LexLeTransitive(a: seq<int>, b: seq<int>, c: seq<int>)
    requires LexLe(a, b) && LexLe(b, c)
    ensures LexLe(a, c)
  {
    if a != [] && b != [] && c != [] && a[0] == b[0] == c[0] {
      LexLeTransitive(a[1..], b[1..], c[1..]);
    }
  }

  lemma CodePointsInjective(s: string, t: string)
    requires CodePoints(s) == CodePoints(t)
    ensures s == t
  {
    assert |s| == |CodePoints(s)| == |t|;
    forall i | 0 <= i < |s| ensures s[i] == t[i] {
      assert CodePoints(s)[i] == CodePoints(t)[i];
    }
  }

  /** Python's `sorted`: stable, `le` compares the sort keys. */
  function StableSort<T>(le: (T, T) -> bool, s: seq<T>): seq<T> {
    if s == [] then [] else Insert(le, s[0], StableSort(le, s[1..]))
  }

  function Insert<T>(le: (T, T) -> bool, x: T, s: seq<T>): seq<T> {
    if s == [] || le(x, s[0]) then [x] + s else [s[0]] + Insert(le, x, s[1..])
  }

  lemma {:induction false} InsertPermutes<T>(le: (T, T) -> bool, x: T, s: seq<T>)
    ensures multiset(Insert(le, x, s)) == multiset{x} + multiset(s)
  {
    if s == [] {
    } else if le(x, s[0]) {
      assert [x] + s == Insert(le, x, s);
    } else {
      InsertPermutes(le, x, s[1..]);
      assert s == [s[0]] + s[1..];
    }
  }

  /** Sorting keeps every element, with its multiplicity. */
  lemma {:induction false} StableSortPermutes<T>(le: (T, T) -> bool, s: seq<T>)
    ensures multiset(StableSort(le, s)) == multiset(s)
    ensures |StableSort(le, s)| == |s|
  {
    if s != [] {
      StableSortPermutes(le, s[1..]);
      InsertPermutes(le, s[0], StableSort(le, s[1..]));
      assert s == [s[0]] + s[1..];
    }
    assert |multiset(StableSort(le, s))| == |StableSort(le, s)|;
  }

  ghost predicate SortedByKey<T>(key: T -> int, s: seq<T>) {
    forall i, j | 0 <= i < j < |s| :: key(s[i]) <= key(s[j])
  }

  ghost predicate StrictlySortedByKey<T>(key: T -> int, s: seq<T>) {
    forall i, j | 0 <= i < j < |s| :: key(s[i]) < key(s[j])
  }

  function KeyOrder<T>(key: T -> int): (T, T) -> bool {
    (a: T, b: T) => key(a) <= key(b)
  }

  lemma {:induction false} InsertSorted<T>(key: T -> int, x: T, s: seq<T>)
    requires SortedByKey(key, s)
    ensures SortedByKey(key, Insert(KeyOrder(key), x, s))
  {
    var le := KeyOrder(key);
    if s != [] && !le(x, s[0]) {
      InsertSorted(key, x, s[1..]);
      var rest := Insert(le, x, s[1..]);
      InsertPermutes(le, x, s[1..]);
      forall j | 0 <= j < |rest| ensures key(s[0]) <= key(rest[j]) {
        assert rest[j] in multiset(rest);
        if rest[j] != x {
          assert rest[j] in s[1..];
        }
      }
    }
  }

  lemma {:induction false} StableSortSorts<T>(key: T -> int, s: seq<T>)
    ensures SortedByKey(key, StableSort(KeyOrder(key), s))
  {
    if s != [] {
      StableSortSorts(key, s[1..]);
      InsertSorted(key, s[0], StableSort(KeyOrder(key), s[1..]));
    }
  }

  lemma SortedHeadsAgree<T>(key: T -> int, a: seq<T>, b: seq<T>)
    requires SortedByKey(key, a) && StrictlySortedByKey(key, b)
    requires a != [] && b != [] && a[0] in b && b[0] in a
    ensures a[0] == b[0]
  {
    var j :| 0 <= j < |b| && b[j] == a[0];
    var i :| 0 <= i < |a| && a[i] == b[0];
    assert key(a[0]) <= key(a[i]);
    assert j == 0;
  }

  lemma MultisetTail<T>(s: seq<T>)
    requires s != []
    ensures multiset(s[1..]) == multiset(s) - multiset{s[0]}
  {
    assert s == [s[0]] + s[1..];
  }

  /** A sorted sequence is determined by its contents when the keys are distinct. */
  lemma {:induction false} SortedUnique<T>(key: T -> int, a: seq<T>, b: seq<T>)
    requires SortedByKey(key, a) && StrictlySortedByKey(key, b)
    requires multiset(a) == multiset(b)
    ensures a == b
  {
    hide SortedByKey, StrictlySortedByKey;
    assert |a| == |multiset(a)| == |multiset(b)| == |b|;
    if a != [] {
      assert a[0] in multiset(a) && b[0] in multiset(b);
      SortedHeadsAgree(key, a, b);
      MultisetTail(a);
      MultisetTail(b);
      SortedTail(key, a);
      StrictlySortedTail(key, b);
      SortedUnique(key, a[1..], b[1..]);
      assert a == [a[0]] + a[1..] && b == [b[0]] + b[1..];
    }
  }

  lemma SortedTail<T>(key: T -> int, s: seq<T>)
    requires s != [] && SortedByKey(key, s)
    ensures SortedByKey(key, s[1..])
  {
  }

  lemma StrictlySortedTail<T>(key: T -> int, s: seq<T>)
    requires s != [] && StrictlySortedByKey(key, s)
    ensures StrictlySortedByKey(key, s[1..])
  {
  }

  /** Sorting any arrangement of a sequence with strictly increasing keys gives that sequence back. */
  lemma StableSortRecovers<T>(key: T -> int, a: seq<T>, b: seq<T>)
    requires multiset(a) == multiset(b) && StrictlySortedByKey(key, b)
    ensures StableSort(KeyOrder(key), a) == b
  {
    StableSortSorts(key, a);
    StableSortPermutes(KeyOrder(key), a);
    SortedUnique(key, StableSort(KeyOrder(key), a), b);
  }
}
