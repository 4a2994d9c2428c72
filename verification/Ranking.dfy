/** The ranking of places: what the sort key means, and that it leaves no choice. */
module Ranking {
  import opened Ordering
  import opened TravelRules
  import opened DayAllocator

  ghost predicate Ranked(s: seq<ScoredPlace>) {
    forall i, j | 0 <= i < j < |s| :: HigherFirst(s[i], s[j])
  }

  lemma HigherFirstTotal(a: ScoredPlace, b: ScoredPlace)
    ensures HigherFirst(a, b) || HigherFirst(b, a)
  {
    LexLeTotal(CodePoints(a.place.name), CodePoints(b.place.name));
  }

  lemma HigherFirstTransitive(a: ScoredPlace, b: ScoredPlace, c: ScoredPlace)
    requires HigherFirst(a, b) && HigherFirst(b, c)
    ensures HigherFirst(a, c)
  {
    var x, y, z := CodePoints(a.place.name), CodePoints(b.place.name), CodePoints(c.place.name);
    if LexLe(x, y) && LexLe(y, z) {
      LexLeTransitive(x, y, z);
      if a.place.name == c.place.name {
        LexLeAntisymmetric(x, y);
        CodePointsInjective(a.place.name, b.place.name);
      }
    }
  }

  lemma HigherFirstAntisymmetric(a: ScoredPlace, b: ScoredPlace)
    requires HigherFirst(a, b) && HigherFirst(b, a)
    ensures a.place.id == b.place.id
  {
    if a.place.name != b.place.name {
      LexLeAntisymmetric(CodePoints(a.place.name), CodePoints(b.place.name));
      CodePointsInjective(a.place.name, b.place.name);
    }
  }

  lemma {:induction false} InsertRanked(x: ScoredPlace, s: seq<ScoredPlace>)
    requires Ranked(s)
    ensures Ranked(Insert(HigherFirst, x, s))
  {
    hide HigherFirst;
    if s != [] {
      HigherFirstTotal(x, s[0]);
      if HigherFirst(x, s[0]) {
        forall j | 1 <= j < |s| ensures HigherFirst(x, s[j]) {
          HigherFirstTransitive(x, s[0], s[j]);
        }
      } else {
        InsertRanked(x, s[1..]);
        var others := Insert(HigherFirst, x, s[1..]);
        InsertPermutes(HigherFirst, x, s[1..]);
        forall j | 0 <= j < |others| ensures HigherFirst(s[0], others[j]) {
          assert others[j] in multiset(others);
          assert others[j] == x || others[j] in s[1..];
        }
      }
    }
  }

  lemma {:induction false} RankingRanked(s: seq<ScoredPlace>)
    ensures Ranked(StableSort(HigherFirst, s))
  {
    if s != [] {
      RankingRanked(s[1..]);
      InsertRanked(s[0], StableSort(HigherFirst, s[1..]));
    }
  }

  lemma RankedHeads(a: seq<ScoredPlace>, b: seq<ScoredPlace>)
    requires Ranked(a) && Ranked(b) && DistinctStops(a)
    requires a != [] && b != [] && a[0] in b && b[0] in a
    ensures a[0] == b[0]
  {
    hide HigherFirst;
    var j :| 0 <= j < |b| && b[j] == a[0];
    var i :| 0 <= i < |a| && a[i] == b[0];
    if i != 0 && j != 0 {
      HigherFirstAntisymmetric(a[0], b[0]);
    }
  }

  lemma {:induction false} RankedUnique(a: seq<ScoredPlace>, b: seq<ScoredPlace>)
    requires Ranked(a) && Ranked(b) && multiset(a) == multiset(b) && DistinctStops(a)
    ensures a == b
  {
    hide HigherFirst, Ranked;
    assert |a| == |multiset(a)| == |multiset(b)| == |b|;
    if a != [] {
      assert a[0] in multiset(a) && b[0] in multiset(b);
      RankedHeads(a, b);
      MultisetTail(a);
      MultisetTail(b);
      TailsRanked(a);
      TailsRanked(b);
      assert DistinctStops(a[1..]);
      RankedUnique(a[1..], b[1..]);
      assert a == [a[0]] + a[1..] && b == [b[0]] + b[1..];
    }
  }

  lemma TailsRanked(s: seq<ScoredPlace>)
    requires s != [] && Ranked(s)
    ensures Ranked(s[1..])
  {
    hide HigherFirst;
  }

  /** A ranking puts higher scores first, then names in order, then ids. */
  lemma RankingByScore(s: seq<ScoredPlace>, i: nat, j: nat)
    requires i < j < |StableSort(HigherFirst, s)|
    ensures
      var a, b := StableSort(HigherFirst, s)[i], StableSort(HigherFirst, s)[j];
      && a.score >= b.score
      && (a.score == b.score ==> LexLe(CodePoints(a.place.name), CodePoints(b.place.name)))
      && (a.score == b.score && a.place.name == b.place.name ==> a.place.id <= b.place.id)
  {
    RankingRanked(s);
    var a, b := StableSort(HigherFirst, s)[i], StableSort(HigherFirst, s)[j];
    assert HigherFirst(a, b);
    LexLeTotal(CodePoints(a.place.name), CodePoints(a.place.name));
  }
}
