/** Choosing places: rank by score, then keep each place that conflicts with none kept before it. */
module PlaceSelector {
  import opened Ordering
  import opened TravelRules
  import opened DayAllocator
  import opened Ranking

  datatype Pair = Pair(left: Category, right: Category)

  /** Categories not to be visited on one day. */
  const AVOID_SAME_DAY_PAIRS := [Pair(Monastery, Monastery)]

  predicate Matches(a: Category, b: Category, pair: Pair) {
    (a == pair.left && b == pair.right) || (a == pair.right && b == pair.left)
  }

  /** An unordered match of two categories against the pairs. */
  predicate CategoriesConflict(a: Category, b: Category, pairs: seq<Pair>) {
    exists k | 0 <= k < |pairs| :: Matches(a, b, pairs[k])
  }

  predicate ConflictsWithKept(category: Category, kept: seq<ScoredPlace>, pairs: seq<Pair>) {
    exists k | 0 <= k < |kept| :: CategoriesConflict(category, kept[k].place.category, pairs)
  }

  /** The places kept of a ranking. */
  function Kept(ranking: seq<ScoredPlace>, pairs: seq<Pair>): seq<ScoredPlace> {
    if ranking == [] then []
    else
      var kept, last := Kept(ranking[..|ranking| - 1], pairs), ranking[|ranking| - 1];
      if ConflictsWithKept(last.place.category, kept, pairs) then kept else kept + [last]
  }

  function Selection(scored: seq<ScoredPlace>, pairs: seq<Pair>): seq<ScoredPlace> {
    Kept(StableSort(HigherFirst, scored), pairs)
  }

  /** The pair walk: equal sides match two equal categories, unequal ones match as a set. */
  method PairsConflict(a: Category, b: Category, pairs: seq<Pair>) returns (conflict: bool)
    ensures conflict == CategoriesConflict(a, b, pairs)
  {
    hide Matches;
    for i := 0 to |pairs|
      invariant forall k | 0 <= k < i :: !Matches(a, b, pairs[k])
    {
      var left, right := pairs[i].left, pairs[i].right;
      AsWritten(a, b, pairs[i]);
      if left == right {
        if a == left && b == left {
          return true;
        }
      } else if {a, b} == {left, right} {
        return true;
      }
    }
    return false;
  }

  lemma AsWritten(a: Category, b: Category, pair: Pair)
    ensures Matches(a, b, pair)
       <==> if pair.left == pair.right then a == pair.left && b == pair.left else {a, b} == {pair.left, pair.right}
  {
    var left, right := pair.left, pair.right;
    if left != right && {a, b} == {left, right} {
      assert left in {a, b} && right in {a, b} && a in {left, right} && b in {left, right};
    }
  }

  method AnyConflict(category: Category, kept: seq<ScoredPlace>, pairs: seq<Pair>) returns (conflict: bool)
    ensures conflict == ConflictsWithKept(category, kept, pairs)
  {
    hide CategoriesConflict;
    for i := 0 to |kept|
      invariant !ConflictsWithKept(category, kept[..i], pairs)
    {
      conflict := PairsConflict(category, kept[i].place.category, pairs);
      if conflict {
        return true;
      }
      assert kept[..i + 1] == kept[..i] + [kept[i]];
    }
    assert kept[..|kept|] == kept;
    return false;
  }

  /** select_places, on places that are already scored. */
  method SelectPlaces(scored: seq<ScoredPlace>) returns (kept: seq<ScoredPlace>)
    ensures kept == Selection(scored, AVOID_SAME_DAY_PAIRS)
  {
    hide ConflictsWithKept, HigherFirst;
    var ranking := StableSort(HigherFirst, scored);
    kept := [];
    assert ranking[..0] == [];
    for i := 0 to |ranking|
      invariant kept == Kept(ranking[..i], AVOID_SAME_DAY_PAIRS)
    {
      assert ranking[..i + 1][..i] == ranking[..i];
      var conflict := AnyConflict(ranking[i].place.category, kept, AVOID_SAME_DAY_PAIRS);
      if !conflict {
        kept := kept + [ranking[i]];
      }
    }
    assert ranking[..|ranking|] == ranking;
  }

  // ----- What is kept

  /** A choice from a ranking: which of its places are taken. */
  function Taken(ranking: seq<ScoredPlace>, mask: seq<bool>): seq<ScoredPlace>
    requires |mask| == |ranking|
  {
    if ranking == [] then []
    else
      var front := Taken(ranking[..|ranking| - 1], mask[..|mask| - 1]);
      if mask[|mask| - 1] then front + [ranking[|ranking| - 1]] else front
  }

  ghost predicate Conflict(ranking: seq<ScoredPlace>, i: int, j: int, pairs: seq<Pair>)
    requires 0 <= i < |ranking| && 0 <= j < |ranking|
  {
    CategoriesConflict(ranking[i].place.category, ranking[j].place.category, pairs)
  }

  /** No two taken places conflict, and a place is passed over only for a taken one ranked above it. */
  ghost predicate KeepsHigher(ranking: seq<ScoredPlace>, mask: seq<bool>, pairs: seq<Pair>) {
    && |mask| == |ranking|
    && (forall i, j | 0 <= j < i < |ranking| && mask[i] && mask[j] :: !Conflict(ranking, i, j, pairs))
    && (forall i | 0 <= i < |ranking| && !mask[i] :: exists j | 0 <= j < i :: mask[j] && Conflict(ranking, i, j, pairs))
  }

  lemma {:induction false} TakenConflicts(ranking: seq<ScoredPlace>, mask: seq<bool>, category: Category,
                                          pairs: seq<Pair>)
    requires |mask| == |ranking|
    ensures ConflictsWithKept(category, Taken(ranking, mask), pairs)
       <==> exists j | 0 <= j < |ranking| :: mask[j] && CategoriesConflict(category, ranking[j].place.category, pairs)
  {
    hide CategoriesConflict;
    if ranking != [] {
      var n := |ranking| - 1;
      TakenConflicts(ranking[..n], mask[..n], category, pairs);
      var front, whole := Taken(ranking[..n], mask[..n]), Taken(ranking, mask);
      if ConflictsWithKept(category, front, pairs) {
        var k :| 0 <= k < |front| && CategoriesConflict(category, front[k].place.category, pairs);
        assert whole[k] == front[k];
        var j :| 0 <= j < n && mask[..n][j] && CategoriesConflict(category, ranking[..n][j].place.category, pairs);
        assert mask[j] && ranking[j] == ranking[..n][j];
      } else if mask[n] && CategoriesConflict(category, ranking[n].place.category, pairs) {
        assert whole[|front|] == ranking[n];
      } else {
        forall j | 0 <= j < |ranking| && mask[j]
          ensures !CategoriesConflict(category, ranking[j].place.category, pairs)
        {
          if j < n {
            assert mask[..n][j] && ranking[..n][j] == ranking[j];
          }
        }
        forall k | 0 <= k < |whole| ensures !CategoriesConflict(category, whole[k].place.category, pairs) {
          assert k < |front| ==> whole[k] == front[k];
        }
      }
    }
  }

  lemma KeepsHigherFront(ranking: seq<ScoredPlace>, mask: seq<bool>, pairs: seq<Pair>)
    requires ranking != [] && KeepsHigher(ranking, mask, pairs)
    ensures KeepsHigher(ranking[..|ranking| - 1], mask[..|mask| - 1], pairs)
  {
    hide CategoriesConflict;
    var n := |ranking| - 1;
    forall i | 0 <= i < n && !mask[..n][i]
      ensures exists j | 0 <= j < i :: mask[..n][j] && Conflict(ranking[..n], i, j, pairs)
    {
      var j :| 0 <= j < i && mask[j] && Conflict(ranking, i, j, pairs);
      assert mask[..n][j] && Conflict(ranking[..n], i, j, pairs);
    }
    forall i, j | 0 <= j < i < n && mask[..n][i] && mask[..n][j] ensures !Conflict(ranking[..n], i, j, pairs) {
      assert mask[i] && mask[j] && !Conflict(ranking, i, j, pairs);
    }
  }

  /**
   * Whatever the forbidden pairs: there is only one conflict-free choice that passes a place over solely for a
   * higher-ranked one, and it is what is kept.
   */
  lemma {:induction false} KeptIsTheOnlyChoice(ranking: seq<ScoredPlace>, mask: seq<bool>, pairs: seq<Pair>)
    requires KeepsHigher(ranking, mask, pairs)
    ensures Kept(ranking, pairs) == Taken(ranking, mask)
  {
    hide CategoriesConflict, ConflictsWithKept;
    if ranking != [] {
      var n := |ranking| - 1;
      KeepsHigherFront(ranking, mask, pairs);
      KeptIsTheOnlyChoice(ranking[..n], mask[..n], pairs);
      TakenConflicts(ranking[..n], mask[..n], ranking[n].place.category, pairs);
      if !mask[n] {
        var j :| 0 <= j < n && mask[j] && Conflict(ranking, n, j, pairs);
        assert mask[..n][j] && ranking[..n][j] == ranking[j];
      } else {
        forall j | 0 <= j < n && mask[..n][j]
          ensures !CategoriesConflict(ranking[n].place.category, ranking[..n][j].place.category, pairs)
        {
          assert mask[j] && !Conflict(ranking, n, j, pairs);
        }
      }
    }
  }

  /** And there always is such a choice, as long as the last place is judged against those before it. */
  lemma {:induction false} KeptChooses(ranking: seq<ScoredPlace>, pairs: seq<Pair>) returns (mask: seq<bool>)
    ensures KeepsHigher(ranking, mask, pairs)
    ensures Kept(ranking, pairs) == Taken(ranking, mask)
  {
    hide CategoriesConflict, ConflictsWithKept;
    if ranking == [] {
      mask := [];
    } else {
      var n := |ranking| - 1;
      var front := KeptChooses(ranking[..n], pairs);
      var category := ranking[n].place.category;
      mask := front + [!ConflictsWithKept(category, Kept(ranking[..n], pairs), pairs)];
      assert mask[..n] == front;
      TakenConflicts(ranking[..n], front, category, pairs);
      ChoiceExtends(ranking, mask, pairs);
    }
  }

  lemma ChoiceExtends(ranking: seq<ScoredPlace>, mask: seq<bool>, pairs: seq<Pair>)
    requires ranking != [] && |mask| == |ranking|
    requires KeepsHigher(ranking[..|ranking| - 1], mask[..|mask| - 1], pairs)
    requires
      var n := |ranking| - 1;
      mask[n] <==> !exists j | 0 <= j < n ::
        mask[..n][j] && CategoriesConflict(ranking[n].place.category, ranking[..n][j].place.category, pairs)
    ensures KeepsHigher(ranking, mask, pairs)
  {
    hide CategoriesConflict;
    var n := |ranking| - 1;
    forall i, j | 0 <= j < i < |ranking| && mask[i] && mask[j] ensures !Conflict(ranking, i, j, pairs) {
      assert mask[..n][j] && ranking[..n][j] == ranking[j];
      if i < n {
        assert mask[..n][i] && !Conflict(ranking[..n], i, j, pairs);
      }
    }
    forall i | 0 <= i < |ranking| && !mask[i]
      ensures exists j | 0 <= j < i :: mask[j] && Conflict(ranking, i, j, pairs)
    {
      if i < n {
        assert !mask[..n][i];
        var j :| 0 <= j < i && mask[..n][j] && Conflict(ranking[..n], i, j, pairs);
        assert mask[j] && Conflict(ranking, i, j, pairs);
      } else {
        var j :| 0 <= j < n && mask[..n][j]
            && CategoriesConflict(ranking[n].place.category, ranking[..n][j].place.category, pairs);
        assert mask[j] && Conflict(ranking, i, j, pairs);
      }
    }
  }

  // ----- What the selection means

  /** With distinct ids the selection does not depend on the order the candidates came in. */
  lemma SelectionInputIndependent(a: seq<ScoredPlace>, b: seq<ScoredPlace>, pairs: seq<Pair>)
    requires DistinctStops(a) && multiset(a) == multiset(b)
    ensures Selection(a, pairs) == Selection(b, pairs)
  {
    hide HigherFirst, Ranked, DistinctStops;
    RankingRanked(a);
    RankingRanked(b);
    StableSortPermutes(HigherFirst, a);
    StableSortPermutes(HigherFirst, b);
    DistinctPermuted(a, StableSort(HigherFirst, a));
    RankedUnique(StableSort(HigherFirst, a), StableSort(HigherFirst, b));
  }

  lemma NoPairConflict(category: Category, kept: seq<ScoredPlace>)
    ensures ConflictsWithKept(category, kept, AVOID_SAME_DAY_PAIRS)
       <==> category == Monastery && exists k | 0 <= k < |kept| :: kept[k].place.category == Monastery
  {
    forall k | 0 <= k < |kept|
      ensures CategoriesConflict(category, kept[k].place.category, AVOID_SAME_DAY_PAIRS)
         <==> category == Monastery && kept[k].place.category == Monastery
    {
      assert Matches(category, kept[k].place.category, AVOID_SAME_DAY_PAIRS[0])
        <==> category == Monastery && kept[k].place.category == Monastery;
    }
  }

  lemma {:induction false} KeptMembers(ranking: seq<ScoredPlace>, x: ScoredPlace)
    requires Ranked(ranking)
    ensures
      var kept := Kept(ranking, AVOID_SAME_DAY_PAIRS);
      && (x in kept ==> x in ranking)
      && (x in ranking && x.place.category != Monastery ==> x in kept)
      && (forall i, j | 0 <= i < j < |kept| ::
            kept[i].place.category != Monastery || kept[j].place.category != Monastery)
      && (x in ranking && x.place.category == Monastery ==>
            exists k | 0 <= k < |kept| :: kept[k].place.category == Monastery && kept[k].score >= x.score)
  {
    hide ConflictsWithKept;
    if ranking != [] {
      var front, last := ranking[..|ranking| - 1], ranking[|ranking| - 1];
      KeptMembers(front, x);
      assert ranking == front + [last];
      var before, kept := Kept(front, AVOID_SAME_DAY_PAIRS), Kept(ranking, AVOID_SAME_DAY_PAIRS);
      NoPairConflict(last.place.category, before);
      if x == last && last.place.category == Monastery {
        if ConflictsWithKept(last.place.category, before, AVOID_SAME_DAY_PAIRS) {
          var k :| 0 <= k < |before| && before[k].place.category == Monastery;
          KeptMembers(front, before[k]);
          assert kept[k].score >= x.score by {
            var i :| 0 <= i < |front| && front[i] == before[k];
            assert HigherFirst(ranking[i], ranking[|ranking| - 1]);
          }
        } else {
          assert kept[|before|] == last;
        }
      } else if x in front && x.place.category == Monastery {
        var k :| 0 <= k < |before| && before[k].place.category == Monastery && before[k].score >= x.score;
        assert kept[k] == before[k];
      }
    }
  }

  /**
   * With the pairs of the engine: nothing but monasteries is ever passed over, at most one monastery is kept,
   * and it scores at least as high as every monastery there was.
   */
  lemma BestMonasteryOnly(scored: seq<ScoredPlace>, x: ScoredPlace)
    ensures
      var kept := Selection(scored, AVOID_SAME_DAY_PAIRS);
      && (x in kept ==> x in scored)
      && (x in scored && x.place.category != Monastery ==> x in kept)
      && (forall i, j | 0 <= i < j < |kept| ::
            kept[i].place.category != Monastery || kept[j].place.category != Monastery)
      && (x in scored && x.place.category == Monastery ==>
            exists k | 0 <= k < |kept| :: kept[k].place.category == Monastery && kept[k].score >= x.score)
  {
    hide HigherFirst, Ranked;
    var ranking := StableSort(HigherFirst, scored);
    RankingRanked(scored);
    StableSortPermutes(HigherFirst, scored);
    assert x in ranking <==> x in multiset(ranking);
    assert x in scored <==> x in multiset(scored);
    KeptMembers(ranking, x);
  }
}
