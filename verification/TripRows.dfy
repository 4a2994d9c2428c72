/** Storing a day: what becomes of the table when the edited day's rows are replaced. */
module TripRows {
  import opened Ordering
  import opened Sequences
  import opened TravelRules
  import opened TripValidator
  import opened TripModel

  /** Rows the edited day can be given: on that day, one per place, numbered upwards. */
  ghost predicate DayOf(renewed: seq<Row>, day: int) {
    && (forall i | 0 <= i < |renewed| :: renewed[i].day == day)
    && Distinct(RowIds(renewed))
    && StrictlySortedByKey(RowOrder, renewed)
  }

  lemma {:induction false} RowForIn(renewed: seq<Row>, r: Row)
    ensures RowFor(renewed, r).placeId == r.placeId
    ensures r.placeId in RowIds(renewed) ==> RowFor(renewed, r) in renewed
    ensures r.placeId !in RowIds(renewed) ==> RowFor(renewed, r) == r
  {
    if renewed != [] {
      RowForIn(renewed[1..], r);
      assert RowIds(renewed) == [renewed[0].placeId] + RowIds(renewed[1..]);
    }
  }

  lemma ReplacedFirst(r: Row, rest: seq<Row>, day: int, renewed: seq<Row>)
    ensures Replaced([r] + rest, day, renewed)
         == [if r.day == day then RowFor(renewed, r) else r] + Replaced(rest, day, renewed)
  {
  }

  /** The other days' rows pass through untouched and in place. */
  lemma {:induction false} OtherDaysKept(rows: seq<Row>, day: int, renewed: seq<Row>, d: int)
    requires d != day && forall i | 0 <= i < |renewed| :: renewed[i].day == day
    ensures Filter(OnDay(d), Replaced(Filter(Survives(day, renewed), rows), day, renewed)) == Filter(OnDay(d), rows)
  {
    if rows == [] {
      assert Replaced([], day, renewed) == [];
    } else {
      OtherDaysKept(rows[1..], day, renewed, d);
      var rest := Filter(Survives(day, renewed), rows[1..]);
      RowForIn(renewed, rows[0]);
      FilterStep(Survives(day, renewed), rows);
      FilterStep(OnDay(d), rows);
      if Survives(day, renewed)(rows[0]) {
        ReplacedFirst(rows[0], rest, day, renewed);
        FilterCons(OnDay(d), if rows[0].day == day then RowFor(renewed, rows[0]) else rows[0],
                   Replaced(rest, day, renewed));
      }
    }
  }

  /** What is left of a day's rows once they are updated. */
  function Updated(dayRows: seq<Row>, renewed: seq<Row>): seq<Row> {
    if dayRows == [] then []
    else
      (if dayRows[0].placeId in RowIds(renewed) then [RowFor(renewed, dayRows[0])] else [])
      + Updated(dayRows[1..], renewed)
  }

  lemma {:induction false} EditedDayUpdated(rows: seq<Row>, day: int, renewed: seq<Row>)
    requires forall i | 0 <= i < |renewed| :: renewed[i].day == day
    ensures Filter(OnDay(day), Replaced(Filter(Survives(day, renewed), rows), day, renewed))
         == Updated(Filter(OnDay(day), rows), renewed)
  {
    if rows == [] {
      assert Replaced([], day, renewed) == [];
    } else {
      EditedDayUpdated(rows[1..], day, renewed);
      var rest := Filter(Survives(day, renewed), rows[1..]);
      RowForIn(renewed, rows[0]);
      FilterStep(Survives(day, renewed), rows);
      FilterStep(OnDay(day), rows);
      if Survives(day, renewed)(rows[0]) {
        ReplacedFirst(rows[0], rest, day, renewed);
        FilterCons(OnDay(day), if rows[0].day == day then RowFor(renewed, rows[0]) else rows[0],
                   Replaced(rest, day, renewed));
      }
    }
  }

  /** Excluding one more element, which occurs once, removes exactly that element. */
  lemma {:induction false} FilterMinusOne(keep: Row -> bool, fewer: Row -> bool, s: seq<Row>, f: Row)
    requires f in s && Distinct(RowIds(s)) && keep(f)
    requires forall x | x in s :: fewer(x) <==> keep(x) && x.placeId != f.placeId
    ensures multiset(Filter(keep, s)) == multiset(Filter(fewer, s)) + multiset{f}
  {
    assert RowIds(s)[1..] == RowIds(s[1..]);
    if s[0] == f {
      forall x | x in s[1..] ensures fewer(x) <==> keep(x) {
        var i :| 0 <= i < |s[1..]| && s[1..][i] == x;
        assert RowIds(s)[0] != RowIds(s)[i + 1];
      }
      FilterSame(keep, fewer, s[1..]);
    } else {
      var i :| 0 <= i < |s| && s[i] == f;
      assert f == s[1..][i - 1];
      assert RowIds(s)[0] != RowIds(s)[i];
      FilterMinusOne(keep, fewer, s[1..], f);
    }
  }

  lemma {:induction false} FilterSame<T>(p: T -> bool, q: T -> bool, s: seq<T>)
    requires forall x | x in s :: p(x) <==> q(x)
    ensures Filter(p, s) == Filter(q, s)
  {
    if s != [] {
      FilterSame(p, q, s[1..]);
    }
  }

  /** Updated rows and inserted rows together are exactly the new rows. */
  lemma {:induction false} UpdatesAndInserts(dayRows: seq<Row>, renewed: seq<Row>)
    requires Distinct(RowIds(dayRows)) && Distinct(RowIds(renewed))
    ensures multiset(Updated(dayRows, renewed)) + multiset(Filter(IsNewTo(dayRows), renewed)) == multiset(renewed)
  {
    if dayRows == [] {
      FilterAll(IsNewTo(dayRows), renewed);
    } else {
      var first, rest := dayRows[0], dayRows[1..];
      assert RowIds(dayRows) == [first.placeId] + RowIds(rest);
      assert RowIds(rest) == RowIds(dayRows)[1..];
      UpdatesAndInserts(rest, renewed);
      RowForIn(renewed, first);
      if first.placeId in RowIds(renewed) {
        forall i | 0 <= i < |rest| ensures RowIds(rest)[i] != first.placeId {
          assert RowIds(dayRows)[0] != RowIds(dayRows)[i + 1];
        }
        FilterMinusOne(IsNewTo(rest), IsNewTo(dayRows), renewed, RowFor(renewed, first));
      } else {
        forall x | x in renewed ensures IsNewTo(rest)(x) <==> IsNewTo(dayRows)(x) {
          InRowIds(renewed, x);
        }
        FilterSame(IsNewTo(rest), IsNewTo(dayRows), renewed);
      }
    }
  }

  lemma InRowIds(rows: seq<Row>, r: Row)
    requires r in rows
    ensures r.placeId in RowIds(rows)
  {
    var i :| 0 <= i < |rows| && rows[i] == r;
    assert RowIds(rows)[i] == r.placeId;
  }

  /** Filtering keeps ids distinct. */
  lemma {:induction false} FilterDistinct(keep: Row -> bool, rows: seq<Row>)
    requires Distinct(RowIds(rows))
    ensures Distinct(RowIds(Filter(keep, rows)))
  {
    if rows != [] {
      var rest := Filter(keep, rows[1..]);
      assert RowIds(rows)[1..] == RowIds(rows[1..]);
      FilterDistinct(keep, rows[1..]);
      var all := RowIds([rows[0]] + rest);
      assert all == [rows[0].placeId] + RowIds(rest);
      forall i | 0 <= i < |rest| ensures RowIds(rest)[i] != rows[0].placeId {
        FilterMembers(keep, rows[1..], rest[i]);
        var j :| 0 <= j < |rows[1..]| && rows[1..][j] == rest[i];
        assert RowIds(rows)[j + 1] == rest[i].placeId;
        assert RowIds(rows)[0] != RowIds(rows)[j + 1];
      }
      FilterStep(keep, rows);
      DistinctCons(rows[0].placeId, RowIds(rest));
    }
  }

  lemma DistinctCons(id: PlaceId, ids: seq<PlaceId>)
    requires Distinct(ids) && forall i | 0 <= i < |ids| :: ids[i] != id
    ensures Distinct([id] + ids)
  {
  }

  /** After storing, the edited day reads back as exactly the new rows, in their order. */
  lemma PersistedDay(rows: seq<Row>, day: int, renewed: seq<Row>)
    requires Distinct(RowIds(rows)) && DayOf(renewed, day)
    ensures DayRows(Persisted(rows, day, renewed), day) == renewed
  {
    hide Replaced, DayOf;
    var dayRows := Filter(OnDay(day), rows);
    var kept := Replaced(Filter(Survives(day, renewed), rows), day, renewed);
    var inserted := Filter(IsNewTo(dayRows), renewed);
    DayOfMeans(renewed, day);
    FilterDistinct(OnDay(day), rows);
    EditedDayUpdated(rows, day, renewed);
    FilterAppend(OnDay(day), kept, inserted);
    forall x | x in inserted ensures OnDay(day)(x) {
      FilterMembers(IsNewTo(dayRows), renewed, x);
    }
    FilterAll(OnDay(day), inserted);
    UpdatesAndInserts(dayRows, renewed);
    StableSortRecovers(RowOrder, Filter(OnDay(day), Persisted(rows, day, renewed)), renewed);
  }

  lemma DayOfMeans(renewed: seq<Row>, day: int)
    requires DayOf(renewed, day)
    ensures forall i | 0 <= i < |renewed| :: renewed[i].day == day
    ensures Distinct(RowIds(renewed)) && StrictlySortedByKey(RowOrder, renewed)
  {
  }

  /** After storing, every other day reads back unchanged. */
  lemma PersistedOtherDay(rows: seq<Row>, day: int, renewed: seq<Row>, d: int)
    requires d != day && forall i | 0 <= i < |renewed| :: renewed[i].day == day
    ensures DayRows(Persisted(rows, day, renewed), d) == DayRows(rows, d)
  {
    var inserted := Filter(IsNewTo(Filter(OnDay(day), rows)), renewed);
    OtherDaysKept(rows, day, renewed, d);
    FilterAppend(OnDay(d), Replaced(Filter(Survives(day, renewed), rows), day, renewed), inserted);
    forall x | x in inserted ensures !OnDay(d)(x) {
      FilterMembers(IsNewTo(Filter(OnDay(day), rows)), renewed, x);
    }
    FilterNone(OnDay(d), inserted);
    assert Filter(OnDay(d), rows) + [] == Filter(OnDay(d), rows);
  }

  lemma DistinctAppend(a: seq<PlaceId>, b: seq<PlaceId>)
    requires Distinct(a) && Distinct(b) && forall x | x in a :: x !in b
    ensures Distinct(a + b)
  {
    forall i, j | 0 <= i < j < |a + b| ensures (a + b)[i] != (a + b)[j] {
      if i < |a| <= j {
        assert a[i] in a && b[j - |a|] in b;
      }
    }
  }

  lemma ReplacedIds(rows: seq<Row>, day: int, renewed: seq<Row>)
    ensures RowIds(Replaced(rows, day, renewed)) == RowIds(rows)
  {
    forall i | 0 <= i < |rows| ensures Replaced(rows, day, renewed)[i].placeId == rows[i].placeId {
      RowForIn(renewed, rows[i]);
    }
  }

  lemma RowOfId(rows: seq<Row>, id: PlaceId) returns (r: Row)
    requires id in RowIds(rows)
    ensures r in rows && r.placeId == id
  {
    var i :| 0 <= i < |rows| && RowIds(rows)[i] == id;
    r := rows[i];
  }

  /** Storing keeps the unique constraint when the new rows take no place from another day. */
  lemma PersistedUnique(rows: seq<Row>, day: int, renewed: seq<Row>)
    requires UniquePlaces(rows) && DayOf(renewed, day)
    requires forall r | r in rows && r.day != day :: r.placeId !in RowIds(renewed)
    ensures UniquePlaces(Persisted(rows, day, renewed))
  {
    var dayRows := Filter(OnDay(day), rows);
    var surviving, inserted := Filter(Survives(day, renewed), rows), Filter(IsNewTo(dayRows), renewed);
    FilterDistinct(Survives(day, renewed), rows);
    FilterDistinct(IsNewTo(dayRows), renewed);
    ReplacedIds(surviving, day, renewed);
    forall id | id in RowIds(surviving) ensures id !in RowIds(inserted) {
      if id in RowIds(inserted) {
        var s := RowOfId(surviving, id);
        var n := RowOfId(inserted, id);
        FilterMembers(Survives(day, renewed), rows, s);
        FilterMembers(IsNewTo(dayRows), renewed, n);
        InRowIds(renewed, n);
        FilterMembers(OnDay(day), rows, s);
        InRowIds(dayRows, s);
      }
    }
    DistinctAppend(RowIds(surviving), RowIds(inserted));
    assert RowIds(Persisted(rows, day, renewed)) == RowIds(surviving) + RowIds(inserted);
  }

  /** A stored row is an old row of another day or one of the new rows. */
  lemma PersistedMember(rows: seq<Row>, day: int, renewed: seq<Row>, r: Row)
    requires DayOf(renewed, day) && Distinct(RowIds(rows))
    ensures r in Persisted(rows, day, renewed) <==> (r in renewed || (r in rows && r.day != day))
  {
    if r.day == day {
      PersistedDay(rows, day, renewed);
      DayRowsMember(Persisted(rows, day, renewed), day, r);
    } else {
      PersistedOtherDay(rows, day, renewed, r.day);
      DayRowsMember(Persisted(rows, day, renewed), r.day, r);
      DayRowsMember(rows, r.day, r);
    }
  }
}
