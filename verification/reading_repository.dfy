/** `ReadingRepository.get_for_period`: the readings of one meter whose
    period lies in an inclusive range, ordered by period. The older and the
    newer tree carry the same query. */
module ReadingRepository {
  import opened Dates
  import opened Results
  import opened Models

  predicate InRange(r: Reading, meter: MeterId, start: Date, end: Date) {
    r.meter == meter && Le(start, r.period) && Le(r.period, end)
  }

  /** Some stored reading of `meter` carries period `d`. */
  predicate HasReading(rows: seq<Reading>, meter: MeterId, d: Date) {
    exists i :: 0 <= i < |rows| && rows[i].meter == meter && rows[i].period == d
  }

  predicate SortedByPeriod(rs: seq<Reading>) {
    forall i, j :: 0 <= i < j < |rs| ==> Le(rs[i].period, rs[j].period)
  }

  /** The filter: the matching rows in storage order. */
  function Select(rows: seq<Reading>, meter: MeterId, start: Date, end: Date): seq<Reading> {
    if |rows| == 0 then []
    else
      var rest := Select(rows[1..], meter, start, end);
      if InRange(rows[0], meter, start, end) then [rows[0]] + rest else rest
  }

  /** The filter keeps every matching row, as often as it is stored, and
      nothing else. */
  lemma {:induction false} SelectKeepsMatches(rows: seq<Reading>, meter: MeterId, start: Date, end: Date)
    ensures forall x :: multiset(Select(rows, meter, start, end))[x]
                        == if InRange(x, meter, start, end) then multiset(rows)[x] else 0
  {
    if |rows| > 0 {
      assert rows == [rows[0]] + rows[1..];
      SelectKeepsMatches(rows[1..], meter, start, end);
    }
  }

  /** Places `x` before the first reading of a period not earlier than its own. */
  function Insert(x: Reading, s: seq<Reading>): seq<Reading> {
    if |s| == 0 then [x]
    else if Le(x.period, s[0].period) then [x] + s
    else [s[0]] + Insert(x, s[1..])
  }

  /** Inserting adds `x` and keeps every element, as often as it occurs. */
  lemma {:induction false} InsertAddsOne(x: Reading, s: seq<Reading>)
    ensures multiset(Insert(x, s)) == multiset(s) + multiset{x}
  {
    if |s| > 0 && !Le(x.period, s[0].period) {
      assert s == [s[0]] + s[1..];
      InsertAddsOne(x, s[1..]);
    }
  }

  /** A reading no later than every element of a sorted sequence can lead it. */
  lemma ConsSorted(a: Reading, rest: seq<Reading>)
    requires SortedByPeriod(rest)
    requires forall j :: 0 <= j < |rest| ==> Le(a.period, rest[j].period)
    ensures SortedByPeriod([a] + rest)
  {
    var t := [a] + rest;
    forall i, j | 0 <= i < j < |t|
      ensures Le(t[i].period, t[j].period)
    {
      assert t[j] == rest[j - 1];
      if i > 0 {
        assert t[i] == rest[i - 1];
      }
    }
  }

  lemma {:induction false} InsertKeepsOrder(x: Reading, s: seq<Reading>)
    requires SortedByPeriod(s)
    ensures SortedByPeriod(Insert(x, s))
  {
    if |s| == 0 {
    } else if Le(x.period, s[0].period) {
      forall j | 0 <= j < |s|
        ensures Le(x.period, s[j].period)
      {
        if j > 0 {
          LeIsTransitive(x.period, s[0].period, s[j].period);
        }
      }
      ConsSorted(x, s);
    } else {
      var tail := s[1..];
      assert SortedByPeriod(tail) by {
        forall i, j | 0 <= i < j < |tail|
          ensures Le(tail[i].period, tail[j].period)
        {
          assert tail[i] == s[i + 1] && tail[j] == s[j + 1];
        }
      }
      InsertKeepsOrder(x, tail);
      InsertAddsOne(x, tail);
      var rest := Insert(x, tail);
      forall j | 0 <= j < |rest|
        ensures Le(s[0].period, rest[j].period)
      {
        assert rest[j] in multiset(rest);
        if rest[j] != x {
          assert rest[j] in multiset(tail);
          var k :| 0 <= k < |tail| && tail[k] == rest[j];
          assert s[k + 1] == rest[j];
        }
      }
      ConsSorted(s[0], rest);
    }
  }

  /** The `order_by("period")`: an insertion sort. */
  function SortByPeriod(s: seq<Reading>): seq<Reading> {
    if |s| == 0 then [] else Insert(s[0], SortByPeriod(s[1..]))
  }

  lemma {:induction false} SortByPeriodSorts(s: seq<Reading>)
    ensures SortedByPeriod(SortByPeriod(s))
    ensures multiset(SortByPeriod(s)) == multiset(s)
  {
    if |s| > 0 {
      assert s == [s[0]] + s[1..];
      SortByPeriodSorts(s[1..]);
      InsertKeepsOrder(s[0], SortByPeriod(s[1..]));
      InsertAddsOne(s[0], SortByPeriod(s[1..]));
    }
  }

  /** The query: the matching rows, sorted by period (`GetForPeriodIsExact`
      states what it returns). */
  function GetForPeriod(rows: seq<Reading>, meter: MeterId, start: Date, end: Date): seq<Reading> {
    SortByPeriod(Select(rows, meter, start, end))
  }

  /** The query returns exactly the stored readings of `meter` inside
      `[start, end]`, each as often as it is stored, in period order. */
  lemma GetForPeriodIsExact(rows: seq<Reading>, meter: MeterId, start: Date, end: Date)
    ensures var r := GetForPeriod(rows, meter, start, end);
            && (forall i :: 0 <= i < |r| ==> InRange(r[i], meter, start, end))
            && (forall x :: x in rows && InRange(x, meter, start, end) ==> x in r)
            && (forall x :: multiset(r)[x] == if InRange(x, meter, start, end) then multiset(rows)[x] else 0)
            && SortedByPeriod(r)
  {
    var selected := Select(rows, meter, start, end);
    SelectKeepsMatches(rows, meter, start, end);
    SortByPeriodSorts(selected);
    var r := SortByPeriod(selected);
    assert forall i :: 0 <= i < |r| ==> r[i] in multiset(r);
  }

  /** A query whose two bounds are one period finds a reading exactly when
      one is stored for that meter and period, and every reading it returns
      is of that meter and period. */
  lemma {:induction false} EqualBoundsFinds(rows: seq<Reading>, meter: MeterId, d: Date)
    ensures |GetForPeriod(rows, meter, d, d)| > 0 <==> HasReading(rows, meter, d)
    ensures forall x :: x in GetForPeriod(rows, meter, d, d) ==> x in rows && x.meter == meter && x.period == d
  {
    var r := GetForPeriod(rows, meter, d, d);
    GetForPeriodIsExact(rows, meter, d, d);
    if HasReading(rows, meter, d) {
      var i :| 0 <= i < |rows| && rows[i].meter == meter && rows[i].period == d;
      assert rows[i] in rows;
    }
    if |r| > 0 {
      assert r[0] in multiset(r);
      assert r[0] in rows;
      var i :| 0 <= i < |rows| && rows[i] == r[0];
    }
    forall x | x in r
      ensures x in rows && x.meter == meter && x.period == d
    {
      var i :| 0 <= i < |r| && r[i] == x;
      assert x in multiset(r);
      LeIsAntisymmetric(x.period, d);
    }
  }

  /** With at most one reading per (meter, period), a query whose two bounds
      are one period returns at most one reading: indexing its first element
      picks the only candidate. */
  lemma {:induction false} EqualBoundsAtMostOne(rows: seq<Reading>, meter: MeterId, d: Date)
    requires ReadingsUnique(rows)
    ensures |GetForPeriod(rows, meter, d, d)| <= 1
  {
    SelectAtMostOne(rows, meter, d);
    var s := Select(rows, meter, d, d);
    SortByPeriodSorts(s);
    assert |SortByPeriod(s)| == |multiset(SortByPeriod(s))| == |multiset(s)| == |s|;
  }

  lemma {:induction false} SelectAtMostOne(rows: seq<Reading>, meter: MeterId, d: Date)
    requires ReadingsUnique(rows)
    ensures |Select(rows, meter, d, d)| <= 1
  {
    if |rows| > 0 {
      var tail := rows[1..];
      assert ReadingsUnique(tail) by {
        forall i, j | 0 <= i < j < |tail|
          ensures tail[i].meter != tail[j].meter || tail[i].period != tail[j].period
        {
          assert tail[i] == rows[i + 1] && tail[j] == rows[j + 1];
        }
      }
      SelectAtMostOne(tail, meter, d);
      if InRange(rows[0], meter, d, d) {
        LeIsAntisymmetric(rows[0].period, d);
        var rest := Select(tail, meter, d, d);
        if |rest| > 0 {
          SelectKeepsMatches(tail, meter, d, d);
          assert false;
        }
      }
    }
  }

  /** With at most one reading per (meter, period), "the reading of this
      period" is the stored one. */
  lemma PeriodReadingIsTheStoredOne(rows: seq<Reading>, x: Reading)
    requires ReadingsUnique(rows) && x in rows
    ensures PeriodReading(rows, x.meter, x.period) == Some(x)
  {
    var y := PeriodReading(rows, x.meter, x.period).value;
    var i :| 0 <= i < |rows| && rows[i] == x;
    var j :| 0 <= j < |rows| && rows[j] == y;
    assert i == j;
  }

  /** `get_for_period(meter, d, d)` read as "the reading of this period":
      its first element when it is not empty. */
  function PeriodReading(rows: seq<Reading>, meter: MeterId, d: Date): (r: Option<Reading>)
    ensures r.Some? <==> HasReading(rows, meter, d)
    ensures r.Some? ==> r.value in rows && r.value.meter == meter && r.value.period == d
  {
    var found := GetForPeriod(rows, meter, d, d);
    EqualBoundsFinds(rows, meter, d);
    if |found| == 0 then None
    else
      assert found[0] in found;
      Some(found[0])
  }
}
