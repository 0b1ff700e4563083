/** Printed timetables of lines: trips become rows, the rows of a direction one order that every agreeing trip
    reads down, and each trip's calls the cells of its column. */
module Timetables {
  import opened Model
  import opened Lexical

  /** A row: a stop, and which visit of it. */
  datatype Row = Row(stop: string, visit: int)

  predicate Distinct<T(==)>(s: seq<T>) {
    forall i, j :: 0 <= i < j < |s| ==> s[i] != s[j]
  }

  lemma HasFirst<T>(s: seq<T>)
    ensures s != [] ==> s[0] in s
  {
  }

  // ----- rows ----------------------------------------------------------------------------------

  function Visits(stops: seq<string>, stop: string): (n: int)
    ensures n >= 0 && (n > 0 <==> stop in stops)
  {
    if stops == [] then 0
    else Visits(stops[..|stops| - 1], stop) + if stops[|stops| - 1] == stop then 1 else 0
  }

  function Rows(stops: seq<string>): (rows: seq<Row>)
    ensures |rows| == |stops|
  {
    seq(|stops|, i requires 0 <= i < |stops| => Row(stops[i], Visits(stops[..i + 1], stops[i])))
  }

  /** Numbers each stop of a trip by how often it has been called at so far. */
  method RowsOf(stops: seq<string>) returns (rows: seq<Row>)
    ensures rows == Rows(stops)
  {
    var seen: map<string, int> := map[];
    rows := [];
    for i := 0 to |stops|
      invariant rows == Rows(stops)[..i] && Counts(seen, stops[..i])
    {
      RowsNext(seen, stops, i);
      CountsNext(seen, stops, i);
      var n := SoFar(seen, stops[i]) + 1;
      seen := seen[stops[i] := n];
      rows := rows + [Row(stops[i], n)];
    }
  }

  function SoFar(seen: map<string, int>, stop: string): int {
    if stop in seen then seen[stop] else 0
  }

  ghost predicate Counts(seen: map<string, int>, stops: seq<string>) {
    forall stop :: SoFar(seen, stop) == Visits(stops, stop)
  }

  lemma CountsNext(seen: map<string, int>, stops: seq<string>, i: int)
    requires 0 <= i < |stops| && Counts(seen, stops[..i])
    ensures Counts(seen[stops[i] := SoFar(seen, stops[i]) + 1], stops[..i + 1])
  {
    VisitsNext(stops, i);
    var after := seen[stops[i] := SoFar(seen, stops[i]) + 1];
    forall stop ensures SoFar(after, stop) == Visits(stops[..i + 1], stop) {
      assert SoFar(seen, stop) == Visits(stops[..i], stop);
    }
  }

  lemma RowsNext(seen: map<string, int>, stops: seq<string>, i: int)
    requires 0 <= i < |stops| && Counts(seen, stops[..i])
    ensures Rows(stops)[..i + 1] == Rows(stops)[..i] + [Row(stops[i], SoFar(seen, stops[i]) + 1)]
  {
    assert SoFar(seen, stops[i]) == Visits(stops[..i], stops[i]);
    VisitsAt(stops, i, stops[i]);
    OneMore(Rows(stops), i);
  }

  lemma OneMore<T>(s: seq<T>, i: int)
    requires 0 <= i < |s|
    ensures s[..i + 1] == s[..i] + [s[i]]
  {
  }

  lemma VisitsNext(stops: seq<string>, i: int)
    requires 0 <= i < |stops|
    ensures forall s :: Visits(stops[..i + 1], s) == Visits(stops[..i], s) + if stops[i] == s then 1 else 0
  {
    assert stops[..i + 1][..i] == stops[..i];
  }

  lemma VisitsAt(stops: seq<string>, i: int, stop: string)
    requires 0 <= i < |stops|
    ensures Visits(stops[..i + 1], stop) == Visits(stops[..i], stop) + if stops[i] == stop then 1 else 0
  {
    VisitsNext(stops, i);
  }

  lemma {:induction false} VisitsGrow(stops: seq<string>, i: int, j: int, stop: string)
    requires 0 <= i <= j <= |stops|
    ensures Visits(stops[..i], stop) <= Visits(stops[..j], stop)
  {
    if i < j {
      VisitsGrow(stops, i, j - 1, stop);
      VisitsAt(stops, j - 1, stop);
    }
  }

  lemma VisitsRise(stops: seq<string>, i: int, j: int)
    requires 0 <= i < j < |stops|
    ensures Visits(stops[..i + 1], stops[j]) < Visits(stops[..j + 1], stops[j])
  {
    VisitsGrow(stops, i + 1, j, stops[j]);
    VisitsAt(stops, j, stops[j]);
  }

  /** A later row of a stop is of a later visit. */
  lemma RowsRise(stops: seq<string>, i: int, j: int)
    requires 0 <= i < j < |stops| && stops[i] == stops[j]
    ensures Rows(stops)[i].visit < Rows(stops)[j].visit
  {
    VisitsRise(stops, i, j);
  }

  /** A trip has no row twice, and its stops can be read back off its rows. */
  lemma RowsDistinct(stops: seq<string>)
    ensures Distinct(Rows(stops))
    ensures forall i | 0 <= i < |stops| :: Rows(stops)[i].stop == stops[i]
  {
    forall i, j | 0 <= i < j < |stops| ensures Rows(stops)[i] != Rows(stops)[j] {
      if stops[i] == stops[j] {
        RowsRise(stops, i, j);
      } else {
        assert Rows(stops)[i].stop != Rows(stops)[j].stop;
      }
    }
  }

  /** Visits of a stop count up from 1 along the trip. */
  lemma RowsCount(stops: seq<string>, i: int)
    requires 0 <= i < |stops|
    ensures var row := Rows(stops)[i];
            row.visit >= 1 && (row.visit > 1 ==> exists k :: 0 <= k < i && Rows(stops)[k] == Row(row.stop, row.visit - 1))
  {
    assert stops[..i + 1][..i] == stops[..i];
    if Rows(stops)[i].visit > 1 {
      var k := LastVisit(stops, i, stops[i]);
      assert Rows(stops)[k] == Row(stops[i], Rows(stops)[i].visit - 1);
    }
  }

  lemma {:induction false} LastVisit(stops: seq<string>, i: int, stop: string) returns (k: int)
    requires 0 <= i <= |stops| && Visits(stops[..i], stop) > 0
    ensures 0 <= k < i && stops[k] == stop && Visits(stops[..k + 1], stop) == Visits(stops[..i], stop)
  {
    assert stops[..i][..i - 1] == stops[..i - 1];
    if stops[i - 1] == stop {
      k := i - 1;
    } else {
      k := LastVisit(stops, i - 1, stop);
    }
  }

  // ----- placing one trip's rows ---------------------------------------------------------------

  function IndexOf(order: seq<Row>, row: Row): (n: int)
    requires row in order
    ensures 0 <= n < |order| && order[n] == row && row !in order[..n]
  {
    if order[0] == row then 0
    else
      assert order == [order[0]] + order[1..];
      1 + IndexOf(order[1..], row)
  }

  /** The order so far, and the place of the trip's row placed last (-1 before any). */
  datatype Placing = Placing(order: seq<Row>, at: int) {
    predicate Valid() {
      -1 <= at < |order| && Distinct(order)
    }
  }

  function PlaceRow(p: Placing, row: Row): Placing
    requires p.Valid()
  {
    if row in p.order then Placing(p.order, IndexOf(p.order, row))
    else Placing(p.order[..p.at + 1] + [row] + p.order[p.at + 1..], p.at + 1)
  }

  lemma PlaceRowValid(p: Placing, row: Row)
    requires p.Valid()
    ensures PlaceRow(p, row).Valid() && PlaceRow(p, row).order[PlaceRow(p, row).at] == row
  {
  }

  function Place(order: seq<Row>, rows: seq<Row>): (p: Placing)
    requires Distinct(order)
    ensures p.Valid() && (rows != [] ==> p.at >= 0 && p.order[p.at] == rows[|rows| - 1])
  {
    if rows == [] then Placing(order, -1)
    else
      PlaceRowValid(Place(order, rows[..|rows| - 1]), rows[|rows| - 1]);
      PlaceRow(Place(order, rows[..|rows| - 1]), rows[|rows| - 1])
  }

  lemma PlaceNext(order: seq<Row>, rows: seq<Row>, i: int)
    requires Distinct(order) && 0 <= i < |rows|
    ensures Place(order, rows[..i + 1]) == PlaceRow(Place(order, rows[..i]), rows[i])
  {
    assert rows[..i + 1][..i] == rows[..i];
  }

  /** Insert a trip's rows not yet placed, each after the row that comes before it in the trip. */
  method MergeOne(order: seq<Row>, rows: seq<Row>) returns (merged: seq<Row>)
    requires Distinct(order)
    ensures merged == Place(order, rows).order
  {
    merged := order;
    var at := -1;
    for i := 0 to |rows|
      invariant Placing(merged, at) == Place(order, rows[..i])
    {
      PlaceNext(order, rows, i);
      if rows[i] in merged {
        at := IndexOf(merged, rows[i]);
      } else {
        at := at + 1;
        merged := merged[..at] + [rows[i]] + merged[at..];
      }
    }
    assert rows[..|rows|] == rows;
  }

  // ----- what placing keeps --------------------------------------------------------------------

  /** Row `a` stands above row `b`. */
  ghost predicate Above(order: seq<Row>, a: Row, b: Row) {
    a in order && b in order && IndexOf(order, a) < IndexOf(order, b)
  }

  lemma IndexIs(order: seq<Row>, n: int)
    requires Distinct(order) && 0 <= n < |order|
    ensures IndexOf(order, order[n]) == n
  {
    var m := IndexOf(order, order[n]);
    assert order[m] == order[n];
    assert order[n] !in order[..m];
  }

  /** Where rows stand once one more is placed. */
  lemma PlaceRowMoves(p: Placing, row: Row, x: Row)
    requires p.Valid() && x in p.order
    ensures var q := PlaceRow(p, row).order;
            x in q && IndexOf(q, x) == IndexOf(p.order, x) + if row !in p.order && IndexOf(p.order, x) > p.at then 1 else 0
  {
    var q := PlaceRow(p, row).order;
    var n := IndexOf(p.order, x);
    PlaceRowValid(p, row);
    if row !in p.order {
      assert q[if n > p.at then n + 1 else n] == x;
      IndexIs(q, if n > p.at then n + 1 else n);
    }
  }

  /** Rows already placed never change their order. */
  ghost predicate Keeps(order: seq<Row>, more: seq<Row>) {
    && (forall x <- order :: x in more)
    && (forall a <- order, b <- order :: Above(order, a, b) <==> Above(more, a, b))
  }

  lemma PlaceRowKeeps(p: Placing, row: Row)
    requires p.Valid()
    ensures Keeps(p.order, PlaceRow(p, row).order)
    ensures forall x :: x in PlaceRow(p, row).order <==> x in p.order || x == row
  {
    var q := PlaceRow(p, row).order;
    forall a, b | a in p.order && b in p.order ensures a in q && (Above(p.order, a, b) <==> Above(q, a, b)) {
      PlaceRowMoves(p, row, a);
      PlaceRowMoves(p, row, b);
    }
  }

  lemma KeepsOn(a: seq<Row>, b: seq<Row>, c: seq<Row>)
    requires Keeps(a, b) && Keeps(b, c)
    ensures Keeps(a, c)
  {
    forall x, y | x in a && y in a ensures Above(a, x, y) <==> Above(c, x, y) {
      assert x in b && y in b;
    }
  }

  /** Placing a trip keeps the order of what was placed and adds exactly the trip's rows. */
  lemma {:induction false} PlaceKeeps(order: seq<Row>, rows: seq<Row>)
    requires Distinct(order)
    ensures Keeps(order, Place(order, rows).order)
    ensures forall x :: x in Place(order, rows).order <==> x in order || x in rows
  {
    if rows != [] {
      var front, last := rows[..|rows| - 1], rows[|rows| - 1];
      assert rows == front + [last];
      PlaceKeeps(order, front);
      PlaceRowKeeps(Place(order, front), last);
      KeepsOn(order, Place(order, front).order, Place(order, rows).order);
    }
  }

  /** The order reads the trip's rows downwards. */
  ghost predicate ReadsDown(order: seq<Row>, rows: seq<Row>) {
    && (forall x <- rows :: x in order)
    && (forall i, j :: 0 <= i < j < |rows| ==> Above(order, rows[i], rows[j]))
  }

  /** The trip agrees with the order: those of its rows it holds stand in the trip's own order. */
  ghost predicate Agrees(order: seq<Row>, rows: seq<Row>) {
    forall i, j :: 0 <= i < j < |rows| && rows[i] in order && rows[j] in order ==> Above(order, rows[i], rows[j])
  }

  /** Row `x` of the order comes after all of the trip's rows the order holds. */
  ghost predicate Follows(order: seq<Row>, rows: seq<Row>, x: Row) {
    x in order && forall r <- rows :: r in order ==> Above(order, r, x)
  }

  /** While the trip agrees, its placed rows stand in order down to `at`, and what follows them all
      in the old order stands below `at`. */
  lemma {:induction false} PlaceInOrder(order: seq<Row>, rows: seq<Row>)
    requires Distinct(order) && Distinct(rows) && Agrees(order, rows)
    ensures var p := Place(order, rows);
            && ReadsDown(p.order, rows)
            && (forall x <- rows :: x in p.order && IndexOf(p.order, x) <= p.at)
            && (forall x <- order :: Follows(order, rows, x) ==> x in p.order && IndexOf(p.order, x) > p.at)
  {
    if rows != [] {
      var front, last := rows[..|rows| - 1], rows[|rows| - 1];
      assert rows == front + [last];
      PlaceInOrder(order, front);
      PlaceKeeps(order, front);
      var p := Place(order, front);
      var q := PlaceRow(p, last);
      assert last !in front by {
        forall i | 0 <= i < |front| ensures front[i] != last {
          assert rows[i] != rows[|rows| - 1];
        }
      }
      PlaceRowKeeps(p, last);
      PlaceRowValid(p, last);
      IndexIs(q.order, q.at);
      PlacedBelow(order, front, last, p);
      forall x | x in front ensures x in q.order && IndexOf(q.order, x) < q.at {
        PlaceRowMoves(p, last, x);
      }
      forall i, j | 0 <= i < j < |rows| ensures Above(q.order, rows[i], rows[j]) {
        assert rows[i] == front[i];
        if j < |front| {
          assert rows[j] == front[j];
          assert Above(p.order, front[i], front[j]);
        }
      }
      forall x | x in order && Follows(order, rows, x) ensures x in q.order && IndexOf(q.order, x) > q.at {
        FollowsStays(order, front, last, p, x);
      }
    }
  }

  /** The next row of an agreeing trip, where already placed, stands below `at`. */
  lemma PlacedBelow(order: seq<Row>, front: seq<Row>, last: Row, p: Placing)
    requires Distinct(order) && Distinct(front + [last]) && Agrees(order, front + [last]) && last !in front
    requires p == Place(order, front)
    requires forall x :: x in p.order <==> x in order || x in front
    requires forall x <- order :: Follows(order, front, x) ==> x in p.order && IndexOf(p.order, x) > p.at
    ensures last in p.order ==> IndexOf(p.order, last) > p.at
  {
    if last in p.order {
      forall r | r in front && r in order ensures Above(order, r, last) {
        var i :| 0 <= i < |front| && front[i] == r;
        assert (front + [last])[i] == r && (front + [last])[|front|] == last;
      }
      assert Follows(order, front, last);
    }
  }

  lemma FollowsStays(order: seq<Row>, front: seq<Row>, last: Row, p: Placing, x: Row)
    requires Distinct(order) && p == Place(order, front)
    requires Follows(order, front + [last], x) && Keeps(order, p.order)
    requires last in p.order ==> last in order
    requires forall x <- order :: Follows(order, front, x) ==> x in p.order && IndexOf(p.order, x) > p.at
    ensures x in PlaceRow(p, last).order && IndexOf(PlaceRow(p, last).order, x) > PlaceRow(p, last).at
  {
    assert Follows(order, front, x) by {
      forall r | r in front && r in order ensures Above(order, r, x) {
        assert r in front + [last];
      }
    }
    PlaceRowMoves(p, last, x);
    if last in p.order {
      assert last in front + [last];
      assert Above(order, last, x);
    }
  }

  /** A trip's rows end in its own order exactly when it agreed with the order it was merged into. */
  lemma MergedReadsDown(order: seq<Row>, rows: seq<Row>)
    requires Distinct(order) && Distinct(rows)
    ensures ReadsDown(Place(order, rows).order, rows) <==> Agrees(order, rows)
  {
    PlaceKeeps(order, rows);
    if Agrees(order, rows) {
      PlaceInOrder(order, rows);
    }
    if ReadsDown(Place(order, rows).order, rows) {
      forall i, j | 0 <= i < j < |rows| && rows[i] in order && rows[j] in order ensures Above(order, rows[i], rows[j]) {
        assert Above(Place(order, rows).order, rows[i], rows[j]);
      }
    }
  }

  // ----- merging all trips ---------------------------------------------------------------------

  /** The order after merging the sequences one by one. */
  function MergedAll(sequences: seq<seq<Row>>): (order: seq<Row>)
    ensures Distinct(order)
  {
    if sequences == [] then []
    else Place(MergedAll(sequences[..|sequences| - 1]), sequences[|sequences| - 1]).order
  }

  /** The merged order holds each sequence's rows once and nothing else, and never reorders what an
      earlier sequence placed. */
  lemma {:induction false} MergedAllKeeps(sequences: seq<seq<Row>>, n: int)
    requires 0 <= n <= |sequences|
    ensures Keeps(MergedAll(sequences[..n]), MergedAll(sequences))
    ensures forall x :: x in MergedAll(sequences) <==> exists i :: 0 <= i < |sequences| && x in sequences[i]
  {
    if sequences == [] {
    } else {
      var front, last := sequences[..|sequences| - 1], sequences[|sequences| - 1];
      PlaceKeeps(MergedAll(front), last);
      if n < |sequences| {
        MergedAllKeeps(front, n);
        assert front[..n] == sequences[..n];
        KeepsOn(MergedAll(front[..n]), MergedAll(front), MergedAll(sequences));
      } else {
        MergedAllKeeps(front, 0);
        assert sequences[..n] == sequences;
      }
      forall x ensures x in MergedAll(sequences) <==> exists i :: 0 <= i < |sequences| && x in sequences[i] {
        if x in MergedAll(front) {
          var i :| 0 <= i < |front| && x in front[i];
          assert x in sequences[i];
        }
        if i :| 0 <= i < |sequences| && x in sequences[i] {
          if i < |front| {
            assert x in front[i];
          }
        }
      }
    }
  }

  /** A sequence reads down the final order exactly when it agreed with the order it was merged into;
      the first sequence always does. */
  lemma MergedAllReadsDown(sequences: seq<seq<Row>>, n: int)
    requires 0 <= n < |sequences| && Distinct(sequences[n])
    ensures ReadsDown(MergedAll(sequences), sequences[n]) <==> Agrees(MergedAll(sequences[..n]), sequences[n])
    ensures n == 0 ==> ReadsDown(MergedAll(sequences), sequences[n])
  {
    var before := MergedAll(sequences[..n]);
    MergedNext(sequences, n);
    MergedAllKeeps(sequences, n + 1);
    StaysDown(before, sequences[n], MergedAll(sequences));
    if n == 0 {
      assert before == [];
    }
  }

  lemma MergedNext(sequences: seq<seq<Row>>, n: int)
    requires 0 <= n < |sequences|
    ensures MergedAll(sequences[..n + 1]) == Place(MergedAll(sequences[..n]), sequences[n]).order
  {
    assert sequences[..n + 1][..n] == sequences[..n];
  }

  /** What comes after a trip's merge does not change whether its rows read down. */
  lemma StaysDown(before: seq<Row>, rows: seq<Row>, order: seq<Row>)
    requires Distinct(before) && Distinct(rows) && Keeps(Place(before, rows).order, order)
    ensures ReadsDown(order, rows) <==> Agrees(before, rows)
  {
    PlaceKeeps(before, rows);
    MergedReadsDown(before, rows);
    KeepsReads(Place(before, rows).order, order, rows);
  }

  lemma KeepsReads(order: seq<Row>, more: seq<Row>, rows: seq<Row>)
    requires Keeps(order, more) && forall r <- rows :: r in order
    ensures ReadsDown(order, rows) <==> ReadsDown(more, rows)
  {
    forall i, j | 0 <= i < j < |rows| ensures Above(order, rows[i], rows[j]) <==> Above(more, rows[i], rows[j]) {
      assert rows[i] in order && rows[j] in order;
    }
  }

  // ----- which sequence comes first ------------------------------------------------------------

  predicate RowLess(a: Row, b: Row) {
    Lex(a.stop, b.stop, CharLess) || (a.stop == b.stop && a.visit < b.visit)
  }

  /** Rows compare as pairs do: by stop, then by visit. */
  lemma RowOrder()
    ensures TotalOrder(RowLess)
  {
    assert TotalOrder(CharLess);
    forall a: Row ensures !RowLess(a, a) {
      LexIrreflexive(a.stop, CharLess);
    }
    forall a: Row, b: Row ensures RowLess(a, b) || RowLess(b, a) || a == b {
      LexTotal(a.stop, b.stop, CharLess);
    }
    forall a: Row, b: Row, c: Row | RowLess(a, b) && RowLess(b, c) ensures RowLess(a, c) {
      if Lex(a.stop, b.stop, CharLess) && Lex(b.stop, c.stop, CharLess) {
        LexTransitive(a.stop, b.stop, c.stop, CharLess);
      }
    }
  }

  function Count(trips: seq<seq<Row>>, t: seq<Row>): (n: int)
    ensures n >= 0 && (n > 0 <==> t in trips)
  {
    multiset(trips)[t]
  }

  /** The most common sequence first, the longest on a tie, then the least. */
  predicate Before(trips: seq<seq<Row>>, a: seq<Row>, b: seq<Row>) {
    || Count(trips, a) > Count(trips, b)
    || (Count(trips, a) == Count(trips, b) && (|a| > |b| || (|a| == |b| && Lex(a, b, RowLess))))
  }

  lemma BeforeOrder(trips: seq<seq<Row>>, a: seq<Row>, b: seq<Row>, c: seq<Row>)
    ensures !Before(trips, a, a)
    ensures Before(trips, a, b) || Before(trips, b, a) || a == b
    ensures Before(trips, a, b) && Before(trips, b, c) ==> Before(trips, a, c)
  {
    RowOrder();
    LexIrreflexive(a, RowLess);
    LexTotal(a, b, RowLess);
    if Lex(a, b, RowLess) && Lex(b, c, RowLess) {
      LexTransitive(a, b, c, RowLess);
    }
  }

  ghost predicate Sorted(trips: seq<seq<Row>>, s: seq<seq<Row>>) {
    forall i, j :: 0 <= i < j < |s| ==> Before(trips, s[i], s[j])
  }

  /** The trips' sequences, each once, in the order they are merged. */
  ghost predicate Ranked(trips: seq<seq<Row>>, s: seq<seq<Row>>) {
    Sorted(trips, s) && forall t :: t in s <==> t in trips
  }

  /** Only one order ranks the trips, and it does not depend on the order the trips come in. */
  lemma {:induction false} RankedUnique(trips: seq<seq<Row>>, a: seq<seq<Row>>, b: seq<seq<Row>>)
    requires Sorted(trips, a) && Sorted(trips, b) && forall t :: t in a <==> t in b
    ensures a == b
  {
    if a == [] || b == [] {
      HasFirst(a);
      HasFirst(b);
    } else {
      assert a[0] in a && b[0] in b;
      var i :| 0 <= i < |b| && b[i] == a[0];
      var j :| 0 <= j < |a| && a[j] == b[0];
      BeforeOrder(trips, a[0], b[0], a[0]);
      assert a[0] == b[0];
      var a', b' := a[1..], b[1..];
      forall t | t in a' ensures t in b' {
        var k :| 0 <= k < |a'| && a'[k] == t;
        BeforeOrder(trips, a[0], t, t);
        assert a[k + 1] == t && t in b;
      }
      forall t | t in b' ensures t in a' {
        var k :| 0 <= k < |b'| && b'[k] == t;
        BeforeOrder(trips, b[0], t, t);
        assert b[k + 1] == t && t in a;
      }
      RankedUnique(trips, a', b');
    }
  }

  /** The distinct sequences of the trips, sorted. */
  method Rank(trips: seq<seq<Row>>) returns (s: seq<seq<Row>>)
    ensures Ranked(trips, s)
  {
    s := [];
    for n := 0 to |trips|
      invariant Sorted(trips, s)
      invariant forall t :: t in s <==> t in trips[..n]
    {
      assert trips[..n + 1] == trips[..n] + [trips[n]];
      if trips[n] !in s {
        var k := 0;
        while k < |s| && Before(trips, s[k], trips[n])
          invariant 0 <= k <= |s|
          invariant forall i :: 0 <= i < k ==> Before(trips, s[i], trips[n])
        {
          k := k + 1;
        }
        InsertSorted(trips, s, trips[n], k);
        s := s[..k] + [trips[n]] + s[k..];
      }
    }
    assert trips[..|trips|] == trips;
  }

  lemma InsertSorted(trips: seq<seq<Row>>, s: seq<seq<Row>>, t: seq<Row>, k: int)
    requires Sorted(trips, s) && t !in s && 0 <= k <= |s|
    requires forall i :: 0 <= i < k ==> Before(trips, s[i], t)
    requires k < |s| ==> !Before(trips, s[k], t)
    ensures var s' := s[..k] + [t] + s[k..];
            Sorted(trips, s') && forall x :: x in s' <==> x in s || x == t
  {
    var s' := s[..k] + [t] + s[k..];
    forall j | k <= j < |s| ensures Before(trips, t, s[j]) {
      BeforeOrder(trips, t, s[k], s[j]);
    }
    forall i, j | 0 <= i < j < |s'| ensures Before(trips, s'[i], s'[j]) {
      assert i < k ==> s'[i] == s[i];
      assert i > k ==> s'[i] == s[i - 1];
      assert j < k ==> s'[j] == s[j];
      assert j > k ==> s'[j] == s[j - 1];
    }
    forall x ensures x in s' <==> x in s || x == t {
      if x in s {
        var i :| 0 <= i < |s| && s[i] == x;
        assert s'[if i < k then i else i + 1] == x;
      }
      assert s'[k] == t;
    }
  }

  /** The order merged from the ranked sequences. */
  ghost predicate MergedOrder(trips: seq<seq<Row>>, order: seq<Row>) {
    exists ranked :: Ranked(trips, ranked) && order == MergedAll(ranked)
  }

  /** One order of the rows of all the trips, merged from the most common sequence on. */
  method Merge(trips: seq<seq<Row>>) returns (order: seq<Row>)
    ensures MergedOrder(trips, order)
  {
    var sequences := Rank(trips);
    order := [];
    for n := 0 to |sequences|
      invariant order == MergedAll(sequences[..n])
    {
      assert sequences[..n + 1][..n] == sequences[..n];
      order := MergeOne(order, sequences[n]);
    }
    assert sequences[..|sequences|] == sequences;
  }

  /** There is one printed order, and it is the same in whatever order the trips are listed. */
  lemma MergeOrderFree(trips: seq<seq<Row>>, listed: seq<seq<Row>>, a: seq<Row>, b: seq<Row>)
    requires multiset(trips) == multiset(listed) && MergedOrder(trips, a) && MergedOrder(listed, b)
    ensures a == b
  {
    var ranked :| Ranked(trips, ranked) && a == MergedAll(ranked);
    var other :| Ranked(listed, other) && b == MergedAll(other);
    RankedFree(trips, listed, ranked, other);
  }

  lemma RankedFree(trips: seq<seq<Row>>, listed: seq<seq<Row>>, a: seq<seq<Row>>, b: seq<seq<Row>>)
    requires multiset(trips) == multiset(listed) && Ranked(trips, a) && Ranked(listed, b)
    ensures a == b
  {
    forall t ensures t in trips <==> t in listed {
      assert t in trips <==> t in multiset(trips);
    }
    assert Sorted(trips, b) by {
      forall i, j | 0 <= i < j < |b| ensures Before(trips, b[i], b[j]) {
        assert Before(listed, b[i], b[j]);
      }
    }
    RankedUnique(trips, a, b);
  }

  /** The printed order: every row of every trip once and nothing else, and the most common trip (the
      longest on a tie) reads down it. */
  lemma MergedTimetable(trips: seq<seq<Row>>, order: seq<Row>)
    requires MergedOrder(trips, order)
    ensures Distinct(order) && forall x :: x in order <==> exists t <- trips :: x in t
    ensures forall t <- trips :: Distinct(t) && (forall u <- trips :: u == t || Before(trips, t, u)) ==> ReadsDown(order, t)
  {
    var ranked :| Ranked(trips, ranked) && order == MergedAll(ranked);
    MergedAllKeeps(ranked, 0);
    forall x ensures x in order <==> exists t <- trips :: x in t {
      if i :| 0 <= i < |ranked| && x in ranked[i] {
        assert ranked[i] in trips;
      }
      if t :| t in trips && x in t {
        var i :| 0 <= i < |ranked| && ranked[i] == t;
      }
    }
    forall t | t in trips && Distinct(t) && forall u <- trips :: u == t || Before(trips, t, u) ensures ReadsDown(order, t) {
      FirstRanked(trips, ranked, t);
      MergedAllReadsDown(ranked, 0);
    }
  }

  lemma FirstRanked(trips: seq<seq<Row>>, ranked: seq<seq<Row>>, t: seq<Row>)
    requires Ranked(trips, ranked) && t in trips && forall u <- trips :: u == t || Before(trips, t, u)
    ensures ranked != [] && ranked[0] == t
  {
    var i :| 0 <= i < |ranked| && ranked[i] == t;
    assert ranked[0] in ranked;
    BeforeOrder(trips, ranked[0], t, ranked[0]);
  }

  // ----- a trip's column -----------------------------------------------------------------------

  /** The cell of each row: the trip's call there, or none. */
  function ColumnOf<T>(order: seq<Row>, rows: seq<Row>, calls: seq<T>): (cells: seq<Option<T>>)
    requires |rows| == |calls|
    ensures |cells| == |order|
  {
    seq(|order|, n requires 0 <= n < |order| =>
      if order[n] in rows then Some(calls[IndexOf(rows, order[n])]) else None)
  }

  /** The calls read down a column. */
  function ReadDown<T>(cells: seq<Option<T>>): seq<T> {
    if cells == [] then [] else (if cells[0].Some? then [cells[0].value] else []) + ReadDown(cells[1..])
  }

  /** Write each call of a trip into the cell of its row. */
  method Column<T>(calls: seq<T>, rows: seq<Row>, order: seq<Row>) returns (column: seq<Option<T>>)
    requires |calls| == |rows| && Distinct(rows) && Distinct(order) && forall r <- rows :: r in order
    ensures column == ColumnOf(order, rows, calls)
  {
    var at := map row | row in order :: IndexOf(order, row);
    var cells := new Option<T>[|order|](_ => None);
    for i := 0 to |rows|
      invariant forall n | 0 <= n < |order| ::
                  cells[n] == if order[n] in rows[..i] then Some(calls[IndexOf(rows, order[n])]) else None
    {
      assert rows[i] in rows;
      var n := at[rows[i]];
      IndexIs(rows, i);
      cells[n] := Some(calls[i]);
      assert rows[..i + 1] == rows[..i] + [rows[i]];
      forall m | 0 <= m < |order| && m != n ensures order[m] in rows[..i + 1] <==> order[m] in rows[..i] {
        assert order[m] != order[n] by {
          IndexIs(order, m);
        }
      }
    }
    assert rows[..|rows|] == rows;
    return cells[..];
  }

  lemma DropRow(rows: seq<Row>, k: int, x: Row)
    requires Distinct(rows) && 0 <= k < |rows| && x != rows[k]
    ensures var rest := rows[..k] + rows[k + 1..];
            && (x in rows <==> x in rest)
            && (x in rows ==> IndexOf(rest, x) == IndexOf(rows, x) - if IndexOf(rows, x) > k then 1 else 0)
  {
    var rest := rows[..k] + rows[k + 1..];
    assert Distinct(rest);
    if x in rows {
      var n := IndexOf(rows, x);
      assert rest[if n > k then n - 1 else n] == x;
      IndexIs(rest, if n > k then n - 1 else n);
    }
  }

  lemma CellStays<T>(order: seq<Row>, rows: seq<Row>, calls: seq<T>, k: int, n: int)
    requires |rows| == |calls| && Distinct(rows) && Distinct(order)
    requires 0 <= k < |rows| && 1 <= n < |order| && rows[k] == order[0]
    ensures ColumnOf(order, rows, calls)[n] ==
            ColumnOf(order[1..], rows[..k] + rows[k + 1..], calls[..k] + calls[k + 1..])[n - 1]
  {
    DropRow(rows, k, order[n]);
    assert order[1..][n - 1] == order[n];
    if order[n] in rows {
      var m := IndexOf(rows, order[n]);
      assert m != k;
      assert calls[m] == (calls[..k] + calls[k + 1..])[if m > k then m - 1 else m];
    }
  }

  /** Without its first row, the order gives the column of the trip without its call there. */
  lemma ColumnTail<T>(order: seq<Row>, rows: seq<Row>, calls: seq<T>, k: int)
    requires |rows| == |calls| && Distinct(rows) && Distinct(order) && order != []
    requires 0 <= k < |rows| && rows[k] == order[0]
    ensures ColumnOf(order, rows, calls)[1..] ==
            ColumnOf(order[1..], rows[..k] + rows[k + 1..], calls[..k] + calls[k + 1..])
    ensures ColumnOf(order, rows, calls)[0] == Some(calls[k])
  {
    IndexIs(rows, k);
    var cells, rest := ColumnOf(order, rows, calls), ColumnOf(order[1..], rows[..k] + rows[k + 1..], calls[..k] + calls[k + 1..]);
    forall n | 1 <= n < |order| ensures cells[n] == rest[n - 1] {
      CellStays(order, rows, calls, k, n);
    }
    assert |cells[1..]| == |rest|;
  }

  lemma ColumnSkip<T>(order: seq<Row>, rows: seq<Row>, calls: seq<T>)
    requires |rows| == |calls| && order != [] && order[0] !in rows
    ensures ColumnOf(order, rows, calls)[1..] == ColumnOf(order[1..], rows, calls)
    ensures ReadDown(ColumnOf(order, rows, calls)) == ReadDown(ColumnOf(order[1..], rows, calls))
  {
    assert ColumnOf(order, rows, calls)[0] == None;
  }

  lemma WithoutRow(rows: seq<Row>, k: int, order: seq<Row>)
    requires Distinct(rows) && Distinct(order) && 0 <= k < |rows| && order != [] && rows[k] == order[0]
    requires forall r <- rows :: r in order
    ensures var rest := rows[..k] + rows[k + 1..];
            Distinct(rest) && Distinct(order[1..]) && forall r <- rest :: r in order[1..]
  {
    var rest := rows[..k] + rows[k + 1..];
    assert order == [order[0]] + order[1..];
    forall r | r in rest ensures r in order[1..] {
      var n :| 0 <= n < |rest| && rest[n] == r;
      assert r == rows[if n < k then n else n + 1] && r != rows[k];
      assert r in rows;
    }
  }

  lemma ColumnDrop<T>(order: seq<Row>, rows: seq<Row>, calls: seq<T>, k: int)
    requires |rows| == |calls| && Distinct(rows) && Distinct(order) && order != []
    requires 0 <= k < |rows| && rows[k] == order[0]
    ensures multiset(ReadDown(ColumnOf(order, rows, calls))) == multiset{calls[k]}
            + multiset(ReadDown(ColumnOf(order[1..], rows[..k] + rows[k + 1..], calls[..k] + calls[k + 1..])))
    ensures multiset(calls) == multiset{calls[k]} + multiset(calls[..k] + calls[k + 1..])
  {
    ColumnTail(order, rows, calls, k);
    assert calls == calls[..k] + [calls[k]] + calls[k + 1..];
  }

  /** Each call of the trip is in exactly one cell of its column, and no cell holds anything else. */
  lemma {:induction false} ColumnHoldsCalls<T>(order: seq<Row>, rows: seq<Row>, calls: seq<T>)
    requires |rows| == |calls| && Distinct(rows) && Distinct(order) && forall r <- rows :: r in order
    ensures multiset(ReadDown(ColumnOf(order, rows, calls))) == multiset(calls)
  {
    if order == [] {
      HasFirst(rows);
    } else {
      var tail := order[1..];
      assert order == [order[0]] + tail;
      if order[0] in rows {
        var k := IndexOf(rows, order[0]);
        var rows', calls' := rows[..k] + rows[k + 1..], calls[..k] + calls[k + 1..];
        ColumnDrop(order, rows, calls, k);
        WithoutRow(rows, k, order);
        ColumnHoldsCalls(tail, rows', calls');
      } else {
        ColumnSkip(order, rows, calls);
        ColumnHoldsCalls(tail, rows, calls);
      }
    }
  }

  lemma IndexTail(order: seq<Row>, x: Row)
    requires order != [] && x in order && order[0] != x
    ensures x in order[1..] && IndexOf(order, x) == IndexOf(order[1..], x) + 1
  {
    assert order == [order[0]] + order[1..];
  }

  lemma ReadsDownSkip(order: seq<Row>, rows: seq<Row>)
    requires Distinct(order) && order != [] && order[0] !in rows && forall r <- rows :: r in order
    ensures forall r <- rows :: r in order[1..]
    ensures ReadsDown(order, rows) <==> ReadsDown(order[1..], rows)
  {
    forall r | r in rows ensures r in order[1..] && IndexOf(order, r) == IndexOf(order[1..], r) + 1 {
      IndexTail(order, r);
    }
    forall i, j | 0 <= i < j < |rows| ensures Above(order, rows[i], rows[j]) <==> Above(order[1..], rows[i], rows[j]) {
      assert rows[i] in rows && rows[j] in rows;
    }
  }

  lemma ReadsDownTail(order: seq<Row>, rows: seq<Row>)
    requires Distinct(order) && Distinct(rows) && order != [] && rows != [] && order[0] == rows[0]
    requires forall r <- rows :: r in order
    ensures forall r <- rows[1..] :: r in order[1..]
    ensures ReadsDown(order, rows) <==> ReadsDown(order[1..], rows[1..])
  {
    var tail := rows[1..];
    forall k | 1 <= k < |rows| ensures rows[k] in order[1..] && IndexOf(order, rows[k]) == IndexOf(order[1..], rows[k]) + 1 {
      assert rows[k] in rows && rows[0] != rows[k];
      IndexTail(order, rows[k]);
    }
    forall i, j | 1 <= i < j < |rows| ensures Above(order, rows[i], rows[j]) <==> Above(order[1..], tail[i - 1], tail[j - 1]) {
      assert tail[i - 1] == rows[i] && tail[j - 1] == rows[j];
    }
    forall j | 1 <= j < |rows| ensures Above(order, rows[0], rows[j]) {
      IndexIs(order, 0);
    }
    if ReadsDown(order[1..], tail) {
      forall i, j | 0 <= i < j < |rows| ensures Above(order, rows[i], rows[j]) {
        if i > 0 {
          assert Above(order[1..], tail[i - 1], tail[j - 1]);
        }
      }
    }
    if ReadsDown(order, rows) {
      forall i, j | 0 <= i < j < |tail| ensures Above(order[1..], tail[i], tail[j]) {
        assert Above(order, rows[i + 1], rows[j + 1]);
      }
    }
  }

  lemma ColumnFirstReads<T>(order: seq<Row>, rows: seq<Row>, calls: seq<T>)
    requires |rows| == |calls| && Distinct(rows) && Distinct(order) && order != [] && rows != [] && rows[0] == order[0]
    requires forall r <- rows :: r in order
    requires ReadDown(ColumnOf(order[1..], rows[1..], calls[1..])) == calls[1..] <==> ReadsDown(order, rows)
    ensures ReadDown(ColumnOf(order, rows, calls)) == calls <==> ReadsDown(order, rows)
  {
    ColumnFirst(order, rows, calls);
    assert calls == [calls[0]] + calls[1..];
  }

  /** A column reads down as the trip's calls exactly when its rows read down the order. */
  lemma {:induction false} ColumnReadsDown<T>(order: seq<Row>, rows: seq<Row>, calls: seq<T>)
    requires |rows| == |calls| && Distinct(rows) && Distinct(order) && Distinct(calls) && forall r <- rows :: r in order
    ensures ReadDown(ColumnOf(order, rows, calls)) == calls <==> ReadsDown(order, rows)
  {
    if order == [] {
      HasFirst(rows);
    } else if order[0] !in rows {
      ColumnSkip(order, rows, calls);
      ReadsDownSkip(order, rows);
      ColumnReadsDown(order[1..], rows, calls);
    } else {
      var k := IndexOf(rows, order[0]);
      if k == 0 {
        ReadsDownTail(order, rows);
        ColumnReadsDown(order[1..], rows[1..], calls[1..]);
        ColumnFirstReads(order, rows, calls);
      } else {
        ColumnElsewhere(order, rows, calls, k);
      }
    }
  }

  lemma ColumnFirst<T>(order: seq<Row>, rows: seq<Row>, calls: seq<T>)
    requires |rows| == |calls| && Distinct(rows) && Distinct(order) && order != [] && rows != [] && rows[0] == order[0]
    ensures ReadDown(ColumnOf(order, rows, calls)) == calls <==> ReadDown(ColumnOf(order[1..], rows[1..], calls[1..])) == calls[1..]
  {
    ColumnTail(order, rows, calls, 0);
    assert rows[..0] + rows[1..] == rows[1..] && calls[..0] + calls[1..] == calls[1..];
    var down := ReadDown(ColumnOf(order[1..], rows[1..], calls[1..]));
    assert ReadDown(ColumnOf(order, rows, calls)) == [calls[0]] + down;
    assert calls == [calls[0]] + calls[1..];
    assert ([calls[0]] + down)[1..] == down;
  }

  lemma ColumnElsewhere<T>(order: seq<Row>, rows: seq<Row>, calls: seq<T>, k: int)
    requires |rows| == |calls| && Distinct(rows) && Distinct(order) && Distinct(calls) && forall r <- rows :: r in order
    requires order != [] && 0 < k < |rows| && rows[k] == order[0]
    ensures ReadDown(ColumnOf(order, rows, calls)) != calls && !ReadsDown(order, rows)
  {
    ColumnTail(order, rows, calls, k);
    assert ReadDown(ColumnOf(order, rows, calls))[0] == calls[k];
    IndexIs(order, 0);
    assert !Above(order, rows[0], rows[k]);
  }

  // ----- directions ----------------------------------------------------------------------------

  datatype TripRow = TripRow(direction: Option<int>, rows: seq<Row>)

  function Stops(rows: seq<Row>): (stops: seq<string>)
    ensures |stops| == |rows|
  {
    seq(|rows|, i requires 0 <= i < |rows| => rows[i].stop)
  }

  /** The last of the first `n` rows of the backbone at a stop, or -1. */
  function PlaceAmong(backbone: seq<Row>, n: int, stop: string): (place: int)
    requires 0 <= n <= |backbone|
    ensures -1 <= place < n && (place >= 0 ==> backbone[place].stop == stop)
    ensures forall m | place < m < n :: backbone[m].stop != stop
  {
    if n == 0 then -1 else if backbone[n - 1].stop == stop then n - 1 else PlaceAmong(backbone, n - 1, stop)
  }

  function PlaceOf(backbone: seq<Row>, stop: string): int {
    PlaceAmong(backbone, |backbone|, stop)
  }

  /** The places on the backbone of the stops it shares; of a stop it visits twice, the last. */
  function Shared(backbone: seq<Row>, stops: seq<string>): seq<int> {
    if stops == [] then []
    else
      var front, place := Shared(backbone, stops[..|stops| - 1]), PlaceOf(backbone, stops[|stops| - 1]);
      if place >= 0 then front + [place] else front
  }

  /** How many neighbours in `places` step up, and how many step down. */
  function Steps(places: seq<int>): (int, int) {
    if |places| < 2 then (0, 0)
    else
      var front := Steps(places[..|places| - 1]);
      var a, b := places[|places| - 2], places[|places| - 1];
      (front.0 + if b > a then 1 else 0, front.1 + if b < a then 1 else 0)
  }

  /** A trip without a direction that runs against the backbone more than with it. */
  function Against(backbone: seq<Row>, trip: TripRow): bool {
    trip.direction.None? &&
    var steps := Steps(Shared(backbone, Stops(trip.rows)));
    steps.1 > steps.0
  }

  type Key = (Option<int>, bool)

  function KeyOf(backbone: seq<Row>, trip: TripRow): Key {
    (trip.direction, Against(backbone, trip))
  }

  /** The feed's directions in order, then trips without one: with the backbone, then against it. */
  predicate KeyBefore(a: Key, b: Key) {
    if a.0.Some? && b.0.Some? then a.0.value < b.0.value || (a.0.value == b.0.value && !a.1 && b.1)
    else if a.0.None? && b.0.None? then !a.1 && b.1
    else a.0.Some?
  }

  /** Of the trips without a direction, the most common, the longest on a tie, then the greatest. */
  ghost predicate Backbone(unknown: seq<seq<Row>>, b: seq<Row>) {
    if unknown == [] then b == []
    else b in unknown && forall t <- unknown :: t == b || Stronger(unknown, b, t)
  }

  predicate Stronger(trips: seq<seq<Row>>, a: seq<Row>, b: seq<Row>) {
    || Count(trips, a) > Count(trips, b)
    || (Count(trips, a) == Count(trips, b) && (|a| > |b| || (|a| == |b| && Lex(b, a, RowLess))))
  }

  lemma StrongerOrder(trips: seq<seq<Row>>, a: seq<Row>, b: seq<Row>, c: seq<Row>)
    ensures Stronger(trips, a, b) || Stronger(trips, b, a) || a == b
    ensures Stronger(trips, a, b) && Stronger(trips, b, c) ==> Stronger(trips, a, c)
  {
    RowOrder();
    LexTotal(a, b, RowLess);
    if Lex(b, a, RowLess) && Lex(c, b, RowLess) {
      LexTransitive(c, b, a, RowLess);
    }
  }

  function Undirected(trips: seq<TripRow>): seq<seq<Row>> {
    if trips == [] then []
    else
      var front, last := Undirected(trips[..|trips| - 1]), trips[|trips| - 1];
      if last.direction.None? then front + [last.rows] else front
  }

  method ChooseBackbone(unknown: seq<seq<Row>>) returns (b: seq<Row>)
    ensures Backbone(unknown, b)
  {
    if unknown == [] {
      return [];
    }
    b := unknown[0];
    for n := 1 to |unknown|
      invariant b in unknown && forall i | 0 <= i < n :: unknown[i] == b || Stronger(unknown, b, unknown[i])
    {
      StrongerOrder(unknown, b, unknown[n], b);
      if Stronger(unknown, unknown[n], b) {
        forall i | 0 <= i < n && unknown[i] != b ensures Stronger(unknown, unknown[n], unknown[i]) {
          StrongerOrder(unknown, unknown[n], b, unknown[i]);
        }
        b := unknown[n];
      }
    }
  }

  ghost predicate Ascending(group: seq<int>) {
    forall i, j :: 0 <= i < j < |group| ==> group[i] < group[j]
  }

  /** The key of each trip. */
  function Marks(backbone: seq<Row>, trips: seq<TripRow>): (marks: seq<Key>)
    ensures |marks| == |trips|
  {
    seq(|trips|, i requires 0 <= i < |trips| => KeyOf(backbone, trips[i]))
  }

  /** Exactly the trips of the key, by index. */
  ghost predicate GroupOf(marks: seq<Key>, key: Key, group: seq<int>) {
    Ascending(group) && forall n :: n in group <==> 0 <= n < |marks| && marks[n] == key
  }

  lemma GroupMore(marks: seq<Key>, n: int, key: Key, group: seq<int>)
    requires 0 <= n < |marks| && GroupOf(marks[..n], key, group)
    ensures GroupOf(marks[..n + 1], key, if marks[n] == key then group + [n] else group)
  {
    assert forall i | 0 <= i < |group| :: group[i] in group;
  }

  /** The keys met, each with its trips. */
  method Groups(marks: seq<Key>) returns (groups: map<Key, seq<int>>)
    ensures forall key :: key in groups <==> key in marks
    ensures forall key <- groups :: groups[key] != [] && GroupOf(marks, key, groups[key])
  {
    groups := map[];
    for n := 0 to |marks|
      invariant forall key :: key in groups <==> key in marks[..n]
      invariant forall key <- groups :: groups[key] != [] && GroupOf(marks[..n], key, groups[key])
    {
      assert marks[..n + 1] == marks[..n] + [marks[n]];
      var group := if marks[n] in groups then groups[marks[n]] else [];
      forall key | key in groups || key == marks[n]
        ensures GroupOf(marks[..n + 1], key, if key == marks[n] then group + [n] else groups[key])
      {
        GroupMore(marks, n, key, if key == marks[n] then group else groups[key]);
      }
      groups := groups[marks[n] := group + [n]];
    }
    assert marks[..|marks|] == marks;
  }

  ghost predicate KeysSorted(keys: seq<Key>) {
    forall i, j :: 0 <= i < j < |keys| ==> KeyBefore(keys[i], keys[j])
  }

  lemma InsertKey(s: seq<Key>, key: Key, k: int)
    requires KeysSorted(s) && key !in s && 0 <= k <= |s|
    requires (forall i | 0 <= i < k :: KeyBefore(s[i], key)) && (k < |s| ==> !KeyBefore(s[k], key))
    ensures var s' := s[..k] + [key] + s[k..]; KeysSorted(s') && forall x :: x in s' <==> x in s || x == key
  {
    var s' := s[..k] + [key] + s[k..];
    forall j | k <= j < |s| ensures KeyBefore(key, s[j]) {
      assert s[k] in s && s[k] != key;
      assert k < j ==> KeyBefore(s[k], s[j]);
    }
    forall x ensures x in s' <==> x in s || x == key {
      if x in s {
        var i :| 0 <= i < |s| && s[i] == x;
        assert s'[if i < k then i else i + 1] == x;
      }
      assert s'[k] == key;
    }
  }

  method SortKeys(keys: set<Key>) returns (sorted: seq<Key>)
    ensures KeysSorted(sorted) && forall key :: key in sorted <==> key in keys
  {
    sorted := [];
    var todo := keys;
    while todo != {}
      invariant todo <= keys && KeysSorted(sorted) && forall key :: key in sorted <==> key in keys && key !in todo
    {
      var key :| key in todo;
      todo := todo - {key};
      var k := 0;
      while k < |sorted| && KeyBefore(sorted[k], key)
        invariant 0 <= k <= |sorted| && forall i | 0 <= i < k :: KeyBefore(sorted[i], key)
      {
        k := k + 1;
      }
      InsertKey(sorted, key, k);
      sorted := sorted[..k] + [key] + sorted[k..];
    }
  }

  /** Groups in the order of the keys met, each of exactly the trips of its key. */
  ghost predicate GroupedBy(trips: seq<TripRow>, backbone: seq<Row>, keys: seq<Key>, directions: seq<seq<int>>) {
    && |keys| == |directions| && KeysSorted(keys)
    && (forall d | 0 <= d < |directions| :: directions[d] != [] && GroupOf(Marks(backbone, trips), keys[d], directions[d]))
    && forall n | 0 <= n < |trips| :: Marks(backbone, trips)[n] in keys
  }

  ghost predicate DirectionsOf(trips: seq<TripRow>, directions: seq<seq<int>>) {
    exists backbone, keys :: Backbone(Undirected(trips), backbone) && GroupedBy(trips, backbone, keys, directions)
  }

  /** The groups in their keys' order: each trip is in exactly one, that of its key. */
  method Directions(trips: seq<TripRow>) returns (directions: seq<seq<int>>)
    ensures DirectionsOf(trips, directions)
  {
    var b := ChooseBackbone(Undirected(trips));
    var groups := Groups(Marks(b, trips));
    var sorted := SortKeys(groups.Keys);
    directions := [];
    for d := 0 to |sorted|
      invariant |directions| == d
      invariant forall i | 0 <= i < d :: sorted[i] in groups && directions[i] == groups[sorted[i]]
    {
      assert sorted[d] in sorted;
      directions := directions + [groups[sorted[d]]];
    }
    assert GroupedBy(trips, b, sorted, directions);
  }

  /** No two groups share a trip, and each trip is in one. */
  lemma DirectionsApart(trips: seq<TripRow>, directions: seq<seq<int>>, n: int)
    requires DirectionsOf(trips, directions) && 0 <= n < |trips|
    ensures exists d | 0 <= d < |directions| :: n in directions[d]
    ensures forall i, j | 0 <= i < j < |directions| :: !(n in directions[i] && n in directions[j])
  {
    var backbone, keys :| Backbone(Undirected(trips), backbone) && GroupedBy(trips, backbone, keys, directions);
    var marks := Marks(backbone, trips);
    var d :| 0 <= d < |keys| && keys[d] == marks[n];
    assert GroupOf(marks, keys[d], directions[d]);
    forall i, j | 0 <= i < j < |directions| ensures !(n in directions[i] && n in directions[j]) {
      assert GroupOf(marks, keys[i], directions[i]) && GroupOf(marks, keys[j], directions[j]);
      assert KeyBefore(keys[i], keys[j]);
    }
  }

  // ----- there and back ------------------------------------------------------------------------

  function Back<T>(s: seq<T>): (r: seq<T>)
    ensures |r| == |s|
  {
    if s == [] then [] else [s[|s| - 1]] + Back(s[..|s| - 1])
  }

  lemma {:induction false} SharedOn(backbone: seq<Row>, a: seq<string>, b: seq<string>)
    ensures Shared(backbone, a + b) == Shared(backbone, a) + Shared(backbone, b)
  {
    if b == [] {
      assert a + b == a;
    } else {
      SharedOn(backbone, a, b[..|b| - 1]);
      assert (a + b)[..|a + b| - 1] == a + b[..|b| - 1];
    }
  }

  lemma {:induction false} SharedBack(backbone: seq<Row>, stops: seq<string>)
    ensures Shared(backbone, Back(stops)) == Back(Shared(backbone, stops))
  {
    if stops != [] {
      var front, last := stops[..|stops| - 1], stops[|stops| - 1];
      SharedBack(backbone, front);
      SharedOn(backbone, [last], Back(front));
      assert [last][..0] == [];
      var shared := Shared(backbone, front);
      assert (shared + [PlaceOf(backbone, last)])[..|shared|] == shared;
    }
  }

  lemma {:induction false} StepsFront(x: int, s: seq<int>)
    requires s != []
    ensures Steps([x] + s) == (Steps(s).0 + (if s[0] > x then 1 else 0), Steps(s).1 + if s[0] < x then 1 else 0)
  {
    if |s| > 1 {
      StepsFront(x, s[..|s| - 1]);
      assert ([x] + s)[..|s|] == [x] + s[..|s| - 1];
    } else {
      assert ([x] + s)[..1] == [x];
    }
  }

  lemma {:induction false} StepsBack(s: seq<int>)
    ensures Steps(Back(s)) == (Steps(s).1, Steps(s).0)
  {
    if |s| > 1 {
      var front := s[..|s| - 1];
      StepsBack(front);
      StepsFront(s[|s| - 1], Back(front));
      assert Back(front)[0] == front[|front| - 1];
    } else if |s| == 1 {
      assert Back(s) == [s[0]] + Back(s[..0]);
    }
  }

  /** A trip and one over its stops backwards are never both against the backbone. */
  lemma BackAgainst(backbone: seq<Row>, trip: TripRow, back: TripRow)
    requires trip.direction.None? && back.direction.None? && Stops(back.rows) == Back(Stops(trip.rows))
    ensures var steps := Steps(Shared(backbone, Stops(trip.rows)));
            (Against(backbone, trip) <==> steps.1 > steps.0) && (Against(backbone, back) <==> steps.0 > steps.1)
    ensures !(Against(backbone, trip) && Against(backbone, back))
  {
    SharedBack(backbone, Stops(trip.rows));
    StepsBack(Shared(backbone, Stops(trip.rows)));
  }

  lemma ItsPlace(backbone: seq<Row>, n: int)
    requires Distinct(Stops(backbone)) && 0 <= n < |backbone|
    ensures PlaceOf(backbone, Stops(backbone)[n]) == n
  {
    var place := PlaceOf(backbone, Stops(backbone)[n]);
    assert place >= 0 && Stops(backbone)[place] == Stops(backbone)[n];
  }

  lemma {:induction false} SharedItself(backbone: seq<Row>, n: int)
    requires Distinct(Stops(backbone)) && 0 <= n <= |backbone|
    ensures |Shared(backbone, Stops(backbone)[..n])| == n
    ensures forall i | 0 <= i < n :: Shared(backbone, Stops(backbone)[..n])[i] == i
    ensures Steps(Shared(backbone, Stops(backbone)[..n])) == (if n == 0 then 0 else n - 1, 0)
  {
    if n > 0 {
      SharedItself(backbone, n - 1);
      var stops := Stops(backbone)[..n];
      assert stops[..n - 1] == Stops(backbone)[..n - 1];
      var last := stops[n - 1];
      ItsPlace(backbone, n - 1);
      var front := Shared(backbone, stops[..n - 1]);
      assert Shared(backbone, stops) == front + [n - 1];
      assert (front + [n - 1])[..n - 1] == front;
    }
  }

  /** A backbone that visits no stop twice runs with itself, and the trip back goes against it. */
  lemma ThereAndBack(backbone: seq<Row>, there: TripRow, back: TripRow)
    requires Distinct(Stops(backbone)) && |backbone| >= 2
    requires there == TripRow(None, backbone) && back.direction.None? && Stops(back.rows) == Back(Stops(backbone))
    ensures !Against(backbone, there) && Against(backbone, back)
  {
    SharedItself(backbone, |backbone|);
    assert Stops(backbone)[..|backbone|] == Stops(backbone);
    BackAgainst(backbone, there, back);
  }

  /** A loop twice out and once back: a b c a b c b a. */
  ghost predicate LoopTrip(rows: seq<Row>, a: string, b: string, c: string) {
    && a != b && b != c && c != a && |rows| == 8
    && rows[0].stop == rows[3].stop == rows[7].stop == a
    && rows[1].stop == rows[4].stop == rows[6].stop == b
    && rows[2].stop == rows[5].stop == c
  }

  /** Where each of its stops is visited last. */
  function LoopPlace(n: int): int {
    if n == 0 || n == 3 || n == 7 then 7 else if n == 1 || n == 4 || n == 6 then 6 else 5
  }

  function LoopSteps(n: int): (int, int) {
    (if n < 4 then 0 else if n < 7 then 1 else n - 5, if n < 2 then 0 else if n < 4 then n - 1 else if n < 6 then n - 2 else 4)
  }

  lemma LoopPlaceOf(rows: seq<Row>, a: string, b: string, c: string, n: int)
    requires LoopTrip(rows, a, b, c) && 0 <= n < 8
    ensures PlaceOf(rows, rows[n].stop) == LoopPlace(n)
  {
    var place := PlaceOf(rows, rows[n].stop);
    assert rows[place].stop == rows[n].stop == rows[LoopPlace(n)].stop;
  }

  lemma StepsLast(front: seq<int>, x: int)
    requires front != []
    ensures var y := front[|front| - 1];
            Steps(front + [x]) == (Steps(front).0 + (if x > y then 1 else 0), Steps(front).1 + if x < y then 1 else 0)
  {
    var s, n := front + [x], |front|;
    assert |s| == n + 1 && s[n] == x && s[n - 1] == front[n - 1];
    assert s[..n] == front;
  }

  lemma LoopStep(front: seq<int>, n: int)
    requires 0 < n <= 8 && |front| == n - 1 && Steps(front) == LoopSteps(n - 1)
    requires n > 1 ==> front[n - 2] == LoopPlace(n - 2)
    ensures Steps(front + [LoopPlace(n - 1)]) == LoopSteps(n)
  {
    if n > 1 {
      StepsLast(front, LoopPlace(n - 1));
    }
  }

  lemma SharedNext(backbone: seq<Row>, stops: seq<string>, n: int)
    requires 0 < n <= |stops| && PlaceOf(backbone, stops[n - 1]) >= 0
    ensures Shared(backbone, stops[..n]) == Shared(backbone, stops[..n - 1]) + [PlaceOf(backbone, stops[n - 1])]
  {
    var s := stops[..n];
    assert s[..|s| - 1] == stops[..n - 1] && s[|s| - 1] == stops[n - 1];
  }

  lemma {:induction false} LoopShared(rows: seq<Row>, a: string, b: string, c: string, n: int)
    requires LoopTrip(rows, a, b, c) && 0 <= n <= 8
    ensures var places := Shared(rows, Stops(rows)[..n]);
            |places| == n && (n > 0 ==> places[n - 1] == LoopPlace(n - 1)) && Steps(places) == LoopSteps(n)
  {
    if n > 0 {
      LoopShared(rows, a, b, c, n - 1);
      LoopPlaceOf(rows, a, b, c, n - 1);
      SharedNext(rows, Stops(rows), n);
      LoopStep(Shared(rows, Stops(rows)[..n - 1]), n);
    }
  }

  /** Such a trip, though it is the backbone, runs against itself: down its own last visits four times
      and up three. */
  lemma BackboneAgainstItself(rows: seq<Row>, a: string, b: string, c: string)
    requires LoopTrip(rows, a, b, c)
    ensures Backbone([rows], rows) && Against(rows, TripRow(None, rows))
  {
    LoopShared(rows, a, b, c, 8);
    assert Stops(rows)[..8] == Stops(rows);
  }

  // ----- a trip against itself -----------------------------------------------------------------

  /** Stop `c` is called at after the trip has called at stop `a` for the last time. */
  ghost predicate LeftBefore(stops: seq<string>, a: string, c: string) {
    exists j :: VisitedAfter(stops, a, c, j)
  }

  ghost predicate VisitedAfter(stops: seq<string>, a: string, c: string, j: int) {
    0 <= j < |stops| && stops[j] == c && forall k | j <= k < |stops| :: stops[k] != a
  }

  /** The step from call `i` leads to a stop the trip leaves for good later. */
  ghost predicate StepsOn(stops: seq<string>, i: int) {
    0 <= i < |stops| - 1 && LeftBefore(stops, stops[i], stops[i + 1])
  }

  /** The step from call `i` leads to a stop the trip leaves for good earlier. */
  ghost predicate StepsAway(stops: seq<string>, i: int) {
    0 <= i < |stops| - 1 && LeftBefore(stops, stops[i + 1], stops[i])
  }

  ghost function Onward(stops: seq<string>): set<int> {
    set i | 0 <= i < |stops| && StepsOn(stops, i)
  }

  ghost function Backward(stops: seq<string>): set<int> {
    set i | 0 <= i < |stops| && StepsAway(stops, i)
  }

  predicate Rises(places: seq<int>, i: int) {
    0 <= i < |places| - 1 && places[i] < places[i + 1]
  }

  predicate Falls(places: seq<int>, i: int) {
    0 <= i < |places| - 1 && places[i + 1] < places[i]
  }

  function Ups(places: seq<int>): set<int> {
    set i | 0 <= i < |places| && Rises(places, i)
  }

  function Downs(places: seq<int>): set<int> {
    set i | 0 <= i < |places| && Falls(places, i)
  }

  lemma {:induction false} StepsCount(places: seq<int>)
    ensures Steps(places) == (|Ups(places)|, |Downs(places)|)
  {
    if |places| < 2 {
      assert Ups(places) == {} && Downs(places) == {};
    } else {
      StepsCount(places[..|places| - 1]);
      StepAdded(places);
    }
  }

  lemma StepAdded(places: seq<int>)
    requires |places| >= 2
    ensures var n, front := |places| - 1, places[..|places| - 1];
            && |Ups(places)| == |Ups(front)| + (if places[n - 1] < places[n] then 1 else 0)
            && |Downs(places)| == |Downs(front)| + if places[n] < places[n - 1] then 1 else 0
  {
    var n, front := |places| - 1, places[..|places| - 1];
    forall i ensures Rises(places, i) <==> Rises(front, i) || (i == n - 1 && places[n - 1] < places[n])
      ensures Falls(places, i) <==> Falls(front, i) || (i == n - 1 && places[n] < places[n - 1])
    {
    }
    assert !Rises(front, n - 1) && !Falls(front, n - 1);
    assert Ups(places) == Ups(front) + if places[n - 1] < places[n] then {n - 1} else {};
    assert Downs(places) == Downs(front) + if places[n] < places[n - 1] then {n - 1} else {};
  }

  /** Where each stop of a trip is called at last. */
  function LastVisits(rows: seq<Row>): (places: seq<int>)
    ensures |places| == |rows|
  {
    seq(|rows|, i requires 0 <= i < |rows| => PlaceOf(rows, rows[i].stop))
  }

  lemma LastVisitsAre(rows: seq<Row>, i: int)
    requires 0 <= i < |rows|
    ensures var p := LastVisits(rows)[i];
            && i <= p < |rows| && rows[p].stop == rows[i].stop && LastVisits(rows)[p] == p
            && forall k | p < k < |rows| :: rows[k].stop != rows[i].stop
  {
  }

  lemma {:induction false} SharedVisits(rows: seq<Row>, n: int)
    requires 0 <= n <= |rows|
    ensures Shared(rows, Stops(rows)[..n]) == LastVisits(rows)[..n]
  {
    if n > 0 {
      SharedVisits(rows, n - 1);
      LastVisitsAre(rows, n - 1);
      SharedNext(rows, Stops(rows), n);
      assert LastVisits(rows)[..n] == LastVisits(rows)[..n - 1] + [LastVisits(rows)[n - 1]];
    }
  }

  lemma VisitsCompare(rows: seq<Row>, i: int, j: int)
    requires 0 <= i < |rows| && 0 <= j < |rows|
    ensures LastVisits(rows)[i] < LastVisits(rows)[j] <==> LeftBefore(Stops(rows), rows[i].stop, rows[j].stop)
  {
    LastVisitsAre(rows, i);
    LastVisitsAre(rows, j);
    var stops, p, q := Stops(rows), LastVisits(rows)[i], LastVisits(rows)[j];
    if p < q {
      assert VisitedAfter(stops, rows[i].stop, rows[j].stop, q);
    }
    if k :| VisitedAfter(stops, rows[i].stop, rows[j].stop, k) {
      assert stops[p] == rows[i].stop;
      assert p < k;
      assert k <= q;
    }
  }

  /** A trip runs against itself exactly if more of its steps lead to a stop it leaves for good earlier than
      to one it leaves for good later. */
  lemma AgainstItselfExact(rows: seq<Row>)
    ensures Against(rows, TripRow(None, rows)) <==> |Backward(Stops(rows))| > |Onward(Stops(rows))|
  {
    var places := LastVisits(rows);
    SharedVisits(rows, |rows|);
    assert Stops(rows)[..|rows|] == Stops(rows) && places[..|rows|] == places;
    StepsCount(places);
    forall i | 0 <= i < |rows|
      ensures Rises(places, i) <==> StepsOn(Stops(rows), i)
      ensures Falls(places, i) <==> StepsAway(Stops(rows), i)
    {
      if i < |rows| - 1 {
        VisitsCompare(rows, i, i + 1);
        VisitsCompare(rows, i + 1, i);
      }
    }
    assert Onward(Stops(rows)) == Ups(places);
    assert Backward(Stops(rows)) == Downs(places);
  }

  /** No stop is called at three times. */
  ghost predicate AtMostTwice(rows: seq<Row>) {
    forall i, j, k | 0 <= i < j < k < |rows| :: !(rows[i].stop == rows[j].stop == rows[k].stop)
  }

  lemma {:induction false} FewerImages(steps: set<int>, image: set<int>, f: int -> int)
    requires (forall i <- steps :: f(i) in image) && forall i <- steps, j <- steps :: f(i) == f(j) ==> i == j
    ensures |steps| <= |image|
  {
    SomeLeft(steps);
    if i :| i in steps {
      FewerImages(steps - {i}, image - {f(i)}, f);
    }
  }

  lemma SomeLeft(left: set<int>)
    ensures (forall k :: k !in left) ==> left == {}
  {
    if forall k :: k !in left {
      assert left == {};
    }
  }

  /** The first stop of a trip that is left for good. */
  lemma {:induction false} FirstLeft(rows: seq<Row>, n: int) returns (f: int)
    requires rows != [] && 0 <= n < |rows| && forall i | 0 <= i < n :: LastVisits(rows)[i] != i
    ensures 0 <= f < |rows| && LastVisits(rows)[f] == f && forall i | 0 <= i < f :: LastVisits(rows)[i] != i
    decreases |rows| - n
  {
    if LastVisits(rows)[n] == n {
      f := n;
    } else {
      LastVisitsAre(rows, n);
      f := FirstLeft(rows, n + 1);
    }
  }

  /** Each backward step leads away from a stop whose last visit is followed by an onward step, or ends the
      trip; the first stop left for good is none of them. */
  lemma BackwardImage(rows: seq<Row>, f: int, i: int)
    requires 0 <= f < |rows| && LastVisits(rows)[f] == f && forall k | 0 <= k < f :: LastVisits(rows)[k] != k
    requires Falls(LastVisits(rows), i)
    ensures var p := LastVisits(rows)[i]; p != f && (p == |rows| - 1 || Rises(LastVisits(rows), p))
  {
    var places := LastVisits(rows);
    LastVisitsAre(rows, i);
    LastVisitsAre(rows, i + 1);
    var p, q := places[i], places[i + 1];
    assert places[q] == q;
    assert q >= f;
    if p < |rows| - 1 {
      LastVisitsAre(rows, p + 1);
    }
  }

  /** A trip that calls at no stop three times never runs against itself. */
  lemma AtMostTwiceWithItself(rows: seq<Row>)
    requires AtMostTwice(rows)
    ensures !Against(rows, TripRow(None, rows))
  {
    var places := LastVisits(rows);
    SharedVisits(rows, |rows|);
    assert Stops(rows)[..|rows|] == Stops(rows) && places[..|rows|] == places;
    StepsCount(places);
    if rows != [] {
      FewerBackward(rows);
    }
  }

  lemma FewerBackward(rows: seq<Row>)
    requires AtMostTwice(rows) && rows != []
    ensures |Downs(LastVisits(rows))| <= |Ups(LastVisits(rows))|
  {
    var places, n := LastVisits(rows), |rows| - 1;
    var f := FirstLeft(rows, 0);
    var image := Ups(places) + {n} - {f};
    forall i | i in Downs(places) ensures places[i] in image {
      BackwardImage(rows, f, i);
    }
    forall i, j | i in Downs(places) && j in Downs(places) && places[i] == places[j] ensures i == j {
      TwiceOnce(rows, i, j);
    }
    FewerImages(Downs(places), image, i => if 0 <= i < |places| then places[i] else -1);
    if f < n {
      LastVisitsAre(rows, f + 1);
      assert Rises(places, f);
    }
    ImageSize(Ups(places), n, f);
  }

  lemma ImageSize(ups: set<int>, n: int, f: int)
    requires n !in ups && (f == n || f in ups)
    ensures |ups + {n} - {f}| == |ups|
  {
    if f == n {
      assert ups + {n} - {f} == ups;
    } else {
      assert |ups + {n}| == |ups| + 1;
    }
  }

  lemma TwiceOnce(rows: seq<Row>, i: int, j: int)
    requires AtMostTwice(rows) && Falls(LastVisits(rows), i) && Falls(LastVisits(rows), j)
    requires LastVisits(rows)[i] == LastVisits(rows)[j]
    ensures i == j
  {
    LastVisitsAre(rows, i);
    LastVisitsAre(rows, j);
    LastVisitsAre(rows, i + 1);
    LastVisitsAre(rows, j + 1);
  }

  // ----- the grids of a line -------------------------------------------------------------------

  datatype LineCall = LineCall(
    sequence: int,
    location: string,
    passenger: bool,
    arrival: Option<int>,
    departure: Option<int>)

  datatype LineTrip = LineTrip(id: string, direction: Option<int>, calls: seq<LineCall>)

  /** One direction: its trips, its rows in order, and each trip's column. */
  datatype Grid = Grid(members: seq<int>, order: seq<Row>, columns: seq<seq<Option<LineCall>>>)

  /** Where some trip of the line stops. */
  function Stopping(trips: seq<LineTrip>): set<string> {
    set t, c | t in trips && c in t.calls && c.passenger :: c.location
  }

  /** A trip's rows are its passenger calls, and what it runs through where another trip stops. */
  function Printed(calls: seq<LineCall>, stopping: set<string>): (r: seq<LineCall>)
    ensures forall c :: c in r <==> c in calls && (c.passenger || c.location in stopping)
  {
    if calls == [] then []
    else
      var front, last := Printed(calls[..|calls| - 1], stopping), calls[|calls| - 1];
      if last.passenger || last.location in stopping then front + [last] else front
  }

  predicate Carries(trip: LineTrip) {
    exists c :: c in trip.calls && c.passenger
  }

  function PrintedTrips(trips: seq<LineTrip>, stopping: set<string>): (r: seq<LineTrip>)
    ensures forall t <- r :: Carries(t) && forall c <- t.calls :: c.passenger || c.location in stopping
  {
    if trips == [] then []
    else
      var front, last := PrintedTrips(trips[..|trips| - 1], stopping), trips[|trips| - 1];
      var printed := last.(calls := Printed(last.calls, stopping));
      if Carries(printed) then front + [printed] else front
  }

  function CallStops(calls: seq<LineCall>): (stops: seq<string>)
    ensures |stops| == |calls|
  {
    seq(|calls|, i requires 0 <= i < |calls| => calls[i].location)
  }

  function RowsFor(trip: LineTrip): (rows: seq<Row>)
    ensures |rows| == |trip.calls|
  {
    Rows(CallStops(trip.calls))
  }

  ghost predicate Members(kept: seq<LineTrip>, members: seq<int>) {
    members != [] && Ascending(members) && forall k | 0 <= k < |members| :: 0 <= members[k] < |kept|
  }

  function MemberRows(kept: seq<LineTrip>, members: seq<int>): (rows: seq<seq<Row>>)
    requires Members(kept, members)
    ensures |rows| == |members|
  {
    seq(|members|, k requires 0 <= k < |members| => RowsFor(kept[members[k]]))
  }

  /** The grid's order is merged from its trips' rows, holds each of them once and nothing else, and each
      trip's column is its calls at their rows. */
  ghost predicate GridOf(kept: seq<LineTrip>, grid: Grid) {
    && Members(kept, grid.members) && Distinct(grid.order) && |grid.columns| == |grid.members|
    && MergedOrder(MemberRows(kept, grid.members), grid.order)
    && (forall row :: row in grid.order <==> exists k | 0 <= k < |grid.members| :: row in RowsFor(kept[grid.members[k]]))
    && forall k | 0 <= k < |grid.members| ::
         grid.columns[k] == ColumnOf(grid.order, RowsFor(kept[grid.members[k]]), kept[grid.members[k]].calls)
  }

  method GridFor(kept: seq<LineTrip>, members: seq<int>) returns (grid: Grid)
    requires Members(kept, members)
    ensures grid.members == members && GridOf(kept, grid)
  {
    var rows: seq<seq<Row>> := [];
    for k := 0 to |members|
      invariant |rows| == k && forall i | 0 <= i < k :: rows[i] == RowsFor(kept[members[i]])
    {
      var trip := kept[members[k]];
      var one := RowsOf(CallStops(trip.calls));
      rows := rows + [one];
    }
    var order := Merge(rows);
    assert rows == MemberRows(kept, members);
    MergedRows(kept, members, rows, order);
    var columns := Columns(kept, members, rows, order);
    grid := Grid(members, order, columns);
  }

  method Columns(kept: seq<LineTrip>, members: seq<int>, rows: seq<seq<Row>>, order: seq<Row>)
    returns (columns: seq<seq<Option<LineCall>>>)
    requires Members(kept, members) && Distinct(order) && |rows| == |members|
    requires forall k | 0 <= k < |members| :: rows[k] == RowsFor(kept[members[k]]) && forall r <- rows[k] :: r in order
    ensures |columns| == |members|
    ensures forall k | 0 <= k < |members| :: columns[k] == ColumnOf(order, RowsFor(kept[members[k]]), kept[members[k]].calls)
  {
    columns := [];
    for k := 0 to |members|
      invariant |columns| == k
      invariant forall i | 0 <= i < k :: columns[i] == ColumnOf(order, RowsFor(kept[members[i]]), kept[members[i]].calls)
    {
      RowsDistinct(CallStops(kept[members[k]].calls));
      var column := Column(kept[members[k]].calls, rows[k], order);
      columns := columns + [column];
    }
  }

  lemma MergedRows(kept: seq<LineTrip>, members: seq<int>, rows: seq<seq<Row>>, order: seq<Row>)
    requires Members(kept, members) && MergedOrder(rows, order)
    requires |rows| == |members| && forall i | 0 <= i < |rows| :: rows[i] == RowsFor(kept[members[i]])
    ensures Distinct(order) && forall row :: row in order <==> exists k | 0 <= k < |members| :: row in RowsFor(kept[members[k]])
  {
    MergedTimetable(rows, order);
    forall row ensures row in order <==> exists k | 0 <= k < |members| :: row in RowsFor(kept[members[k]]) {
      if t :| t in rows && row in t {
        var k :| 0 <= k < |rows| && rows[k] == t;
        assert row in RowsFor(kept[members[k]]);
      }
      if k :| 0 <= k < |members| && row in RowsFor(kept[members[k]]) {
        assert rows[k] in rows;
      }
    }
  }

  /** The timetable of a line: its trips with a passenger call, in grids by direction, each in the grid
      of its key and in no other. */
  method LineTimetable(trips: seq<LineTrip>) returns (kept: seq<LineTrip>, grids: seq<Grid>)
    ensures kept == PrintedTrips(trips, Stopping(trips))
    ensures DirectionsOf(TripRows(kept), MembersOf(grids)) && forall grid <- grids :: GridOf(kept, grid)
  {
    kept := PrintedTrips(trips, Stopping(trips));
    var directions := Directions(TripRows(kept));
    DirectionsMembers(kept, directions);
    grids := [];
    for d := 0 to |directions|
      invariant |grids| == d
      invariant forall i | 0 <= i < d :: GridOf(kept, grids[i]) && grids[i].members == directions[i]
    {
      var grid := GridFor(kept, directions[d]);
      grids := grids + [grid];
    }
    assert MembersOf(grids) == directions;
  }

  function MembersOf(grids: seq<Grid>): seq<seq<int>> {
    seq(|grids|, d requires 0 <= d < |grids| => grids[d].members)
  }

  lemma DirectionsMembers(kept: seq<LineTrip>, directions: seq<seq<int>>)
    requires DirectionsOf(TripRows(kept), directions)
    ensures forall d | 0 <= d < |directions| :: Members(kept, directions[d])
  {
    var trips := TripRows(kept);
    var backbone, keys :| Backbone(Undirected(trips), backbone) && GroupedBy(trips, backbone, keys, directions);
    forall d | 0 <= d < |directions| ensures Members(kept, directions[d]) {
      assert GroupOf(Marks(backbone, trips), keys[d], directions[d]);
      assert forall k | 0 <= k < |directions[d]| :: directions[d][k] in directions[d];
    }
  }

  function TripRows(kept: seq<LineTrip>): (r: seq<TripRow>)
    ensures |r| == |kept|
  {
    seq(|kept|, i requires 0 <= i < |kept| => TripRow(kept[i].direction, RowsFor(kept[i])))
  }

  /** A trip's calls as they are stored, by sequence number. */
  ghost predicate InSequence(calls: seq<LineCall>) {
    forall i, j | 0 <= i < j < |calls| :: calls[i].sequence < calls[j].sequence
  }

  /** Printing a trip keeps its calls in sequence. */
  lemma {:induction false} PrintedInSequence(calls: seq<LineCall>, stopping: set<string>)
    requires InSequence(calls)
    ensures InSequence(Printed(calls, stopping))
  {
    if calls != [] {
      var front := calls[..|calls| - 1];
      PrintedInSequence(front, stopping);
      var printed := Printed(front, stopping);
      forall i | 0 <= i < |printed| ensures printed[i].sequence < calls[|calls| - 1].sequence {
        assert printed[i] in front;
        var k :| 0 <= k < |front| && front[k] == printed[i];
        assert calls[k] == front[k];
      }
    }
  }

  /** In a grid each trip's column holds each of its calls in exactly one cell; stored in sequence, it reads
      down as the trip runs exactly when its rows read down the grid's order. */
  lemma GridHolds(kept: seq<LineTrip>, grid: Grid, k: int)
    requires GridOf(kept, grid) && 0 <= k < |grid.members|
    ensures var trip := kept[grid.members[k]];
            && multiset(ReadDown(grid.columns[k])) == multiset(trip.calls)
            && (InSequence(trip.calls) ==> (ReadDown(grid.columns[k]) == trip.calls <==> ReadsDown(grid.order, RowsFor(trip))))
  {
    var trip := kept[grid.members[k]];
    RowsDistinct(CallStops(trip.calls));
    ColumnHoldsCalls(grid.order, RowsFor(trip), trip.calls);
    if InSequence(trip.calls) {
      ColumnReadsDown(grid.order, RowsFor(trip), trip.calls);
    }
  }

  /** In a grid the most common of its trips, the longest on a tie, reads down: stored in sequence, its calls
      stand in its column in the order it makes them. */
  lemma CommonReadsDown(kept: seq<LineTrip>, grid: Grid, k: int)
    requires GridOf(kept, grid) && 0 <= k < |grid.members|
    requires var rows := MemberRows(kept, grid.members); forall t <- rows :: t == rows[k] || Before(rows, rows[k], t)
    ensures var trip := kept[grid.members[k]];
            ReadsDown(grid.order, RowsFor(trip)) && (InSequence(trip.calls) ==> ReadDown(grid.columns[k]) == trip.calls)
  {
    var rows := MemberRows(kept, grid.members);
    assert rows[k] in rows;
    RowsDistinct(CallStops(kept[grid.members[k]].calls));
    MergedTimetable(rows, grid.order);
    GridHolds(kept, grid, k);
  }

  /** A printed row is of a stop where some trip of the line stops. */
  lemma RowsStopped(trips: seq<LineTrip>, grid: Grid, row: Row)
    requires GridOf(PrintedTrips(trips, Stopping(trips)), grid) && row in grid.order
    ensures row.stop in Stopping(trips)
  {
    var kept := PrintedTrips(trips, Stopping(trips));
    var k :| 0 <= k < |grid.members| && row in RowsFor(kept[grid.members[k]]);
    var n := grid.members[k];
    var i :| 0 <= i < |kept[n].calls| && RowsFor(kept[n])[i] == row;
    assert kept[n] in kept && kept[n].calls[i] in kept[n].calls;
    PrintedFrom(trips, Stopping(trips), kept[n]);
    var trip :| trip in trips && kept[n].calls == Printed(trip.calls, Stopping(trips));
    assert kept[n].calls[i] in trip.calls;
  }

  lemma {:induction false} PrintedFrom(trips: seq<LineTrip>, stopping: set<string>, printed: LineTrip)
    requires printed in PrintedTrips(trips, stopping)
    ensures exists trip :: trip in trips && printed.calls == Printed(trip.calls, stopping)
  {
    var last := trips[|trips| - 1];
    if printed in PrintedTrips(trips[..|trips| - 1], stopping) {
      PrintedFrom(trips[..|trips| - 1], stopping, printed);
    } else {
      assert last in trips && printed.calls == Printed(last.calls, stopping);
    }
  }
}
