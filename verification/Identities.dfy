/** When history files two calls under one identity: exactly when two public journeys of one name file visits
    of one number at one place, which the parts and places of a run tell before any event. */
module Identities {
  import opened Model
  import opened Runs
  import opened RunLayout

  // ----- what a span files ---------------------------------------------------------------------

  /** The first call span `s` files events of `kind` of: an arrival at a junction is the earlier span's. */
  function FilesFrom(spans: seq<JourneySpan>, s: int, kind: EventKind): int
    requires 0 <= s < |spans|
  {
    if kind == Arrival && s > 0 && spans[s - 1].last >= spans[s].first then spans[s - 1].last + 1 else spans[s].first
  }

  /** The last one: all else at a junction is the later span's. */
  function FilesTo(spans: seq<JourneySpan>, s: int, kind: EventKind): int
    requires 0 <= s < |spans|
  {
    if kind != Arrival && s < |spans| - 1 && spans[s + 1].first <= spans[s].last then spans[s + 1].first - 1 else spans[s].last
  }

  predicate Files(spans: seq<JourneySpan>, s: int, kind: EventKind, i: int) {
    0 <= s < |spans| && FilesFrom(spans, s, kind) <= i <= FilesTo(spans, s, kind)
  }

  lemma SpansOrdered(spans: seq<JourneySpan>, n: int, s: int, t: int)
    requires Covers(JourneyBounds(spans), n) && 0 <= s < t < |spans|
    ensures spans[s].first <= spans[t].first && spans[s].last <= spans[t].last && 0 <= spans[s].first <= spans[s].last < n
    ensures spans[s].last <= spans[s + 1].first && spans[t - 1].last <= spans[t].first
  {
    var bounds := JourneyBounds(spans);
    BoundsOrdered(bounds, n, s, t);
    assert bounds[s] == Bounds(spans[s].first, spans[s].last) && bounds[t] == Bounds(spans[t].first, spans[t].last);
    assert bounds[s + 1].first == spans[s + 1].first && bounds[t - 1].last == spans[t - 1].last;
  }

  lemma SpanBounds(spans: seq<JourneySpan>, n: int, s: int)
    requires Covers(JourneyBounds(spans), n) && 0 <= s < |spans|
    ensures 0 <= spans[s].first <= spans[s].last < n
  {
    var bounds := JourneyBounds(spans);
    BoundsOrdered(bounds, n, s, |spans| - 1);
    assert bounds[s] == Bounds(spans[s].first, spans[s].last);
  }

  /** A later span files later calls. */
  lemma FilesApart(spans: seq<JourneySpan>, n: int, kind: EventKind, s: int, t: int)
    requires Covers(JourneyBounds(spans), n) && 0 <= s < t < |spans|
    ensures FilesTo(spans, s, kind) < FilesFrom(spans, t, kind) || FilesTo(spans, s, kind) < FilesFrom(spans, s, kind)
            || FilesTo(spans, t, kind) < FilesFrom(spans, t, kind)
  {
    SpansOrdered(spans, n, s, t);
    if s + 1 < t {
      SpansOrdered(spans, n, s, t - 1);
      SpansOrdered(spans, n, s + 1, t);
    }
  }

  // ----- which span a call is filed by ---------------------------------------------------------

  lemma {:induction false} HoldingFirst(spans: seq<JourneySpan>, i: int, s: int)
    requires 0 <= s < |spans| && Holds(spans[s], i) && forall r | 0 <= r < s :: !Holds(spans[r], i)
    ensures Holding(spans, i) != [] && Holding(spans, i)[0] == spans[s]
  {
    if s > 0 {
      assert forall r | 0 <= r < s - 1 :: spans[1..][r] == spans[r + 1];
      HoldingFirst(spans[1..], i, s - 1);
    }
  }

  lemma {:induction false} HoldingLast(spans: seq<JourneySpan>, i: int, s: int)
    requires 0 <= s < |spans| && Holds(spans[s], i) && forall r | s < r < |spans| :: !Holds(spans[r], i)
    ensures Holding(spans, i) != [] && Holding(spans, i)[|Holding(spans, i)| - 1] == spans[s]
  {
    var rest := spans[1..];
    assert forall r | 0 <= r < |rest| :: rest[r] == spans[r + 1];
    if s > 0 {
      HoldingLast(rest, i, s - 1);
    } else {
      assert Holding(rest, i) == [];
    }
  }

  lemma NoneBefore(spans: seq<JourneySpan>, n: int, i: int, s: int)
    requires Covers(JourneyBounds(spans), n) && Files(spans, s, Arrival, i)
    ensures forall r | 0 <= r < s :: !Holds(spans[r], i)
  {
    forall r | 0 <= r < s ensures !Holds(spans[r], i) {
      SpansOrdered(spans, n, r, s);
      if r < s - 1 {
        SpansOrdered(spans, n, r, s - 1);
      }
    }
  }

  lemma NoneAfter(spans: seq<JourneySpan>, n: int, i: int, s: int, kind: EventKind)
    requires Covers(JourneyBounds(spans), n) && kind != Arrival && Files(spans, s, kind, i)
    ensures forall r | s < r < |spans| :: !Holds(spans[r], i)
  {
    forall r | s < r < |spans| ensures !Holds(spans[r], i) {
      SpansOrdered(spans, n, s, r);
      if s + 1 < r {
        SpansOrdered(spans, n, s + 1, r);
      }
    }
  }

  /** The span that files a call gives its event the journey and the visit. */
  lemma FiledBy(journey: JourneyKey, spans: seq<JourneySpan>, calls: seq<CallState>, i: int, kind: EventKind, s: int)
    requires Covers(JourneyBounds(spans), |calls|) && Within(spans, |calls|) && 0 <= i < |calls| && Files(spans, s, kind, i)
    ensures 0 <= spans[s].first <= i <= spans[s].last
    ensures PublicCall(journey, spans, calls, i, kind)
         == (spans[s].journey, Occurrences(CallPlaces(calls), calls[i].location, spans[s].first, i + 1))
  {
    SpanBounds(spans, |calls|, s);
    if kind == Arrival {
      NoneBefore(spans, |calls|, i, s);
      HoldingFirst(spans, i, s);
    } else {
      NoneAfter(spans, |calls|, i, s, kind);
      HoldingLast(spans, i, s);
    }
  }

  /** Every call is filed by some span. */
  lemma SomeSpanFiles(spans: seq<JourneySpan>, n: int, i: int, kind: EventKind) returns (s: int)
    requires Covers(JourneyBounds(spans), n) && 0 <= i < n
    ensures Files(spans, s, kind, i)
  {
    assert JourneyBounds(spans)[0].first == spans[0].first;
    assert JourneyBounds(spans)[|spans| - 1].last == spans[|spans| - 1].last;
    if kind == Arrival {
      s := FirstEnding(spans, n, i, 0);
    } else {
      s := LastBeginning(spans, n, i, |spans| - 1);
    }
  }

  lemma {:induction false} FirstEnding(spans: seq<JourneySpan>, n: int, i: int, r: int) returns (s: int)
    requires Covers(JourneyBounds(spans), n) && 0 <= i < n && 0 <= r < |spans|
    requires r > 0 ==> spans[r - 1].last < i
    ensures Files(spans, s, Arrival, i)
    decreases |spans| - r
  {
    SpanBounds(spans, n, r);
    assert JourneyBounds(spans)[0].first == spans[0].first;
    assert JourneyBounds(spans)[|spans| - 1].last == spans[|spans| - 1].last;
    if i <= spans[r].last {
      s := r;
      if r > 0 {
        assert JourneyBounds(spans)[r].first == spans[r].first && JourneyBounds(spans)[r - 1].last == spans[r - 1].last;
      }
    } else {
      s := FirstEnding(spans, n, i, r + 1);
    }
  }

  lemma {:induction false} LastBeginning(spans: seq<JourneySpan>, n: int, i: int, r: int) returns (s: int)
    requires Covers(JourneyBounds(spans), n) && 0 <= i < n && 0 <= r < |spans|
    requires r < |spans| - 1 ==> i < spans[r + 1].first
    ensures forall kind :: kind != Arrival ==> Files(spans, s, kind, i)
    decreases r
  {
    SpanBounds(spans, n, r);
    assert JourneyBounds(spans)[0].first == spans[0].first;
    assert JourneyBounds(spans)[|spans| - 1].last == spans[|spans| - 1].last;
    if spans[r].first <= i {
      s := r;
      if r < |spans| - 1 {
        assert JourneyBounds(spans)[r + 1].first == spans[r + 1].first && JourneyBounds(spans)[r].last == spans[r].last;
      }
    } else {
      s := LastBeginning(spans, n, i, r - 1);
    }
  }

  // ----- the visits a span files ---------------------------------------------------------------

  /** How many visits of the place span `s` counts before those it files, and with them. */
  function VisitsBefore(spans: seq<JourneySpan>, places: seq<string>, s: int, kind: EventKind, place: string): int
    requires 0 <= s < |spans| && 0 <= spans[s].first <= FilesFrom(spans, s, kind) <= |places|
  {
    Occurrences(places, place, spans[s].first, FilesFrom(spans, s, kind))
  }

  function VisitsThrough(spans: seq<JourneySpan>, places: seq<string>, s: int, kind: EventKind, place: string): int
    requires 0 <= s < |spans| && 0 <= spans[s].first <= FilesTo(spans, s, kind) + 1 <= |places|
  {
    Occurrences(places, place, spans[s].first, FilesTo(spans, s, kind) + 1)
  }

  /** Spans `s` and `t` of one journey both file some visit number of the place. */
  ghost predicate SharesVisit(spans: seq<JourneySpan>, places: seq<string>, s: int, t: int, kind: EventKind, place: string)
    requires Within(spans, |places|)
  {
    && 0 <= s < t < |spans| && spans[s].journey == spans[t].journey
    && FilesFrom(spans, s, kind) <= FilesTo(spans, s, kind) && FilesFrom(spans, t, kind) <= FilesTo(spans, t, kind)
    && (assert spans[s] in spans && spans[t] in spans;
        && VisitsBefore(spans, places, s, kind, place) < VisitsThrough(spans, places, t, kind, place)
        && VisitsBefore(spans, places, t, kind, place) < VisitsThrough(spans, places, s, kind, place)
        && VisitsBefore(spans, places, s, kind, place) < VisitsThrough(spans, places, s, kind, place)
        && VisitsBefore(spans, places, t, kind, place) < VisitsThrough(spans, places, t, kind, place))
  }

  /** Each visit number in the range is that of one filed call. */
  lemma {:induction false} NthVisit(places: seq<string>, place: string, lo: int, mid: int, hi: int, visit: int) returns (i: int)
    requires 0 <= lo <= mid <= hi <= |places|
    requires Occurrences(places, place, lo, mid) < visit <= Occurrences(places, place, lo, hi)
    ensures mid <= i < hi && places[i] == place && Occurrences(places, place, lo, i + 1) == visit
    decreases hi - mid
  {
    if Occurrences(places, place, lo, hi - 1) >= visit {
      i := NthVisit(places, place, lo, mid, hi - 1, visit);
    } else {
      i := hi - 1;
    }
  }

  lemma OccurrencesMore(places: seq<string>, place: string, lo: int, i: int, j: int)
    requires 0 <= lo <= i <= j <= |places|
    ensures Occurrences(places, place, lo, i) <= Occurrences(places, place, lo, j)
  {
    OccurrencesSplit(places, place, lo, i, j);
  }

  /** A filed call's visit number lies in its span's range. */
  lemma VisitInRange(spans: seq<JourneySpan>, places: seq<string>, s: int, kind: EventKind, i: int)
    requires Covers(JourneyBounds(spans), |places|) && Files(spans, s, kind, i) && 0 <= i < |places|
    ensures FilesFrom(spans, s, kind) >= spans[s].first >= 0 && FilesTo(spans, s, kind) < |places| && spans[s].first <= i
    ensures VisitsBefore(spans, places, s, kind, places[i]) < Occurrences(places, places[i], spans[s].first, i + 1)
         <= VisitsThrough(spans, places, s, kind, places[i])
  {
    SpanBounds(spans, |places|, s);
    OccurrencesMore(places, places[i], spans[s].first, FilesFrom(spans, s, kind), i);
    OccurrencesMore(places, places[i], spans[s].first, i + 1, FilesTo(spans, s, kind) + 1);
  }

  // ----- when two calls collide ----------------------------------------------------------------

  /** Some two calls have one history identity for events of `kind`. */
  ghost predicate Collide(journey: JourneyKey, spans: seq<JourneySpan>, calls: seq<CallState>, kind: EventKind)
    requires Anchored(spans)
  {
    exists i, j :: 0 <= i < j < |calls| && Triple(journey, spans, calls, i, kind) == Triple(journey, spans, calls, j, kind)
  }

  ghost predicate SomeShare(spans: seq<JourneySpan>, places: seq<string>, kind: EventKind)
    requires Within(spans, |places|)
  {
    exists s, t, place :: SharesVisit(spans, places, s, t, kind, place)
  }

  lemma CollidingShare(journey: JourneyKey, spans: seq<JourneySpan>, calls: seq<CallState>, kind: EventKind, i: int, j: int)
    requires Covers(JourneyBounds(spans), |calls|) && Within(spans, |calls|) && 0 <= i < j < |calls|
    requires Triple(journey, spans, calls, i, kind) == Triple(journey, spans, calls, j, kind)
    ensures SomeShare(spans, CallPlaces(calls), kind)
  {
    var places := CallPlaces(calls);
    var s := SomeSpanFiles(spans, |calls|, i, kind);
    var t := SomeSpanFiles(spans, |calls|, j, kind);
    FiledBy(journey, spans, calls, i, kind, s);
    FiledBy(journey, spans, calls, j, kind, t);
    VisitInRange(spans, places, s, kind, i);
    VisitInRange(spans, places, t, kind, j);
    if s == t {
      OccurrencesGrow(places, spans[s].first, i, j);
    } else if s < t {
      assert SharesVisit(spans, places, s, t, kind, places[i]);
    } else {
      FilesApart(spans, |calls|, kind, t, s);
    }
  }

  /** The calls that the two spans file under the first visit number they share. */
  lemma SharedCalls(spans: seq<JourneySpan>, places: seq<string>, kind: EventKind, s: int, t: int, place: string)
    returns (i: int, j: int)
    requires Covers(JourneyBounds(spans), |places|) && Within(spans, |places|)
    requires SharesVisit(spans, places, s, t, kind, place)
    ensures 0 <= i < |places| && 0 <= j < |places| && Files(spans, s, kind, i) && Files(spans, t, kind, j)
    ensures places[i] == places[j] == place && 0 <= spans[s].first <= i && 0 <= spans[t].first <= j
    ensures Occurrences(places, place, spans[s].first, i + 1) == Occurrences(places, place, spans[t].first, j + 1)
  {
    SpanBounds(spans, |places|, s);
    SpanBounds(spans, |places|, t);
    var a, b := VisitsBefore(spans, places, s, kind, place), VisitsBefore(spans, places, t, kind, place);
    var visit := (if a < b then b else a) + 1;
    i := NthVisit(places, place, spans[s].first, FilesFrom(spans, s, kind), FilesTo(spans, s, kind) + 1, visit);
    j := NthVisit(places, place, spans[t].first, FilesFrom(spans, t, kind), FilesTo(spans, t, kind) + 1, visit);
  }

  lemma SharingCollides(
    journey: JourneyKey, spans: seq<JourneySpan>, calls: seq<CallState>, kind: EventKind, s: int, t: int, place: string)
    requires Covers(JourneyBounds(spans), |calls|) && Within(spans, |calls|)
    requires SharesVisit(spans, CallPlaces(calls), s, t, kind, place)
    ensures Collide(journey, spans, calls, kind)
  {
    var i, j := SharedCalls(spans, CallPlaces(calls), kind, s, t, place);
    FiledBy(journey, spans, calls, i, kind, s);
    FiledBy(journey, spans, calls, j, kind, t);
    FilesApart(spans, |calls|, kind, s, t);
    assert i < j && Triple(journey, spans, calls, i, kind) == Triple(journey, spans, calls, j, kind);
  }

  /** History files two calls of a run under one identity exactly if two of its public journeys have one name
      and both file some visit number of one place: a matter of parts and places alone. */
  lemma CollideExact(journey: JourneyKey, spans: seq<JourneySpan>, calls: seq<CallState>, kind: EventKind)
    requires Covers(JourneyBounds(spans), |calls|) && Within(spans, |calls|)
    ensures Anchored(spans)
    ensures Collide(journey, spans, calls, kind) <==> SomeShare(spans, CallPlaces(calls), kind)
  {
    if Collide(journey, spans, calls, kind) {
      var i, j :| 0 <= i < j < |calls| && Triple(journey, spans, calls, i, kind) == Triple(journey, spans, calls, j, kind);
      CollidingShare(journey, spans, calls, kind, i, j);
    }
    if SomeShare(spans, CallPlaces(calls), kind) {
      var s, t, place :| SharesVisit(spans, CallPlaces(calls), s, t, kind, place);
      SharingCollides(journey, spans, calls, kind, s, t, place);
    }
  }

  /** So on every instance of a well-laid trip. A road trip, its own journey, and a run of distinct public
      journeys never have two calls collide. */
  lemma TripCollides(feed: string, trip: Trip, journey: JourneyKey, calls: seq<CallState>, kind: EventKind)
    requires WellLaid(trip) && Follows(calls, trip)
    ensures var spans := JourneySpansOf(feed, trip, journey.day);
            && Within(spans, |calls|) && Anchored(spans)
            && (Collide(journey, spans, calls, kind) <==> spans != [] && SomeShare(spans, Places(trip.calls), kind))
            && (Distinct(spans) ==> !Collide(journey, spans, calls, kind))
  {
    var spans := JourneySpansOf(feed, trip, journey.day);
    LaidSpansCover(feed, trip, journey.day);
    assert CallPlaces(calls) == Places(trip.calls);
    if spans == [] {
      CountedVisitsUnique(trip.calls);
    } else {
      CollideExact(journey, spans, calls, kind);
    }
  }

  // ----- cases ---------------------------------------------------------------------------------

  /** A run numbered A, B, A, each part of one call: its first and last calls collide exactly if they are at one
      place. */
  lemma ReturningNumber(journey: JourneyKey, calls: seq<CallState>, kind: EventKind)
    requires |calls| == 3
    ensures var spans := SpansOf("czptt", "pa", 0, ReturningParts());
            && Within(spans, 3) && Anchored(spans)
            && (Collide(journey, spans, calls, kind) <==> calls[0].location == calls[2].location)
  {
    ReturningSpans();
    var spans := SpansOf("czptt", "pa", 0, ReturningParts());
    assert spans[0].journey.key[0] != spans[1].journey.key[0];
    CollideExact(journey, spans, calls, kind);
    var places := CallPlaces(calls);
    forall s, t, place ensures SharesVisit(spans, places, s, t, kind, place) <==> s == 0 && t == 2 && places[0] == place == places[2] {
      OuterShare(spans, places, kind, s, t, place);
    }
    assert SharesVisit(spans, places, 0, 2, kind, places[0]) <==> places[0] == places[2];
  }

  /** Of three spans of one call, the outer two of one journey, only those can share a visit. */
  lemma OuterShare(spans: seq<JourneySpan>, places: seq<string>, kind: EventKind, s: int, t: int, place: string)
    requires |spans| == |places| == 3 && forall k | 0 <= k < 3 :: spans[k].first == spans[k].last == k
    requires spans[0].journey == spans[2].journey != spans[1].journey
    ensures SharesVisit(spans, places, s, t, kind, place) <==> s == 0 && t == 2 && places[0] == place == places[2]
  {
    if s == 0 && t == 2 {
      Single(places, place, 0);
      Single(places, place, 2);
    }
  }

  lemma Single(places: seq<string>, place: string, i: int)
    requires 0 <= i < |places|
    ensures Occurrences(places, place, i, i + 1) == if places[i] == place then 1 else 0
  {
  }

  /** Two unnumbered parts, of two calls each, that share their junction. */
  function UnnumberedParts(): seq<TripPart> {
    [TripPart(Published("p"), None, 0, 1), TripPart(Published("q"), None, 1, 2)]
  }

  lemma UnnumberedSpans()
    ensures SpansOf("czptt", "pa", 0, UnnumberedParts()) ==
            [JourneySpan(RunJourney("czptt", "pa", 0), 0, 1), JourneySpan(RunJourney("czptt", "pa", 0), 1, 2)]
  {
    var p, q := UnnumberedParts()[0], UnnumberedParts()[1];
    SpansNext("czptt", "pa", 0, [], p);
    SpansNext("czptt", "pa", 0, [p], q);
    assert [] + [p] == [p] && [p] + [q] == UnnumberedParts();
  }

  /** They are two journeys of one name. Their arrivals collide exactly if the run ends where it began, and all
      else exactly if it calls again where it began: a junction alone does not collide. */
  lemma UnnumberedTwice(journey: JourneyKey, calls: seq<CallState>, kind: EventKind)
    requires |calls| == 3
    ensures var spans := SpansOf("czptt", "pa", 0, UnnumberedParts());
            && Within(spans, 3) && Anchored(spans)
            && (Collide(journey, spans, calls, kind) <==>
                  calls[0].location == calls[2].location || (kind != Arrival && calls[0].location == calls[1].location))
  {
    UnnumberedSpans();
    var spans := SpansOf("czptt", "pa", 0, UnnumberedParts());
    CollideExact(journey, spans, calls, kind);
    var places := CallPlaces(calls);
    forall place ensures SharesVisit(spans, places, 0, 1, kind, place) <==>
                           if kind == Arrival then places[0] == place == places[2]
                           else places[0] == place && (places[1] == place || places[2] == place) {
      UnnumberedVisits(places, place);
    }
    forall s, t, place | SharesVisit(spans, places, s, t, kind, place) ensures s == 0 && t == 1 {
    }
    if places[0] == places[2] || (kind != Arrival && places[0] == places[1]) {
      assert SharesVisit(spans, places, 0, 1, kind, places[0]);
    }
  }

  lemma UnnumberedVisits(places: seq<string>, place: string)
    requires |places| == 3
    ensures var a, b, c := if places[0] == place then 1 else 0, if places[1] == place then 1 else 0, if places[2] == place then 1 else 0;
            && Occurrences(places, place, 0, 0) == 0 && Occurrences(places, place, 0, 1) == a && Occurrences(places, place, 0, 2) == a + b
            && Occurrences(places, place, 1, 1) == 0 && Occurrences(places, place, 1, 2) == b && Occurrences(places, place, 1, 3) == b + c
  {
    Single(places, place, 0);
    Single(places, place, 1);
    OccurrencesSplit(places, place, 0, 1, 2);
    Single(places, place, 2);
    OccurrencesSplit(places, place, 1, 2, 3);
  }
}
