/** Local time: a zone that changes by an hour, the instants that read as a wall-clock time, source
    times resolved near their reception, dates by the hour, and the board's window of schedule times.
    Instants, wall times and offsets are microseconds; dates are day numbers. */
module Times {
  import opened Model

  const SECOND := 1_000_000
  const HOUR := 3_600_000_000
  const DAY := 86_400_000_000
  const WEEK := 604_800_000_000

  // ----- zones ---------------------------------------------------------------------------------

  /** From the instant `at` on, local time is UTC plus `offset`. */
  datatype Change = Change(at: int, offset: int)
  datatype Zone = Zone(first: int, changes: seq<Change>)

  /** The offset once the first `n` changes have passed. */
  function After(z: Zone, n: int): int
    requires 0 <= n <= |z.changes|
  {
    if n == 0 then z.first else z.changes[n - 1].offset
  }

  function Least(a: int, b: int): int {
    if a < b then a else b
  }

  function Most(a: int, b: int): int {
    if a < b then b else a
  }

  /** A change by an hour, at least a week after the one before. */
  predicate Stepped(z: Zone, i: int)
    requires 0 <= i < |z.changes|
  {
    && (z.changes[i].offset == After(z, i) + HOUR || z.changes[i].offset == After(z, i) - HOUR)
    && (i > 0 ==> z.changes[i].at - z.changes[i - 1].at >= WEEK)
  }

  ghost predicate Spaced(z: Zone) {
    forall i | 0 <= i < |z.changes| :: Stepped(z, i)
  }

  predicate OnTheHour(change: Change) {
    change.at % HOUR == 0 && change.offset % HOUR == 0
  }

  /** A zone whose offsets are whole hours, changed at whole hours. */
  ghost predicate Hourly(z: Zone) {
    Spaced(z) && z.first % HOUR == 0 && forall change <- z.changes :: OnTheHour(change)
  }

  /** The UTC offset at an instant, among the first `n` changes. */
  function OffsetAt(z: Zone, n: int, t: int): int
    requires 0 <= n <= |z.changes|
  {
    if n == 0 then z.first
    else if t >= z.changes[n - 1].at then z.changes[n - 1].offset
    else OffsetAt(z, n - 1, t)
  }

  function LocalAmong(z: Zone, n: int, t: int): int
    requires 0 <= n <= |z.changes|
  {
    t + OffsetAt(z, n, t)
  }

  /** The wall-clock time of an instant. */
  function Local(z: Zone, t: int): int {
    LocalAmong(z, |z.changes|, t)
  }

  /** The wall time from which the `n`-th change counts: the later of the two readings of its instant
      for the first fold, the earlier for the second. */
  function Threshold(z: Zone, n: int, fold: bool): int
    requires 0 < n <= |z.changes|
  {
    var change := z.changes[n - 1];
    change.at + if fold then Least(After(z, n - 1), change.offset) else Most(After(z, n - 1), change.offset)
  }

  function WallOffset(z: Zone, n: int, wall: int, fold: bool): int
    requires 0 <= n <= |z.changes|
  {
    if n == 0 then z.first
    else if wall >= Threshold(z, n, fold) then z.changes[n - 1].offset
    else WallOffset(z, n - 1, wall, fold)
  }

  /** The instant of a wall-clock time and fold. */
  function Instant(z: Zone, wall: int, fold: bool): int {
    wall - WallOffset(z, |z.changes|, wall, fold)
  }

  // ----- readings ------------------------------------------------------------------------------

  function ReadingsOf(z: Zone, wall: int): seq<int> {
    var a, b := Instant(z, wall, false), Instant(z, wall, true);
    (if Local(z, a) == wall then [a] else [])
    + if Local(z, b) == wall && !(Local(z, a) == wall && b == a) then [b] else []
  }

  /** Every instant that reads as `wall`: none, one or two. */
  method Readings(z: Zone, wall: int) returns (found: seq<int>)
    ensures found == ReadingsOf(z, wall)
  {
    found := [];
    var folds := [false, true];
    for i := 0 to 2
      invariant i == 1 ==> found == if Local(z, Instant(z, wall, false)) == wall then [Instant(z, wall, false)] else []
      invariant i == 0 ==> found == []
      invariant i == 2 ==> found == ReadingsOf(z, wall)
    {
      var candidate := Instant(z, wall, folds[i]);
      if Local(z, candidate) == wall && candidate !in found {
        found := found + [candidate];
      }
    }
  }

  /** Before a change, clocks have not reached what they would read at it unchanged. */
  lemma {:induction false} BelowChange(z: Zone, n: int, t: int)
    requires Spaced(z) && 0 < n <= |z.changes| && t < z.changes[n - 1].at
    ensures LocalAmong(z, n - 1, t) < z.changes[n - 1].at + After(z, n - 1)
  {
    if n > 1 && t < z.changes[n - 2].at {
      assert Stepped(z, n - 2) && Stepped(z, n - 1);
      BelowChange(z, n - 1, t);
    }
  }

  /** Well after a change, both folds use its offset. */
  lemma PastChange(z: Zone, n: int, wall: int, fold: bool)
    requires Spaced(z) && 0 <= n <= |z.changes|
    requires n > 0 ==> wall >= z.changes[n - 1].at + After(z, n) + HOUR
    ensures WallOffset(z, n, wall, fold) == After(z, n)
  {
    assert n > 0 ==> Stepped(z, n - 1);
  }

  lemma WellPast(z: Zone, n: int, wall: int, fold: bool)
    requires Spaced(z) && 0 < n <= |z.changes|
    requires wall >= z.changes[n - 1].at + Least(After(z, n - 1), z.changes[n - 1].offset)
    ensures WallOffset(z, n - 1, wall, fold) == After(z, n - 1)
  {
    assert Stepped(z, n - 1);
    PastChange(z, n - 1, wall, fold);
  }

  /** One of the folds of what an instant reads as is the instant. */
  lemma {:induction false} FoldRecovers(z: Zone, n: int, t: int)
    requires Spaced(z) && 0 <= n <= |z.changes|
    ensures var wall := LocalAmong(z, n, t);
            wall - WallOffset(z, n, wall, false) == t || wall - WallOffset(z, n, wall, true) == t
  {
    if n > 0 {
      var change, before, wall := z.changes[n - 1], After(z, n - 1), LocalAmong(z, n, t);
      assert Stepped(z, n - 1);
      if t < change.at {
        FoldRecovers(z, n - 1, t);
        BelowChange(z, n, t);
        if wall >= change.at + Least(before, change.offset) {
          WellPast(z, n, wall, false);
          WellPast(z, n, wall, true);
        }
      }
    }
  }

  /** The readings of a wall time are exactly the instants that read as it, each once. */
  lemma ReadingsExact(z: Zone, wall: int, t: int)
    requires Hourly(z)
    ensures t in ReadingsOf(z, wall) <==> Local(z, t) == wall
    ensures |ReadingsOf(z, wall)| <= 2 && (|ReadingsOf(z, wall)| == 2 ==> ReadingsOf(z, wall)[0] != ReadingsOf(z, wall)[1])
  {
    if Local(z, t) == wall {
      FoldRecovers(z, |z.changes|, t);
    }
  }

  // ----- skipped and repeated times ------------------------------------------------------------

  /** A time some change skips. */
  ghost predicate SkippedAmong(z: Zone, n: int, wall: int)
    requires 0 <= n <= |z.changes|
  {
    exists i | 0 < i <= n :: SkippedBy(z, i, wall)
  }

  ghost predicate Skipped(z: Zone, wall: int) {
    SkippedAmong(z, |z.changes|, wall)
  }

  /** A time some change repeats. */
  ghost predicate Repeated(z: Zone, wall: int) {
    exists i | 0 < i <= |z.changes| :: RepeatedBy(z, i, wall)
  }

  predicate RepeatedBy(z: Zone, n: int, wall: int)
    requires 0 < n <= |z.changes|
  {
    z.changes[n - 1].at + z.changes[n - 1].offset <= wall < z.changes[n - 1].at + After(z, n - 1)
  }

  lemma {:induction false} SkippedBelow(z: Zone, n: int, i: int)
    requires Spaced(z) && 0 <= i < n < |z.changes|
    ensures z.changes[i].at + z.changes[i].offset < z.changes[n].at + Least(After(z, n), z.changes[n].offset)
  {
    assert Stepped(z, n) && Stepped(z, n - 1);
    if i < n - 1 {
      SkippedBelow(z, n - 1, i);
    }
  }

  /** The `n`-th change skips `wall`. */
  predicate SkippedBy(z: Zone, n: int, wall: int)
    requires 0 < n <= |z.changes|
  {
    z.changes[n - 1].at + After(z, n - 1) <= wall < z.changes[n - 1].at + z.changes[n - 1].offset
  }

  lemma SkippedEarlier(z: Zone, n: int, wall: int)
    requires Spaced(z) && 0 < n <= |z.changes|
    ensures SkippedAmong(z, n - 1, wall) ==> wall < z.changes[n - 1].at + Least(After(z, n - 1), z.changes[n - 1].offset)
  {
    if SkippedAmong(z, n - 1, wall) {
      var i :| 0 < i <= n - 1 && SkippedBy(z, i, wall);
      SkippedBelow(z, n - 1, i - 1);
    }
  }

  ghost predicate ReadAmong(z: Zone, n: int, wall: int)
    requires 0 <= n <= |z.changes|
  {
    exists t :: LocalAmong(z, n, t) == wall
  }

  /** Some instant among the first `n` changes reads as `wall` exactly when none of them skips it. */
  lemma {:induction false} ReadUnlessSkipped(z: Zone, n: int, wall: int)
    requires Spaced(z) && 0 <= n <= |z.changes|
    ensures ReadAmong(z, n, wall) <==> !SkippedAmong(z, n, wall)
  {
    if n == 0 {
      assert LocalAmong(z, 0, wall - z.first) == wall;
    } else {
      var change, before := z.changes[n - 1], After(z, n - 1);
      assert Stepped(z, n - 1);
      SkippedEarlier(z, n, wall);
      if wall >= change.at + change.offset {
        assert LocalAmong(z, n, wall - change.offset) == wall;
      } else if wall >= change.at + before {
        assert SkippedBy(z, n, wall);
        forall t ensures LocalAmong(z, n, t) != wall {
          if t < change.at {
            BelowChange(z, n, t);
          }
        }
      } else {
        ReadUnlessSkipped(z, n - 1, wall);
        EarlierReads(z, n, wall);
      }
    }
  }

  /** Below both readings of a change, what reads as `wall` comes before it. */
  lemma EarlierReads(z: Zone, n: int, wall: int)
    requires Spaced(z) && 0 < n <= |z.changes|
    requires wall < z.changes[n - 1].at + Least(After(z, n - 1), z.changes[n - 1].offset)
    ensures ReadAmong(z, n, wall) <==> ReadAmong(z, n - 1, wall)
  {
    assert Stepped(z, n - 1);
    forall t ensures LocalAmong(z, n, t) == wall <==> LocalAmong(z, n - 1, t) == wall {
      if t >= z.changes[n - 1].at {
        LaterOffset(z, n - 1, t);
      }
    }
    if ReadAmong(z, n, wall) {
      var t :| LocalAmong(z, n, t) == wall;
      assert LocalAmong(z, n - 1, t) == wall;
    }
    if ReadAmong(z, n - 1, wall) {
      var t :| LocalAmong(z, n - 1, t) == wall;
      assert LocalAmong(z, n, t) == wall;
    }
  }

  lemma LaterOffset(z: Zone, n: int, t: int)
    requires 0 <= n <= |z.changes| && (n > 0 ==> t >= z.changes[n - 1].at)
    ensures OffsetAt(z, n, t) == After(z, n)
  {
  }

  lemma {:induction false} OffsetWhole(z: Zone, n: int, t: int)
    requires Hourly(z) && 0 <= n <= |z.changes|
    ensures OffsetAt(z, n, t) % HOUR == 0
  {
    if n > 0 {
      assert z.changes[n - 1] in z.changes;
      OffsetWhole(z, n - 1, t);
    }
  }

  /** Two instants that read the same lie at least an hour apart. */
  lemma ReadingsApart(z: Zone, t: int, u: int)
    requires Hourly(z) && Local(z, t) == Local(z, u) && t < u
    ensures u - t >= HOUR
  {
    OffsetWhole(z, |z.changes|, t);
    OffsetWhole(z, |z.changes|, u);
    var a, b := OffsetAt(z, |z.changes|, t), OffsetAt(z, |z.changes|, u);
    assert a - b == u - t && (a - b) % HOUR == 0;
  }

  /** A wall time has no reading exactly when a change skips it. */
  lemma NoReading(z: Zone, wall: int)
    requires Hourly(z)
    ensures ReadingsOf(z, wall) == [] <==> Skipped(z, wall)
  {
    ReadUnlessSkipped(z, |z.changes|, wall);
    if t :| LocalAmong(z, |z.changes|, t) == wall {
      ReadingsExact(z, wall, t);
    }
    if ReadingsOf(z, wall) != [] {
      ReadingsExact(z, wall, ReadingsOf(z, wall)[0]);
    }
  }

  // ----- resolving near reception --------------------------------------------------------------

  function Distance(a: int, b: int): int {
    if a < b then b - a else a - b
  }

  predicate Nearer(a: int, b: int, received: int) {
    Distance(a, received) < Distance(b, received) || (Distance(a, received) == Distance(b, received) && a <= b)
  }

  /** The reading closest to reception, the earlier of two as close. */
  method Closest(readings: seq<int>, received: int) returns (r: Option<int>)
    ensures r == ClosestOf(readings, received)
    ensures r.None? <==> readings == []
    ensures r.Some? ==> r.value in readings && forall t <- readings :: Nearer(r.value, t, received)
  {
    if readings == [] {
      return None;
    }
    var best := readings[0];
    for i := 1 to |readings|
      invariant best in readings && forall k | 0 <= k < i :: Nearer(best, readings[k], received)
      invariant Some(best) == ClosestOf(readings[..i], received)
    {
      assert readings[..i + 1][..i] == readings[..i];
      if !Nearer(best, readings[i], received) {
        best := readings[i];
      }
    }
    assert readings[..|readings|] == readings;
    return Some(best);
  }

  function ClosestOf(readings: seq<int>, received: int): (r: Option<int>)
    ensures r.None? <==> readings == []
    ensures r.Some? ==> r.value in readings && forall t <- readings :: Nearer(r.value, t, received)
  {
    if readings == [] then None
    else
      var front, last := ClosestOf(readings[..|readings| - 1], received), readings[|readings| - 1];
      assert readings == readings[..|readings| - 1] + [last];
      if front.Some? && Nearer(front.value, last, received) then front else Some(last)
  }

  /** A source's wall time, as the reading closest to its reception. */
  function ResolveLocal(z: Zone, wall: int, received: int): Option<int> {
    ClosestOf(ReadingsOf(z, wall), received)
  }

  /** Resolving gives an instant that reads as the time and is closest to reception, and gives none
      exactly for a skipped time. */
  lemma ResolveExact(z: Zone, wall: int, received: int)
    requires Hourly(z)
    ensures ResolveLocal(z, wall, received).None? <==> Skipped(z, wall)
    ensures var r := ResolveLocal(z, wall, received);
            r.Some? ==> Local(z, r.value) == wall && forall t | Local(z, t) == wall :: Nearer(r.value, t, received)
  {
    NoReading(z, wall);
    var r := ResolveLocal(z, wall, received);
    if r.Some? {
      ReadingsExact(z, wall, r.value);
      forall t | Local(z, t) == wall ensures Nearer(r.value, t, received) {
        ReadingsExact(z, wall, t);
      }
    }
  }

  /** What an instant reads as, received less than half an hour from it, resolves to it, in the
      repeated hour too. */
  lemma RoundTrip(z: Zone, t: int, received: int)
    requires Hourly(z) && 2 * Distance(t, received) < HOUR
    ensures ResolveLocal(z, Local(z, t), received) == Some(t)
  {
    ResolveExact(z, Local(z, t), received);
    ReadingsExact(z, Local(z, t), t);
    var r := ResolveLocal(z, Local(z, t), received);
    if r.value < t {
      ReadingsApart(z, r.value, t);
    } else if t < r.value {
      ReadingsApart(z, t, r.value);
    }
  }

  // ----- the repeated hour ---------------------------------------------------------------------

  /** The first fold reads the first occurrence of a time, or a skipped time with the offset before
      the change. */
  lemma {:induction false} FirstFold(z: Zone, n: int, wall: int)
    requires Spaced(z) && 0 <= n <= |z.changes|
    ensures var t := wall - WallOffset(z, n, wall, false);
            && LocalAmong(z, n, t) == wall + (if SkippedAmong(z, n, wall) then HOUR else 0)
            && (n > 0 && wall < z.changes[n - 1].at + Least(After(z, n - 1), z.changes[n - 1].offset) ==> t < z.changes[n - 1].at)
            && forall u :: LocalAmong(z, n, u) == wall ==> t <= u
  {
    if n > 0 {
      var change, before := z.changes[n - 1], After(z, n - 1);
      var t := wall - WallOffset(z, n, wall, false);
      assert Stepped(z, n - 1);
      SkippedEarlier(z, n, wall);
      if wall >= change.at + Most(before, change.offset) {
        forall u | LocalAmong(z, n, u) == wall ensures t <= u {
          if u < change.at {
            BelowChange(z, n, u);
          }
        }
      } else if wall >= change.at + Least(before, change.offset) {
        WellPast(z, n, wall, false);
        if change.offset > before {
          assert SkippedBy(z, n, wall);
          NotReadInGap(z, n, wall);
          assert t == wall - before && t >= change.at;
        } else {
          FirstFold(z, n - 1, wall);
          SkippedMore(z, n, wall);
          assert t == wall - before && t < change.at;
          forall u | LocalAmong(z, n, u) == wall ensures t <= u {
            if u < change.at {
              assert LocalAmong(z, n - 1, u) == wall;
            }
          }
        }
      } else {
        FirstFold(z, n - 1, wall);
        FoldEarlier(z, n, wall);
        SkippedMore(z, n, wall);
        assert t == wall - WallOffset(z, n - 1, wall, false) && t < change.at;
        assert !SkippedBy(z, n, wall);
        forall u | LocalAmong(z, n, u) == wall ensures t <= u {
          if u < change.at {
            assert LocalAmong(z, n - 1, u) == wall;
          }
        }
      }
    }
  }

  lemma SkippedMore(z: Zone, n: int, wall: int)
    requires 0 < n <= |z.changes|
    ensures SkippedAmong(z, n, wall) <==> SkippedAmong(z, n - 1, wall) || SkippedBy(z, n, wall)
  {
  }

  lemma NotReadInGap(z: Zone, n: int, wall: int)
    requires Spaced(z) && 0 < n <= |z.changes| && SkippedBy(z, n, wall)
    ensures forall u :: LocalAmong(z, n, u) != wall
  {
    forall u ensures LocalAmong(z, n, u) != wall {
      if u < z.changes[n - 1].at {
        BelowChange(z, n, u);
      }
    }
  }

  /** Below both readings of a change, the first fold's instant comes before it. */
  lemma {:induction false} FoldEarlier(z: Zone, n: int, wall: int)
    requires Spaced(z) && 0 < n <= |z.changes|
    requires wall < z.changes[n - 1].at + Least(After(z, n - 1), z.changes[n - 1].offset)
    ensures wall - WallOffset(z, n - 1, wall, false) < z.changes[n - 1].at
  {
    assert Stepped(z, n - 1);
    var at := z.changes[n - 1].at;
    assert wall < at + After(z, n - 1);
    if n > 1 {
      var change := z.changes[n - 2];
      assert Stepped(z, n - 2) && After(z, n - 1) == change.offset;
      if wall < change.at + Least(After(z, n - 2), change.offset) {
        FoldEarlier(z, n - 1, wall);
        assert WallOffset(z, n - 1, wall, false) == WallOffset(z, n - 2, wall, false);
      } else if wall < Threshold(z, n - 1, false) {
        WellPast(z, n - 1, wall, false);
        assert WallOffset(z, n - 1, wall, false) == After(z, n - 2);
      } else {
        assert WallOffset(z, n - 1, wall, false) == change.offset;
      }
    }
  }

  /** Up to the instant of a wall time, clocks read no later than at it. */
  lemma {:induction false} BeforeFold(z: Zone, n: int, wall: int, t: int)
    requires Spaced(z) && 0 <= n <= |z.changes| && t <= wall - WallOffset(z, n, wall, false)
    ensures LocalAmong(z, n, t) <= LocalAmong(z, n, wall - WallOffset(z, n, wall, false))
  {
    if n > 0 {
      var change, before, u := z.changes[n - 1], After(z, n - 1), wall - WallOffset(z, n, wall, false);
      assert Stepped(z, n - 1);
      if t < change.at {
        BelowChange(z, n, t);
        if u < change.at && wall < Threshold(z, n, false) {
          BeforeFold(z, n - 1, wall, t);
        } else if wall < Threshold(z, n, false) {
          assert change.offset > before by {
            if wall >= change.at + Least(before, change.offset) {
              WellPast(z, n, wall, false);
            } else {
              FoldEarlier(z, n, wall);
            }
          }
        }
      }
    }
  }

  /** Past the instant of a wall time, clocks read earlier only while a change repeats the hour. */
  lemma {:induction false} AfterFold(z: Zone, n: int, wall: int, t: int)
    requires Spaced(z) && 0 <= n <= |z.changes| && t >= wall - WallOffset(z, n, wall, false)
    requires LocalAmong(z, n, t) < wall
    ensures exists i | 0 < i <= n :: RepeatedBy(z, i, LocalAmong(z, n, t)) && RepeatedBy(z, i, wall)
  {
    if n > 0 {
      var change, before, u := z.changes[n - 1], After(z, n - 1), wall - WallOffset(z, n, wall, false);
      assert Stepped(z, n - 1);
      if t < change.at {
        BelowChange(z, n, t);
        AfterFold(z, n - 1, wall, t);
      } else if wall < Threshold(z, n, false) && wall >= change.at + Least(before, change.offset) {
        WellPast(z, n, wall, false);
        assert RepeatedBy(z, n, wall) && RepeatedBy(z, n, LocalAmong(z, n, t));
      }
    }
  }

  /** Offsets of wall times less than two days apart differ by at most an hour. */
  lemma {:induction false} FoldsNear(z: Zone, n: int, m: int, wall: int)
    requires Spaced(z) && 0 <= n <= |z.changes| && m <= wall < m + 2 * DAY
    ensures Distance(WallOffset(z, n, m, false), WallOffset(z, n, wall, false)) <= HOUR
  {
    if n > 0 {
      assert Stepped(z, n - 1);
      if m < Threshold(z, n, false) {
        if wall < Threshold(z, n, false) {
          FoldsNear(z, n - 1, m, wall);
        } else {
          PastChange(z, n - 1, m, false);
        }
      }
    }
  }

  /** Offsets of instants less than a day apart differ by at most an hour. */
  lemma {:induction false} OffsetsNear(z: Zone, n: int, t: int, u: int)
    requires Spaced(z) && 0 <= n <= |z.changes| && t <= u < t + DAY
    ensures Distance(OffsetAt(z, n, t), OffsetAt(z, n, u)) <= HOUR
  {
    if n > 0 {
      assert Stepped(z, n - 1);
      if t < z.changes[n - 1].at {
        if u < z.changes[n - 1].at {
          OffsetsNear(z, n - 1, t, u);
        } else {
          LaterOffset(z, n - 1, t);
        }
      }
    }
  }

  // ----- schedule times ------------------------------------------------------------------------

  /** The instant of a schedule time: seconds from local midnight of the service date. */
  function ScheduleInstant(z: Zone, day: int, seconds: int): int {
    Instant(z, day * DAY + seconds * SECOND, false)
  }

  /** A schedule time is read as its first occurrence; one that a change skips, an hour late. */
  lemma ScheduleExact(z: Zone, day: int, seconds: int)
    requires Spaced(z)
    ensures var wall, t := day * DAY + seconds * SECOND, ScheduleInstant(z, day, seconds);
            && (Skipped(z, wall) ==> Local(z, t) == wall + HOUR)
            && (!Skipped(z, wall) ==> Local(z, t) == wall && forall u | Local(z, u) == wall :: t <= u)
  {
    FirstFold(z, |z.changes|, day * DAY + seconds * SECOND);
  }

  /** A time strictly inside the gap a change leaves. */
  predicate InsideGap(z: Zone, n: int, wall: int)
    requires 0 < n <= |z.changes|
  {
    z.changes[n - 1].at + After(z, n - 1) < wall < z.changes[n - 1].at + z.changes[n - 1].offset
  }

  ghost predicate Inside(z: Zone, wall: int) {
    exists i | 0 < i <= |z.changes| :: InsideGap(z, i, wall)
  }

  /** Before the `i`-th change only the changes before it count. */
  lemma {:induction false} OffsetBelow(z: Zone, n: int, i: int, t: int)
    requires Spaced(z) && 0 < i <= n <= |z.changes| && t < z.changes[i - 1].at
    ensures OffsetAt(z, n, t) == OffsetAt(z, i - 1, t)
  {
    if i < n {
      ChangesGrow(z, i, n);
      OffsetBelow(z, n - 1, i, t);
    }
  }

  lemma {:induction false} ChangesGrow(z: Zone, i: int, n: int)
    requires Spaced(z) && 0 < i <= n <= |z.changes|
    ensures z.changes[i - 1].at <= z.changes[n - 1].at
  {
    if i < n {
      assert Stepped(z, n - 1);
      ChangesGrow(z, i, n - 1);
    }
  }

  /** At the first moment past a gap, clocks read the first fold's time a whole gap earlier. */
  lemma {:induction false} GapEnds(z: Zone, n: int, i: int, wall: int, past: int)
    requires Spaced(z) && 0 < i <= n <= |z.changes| && SkippedBy(z, i, wall)
    requires past == z.changes[i - 1].at + z.changes[i - 1].offset
    ensures wall - WallOffset(z, n, wall, false) == wall - After(z, i - 1)
    ensures past - WallOffset(z, n, past, false) == z.changes[i - 1].at
  {
    if i < n {
      SkippedBelow(z, n - 1, i - 1);
      GapEnds(z, n - 1, i, wall, past);
      SoonAfter(z, n - 1, i);
    } else {
      WellPast(z, n, wall, false);
      assert Stepped(z, n - 1);
    }
  }

  /** What a change reads at itself lies below both readings of a later one. */
  lemma SoonAfter(z: Zone, n: int, i: int)
    requires Spaced(z) && 0 < i <= n < |z.changes|
    ensures z.changes[i - 1].at + z.changes[i - 1].offset < Threshold(z, n + 1, false)
  {
    SkippedBelow(z, n, i - 1);
  }

  /** A wall time's first fold comes no later than that of any later wall time exactly unless it lies
      strictly inside a gap: its instant is then after that of the gap's end. */
  lemma InOrderExact(z: Zone, wall: int)
    requires Spaced(z)
    ensures (forall later | wall <= later :: Instant(z, wall, false) <= Instant(z, later, false)) <==> !Inside(z, wall)
    ensures forall i | 0 < i <= |z.changes| && InsideGap(z, i, wall) ::
              Instant(z, z.changes[i - 1].at + z.changes[i - 1].offset, false) < Instant(z, wall, false)
  {
    forall i | 0 < i <= |z.changes| && InsideGap(z, i, wall)
      ensures var past := z.changes[i - 1].at + z.changes[i - 1].offset;
              wall <= past && Instant(z, past, false) < Instant(z, wall, false)
    {
      GapEnds(z, |z.changes|, i, wall, z.changes[i - 1].at + z.changes[i - 1].offset);
    }
    if !Inside(z, wall) {
      forall later | wall <= later ensures Instant(z, wall, false) <= Instant(z, later, false) {
        OutsideInOrder(z, wall, later);
      }
    }
  }

  lemma OutsideInOrder(z: Zone, wall: int, later: int)
    requires Spaced(z) && wall <= later && !Inside(z, wall)
    ensures Instant(z, wall, false) <= Instant(z, later, false)
  {
    var n := |z.changes|;
    FirstFold(z, n, wall);
    FirstFold(z, n, later);
    if Instant(z, later, false) < Instant(z, wall, false) {
      BeforeFold(z, n, wall, Instant(z, later, false));
      if Skipped(z, wall) {
        var i :| 0 < i <= n && SkippedBy(z, i, wall);
        assert wall == z.changes[i - 1].at + After(z, i - 1) by {
          assert !InsideGap(z, i, wall);
        }
        GapEnds(z, n, i, wall, z.changes[i - 1].at + z.changes[i - 1].offset);
        BelowChange(z, i, Instant(z, later, false));
        OffsetBelow(z, n, i, Instant(z, later, false));
      }
    }
  }

  /** A wall time on the hour is a whole number of seconds from any midnight. */
  lemma SecondsOf(day: int, wall: int) returns (seconds: int)
    requires wall % HOUR == 0
    ensures day * DAY + seconds * SECOND == wall
  {
    seconds := (wall / HOUR - day * 24) * 3600;
  }

  lemma WholeSum(a: int, b: int)
    requires a % HOUR == 0 && b % HOUR == 0
    ensures (a + b) % HOUR == 0
  {
    assert a == HOUR * (a / HOUR) && b == HOUR * (b / HOUR);
    assert a + b == HOUR * (a / HOUR + b / HOUR);
  }

  /** A schedule time inside a gap is an instant after that of the gap's end, a later schedule time. */
  lemma PastGap(z: Zone, day: int, a: int, i: int) returns (b: int)
    requires Hourly(z) && 0 < i <= |z.changes| && InsideGap(z, i, day * DAY + a * SECOND)
    ensures a <= b && ScheduleInstant(z, day, b) < ScheduleInstant(z, day, a)
  {
    assert OnTheHour(z.changes[i - 1]);
    var past := z.changes[i - 1].at + z.changes[i - 1].offset;
    WholeSum(z.changes[i - 1].at, z.changes[i - 1].offset);
    b := SecondsOf(day, past);
    InOrderExact(z, day * DAY + a * SECOND);
  }

  /** Later schedule times of a date come no earlier than one exactly unless it lies strictly inside a gap.
      The gap's first moment is in order: it is the instant of its end. */
  lemma ScheduleInOrder(z: Zone, day: int, a: int)
    requires Hourly(z)
    ensures (forall b | a <= b :: ScheduleInstant(z, day, a) <= ScheduleInstant(z, day, b)) <==> !Inside(z, day * DAY + a * SECOND)
  {
    var wall := day * DAY + a * SECOND;
    if i :| 0 < i <= |z.changes| && InsideGap(z, i, wall) {
      var b := PastGap(z, day, a, i);
    }
    forall b | a <= b && !Inside(z, wall) ensures ScheduleInstant(z, day, a) <= ScheduleInstant(z, day, b) {
      OutsideInOrder(z, wall, day * DAY + b * SECOND);
    }
  }

  function LocalDay(z: Zone, t: int): int {
    Local(z, t) / DAY
  }

  lemma {:induction false} OffsetInHour(z: Zone, n: int, t: int)
    requires Hourly(z) && 0 <= n <= |z.changes|
    ensures OffsetAt(z, n, t / HOUR * HOUR) == OffsetAt(z, n, t)
  {
    if n > 0 {
      assert OnTheHour(z.changes[n - 1]);
      OffsetInHour(z, n - 1, t);
    }
  }

  lemma InDay(day: int, t: int)
    requires day * DAY <= t < day * DAY + DAY
    ensures t / DAY == day
  {
  }

  lemma DayInHour(t: int, offset: int)
    requires offset % HOUR == 0
    ensures (t / HOUR * HOUR + offset) / DAY == (t + offset) / DAY
  {
    var hours := t / HOUR + offset / HOUR;
    var day := hours / 24;
    assert t / HOUR * HOUR + offset == hours * HOUR;
    assert hours * HOUR <= t + offset < hours * HOUR + HOUR;
    assert day * 24 <= hours <= day * 24 + 23;
    InDay(day, t + offset);
    InDay(day, hours * HOUR);
  }

  /** The date of an instant is that of its whole hour. */
  lemma DateByHour(z: Zone, t: int)
    requires Hourly(z)
    ensures LocalDay(z, t / HOUR * HOUR) == LocalDay(z, t)
  {
    OffsetInHour(z, |z.changes|, t);
    OffsetWhole(z, |z.changes|, t);
    DayInHour(t, OffsetAt(z, |z.changes|, t));
  }

  /** Dates by the hour, the last few kept. */
  class DateCache {
    const zone: Zone
    const size: nat
    var dates: map<int, int>
    var hours: seq<int>

    ghost predicate Valid()
      reads this
    {
      Hourly(zone) && forall hour <- dates :: dates[hour] == LocalDay(zone, hour * HOUR)
    }

    constructor (zone: Zone, size: nat)
      requires Hourly(zone)
      ensures Valid() && this.zone == zone
    {
      this.zone, this.size, dates, hours := zone, size, map[], [];
    }

    /** The local date of an instant, computed once an hour. */
    method LocalDate(t: int) returns (day: int)
      requires Valid()
      modifies this
      ensures Valid() && day == LocalDay(zone, t)
    {
      DateByHour(zone, t);
      var hour := t / HOUR;
      if hour in dates {
        return dates[hour];
      }
      day := LocalDay(zone, hour * HOUR);
      if |hours| >= size && hours != [] {
        dates := dates - {hours[0]};
        hours := hours[1..];
      }
      dates := dates[hour := day];
      hours := hours + [hour];
    }
  }

  // ----- the board's window --------------------------------------------------------------------

  /** No change touches midnight: both readings of it and the hour after lie in one day. */
  predicate MidDay(z: Zone, i: int)
    requires 0 < i <= |z.changes|
  {
    var change, before := z.changes[i - 1], After(z, i - 1);
    (change.at + Least(before, change.offset)) / DAY == (change.at + Most(before, change.offset) + HOUR) / DAY
  }

  ghost predicate AwayFromMidnight(z: Zone) {
    forall i | 0 < i <= |z.changes| :: MidDay(z, i)
  }

  lemma SameDay(a: int, b: int, x: int, y: int)
    requires a <= x <= b && a <= y <= b && a / DAY == b / DAY
    ensures x / DAY == y / DAY
  {
  }

  /** The date of a schedule time's instant, and of any instant before it, is at most its own. */
  lemma NotLater(z: Zone, wall: int, since: int)
    requires Spaced(z) && AwayFromMidnight(z) && since <= Instant(z, wall, false)
    ensures LocalDay(z, since) <= wall / DAY
  {
    var n := |z.changes|;
    FirstFold(z, n, wall);
    BeforeFold(z, n, wall, since);
    if Skipped(z, wall) {
      var i :| 0 < i <= n && SkippedBy(z, i, wall);
      assert MidDay(z, i) && Stepped(z, i - 1);
      SameDay(z.changes[i - 1].at + After(z, i - 1), z.changes[i - 1].at + z.changes[i - 1].offset + HOUR, wall, wall + HOUR);
    }
  }

  /** The date of any instant after a schedule time's is at least its own. */
  lemma NotEarlier(z: Zone, wall: int, until: int)
    requires Spaced(z) && AwayFromMidnight(z) && Instant(z, wall, false) <= until
    ensures wall / DAY <= LocalDay(z, until)
  {
    if Local(z, until) < wall {
      AfterFold(z, |z.changes|, wall, until);
      var i :| 0 < i <= |z.changes| && RepeatedBy(z, i, Local(z, until)) && RepeatedBy(z, i, wall);
      assert MidDay(z, i);
      SameDay(z.changes[i - 1].at + z.changes[i - 1].offset, z.changes[i - 1].at + After(z, i - 1) + HOUR, wall, Local(z, until));
    }
  }

  function Ceil(a: int, b: int): int
    requires b > 0
  {
    -((-a) / b)
  }

  const SLACK := 3600

  /** The scheduled seconds of `day` that can fall before `until`, at most. */
  function HiOf(z: Zone, day: int, until: int): int {
    Ceil(until - ScheduleInstant(z, day, 0), SECOND) + SLACK
  }

  function LoOf(z: Zone, day: int, since: int): int {
    Most(0, (since - ScheduleInstant(z, day, 0)) / SECOND - SLACK)
  }

  datatype Spans = Spans(dates: seq<int>, lo: seq<int>, hi: seq<int>)

  /** Each date with a second in the window once, none before the day before `since` or from `end` on, and
      with it the seconds it has there. */
  ghost predicate SpansOf(z: Zone, since: int, until: int, end: int, spans: Spans) {
    && |spans.dates| == |spans.lo| == |spans.hi|
    && (forall i, j | 0 <= i < j < |spans.dates| :: spans.dates[i] < spans.dates[j])
    && (forall i | 0 <= i < |spans.dates| ::
          spans.lo[i] == LoOf(z, spans.dates[i], since) && spans.hi[i] == HiOf(z, spans.dates[i], until))
    && (forall day :: day in spans.dates <==> LocalDay(z, since) - 1 <= day < end && HiOf(z, day, until) >= 0)
  }

  /** Goes through the dates a window can touch and keeps those it does. */
  method ScheduleSpans(z: Zone, since: int, until: int) returns (spans: Spans)
    ensures SpansOf(z, since, until, LocalDay(z, until) + 1, spans)
  {
    spans := Spans([], [], []);
    var day, last := LocalDay(z, since) - 1, LocalDay(z, until);
    var first := day;
    while day <= last
      invariant first <= day && (day <= last + 1 || day == first)
      invariant SpansOf(z, since, until, Least(day, last + 1), spans)
      decreases last - day
    {
      var midnight := ScheduleInstant(z, day, 0);
      var hi := Ceil(until - midnight, SECOND) + SLACK;
      if hi >= 0 {
        var lo := Most(0, (since - midnight) / SECOND - SLACK);
        assert forall i | 0 <= i < |spans.dates| :: spans.dates[i] in spans.dates;
        spans := Spans(spans.dates + [day], spans.lo + [lo], spans.hi + [hi]);
      }
      day := day + 1;
    }
  }

  /** A schedule time and midnight of its date are apart by its seconds, give or take the hour. */
  lemma SecondsNear(z: Zone, day: int, seconds: int)
    requires Spaced(z) && 0 <= seconds < 172_800
    ensures Distance(ScheduleInstant(z, day, seconds) - ScheduleInstant(z, day, 0), seconds * SECOND) <= HOUR
  {
    FoldsNear(z, |z.changes|, day * DAY, day * DAY + seconds * SECOND);
  }

  lemma SecondsInRange(z: Zone, day: int, seconds: int, since: int, until: int)
    requires 0 <= seconds
    requires Distance(ScheduleInstant(z, day, seconds) - ScheduleInstant(z, day, 0), seconds * SECOND) <= HOUR
    requires since <= ScheduleInstant(z, day, seconds) < until
    ensures LoOf(z, day, since) <= seconds <= HiOf(z, day, until)
  {
    var a, b := since - ScheduleInstant(z, day, 0), until - ScheduleInstant(z, day, 0);
    assert a <= (seconds + SLACK) * SECOND;
    assert b > (seconds - SLACK) * SECOND;
    assert a / SECOND <= seconds + SLACK;
    assert (-b) / SECOND <= -(seconds - SLACK);
  }

  /** Every schedule time under 48 hours whose instant lies in the window has its date among the spans
      and its seconds within that date's range. */
  lemma WindowComplete(z: Zone, since: int, until: int, spans: Spans, day: int, seconds: int)
    requires Spaced(z) && AwayFromMidnight(z) && SpansOf(z, since, until, LocalDay(z, until) + 1, spans)
    requires 0 <= seconds < 172_800 && since <= ScheduleInstant(z, day, seconds) < until
    ensures exists i | 0 <= i < |spans.dates| :: spans.dates[i] == day && spans.lo[i] <= seconds <= spans.hi[i]
  {
    var wall := day * DAY + seconds * SECOND;
    NotLater(z, wall, since);
    NotEarlier(z, wall, until);
    SecondsNear(z, day, seconds);
    SecondsInRange(z, day, seconds, since, until);
    assert day in spans.dates;
  }

  /** The spans are no wider than they need to be: their seconds lie within two hours of the window. */
  lemma WindowTight(z: Zone, since: int, until: int, spans: Spans, i: int, seconds: int)
    requires Spaced(z) && SpansOf(z, since, until, LocalDay(z, until) + 1, spans) && 0 <= i < |spans.dates|
    requires 0 <= seconds < 172_800 && spans.lo[i] <= seconds <= spans.hi[i]
    ensures since - 2 * HOUR - SECOND < ScheduleInstant(z, spans.dates[i], seconds) < until + 2 * HOUR + SECOND
  {
    var day := spans.dates[i];
    SecondsNear(z, day, seconds);
    var a, b := since - ScheduleInstant(z, day, 0), until - ScheduleInstant(z, day, 0);
    assert a < (seconds + SLACK + 1) * SECOND by {
      assert a / SECOND <= seconds + SLACK;
    }
    assert b > (seconds - SLACK - 1) * SECOND by {
      assert -((-b) / SECOND) >= seconds - SLACK;
    }
  }

  /** A time of 48 hours or later is missed by a window that begins with it. */
  lemma LateTimeMissed(z: Zone, day: int, seconds: int, until: int, spans: Spans)
    requires Spaced(z) && AwayFromMidnight(z) && seconds >= 172_800
    requires SpansOf(z, ScheduleInstant(z, day, seconds), until, LocalDay(z, until) + 1, spans)
    ensures day !in spans.dates
  {
    var wall := day * DAY + seconds * SECOND;
    NotEarlier(z, wall, ScheduleInstant(z, day, seconds));
    assert wall >= (day + 2) * DAY;
    assert wall / DAY >= day + 2;
  }

  // ----- a time of day -------------------------------------------------------------------------

  /** The instant reads as the time of day `clock`, within twelve hours of reception. */
  predicate ReadsClock(z: Zone, clock: int, received: int, t: int) {
    Local(z, t) % DAY == clock && Distance(t, received) <= 12 * HOUR
  }

  /** Instants twelve hours apart read at most a date apart. */
  lemma NearDay(z: Zone, t: int, received: int)
    requires Spaced(z) && Distance(t, received) <= 12 * HOUR
    ensures LocalDay(z, received) - 1 <= LocalDay(z, t) <= LocalDay(z, received) + 1
  {
    OffsetsNear(z, |z.changes|, if t < received then t else received, if t < received then received else t);
    assert Distance(Local(z, t), Local(z, received)) <= 13 * HOUR;
  }

  lemma ClockOn(wall: int, day: int, clock: int)
    requires 0 <= clock < DAY
    ensures wall == day * DAY + clock <==> wall / DAY == day && wall % DAY == clock
  {
    if wall == day * DAY + clock {
      InDay(day, wall);
    }
  }

  /** Of yesterday's, today's and tomorrow's instants that read as the time of day, the closest to reception, if
      it is within twelve hours. */
  method ResolveClock(z: Zone, clock: int, received: int) returns (r: Option<int>)
    requires Hourly(z) && 0 <= clock < DAY
    ensures r.None? <==> forall t :: !ReadsClock(z, clock, received, t)
    ensures r.Some? ==> ReadsClock(z, clock, received, r.value)
    ensures r.Some? ==> forall t :: ReadsClock(z, clock, received, t) ==> Nearer(r.value, t, received)
  {
    var today := LocalDay(z, received);
    var near: seq<int> := [];
    for day := today - 1 to today + 2
      invariant forall t :: t in near <==>
                  ReadsClock(z, clock, received, t) && today - 1 <= LocalDay(z, t) < day
    {
      var readings := Readings(z, day * DAY + clock);
      forall t ensures t in readings <==> Local(z, t) % DAY == clock && LocalDay(z, t) == day {
        ReadingsExact(z, day * DAY + clock, t);
        ClockOn(Local(z, t), day, clock);
      }
      for i := 0 to |readings|
        invariant forall t :: t in near <==>
                    || (ReadsClock(z, clock, received, t) && today - 1 <= LocalDay(z, t) < day)
                    || (t in readings[..i] && Distance(t, received) <= 12 * HOUR)
      {
        assert readings[..i + 1] == readings[..i] + [readings[i]];
        if Distance(readings[i], received) <= 12 * HOUR {
          near := near + [readings[i]];
        }
      }
      assert readings[..|readings|] == readings;
    }
    forall t | ReadsClock(z, clock, received, t) ensures t in near {
      NearDay(z, t, received);
    }
    r := Closest(near, received);
  }

  // ----- a year of Prague time -----------------------------------------------------------------

  const MARCH_29 := 20_541
  const OCTOBER_25 := 20_751

  /** Europe/Prague in 2026: an hour ahead of UTC, and two from 29 March to 25 October. */
  function Prague2026(): Zone {
    Zone(HOUR, [Change(MARCH_29 * DAY + HOUR, 2 * HOUR), Change(OCTOBER_25 * DAY + HOUR, HOUR)])
  }

  lemma PragueSpaced()
    ensures Spaced(Prague2026())
  {
    assert Stepped(Prague2026(), 0) && Stepped(Prague2026(), 1);
  }

  lemma PragueHours()
    ensures forall change <- Prague2026().changes :: OnTheHour(change)
  {
    var z := Prague2026();
    assert OnTheHour(z.changes[0]) && OnTheHour(z.changes[1]);
  }

  lemma PragueZone()
    ensures Hourly(Prague2026()) && AwayFromMidnight(Prague2026())
  {
    PragueSpaced();
    PragueHours();
    assert MidDay(Prague2026(), 1) && MidDay(Prague2026(), 2);
  }

  /** An hour repeated by a change is read once by each fold, first with the offset before it. */
  lemma {:induction false} RepeatedFolds(z: Zone, n: int, i: int, wall: int)
    requires Spaced(z) && 0 < i <= n <= |z.changes| && RepeatedBy(z, i, wall)
    ensures WallOffset(z, n, wall, false) == After(z, i - 1) && WallOffset(z, n, wall, true) == z.changes[i - 1].offset
    ensures OffsetAt(z, n, wall - After(z, i - 1)) == After(z, i - 1)
    ensures OffsetAt(z, n, wall - z.changes[i - 1].offset) == z.changes[i - 1].offset
  {
    assert Stepped(z, i - 1);
    if i < n {
      RepeatedFolds(z, n - 1, i, wall);
      ChangesGrow(z, i, n - 1);
      SkippedBelow(z, n - 1, i - 1);
      RepeatedBelow(z, n, i);
    } else {
      WellPast(z, n, wall, false);
      PriorOffset(z, n, wall - After(z, n - 1));
    }
  }

  lemma {:induction false} RepeatedBelow(z: Zone, n: int, i: int)
    requires Spaced(z) && 0 < i < n <= |z.changes|
    ensures z.changes[i - 1].at + z.changes[i - 1].offset + HOUR < z.changes[n - 1].at + Least(After(z, n - 1), z.changes[n - 1].offset)
    ensures z.changes[i - 1].at + HOUR < z.changes[n - 1].at
  {
    assert Stepped(z, n - 1) && Stepped(z, n - 2);
    if i < n - 1 {
      RepeatedBelow(z, n - 1, i);
    }
  }

  /** A repeated time is read twice, an hour apart, and a reception midway between the readings takes the
      earlier: half an hour is the most it may be off. */
  lemma RepeatedTwice(z: Zone, i: int, wall: int)
    requires Spaced(z) && 0 < i <= |z.changes| && RepeatedBy(z, i, wall)
    ensures var after := z.changes[i - 1].offset;
            && ReadingsOf(z, wall) == [wall - after - HOUR, wall - after]
            && ResolveLocal(z, wall, wall - after - HOUR / 2) == Some(wall - after - HOUR)
  {
    var n, after := |z.changes|, z.changes[i - 1].offset;
    assert Stepped(z, i - 1);
    RepeatedFolds(z, n, i, wall);
    var readings, received := ReadingsOf(z, wall), wall - after - HOUR / 2;
    assert readings == [wall - after - HOUR, wall - after];
    var r := ClosestOf(readings, received);
    assert readings[0] in readings && Nearer(r.value, readings[0], received);
  }

  lemma PriorOffset(z: Zone, n: int, t: int)
    requires Spaced(z) && 0 < n <= |z.changes| && z.changes[n - 1].at - HOUR <= t < z.changes[n - 1].at
    ensures OffsetAt(z, n, t) == After(z, n - 1)
  {
    assert Stepped(z, n - 1);
    LaterOffset(z, n - 1, t);
  }

  /** 2:30 is skipped in March and read twice in October. */
  lemma PragueNights()
    ensures var z := Prague2026();
            && Skipped(z, MARCH_29 * DAY + 9_000_000_000)
            && RepeatedBy(z, 2, OCTOBER_25 * DAY + 9_000_000_000)
  {
    assert SkippedBy(Prague2026(), 1, MARCH_29 * DAY + 9_000_000_000);
  }

  /** Schedule times from a skipped hour come out of order: 2:30 in March is an instant after 3:00's. */
  lemma PragueOutOfOrder()
    ensures ScheduleInstant(Prague2026(), MARCH_29, 9_000) > ScheduleInstant(Prague2026(), MARCH_29, 10_800)
  {
    var z := Prague2026();
    ColdSide(z, MARCH_29 * DAY + 9_000 * SECOND);
    ColdSide(z, MARCH_29 * DAY + 10_800 * SECOND);
  }

  lemma ColdSide(z: Zone, wall: int)
    requires z == Prague2026() && MARCH_29 * DAY <= wall < MARCH_29 * DAY + DAY
    ensures WallOffset(z, 2, wall, false) == if wall >= MARCH_29 * DAY + 3 * HOUR then 2 * HOUR else HOUR
  {
    assert wall < Threshold(z, 2, false);
    assert WallOffset(z, 2, wall, false) == WallOffset(z, 1, wall, false);
    assert Threshold(z, 1, false) == MARCH_29 * DAY + 3 * HOUR;
  }
}
