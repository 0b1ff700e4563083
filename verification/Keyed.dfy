/** Keyed binding: a source key and a time choose the one admissible journey closest to the time. A run's journey
    is always bound to one trip. A road key may have two entries that run on one day; exactly when both can be
    chosen, one journey binds to two trips. */
module Keyed {
  import opened Model
  import opened Runs
  import opened RunLayout
  import opened Core
  import opened CoreSteps
  import opened CoreRuns
  import opened TripAgreement
  import opened HistoryRuns

  /** What binding reads of the index and the policy: a key's entries, trips, service days, the run trip of a
      trip on a day, when a trip starts and ends on a day, and how early and late a mode may be. */
  datatype Timetable = Timetable(
    feed: string,
    entries: KeyRef -> seq<KeyEntry>,
    parent: KeyRef -> Option<KeyRef>,
    trip: string -> Trip,
    runsOn: (string, int) -> bool,
    run: (Trip, int) -> Trip,
    span: (Trip, int) -> (int, int),
    localDate: int -> int,
    preTrip: string -> int,
    maxDelay: string -> int)

  // ----- what runs -----------------------------------------------------------------------------

  predicate Running(t: Timetable, e: KeyEntry, day: int) {
    e.ValidOn(day) && t.runsOn(t.trip(e.publicId).serviceId, day)
  }

  /** A part of a run stands for its run on the day. */
  function MatchOn(t: Timetable, key: KeyRef, day: int, e: KeyEntry): Match {
    var part := t.trip(e.publicId);
    var trip := if part.runKey.Some? then t.run(part, day) else part;
    var journey := if part.runKey.Some? then JourneyKey(t.feed, RUN_NAMESPACE, if trip.runKey.Some? then trip.runKey.value else "", day)
                   else JourneyKey(t.feed, key.namespace, key.identifier, day);
    var span := t.span(trip, day);
    Match(journey, trip, span.0, span.1)
  }

  /** The journeys of a key's entries that run on a day, a run once; None if two versions of a part run. */
  function MatchesOn(t: Timetable, key: KeyRef, day: int, entries: seq<KeyEntry>): Option<seq<Match>> {
    if entries == [] then Some([])
    else
      var before, e := MatchesOn(t, key, day, entries[..|entries| - 1]), entries[|entries| - 1];
      if before.None? || !Running(t, e, day) then before
      else
        var m, rail := MatchOn(t, key, day, e), t.trip(e.publicId).runKey.Some?;
        if rail && m.trip.parts == [] then None
        else if rail && exists other <- before.value :: other.journey == m.journey && other.trip.parts != [] then before
        else Some(before.value + [m])
  }

  function MatchesOver(t: Timetable, key: KeyRef, days: seq<int>, entries: seq<KeyEntry>): Option<seq<Match>> {
    if days == [] then Some([])
    else
      var before, more := MatchesOver(t, key, days[..|days| - 1], entries), MatchesOn(t, key, days[|days| - 1], entries);
      if before.None? || more.None? then None else Some(before.value + more.value)
  }

  // ----- what is chosen ------------------------------------------------------------------------

  predicate Admits(t: Timetable, m: Match, at: int) {
    m.start - t.preTrip(m.trip.mode) <= at <= m.end + t.maxDelay(m.trip.mode)
  }

  function Distance(m: Match, at: int): int {
    if at < m.start then m.start - at else if at > m.end then at - m.end else 0
  }

  function Admissible(t: Timetable, matches: seq<Match>, at: int): (r: seq<Match>)
    ensures forall m :: m in r <==> m in matches && Admits(t, m, at)
  {
    if matches == [] then []
    else
      var front, last := Admissible(t, matches[..|matches| - 1], at), matches[|matches| - 1];
      assert matches == matches[..|matches| - 1] + [last];
      if Admits(t, last, at) then front + [last] else front
  }

  /** The one match closer than every other, if there is one. */
  ghost predicate Closest(matches: seq<Match>, at: int, i: int) {
    0 <= i < |matches| && forall j | 0 <= j < |matches| && j != i :: Distance(matches[i], at) < Distance(matches[j], at)
  }

  /** The choice among the running journeys: the closest admissible one, none on a tie. */
  ghost predicate Chosen(t: Timetable, matches: seq<Match>, at: int, found: Found) {
    var admissible := Admissible(t, matches, at);
    if matches == [] then found == Missed(NotActive)
    else if admissible == [] then found == Missed(NotInService)
    else
      || (exists i :: Closest(admissible, at, i) && found == Matched(admissible[i]))
      || ((forall i :: !Closest(admissible, at, i)) && found == Missed(AmbiguousKey))
  }

  function Days(t: Timetable, at: int, day: Option<int>): seq<int> {
    if day.Some? then [day.value] else [t.localDate(at) - 1, t.localDate(at), t.localDate(at) + 1]
  }

  ghost predicate BindsAs(t: Timetable, key: KeyRef, at: int, day: Option<int>, found: Found) {
    var entries := t.entries(key);
    if entries == [] then
      found == Missed(if t.parent(key).Some? && t.entries(t.parent(key).value) == [] then NoLine else NoTrip)
    else
      var matches := MatchesOver(t, key, Days(t, at, day), entries);
      if matches.None? then found == Missed(AmbiguousKey) else Chosen(t, matches.value, at, found)
  }

  /** The journeys of the entries that run on the day. */
  method FindOn(t: Timetable, key: KeyRef, day: int, entries: seq<KeyEntry>) returns (r: Option<seq<Match>>)
    ensures r == MatchesOn(t, key, day, entries)
  {
    var running: seq<Match> := [];
    for i := 0 to |entries|
      invariant Some(running) == MatchesOn(t, key, day, entries[..i])
    {
      assert entries[..i + 1][..i] == entries[..i];
      if Running(t, entries[i], day) {
        var m, rail := MatchOn(t, key, day, entries[i]), t.trip(entries[i].publicId).runKey.Some?;
        if rail && m.trip.parts == [] {
          UnbuiltStays(t, key, day, entries, i + 1);
          return None;
        }
        if !(rail && exists other <- running :: other.journey == m.journey && other.trip.parts != []) {
          running := running + [m];
        }
      }
    }
    assert entries[..|entries|] == entries;
    return Some(running);
  }

  lemma {:induction false} UnbuiltStays(t: Timetable, key: KeyRef, day: int, entries: seq<KeyEntry>, n: int)
    requires 0 <= n <= |entries| && MatchesOn(t, key, day, entries[..n]).None?
    ensures MatchesOn(t, key, day, entries).None?
  {
    if n < |entries| {
      var front := entries[..|entries| - 1];
      assert front[..n] == entries[..n];
      UnbuiltStays(t, key, day, front, n);
    } else {
      assert entries[..n] == entries;
    }
  }

  /** The journey a key binds to at a time, among the candidate dates or on the date the source names. */
  method Bind(t: Timetable, key: KeyRef, at: int, day: Option<int>) returns (found: Found)
    ensures BindsAs(t, key, at, day, found)
  {
    var entries := t.entries(key);
    if entries == [] {
      return Missed(if t.parent(key).Some? && t.entries(t.parent(key).value) == [] then NoLine else NoTrip);
    }
    var days, running: seq<Match> := Days(t, at, day), [];
    for i := 0 to |days|
      invariant Some(running) == MatchesOver(t, key, days[..i], entries)
    {
      assert days[..i + 1][..i] == days[..i];
      var more := FindOn(t, key, days[i], entries);
      if more.None? {
        UnbuiltDay(t, key, days, entries, i + 1);
        return Missed(AmbiguousKey);
      }
      running := running + more.value;
    }
    assert days[..|days|] == days;
    found := Choose(t, running, at);
  }

  lemma {:induction false} UnbuiltDay(t: Timetable, key: KeyRef, days: seq<int>, entries: seq<KeyEntry>, n: int)
    requires 0 <= n <= |days| && MatchesOver(t, key, days[..n], entries).None?
    ensures MatchesOver(t, key, days, entries).None?
  {
    if n < |days| {
      var front := days[..|days| - 1];
      assert front[..n] == days[..n];
      UnbuiltDay(t, key, front, entries, n);
    } else {
      assert days[..n] == days;
    }
  }

  method Choose(t: Timetable, running: seq<Match>, at: int) returns (found: Found)
    ensures Chosen(t, running, at, found)
  {
    if running == [] {
      return Missed(NotActive);
    }
    var admissible := Admissible(t, running, at);
    if admissible == [] {
      return Missed(NotInService);
    }
    var best, tied := 0, false;
    for i := 1 to |admissible|
      invariant 0 <= best < i
      invariant forall j | 0 <= j < i :: Distance(admissible[best], at) <= Distance(admissible[j], at)
      invariant tied <==> exists j :: 0 <= j < i && j != best && Distance(admissible[j], at) == Distance(admissible[best], at)
    {
      if Distance(admissible[i], at) < Distance(admissible[best], at) {
        best, tied := i, false;
      } else if Distance(admissible[i], at) == Distance(admissible[best], at) {
        tied := true;
      }
    }
    if tied {
      forall i ensures !Closest(admissible, at, i) {
        if 0 <= i < |admissible| && i != best {
          assert Distance(admissible[best], at) <= Distance(admissible[i], at);
        }
      }
      return Missed(AmbiguousKey);
    }
    assert Closest(admissible, at, best);
    return Matched(admissible[best]);
  }

  // ----- when one journey binds to two trips ---------------------------------------------------

  /** The match at `i` is admissible and closer than every other admissible one. */
  ghost predicate Wins(t: Timetable, matches: seq<Match>, at: int, i: int) {
    && 0 <= i < |matches| && Admits(t, matches[i], at)
    && forall j | 0 <= j < |matches| && j != i && Admits(t, matches[j], at) :: Distance(matches[i], at) < Distance(matches[j], at)
  }

  lemma {:induction false} WinnerClosest(t: Timetable, matches: seq<Match>, at: int, i: int) returns (k: int)
    requires Wins(t, matches, at, i)
    ensures var admissible := Admissible(t, matches, at); Closest(admissible, at, k) && admissible[k] == matches[i]
  {
    var front, last := matches[..|matches| - 1], matches[|matches| - 1];
    var before := Admissible(t, front, at);
    if i < |front| {
      k := WinnerClosest(t, front, at, i);
    } else {
      k := |before|;
      forall j | 0 <= j < |before| ensures Distance(last, at) < Distance(before[j], at) {
        assert before[j] in front;
        var l :| 0 <= l < |front| && front[l] == before[j];
        assert matches[l] == front[l];
      }
    }
  }

  lemma {:induction false} ClosestWins(t: Timetable, matches: seq<Match>, at: int, k: int) returns (i: int)
    requires Closest(Admissible(t, matches, at), at, k)
    ensures Wins(t, matches, at, i) && matches[i] == Admissible(t, matches, at)[k]
  {
    var front, last := matches[..|matches| - 1], matches[|matches| - 1];
    var before := Admissible(t, front, at);
    if k < |before| {
      ClosestInFront(before, last, Admissible(t, matches, at), at, k);
      i := ClosestWins(t, front, at, k);
      assert Admits(t, last, at) ==> Admissible(t, matches, at)[|before|] == last;
      WinsMore(t, front, last, matches, at, i);
    } else {
      i := |front|;
      LastWins(t, front, last, at);
    }
  }

  /** A win stays one beside a further match that is not as close. */
  lemma WinsMore(t: Timetable, front: seq<Match>, last: Match, matches: seq<Match>, at: int, i: int)
    requires Wins(t, front, at, i) && |matches| == |front| + 1
    requires matches[..|front|] == front && matches[|front|] == last
    requires Admits(t, last, at) ==> Distance(front[i], at) < Distance(last, at)
    ensures Wins(t, matches, at, i)
  {
    assert forall j | 0 <= j < |front| :: matches[j] == front[j];
  }

  lemma ClosestInFront(before: seq<Match>, last: Match, all: seq<Match>, at: int, k: int)
    requires (all == before || all == before + [last]) && Closest(all, at, k) && k < |before|
    ensures Closest(before, at, k)
  {
    forall j | 0 <= j < |before| && j != k ensures Distance(before[k], at) < Distance(before[j], at) {
      assert all[j] == before[j];
    }
  }

  lemma LastWins(t: Timetable, front: seq<Match>, last: Match, at: int)
    requires Admits(t, last, at)
    requires var before := Admissible(t, front, at); Closest(before + [last], at, |before|)
    ensures forall j | 0 <= j < |front| && Admits(t, front[j], at) :: Distance(last, at) < Distance(front[j], at)
  {
    var before := Admissible(t, front, at);
    forall j | 0 <= j < |front| && Admits(t, front[j], at) ensures Distance(last, at) < Distance(front[j], at) {
      assert front[j] in front && front[j] in before;
      var l :| 0 <= l < |before| && before[l] == front[j];
      assert (before + [last])[l] == before[l];
    }
  }

  /** A choice is a win, and a win is the choice. */
  lemma ChosenWins(t: Timetable, matches: seq<Match>, at: int, m: Match)
    ensures Chosen(t, matches, at, Matched(m)) <==> exists i :: Wins(t, matches, at, i) && matches[i] == m
  {
    var admissible := Admissible(t, matches, at);
    if Chosen(t, matches, at, Matched(m)) {
      var k :| Closest(admissible, at, k) && admissible[k] == m;
      var i := ClosestWins(t, matches, at, k);
    }
    if i :| Wins(t, matches, at, i) && matches[i] == m {
      var k := WinnerClosest(t, matches, at, i);
    }
  }

  /** All the key's entries name trips of the road, of one mode, that end no earlier than they start. */
  ghost predicate RoadKey(t: Timetable, key: KeyRef, mode: string) {
    && t.entries(key) != [] && t.preTrip(mode) >= 0 && t.maxDelay(mode) >= 0
    && forall e <- t.entries(key) ::
         t.trip(e.publicId).runKey.None? && t.trip(e.publicId).mode == mode
         && forall day :: t.span(t.trip(e.publicId), day).0 <= t.span(t.trip(e.publicId), day).1
  }

  ghost predicate RoadMatches(t: Timetable, matches: seq<Match>, key: KeyRef, day: int, mode: string) {
    forall m <- matches :: m.journey == JourneyKey(t.feed, key.namespace, key.identifier, day)
                           && m.trip.mode == mode && m.start <= m.end
  }

  lemma {:induction false} RoadMatchesOn(t: Timetable, key: KeyRef, mode: string, day: int, entries: seq<KeyEntry>)
    requires RoadKey(t, key, mode) && forall e <- entries :: e in t.entries(key)
    ensures MatchesOn(t, key, day, entries).Some? && RoadMatches(t, MatchesOn(t, key, day, entries).value, key, day, mode)
  {
    if entries != [] {
      var front, e := entries[..|entries| - 1], entries[|entries| - 1];
      assert forall x <- front :: x in entries;
      RoadMatchesOn(t, key, mode, day, front);
      assert e in entries;
    }
  }

  /** The trip at `i` is under way at some instant when no other match of the day is. */
  ghost predicate Alone(matches: seq<Match>, i: int) {
    0 <= i < |matches| && exists p :: AloneAt(matches, i, p)
  }

  ghost predicate AloneAt(matches: seq<Match>, i: int, p: int)
    requires 0 <= i < |matches|
  {
    && matches[i].start <= p <= matches[i].end
    && forall j | 0 <= j < |matches| && j != i :: !(matches[j].start <= p <= matches[j].end)
  }

  /** Where margins are alike, a match can win exactly if its trip is alone at some instant. */
  lemma WinsAlone(t: Timetable, matches: seq<Match>, key: KeyRef, day: int, mode: string, at: int, i: int)
    requires RoadMatches(t, matches, key, day, mode) && t.preTrip(mode) >= 0 && t.maxDelay(mode) >= 0
    ensures Wins(t, matches, at, i) ==> Alone(matches, i)
    ensures 0 <= i < |matches| && AloneAt(matches, i, at) ==> Wins(t, matches, at, i)
  {
    assert forall j | 0 <= j < |matches| :: matches[j] in matches;
    if Wins(t, matches, at, i) {
      var m := matches[i];
      var p := if at < m.start then m.start else if at > m.end then m.end else at;
      forall j | 0 <= j < |matches| && j != i ensures !(matches[j].start <= p <= matches[j].end) {
        var other := matches[j];
        if other.start <= p <= other.end {
          assert Distance(other, at) <= Distance(m, at);
          assert Admits(t, other, at);
        }
      }
      assert AloneAt(matches, i, p);
    }
  }

  /** What runs on each date is what runs over them all. */
  lemma {:induction false} MatchesFrom(t: Timetable, key: KeyRef, mode: string, days: seq<int>, at: int, i: int)
    returns (d: int, k: int)
    requires RoadKey(t, key, mode)
    requires MatchesOver(t, key, days, t.entries(key)).Some?
    requires Wins(t, MatchesOver(t, key, days, t.entries(key)).value, at, i)
    ensures 0 <= d < |days| && MatchesOn(t, key, days[d], t.entries(key)).Some?
    ensures var some := MatchesOn(t, key, days[d], t.entries(key)).value;
            Wins(t, some, at, k) && some[k] == MatchesOver(t, key, days, t.entries(key)).value[i]
  {
    var front, last := days[..|days| - 1], days[|days| - 1];
    var before, more := MatchesOver(t, key, front, t.entries(key)).value, MatchesOn(t, key, last, t.entries(key)).value;
    var all := before + more;
    if i < |before| {
      forall j | 0 <= j < |before| ensures before[j] == all[j] {
      }
      d, k := MatchesFrom(t, key, mode, front, at, i);
    } else {
      d, k := |days| - 1, i - |before|;
      forall j | 0 <= j < |more| ensures more[j] == all[j + |before|] {
      }
    }
  }

  /** All a key can bind one journey of a day to, at any time and whether or not the source names the day, is
      one trip. */
  ghost predicate OneTripOn(t: Timetable, key: KeyRef, day: int) {
    forall at, named, m, at', named', m' |
      BindsAs(t, key, at, named, Matched(m)) && BindsAs(t, key, at', named', Matched(m'))
      && m.journey == m'.journey && m.journey.day == day ::
      m.trip.tripId == m'.trip.tripId
  }

  lemma BoundAlone(t: Timetable, key: KeyRef, mode: string, at: int, named: Option<int>, m: Match) returns (k: int)
    requires RoadKey(t, key, mode) && BindsAs(t, key, at, named, Matched(m))
    ensures MatchesOn(t, key, m.journey.day, t.entries(key)).Some?
    ensures var some := MatchesOn(t, key, m.journey.day, t.entries(key)).value; Alone(some, k) && some[k] == m
  {
    var entries, days := t.entries(key), Days(t, at, named);
    var matches := MatchesOver(t, key, days, entries).value;
    ChosenWins(t, matches, at, m);
    var i :| Wins(t, matches, at, i) && matches[i] == m;
    var d;
    d, k := MatchesFrom(t, key, mode, days, at, i);
    RoadMatchesOn(t, key, mode, days[d], entries);
    var some := MatchesOn(t, key, days[d], entries).value;
    assert some[k] in some;
    WinsAlone(t, some, key, days[d], mode, at, k);
  }

  lemma OverOne(t: Timetable, key: KeyRef, day: int, entries: seq<KeyEntry>)
    requires MatchesOn(t, key, day, entries).Some?
    ensures MatchesOver(t, key, [day], entries) == MatchesOn(t, key, day, entries)
  {
    assert [day][..|[day]| - 1] == [];
    assert MatchesOver(t, key, [], entries) == Some([]);
    assert [] + MatchesOn(t, key, day, entries).value == MatchesOn(t, key, day, entries).value;
  }

  lemma MatchAdded(t: Timetable, key: KeyRef, mode: string, day: int, front: seq<KeyEntry>, e: KeyEntry)
    requires t.trip(e.publicId).runKey.None? && Running(t, e, day) && MatchesOn(t, key, day, front).Some?
    ensures MatchesOn(t, key, day, front + [e]) == Some(MatchesOn(t, key, day, front).value + [MatchOn(t, key, day, e)])
  {
    assert (front + [e])[..|front + [e]| - 1] == front;
  }

  lemma AloneBinds(t: Timetable, key: KeyRef, mode: string, day: int, i: int, p: int)
    requires RoadKey(t, key, mode) && MatchesOn(t, key, day, t.entries(key)).Some?
    requires 0 <= i < |MatchesOn(t, key, day, t.entries(key)).value|
    requires AloneAt(MatchesOn(t, key, day, t.entries(key)).value, i, p)
    ensures var m := MatchesOn(t, key, day, t.entries(key)).value[i];
            && BindsAs(t, key, p, Some(day), Matched(m))
            && m.journey == JourneyKey(t.feed, key.namespace, key.identifier, day)
  {
    var entries := t.entries(key);
    var some := MatchesOn(t, key, day, entries).value;
    RoadMatchesOn(t, key, mode, day, entries);
    WinsAlone(t, some, key, day, mode, p, i);
    ChosenWins(t, some, p, some[i]);
    OverOne(t, key, day, entries);
    assert some[i] in some;
  }

  /** A road key binds one journey to one trip exactly if the trips of its entries running that day that are
      ever under way alone are one; at most one running entry a day is enough. */
  lemma OneTripExact(t: Timetable, key: KeyRef, mode: string, day: int)
    requires RoadKey(t, key, mode)
    ensures MatchesOn(t, key, day, t.entries(key)).Some?
    ensures var some := MatchesOn(t, key, day, t.entries(key)).value;
            && (OneTripOn(t, key, day) <==> forall i, j | Alone(some, i) && Alone(some, j) :: some[i].trip.tripId == some[j].trip.tripId)
            && (|some| <= 1 ==> OneTripOn(t, key, day))
  {
    RoadMatchesOn(t, key, mode, day, t.entries(key));
    var some := MatchesOn(t, key, day, t.entries(key)).value;
    if OneTripOn(t, key, day) {
      forall i, j | Alone(some, i) && Alone(some, j) ensures some[i].trip.tripId == some[j].trip.tripId {
        var p :| AloneAt(some, i, p);
        var q :| AloneAt(some, j, q);
        AloneBinds(t, key, mode, day, i, p);
        AloneBinds(t, key, mode, day, j, q);
        assert some[i].journey == some[j].journey;
      }
    }
    if forall i, j | Alone(some, i) && Alone(some, j) :: some[i].trip.tripId == some[j].trip.tripId {
      forall at, named, m, at', named', m' |
        BindsAs(t, key, at, named, Matched(m)) && BindsAs(t, key, at', named', Matched(m'))
        && m.journey == m'.journey && m.journey.day == day
        ensures m.trip.tripId == m'.trip.tripId
      {
        var i := BoundAlone(t, key, mode, at, named, m);
        var j := BoundAlone(t, key, mode, at', named', m');
      }
    }
  }

  /** Two entries of one key running on one day, one trip ahead of the other: a report at the first one's start
      and one at the second one's end name the same journey and bind it to the two trips. */
  lemma TwoEntriesTwoTrips(t: Timetable, key: KeyRef, mode: string, day: int, a: KeyEntry, b: KeyEntry)
    requires RoadKey(t, key, mode) && t.entries(key) == [a, b] && Running(t, a, day) && Running(t, b, day)
    requires MatchOn(t, key, day, a).start < MatchOn(t, key, day, b).start && MatchOn(t, key, day, a).end < MatchOn(t, key, day, b).end
    ensures var m, n := MatchOn(t, key, day, a), MatchOn(t, key, day, b);
            && BindsAs(t, key, m.start, Some(day), Matched(m)) && BindsAs(t, key, n.end, Some(day), Matched(n))
            && m.journey == n.journey
    ensures t.trip(a.publicId).tripId != t.trip(b.publicId).tripId ==> !OneTripOn(t, key, day)
  {
    var m, n := MatchOn(t, key, day, a), MatchOn(t, key, day, b);
    TwoMatches(t, key, mode, day, a, b);
    assert AloneAt([m, n], 0, m.start) && AloneAt([m, n], 1, n.end);
    AloneBinds(t, key, mode, day, 0, m.start);
    AloneBinds(t, key, mode, day, 1, n.end);
  }

  lemma TwoMatches(t: Timetable, key: KeyRef, mode: string, day: int, a: KeyEntry, b: KeyEntry)
    requires RoadKey(t, key, mode) && t.entries(key) == [a, b] && Running(t, a, day) && Running(t, b, day)
    ensures var m, n := MatchOn(t, key, day, a), MatchOn(t, key, day, b);
            MatchesOn(t, key, day, [a, b]) == Some([m, n]) && m.start <= m.end && n.start <= n.end
  {
    assert a in t.entries(key) && b in t.entries(key);
    var m, n := MatchOn(t, key, day, a), MatchOn(t, key, day, b);
    assert MatchesOn(t, key, day, []) == Some([]);
    MatchAdded(t, key, mode, day, [], a);
    assert [] + [a] == [a] && [] + [m] == [m];
    assert MatchesOn(t, key, day, [a]) == Some([m]);
    MatchAdded(t, key, mode, day, [a], b);
    assert [a] + [b] == [a, b] && [m] + [n] == [m, n];
  }

  // ----- keys of runs --------------------------------------------------------------------------

  /** The trip of an ID runs on the day. */
  predicate RunsOn(t: Timetable, id: string, day: int) {
    t.runsOn(t.trip(id).serviceId, day)
  }

  /** Asked for a part that runs, the index names its run; asked for a trip of the road, the trip. */
  ghost predicate RunsNamed(t: Timetable) {
    forall id, day | RunsOn(t, id, day) ::
      if t.trip(id).runKey.Some? then t.run(t.trip(id), day).runKey == t.trip(id).runKey
      else t.run(t.trip(id), day) == t.trip(id)
  }

  /** Which part of a run is asked for makes no difference to what the run is on a day. */
  ghost predicate PartsAlike(t: Timetable) {
    forall id, id', day | RunsOn(t, id, day) && RunsOn(t, id', day) && t.trip(id).runKey.Some? && t.trip(id).runKey == t.trip(id').runKey ::
      t.run(t.trip(id), day).tripId == t.run(t.trip(id'), day).tripId
  }

  /** A run's own key names parts of the run. */
  ghost predicate RunKeysOwn(t: Timetable) {
    forall key: KeyRef, e | key.namespace == RUN_NAMESPACE && e in t.entries(key) :: t.trip(e.publicId).runKey == Some(key.identifier)
  }

  /** On one day a key that names a road trip names no other trip. */
  ghost predicate RoadAlike(t: Timetable) {
    forall key, day, e, f | e in t.entries(key) && f in t.entries(key) && Running(t, e, day) && Running(t, f, day)
                            && t.trip(e.publicId).runKey.None? :: t.trip(f.publicId) == t.trip(e.publicId)
  }

  ghost predicate Laws(t: Timetable) {
    RunsNamed(t) && PartsAlike(t) && RunKeysOwn(t) && RoadAlike(t)
  }

  lemma {:induction false} MatchedEntry(t: Timetable, key: KeyRef, day: int, entries: seq<KeyEntry>, m: Match) returns (e: KeyEntry)
    requires MatchesOn(t, key, day, entries).Some? && m in MatchesOn(t, key, day, entries).value
    ensures e in entries && Running(t, e, day) && m == MatchOn(t, key, day, e)
  {
    var front, last := entries[..|entries| - 1], entries[|entries| - 1];
    if m in MatchesOn(t, key, day, front).value {
      e := MatchedEntry(t, key, day, front, m);
    } else {
      e := last;
    }
  }

  lemma {:induction false} MatchedDay(t: Timetable, key: KeyRef, days: seq<int>, entries: seq<KeyEntry>, m: Match)
    returns (day: int, e: KeyEntry)
    requires MatchesOver(t, key, days, entries).Some? && m in MatchesOver(t, key, days, entries).value
    ensures e in entries && Running(t, e, day) && m == MatchOn(t, key, day, e)
  {
    var front, last := days[..|days| - 1], days[|days| - 1];
    if m in MatchesOver(t, key, front, entries).value {
      day, e := MatchedDay(t, key, front, entries, m);
    } else {
      day := last;
      e := MatchedEntry(t, key, last, entries, m);
    }
  }

  /** What a key is bound to is what one of its entries stands for on the journey's day. */
  lemma BoundEntry(t: Timetable, key: KeyRef, at: int, named: Option<int>, m: Match) returns (e: KeyEntry)
    requires BindsAs(t, key, at, named, Matched(m))
    ensures e in t.entries(key) && Running(t, e, m.journey.day) && m == MatchOn(t, key, m.journey.day, e)
  {
    var matches := MatchesOver(t, key, Days(t, at, named), t.entries(key)).value;
    ChosenWins(t, matches, at, m);
    var i :| Wins(t, matches, at, i) && matches[i] == m;
    var day;
    day, e := MatchedDay(t, key, Days(t, at, named), t.entries(key), m);
  }

  /** Whichever keys find it, at whatever times, a run's journey is bound to one trip. */
  lemma RunBoundOnce(
    t: Timetable, key: KeyRef, at: int, named: Option<int>, m: Match, key': KeyRef, at': int, named': Option<int>, m': Match)
    requires RunsNamed(t) && PartsAlike(t) && RunKeysOwn(t)
    requires BindsAs(t, key, at, named, Matched(m)) && BindsAs(t, key', at', named', Matched(m'))
    requires m.journey == m'.journey && m.journey.namespace == RUN_NAMESPACE
    ensures m.trip.tripId == m'.trip.tripId
  {
    var e := BoundEntry(t, key, at, named, m);
    var f := BoundEntry(t, key', at', named', m');
    assert RunsOn(t, e.publicId, m.journey.day) && RunsOn(t, f.publicId, m.journey.day);
  }

  /** The trip of a run on a day, whichever part is asked for. */
  ghost function RunTripOn(t: Timetable, run: string, day: int): TripId {
    if exists id :: RunsOn(t, id, day) && t.trip(id).runKey == Some(run) then
      var id :| RunsOn(t, id, day) && t.trip(id).runKey == Some(run);
      t.run(t.trip(id), day).tripId
    else AmbiguousRun(run)
  }

  lemma RunTripOnIs(t: Timetable, id: string, run: string, day: int)
    requires PartsAlike(t) && RunsOn(t, id, day) && t.trip(id).runKey == Some(run)
    ensures RunTripOn(t, run, day) == t.run(t.trip(id), day).tripId
  {
  }

  /** What a key's matches name for a journey of the road. */
  ghost function TripNamed(t: Timetable, key: KeyRef, journey: JourneyKey): TripId {
    if exists at, named, m :: BindsAs(t, key, at, named, Matched(m)) && m.journey == journey then
      var at, named, m :| BindsAs(t, key, at, named, Matched(m)) && m.journey == journey;
      m.trip.tripId
    else AmbiguousRun("")
  }

  /** A timetable of any modes whose road keys each bind a day's journey to one trip gives the core a binder
      that names one trip per journey. */
  lemma BinderAgrees(t: Timetable) returns (tripOf: TripOf)
    requires RunsNamed(t) && PartsAlike(t) && RunKeysOwn(t)
    requires forall key, day :: OneTripOn(t, key, day)
    ensures forall key, at, named, found | BindsAs(t, key, at, named, found) :: Agreed(found, tripOf)
  {
    tripOf := (j: JourneyKey) =>
      if j.namespace == RUN_NAMESPACE then RunTripOn(t, j.key, j.day) else TripNamed(t, KeyRef(j.namespace, j.key), j);
    forall key, at, named, found | BindsAs(t, key, at, named, found) ensures Agreed(found, tripOf) {
      if found.Matched? {
        var m := found.m;
        var e := BoundEntry(t, key, at, named, m);
        assert RunsOn(t, e.publicId, m.journey.day);
        if m.journey.namespace == RUN_NAMESPACE {
          RunTripOnIs(t, e.publicId, m.journey.key, m.journey.day);
        } else {
          assert OneTripOn(t, key, m.journey.day);
        }
      }
    }
  }

  // ----- what the core is given ----------------------------------------------------------------

  /** A journey the keyless binder may answer: an entry of the road that runs, under the entry's key. */
  ghost predicate Candidate(t: Timetable, m: Match) {
    exists key, e :: e in t.entries(key) && CandidateOf(t, m, key, e)
  }

  ghost predicate CandidateOf(t: Timetable, m: Match, key: KeyRef, e: KeyEntry) {
    Running(t, e, m.journey.day) && t.trip(e.publicId).runKey.None? && m == MatchOn(t, key, m.journey.day, e)
  }

  /** The core reads the timetable, binds its keys as `BindsAs` says and infers candidates. */
  ghost predicate Reads(ctx: Context, t: Timetable) {
    && (forall key :: ctx.entries(key) == t.entries(key))
    && (forall id :: ctx.trip(Published(id)) == t.trip(id))
    && (forall service, day :: ctx.runsOn(service, day) == t.runsOn(service, day))
    && (forall trip, day :: ctx.run(trip, day) == t.run(trip, day))
    && (forall key, at, named :: BindsAs(t, key, at, named, ctx.bind(key, at, named)))
    && (forall line, episode, o :: var found := ctx.inferTrip(line, episode, o); found.Matched? ==> Candidate(t, found.m))
  }

  /** A release whose core reads a timetable of one trip per journey. */
  ghost predicate Lawful(ctx: Context) {
    Sound(ctx) && exists t :: Reads(ctx, t) && Laws(t)
  }

  ghost function JourneyTrip(ctx: Context, t: Timetable, journey: JourneyKey): TripId {
    if journey.namespace == RUN_NAMESPACE then RunTripOn(t, journey.key, journey.day)
    else
      var trip := Resolve(journey, ctx);
      if trip.Some? then trip.value.tripId else AmbiguousRun("")
  }

  /** A key is resolved by one of its running entries, if it has any. */
  lemma {:induction false} ResolvedEntry(ctx: Context, t: Timetable, entries: seq<KeyEntry>, journey: JourneyKey) returns (e: KeyEntry)
    requires Reads(ctx, t)
    ensures ResolveAmong(entries, journey, ctx).None? <==> forall f <- entries :: !Running(t, f, journey.day)
    ensures var trip := ResolveAmong(entries, journey, ctx);
            trip.Some? ==> e in entries && Running(t, e, journey.day) && trip.value == t.run(t.trip(e.publicId), journey.day)
  {
    if entries == [] {
      e := KeyEntry("", 0, 0);
    } else {
      e := entries[0];
      assert ctx.trip(Published(e.publicId)) == t.trip(e.publicId);
      if !Running(t, e, journey.day) {
        e := ResolvedEntry(ctx, t, entries[1..], journey);
        assert forall f <- entries :: f == entries[0] || f in entries[1..];
      }
    }
  }

  /** What an entry stands for on a day is its journey's trip. */
  lemma EntryAgrees(ctx: Context, t: Timetable, key: KeyRef, day: int, e: KeyEntry)
    requires Reads(ctx, t) && Laws(t) && e in t.entries(key) && Running(t, e, day)
    ensures var m := MatchOn(t, key, day, e); JourneyTrip(ctx, t, m.journey) == m.trip.tripId
  {
    var part, m := t.trip(e.publicId), MatchOn(t, key, day, e);
    assert RunsOn(t, e.publicId, day);
    if part.runKey.Some? {
      RunTripOnIs(t, e.publicId, part.runKey.value, day);
    } else {
      assert ctx.entries(KeyRef(m.journey.namespace, m.journey.key)) == t.entries(key);
      var f := ResolvedEntry(ctx, t, t.entries(key), m.journey);
      assert t.trip(f.publicId) == part;
    }
  }

  lemma ResolveAgrees(ctx: Context, t: Timetable, journey: JourneyKey)
    requires Reads(ctx, t) && Laws(t) && Resolve(journey, ctx).Some?
    ensures JourneyTrip(ctx, t, journey) == Resolve(journey, ctx).value.tripId
  {
    if journey.namespace == RUN_NAMESPACE {
      var key := KeyRef(journey.namespace, journey.key);
      assert ctx.entries(key) == t.entries(key);
      var e := ResolvedEntry(ctx, t, t.entries(key), journey);
      RunTripOnIs(t, e.publicId, journey.key, journey.day);
    }
  }

  /** A lawful release names one trip for every journey, of the road and of runs. */
  lemma LawfulAgrees(ctx: Context) returns (tripOf: TripOf)
    requires Lawful(ctx)
    ensures OneTrip(ctx, tripOf)
  {
    var t :| Reads(ctx, t) && Laws(t);
    tripOf := (journey: JourneyKey) => JourneyTrip(ctx, t, journey);
    forall key, at, named ensures Agreed(ctx.bind(key, at, named), tripOf) {
      var found := ctx.bind(key, at, named);
      assert BindsAs(t, key, at, named, found);
      if found.Matched? {
        var e := BoundEntry(t, key, at, named, found.m);
        EntryAgrees(ctx, t, key, found.m.journey.day, e);
      }
    }
    forall line, episode, o ensures Agreed(ctx.inferTrip(line, episode, o), tripOf) {
      var found := ctx.inferTrip(line, episode, o);
      if found.Matched? {
        assert Candidate(t, found.m);
        var key, e :| e in t.entries(key) && CandidateOf(t, found.m, key, e);
        EntryAgrees(ctx, t, key, found.m.journey.day, e);
      }
    }
    forall journey | Resolve(journey, ctx).Some? ensures tripOf(journey) == Resolve(journey, ctx).value.tripId {
      ResolveAgrees(ctx, t, journey);
    }
  }

  // ----- over runs -----------------------------------------------------------------------------

  ghost predicate LawfulOps(ops: seq<Op>) {
    forall i | 0 <= i < |ops| && ops[i].Switch? :: Lawful(ops[i].ctx)
  }

  /** A run on lawful releases is one on releases that name one trip per journey. */
  lemma LawfulRun(feed: string, ctx: Context, ops: seq<Op>)
    requires Lawful(ctx) && ctx.feed == feed && LawfulOps(ops)
    ensures AlignedWorld(World(Empty(feed), ctx)) && OneTripOps(ops)
  {
    var tripOf := LawfulAgrees(ctx);
    assert Aligned(Empty(feed), ctx, tripOf);
    forall i | 0 <= i < |ops| && ops[i].Switch? ensures exists next :: OneTrip(ops[i].ctx, next) {
      var next := LawfulAgrees(ops[i].ctx);
    }
  }

  /** So over any run on lawful releases history is given only scheduled calls, and every instance and every
      binding is on its journey's one trip. */
  lemma LawfulHistory(feed: string, ctx: Context, ops: seq<Op>)
    requires Lawful(ctx) && ctx.feed == feed && LawfulOps(ops) && AllowedRun(World(Empty(feed), ctx), ops)
    ensures var w := World(Empty(feed), ctx);
            HistoryHolds(Log(w, ops)) && AllCovered(Log(w, ops), After(w, ops).state) && AlignedWorld(After(w, ops))
  {
    var w := World(Empty(feed), ctx);
    LawfulRun(feed, ctx, ops);
    HistoryScheduled(w, ops);
    AfterAligned(w, ops);
  }

  /** After any run on lawful releases a board row finds its call among those of the instance it is bound to,
      whether or not the row itself opens it. */
  lemma BoardRowsPlaced(feed: string, ctx: Context, ops: seq<Op>, o: Observation, fact: PlatformFact)
    requires Lawful(ctx) && ctx.feed == feed && LawfulOps(ops) && AllowedRun(World(Empty(feed), ctx), ops)
    ensures var w := After(World(Empty(feed), ctx), ops);
            var found := Core.Bind(o, w.ctx, fact.scheduled);
            found.Matched? ==>
              var i := BoardCall(found.m.trip.calls, found.m.journey.day, fact, w.ctx);
              WellLaid(found.m.trip) && found.m.journey in Open(w.state, found.m, w.ctx, o).state.instances
              && (i.Some? ==> i.value < |Open(w.state, found.m, w.ctx, o).state.instances[found.m.journey].calls|)
  {
    LawfulRun(feed, ctx, ops);
    AfterAligned(World(Empty(feed), ctx), ops);
    var w := After(World(Empty(feed), ctx), ops);
    var tripOf :| OneTrip(w.ctx, tripOf) && Aligned(w.state, w.ctx, tripOf);
    if Core.Bind(o, w.ctx, fact.scheduled).Matched? {
      BoardCallWithin(w.state, o, fact, w.ctx, tripOf);
    }
  }
}
