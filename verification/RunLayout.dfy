/** What the layout of a run promises: its parts and journeys cover its calls, its junctions lose
    nothing, its current part is the one ahead, and history names every event's call once. */
module RunLayout {
  import opened Model
  import opened Runs

  // ----- covering ------------------------------------------------------------------------------

  datatype Bounds = Bounds(first: int, last: int)

  function PartBounds(parts: seq<TripPart>): (r: seq<Bounds>)
    ensures |r| == |parts|
  {
    seq(|parts|, i requires 0 <= i < |parts| => Bounds(parts[i].first, parts[i].last))
  }

  function JourneyBounds(spans: seq<JourneySpan>): (r: seq<Bounds>)
    ensures |r| == |spans|
  {
    seq(|spans|, i requires 0 <= i < |spans| => Bounds(spans[i].first, spans[i].last))
  }

  function PublishedBounds(parts: seq<PartSpan>): (r: seq<Bounds>)
    ensures |r| == |parts|
  {
    seq(|parts|, i requires 0 <= i < |parts| => Bounds(parts[i].first, parts[i].last))
  }

  /** From call 0 to call `n - 1` with no gap, consecutive bounds sharing at most one call. */
  ghost predicate Covers(bounds: seq<Bounds>, n: int) {
    && (n == 0 <==> bounds == [])
    && (bounds != [] ==> bounds[0].first == 0 && bounds[|bounds| - 1].last == n - 1)
    && (forall i :: 0 <= i < |bounds| ==> 0 <= bounds[i].first <= bounds[i].last)
    && (forall i :: 0 < i < |bounds| ==> bounds[i - 1].last <= bounds[i].first <= bounds[i - 1].last + 1)
  }

  lemma {:induction false} LayAllLands(calls: seq<Call>, more: seq<Call>)
    ensures var timed := TimedCalls(more);
            if timed == [] then LayAll(calls, more) == calls
            else |LayAll(calls, more)| > Landing(calls, timed[0])
  {
    if more != [] {
      LayAllLands(calls, more[..|more| - 1]);
    }
  }

  lemma CoversMore(bounds: seq<Bounds>, n: int, next: Bounds)
    requires Covers(bounds, n)
    requires 0 <= next.first <= next.last && n - 1 <= next.first <= n
    ensures Covers(bounds + [next], next.last + 1)
  {
  }

  lemma CoversLonger(bounds: seq<Bounds>, n: int, next: Bounds)
    requires bounds != [] && Covers(bounds, n)
    requires next.first <= next.last && n - 1 <= next.first <= n
    ensures Covers(bounds[..|bounds| - 1] + [bounds[|bounds| - 1].(last := next.last)], next.last + 1)
  {
  }

  /** The part spans of a run cover all its calls, for any parts in any order. */
  lemma {:induction false} LayoutCovers(parts: seq<Trip>)
    ensures Covers(PartBounds(LayParts(parts).parts), |LayParts(parts).calls|)
  {
    if parts != [] {
      var before, part := LayParts(parts[..|parts| - 1]), parts[|parts| - 1];
      LayoutCovers(parts[..|parts| - 1]);
      LayAllLands(before.calls, part.calls);
      var after := LayParts(parts);
      if TimedCalls(part.calls) != [] {
        var first := Landing(before.calls, TimedCalls(part.calls)[0]);
        CoversMore(PartBounds(before.parts), |before.calls|, Bounds(first, |after.calls| - 1));
        assert PartBounds(after.parts) == PartBounds(before.parts) + [Bounds(first, |after.calls| - 1)];
      }
    }
  }

  lemma {:induction false} BoundsOrdered(bounds: seq<Bounds>, n: int, i: int, j: int)
    requires Covers(bounds, n)
    requires 0 <= i <= j < |bounds|
    ensures bounds[i].first <= bounds[j].first && bounds[i].last <= bounds[j].last < n
    decreases |bounds| - i
  {
    if i < j {
      BoundsOrdered(bounds, n, i + 1, j);
    } else if j < |bounds| - 1 {
      BoundsOrdered(bounds, n, j + 1, |bounds| - 1);
    }
  }

  lemma CoversFront(bounds: seq<Bounds>, n: int)
    requires bounds != [] && Covers(bounds, n)
    ensures var front := bounds[..|bounds| - 1];
            Covers(front, if front == [] then 0 else front[|front| - 1].last + 1)
  {
  }

  /** The parts but the last cover the calls up to where the last begins. */
  lemma PartsFront(parts: seq<TripPart>, n: int)
    requires parts != [] && Covers(PartBounds(parts), n)
    ensures var front, part := parts[..|parts| - 1], parts[|parts| - 1];
            var m := if front == [] then 0 else front[|front| - 1].last + 1;
            Covers(PartBounds(front), m) && m - 1 <= part.first <= m && 0 <= part.first <= part.last == n - 1
  {
    var front, bounds := parts[..|parts| - 1], PartBounds(parts);
    CoversFront(bounds, n);
    assert PartBounds(front) == bounds[..|bounds| - 1];
    assert front != [] ==> bounds[|bounds| - 2] == PartBounds(front)[|front| - 1];
  }

  /** Bounds with one more, or with the last carried on. */
  function Extended(some: seq<Bounds>, next: Bounds, continued: bool): seq<Bounds> {
    if continued && some != [] then some[..|some| - 1] + [some[|some| - 1].(last := next.last)] else some + [next]
  }

  lemma BoundsGrow(prior: seq<JourneySpan>, next: JourneySpan, continued: bool)
    requires continued ==> prior != []
    ensures JourneyBounds(if continued then prior[..|prior| - 1] + [prior[|prior| - 1].(last := next.last)] else prior + [next])
         == Extended(JourneyBounds(prior), Bounds(next.first, next.last), continued)
  {
  }

  /** How the bounds of the public journeys grow with one more part. */
  lemma BoundsStep(feed: string, runKey: string, day: int, parts: seq<TripPart>)
    requires parts != []
    ensures var spans, part := SpansOf(feed, runKey, day, parts[..|parts| - 1]), parts[|parts| - 1];
            JourneyBounds(SpansOf(feed, runKey, day, parts))
            == Extended(JourneyBounds(spans), Bounds(part.first, part.last), Continues(spans, part))
  {
    var spans, part := SpansOf(feed, runKey, day, parts[..|parts| - 1]), parts[|parts| - 1];
    BoundsGrow(spans, JourneySpan(PartJourney(feed, runKey, day, part), part.first, part.last), Continues(spans, part));
  }

  /** One more part that begins where the journeys end, or on their last call, is covered too. */
  lemma SpansMore(feed: string, runKey: string, day: int, parts: seq<TripPart>, m: int)
    requires parts != [] && Covers(JourneyBounds(SpansOf(feed, runKey, day, parts[..|parts| - 1])), m)
    requires var part := parts[|parts| - 1]; m - 1 <= part.first <= m && 0 <= part.first <= part.last
    ensures Covers(JourneyBounds(SpansOf(feed, runKey, day, parts)), parts[|parts| - 1].last + 1)
  {
    var part, continued := parts[|parts| - 1], Continues(SpansOf(feed, runKey, day, parts[..|parts| - 1]), parts[|parts| - 1]);
    BoundsStep(feed, runKey, day, parts);
    ExtendedCovers(JourneyBounds(SpansOf(feed, runKey, day, parts[..|parts| - 1])), m, Bounds(part.first, part.last), continued);
  }

  /** The public journeys over any covering parts cover the same calls. */
  lemma {:induction false} SpansCover(feed: string, runKey: string, day: int, parts: seq<TripPart>, n: int)
    requires Covers(PartBounds(parts), n)
    ensures Covers(JourneyBounds(SpansOf(feed, runKey, day, parts)), n)
  {
    if parts != [] {
      var front := parts[..|parts| - 1];
      var m := if front == [] then 0 else front[|front| - 1].last + 1;
      PartsFront(parts, n);
      SpansCover(feed, runKey, day, front, m);
      SpansMore(feed, runKey, day, parts, m);
    }
  }

  lemma ExtendedCovers(some: seq<Bounds>, m: int, next: Bounds, continued: bool)
    requires Covers(some, m)
    requires m - 1 <= next.first <= m && 0 <= next.first <= next.last
    ensures Covers(Extended(some, next, continued), next.last + 1)
  {
    if continued && some != [] {
      CoversLonger(some, m, next);
    } else {
      CoversMore(some, m, next);
    }
  }

  // ----- junctions -----------------------------------------------------------------------------

  function AllTimed(parts: seq<Trip>): seq<Call> {
    if parts == [] then []
    else AllTimed(parts[..|parts| - 1]) + TimedCalls(parts[|parts| - 1].calls)
  }

  /** The calls in runs of one sequence number: the calls that are one call of the path. */
  function Grouped(calls: seq<Call>): (groups: seq<seq<Call>>)
    ensures forall k :: 0 <= k < |groups| ==> groups[k] != []
  {
    if calls == [] then []
    else
      var groups := Grouped(calls[..|calls| - 1]);
      var call := calls[|calls| - 1];
      if groups != [] && groups[|groups| - 1][0].sequence == call.sequence
      then groups[..|groups| - 1] + [groups[|groups| - 1] + [call]]
      else groups + [[call]]
  }

  function Flat(groups: seq<seq<Call>>): seq<Call> {
    if groups == [] then [] else Flat(groups[..|groups| - 1]) + groups[|groups| - 1]
  }

  /** The first of `values` that is given. */
  ghost predicate FirstGiven<T(!new)>(value: Option<T>, values: seq<Option<T>>) {
    if value == None then forall i :: 0 <= i < |values| ==> values[i] == None
    else exists i :: 0 <= i < |values| && values[i] == value && forall k :: 0 <= k < i ==> values[k] == None
  }

  ghost predicate LastGiven<T(!new)>(value: Option<T>, values: seq<Option<T>>) {
    if value == None then forall i :: 0 <= i < |values| ==> values[i] == None
    else exists i :: 0 <= i < |values| && values[i] == value && forall k :: i < k < |values| ==> values[k] == None
  }

  function Arrivals(group: seq<Call>): (r: seq<Option<int>>) ensures |r| == |group| {
    seq(|group|, i requires 0 <= i < |group| => group[i].arrival)
  }

  function Departures(group: seq<Call>): (r: seq<Option<int>>) ensures |r| == |group| {
    seq(|group|, i requires 0 <= i < |group| => group[i].departure)
  }

  function Points(group: seq<Call>): (r: seq<Option<string>>) ensures |r| == |group| {
    seq(|group|, i requires 0 <= i < |group| => group[i].point)
  }

  /** `call` is the one call a group stands for: it arrives as the earliest part says, departs as
      the latest one does, serves passengers if any part does, is on request only if all are and
      keeps the first boarding point given. */
  ghost predicate StandsFor(call: Call, group: seq<Call>)
    requires group != []
  {
    && call.sequence == group[0].sequence
    && call.location == group[|group| - 1].location
    && (call.passenger <==> exists k :: 0 <= k < |group| && group[k].passenger)
    && (call.onRequest <==> forall k :: 0 <= k < |group| ==> group[k].onRequest)
    && FirstGiven(call.arrival, Arrivals(group))
    && LastGiven(call.departure, Departures(group))
    && FirstGiven(call.point, Points(group))
  }

  ghost predicate AllStandFor(calls: seq<Call>, groups: seq<seq<Call>>)
    requires forall k :: 0 <= k < |groups| ==> groups[k] != []
  {
    |calls| == |groups| && forall k :: 0 <= k < |calls| ==> StandsFor(calls[k], groups[k])
  }

  lemma FirstGivenMore<T(!new)>(value: Option<T>, values: seq<Option<T>>, next: Option<T>)
    requires FirstGiven(value, values)
    ensures FirstGiven(Else(value, next), values + [next])
  {
    if value.Some? {
      var i :| 0 <= i < |values| && values[i] == value && forall k :: 0 <= k < i ==> values[k] == None;
      assert (values + [next])[i] == value;
    } else if next.Some? {
      assert (values + [next])[|values|] == next;
    }
  }

  lemma LastGivenMore<T(!new)>(value: Option<T>, values: seq<Option<T>>, next: Option<T>)
    requires LastGiven(value, values)
    ensures LastGiven(Else(next, value), values + [next])
  {
    if next.Some? {
      assert (values + [next])[|values|] == next;
    } else if value.Some? {
      var i :| 0 <= i < |values| && values[i] == value && forall k :: i < k < |values| ==> values[k] == None;
      assert (values + [next])[i] == value;
    }
  }

  lemma JoinedStandsFor(call: Call, group: seq<Call>, next: Call)
    requires group != [] && StandsFor(call, group)
    requires next.sequence == call.sequence
    ensures StandsFor(Joined(call, next), group + [next])
  {
    var more := group + [next];
    assert more[0] == group[0] && more[|group|] == next;
    FirstGivenMore(call.arrival, Arrivals(group), next.arrival);
    LastGivenMore(call.departure, Departures(group), next.departure);
    FirstGivenMore(call.point, Points(group), next.point);
    assert Points(more) == Points(group) + [next.point];
    assert Arrivals(more) == Arrivals(group) + [next.arrival];
    assert Departures(more) == Departures(group) + [next.departure];
    assert next.passenger ==> more[|group|].passenger;
    if k :| 0 <= k < |group| && group[k].passenger {
      assert more[k].passenger;
    }
    assert call.onRequest && next.onRequest ==> forall k :: 0 <= k < |more| ==> more[k].onRequest;
    assert (forall k :: 0 <= k < |more| ==> more[k].onRequest) ==>
      forall k :: 0 <= k < |group| ==> more[k].onRequest && more[k] == group[k];
  }

  lemma AloneStandsFor(call: Call)
    ensures StandsFor(call, [call])
  {
    assert Arrivals([call]) == [call.arrival] && Departures([call]) == [call.departure] && Points([call]) == [call.point];
    assert [call][0] == call;
    assert [call.arrival][0] == call.arrival && [call.departure][0] == call.departure && [call.point][0] == call.point;
  }

  lemma StandsMore(calls: seq<Call>, groups: seq<seq<Call>>, call: Call, group: seq<Call>)
    requires forall k :: 0 <= k < |groups| ==> groups[k] != []
    requires AllStandFor(calls, groups) && group != [] && StandsFor(call, group)
    ensures AllStandFor(calls + [call], groups + [group])
  {
  }

  lemma GroupedStep(seen: seq<Call>, call: Call)
    ensures var groups := Grouped(seen);
            Grouped(seen + [call]) ==
              if groups != [] && groups[|groups| - 1][0].sequence == call.sequence
              then groups[..|groups| - 1] + [groups[|groups| - 1] + [call]]
              else groups + [[call]]
  {
    assert (seen + [call])[..|seen|] == seen;
  }

  /** A call meets the last laid exactly if it carries on the last group. */
  lemma MeetsGroup(calls: seq<Call>, groups: seq<seq<Call>>, call: Call)
    requires forall k :: 0 <= k < |groups| ==> groups[k] != []
    requires AllStandFor(calls, groups)
    ensures Meets(calls, call) <==> groups != [] && groups[|groups| - 1][0].sequence == call.sequence
    ensures groups != [] ==>
              StandsFor(calls[|calls| - 1], groups[|groups| - 1])
              && AllStandFor(calls[..|calls| - 1], groups[..|groups| - 1])
  {
  }

  lemma JoinStands(calls: seq<Call>, groups: seq<seq<Call>>, call: Call)
    requires forall k :: 0 <= k < |groups| ==> groups[k] != []
    requires AllStandFor(calls, groups) && Timed(call) && Meets(calls, call)
    ensures groups != []
    ensures AllStandFor(Lay(calls, call), groups[..|groups| - 1] + [groups[|groups| - 1] + [call]])
  {
    MeetsGroup(calls, groups, call);
    var last, group := calls[|calls| - 1], groups[|groups| - 1];
    JoinedStandsFor(last, group, call);
    StandsMore(calls[..|calls| - 1], groups[..|groups| - 1], Joined(last, call), group + [call]);
  }

  /** One more timed call, laid on the calls and added to the groups. */
  lemma LayStands(calls: seq<Call>, seen: seq<Call>, call: Call)
    requires AllStandFor(calls, Grouped(seen)) && Timed(call)
    ensures AllStandFor(Lay(calls, call), Grouped(seen + [call]))
  {
    GroupedStep(seen, call);
    MeetsGroup(calls, Grouped(seen), call);
    if Meets(calls, call) {
      JoinStands(calls, Grouped(seen), call);
    } else {
      AloneStandsFor(call);
      StandsMore(calls, Grouped(seen), call, [call]);
    }
  }

  lemma {:induction false} LayAllStands(calls: seq<Call>, seen: seq<Call>, more: seq<Call>)
    requires AllStandFor(calls, Grouped(seen))
    ensures AllStandFor(LayAll(calls, more), Grouped(seen + TimedCalls(more)))
  {
    if more == [] {
      assert seen + TimedCalls(more) == seen;
    } else {
      var front, call := more[..|more| - 1], more[|more| - 1];
      LayAllStands(calls, seen, front);
      if Timed(call) {
        LayStands(LayAll(calls, front), seen + TimedCalls(front), call);
        assert seen + TimedCalls(more) == seen + TimedCalls(front) + [call];
      }
    }
  }

  /** Joining junctions loses nothing: the calls of a run stand, in order, for exactly the runs of
      equal sequence numbers among all timed calls of its parts. */
  lemma {:induction false} LayoutJoinsJunctions(parts: seq<Trip>)
    ensures AllStandFor(LayParts(parts).calls, Grouped(AllTimed(parts)))
  {
    if parts != [] {
      var front := parts[..|parts| - 1];
      LayoutJoinsJunctions(front);
      LayAllStands(LayParts(front).calls, AllTimed(front), parts[|parts| - 1].calls);
    }
  }

  ghost predicate MaximalRuns(groups: seq<seq<Call>>)
    requires forall k :: 0 <= k < |groups| ==> groups[k] != []
  {
    && (forall k, i :: 0 <= k < |groups| && 0 <= i < |groups[k]| ==> groups[k][i].sequence == groups[k][0].sequence)
    && (forall k :: 0 < k < |groups| ==> groups[k - 1][0].sequence != groups[k][0].sequence)
  }

  lemma RunsMore(groups: seq<seq<Call>>, call: Call)
    requires forall k :: 0 <= k < |groups| ==> groups[k] != []
    requires MaximalRuns(groups)
    ensures groups == [] || groups[|groups| - 1][0].sequence != call.sequence ==> MaximalRuns(groups + [[call]])
    ensures groups != [] && groups[|groups| - 1][0].sequence == call.sequence ==>
              MaximalRuns(groups[..|groups| - 1] + [groups[|groups| - 1] + [call]])
  {
  }

  lemma FlatMore(groups: seq<seq<Call>>, group: seq<Call>)
    ensures Flat(groups + [group]) == Flat(groups) + group
  {
    assert (groups + [group])[..|groups|] == groups;
  }

  lemma FlatLonger(groups: seq<seq<Call>>, call: Call)
    requires groups != []
    ensures Flat(groups[..|groups| - 1] + [groups[|groups| - 1] + [call]]) == Flat(groups) + [call]
  {
    var less, last := groups[..|groups| - 1], groups[|groups| - 1];
    FlatMore(less, last + [call]);
    assert Flat(less) + (last + [call]) == Flat(less) + last + [call];
  }

  /** One more call, added to a partition into maximal runs. */
  lemma PartitionStep(groups: seq<seq<Call>>, call: Call, next: seq<seq<Call>>)
    requires forall k :: 0 <= k < |groups| ==> groups[k] != []
    requires MaximalRuns(groups)
    requires if groups != [] && groups[|groups| - 1][0].sequence == call.sequence
             then next == groups[..|groups| - 1] + [groups[|groups| - 1] + [call]]
             else next == groups + [[call]]
    ensures forall k :: 0 <= k < |next| ==> next[k] != []
    ensures Flat(next) == Flat(groups) + [call] && MaximalRuns(next)
  {
    RunsMore(groups, call);
    if groups != [] && groups[|groups| - 1][0].sequence == call.sequence {
      FlatLonger(groups, call);
    } else {
      FlatMore(groups, [call]);
    }
  }

  /** Grouping is a partition into maximal runs. */
  lemma {:induction false} GroupsPartition(calls: seq<Call>)
    ensures Flat(Grouped(calls)) == calls && MaximalRuns(Grouped(calls))
  {
    if calls != [] {
      var front, call := calls[..|calls| - 1], calls[|calls| - 1];
      GroupsPartition(front);
      PartitionStep(Grouped(front), call, Grouped(calls));
      assert calls == front + [call];
    }
  }

  // ----- visits --------------------------------------------------------------------------------

  lemma {:induction false} OccurrencesSplit(places: seq<string>, place: string, lo: int, mid: int, hi: int)
    requires 0 <= lo <= mid <= hi <= |places|
    ensures Occurrences(places, place, lo, hi) ==
            Occurrences(places, place, lo, mid) + Occurrences(places, place, mid, hi)
    decreases hi - mid
  {
    if mid < hi {
      OccurrencesSplit(places, place, lo, mid, hi - 1);
    }
  }

  /** A later call at a place always counts further. */
  lemma OccurrencesGrow(places: seq<string>, lo: int, i: int, j: int)
    requires 0 <= lo <= i < j < |places| && places[i] == places[j]
    ensures Occurrences(places, places[i], lo, i + 1) < Occurrences(places, places[j], lo, j + 1)
  {
    OccurrencesSplit(places, places[j], lo, i + 1, j);
  }

  ghost predicate VisitsUnique(calls: seq<Call>) {
    forall i, j :: 0 <= i < j < |calls| && calls[i].location == calls[j].location ==>
      calls[i].visit < calls[j].visit
  }

  /** A run's (location, visit) pairs are unique, and so are those of any trip whose visits count. */
  lemma CountedVisitsUnique(calls: seq<Call>)
    requires VisitsCount(calls)
    ensures VisitsUnique(calls)
  {
    forall i, j | 0 <= i < j < |calls| && calls[i].location == calls[j].location
      ensures calls[i].visit < calls[j].visit
    {
      OccurrencesGrow(Places(calls), 0, i, j);
    }
  }

  lemma NumberedCounts(calls: seq<Call>)
    ensures VisitsCount(Numbered(calls))
  {
    assert Places(Numbered(calls)) == Places(calls);
  }

  /** What the core relies on in every trip it follows. */
  ghost predicate WellLaid(trip: Trip) {
    && VisitsCount(trip.calls)
    && (trip.parts != [] ==> trip.runKey.Some? && Covers(PartBounds(trip.parts), |trip.calls|))
  }

  /** Every run trip is well laid, whatever parts it is built from. */
  lemma RunTripWellLaid(runId: TripId, runKey: string, parts: seq<Trip>)
    requires parts != []
    ensures WellLaid(RunTripOf(runId, runKey, parts))
    ensures VisitsUnique(RunTripOf(runId, runKey, parts).calls)
  {
    LayoutCovers(parts);
    NumberedCounts(LayParts(parts).calls);
    CountedVisitsUnique(Numbered(LayParts(parts).calls));
  }

  // ----- distinct public journeys --------------------------------------------------------------

  ghost predicate Distinct(spans: seq<JourneySpan>) {
    forall i, j :: 0 <= i < j < |spans| ==> spans[i].journey != spans[j].journey
  }

  function KeyOf(runKey: string, part: TripPart): string {
    if part.number.Some? then part.number.value else runKey
  }

  /** A part opens a public journey unless it is numbered as the key of the part before it. */
  predicate Opens(runKey: string, parts: seq<TripPart>, k: int)
    requires 0 <= k < |parts|
  {
    k == 0 || parts[k].number != Some(KeyOf(runKey, parts[k - 1]))
  }

  /** Two parts that open a journey under one number, or none. */
  predicate OpenAlike(runKey: string, parts: seq<TripPart>, i: int, j: int)
    requires 0 <= i < j < |parts|
  {
    Opens(runKey, parts, i) && Opens(runKey, parts, j) && parts[i].number == parts[j].number
  }

  ghost predicate OpenersDiffer(runKey: string, parts: seq<TripPart>) {
    forall i, j | 0 <= i < j < |parts| :: !OpenAlike(runKey, parts, i, j)
  }

  ghost predicate Spanned(spans: seq<JourneySpan>, journey: JourneyKey) {
    exists s :: 0 <= s < |spans| && spans[s].journey == journey
  }

  ghost predicate OpenedBy(feed: string, runKey: string, day: int, parts: seq<TripPart>, journey: JourneyKey) {
    exists k :: 0 <= k < |parts| && Opens(runKey, parts, k) && PartJourney(feed, runKey, day, parts[k]) == journey
  }

  lemma {:induction false} LastKey(feed: string, runKey: string, day: int, parts: seq<TripPart>)
    requires parts != []
    ensures var spans := SpansOf(feed, runKey, day, parts); spans[|spans| - 1].journey.key == KeyOf(runKey, parts[|parts| - 1])
  {
  }

  lemma ContinuesUnlessOpens(feed: string, runKey: string, day: int, parts: seq<TripPart>)
    requires parts != []
    ensures Continues(SpansOf(feed, runKey, day, parts[..|parts| - 1]), parts[|parts| - 1]) <==> !Opens(runKey, parts, |parts| - 1)
  {
    if |parts| > 1 {
      LastKey(feed, runKey, day, parts[..|parts| - 1]);
    }
  }

  lemma OpenedMore(feed: string, runKey: string, day: int, parts: seq<TripPart>, journey: JourneyKey)
    requires parts != []
    ensures OpenedBy(feed, runKey, day, parts, journey) <==>
              || OpenedBy(feed, runKey, day, parts[..|parts| - 1], journey)
              || (Opens(runKey, parts, |parts| - 1) && PartJourney(feed, runKey, day, parts[|parts| - 1]) == journey)
  {
    var front := parts[..|parts| - 1];
    if k :| 0 <= k < |front| && Opens(runKey, front, k) && PartJourney(feed, runKey, day, front[k]) == journey {
      assert Opens(runKey, parts, k);
    }
    if k :| 0 <= k < |front| && Opens(runKey, parts, k) && PartJourney(feed, runKey, day, parts[k]) == journey {
      assert Opens(runKey, front, k) && front[k] == parts[k];
    }
  }

  lemma SpannedLonger(prior: seq<JourneySpan>, last: int, journey: JourneyKey)
    requires prior != []
    ensures Spanned(prior[..|prior| - 1] + [prior[|prior| - 1].(last := last)], journey) <==> Spanned(prior, journey)
  {
    var spans := prior[..|prior| - 1] + [prior[|prior| - 1].(last := last)];
    assert forall s :: 0 <= s < |prior| ==> spans[s].journey == prior[s].journey;
  }

  lemma SpannedMore(prior: seq<JourneySpan>, next: JourneySpan, journey: JourneyKey)
    ensures Spanned(prior + [next], journey) <==> Spanned(prior, journey) || journey == next.journey
  {
    var spans := prior + [next];
    assert spans[|prior|] == next;
    assert forall s :: 0 <= s < |prior| ==> spans[s] == prior[s];
  }

  /** The spans are of the journeys the parts open. */
  lemma {:induction false} SpansOpened(feed: string, runKey: string, day: int, parts: seq<TripPart>, journey: JourneyKey)
    ensures Spanned(SpansOf(feed, runKey, day, parts), journey) <==> OpenedBy(feed, runKey, day, parts, journey)
  {
    if parts != [] {
      var prior, part := SpansOf(feed, runKey, day, parts[..|parts| - 1]), parts[|parts| - 1];
      SpansOpened(feed, runKey, day, parts[..|parts| - 1], journey);
      ContinuesUnlessOpens(feed, runKey, day, parts);
      OpenedMore(feed, runKey, day, parts, journey);
      if Continues(prior, part) {
        SpannedLonger(prior, part.last, journey);
      } else {
        SpannedMore(prior, JourneySpan(PartJourney(feed, runKey, day, part), part.first, part.last), journey);
      }
    }
  }

  lemma DistinctMore(prior: seq<JourneySpan>, next: JourneySpan)
    ensures Distinct(prior + [next]) <==> Distinct(prior) && !Spanned(prior, next.journey)
  {
    var spans := prior + [next];
    assert spans[|prior|] == next;
    assert forall s :: 0 <= s < |prior| ==> spans[s] == prior[s];
  }

  lemma DistinctLonger(prior: seq<JourneySpan>, last: int)
    requires prior != []
    ensures Distinct(prior[..|prior| - 1] + [prior[|prior| - 1].(last := last)]) <==> Distinct(prior)
  {
    var spans := prior[..|prior| - 1] + [prior[|prior| - 1].(last := last)];
    assert forall s :: 0 <= s < |prior| ==> spans[s].journey == prior[s].journey;
  }

  lemma JourneyTold(feed: string, runKey: string, day: int, a: TripPart, b: TripPart)
    ensures PartJourney(feed, runKey, day, a) == PartJourney(feed, runKey, day, b) <==> a.number == b.number
  {
    assert |TRAIN_NAMESPACE| != |RUN_NAMESPACE|;
  }

  ghost predicate OpenedAs(runKey: string, parts: seq<TripPart>, number: Option<string>) {
    exists k :: 0 <= k < |parts| && Opens(runKey, parts, k) && parts[k].number == number
  }

  lemma OpenedTold(feed: string, runKey: string, day: int, parts: seq<TripPart>, part: TripPart)
    ensures OpenedBy(feed, runKey, day, parts, PartJourney(feed, runKey, day, part)) <==> OpenedAs(runKey, parts, part.number)
  {
    forall k | 0 <= k < |parts|
      ensures PartJourney(feed, runKey, day, parts[k]) == PartJourney(feed, runKey, day, part) <==> parts[k].number == part.number
    {
      JourneyTold(feed, runKey, day, parts[k], part);
    }
  }

  lemma OpensInFront(runKey: string, parts: seq<TripPart>, k: int)
    requires 0 <= k < |parts| - 1
    ensures Opens(runKey, parts[..|parts| - 1], k) <==> Opens(runKey, parts, k)
  {
  }

  lemma AlikeInFront(runKey: string, parts: seq<TripPart>, i: int, j: int)
    requires 0 <= i < j < |parts| - 1
    ensures OpenAlike(runKey, parts[..|parts| - 1], i, j) <==> OpenAlike(runKey, parts, i, j)
  {
    OpensInFront(runKey, parts, i);
    OpensInFront(runKey, parts, j);
  }

  lemma OpenersMore(runKey: string, parts: seq<TripPart>)
    requires parts != []
    ensures var front := parts[..|parts| - 1];
            OpenersDiffer(runKey, parts) <==>
              && OpenersDiffer(runKey, front)
              && (Opens(runKey, parts, |parts| - 1) ==> !OpenedAs(runKey, front, parts[|parts| - 1].number))
  {
    var front, n := parts[..|parts| - 1], |parts| - 1;
    forall i, j | 0 <= i < j < n ensures OpenAlike(runKey, front, i, j) <==> OpenAlike(runKey, parts, i, j) {
      AlikeInFront(runKey, parts, i, j);
    }
    if k :| 0 <= k < n && Opens(runKey, front, k) && front[k].number == parts[n].number {
      OpensInFront(runKey, parts, k);
      assert Opens(runKey, parts, n) ==> OpenAlike(runKey, parts, k, n);
    }
    forall i | 0 <= i < n && OpenAlike(runKey, parts, i, n) ensures OpenedAs(runKey, front, parts[n].number) {
      OpensInFront(runKey, parts, i);
      assert front[i].number == parts[n].number;
    }
  }

  /** The public journeys of a run are distinct exactly if no two parts that open one have the same number, or
      none: a number that returns after another, or a second unnumbered part, repeats a journey. */
  lemma {:induction false} DistinctJourneys(feed: string, runKey: string, day: int, parts: seq<TripPart>)
    ensures Distinct(SpansOf(feed, runKey, day, parts)) <==> OpenersDiffer(runKey, parts)
  {
    if parts != [] {
      var prior, part := SpansOf(feed, runKey, day, parts[..|parts| - 1]), parts[|parts| - 1];
      var next := JourneySpan(PartJourney(feed, runKey, day, part), part.first, part.last);
      DistinctJourneys(feed, runKey, day, parts[..|parts| - 1]);
      ContinuesUnlessOpens(feed, runKey, day, parts);
      OpenersMore(runKey, parts);
      OpenedTold(feed, runKey, day, parts[..|parts| - 1], part);
      SpansOpened(feed, runKey, day, parts[..|parts| - 1], next.journey);
      if Continues(prior, part) {
        DistinctLonger(prior, part.last);
      } else {
        DistinctMore(prior, next);
      }
    }
  }

  // ----- the journey a part is carried under ---------------------------------------------------

  /** The public journey of part `k`: the one it opens or the one of the part before. */
  function Borne(feed: string, runKey: string, day: int, parts: seq<TripPart>, k: int): JourneyKey
    requires 0 <= k < |parts|
    decreases k
  {
    if Opens(runKey, parts, k) then PartJourney(feed, runKey, day, parts[k]) else Borne(feed, runKey, day, parts, k - 1)
  }

  lemma {:induction false} BorneFront(feed: string, runKey: string, day: int, parts: seq<TripPart>, k: int)
    requires 0 <= k < |parts| - 1
    ensures Borne(feed, runKey, day, parts[..|parts| - 1], k) == Borne(feed, runKey, day, parts, k)
    decreases k
  {
    if !Opens(runKey, parts, k) {
      BorneFront(feed, runKey, day, parts, k - 1);
    }
  }

  lemma LastJourney(feed: string, runKey: string, day: int, parts: seq<TripPart>)
    requires parts != []
    ensures var prior, spans := SpansOf(feed, runKey, day, parts[..|parts| - 1]), SpansOf(feed, runKey, day, parts);
            spans[|spans| - 1].journey ==
              if Continues(prior, parts[|parts| - 1]) then prior[|prior| - 1].journey
              else PartJourney(feed, runKey, day, parts[|parts| - 1])
  {
  }

  lemma {:induction false} LastBorne(feed: string, runKey: string, day: int, parts: seq<TripPart>)
    requires parts != []
    ensures var spans := SpansOf(feed, runKey, day, parts);
            spans[|spans| - 1].journey == Borne(feed, runKey, day, parts, |parts| - 1)
  {
    ContinuesUnlessOpens(feed, runKey, day, parts);
    LastJourney(feed, runKey, day, parts);
    if !Opens(runKey, parts, |parts| - 1) {
      LastBorne(feed, runKey, day, parts[..|parts| - 1]);
      BorneFront(feed, runKey, day, parts, |parts| - 2);
    }
  }

  /** Part `k` is numbered as the run itself and so carried on from an unnumbered part. */
  ghost predicate Masked(runKey: string, parts: seq<TripPart>, k: int)
    requires 0 <= k < |parts|
  {
    exists u :: 0 <= u < k && parts[u].number.None? && forall m | u < m <= k :: parts[m].number == Some(runKey)
  }

  /** A part is carried under its own number's journey, unless it is masked. */
  lemma {:induction false} BorneIs(feed: string, runKey: string, day: int, parts: seq<TripPart>, k: int)
    requires 0 <= k < |parts|
    ensures Borne(feed, runKey, day, parts, k)
         == if Masked(runKey, parts, k) then RunJourney(feed, runKey, day) else PartJourney(feed, runKey, day, parts[k])
    decreases k
  {
    if !Opens(runKey, parts, k) {
      BorneIs(feed, runKey, day, parts, k - 1);
      MaskedOn(runKey, parts, k);
    }
  }

  lemma MaskedOn(runKey: string, parts: seq<TripPart>, k: int)
    requires 0 < k < |parts| && !Opens(runKey, parts, k)
    ensures Masked(runKey, parts, k) <==> parts[k - 1].number.None? || Masked(runKey, parts, k - 1)
  {
    if u :| 0 <= u < k - 1 && parts[u].number.None? && forall m | u < m <= k - 1 :: parts[m].number == Some(runKey) {
      assert forall m | u < m <= k :: parts[m].number == Some(runKey);
    }
    if u :| 0 <= u < k && parts[u].number.None? && forall m | u < m <= k :: parts[m].number == Some(runKey) {
      assert u == k - 1 || forall m | u < m <= k - 1 :: parts[m].number == Some(runKey);
    }
  }

  // ----- the part ahead ------------------------------------------------------------------------

  /** The current part holds the next call to reach; every part before it is behind. */
  lemma {:induction false} FirstAheadHolds(parts: seq<PartSpan>, n: int, reached: int)
    requires parts != [] && Covers(PublishedBounds(parts), n)
    requires -1 <= reached
    ensures var p := FirstAhead(parts, reached);
            && (forall q :: 0 <= q < p ==> parts[q].last <= reached)
            && (if reached < n - 1 then parts[p].first <= reached + 1 <= parts[p].last
                else p == |parts| - 1)
  {
    FirstAheadScans(parts, reached);
    var p := FirstAhead(parts, reached);
    assert PublishedBounds(parts)[p].last == parts[p].last;
    if p > 0 {
      assert PublishedBounds(parts)[p - 1].last == parts[p - 1].last;
    }
    BoundsOrdered(PublishedBounds(parts), n, p, |parts| - 1);
  }

  lemma {:induction false} FirstAheadScans(parts: seq<PartSpan>, reached: int)
    requires parts != []
    ensures var p := FirstAhead(parts, reached);
            (forall q :: 0 <= q < p ==> parts[q].last <= reached) && (p == |parts| - 1 || reached < parts[p].last)
  {
    if |parts| > 1 && parts[0].last <= reached {
      FirstAheadScans(parts[1..], reached);
      var p := FirstAhead(parts, reached);
      forall q | 0 <= q < p ensures parts[q].last <= reached {
        if q > 0 {
          assert parts[q] == parts[1..][q - 1];
        }
      }
    }
  }

  /** The current part never moves back as progress grows. */
  lemma {:induction false} FirstAheadAdvances(parts: seq<PartSpan>, reached: int, further: int)
    requires parts != [] && reached <= further
    ensures FirstAhead(parts, reached) <= FirstAhead(parts, further)
  {
    if |parts| > 1 && parts[0].last <= reached {
      FirstAheadAdvances(parts[1..], reached, further);
    }
  }

  // ----- the train number carried now ----------------------------------------------------------

  lemma {:induction false} SpanAheadIs(spans: seq<JourneySpan>, reached: int, s: nat)
    requires s < |spans| && (forall q | 0 <= q < s :: spans[q].last <= reached)
    requires s == |spans| - 1 || reached < spans[s].last
    ensures SpanAhead(spans, reached) == s
  {
    if s > 0 {
      assert forall q | 0 <= q < s - 1 :: spans[1..][q] == spans[q + 1];
      SpanAheadIs(spans[1..], reached, s - 1);
    }
  }

  lemma {:induction false} SpanAheadScans(spans: seq<JourneySpan>, reached: int)
    requires spans != []
    ensures var s := SpanAhead(spans, reached);
            (forall q | 0 <= q < s :: spans[q].last <= reached) && (s == |spans| - 1 || reached < spans[s].last)
  {
    if |spans| > 1 && spans[0].last <= reached {
      SpanAheadScans(spans[1..], reached);
      var s := SpanAhead(spans, reached);
      forall q | 0 <= q < s ensures spans[q].last <= reached {
        if q > 0 {
          assert spans[q] == spans[1..][q - 1];
        }
      }
    }
  }

  lemma {:induction false} FirstAheadIs(parts: seq<PartSpan>, reached: int, p: nat)
    requires p < |parts| && (forall q | 0 <= q < p :: parts[q].last <= reached)
    requires p == |parts| - 1 || reached < parts[p].last
    ensures FirstAhead(parts, reached) == p
  {
    if p > 0 {
      assert forall q | 0 <= q < p - 1 :: parts[1..][q] == parts[q + 1];
      FirstAheadIs(parts[1..], reached, p - 1);
    }
  }

  ghost predicate LastsGrow(parts: seq<TripPart>) {
    forall i, j | 0 <= i < j < |parts| :: parts[i].last <= parts[j].last
  }

  function Spanning(parts: seq<TripPart>): (r: seq<PartSpan>)
    ensures |r| == |parts|
  {
    seq(|parts|, i requires 0 <= i < |parts| => PartSpan(parts[i].tripId, parts[i].first, parts[i].last))
  }

  lemma {:induction false} SpansEnd(feed: string, runKey: string, day: int, parts: seq<TripPart>)
    requires parts != [] && LastsGrow(parts)
    ensures var spans := SpansOf(feed, runKey, day, parts);
            spans[|spans| - 1].last == parts[|parts| - 1].last && forall s | 0 <= s < |spans| :: spans[s].last <= parts[|parts| - 1].last
  {
    var front := parts[..|parts| - 1];
    if front != [] {
      SpansEnd(feed, runKey, day, front);
      var spans, prior := SpansOf(feed, runKey, day, parts), SpansOf(feed, runKey, day, front);
      assert front[|front| - 1].last <= parts[|parts| - 1].last;
      forall s | 0 <= s < |spans| - 1 ensures spans[s].last <= parts[|parts| - 1].last {
        assert spans[s] == prior[s];
      }
    }
  }

  /** Adding a part does not change what is ahead while a part before it is. */
  lemma AheadInFront(feed: string, runKey: string, day: int, parts: seq<TripPart>, reached: int)
    requires |parts| > 1 && LastsGrow(parts) && reached < parts[|parts| - 2].last
    ensures var front := parts[..|parts| - 1];
            && FirstAhead(Spanning(parts), reached) == FirstAhead(Spanning(front), reached)
            && var spans, prior := SpansOf(feed, runKey, day, parts), SpansOf(feed, runKey, day, front);
               spans[SpanAhead(spans, reached)].journey == prior[SpanAhead(prior, reached)].journey
  {
    var front := parts[..|parts| - 1];
    FirstAheadScans(Spanning(front), reached);
    assert forall q | 0 <= q < |front| :: Spanning(parts)[q] == Spanning(front)[q];
    assert Spanning(front)[|front| - 1].last == parts[|parts| - 2].last;
    FirstAheadIs(Spanning(parts), reached, FirstAhead(Spanning(front), reached));
    var spans, prior := SpansOf(feed, runKey, day, parts), SpansOf(feed, runKey, day, front);
    SpansEnd(feed, runKey, day, front);
    SpanAheadScans(prior, reached);
    SpanAheadIs(spans, reached, SpanAhead(prior, reached));
  }

  /** Past every part but the last, the last part and the last journey are ahead. */
  lemma AheadAtEnd(feed: string, runKey: string, day: int, parts: seq<TripPart>, reached: int)
    requires parts != [] && LastsGrow(parts) && (|parts| > 1 ==> parts[|parts| - 2].last <= reached)
    ensures FirstAhead(Spanning(parts), reached) == |parts| - 1
    ensures var spans := SpansOf(feed, runKey, day, parts); SpanAhead(spans, reached) == |spans| - 1
  {
    forall q | 0 <= q < |parts| - 1 ensures Spanning(parts)[q].last <= reached {
      assert q < |parts| - 2 ==> parts[q].last <= parts[|parts| - 2].last;
    }
    FirstAheadIs(Spanning(parts), reached, |parts| - 1);
    var spans := SpansOf(feed, runKey, day, parts);
    forall s | 0 <= s < |spans| - 1 ensures spans[s].last <= reached {
      SpansBehind(feed, runKey, day, parts, reached, s);
    }
    SpanAheadIs(spans, reached, |spans| - 1);
  }

  /** All spans but the last end where those before the last part do. */
  lemma SpansBehind(feed: string, runKey: string, day: int, parts: seq<TripPart>, reached: int, s: int)
    requires parts != [] && LastsGrow(parts) && (|parts| > 1 ==> parts[|parts| - 2].last <= reached)
    requires 0 <= s < |SpansOf(feed, runKey, day, parts)| - 1
    ensures SpansOf(feed, runKey, day, parts)[s].last <= reached
  {
    SpansBeforeLast(feed, runKey, day, parts);
    SpansEnd(feed, runKey, day, parts[..|parts| - 1]);
  }

  lemma SpansBeforeLast(feed: string, runKey: string, day: int, parts: seq<TripPart>)
    requires parts != []
    ensures var prior, spans := SpansOf(feed, runKey, day, parts[..|parts| - 1]), SpansOf(feed, runKey, day, parts);
            |spans| - 1 <= |prior| && forall s | 0 <= s < |spans| - 1 :: spans[s] == prior[s]
  {
  }

  /** The journey a run carries now is that of the part it is on: two scans, over public journeys and over
      published parts, that agree wherever the vehicle is. */
  lemma {:induction false} TrainOfPart(feed: string, runKey: string, day: int, parts: seq<TripPart>, reached: int)
    requires parts != [] && LastsGrow(parts)
    ensures var spans := SpansOf(feed, runKey, day, parts);
            spans[SpanAhead(spans, reached)].journey == Borne(feed, runKey, day, parts, FirstAhead(Spanning(parts), reached))
  {
    if |parts| > 1 && reached < parts[|parts| - 2].last {
      TrainOfPart(feed, runKey, day, parts[..|parts| - 1], reached);
      AheadInFront(feed, runKey, day, parts, reached);
      BorneFront(feed, runKey, day, parts, FirstAhead(Spanning(parts), reached));
    } else {
      AheadAtEnd(feed, runKey, day, parts, reached);
      LastBorne(feed, runKey, day, parts);
    }
  }

  /** On an instance of a run, the current train is the number of the current part, exactly unless the part is
      numbered as the run itself and carried on from an unnumbered one: there is none then. */
  lemma CurrentTrainOfPart(feed: string, trip: Trip, day: int, instance: Instance)
    requires WellLaid(trip) && trip.parts != [] && trip.runKey.Some?
    requires instance.journeys == JourneySpansOf(feed, trip, day) && instance.parts == PartSpans(trip)
    ensures CurrentPart(instance) < |trip.parts|
    ensures var k, number := CurrentPart(instance), trip.parts[CurrentPart(instance)].number;
            && CurrentTrain(instance) == (if Masked(trip.runKey.value, trip.parts, k) then None else number)
            && (CurrentTrain(instance) == number <==> !Masked(trip.runKey.value, trip.parts, k))
            && (number != trip.runKey ==> CurrentTrain(instance) == number)
  {
    forall i, j | 0 <= i < j < |trip.parts| ensures trip.parts[i].last <= trip.parts[j].last {
      BoundsOrdered(PartBounds(trip.parts), |trip.calls|, i, j);
      assert PartBounds(trip.parts)[i].last == trip.parts[i].last && PartBounds(trip.parts)[j].last == trip.parts[j].last;
    }
    assert instance.parts == Spanning(trip.parts);
    var runKey := trip.runKey.value;
    TrainOfPart(feed, runKey, day, trip.parts, Reached(instance));
    BorneIs(feed, runKey, day, trip.parts, CurrentPart(instance));
    assert |TRAIN_NAMESPACE| != |RUN_NAMESPACE|;
  }

  // ----- history identity ----------------------------------------------------------------------

  lemma JourneyBoundsAt(spans: seq<JourneySpan>, n: int)
    requires Covers(JourneyBounds(spans), n)
    ensures Within(spans, n)
  {
    forall span | span in spans ensures 0 <= span.first <= span.last < n {
      var k :| 0 <= k < |spans| && spans[k] == span;
      BoundsOrdered(JourneyBounds(spans), n, k, |spans| - 1);
      assert JourneyBounds(spans)[k] == Bounds(span.first, span.last);
    }
  }

  lemma {:induction false} SomeSpanHolds(spans: seq<JourneySpan>, n: int, i: int, k: int)
    requires Covers(JourneyBounds(spans), n) && 0 <= i < n && 0 <= k < |spans|
    requires spans[k].first <= i
    ensures Holding(spans, i) != []
    decreases |spans| - k
  {
    var bounds := JourneyBounds(spans);
    if i <= spans[k].last {
      assert Holds(spans[k], i);
    } else {
      assert bounds[k] == Bounds(spans[k].first, spans[k].last);
      assert k < |spans| - 1;
      assert bounds[k + 1] == Bounds(spans[k + 1].first, spans[k + 1].last);
      SomeSpanHolds(spans, n, i, k + 1);
    }
  }

  /** What history calls call `i`: journey, place and visit. */
  function Triple(journey: JourneyKey, spans: seq<JourneySpan>, calls: seq<CallState>, i: int, kind: EventKind)
    : (JourneyKey, string, int)
    requires 0 <= i < |calls|
    requires forall span <- spans :: 0 <= span.first
  {
    var public := PublicCall(journey, spans, calls, i, kind);
    (public.0, calls[i].location, public.1)
  }

  /** The calls of an instance follow the calls of its trip. */
  ghost predicate Follows(calls: seq<CallState>, trip: Trip) {
    |calls| == |trip.calls| &&
    forall i :: 0 <= i < |calls| ==>
      calls[i].location == trip.calls[i].location && calls[i].visit == trip.calls[i].visit
  }

  /** The spans an instance of `trip` is given cover its calls, or it is its own journey. */
  lemma LaidSpansCover(feed: string, trip: Trip, day: int)
    requires WellLaid(trip)
    ensures var spans := JourneySpansOf(feed, trip, day);
            Within(spans, |trip.calls|) && (spans != [] ==> Covers(JourneyBounds(spans), |trip.calls|))
  {
    var spans := JourneySpansOf(feed, trip, day);
    if spans != [] {
      SpansCover(feed, trip.runKey.value, day, trip.parts, |trip.calls|);
      JourneyBoundsAt(spans, |trip.calls|);
    }
  }

  /** Whether a snapshot of `journey` in `effects` lists `place` with this visit number. */
  ghost predicate Listed(effects: seq<Effect>, journey: JourneyKey, place: string, visit: int) {
    exists e, k :: 0 <= e < |effects| && effects[e].SnapshotJourney? && effects[e].journey == journey &&
      0 <= k < |effects[e].calls| && effects[e].calls[k].location == place && effects[e].calls[k].visit == visit
  }

  /** A span's snapshot lists each of its calls under its visit counted from the span's first. */
  lemma SpanCallListed(spans: seq<JourneySpan>, trip: Trip, s: int, i: int, releaseId: string, at: int)
    requires Within(spans, |trip.calls|) && 0 <= s < |spans| && Holds(spans[s], i)
    ensures var place := trip.calls[i].location;
            Listed(SpanSnapshots(spans, trip, releaseId, at), spans[s].journey, place,
                   Occurrences(Places(trip.calls), place, spans[s].first, i + 1))
  {
    assert spans[s] in spans;
    var snapshot := SpanSnapshots(spans, trip, releaseId, at)[s];
    assert snapshot.calls[i - spans[s].first].location == trip.calls[i].location;
  }

  /** The span an event of a call is filed by. */
  lemma FilingSpan(spans: seq<JourneySpan>, n: int, i: int, kind: EventKind) returns (s: int)
    requires Within(spans, n) && Covers(JourneyBounds(spans), n) && 0 <= i < n
    ensures 0 <= s < |spans| && Holds(spans[s], i)
    ensures var holding := Holding(spans, i);
            holding != [] && spans[s] == if kind == Arrival then holding[0] else holding[|holding| - 1]
  {
    SomeSpanHolds(spans, n, i, 0);
    var holding := Holding(spans, i);
    var span := if kind == Arrival then holding[0] else holding[|holding| - 1];
    assert span in spans && Holds(span, i);
    s :| 0 <= s < |spans| && spans[s] == span;
  }

  lemma SpanTripleListed(
    journey: JourneyKey, spans: seq<JourneySpan>, trip: Trip, calls: seq<CallState>, i: int, kind: EventKind,
    releaseId: string, at: int)
    requires Within(spans, |trip.calls|) && Covers(JourneyBounds(spans), |trip.calls|)
    requires Follows(calls, trip) && 0 <= i < |calls|
    ensures var triple := Triple(journey, spans, calls, i, kind);
            Listed(SpanSnapshots(spans, trip, releaseId, at), triple.0, triple.1, triple.2)
  {
    assert CallPlaces(calls) == Places(trip.calls);
    var s := FilingSpan(spans, |calls|, i, kind);
    SpanCallListed(spans, trip, s, i, releaseId, at);
  }

  lemma ListedMore(effects: seq<Effect>, more: seq<Effect>, journey: JourneyKey, place: string, visit: int)
    requires Listed(effects, journey, place, visit)
    ensures Listed(effects + more, journey, place, visit)
    ensures Listed(more + effects, journey, place, visit)
  {
    var e, k :| 0 <= e < |effects| && effects[e].SnapshotJourney? && effects[e].journey == journey &&
      0 <= k < |effects[e].calls| && effects[e].calls[k].location == place && effects[e].calls[k].visit == visit;
    assert (effects + more)[e] == effects[e] && (more + effects)[|more| + e] == effects[e];
  }

  /** Every history identity of an instance is a scheduled call, under the same visit number, of
      the snapshot emitted for that public journey. */
  lemma TriplesListed(
    feed: string, trip: Trip, journey: JourneyKey, calls: seq<CallState>, i: int, kind: EventKind,
    releaseId: string, at: int)
    requires WellLaid(trip) && Follows(calls, trip)
    requires 0 <= i < |calls|
    ensures var spans := JourneySpansOf(feed, trip, journey.day);
            && Within(spans, |calls|)
            && var triple := Triple(journey, spans, calls, i, kind);
               Listed(SnapshotsOf(journey, spans, trip, releaseId, at), triple.0, triple.1, triple.2)
  {
    var spans := JourneySpansOf(feed, trip, journey.day);
    LaidSpansCover(feed, trip, journey.day);
    if spans == [] {
      var effects := SnapshotsOf(journey, spans, trip, releaseId, at);
      assert effects[0].calls[i].location == calls[i].location;
    } else {
      SpanTripleListed(journey, spans, trip, calls, i, kind, releaseId, at);
      var triple := Triple(journey, spans, calls, i, kind);
      ListedMore(SpanSnapshots(spans, trip, releaseId, at), SpanLinks(spans), triple.0, triple.1, triple.2);
    }
  }

  /** Three parts numbered A, B, A, each of one call. */
  function ReturningParts(): seq<TripPart> {
    [TripPart(Published("p"), Some("A"), 0, 0), TripPart(Published("q"), Some("B"), 1, 1),
     TripPart(Published("r"), Some("A"), 2, 2)]
  }

  lemma ReturningSpans()
    ensures SpansOf("czptt", "pa", 0, ReturningParts()) ==
            [JourneySpan(JourneyKey("czptt", TRAIN_NAMESPACE, "A", 0), 0, 0),
             JourneySpan(JourneyKey("czptt", TRAIN_NAMESPACE, "B", 0), 1, 1),
             JourneySpan(JourneyKey("czptt", TRAIN_NAMESPACE, "A", 0), 2, 2)]
  {
    var p, q, r := ReturningParts()[0], ReturningParts()[1], ReturningParts()[2];
    assert "A"[0] != "B"[0];
    SpansNext("czptt", "pa", 0, [], p);
    SpansNext("czptt", "pa", 0, [p], q);
    SpansNext("czptt", "pa", 0, [p, q], r);
    assert [] + [p] == [p] && [p] + [q] == [p, q] && [p, q] + [r] == ReturningParts();
  }

  /** How the spans grow by one more part. */
  lemma SpansNext(feed: string, runKey: string, day: int, parts: seq<TripPart>, part: TripPart)
    ensures var spans := SpansOf(feed, runKey, day, parts);
            SpansOf(feed, runKey, day, parts + [part]) ==
              if Continues(spans, part) then spans[..|spans| - 1] + [spans[|spans| - 1].(last := part.last)]
              else spans + [JourneySpan(PartJourney(feed, runKey, day, part), part.first, part.last)]
  {
    assert (parts + [part])[..|parts + [part]| - 1] == parts;
  }
}
