/** Rail runs: the parts of a path laid end to end as one run trip, and the public journeys and
    published parts over its calls. */
module Runs {
  import opened Model

  const RUN_NAMESPACE := "czptt:pa"
  const TRAIN_NAMESPACE := "czptt:train_number"

  // ----- laying the parts ----------------------------------------------------------------------

  predicate Timed(call: Call) {
    call.passenger || call.arrival.Some? || call.departure.Some?
  }

  function Else<T>(a: Option<T>, b: Option<T>): Option<T> {
    if a.Some? then a else b
  }

  /** A junction call met again by the next part. */
  function Joined(previous: Call, call: Call): Call {
    Call(call.sequence, call.location, 0, previous.passenger || call.passenger,
         Else(previous.arrival, call.arrival), Else(call.departure, previous.departure),
         previous.onRequest && call.onRequest, Else(previous.point, call.point))
  }

  /** Whether a timed `call` is the call `calls` ends with, seen again. */
  predicate Meets(calls: seq<Call>, call: Call) {
    calls != [] && calls[|calls| - 1].sequence == call.sequence
  }

  function Lay(calls: seq<Call>, call: Call): seq<Call> {
    if !Timed(call) then calls
    else if Meets(calls, call) then calls[..|calls| - 1] + [Joined(calls[|calls| - 1], call)]
    else calls + [call]
  }

  function LayAll(calls: seq<Call>, more: seq<Call>): (r: seq<Call>)
    ensures |calls| <= |r|
    decreases |more|
  {
    if more == [] then calls
    else Lay(LayAll(calls, more[..|more| - 1]), more[|more| - 1])
  }

  function TimedCalls(calls: seq<Call>): (r: seq<Call>)
    ensures forall i :: 0 <= i < |r| ==> Timed(r[i])
  {
    if calls == [] then []
    else
      var rest := TimedCalls(calls[..|calls| - 1]);
      if Timed(calls[|calls| - 1]) then rest + [calls[|calls| - 1]] else rest
  }

  datatype Layout = Layout(calls: seq<Call>, parts: seq<TripPart>)

  /** Where the first timed call of a part lands after `calls`. */
  function Landing(calls: seq<Call>, call: Call): int {
    if Meets(calls, call) then |calls| - 1 else |calls|
  }

  function LayPart(layout: Layout, part: Trip): Layout {
    var calls := LayAll(layout.calls, part.calls);
    var timed := TimedCalls(part.calls);
    Layout(calls,
           if timed == [] then layout.parts
           else layout.parts +
                [TripPart(part.tripId, part.trainNumber, Landing(layout.calls, timed[0]), |calls| - 1)])
  }

  function LayParts(parts: seq<Trip>): Layout {
    if parts == [] then Layout([], [])
    else LayPart(LayParts(parts[..|parts| - 1]), parts[|parts| - 1])
  }

  // ----- numbering visits ----------------------------------------------------------------------

  /** How many of `places[lo..hi]` are `place`. */
  function Occurrences(places: seq<string>, place: string, lo: int, hi: int): (n: nat)
    requires 0 <= lo <= hi <= |places|
    ensures n <= hi - lo
    decreases hi - lo
  {
    if lo == hi then 0
    else Occurrences(places, place, lo, hi - 1) + (if places[hi - 1] == place then 1 else 0)
  }

  function Places(calls: seq<Call>): (r: seq<string>)
    ensures |r| == |calls|
  {
    seq(|calls|, i requires 0 <= i < |calls| => calls[i].location)
  }

  function Numbered(calls: seq<Call>): (r: seq<Call>)
    ensures |r| == |calls|
  {
    seq(|calls|, i requires 0 <= i < |calls| =>
      calls[i].(visit := Occurrences(Places(calls), calls[i].location, 0, i + 1)))
  }

  /** A visit number counts the calls at the same location so far: what the loader's window
      query states of a published trip and the renumbering of a run trip. */
  ghost predicate VisitsCount(calls: seq<Call>) {
    forall i :: 0 <= i < |calls| ==>
      calls[i].visit == Occurrences(Places(calls), calls[i].location, 0, i + 1)
  }

  /** The specification of a run trip. */
  function RunTripOf(runId: TripId, runKey: string, parts: seq<Trip>): Trip
    requires parts != []
  {
    var layout := LayParts(parts);
    var head, tail := parts[0], parts[|parts| - 1];
    Trip(runId, head.routeId, head.routeName, head.mode, head.serviceId, tail.headsign, None,
         Numbered(layout.calls), Some(runKey), None, None, layout.parts, head.agencyId)
  }

  /** The calls of one part laid after those already there, and its span if it has a timed call. */
  method LayOnePart(before: seq<Call>, part: Trip) returns (calls: seq<Call>, first: Option<int>)
    ensures calls == LayAll(before, part.calls)
    ensures first == (if TimedCalls(part.calls) == [] then None
                      else Some(Landing(before, TimedCalls(part.calls)[0])))
  {
    calls, first := before, None;
    for c := 0 to |part.calls|
      invariant calls == LayAll(before, part.calls[..c])
      invariant first == None <==> TimedCalls(part.calls[..c]) == []
      invariant first == None ==> calls == before
      invariant first.Some? ==> first.value == Landing(before, TimedCalls(part.calls[..c])[0])
    {
      var call := part.calls[c];
      assert part.calls[..c + 1][..c] == part.calls[..c];
      if Timed(call) {
        if Meets(calls, call) {
          calls := calls[..|calls| - 1] + [Joined(calls[|calls| - 1], call)];
        } else {
          calls := calls + [call];
        }
        if first == None {
          first := Some(|calls| - 1);
        }
      }
    }
    assert part.calls[..|part.calls|] == part.calls;
  }

  /** Visits counted again over the whole run. */
  method Renumber(calls: seq<Call>) returns (numbered: seq<Call>)
    ensures numbered == Numbered(calls)
  {
    var visits: map<string, nat> := map[];
    numbered := [];
    for c := 0 to |calls|
      invariant |numbered| == c
      invariant forall place <- visits :: visits[place] == Occurrences(Places(calls), place, 0, c)
      invariant forall place :: place !in visits ==> Occurrences(Places(calls), place, 0, c) == 0
      invariant forall i :: 0 <= i < c ==> numbered[i] == Numbered(calls)[i]
    {
      var call := calls[c];
      var seen := if call.location in visits then visits[call.location] else 0;
      assert Places(calls)[c] == call.location;
      visits := visits[call.location := seen + 1];
      numbered := numbered + [call.(visit := seen + 1)];
    }
  }

  /** The parts concatenated into one trip, junction calls merged and visits renumbered. */
  method RunTrip(runId: TripId, runKey: string, parts: seq<Trip>) returns (trip: Trip)
    requires parts != []
    ensures trip == RunTripOf(runId, runKey, parts)
  {
    var calls: seq<Call> := [];
    var spans: seq<TripPart> := [];
    for p := 0 to |parts|
      invariant Layout(calls, spans) == LayParts(parts[..p])
    {
      assert parts[..p + 1][..p] == parts[..p];
      var laid, first := LayOnePart(calls, parts[p]);
      calls := laid;
      if first.Some? {
        spans := spans + [TripPart(parts[p].tripId, parts[p].trainNumber, first.value, |calls| - 1)];
      }
    }
    assert parts[..|parts|] == parts;
    var numbered := Renumber(calls);
    var head, tail := parts[0], parts[|parts| - 1];
    trip := Trip(runId, head.routeId, head.routeName, head.mode, head.serviceId, tail.headsign, None,
                 numbered, Some(runKey), None, None, spans, head.agencyId);
  }

  // ----- public journeys and published parts ---------------------------------------------------

  function RunJourney(feed: string, runKey: string, day: int): JourneyKey {
    JourneyKey(feed, RUN_NAMESPACE, runKey, day)
  }

  /** The journey a part opens: its train number's, or the run's own. */
  function PartJourney(feed: string, runKey: string, day: int, part: TripPart): JourneyKey {
    if part.number.Some? then JourneyKey(feed, TRAIN_NAMESPACE, part.number.value, day)
    else RunJourney(feed, runKey, day)
  }

  predicate Continues(spans: seq<JourneySpan>, part: TripPart) {
    spans != [] && part.number.Some? && spans[|spans| - 1].journey.key == part.number.value
  }

  function SpansOf(feed: string, runKey: string, day: int, parts: seq<TripPart>): (spans: seq<JourneySpan>)
    ensures parts == [] <==> spans == []
    ensures |spans| <= |parts|
  {
    if parts == [] then []
    else
      var before := SpansOf(feed, runKey, day, parts[..|parts| - 1]);
      var part := parts[|parts| - 1];
      if Continues(before, part)
      then before[..|before| - 1] + [before[|before| - 1].(last := part.last)]
      else before + [JourneySpan(PartJourney(feed, runKey, day, part), part.first, part.last)]
  }

  function JourneySpansOf(feed: string, trip: Trip, day: int): seq<JourneySpan> {
    if trip.runKey.None? then [] else SpansOf(feed, trip.runKey.value, day, trip.parts)
  }

  /** Neighbouring parts of one train number are one public journey, an unnumbered part its own. A road trip
      has none. */
  method JourneySpans(feed: string, trip: Trip, day: int) returns (spans: seq<JourneySpan>)
    requires trip.parts != [] ==> trip.runKey.Some?
    ensures spans == JourneySpansOf(feed, trip, day)
  {
    spans := [];
    for p := 0 to |trip.parts|
      invariant trip.runKey.Some? ==> spans == SpansOf(feed, trip.runKey.value, day, trip.parts[..p])
      invariant p == 0 ==> spans == []
    {
      var part := trip.parts[p];
      assert trip.parts[..p + 1][..p] == trip.parts[..p];
      if Continues(spans, part) {
        spans := spans[..|spans| - 1] + [spans[|spans| - 1].(last := part.last)];
      } else {
        spans := spans + [JourneySpan(PartJourney(feed, trip.runKey.value, day, part), part.first, part.last)];
      }
    }
    assert trip.parts[..|trip.parts|] == trip.parts;
  }

  function PartSpans(trip: Trip): (r: seq<PartSpan>)
    ensures |r| == |trip.parts|
  {
    seq(|trip.parts|, i requires 0 <= i < |trip.parts| =>
      PartSpan(trip.parts[i].tripId, trip.parts[i].first, trip.parts[i].last))
  }

  /** An instance's parts; without any, all its calls are one part. */
  function PublishedParts(instance: Instance): (r: seq<PartSpan>)
    ensures r != []
  {
    if instance.parts != [] then instance.parts
    else [PartSpan(instance.tripId, 0, |instance.calls| - 1)]
  }

  function Reached(instance: Instance): int {
    if instance.progress.Some? then instance.progress.value.callIndex else -1
  }

  /** The part the vehicle is on, by its place among the published parts. */
  function CurrentPart(instance: Instance): (p: nat)
    ensures p < |PublishedParts(instance)|
  {
    FirstAhead(PublishedParts(instance), Reached(instance))
  }

  /** The first part ending after call `reached`, else the last part. */
  function FirstAhead(parts: seq<PartSpan>, reached: int): (p: nat)
    requires parts != []
    ensures p < |parts|
    decreases |parts|
  {
    if |parts| == 1 || reached < parts[0].last then 0 else 1 + FirstAhead(parts[1..], reached)
  }

  /** The first public journey ending after call `reached`, else the last one. */
  function SpanAhead(spans: seq<JourneySpan>, reached: int): (s: nat)
    requires spans != []
    ensures s < |spans|
    decreases |spans|
  {
    if |spans| == 1 || reached < spans[0].last then 0 else 1 + SpanAhead(spans[1..], reached)
  }

  /** The train number a run carries now, if it is a run and carries one. */
  function CurrentTrain(instance: Instance): Option<string> {
    if instance.journeys == [] then None
    else
      var journey := instance.journeys[SpanAhead(instance.journeys, Reached(instance))].journey;
      if journey.namespace == TRAIN_NAMESPACE then Some(journey.key) else None
  }

  // ----- history identity ----------------------------------------------------------------------

  function CallPlaces(calls: seq<CallState>): (r: seq<string>)
    ensures |r| == |calls|
  {
    seq(|calls|, i requires 0 <= i < |calls| => calls[i].location)
  }

  predicate Holds(span: JourneySpan, i: int) {
    span.first <= i <= span.last
  }

  function Holding(spans: seq<JourneySpan>, i: int): (r: seq<JourneySpan>)
    ensures forall k :: 0 <= k < |r| ==> r[k] in spans && Holds(r[k], i)
    ensures r == [] <==> forall k :: 0 <= k < |spans| ==> !Holds(spans[k], i)
  {
    if spans == [] then []
    else
      var rest := Holding(spans[1..], i);
      if Holds(spans[0], i) then [spans[0]] + rest else rest
  }

  predicate Anchored(spans: seq<JourneySpan>) {
    forall span <- spans :: 0 <= span.first
  }

  /** The public journey and visit number of call `i` for an event of `kind`: at a call two
      journeys share, the arrival is the earlier one's and the rest the later's. */
  function PublicCall(journey: JourneyKey, spans: seq<JourneySpan>, calls: seq<CallState>, i: int, kind: EventKind)
    : (JourneyKey, int)
    requires 0 <= i < |calls| && Anchored(spans)
  {
    var holding := Holding(spans, i);
    if holding == [] then (journey, calls[i].visit)
    else
      var span := if kind == Arrival then holding[0] else holding[|holding| - 1];
      (span.journey, Occurrences(CallPlaces(calls), calls[i].location, span.first, i + 1))
  }

  /** The public journeys of an instance. */
  function Publics(instance: Instance): (r: seq<JourneyKey>)
    ensures |r| == if instance.journeys == [] then 1 else |instance.journeys|
  {
    if instance.journeys == [] then [instance.journey]
    else seq(|instance.journeys|, i requires 0 <= i < |instance.journeys| => instance.journeys[i].journey)
  }

  // ----- schedule snapshots --------------------------------------------------------------------

  /** The calls `first..last` of a trip as a snapshot lists them, visits counted from `first`. */
  function ScheduledCalls(calls: seq<Call>, first: int, last: int): (r: seq<ScheduledCall>)
    requires 0 <= first <= last + 1 <= |calls|
    ensures |r| == last + 1 - first
  {
    seq(last + 1 - first, k requires 0 <= k < last + 1 - first =>
      var call := calls[first + k];
      ScheduledCall(k + 1, call.location, Occurrences(Places(calls), call.location, first, first + k + 1),
                    call.passenger, call.arrival, call.departure))
  }

  method ListCalls(calls: seq<Call>, first: int, last: int) returns (listed: seq<ScheduledCall>)
    requires 0 <= first <= last + 1 <= |calls|
    ensures listed == ScheduledCalls(calls, first, last)
  {
    var visits: map<string, nat> := map[];
    listed := [];
    for c := first to last + 1
      invariant |listed| == c - first
      invariant forall place <- visits :: visits[place] == Occurrences(Places(calls), place, first, c)
      invariant forall place :: place !in visits ==> Occurrences(Places(calls), place, first, c) == 0
      invariant forall k :: 0 <= k < |listed| ==> listed[k] == ScheduledCalls(calls, first, last)[k]
    {
      var call := calls[c];
      var seen := if call.location in visits then visits[call.location] else 0;
      assert Places(calls)[c] == call.location;
      visits := visits[call.location := seen + 1];
      listed := listed +
        [ScheduledCall(c - first + 1, call.location, seen + 1, call.passenger, call.arrival, call.departure)];
    }
  }

  /** The published part a span's snapshot is filed under: the part starting where it starts,
      else the part holding its first call, else the trip. */
  function PartStarting(parts: seq<TripPart>, first: int): Option<TripId> {
    if parts == [] then None
    else if parts[0].first == first then Some(parts[0].tripId)
    else PartStarting(parts[1..], first)
  }

  function PartHolding(parts: seq<TripPart>, first: int): Option<TripId> {
    if parts == [] then None
    else if parts[0].first <= first <= parts[0].last then Some(parts[0].tripId)
    else PartHolding(parts[1..], first)
  }

  function FiledUnder(trip: Trip, first: int): TripId {
    match PartStarting(trip.parts, first)
    case Some(id) => id
    case None =>
      match PartHolding(trip.parts, first)
      case Some(id) => id
      case None => trip.tripId
  }

  predicate Within(spans: seq<JourneySpan>, n: int) {
    forall span <- spans :: 0 <= span.first <= span.last < n
  }

  function SpanSnapshots(spans: seq<JourneySpan>, trip: Trip, releaseId: string, at: int): (r: seq<Effect>)
    requires Within(spans, |trip.calls|)
    ensures |r| == |spans|
  {
    seq(|spans|, i requires 0 <= i < |spans| =>
      SnapshotJourney(spans[i].journey, at, releaseId, FiledUnder(trip, spans[i].first),
                      ScheduledCalls(trip.calls, spans[i].first, spans[i].last)))
  }

  function SpanLinks(spans: seq<JourneySpan>): (r: seq<Effect>)
    ensures forall e <- r :: e.LinkJourneys?
  {
    if |spans| < 2 then []
    else seq(|spans| - 1, i requires 0 <= i < |spans| - 1 => LinkJourneys(spans[i].journey, spans[i + 1].journey))
  }

  function SnapshotsOf(journey: JourneyKey, spans: seq<JourneySpan>, trip: Trip, releaseId: string, at: int): seq<Effect>
    requires Within(spans, |trip.calls|)
  {
    if spans == []
    then [SnapshotJourney(journey, at, releaseId, trip.tripId, ScheduledCalls(trip.calls, 0, |trip.calls| - 1))]
    else SpanSnapshots(spans, trip, releaseId, at) + SpanLinks(spans)
  }

  method LinkSpans(spans: seq<JourneySpan>) returns (links: seq<Effect>)
    ensures links == SpanLinks(spans)
  {
    links := [];
    for i := 0 to if spans == [] then 0 else |spans| - 1
      invariant links == SpanLinks(spans)[..i]
    {
      links := links + [LinkJourneys(spans[i].journey, spans[i + 1].journey)];
    }
  }

  /** What history is given of an instance's schedule: its public journeys first, then what follows what. */
  method Snapshots(journey: JourneyKey, spans: seq<JourneySpan>, trip: Trip, releaseId: string, at: int)
    returns (effects: seq<Effect>)
    requires Within(spans, |trip.calls|)
    ensures effects == SnapshotsOf(journey, spans, trip, releaseId, at)
  {
    if spans == [] {
      var listed := ListCalls(trip.calls, 0, |trip.calls| - 1);
      return [SnapshotJourney(journey, at, releaseId, trip.tripId, listed)];
    }
    effects := [];
    for i := 0 to |spans|
      invariant effects == SpanSnapshots(spans, trip, releaseId, at)[..i]
    {
      var span := spans[i];
      assert span in spans;
      var listed := ListCalls(trip.calls, span.first, span.last);
      var snapshot := SnapshotJourney(span.journey, at, releaseId, FiledUnder(trip, span.first), listed);
      assert snapshot == SpanSnapshots(spans, trip, releaseId, at)[i];
      effects := effects + [snapshot];
    }
    var links := LinkSpans(spans);
    effects := effects + links;
  }
}
