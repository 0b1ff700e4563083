/** The realtime core as functions of its state: how one observation, an emit tick and a release
    switch change the vehicles, the journey instances and the effects returned. */
module Core {
  import opened Model
  import opened Runs
  import opened RunLayout

  const IDENTITY_NAMESPACES := {"cis:line_trip"}
  const SOURCE_PRE_TRIP := "pre_trip"
  const SOURCE_RUNNING := "running"

  // ----- what the core is given ----------------------------------------------------------------

  datatype Match = Match(journey: JourneyKey, trip: Trip, start: int, end: int)
  datatype Found = Matched(m: Match) | Missed(reason: Reason)

  /** What the tracker says of one call, and of one observation as a whole. It starts a journey
      still waiting (a point event), finishes one, and never does anything else to a lifecycle. */
  datatype CallNews = CallNews(
    arrival: Option<Interval>,
    departure: Option<Interval>,
    passedArrival: Option<int>,
    passedDeparture: Option<int>)

  datatype Crossing = Crossing(call: nat, kind: EventKind, interval: Interval)

  datatype Tracking = Tracking(
    news: map<nat, CallNews>,
    crossings: seq<Crossing>,
    starts: bool,
    finishes: bool,
    progress: Option<Progress>,
    track: Option<int>,
    freshness: Freshness,
    trackSource: Option<string>,
    rest: int)

  datatype Estimate = Estimate(
    arrival: Option<int>,
    departure: Option<int>,
    status: CallStatus,
    sourceClass: Option<string>)

  datatype Policy = Policy(
    forgetAfter: int,
    positionFresh: int,
    staleAfter: string -> int,
    predictWithoutData: string -> int)

  /** The release index the core reads, the policy, and the parts of the program that only compute
      a value for it: binders, tracker and predictor. */
  datatype Context = Context(
    feed: string,
    releaseId: string,
    policy: Policy,
    entries: KeyRef -> seq<KeyEntry>,
    trip: TripId -> Trip,
    runsOn: (string, int) -> bool,
    run: (Trip, int) -> Trip,
    bind: (KeyRef, int, Option<int>) -> Found,
    inferTrip: (KeyRef, Episode, Observation) -> Found,
    nextEpisode: (Option<Episode>, Observation) -> Option<Episode>,
    confirms: (Binding, Episode) -> bool,
    span: (Trip, JourneyKey) -> (int, int),
    inWindow: (Match, int) -> bool,
    preTripAfterEndIsStale: (string, string) -> bool,
    atOriginOrMoving: (Trip, int, Option<Position>, Position, int) -> bool,
    plannedForLaterDay: (int, int) -> bool,
    pastFirstStop: (Trip, int, Position) -> bool,
    track: (Instance, Trip, Observation) -> Tracking,
    terminus: Instance -> Option<Interval>,
    estimate: (Instance, int) -> (int -> Estimate),
    stationOf: string -> Option<string>,
    instantOf: (int, int) -> int)

  /** A trip of this release, well laid, under its own ID. */
  ghost predicate Known(trip: Trip, ctx: Context) {
    WellLaid(trip) && trip.calls != [] && ctx.trip(trip.tripId) == trip
  }

  ghost predicate Proper(found: Found, ctx: Context) {
    found.Matched? ==> Known(found.m.trip, ctx)
  }

  /** What the core may rely on: binders name trips of the release, and the tracker names calls of
      the instance it is given. */
  ghost predicate Sound(ctx: Context) {
    && (forall key, at, day :: Proper(ctx.bind(key, at, day), ctx))
    && (forall line, episode, o :: Proper(ctx.inferTrip(line, episode, o), ctx))
    && (forall instance, trip, o, c :: c in ctx.track(instance, trip, o).crossings ==> c.call < |instance.calls|)
  }

  // ----- what holds of a state -----------------------------------------------------------------

  /** No two calls share place and visit. */
  ghost predicate CallsUnique(calls: seq<CallState>) {
    forall i, j :: 0 <= i < j < |calls| ==> calls[i].location != calls[j].location || calls[i].visit != calls[j].visit
  }

  /** An instance stands for its journey, with calls told apart by place and visit and with public
      journeys that begin on calls. */
  ghost predicate Standing(instance: Instance, journey: JourneyKey) {
    instance.journey == journey && Anchored(instance.journeys) && instance.calls != [] && CallsUnique(instance.calls)
  }

  /** A binding names a journey that has an instance, and a trip of the release. */
  ghost predicate Names(binding: Binding, instances: map<JourneyKey, Instance>, ctx: Context) {
    binding.journey in instances && Known(ctx.trip(binding.tripId), ctx)
  }

  ghost predicate BindingSafe(vehicle: VehicleState, instances: map<JourneyKey, Instance>, ctx: Context) {
    vehicle.binding.Some? ==> Names(vehicle.binding.value, instances, ctx)
  }

  /** The invariant of every reachable state. */
  ghost predicate Inv(s: State, ctx: Context) {
    && s.feed == ctx.feed
    && (forall j <- s.instances :: Standing(s.instances[j], j))
    && (forall v <- s.vehicles :: BindingSafe(s.vehicles[v], s.instances, ctx))
  }

  // ----- binding -------------------------------------------------------------------------------

  function FirstMatch(keys: seq<KeyRef>, at: int, day: Option<int>, ctx: Context): Found {
    if keys == [] then Missed(AmbiguousKey)
    else
      var found := ctx.bind(keys[0], at, day);
      if found.Matched? then found else FirstMatch(keys[1..], at, day, ctx)
  }

  /** The journey of a national key finding the same trip on the same day. */
  function NationalName(keys: seq<KeyRef>, m: Match, at: int, day: Option<int>, ctx: Context): JourneyKey {
    if keys == [] then m.journey
    else
      var found := ctx.bind(keys[0], at, day);
      if keys[0].namespace in IDENTITY_NAMESPACES && found.Matched? && found.m.trip.tripId == m.trip.tripId
         && found.m.journey.day == m.journey.day
      then found.m.journey
      else NationalName(keys[1..], m, at, day, ctx)
  }

  /** The first key decides, unless it is ambiguous: then the first further key that finds a journey. */
  function Bind(o: Observation, ctx: Context, at: int): Found {
    var keys, day := o.facts.keys, o.facts.serviceDay;
    if keys == [] then Missed(NoKey)
    else
      var first := ctx.bind(keys[0], at, day);
      var result := if first == Missed(AmbiguousKey) then FirstMatch(keys[1..], at, day, ctx) else first;
      if result.Missed? || result.m.journey.namespace in IDENTITY_NAMESPACES then result
      else Matched(result.m.(journey := NationalName(keys, result.m, at, day, ctx)))
  }

  function MatchOf(binding: Binding, ctx: Context): Match {
    var trip := ctx.trip(binding.tripId);
    var span := ctx.span(trip, binding.journey);
    Match(binding.journey, trip, span.0, span.1)
  }

  /** The vehicle says it waits for departure though the trip should be over, and its source forgets to clear keys. */
  predicate Stale(m: Match, o: Observation, ctx: Context) {
    ctx.preTripAfterEndIsStale(o.source, o.channel) &&
    o.facts.sourceState == Some(SOURCE_PRE_TRIP) && o.At() > m.end
  }

  /** Whether a keyed binding goes on with this report of the same key. */
  predicate Admits(binding: Binding, o: Observation, ctx: Context) {
    ctx.inWindow(MatchOf(binding, ctx), o.At()) && !Stale(MatchOf(binding, ctx), o, ctx)
  }

  function Continued(previous: Option<VehicleState>, key: KeyRef, o: Observation, s: State, ctx: Context)
    : Option<Binding>
  {
    if previous.None? || previous.value.binding.None? || previous.value.tripKey != Some(key) then None
    else
      var binding := previous.value.binding.value;
      if binding.journey !in s.instances || !Admits(binding, o, ctx) then None else Some(binding)
  }

  function ContinuedEpisode(previous: Option<VehicleState>, episode: Episode, at: int, s: State, ctx: Context)
    : Option<Binding>
  {
    if previous.None? || previous.value.binding.None? || previous.value.binding.value.how != Inferred then None
    else if previous.value.episode.None? || previous.value.episode.value.startedAt != episode.startedAt then None
    else
      var binding := previous.value.binding.value;
      if binding.journey !in s.instances || !ctx.inWindow(MatchOf(binding, ctx), at) then None else Some(binding)
  }

  function Confirm(binding: Binding, episode: Episode, ctx: Context): Binding {
    if !binding.confirmed && ctx.confirms(binding, episode) then binding.(confirmed := true) else binding
  }

  // ----- instances -----------------------------------------------------------------------------

  function CallStates(trip: Trip): (r: seq<CallState>)
    ensures |r| == |trip.calls|
  {
    seq(|trip.calls|, i requires 0 <= i < |trip.calls| =>
      CallState(trip.calls[i].sequence, trip.calls[i].location, trip.calls[i].visit, None, None, None, None,
                Scheduled, None, None, None, trip.calls[i].passenger, None))
  }

  function NewInstance(m: Match, ctx: Context, o: Observation): Instance {
    Instance(m.journey, ctx.releaseId, m.trip.tripId, m.trip.mode, PreTrip, CallStates(m.trip),
             Freshness(o.At(), o.receivedAt, false, false), None, None, None, map[],
             JourneySpansOf(ctx.feed, m.trip, m.journey.day), PartSpans(m.trip), None, [], 0)
  }

  datatype Stepped = Stepped(state: State, effects: seq<Effect>)

  /** The first binding of a journey gives it an instance and history its snapshots; later ones change nothing. */
  function Open(s: State, m: Match, ctx: Context, o: Observation): Stepped
    requires WellLaid(m.trip)
  {
    if m.journey in s.instances then Stepped(s, [])
    else
      var instance := NewInstance(m, ctx, o);
      LaidSpansCover(ctx.feed, m.trip, m.journey.day);
      Stepped(s.(instances := s.instances[m.journey := instance]),
              SnapshotsOf(m.journey, instance.journeys, m.trip, ctx.releaseId, o.At()))
  }

  predicate BoundTo(vehicle: VehicleState, journey: JourneyKey) {
    vehicle.binding.Some? && vehicle.binding.value.journey == journey
  }

  /** An unfinished journey without progress that no other vehicle is bound to goes when `vehicle`'s key is stale. */
  function DropUnstarted(s: State, journey: JourneyKey, vehicle: VehicleId): State {
    if journey !in s.instances || s.instances[journey].progress.Some? || s.instances[journey].lifecycle == Finished
    then s
    else if exists v <- s.vehicles :: v != vehicle && BoundTo(s.vehicles[v], journey) then s
    else s.(instances := s.instances - {journey}, dirty := s.dirty - {journey})
  }

  function LeadOf(instance: Instance, source: string): Option<Lead> {
    if instance.lead.Some? && instance.lead.value.vehicle.source == source then instance.lead
    else if source in instance.sourceLeads then Some(instance.sourceLeads[source])
    else None
  }

  function WithLead(instance: Instance, vehicle: VehicleId, at: int): Instance {
    if instance.lead.None? || instance.lead.value.vehicle.source == vehicle.source
    then instance.(lead := Some(Lead(vehicle, at)))
    else instance.(sourceLeads := instance.sourceLeads[vehicle.source := Lead(vehicle, at)])
  }

  /** The vehicle leads for its source: none led yet, it did, or the one that did has gone quiet. */
  predicate Leads(instance: Instance, vehicle: VehicleId, at: int, ctx: Context) {
    var lead := LeadOf(instance, vehicle.source);
    lead.None? || lead.value.vehicle == vehicle || at - lead.value.seen > ctx.policy.positionFresh
  }

  predicate MissedDeparture(trip: Trip, day: int, o: Observation, start: int, ctx: Context) {
    o.facts.sourceDeparture.Some? && o.facts.position.Some? && o.At() >= start &&
    ctx.plannedForLaterDay(o.facts.sourceDeparture.value, start) &&
    ctx.pastFirstStop(trip, day, o.facts.position.value)
  }

  /** Whether the observation shows the trip started. */
  predicate Started(trip: Trip, day: int, o: Observation, start: int, before: Option<Position>, ctx: Context) {
    if o.facts.sourceState.None? then o.At() >= start
    else
      (o.facts.sourceState.value == SOURCE_RUNNING &&
       (o.facts.position.None? || ctx.atOriginOrMoving(trip, day, before, o.facts.position.value, o.At())))
      || MissedDeparture(trip, day, o, start, ctx)
  }

  function LifecycleAfter(instance: Instance, trip: Trip, o: Observation, start: int, before: Option<Position>, ctx: Context)
    : Lifecycle
  {
    if instance.lifecycle !in {PreTrip, Cancelled} then instance.lifecycle
    else if Started(trip, instance.journey.day, o, start, before, ctx) then Running
    else instance.lifecycle
  }

  // ----- tracking ------------------------------------------------------------------------------

  function WithNews(call: CallState, news: CallNews): CallState {
    call.(arrival := news.arrival, departure := news.departure, passedArrival := news.passedArrival,
          passedDeparture := news.passedDeparture)
  }

  function Tracked(instance: Instance, t: Tracking): (r: Instance)
    ensures |r.calls| == |instance.calls|
  {
    instance.(
      calls := seq(|instance.calls|, i requires 0 <= i < |instance.calls| =>
                 if i in t.news then WithNews(instance.calls[i], t.news[i]) else instance.calls[i]),
      lifecycle := if t.finishes then Finished
                   else if t.starts && instance.lifecycle == PreTrip then Running
                   else instance.lifecycle,
      progress := t.progress,
      track := t.track,
      freshness := t.freshness,
      trackSource := t.trackSource,
      rest := t.rest)
  }

  function CrossingEvents(instance: Instance, crossings: seq<Crossing>, source: string): (r: seq<HistoryEvent>)
    requires Anchored(instance.journeys)
    requires forall c <- crossings :: c.call < |instance.calls|
    ensures |r| == |crossings|
  {
    seq(|crossings|, k requires 0 <= k < |crossings| =>
      assert crossings[k] in crossings;
      var c := crossings[k];
      var public := PublicCall(instance.journey, instance.journeys, instance.calls, c.call, c.kind);
      WriteEvent(public.0, instance.calls[c.call].location, public.1, c.kind, c.interval, source))
  }

  function CancellationRecords(instance: Instance, source: string, at: int, cancelled: bool): (r: seq<Effect>)
    ensures |r| == |Publics(instance)|
  {
    var publics := Publics(instance);
    seq(|publics|, i requires 0 <= i < |publics| => RecordCancellation(publics[i], source, at, cancelled))
  }

  function Assignments(instance: Instance, vehicle: VehicleId, at: int): (r: seq<Effect>)
    ensures forall e <- r :: e.AssignVehicle?
  {
    var publics := Publics(instance);
    seq(|publics|, i requires 0 <= i < |publics| => AssignVehicle(vehicle, publics[i], at))
  }

  datatype Moved = Moved(instance: Instance, effects: seq<Effect>, dirty: bool)

  /** An observation of the lead vehicle applied to its journey: a cancelled journey seen running
      is restored with fresh calls, one not seen running stays as it is. Events wait in `held`
      until an inferred binding is confirmed. */
  function Drive(instance: Instance, trip: Trip, o: Observation, binding: Binding, before: Option<Position>, ctx: Context)
    : Moved
    requires Anchored(instance.journeys) && Sound(ctx)
  {
    var start := ctx.span(trip, binding.journey).0;
    var lifecycle := LifecycleAfter(instance, trip, o, start, before, ctx);
    var restored := instance.lifecycle == Cancelled && lifecycle != Cancelled;
    var live := instance.(lifecycle := lifecycle, calls := if restored then CallStates(trip) else instance.calls);
    var records := if restored then CancellationRecords(instance, o.source, o.At(), false) else [];
    if lifecycle == Cancelled then Moved(live, [], false)
    else
      var t := ctx.track(live, trip, o);
      var tracked := Tracked(live, t);
      var events := CrossingEvents(live, t.crossings, o.source);
      if !binding.confirmed then Moved(tracked.(held := tracked.held + events), records, true)
      else Moved(tracked.(held := []), records + tracked.held + events, true)
  }

  // ----- vehicles ------------------------------------------------------------------------------

  /** Position and time of the fix shown. Only a later fix is taken over, and its time only if the vehicle has
      moved. */
  function Fix(previous: Option<VehicleState>, position: Option<Position>, at: int): (Option<Position>, Option<int>) {
    if previous.None? || previous.value.position.None? || previous.value.positionAt.None?
    then (position, if position.None? then None else Some(at))
    else
      var held, heldAt := previous.value.position.value, previous.value.positionAt.value;
      if position.None? || at <= heldAt then (Some(held), Some(heldAt))
      else if position.value.lat == held.lat && position.value.lon == held.lon then (position, Some(heldAt))
      else (position, Some(at))
  }

  /** The time a stretch of one episode or one binding was first recorded; this observation's, if it begins one. */
  function Since(previous: Option<VehicleState>, o: Observation, binding: Option<Binding>, episode: Option<Episode>): int {
    if previous.Some? && episode.Some? && previous.value.episode.Some?
       && previous.value.episode.value.startedAt == episode.value.startedAt
    then previous.value.since
    else if previous.Some? && episode.None? && binding.Some? && previous.value.binding.Some?
            && previous.value.binding.value.journey == binding.value.journey
            && previous.value.binding.value.boundAt == binding.value.boundAt
    then previous.value.since
    else o.receivedAt
  }

  function VehicleBefore(s: State, v: VehicleId): Option<VehicleState> {
    if v in s.vehicles then Some(s.vehicles[v]) else None
  }

  function VehicleAfter(
    s: State, o: Observation, v: VehicleId, status: VehicleStatus, key: Option<KeyRef>, binding: Option<Binding>,
    reason: Option<Reason>, episode: Option<Episode>): VehicleState
  {
    var previous := VehicleBefore(s, v);
    var fix := Fix(previous, o.facts.position, o.At());
    VehicleState(v, status, o.At(), key, binding, fix.0, fix.1, reason, episode, o.facts,
                 Since(previous, o, binding, episode))
  }

  function SetVehicle(s: State, after: VehicleState): State {
    s.(vehicles := s.vehicles[after.vehicle := after])
  }

  function StatusOf(lifecycle: Lifecycle): VehicleStatus {
    match lifecycle
    case Forecast => Positioning
    case PreTrip => Positioning
    case Cancelled => Positioning
    case Finished => Layover
    case Running => OnTrip
  }

  // ----- one observation -----------------------------------------------------------------------

  function VehicleOf(o: Observation): Option<VehicleId> {
    if o.facts.vehicle.None? then None else Some(VehicleId(o.source, o.facts.vehicle.value))
  }

  /** How a vehicle's observation is bound: to a journey that now has an instance, or not. */
  datatype Choice =
    | Bound(stepped: Stepped, binding: Binding)
    | NotBound(state: State, reason: Reason)

  function BindNew(s: State, m: Match, v: VehicleId, how: BindingMethod, ctx: Context, o: Observation): Choice
    requires WellLaid(m.trip)
  {
    var opening := Open(s, m, ctx, o);
    var binding := Binding(v, m.journey, m.trip.tripId, how, o.At(), how == Keyed);
    Bound(Stepped(opening.state,
                  opening.effects + Assignments(opening.state.instances[m.journey], v, o.At())), binding)
  }

  function ChooseKeyed(s: State, o: Observation, v: VehicleId, key: KeyRef, ctx: Context): Choice
    requires Sound(ctx)
  {
    var continued := Continued(VehicleBefore(s, v), key, o, s, ctx);
    if continued.Some? then Bound(Stepped(s, []), continued.value)
    else
      BindProper(o, ctx, o.At());
      match Bind(o, ctx, o.At())
      case Missed(reason) => NotBound(s, reason)
      case Matched(m) =>
        if Stale(m, o, ctx) then NotBound(DropUnstarted(s, m.journey, v), StaleKey)
        else BindNew(s, m, v, Keyed, ctx, o)
  }

  function ChooseInferred(s: State, o: Observation, v: VehicleId, line: KeyRef, episode: Episode, ctx: Context): Choice
    requires Sound(ctx)
  {
    var continued := ContinuedEpisode(VehicleBefore(s, v), episode, o.At(), s, ctx);
    if continued.Some? then Bound(Stepped(s, []), Confirm(continued.value, episode, ctx))
    else
      match ctx.inferTrip(line, episode, o)
      case Missed(reason) => NotBound(s, reason)
      case Matched(m) =>
        assert Proper(ctx.inferTrip(line, episode, o), ctx);
        var choice := BindNew(s, m, v, Inferred, ctx, o);
        choice.(binding := Confirm(choice.binding, episode, ctx))
  }

  lemma {:induction false} FirstMatchProper(keys: seq<KeyRef>, at: int, day: Option<int>, ctx: Context)
    requires Sound(ctx)
    ensures Proper(FirstMatch(keys, at, day, ctx), ctx)
  {
    if keys != [] {
      FirstMatchProper(keys[1..], at, day, ctx);
    }
  }

  /** Whatever key a match is found by and whatever key names it, its trip is of the release. */
  lemma BindProper(o: Observation, ctx: Context, at: int)
    requires Sound(ctx)
    ensures Proper(Bind(o, ctx, at), ctx)
  {
    var keys, day := o.facts.keys, o.facts.serviceDay;
    if keys != [] {
      assert Proper(ctx.bind(keys[0], at, day), ctx);
      FirstMatchProper(keys[1..], at, day, ctx);
    }
  }

  // ----- release switch: finding a journey again -----------------------------------------------

  function ResolveAmong(entries: seq<KeyEntry>, journey: JourneyKey, ctx: Context): Option<Trip> {
    if entries == [] then None
    else
      var trip := ctx.trip(Published(entries[0].publicId));
      if entries[0].ValidOn(journey.day) && ctx.runsOn(trip.serviceId, journey.day)
      then Some(ctx.run(trip, journey.day))
      else ResolveAmong(entries[1..], journey, ctx)
  }

  /** What a journey runs as: the first of its key's entries valid and running that day, a part as its run. */
  function Resolve(journey: JourneyKey, ctx: Context): Option<Trip> {
    ResolveAmong(ctx.entries(KeyRef(journey.namespace, journey.key)), journey, ctx)
  }

  /** What a switch relies on: the live journeys that are found again run as trips of the release. */
  ghost predicate Resolvable(s: State, ctx: Context) {
    forall j <- s.instances | Resolve(j, ctx).Some? :: Known(Resolve(j, ctx).value, ctx)
  }
}
