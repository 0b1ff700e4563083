/** The operations on the realtime state: an observation, a board row, a cancellation, the emit
    tick's housekeeping and estimates, and the move onto a new release. */
module CoreSteps {
  import opened Model
  import opened Runs
  import opened RunLayout
  import opened Core

  // ----- an observation of a vehicle -----------------------------------------------------------

  /** The invariant while vehicle `v` is being rebound: its old binding may dangle. */
  ghost predicate InvBut(s: State, v: VehicleId, ctx: Context) {
    && s.feed == ctx.feed
    && (forall j <- s.instances :: Standing(s.instances[j], j))
    && (forall w <- s.vehicles :: w != v ==> BindingSafe(s.vehicles[w], s.instances, ctx))
  }

  lemma NewInstanceStands(m: Match, ctx: Context, o: Observation)
    requires WellLaid(m.trip) && m.trip.calls != []
    ensures Standing(NewInstance(m, ctx, o), m.journey)
  {
    LaidSpansCover(ctx.feed, m.trip, m.journey.day);
    TripCallsUnique(m.trip);
  }

  lemma TripCallsUnique(trip: Trip)
    requires WellLaid(trip)
    ensures CallsUnique(CallStates(trip))
  {
    CountedVisitsUnique(trip.calls);
  }

  lemma OpenKeeps(s: State, m: Match, ctx: Context, o: Observation)
    requires WellLaid(m.trip)
    ensures var after := Open(s, m, ctx, o).state;
            after == s.(instances := if m.journey in s.instances then s.instances
                                     else s.instances[m.journey := NewInstance(m, ctx, o)])
  {
  }

  lemma OpenSafe(s: State, m: Match, ctx: Context, o: Observation)
    requires Inv(s, ctx) && Known(m.trip, ctx)
    ensures var after := Open(s, m, ctx, o).state; Inv(after, ctx) && m.journey in after.instances
  {
    OpenKeeps(s, m, ctx, o);
    NewInstanceStands(m, ctx, o);
    var after := Open(s, m, ctx, o).state;
    forall v | v in after.vehicles ensures BindingSafe(after.vehicles[v], after.instances, ctx) {
      assert BindingSafe(s.vehicles[v], s.instances, ctx);
    }
  }

  lemma DropSafe(s: State, journey: JourneyKey, v: VehicleId, ctx: Context)
    requires Inv(s, ctx)
    ensures InvBut(DropUnstarted(s, journey, v), v, ctx)
  {
  }

  lemma ChooseKeyedSafe(s: State, o: Observation, v: VehicleId, key: KeyRef, ctx: Context)
    requires Sound(ctx) && Inv(s, ctx)
    ensures match ChooseKeyed(s, o, v, key, ctx)
            case Bound(stepped, binding) => Inv(stepped.state, ctx) && Names(binding, stepped.state.instances, ctx)
            case NotBound(state, _) => InvBut(state, v, ctx)
  {
    if Continued(VehicleBefore(s, v), key, o, s, ctx).None? {
      BindProper(o, ctx, o.At());
      match Bind(o, ctx, o.At())
      case Missed(_) =>
      case Matched(m) =>
        OpenSafe(s, m, ctx, o);
        DropSafe(s, m.journey, v, ctx);
    } else {
      assert BindingSafe(s.vehicles[v], s.instances, ctx);
    }
  }

  lemma ChooseInferredSafe(s: State, o: Observation, v: VehicleId, line: KeyRef, episode: Episode, ctx: Context)
    requires Sound(ctx) && Inv(s, ctx)
    ensures match ChooseInferred(s, o, v, line, episode, ctx)
            case Bound(stepped, binding) => Inv(stepped.state, ctx) && Names(binding, stepped.state.instances, ctx)
            case NotBound(state, _) => InvBut(state, v, ctx)
  {
    if ContinuedEpisode(VehicleBefore(s, v), episode, o.At(), s, ctx).None? {
      match ctx.inferTrip(line, episode, o)
      case Missed(_) =>
      case Matched(m) =>
        assert Proper(ctx.inferTrip(line, episode, o), ctx);
        OpenSafe(s, m, ctx, o);
    } else {
      assert BindingSafe(s.vehicles[v], s.instances, ctx);
    }
  }

  /** The same fix again changes nothing. */
  predicate Repeated(previous: Option<VehicleState>, o: Observation) {
    previous.Some? && o.observedAt.Some? && previous.value.lastSeen == o.observedAt.value
    && previous.value.facts == o.facts
  }

  function Unbind(s: State, o: Observation, v: VehicleId, key: Option<KeyRef>, reason: Reason, episode: Option<Episode>)
    : Stepped
  {
    var status := if reason == NotInService then OutOfService else Unmatched;
    var after := VehicleAfter(s, o, v, status, key, None, Some(reason), episode);
    Stepped(SetVehicle(s, after), [ObservationResult(None, Some(reason), [], Some(after.since))])
  }

  /** What a bound observation does to its journey: it moves if the vehicle leads. */
  function MoveOf(s: State, o: Observation, v: VehicleId, binding: Binding, before: Option<Position>, ctx: Context): Moved
    requires Sound(ctx) && Inv(s, ctx) && Names(binding, s.instances, ctx)
  {
    var instance := s.instances[binding.journey];
    assert Standing(instance, binding.journey);
    if Leads(instance, v, o.At(), ctx)
    then Drive(WithLead(instance, v, o.At()), ctx.trip(binding.tripId), o, binding, before, ctx)
    else Moved(instance, [], false)
  }

  /** The journey moved and the vehicle recorded. */
  function Conclude(
    s: State, moved: Moved, o: Observation, v: VehicleId, key: Option<KeyRef>, binding: Binding, episode: Option<Episode>)
    : Stepped
  {
    var driven := s.(instances := s.instances[binding.journey := moved.instance],
                     dirty := if moved.dirty then s.dirty + {binding.journey} else s.dirty);
    var after := VehicleAfter(s, o, v, StatusOf(moved.instance.lifecycle), key, Some(binding), None, episode);
    Stepped(SetVehicle(driven, after),
            moved.effects + [ObservationResult(Some(binding.journey), None, Publics(moved.instance), Some(after.since))])
  }

  function Follow(
    s: State, o: Observation, v: VehicleId, key: Option<KeyRef>, binding: Binding, episode: Option<Episode>,
    before: Option<Position>, ctx: Context): Stepped
    requires Sound(ctx) && Inv(s, ctx) && Names(binding, s.instances, ctx)
  {
    Conclude(s, MoveOf(s, o, v, binding, before, ctx), o, v, key, binding, episode)
  }

  function StepVehicle(s: State, o: Observation, v: VehicleId, ctx: Context): Stepped
    requires Sound(ctx) && Inv(s, ctx)
  {
    var previous := VehicleBefore(s, v);
    var before := if previous.Some? then previous.value.position else None;
    if Repeated(previous, o) then Stepped(s, [])
    else if o.facts.keys != [] then
      var key := o.facts.keys[0];
      ChooseKeyedSafe(s, o, v, key, ctx);
      match ChooseKeyed(s, o, v, key, ctx)
      case NotBound(state, reason) => Unbind(state, o, v, Some(key), reason, None)
      case Bound(stepped, binding) =>
        var followed := Follow(stepped.state, o, v, Some(key), binding, None, before, ctx);
        Stepped(followed.state, stepped.effects + followed.effects)
    else
      var prior := if previous.Some? then previous.value.episode else None;
      var episode := if o.facts.line.Some? then ctx.nextEpisode(prior, o) else None;
      if episode.None? then Unbind(s, o, v, None, NoKey, None)
      else
        ChooseInferredSafe(s, o, v, o.facts.line.value, episode.value, ctx);
        match ChooseInferred(s, o, v, o.facts.line.value, episode.value, ctx)
        case NotBound(state, reason) => Unbind(state, o, v, None, reason, episode)
        case Bound(stepped, binding) =>
          var followed := Follow(stepped.state, o, v, None, binding, episode, before, ctx);
          Stepped(followed.state, stepped.effects + followed.effects)
  }

  // ----- board rows and cancellations ----------------------------------------------------------

  /** The call a board row names: a passenger call at the station scheduled at that time. */
  function BoardCall(calls: seq<Call>, day: int, fact: PlatformFact, ctx: Context): (i: Option<nat>)
    ensures i.Some? ==> i.value < |calls|
    decreases |calls|
  {
    if calls == [] then None
    else
      var call := calls[0];
      var seconds := if fact.kind == Arrival then call.arrival else call.departure;
      if call.passenger && ctx.stationOf(call.location) == Some(fact.station) && seconds.Some?
         && ctx.instantOf(day, seconds.value) == fact.scheduled
      then Some(0)
      else
        match BoardCall(calls[1..], day, fact, ctx)
        case None => None
        case Some(i) => Some(i + 1)
  }

  /** An assignment takes the place of another, except of one that says the same. */
  function WithPlatform(instance: Instance, i: nat, platform: Platform, heardAt: int): Instance
    requires i < |instance.calls|
  {
    var current := instance.calls[i].platform;
    var changed := current.None? || current.value.value != platform.value || current.value.numbering != platform.numbering;
    instance.(calls := instance.calls[i := instance.calls[i].(platform := if changed then Some(platform) else current)],
              freshness := instance.freshness.(heardAt := heardAt))
  }

  /** Sets the call found, where the instance has it; `Keyed.BoardRowsPlaced` says that it does. */
  function AssignPlatform(opening: Stepped, m: Match, o: Observation, fact: PlatformFact, ctx: Context): Stepped
    requires m.journey in opening.state.instances && Anchored(opening.state.instances[m.journey].journeys)
  {
    var s, instance := opening.state, opening.state.instances[m.journey];
    var result := ObservationResult(Some(m.journey), None, Publics(instance), None);
    match BoardCall(m.trip.calls, m.journey.day, fact, ctx)
    case None => Stepped(s, opening.effects + [Unresolved(fact.station), result])
    case Some(i) =>
      if i >= |instance.calls| then opening
      else
        var platform := Platform(fact.value, fact.numbering, o.receivedAt, o.source);
        var public := PublicCall(instance.journey, instance.journeys, instance.calls, i, fact.kind);
        Stepped(s.(instances := s.instances[m.journey := WithPlatform(instance, i, platform, o.receivedAt)],
                   dirty := s.dirty + {m.journey}),
                opening.effects +
                [RecordPlatform(public.0, instance.calls[i].location, public.1, fact.kind, platform), result])
  }

  /** A board row binds like an observation, at the time it announces, and names the platform of one call. */
  function ApplyPlatform(s: State, o: Observation, fact: PlatformFact, ctx: Context): Stepped
    requires Sound(ctx) && Inv(s, ctx)
  {
    BindProper(o, ctx, fact.scheduled);
    match Bind(o, ctx, fact.scheduled)
    case Missed(reason) => Stepped(s, [ObservationResult(None, Some(reason), [], None)])
    case Matched(m) =>
      OpenSafe(s, m, ctx, o);
      assert Standing(Open(s, m, ctx, o).state.instances[m.journey], m.journey);
      AssignPlatform(Open(s, m, ctx, o), m, o, fact, ctx)
  }

  predicate Cancellable(instance: Instance) {
    instance.lifecycle in {Forecast, PreTrip, Cancelled} && |Publics(instance)| == 1
  }

  function CancelledInstance(instance: Instance, o: Observation): (r: Instance)
    ensures |r.calls| == |instance.calls|
  {
    instance.(lifecycle := Cancelled,
              calls := seq(|instance.calls|, i requires 0 <= i < |instance.calls| =>
                         instance.calls[i].Estimated(None, None, CancelledCall, None)),
              freshness := instance.freshness.(updatedAt := o.At(), heardAt := o.receivedAt))
  }

  function CancelJourney(opening: Stepped, journey: JourneyKey, o: Observation): Stepped
    requires journey in opening.state.instances
  {
    var s, instance := opening.state, opening.state.instances[journey];
    var result := ObservationResult(Some(journey), None, Publics(instance), Some(o.receivedAt));
    if Cancellable(instance)
    then Stepped(s.(instances := s.instances[journey := CancelledInstance(instance, o)], dirty := s.dirty + {journey}),
                 opening.effects + CancellationRecords(instance, o.source, o.At(), true) + [result])
    else Stepped(s, opening.effects + [] + [result])
  }

  /** A source cancelling the trip its keys name, unless a vehicle is already seen running it. */
  function Cancel(s: State, o: Observation, ctx: Context): Stepped
    requires Sound(ctx) && Inv(s, ctx)
  {
    BindProper(o, ctx, o.At());
    match Bind(o, ctx, o.At())
    case Missed(reason) => Stepped(s, [ObservationResult(None, Some(reason), [], None)])
    case Matched(m) =>
      OpenSafe(s, m, ctx, o);
      CancelJourney(Open(s, m, ctx, o), m.journey, o)
  }

  /** One observation through the core; one of another feed is refused. */
  function Step(s: State, o: Observation, ctx: Context): Stepped
    requires Sound(ctx) && Inv(s, ctx)
    requires o.feed == s.feed
  {
    match VehicleOf(o)
    case Some(v) => StepVehicle(s, o, v, ctx)
    case None =>
      if o.facts.platform.Some? then ApplyPlatform(s, o, o.facts.platform.value, ctx)
      else if o.facts.cancelled then Cancel(s, o, ctx)
      else Stepped(s, [ObservationResult(None, Some(NoKey), [], None)])
  }

  // ----- the emit tick -------------------------------------------------------------------------

  function FirstPredicted(calls: seq<CallState>): Option<CallState> {
    if calls == [] then None
    else if calls[0].status == Predicted then Some(calls[0])
    else FirstPredicted(calls[1..])
  }

  /** Whether a running road journey's first predicted time is before `now`. */
  predicate Behind(instance: Instance, now: int) {
    instance.lifecycle == Running && instance.parts == [] &&
    var first := FirstPredicted(instance.calls);
    first.Some? &&
    var at := Else(first.value.estimatedArrival, first.value.estimatedDeparture);
    at.Some? && at.value < now
  }

  function EstimatedInstance(instance: Instance, estimate: int -> Estimate): (r: Instance)
    ensures |r.calls| == |instance.calls|
  {
    instance.(calls := seq(|instance.calls|, i requires 0 <= i < |instance.calls| =>
      var e := estimate(i);
      instance.calls[i].Estimated(e.arrival, e.departure, e.status, e.sourceClass)))
  }

  /** Dirty journeys and those behind their own prediction are estimated anew, cancelled ones left alone. */
  function EstimateAll(s: State, now: int, ctx: Context): State {
    s.(instances := map j | j in s.instances ::
                      if (j in s.dirty || Behind(s.instances[j], now)) && s.instances[j].lifecycle != Cancelled
                      then EstimatedInstance(s.instances[j], ctx.estimate(s.instances[j], now))
                      else s.instances[j],
       dirty := {})
  }

  function Remembered(s: State, now: int, ctx: Context): map<VehicleId, VehicleState> {
    map v | v in s.vehicles && now - s.vehicles[v].lastSeen <= ctx.policy.forgetAfter :: s.vehicles[v]
  }

  predicate HeldByVehicle(vehicles: map<VehicleId, VehicleState>, journey: JourneyKey) {
    exists v <- vehicles :: BoundTo(vehicles[v], journey)
  }

  predicate Unconfirmed(vehicles: map<VehicleId, VehicleState>, journey: JourneyKey) {
    exists v <- vehicles :: BoundTo(vehicles[v], journey) && !vehicles[v].binding.value.confirmed
  }

  /** Half of a span of time, rounded to even. */
  function Half(span: int): int {
    if span % 2 == 0 || (span / 2) % 2 == 0 then span / 2 else span / 2 + 1
  }

  /** A running journey gone quiet just short of its terminus: finished, its arrival inferred. */
  function ArrivedUnseen(instance: Instance, ctx: Context): Option<(Instance, Effect)>
    requires Anchored(instance.journeys) && instance.calls != []
  {
    var last := |instance.calls| - 1;
    var call := instance.calls[last];
    if instance.lifecycle != Running || call.arrival.Some? || call.passedArrival.Some? || instance.track.None?
       || ctx.terminus(instance).None?
    then None
    else
      var interval := ctx.terminus(instance).value;
      var at := interval.lo + Half(interval.hi - interval.lo);
      var public := PublicCall(instance.journey, instance.journeys, instance.calls, last, Arrival);
      Some((instance.(calls := instance.calls[last := call.(passedArrival := Some(at))], lifecycle := Finished),
            WriteEvent(public.0, call.location, public.1, Arrival, interval,
                       if instance.trackSource.Some? then instance.trackSource.value else "")))
  }

  datatype Refreshed = Refreshed(instance: Instance, event: Option<Effect>)

  function RefreshOne(instance: Instance, unconfirmed: bool, now: int, ctx: Context): Refreshed
    requires Anchored(instance.journeys) && instance.calls != []
  {
    var idle := now - instance.freshness.heardAt;
    var live := instance.lifecycle !in {Finished, Cancelled};
    var stale := live && idle > ctx.policy.staleAfter(instance.mode);
    var lost := live && idle > ctx.policy.predictWithoutData(instance.mode);
    if stale == instance.freshness.stale && lost == instance.freshness.lost then Refreshed(instance, None)
    else
      var flagged := instance.(freshness := instance.freshness.(stale := stale, lost := lost));
      if stale && !unconfirmed && instance.held == [] && ArrivedUnseen(flagged, ctx).Some?
      then Refreshed(ArrivedUnseen(flagged, ctx).value.0, Some(ArrivedUnseen(flagged, ctx).value.1))
      else Refreshed(flagged, None)
  }

  ghost predicate AllFit(instances: map<JourneyKey, Instance>) {
    forall j <- instances :: Anchored(instances[j].journeys) && instances[j].calls != []
  }

  lemma InvFits(s: State, ctx: Context)
    requires Inv(s, ctx)
    ensures AllFit(s.instances)
  {
    assert forall j <- s.instances :: Standing(s.instances[j], j);
  }

  function RefreshJourney(s: State, j: JourneyKey, now: int, ctx: Context): Refreshed
    requires AllFit(s.instances) && j in s.instances
  {
    RefreshOne(s.instances[j], Unconfirmed(Remembered(s, now, ctx), j), now, ctx)
  }

  predicate Kept(s: State, j: JourneyKey, now: int, ctx: Context)
    requires j in s.instances
  {
    !(now - s.instances[j].freshness.heardAt > ctx.policy.forgetAfter && !HeldByVehicle(Remembered(s, now, ctx), j))
  }

  /** Housekeeping: forget vehicles and journeys long unseen, flag stale and lost journeys. */
  function Refresh(s: State, now: int, ctx: Context): State
    requires AllFit(s.instances)
  {
    s.(vehicles := Remembered(s, now, ctx),
       instances := map j | j in s.instances && Kept(s, j, now, ctx) :: RefreshJourney(s, j, now, ctx).instance,
       dirty := s.dirty + set j | j in s.instances && Kept(s, j, now, ctx) && RefreshJourney(s, j, now, ctx).event.Some?)
  }

  /** The history effects of `Refresh`, journeys taken in `order`. */
  function RefreshEffects(s: State, now: int, ctx: Context, order: seq<JourneyKey>): seq<Effect>
    requires AllFit(s.instances)
  {
    if order == [] then []
    else
      var before := RefreshEffects(s, now, ctx, order[..|order| - 1]);
      var j := order[|order| - 1];
      if j in s.instances && Kept(s, j, now, ctx) && RefreshJourney(s, j, now, ctx).event.Some?
      then before + [RefreshJourney(s, j, now, ctx).event.value]
      else before
  }

  // ----- the release switch --------------------------------------------------------------------

  /** The last of `calls` with this place and visit. */
  function FindCall(calls: seq<CallState>, place: string, visit: int): (found: Option<CallState>)
    ensures found.Some? ==> found.value in calls && found.value.location == place && found.value.visit == visit
    ensures found.None? ==> forall call <- calls :: call.location != place || call.visit != visit
  {
    if calls == [] then None
    else
      var call := calls[|calls| - 1];
      if call.location == place && call.visit == visit then Some(call)
      else FindCall(calls[..|calls| - 1], place, visit)
  }

  function CarriedCall(before: seq<CallState>, blank: CallState): CallState {
    match FindCall(before, blank.location, blank.visit)
    case None => blank
    case Some(call) => call.(sequence := blank.sequence, passenger := blank.passenger)
  }

  function CarriedCalls(before: seq<CallState>, trip: Trip): (r: seq<CallState>)
    ensures |r| == |trip.calls|
  {
    seq(|trip.calls|, i requires 0 <= i < |trip.calls| => CarriedCall(before, CallStates(trip)[i]))
  }

  function RebasedInstance(instance: Instance, journey: JourneyKey, trip: Trip, ctx: Context): Instance {
    instance.(releaseId := ctx.releaseId, tripId := trip.tripId, calls := CarriedCalls(instance.calls, trip),
              progress := None, track := None,
              journeys := JourneySpansOf(ctx.feed, trip, journey.day), parts := PartSpans(trip))
  }

  function RebasedInstances(s: State, ctx: Context): map<JourneyKey, Instance> {
    map j | j in s.instances && Resolve(j, ctx).Some? :: RebasedInstance(s.instances[j], j, Resolve(j, ctx).value, ctx)
  }

  function RebasedVehicle(vehicle: VehicleState, instances: map<JourneyKey, Instance>): VehicleState {
    if vehicle.binding.None? then vehicle
    else if vehicle.binding.value.journey in instances
    then vehicle.(binding := Some(vehicle.binding.value.(tripId := instances[vehicle.binding.value.journey].tripId)))
    else vehicle.(binding := None, status := Unmatched, reason := Some(NoTrip))
  }

  /** Each live journey becomes what its key names in the release of `ctx`, or goes if it names nothing, and
      with it the bindings of its vehicles. */
  function Rebase(s: State, ctx: Context): State {
    var instances := RebasedInstances(s, ctx);
    s.(instances := instances,
       vehicles := map v | v in s.vehicles :: RebasedVehicle(s.vehicles[v], instances),
       dirty := s.dirty + instances.Keys)
  }

  /** The snapshots of one moved journey. */
  function JourneySnapshots(s: State, ctx: Context, j: JourneyKey): seq<Effect>
    requires Resolvable(s, ctx) && j in s.instances
  {
    if Resolve(j, ctx).None? then []
    else
      var trip := Resolve(j, ctx).value;
      LaidSpansCover(ctx.feed, trip, j.day);
      SnapshotsOf(j, JourneySpansOf(ctx.feed, trip, j.day), trip, ctx.releaseId, s.instances[j].freshness.updatedAt)
  }

  /** The snapshots of the moved journeys, taken in `order`. */
  function RebaseEffects(s: State, ctx: Context, order: seq<JourneyKey>): seq<Effect>
    requires Resolvable(s, ctx)
  {
    if order == [] then []
    else
      var before := RebaseEffects(s, ctx, order[..|order| - 1]);
      var j := order[|order| - 1];
      if j in s.instances then before + JourneySnapshots(s, ctx, j) else before
  }
}
