/** Where binders and the index name one trip for a journey, every instance lies on that trip and every
    binding is to it, over all runs. */
module TripAgreement {
  import opened Model
  import opened Runs
  import opened RunLayout
  import opened Core
  import opened CoreSteps
  import opened CoreInvariant
  import opened CoreRuns

  type TripOf = JourneyKey -> TripId

  ghost predicate Agreed(found: Found, tripOf: TripOf) {
    found.Matched? ==> tripOf(found.m.journey) == found.m.trip.tripId
  }

  /** Binders and `Resolve` name, for a journey, the one trip `tripOf` says it runs as. */
  ghost predicate OneTrip(ctx: Context, tripOf: TripOf) {
    && Sound(ctx)
    && (forall key, at, day :: Agreed(ctx.bind(key, at, day), tripOf))
    && (forall line, episode, o :: Agreed(ctx.inferTrip(line, episode, o), tripOf))
    && (forall journey :: Resolve(journey, ctx).Some? ==> tripOf(journey) == Resolve(journey, ctx).value.tripId)
  }

  /** An instance lies on a trip: its calls follow the trip's and its public journeys and published
      parts are the trip's. */
  ghost predicate Laid(instance: Instance, journey: JourneyKey, ctx: Context) {
    var trip := ctx.trip(instance.tripId);
    && instance.journey == journey
    && trip.tripId == instance.tripId
    && WellLaid(trip)
    && trip.calls != []
    && Follows(instance.calls, trip)
    && instance.journeys == JourneySpansOf(ctx.feed, trip, journey.day)
    && instance.parts == PartSpans(trip)
  }

  ghost predicate LaidOn(instance: Instance, journey: JourneyKey, ctx: Context, tripOf: TripOf) {
    Laid(instance, journey, ctx) && instance.tripId == tripOf(journey)
  }

  ghost predicate BindingAgrees(vehicle: VehicleState, tripOf: TripOf) {
    vehicle.binding.Some? ==> vehicle.binding.value.tripId == tripOf(vehicle.binding.value.journey)
  }

  ghost predicate AlignedBut(s: State, v: Option<VehicleId>, ctx: Context, tripOf: TripOf) {
    && (forall j <- s.instances :: LaidOn(s.instances[j], j, ctx, tripOf))
    && (forall w <- s.vehicles :: Some(w) != v ==> BindingAgrees(s.vehicles[w], tripOf))
  }

  /** Every instance lies on its journey's trip and every binding is to it. */
  ghost predicate Aligned(s: State, ctx: Context, tripOf: TripOf) {
    Inv(s, ctx) && AlignedBut(s, None, ctx, tripOf)
  }

  lemma LaidFits(instance: Instance, journey: JourneyKey, ctx: Context)
    requires Laid(instance, journey, ctx)
    ensures Within(instance.journeys, |instance.calls|)
    ensures |ctx.trip(instance.tripId).calls| == |instance.calls|
  {
    LaidSpansCover(ctx.feed, ctx.trip(instance.tripId), journey.day);
  }

  // ----- binding -------------------------------------------------------------------------------

  lemma {:induction false} FirstMatchAgrees(keys: seq<KeyRef>, at: int, day: Option<int>, ctx: Context, tripOf: TripOf)
    requires OneTrip(ctx, tripOf)
    ensures Agreed(FirstMatch(keys, at, day, ctx), tripOf)
  {
    if keys != [] {
      FirstMatchAgrees(keys[1..], at, day, ctx, tripOf);
    }
  }

  lemma {:induction false} NationalNameAgrees(
    keys: seq<KeyRef>, m: Match, at: int, day: Option<int>, ctx: Context, tripOf: TripOf)
    requires OneTrip(ctx, tripOf) && tripOf(m.journey) == m.trip.tripId
    ensures tripOf(NationalName(keys, m, at, day, ctx)) == m.trip.tripId
  {
    if keys != [] {
      assert Agreed(ctx.bind(keys[0], at, day), tripOf);
      NationalNameAgrees(keys[1..], m, at, day, ctx, tripOf);
    }
  }

  /** Whatever key a match is found by and whatever key names it, it is the journey's own trip. */
  lemma BindAgrees(o: Observation, ctx: Context, at: int, tripOf: TripOf)
    requires OneTrip(ctx, tripOf)
    ensures Agreed(Bind(o, ctx, at), tripOf)
  {
    var keys, day := o.facts.keys, o.facts.serviceDay;
    if keys != [] {
      assert Agreed(ctx.bind(keys[0], at, day), tripOf);
      FirstMatchAgrees(keys[1..], at, day, ctx, tripOf);
      var first := ctx.bind(keys[0], at, day);
      var result := if first == Missed(AmbiguousKey) then FirstMatch(keys[1..], at, day, ctx) else first;
      if result.Matched? {
        NationalNameAgrees(keys, result.m, at, day, ctx, tripOf);
      }
    }
  }

  lemma NewInstanceLaid(m: Match, ctx: Context, o: Observation)
    requires Known(m.trip, ctx)
    ensures Laid(NewInstance(m, ctx, o), m.journey, ctx)
  {
  }

  lemma OpenAligned(s: State, m: Match, ctx: Context, o: Observation, tripOf: TripOf)
    requires Aligned(s, ctx, tripOf) && Known(m.trip, ctx) && tripOf(m.journey) == m.trip.tripId
    ensures var after := Open(s, m, ctx, o).state;
            Aligned(after, ctx, tripOf) && m.journey in after.instances && after.instances[m.journey].tripId == m.trip.tripId
  {
    OpenSafe(s, m, ctx, o);
    OpenKeeps(s, m, ctx, o);
    NewInstanceLaid(m, ctx, o);
  }

  lemma ChooseKeyedAligned(s: State, o: Observation, v: VehicleId, key: KeyRef, ctx: Context, tripOf: TripOf)
    requires OneTrip(ctx, tripOf) && Aligned(s, ctx, tripOf)
    ensures match ChooseKeyed(s, o, v, key, ctx)
            case Bound(stepped, binding) => Aligned(stepped.state, ctx, tripOf) && binding.tripId == tripOf(binding.journey)
            case NotBound(state, _) => AlignedBut(state, Some(v), ctx, tripOf)
  {
    if Continued(VehicleBefore(s, v), key, o, s, ctx).None? {
      BindProper(o, ctx, o.At());
      BindAgrees(o, ctx, o.At(), tripOf);
      match Bind(o, ctx, o.At())
      case Missed(_) =>
      case Matched(m) => OpenAligned(s, m, ctx, o, tripOf);
    } else {
      assert BindingAgrees(s.vehicles[v], tripOf);
    }
  }

  lemma ChooseInferredAligned(
    s: State, o: Observation, v: VehicleId, line: KeyRef, episode: Episode, ctx: Context, tripOf: TripOf)
    requires OneTrip(ctx, tripOf) && Aligned(s, ctx, tripOf)
    ensures match ChooseInferred(s, o, v, line, episode, ctx)
            case Bound(stepped, binding) => Aligned(stepped.state, ctx, tripOf) && binding.tripId == tripOf(binding.journey)
            case NotBound(state, _) => AlignedBut(state, Some(v), ctx, tripOf)
  {
    if ContinuedEpisode(VehicleBefore(s, v), episode, o.At(), s, ctx).None? {
      match ctx.inferTrip(line, episode, o)
      case Missed(_) =>
      case Matched(m) =>
        assert Proper(ctx.inferTrip(line, episode, o), ctx) && Agreed(ctx.inferTrip(line, episode, o), tripOf);
        OpenAligned(s, m, ctx, o, tripOf);
    } else {
      assert BindingAgrees(s.vehicles[v], tripOf);
    }
  }

  // ----- layouts stay --------------------------------------------------------------------------

  /** The parts of an instance no operation but a release switch touches. */
  ghost predicate SameLayout(a: Instance, b: Instance) {
    && a.journey == b.journey && a.tripId == b.tripId && a.journeys == b.journeys && a.parts == b.parts
    && SamePlaces(a.calls, b.calls)
  }

  lemma SameLayoutLaid(a: Instance, b: Instance, journey: JourneyKey, ctx: Context)
    requires Laid(a, journey, ctx) && SameLayout(a, b)
    ensures Laid(b, journey, ctx)
  {
  }

  lemma RestoredPlaces(instance: Instance, journey: JourneyKey, ctx: Context)
    requires Laid(instance, journey, ctx)
    ensures SamePlaces(instance.calls, CallStates(ctx.trip(instance.tripId)))
  {
  }

  lemma TrackedLayout(live: Instance, t: Tracking)
    ensures SameLayout(live, Tracked(live, t))
  {
  }

  lemma DriveLayout(
    instance: Instance, journey: JourneyKey, o: Observation, binding: Binding, before: Option<Position>, ctx: Context)
    requires Sound(ctx) && Laid(instance, journey, ctx) && Anchored(instance.journeys)
    ensures SameLayout(instance, Drive(instance, ctx.trip(instance.tripId), o, binding, before, ctx).instance)
  {
    var trip := ctx.trip(instance.tripId);
    var start := ctx.span(trip, binding.journey).0;
    var lifecycle := LifecycleAfter(instance, trip, o, start, before, ctx);
    var restored := instance.lifecycle == Cancelled && lifecycle != Cancelled;
    var live := instance.(lifecycle := lifecycle, calls := if restored then CallStates(trip) else instance.calls);
    RestoredPlaces(instance, journey, ctx);
    if lifecycle != Cancelled {
      TrackedLayout(live, ctx.track(live, trip, o));
    }
  }

  lemma MoveLayout(
    s: State, o: Observation, v: VehicleId, binding: Binding, before: Option<Position>, ctx: Context, tripOf: TripOf)
    requires OneTrip(ctx, tripOf) && Aligned(s, ctx, tripOf) && Names(binding, s.instances, ctx)
    requires binding.tripId == tripOf(binding.journey)
    ensures SameLayout(s.instances[binding.journey], MoveOf(s, o, v, binding, before, ctx).instance)
  {
    var instance := s.instances[binding.journey];
    assert LaidOn(instance, binding.journey, ctx, tripOf) && Standing(instance, binding.journey);
    if Leads(instance, v, o.At(), ctx) {
      var lead := WithLead(instance, v, o.At());
      assert SameLayout(instance, lead);
      DriveLayout(lead, binding.journey, o, binding, before, ctx);
    }
  }

  /** Replacing one instance by one of the same layout keeps all aligned. */
  lemma ReplaceAligned(
    s: State, journey: JourneyKey, instance: Instance, dirty: set<JourneyKey>, ctx: Context, tripOf: TripOf)
    requires AlignedBut(s, None, ctx, tripOf) && journey in s.instances && SameLayout(s.instances[journey], instance)
    ensures AlignedBut(s.(instances := s.instances[journey := instance], dirty := dirty), None, ctx, tripOf)
  {
    assert LaidOn(s.instances[journey], journey, ctx, tripOf);
    SameLayoutLaid(s.instances[journey], instance, journey, ctx);
  }

  lemma ConcludeAligned(
    s: State, moved: Moved, o: Observation, v: VehicleId, key: Option<KeyRef>, binding: Binding, episode: Option<Episode>,
    ctx: Context, tripOf: TripOf)
    requires AlignedBut(s, None, ctx, tripOf) && binding.journey in s.instances && binding.tripId == tripOf(binding.journey)
    requires SameLayout(s.instances[binding.journey], moved.instance)
    ensures AlignedBut(Conclude(s, moved, o, v, key, binding, episode).state, None, ctx, tripOf)
  {
    ReplaceAligned(s, binding.journey, moved.instance, if moved.dirty then s.dirty + {binding.journey} else s.dirty, ctx, tripOf);
  }

  lemma FollowAligned(
    s: State, o: Observation, v: VehicleId, key: Option<KeyRef>, binding: Binding, episode: Option<Episode>,
    before: Option<Position>, ctx: Context, tripOf: TripOf)
    requires OneTrip(ctx, tripOf) && Aligned(s, ctx, tripOf) && Names(binding, s.instances, ctx)
    requires binding.tripId == tripOf(binding.journey)
    ensures AlignedBut(Follow(s, o, v, key, binding, episode, before, ctx).state, None, ctx, tripOf)
  {
    MoveLayout(s, o, v, binding, before, ctx, tripOf);
    ConcludeAligned(s, MoveOf(s, o, v, binding, before, ctx), o, v, key, binding, episode, ctx, tripOf);
  }

  lemma StepVehicleAligned(s: State, o: Observation, v: VehicleId, ctx: Context, tripOf: TripOf)
    requires OneTrip(ctx, tripOf) && Aligned(s, ctx, tripOf)
    ensures AlignedBut(StepVehicle(s, o, v, ctx).state, None, ctx, tripOf)
  {
    var previous := VehicleBefore(s, v);
    var before := if previous.Some? then previous.value.position else None;
    if !Repeated(previous, o) {
      if o.facts.keys != [] {
        var key := o.facts.keys[0];
        ChooseKeyedSafe(s, o, v, key, ctx);
        ChooseKeyedAligned(s, o, v, key, ctx, tripOf);
        match ChooseKeyed(s, o, v, key, ctx)
        case NotBound(_, _) =>
        case Bound(stepped, binding) => FollowAligned(stepped.state, o, v, Some(key), binding, None, before, ctx, tripOf);
      } else {
        var prior := if previous.Some? then previous.value.episode else None;
        var episode := if o.facts.line.Some? then ctx.nextEpisode(prior, o) else None;
        if episode.Some? {
          ChooseInferredSafe(s, o, v, o.facts.line.value, episode.value, ctx);
          ChooseInferredAligned(s, o, v, o.facts.line.value, episode.value, ctx, tripOf);
          match ChooseInferred(s, o, v, o.facts.line.value, episode.value, ctx)
          case NotBound(_, _) =>
          case Bound(stepped, binding) => FollowAligned(stepped.state, o, v, None, binding, episode, before, ctx, tripOf);
        }
      }
    }
  }

  lemma AssignAligned(opening: Stepped, m: Match, o: Observation, fact: PlatformFact, ctx: Context, tripOf: TripOf)
    requires AlignedBut(opening.state, None, ctx, tripOf) && m.journey in opening.state.instances
    requires Anchored(opening.state.instances[m.journey].journeys)
    ensures AlignedBut(AssignPlatform(opening, m, o, fact, ctx).state, None, ctx, tripOf)
  {
    var instance := opening.state.instances[m.journey];
    match BoardCall(m.trip.calls, m.journey.day, fact, ctx)
    case None =>
    case Some(i) =>
      if i < |instance.calls| {
        var platform := Platform(fact.value, fact.numbering, o.receivedAt, o.source);
        ReplaceAligned(opening.state, m.journey, WithPlatform(instance, i, platform, o.receivedAt),
                       opening.state.dirty + {m.journey}, ctx, tripOf);
      }
  }

  lemma ApplyPlatformAligned(s: State, o: Observation, fact: PlatformFact, ctx: Context, tripOf: TripOf)
    requires OneTrip(ctx, tripOf) && Aligned(s, ctx, tripOf)
    ensures AlignedBut(ApplyPlatform(s, o, fact, ctx).state, None, ctx, tripOf)
  {
    BindProper(o, ctx, fact.scheduled);
    BindAgrees(o, ctx, fact.scheduled, tripOf);
    match Bind(o, ctx, fact.scheduled)
    case Missed(_) =>
    case Matched(m) =>
      OpenAligned(s, m, ctx, o, tripOf);
      assert Standing(Open(s, m, ctx, o).state.instances[m.journey], m.journey);
      AssignAligned(Open(s, m, ctx, o), m, o, fact, ctx, tripOf);
  }

  /** The call a board row names is then one of the instance's. */
  lemma BoardCallWithin(s: State, o: Observation, fact: PlatformFact, ctx: Context, tripOf: TripOf)
    requires OneTrip(ctx, tripOf) && Aligned(s, ctx, tripOf) && Bind(o, ctx, fact.scheduled).Matched?
    ensures var m := Bind(o, ctx, fact.scheduled).m;
            var i := BoardCall(m.trip.calls, m.journey.day, fact, ctx);
            WellLaid(m.trip) && m.journey in Open(s, m, ctx, o).state.instances
            && (i.Some? ==> i.value < |Open(s, m, ctx, o).state.instances[m.journey].calls|)
  {
    BindProper(o, ctx, fact.scheduled);
    BindAgrees(o, ctx, fact.scheduled, tripOf);
    var m := Bind(o, ctx, fact.scheduled).m;
    OpenAligned(s, m, ctx, o, tripOf);
    assert LaidOn(Open(s, m, ctx, o).state.instances[m.journey], m.journey, ctx, tripOf);
    LaidFits(Open(s, m, ctx, o).state.instances[m.journey], m.journey, ctx);
  }

  lemma CancelJourneyAligned(opening: Stepped, journey: JourneyKey, o: Observation, ctx: Context, tripOf: TripOf)
    requires AlignedBut(opening.state, None, ctx, tripOf) && journey in opening.state.instances
    ensures AlignedBut(CancelJourney(opening, journey, o).state, None, ctx, tripOf)
  {
    var instance := opening.state.instances[journey];
    if Cancellable(instance) {
      ReplaceAligned(opening.state, journey, CancelledInstance(instance, o), opening.state.dirty + {journey}, ctx, tripOf);
    }
  }

  lemma CancelAligned(s: State, o: Observation, ctx: Context, tripOf: TripOf)
    requires OneTrip(ctx, tripOf) && Aligned(s, ctx, tripOf)
    ensures AlignedBut(Cancel(s, o, ctx).state, None, ctx, tripOf)
  {
    BindProper(o, ctx, o.At());
    BindAgrees(o, ctx, o.At(), tripOf);
    match Bind(o, ctx, o.At())
    case Missed(_) =>
    case Matched(m) =>
      OpenAligned(s, m, ctx, o, tripOf);
      CancelJourneyAligned(Open(s, m, ctx, o), m.journey, o, ctx, tripOf);
  }

  lemma StepAligned(s: State, o: Observation, ctx: Context, tripOf: TripOf)
    requires OneTrip(ctx, tripOf) && Aligned(s, ctx, tripOf) && o.feed == s.feed
    ensures Aligned(Step(s, o, ctx).state, ctx, tripOf)
  {
    StepInv(s, o, ctx);
    match VehicleOf(o)
    case Some(v) => StepVehicleAligned(s, o, v, ctx, tripOf);
    case None =>
      if o.facts.platform.Some? {
        ApplyPlatformAligned(s, o, o.facts.platform.value, ctx, tripOf);
      } else if o.facts.cancelled {
        CancelAligned(s, o, ctx, tripOf);
      }
  }

  lemma EstimatedLayout(instance: Instance, estimate: int -> Estimate)
    ensures SameLayout(instance, EstimatedInstance(instance, estimate))
  {
    EstimatedPlaces(instance, estimate);
  }

  lemma EstimateAligned(s: State, now: int, ctx: Context, tripOf: TripOf)
    requires Aligned(s, ctx, tripOf)
    ensures Aligned(EstimateAll(s, now, ctx), ctx, tripOf)
  {
    EstimateInv(s, now, ctx);
    var after := EstimateAll(s, now, ctx);
    forall j | j in after.instances ensures LaidOn(after.instances[j], j, ctx, tripOf) {
      assert LaidOn(s.instances[j], j, ctx, tripOf);
      EstimatedLayout(s.instances[j], ctx.estimate(s.instances[j], now));
      SameLayoutLaid(s.instances[j], after.instances[j], j, ctx);
    }
  }

  lemma RefreshOneLayout(instance: Instance, unconfirmed: bool, now: int, ctx: Context)
    requires Anchored(instance.journeys) && instance.calls != []
    ensures SameLayout(instance, RefreshOne(instance, unconfirmed, now, ctx).instance)
  {
  }

  lemma RefreshAligned(s: State, now: int, ctx: Context, tripOf: TripOf)
    requires Aligned(s, ctx, tripOf)
    ensures AllFit(s.instances) && Aligned(Refresh(s, now, ctx), ctx, tripOf)
  {
    RefreshInv(s, now, ctx);
    var after := Refresh(s, now, ctx);
    forall j | j in after.instances ensures LaidOn(after.instances[j], j, ctx, tripOf) {
      assert LaidOn(s.instances[j], j, ctx, tripOf);
      RefreshOneLayout(s.instances[j], Unconfirmed(Remembered(s, now, ctx), j), now, ctx);
      SameLayoutLaid(s.instances[j], after.instances[j], j, ctx);
    }
  }

  lemma RebasedLaid(instance: Instance, journey: JourneyKey, ctx: Context)
    requires Resolve(journey, ctx).Some? && Known(Resolve(journey, ctx).value, ctx) && instance.journey == journey
    ensures Laid(RebasedInstance(instance, journey, Resolve(journey, ctx).value, ctx), journey, ctx)
  {
  }

  /** A switch to a release of one trip per journey aligns any state of the feed. */
  lemma RebaseAligned(s: State, ctx: Context, tripOf: TripOf)
    requires OneTrip(ctx, tripOf) && Resolvable(s, ctx) && s.feed == ctx.feed
    requires forall j <- s.instances :: s.instances[j].journey == j
    ensures Aligned(Rebase(s, ctx), ctx, tripOf)
  {
    RebaseInv(s, ctx);
    var after := Rebase(s, ctx);
    forall j | j in after.instances ensures LaidOn(after.instances[j], j, ctx, tripOf) {
      RebasedLaid(s.instances[j], j, ctx);
    }
  }

  // ----- over runs -----------------------------------------------------------------------------

  /** The world's release names one trip for a journey, and its state keeps to it. */
  ghost predicate AlignedWorld(w: World) {
    exists tripOf :: OneTrip(w.ctx, tripOf) && Aligned(w.state, w.ctx, tripOf)
  }

  /** So do the releases of all switches. */
  ghost predicate OneTripOps(ops: seq<Op>) {
    forall i | 0 <= i < |ops| && ops[i].Switch? :: exists tripOf :: OneTrip(ops[i].ctx, tripOf)
  }

  lemma ApplyAligned(w: World, op: Op)
    requires AlignedWorld(w) && Ready(w) && Allowed(w, op) && OneTripOps([op])
    ensures AlignedWorld(Apply(w, op).world)
  {
    var tripOf :| OneTrip(w.ctx, tripOf) && Aligned(w.state, w.ctx, tripOf);
    match op
    case Observe(o) => StepAligned(w.state, o, w.ctx, tripOf);
    case Housekeep(now, _) => RefreshAligned(w.state, now, w.ctx, tripOf);
    case Estimating(now) => EstimateAligned(w.state, now, w.ctx, tripOf);
    case Switch(ctx, _) =>
      assert [op][0] == op;
      var next :| OneTrip(ctx, next);
      assert forall j <- w.state.instances :: Standing(w.state.instances[j], j);
      RebaseAligned(w.state, ctx, next);
  }

  lemma {:induction false} AfterAligned(w: World, ops: seq<Op>)
    requires AlignedWorld(w) && Ready(w) && AllowedRun(w, ops) && OneTripOps(ops)
    ensures AlignedWorld(After(w, ops))
    decreases |ops|
  {
    if ops != [] {
      var front, last := ops[..|ops| - 1], ops[|ops| - 1];
      assert forall i | 0 <= i < |front| :: front[i] == ops[i];
      AfterAligned(w, front);
      assert OneTripOps([last]);
      ApplyAligned(After(w, front), last);
    }
  }

  /** Over any run on releases that name one trip per journey, every binding is on the trip its journey's
      instance lies on. */
  lemma BindingsAgree(feed: string, ctx: Context, tripOf: TripOf, ops: seq<Op>)
    requires OneTrip(ctx, tripOf) && ctx.feed == feed
    requires AllowedRun(World(Empty(feed), ctx), ops) && OneTripOps(ops)
    ensures var w := After(World(Empty(feed), ctx), ops);
            && (forall j <- w.state.instances :: Laid(w.state.instances[j], j, w.ctx))
            && (forall v <- w.state.vehicles :: w.state.vehicles[v].binding.Some? ==>
                  var binding := w.state.vehicles[v].binding.value;
                  binding.journey in w.state.instances && w.state.instances[binding.journey].tripId == binding.tripId)
  {
    var start := World(Empty(feed), ctx);
    assert Aligned(start.state, ctx, tripOf);
    AfterAligned(start, ops);
    var w := After(start, ops);
    var last :| OneTrip(w.ctx, last) && Aligned(w.state, w.ctx, last);
    forall v | v in w.state.vehicles && w.state.vehicles[v].binding.Some?
      ensures var binding := w.state.vehicles[v].binding.value;
              binding.journey in w.state.instances && w.state.instances[binding.journey].tripId == binding.tripId
    {
      assert BindingSafe(w.state.vehicles[v], w.state.instances, w.ctx) && BindingAgrees(w.state.vehicles[v], last);
      var j := w.state.vehicles[v].binding.value.journey;
      assert LaidOn(w.state.instances[j], j, w.ctx, last);
    }
  }
}
