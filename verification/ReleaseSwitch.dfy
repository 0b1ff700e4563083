/** Moving live journeys onto a new release: observed events are kept call by call, none is
    duplicated or invented, doing it twice is doing it once, and through any run every live journey
    lies on the release the core reads. */
module ReleaseSwitch {
  import opened Model
  import opened Runs
  import opened RunLayout
  import opened Core
  import opened CoreSteps
  import opened CoreInvariant
  import opened CoreRuns
  import opened Cancellation

  ghost predicate SameCall(a: CallState, c: Call) {
    a.location == c.location && a.visit == c.visit
  }

  /** `b` is `a` with everything observed, estimated and assigned, at its place in the new trip. */
  predicate CarriesAll(a: CallState, b: CallState) {
    b == a.(sequence := b.sequence, passenger := b.passenger)
  }

  lemma FindsItsCall(calls: seq<CallState>, i: int)
    requires CallsUnique(calls) && 0 <= i < |calls|
    ensures FindCall(calls, calls[i].location, calls[i].visit) == Some(calls[i])
  {
    assert calls[i] in calls;
    var found := FindCall(calls, calls[i].location, calls[i].visit).value;
    var k :| 0 <= k < |calls| && calls[k] == found;
    assert k == i;
  }

  /** The old and the new calls correspond one to one by place and visit: a call in both carries
      everything over, a new one starts blank, and no call is matched twice. */
  ghost predicate Carried(before: seq<CallState>, trip: Trip, after: seq<CallState>) {
    && |after| == |trip.calls|
    && (forall i, k :: 0 <= i < |before| && 0 <= k < |after| && SameCall(before[i], trip.calls[k]) ==>
          CarriesAll(before[i], after[k]))
    && (forall k :: 0 <= k < |after| && (forall i :: 0 <= i < |before| ==> !SameCall(before[i], trip.calls[k])) ==>
          after[k] == CallStates(trip)[k])
    && (forall i, k, l :: 0 <= i < |before| && 0 <= k < l < |after| ==>
          !(SameCall(before[i], trip.calls[k]) && SameCall(before[i], trip.calls[l])))
    && (forall i, j, k :: 0 <= i < j < |before| && 0 <= k < |after| ==>
          !(SameCall(before[i], trip.calls[k]) && SameCall(before[j], trip.calls[k])))
    && (forall k :: 0 <= k < |after| ==>
          SameCall(after[k], trip.calls[k]) && after[k].sequence == trip.calls[k].sequence
          && after[k].passenger == trip.calls[k].passenger)
  }

  /** What was observed of unique calls is carried over to the calls of a well-laid trip. */
  lemma EventsCarried(before: seq<CallState>, trip: Trip)
    requires CallsUnique(before) && WellLaid(trip)
    ensures Carried(before, trip, CarriedCalls(before, trip))
  {
    var after := CarriedCalls(before, trip);
    CountedVisitsUnique(trip.calls);
    forall i, k | 0 <= i < |before| && 0 <= k < |after| && SameCall(before[i], trip.calls[k])
      ensures CarriesAll(before[i], after[k])
    {
      FindsItsCall(before, i);
    }
  }

  /** So does a release switch at any point of a run, for every journey that stays: what was observed of its
      calls is on the new trip's, and its held events, lifecycle and freshness are as they were. */
  lemma SwitchCarries(w: World, ctx: Context, order: seq<JourneyKey>, j: JourneyKey)
    requires Ready(w) && Allowed(w, Switch(ctx, order))
    requires j in w.state.instances && j in Apply(w, Switch(ctx, order)).world.state.instances
    ensures var before, after := w.state.instances[j], Apply(w, Switch(ctx, order)).world.state.instances[j];
            && Known(ctx.trip(after.tripId), ctx)
            && Carried(before.calls, ctx.trip(after.tripId), after.calls)
            && CallsUnique(after.calls)
            && after.held == before.held && after.lifecycle == before.lifecycle && after.freshness == before.freshness
  {
    assert Standing(w.state.instances[j], j);
    EventsCarried(w.state.instances[j].calls, Resolve(j, ctx).value);
    assert Standing(Apply(w, Switch(ctx, order)).world.state.instances[j], j);
  }

  lemma CarriedTwice(before: seq<CallState>, trip: Trip)
    requires WellLaid(trip)
    ensures CarriedCalls(CarriedCalls(before, trip), trip) == CarriedCalls(before, trip)
  {
    var once := CarriedCalls(before, trip);
    var twice := CarriedCalls(once, trip);
    CountedVisitsUnique(trip.calls);
    assert CallsUnique(once);
    forall k | 0 <= k < |once| ensures twice[k] == once[k] {
      FindsItsCall(once, k);
    }
  }

  lemma InstanceTwice(instance: Instance, journey: JourneyKey, trip: Trip, ctx: Context)
    requires WellLaid(trip)
    ensures var once := RebasedInstance(instance, journey, trip, ctx);
            RebasedInstance(once, journey, trip, ctx) == once
  {
    CarriedTwice(instance.calls, trip);
  }

  /** Rebasing twice onto one release leaves the state rebasing once does. */
  lemma RebaseTwice(s: State, ctx: Context)
    requires Resolvable(s, ctx)
    ensures Rebase(Rebase(s, ctx), ctx) == Rebase(s, ctx)
  {
    InstancesTwice(s, ctx);
    VehiclesTwice(s, ctx);
    assert Rebase(Rebase(s, ctx), ctx).dirty == Rebase(s, ctx).dirty;
  }

  lemma InstancesTwice(s: State, ctx: Context)
    requires Resolvable(s, ctx)
    ensures Rebase(Rebase(s, ctx), ctx).instances == Rebase(s, ctx).instances
  {
    var once := Rebase(s, ctx).instances;
    var twice := Rebase(Rebase(s, ctx), ctx).instances;
    assert twice.Keys == once.Keys;
    forall j | j in once ensures twice[j] == once[j] {
      InstanceTwice(s.instances[j], j, Resolve(j, ctx).value, ctx);
    }
  }

  lemma VehicleTwice(vehicle: VehicleState, instances: map<JourneyKey, Instance>)
    ensures RebasedVehicle(RebasedVehicle(vehicle, instances), instances) == RebasedVehicle(vehicle, instances)
  {
  }

  lemma VehiclesTwice(s: State, ctx: Context)
    requires Rebase(Rebase(s, ctx), ctx).instances == Rebase(s, ctx).instances
    ensures Rebase(Rebase(s, ctx), ctx).vehicles == Rebase(s, ctx).vehicles
  {
    var once := Rebase(s, ctx);
    var twice := Rebase(once, ctx);
    forall v | v in once.vehicles ensures v in twice.vehicles && twice.vehicles[v] == once.vehicles[v] {
      VehicleTwice(s.vehicles[v], once.instances);
    }
  }

  /** A binding survives exactly when its journey's key still runs, keeping journey, method and
      bound time and taking its instance's trip; otherwise the vehicle is unbound. */
  lemma BindingsRebased(s: State, ctx: Context, v: VehicleId)
    requires v in s.vehicles && s.vehicles[v].binding.Some?
    requires s.vehicles[v].binding.value.journey in s.instances
    ensures var before, after := s.vehicles[v].binding.value, Rebase(s, ctx);
            if Resolve(before.journey, ctx).Some?
            then before.journey in after.instances
                 && after.vehicles[v].binding == Some(before.(tripId := after.instances[before.journey].tripId))
            else before.journey !in after.instances && after.vehicles[v].binding == None
                 && after.vehicles[v].status == Unmatched
  {
  }

  // ----- the current release -------------------------------------------------------------------

  /** An instance of the release of `ctx`, on one of its trips. */
  ghost predicate Current(instance: Instance, ctx: Context) {
    instance.releaseId == ctx.releaseId && Known(ctx.trip(instance.tripId), ctx)
  }

  ghost predicate AllCurrent(s: State, ctx: Context) {
    forall j <- s.instances :: Current(s.instances[j], ctx)
  }

  /** Changing one current instance within its trip and release, and forgetting others. */
  lemma OneCurrent(s: State, after: State, j: JourneyKey, ctx: Context)
    requires AllCurrent(s, ctx) && j in s.instances
    requires j in after.instances && after.instances == s.instances[j := after.instances[j]]
    requires after.instances[j].releaseId == s.instances[j].releaseId && after.instances[j].tripId == s.instances[j].tripId
    ensures AllCurrent(after, ctx)
  {
    assert Current(s.instances[j], ctx);
  }

  lemma OpenCurrent(s: State, m: Match, ctx: Context, o: Observation)
    requires AllCurrent(s, ctx) && Known(m.trip, ctx)
    ensures AllCurrent(Open(s, m, ctx, o).state, ctx)
  {
    OpenKeeps(s, m, ctx, o);
  }

  lemma DriveCurrent(instance: Instance, trip: Trip, o: Observation, binding: Binding, before: Option<Position>, ctx: Context)
    requires Anchored(instance.journeys) && Sound(ctx)
    ensures var after := Drive(instance, trip, o, binding, before, ctx).instance;
            after.releaseId == instance.releaseId && after.tripId == instance.tripId
  {
  }

  lemma FollowCurrent(
    s: State, o: Observation, v: VehicleId, key: Option<KeyRef>, binding: Binding, episode: Option<Episode>,
    fix: Option<Position>, ctx: Context)
    requires Sound(ctx) && Inv(s, ctx) && Names(binding, s.instances, ctx) && AllCurrent(s, ctx)
    ensures AllCurrent(Follow(s, o, v, key, binding, episode, fix, ctx).state, ctx)
  {
    FollowLeavesBound(s, o, v, key, binding, episode, fix, ctx);
    var instance := s.instances[binding.journey];
    assert Standing(instance, binding.journey);
    if Leads(instance, v, o.At(), ctx) {
      DriveCurrent(WithLead(instance, v, o.At()), ctx.trip(binding.tripId), o, binding, fix, ctx);
    }
    OneCurrent(s, Follow(s, o, v, key, binding, episode, fix, ctx).state, binding.journey, ctx);
  }

  lemma ChooseKeyedCurrent(s: State, o: Observation, v: VehicleId, key: KeyRef, ctx: Context)
    requires Sound(ctx) && AllCurrent(s, ctx)
    ensures match ChooseKeyed(s, o, v, key, ctx)
            case Bound(stepped, _) => AllCurrent(stepped.state, ctx)
            case NotBound(state, _) => AllCurrent(state, ctx)
  {
    BindProper(o, ctx, o.At());
    match Bind(o, ctx, o.At())
    case Missed(_) =>
    case Matched(m) => OpenCurrent(s, m, ctx, o);
  }

  lemma ChooseInferredCurrent(s: State, o: Observation, v: VehicleId, line: KeyRef, episode: Episode, ctx: Context)
    requires Sound(ctx) && AllCurrent(s, ctx)
    ensures match ChooseInferred(s, o, v, line, episode, ctx)
            case Bound(stepped, _) => AllCurrent(stepped.state, ctx)
            case NotBound(state, _) => AllCurrent(state, ctx)
  {
    match ctx.inferTrip(line, episode, o)
    case Missed(_) =>
    case Matched(m) =>
      assert Proper(ctx.inferTrip(line, episode, o), ctx);
      OpenCurrent(s, m, ctx, o);
  }

  lemma StepVehicleCurrent(s: State, o: Observation, v: VehicleId, ctx: Context)
    requires Sound(ctx) && Inv(s, ctx) && AllCurrent(s, ctx)
    ensures AllCurrent(StepVehicle(s, o, v, ctx).state, ctx)
  {
    var previous := VehicleBefore(s, v);
    var fix := if previous.Some? then previous.value.position else None;
    if Repeated(previous, o) {
    } else if o.facts.keys != [] {
      ChooseKeyedSafe(s, o, v, o.facts.keys[0], ctx);
      ChooseKeyedCurrent(s, o, v, o.facts.keys[0], ctx);
      match ChooseKeyed(s, o, v, o.facts.keys[0], ctx)
      case NotBound(_, _) =>
      case Bound(chosen, binding) => FollowCurrent(chosen.state, o, v, Some(o.facts.keys[0]), binding, None, fix, ctx);
    } else {
      var prior := if previous.Some? then previous.value.episode else None;
      var episode := if o.facts.line.Some? then ctx.nextEpisode(prior, o) else None;
      if episode.Some? {
        ChooseInferredSafe(s, o, v, o.facts.line.value, episode.value, ctx);
        ChooseInferredCurrent(s, o, v, o.facts.line.value, episode.value, ctx);
        match ChooseInferred(s, o, v, o.facts.line.value, episode.value, ctx)
        case NotBound(_, _) =>
        case Bound(chosen, binding) => FollowCurrent(chosen.state, o, v, None, binding, episode, fix, ctx);
      }
    }
  }

  lemma AssignCurrent(opening: Stepped, m: Match, o: Observation, fact: PlatformFact, ctx: Context)
    requires AllCurrent(opening.state, ctx) && m.journey in opening.state.instances
    requires Anchored(opening.state.instances[m.journey].journeys)
    ensures AllCurrent(AssignPlatform(opening, m, o, fact, ctx).state, ctx)
  {
    OneCurrent(opening.state, AssignPlatform(opening, m, o, fact, ctx).state, m.journey, ctx);
  }

  lemma ApplyPlatformCurrent(s: State, o: Observation, fact: PlatformFact, ctx: Context)
    requires Sound(ctx) && Inv(s, ctx) && AllCurrent(s, ctx)
    ensures AllCurrent(ApplyPlatform(s, o, fact, ctx).state, ctx)
  {
    BindProper(o, ctx, fact.scheduled);
    match Bind(o, ctx, fact.scheduled)
    case Missed(_) =>
    case Matched(m) =>
      OpenSafe(s, m, ctx, o);
      OpenCurrent(s, m, ctx, o);
      assert Standing(Open(s, m, ctx, o).state.instances[m.journey], m.journey);
      AssignCurrent(Open(s, m, ctx, o), m, o, fact, ctx);
  }

  lemma CancelJourneyCurrent(opening: Stepped, journey: JourneyKey, o: Observation, ctx: Context)
    requires AllCurrent(opening.state, ctx) && journey in opening.state.instances
    ensures AllCurrent(CancelJourney(opening, journey, o).state, ctx)
  {
    OneCurrent(opening.state, CancelJourney(opening, journey, o).state, journey, ctx);
  }

  lemma CancelCurrent(s: State, o: Observation, ctx: Context)
    requires Sound(ctx) && Inv(s, ctx) && AllCurrent(s, ctx)
    ensures AllCurrent(Cancel(s, o, ctx).state, ctx)
  {
    BindProper(o, ctx, o.At());
    match Bind(o, ctx, o.At())
    case Missed(_) =>
    case Matched(m) =>
      OpenCurrent(s, m, ctx, o);
      CancelJourneyCurrent(Open(s, m, ctx, o), m.journey, o, ctx);
  }

  lemma StepCurrent(s: State, o: Observation, ctx: Context)
    requires Sound(ctx) && Inv(s, ctx) && o.feed == s.feed && AllCurrent(s, ctx)
    ensures AllCurrent(Step(s, o, ctx).state, ctx)
  {
    match VehicleOf(o)
    case Some(v) => StepVehicleCurrent(s, o, v, ctx);
    case None =>
      if o.facts.platform.Some? {
        ApplyPlatformCurrent(s, o, o.facts.platform.value, ctx);
      } else if o.facts.cancelled {
        CancelCurrent(s, o, ctx);
      }
  }

  lemma RefreshCurrent(s: State, now: int, ctx: Context)
    requires Inv(s, ctx) && AllFit(s.instances) && AllCurrent(s, ctx)
    ensures AllCurrent(Refresh(s, now, ctx), ctx)
  {
    var after := Refresh(s, now, ctx);
    forall j | j in after.instances ensures Current(after.instances[j], ctx) {
      assert Current(s.instances[j], ctx);
    }
  }

  lemma EstimateCurrent(s: State, now: int, ctx: Context)
    requires AllCurrent(s, ctx)
    ensures AllCurrent(EstimateAll(s, now, ctx), ctx)
  {
    var after := EstimateAll(s, now, ctx);
    forall j | j in after.instances ensures Current(after.instances[j], ctx) {
      assert Current(s.instances[j], ctx);
    }
  }

  lemma RebaseCurrent(s: State, ctx: Context)
    requires Resolvable(s, ctx) && forall j <- s.instances :: s.instances[j].journey == j
    ensures AllCurrent(Rebase(s, ctx), ctx)
  {
    var after := Rebase(s, ctx);
    forall j | j in after.instances ensures Current(after.instances[j], ctx) {
      RebasedStands(s.instances[j], j, ctx);
    }
  }

  lemma ApplyCurrent(w: World, op: Op)
    requires Ready(w) && Allowed(w, op) && AllCurrent(w.state, w.ctx)
    ensures AllCurrent(Apply(w, op).world.state, Apply(w, op).world.ctx)
  {
    match op
    case Observe(o) => StepCurrent(w.state, o, w.ctx);
    case Housekeep(now, _) =>
      InvFits(w.state, w.ctx);
      RefreshCurrent(w.state, now, w.ctx);
    case Estimating(now) => EstimateCurrent(w.state, now, w.ctx);
    case Switch(ctx, _) =>
      assert forall j <- w.state.instances :: Standing(w.state.instances[j], j);
      RebaseCurrent(w.state, ctx);
  }

  /** After any run, release switches included, every live journey is of the release the core reads now, and
      its trip, like that of every binding, is one of that release. */
  lemma {:induction false} InstancesCurrent(w: World, ops: seq<Op>)
    requires Ready(w) && AllowedRun(w, ops) && AllCurrent(w.state, w.ctx)
    ensures AllCurrent(After(w, ops).state, After(w, ops).ctx)
    ensures var after := After(w, ops);
            forall v <- after.state.vehicles :: after.state.vehicles[v].binding.Some? ==>
              Known(after.ctx.trip(after.state.vehicles[v].binding.value.tripId), after.ctx)
    decreases |ops|
  {
    if ops != [] {
      InstancesCurrent(w, ops[..|ops| - 1]);
      ApplyCurrent(After(w, ops[..|ops| - 1]), ops[|ops| - 1]);
    }
    var after := After(w, ops);
    forall v | v in after.state.vehicles && after.state.vehicles[v].binding.Some?
      ensures Known(after.ctx.trip(after.state.vehicles[v].binding.value.tripId), after.ctx)
    {
      assert BindingSafe(after.state.vehicles[v], after.state.instances, after.ctx);
    }
  }

  // ----- cancelled journeys --------------------------------------------------------------------

  /** Whether the old calls have this call of the new trip. */
  ghost predicate Had(before: seq<CallState>, c: Call) {
    exists i :: 0 <= i < |before| && SameCall(before[i], c)
  }

  lemma CancelledCarried(before: seq<CallState>, trip: Trip, k: int)
    requires Carried(before, trip, CarriedCalls(before, trip)) && 0 <= k < |trip.calls|
    requires forall i :: 0 <= i < |before| ==>
               before[i].status == CancelledCall && before[i].estimatedArrival == None && before[i].estimatedDeparture == None
    ensures var after := CarriedCalls(before, trip)[k];
            && (after.status == CancelledCall <==> Had(before, trip.calls[k]))
            && after.estimatedArrival == None && after.estimatedDeparture == None
  {
    if i :| 0 <= i < |before| && SameCall(before[i], trip.calls[k]) {
      assert CarriesAll(before[i], CarriedCalls(before, trip)[k]);
    }
  }

  /** A cancelled journey stays wholly cancelled over a switch exactly when the new release gives
      it one public journey and no call it did not have. */
  lemma CancelledRebased(instance: Instance, journey: JourneyKey, trip: Trip, ctx: Context)
    requires instance.lifecycle == Cancelled && WhollyCancelled(instance)
    requires CallsUnique(instance.calls) && WellLaid(trip)
    ensures WhollyCancelled(RebasedInstance(instance, journey, trip, ctx)) <==>
            (|JourneySpansOf(ctx.feed, trip, journey.day)| <= 1 && forall c <- trip.calls :: Had(instance.calls, c))
  {
    EventsCarried(instance.calls, trip);
    var after := RebasedInstance(instance, journey, trip, ctx);
    assert |Publics(after)| == 1 <==> |JourneySpansOf(ctx.feed, trip, journey.day)| <= 1;
    forall k | 0 <= k < |trip.calls|
      ensures after.calls[k].status == CancelledCall <==> Had(instance.calls, trip.calls[k])
      ensures after.calls[k].estimatedArrival == None && after.calls[k].estimatedDeparture == None
    {
      CancelledCarried(instance.calls, trip, k);
    }
    if WhollyCancelled(after) {
      forall c | c in trip.calls ensures Had(instance.calls, c) {
        var k :| 0 <= k < |trip.calls| && trip.calls[k] == c;
        assert after.calls[k].status == CancelledCall;
      }
    }
  }

  /** One call cancelled, and a release that adds a second: the second is scheduled. */
  lemma CancelledGainsCall(a: Call, b: Call)
    requires a.location == "A" && a.visit == 1 && b.location == "B" && b.visit == 1
    ensures var trip := Trip(Published("t"), "r", "1", "bus", "s", None, None, [a, b], None, None, None, [], None);
            var cancelled := CallState(1, "A", 1, None, None, None, None, CancelledCall, None, None, None, true, None);
            CarriedCalls([cancelled], trip)[0].status == CancelledCall && CarriedCalls([cancelled], trip)[1].status == Scheduled
  {
    var cancelled := CallState(1, "A", 1, None, None, None, None, CancelledCall, None, None, None, true, None);
    assert "A"[0] != "B"[0];
    assert [cancelled][0] == cancelled;
  }
}
