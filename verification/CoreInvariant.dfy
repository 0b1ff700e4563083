/** Every operation keeps the core's invariant, whatever binders answer: bindings name journeys that
    have an instance, and every instance stands for its journey. */
module CoreInvariant {
  import opened Model
  import opened Runs
  import opened RunLayout
  import opened Core
  import opened CoreSteps

  /** The calls of one instance are those of the other, place and visit by place and visit. */
  ghost predicate SamePlaces(a: seq<CallState>, b: seq<CallState>) {
    |a| == |b| && forall i :: 0 <= i < |a| ==> a[i].location == b[i].location && a[i].visit == b[i].visit
  }

  lemma SamePlacesStand(a: Instance, b: Instance, journey: JourneyKey)
    requires Standing(a, journey) && b.journey == a.journey && b.journeys == a.journeys && SamePlaces(a.calls, b.calls)
    ensures Standing(b, journey)
  {
  }

  lemma DriveStands(
    instance: Instance, journey: JourneyKey, trip: Trip, o: Observation, binding: Binding, before: Option<Position>, ctx: Context)
    requires Sound(ctx) && Standing(instance, journey) && WellLaid(trip) && trip.calls != []
    ensures Standing(Drive(instance, trip, o, binding, before, ctx).instance, journey)
  {
    var start := ctx.span(trip, binding.journey).0;
    var lifecycle := LifecycleAfter(instance, trip, o, start, before, ctx);
    var restored := instance.lifecycle == Cancelled && lifecycle != Cancelled;
    var live := instance.(lifecycle := lifecycle, calls := if restored then CallStates(trip) else instance.calls);
    TripCallsUnique(trip);
    assert Standing(live, journey);
    if lifecycle != Cancelled {
      SamePlacesStand(live, Tracked(live, ctx.track(live, trip, o)), journey);
    }
  }

  /** Replacing an instance by another that stands keeps the invariant. */
  lemma ReplaceSafe(s: State, journey: JourneyKey, instance: Instance, dirty: set<JourneyKey>, ctx: Context)
    requires Inv(s, ctx) && journey in s.instances && Standing(instance, journey)
    ensures Inv(s.(instances := s.instances[journey := instance], dirty := dirty), ctx)
  {
    var after := s.(instances := s.instances[journey := instance], dirty := dirty);
    forall v | v in after.vehicles ensures BindingSafe(after.vehicles[v], after.instances, ctx) {
      assert BindingSafe(s.vehicles[v], s.instances, ctx);
    }
  }

  lemma SetVehicleSafe(s: State, after: VehicleState, ctx: Context)
    requires InvBut(s, after.vehicle, ctx)
    requires BindingSafe(after, s.instances, ctx)
    ensures Inv(SetVehicle(s, after), ctx)
  {
  }

  lemma MoveStands(s: State, o: Observation, v: VehicleId, binding: Binding, before: Option<Position>, ctx: Context)
    requires Sound(ctx) && Inv(s, ctx) && Names(binding, s.instances, ctx)
    ensures Standing(MoveOf(s, o, v, binding, before, ctx).instance, binding.journey)
  {
    var instance := s.instances[binding.journey];
    assert Standing(instance, binding.journey);
    if Leads(instance, v, o.At(), ctx) {
      DriveStands(WithLead(instance, v, o.At()), binding.journey, ctx.trip(binding.tripId), o, binding, before, ctx);
    }
  }

  lemma ConcludeSafe(
    s: State, moved: Moved, o: Observation, v: VehicleId, key: Option<KeyRef>, binding: Binding,
    episode: Option<Episode>, ctx: Context)
    requires Inv(s, ctx) && Names(binding, s.instances, ctx) && Standing(moved.instance, binding.journey)
    ensures Inv(Conclude(s, moved, o, v, key, binding, episode).state, ctx)
  {
    var dirty := if moved.dirty then s.dirty + {binding.journey} else s.dirty;
    ReplaceSafe(s, binding.journey, moved.instance, dirty, ctx);
    var driven := s.(instances := s.instances[binding.journey := moved.instance], dirty := dirty);
    var after := VehicleAfter(s, o, v, StatusOf(moved.instance.lifecycle), key, Some(binding), None, episode);
    SetVehicleSafe(driven, after, ctx);
  }

  lemma FollowSafe(
    s: State, o: Observation, v: VehicleId, key: Option<KeyRef>, binding: Binding, episode: Option<Episode>,
    before: Option<Position>, ctx: Context)
    requires Sound(ctx) && Inv(s, ctx) && Names(binding, s.instances, ctx)
    ensures Inv(Follow(s, o, v, key, binding, episode, before, ctx).state, ctx)
  {
    MoveStands(s, o, v, binding, before, ctx);
    ConcludeSafe(s, MoveOf(s, o, v, binding, before, ctx), o, v, key, binding, episode, ctx);
  }

  lemma UnbindSafe(s: State, o: Observation, v: VehicleId, key: Option<KeyRef>, reason: Reason, episode: Option<Episode>, ctx: Context)
    requires InvBut(s, v, ctx)
    ensures Inv(Unbind(s, o, v, key, reason, episode).state, ctx)
  {
  }

  lemma StepVehicleInv(s: State, o: Observation, v: VehicleId, ctx: Context)
    requires Sound(ctx) && Inv(s, ctx)
    ensures Inv(StepVehicle(s, o, v, ctx).state, ctx)
  {
    var previous := VehicleBefore(s, v);
    var before := if previous.Some? then previous.value.position else None;
    if Repeated(previous, o) {
    } else if o.facts.keys != [] {
      var key := o.facts.keys[0];
      ChooseKeyedSafe(s, o, v, key, ctx);
      match ChooseKeyed(s, o, v, key, ctx)
      case NotBound(state, reason) => UnbindSafe(state, o, v, Some(key), reason, None, ctx);
      case Bound(stepped, binding) => FollowSafe(stepped.state, o, v, Some(key), binding, None, before, ctx);
    } else {
      var prior := if previous.Some? then previous.value.episode else None;
      var episode := if o.facts.line.Some? then ctx.nextEpisode(prior, o) else None;
      if episode.None? {
        UnbindSafe(s, o, v, None, NoKey, None, ctx);
      } else {
        ChooseInferredSafe(s, o, v, o.facts.line.value, episode.value, ctx);
        match ChooseInferred(s, o, v, o.facts.line.value, episode.value, ctx)
        case NotBound(state, reason) => UnbindSafe(state, o, v, None, reason, episode, ctx);
        case Bound(stepped, binding) => FollowSafe(stepped.state, o, v, None, binding, episode, before, ctx);
      }
    }
  }

  lemma ApplyPlatformInv(s: State, o: Observation, fact: PlatformFact, ctx: Context)
    requires Sound(ctx) && Inv(s, ctx)
    ensures Inv(ApplyPlatform(s, o, fact, ctx).state, ctx)
  {
    BindProper(o, ctx, fact.scheduled);
    match Bind(o, ctx, fact.scheduled)
    case Missed(_) =>
    case Matched(m) =>
      OpenSafe(s, m, ctx, o);
      var opening := Open(s, m, ctx, o).state;
      var instance := opening.instances[m.journey];
      assert Standing(instance, m.journey);
      match BoardCall(m.trip.calls, m.journey.day, fact, ctx)
      case None =>
      case Some(i) =>
        if i < |instance.calls| {
          var platform := Platform(fact.value, fact.numbering, o.receivedAt, o.source);
          SamePlacesStand(instance, WithPlatform(instance, i, platform, o.receivedAt), m.journey);
          ReplaceSafe(opening, m.journey, WithPlatform(instance, i, platform, o.receivedAt), opening.dirty + {m.journey}, ctx);
        }
  }

  lemma CancelInv(s: State, o: Observation, ctx: Context)
    requires Sound(ctx) && Inv(s, ctx)
    ensures Inv(Cancel(s, o, ctx).state, ctx)
  {
    BindProper(o, ctx, o.At());
    match Bind(o, ctx, o.At())
    case Missed(_) =>
    case Matched(m) =>
      OpenSafe(s, m, ctx, o);
      var opening := Open(s, m, ctx, o).state;
      var instance := opening.instances[m.journey];
      assert Standing(instance, m.journey);
      if Cancellable(instance) {
        SamePlacesStand(instance, CancelledInstance(instance, o), m.journey);
        ReplaceSafe(opening, m.journey, CancelledInstance(instance, o), opening.dirty + {m.journey}, ctx);
      }
  }

  /** One observation keeps the invariant, whatever it says and whoever says it. */
  lemma StepInv(s: State, o: Observation, ctx: Context)
    requires Sound(ctx) && Inv(s, ctx) && o.feed == s.feed
    ensures Inv(Step(s, o, ctx).state, ctx)
  {
    match VehicleOf(o)
    case Some(v) => StepVehicleInv(s, o, v, ctx);
    case None =>
      if o.facts.platform.Some? {
        ApplyPlatformInv(s, o, o.facts.platform.value, ctx);
      } else if o.facts.cancelled {
        CancelInv(s, o, ctx);
      }
  }

  lemma EstimatedPlaces(instance: Instance, estimate: int -> Estimate)
    ensures SamePlaces(instance.calls, EstimatedInstance(instance, estimate).calls)
  {
    var after := EstimatedInstance(instance, estimate);
    forall i | 0 <= i < |after.calls|
      ensures after.calls[i].location == instance.calls[i].location && after.calls[i].visit == instance.calls[i].visit
    {
      var e := estimate(i);
      assert after.calls[i] == instance.calls[i].Estimated(e.arrival, e.departure, e.status, e.sourceClass);
    }
  }

  lemma EstimateInv(s: State, now: int, ctx: Context)
    requires Inv(s, ctx)
    ensures Inv(EstimateAll(s, now, ctx), ctx)
  {
    var after := EstimateAll(s, now, ctx);
    forall j | j in after.instances ensures Standing(after.instances[j], j) {
      assert Standing(s.instances[j], j);
      EstimatedPlaces(s.instances[j], ctx.estimate(s.instances[j], now));
      SamePlacesStand(s.instances[j], after.instances[j], j);
    }
    forall v | v in after.vehicles ensures BindingSafe(after.vehicles[v], after.instances, ctx) {
      assert BindingSafe(s.vehicles[v], s.instances, ctx);
    }
  }

  lemma RefreshOneStands(instance: Instance, journey: JourneyKey, unconfirmed: bool, now: int, ctx: Context)
    requires Standing(instance, journey)
    ensures Standing(RefreshOne(instance, unconfirmed, now, ctx).instance, journey)
  {
    SamePlacesStand(instance, RefreshOne(instance, unconfirmed, now, ctx).instance, journey);
  }

  /** Housekeeping forgets a journey only when no remembered vehicle is bound to it. */
  lemma RefreshInv(s: State, now: int, ctx: Context)
    requires Inv(s, ctx)
    ensures AllFit(s.instances) && Inv(Refresh(s, now, ctx), ctx)
  {
    InvFits(s, ctx);
    var after := Refresh(s, now, ctx);
    forall j | j in after.instances ensures Standing(after.instances[j], j) {
      RefreshOneStands(s.instances[j], j, Unconfirmed(Remembered(s, now, ctx), j), now, ctx);
    }
    forall v | v in after.vehicles ensures BindingSafe(after.vehicles[v], after.instances, ctx) {
      if after.vehicles[v].binding.Some? {
        RememberedBindingKept(s, v, now, ctx);
      }
    }
  }

  /** The journey a remembered vehicle is bound to is not forgotten. */
  lemma RememberedBindingKept(s: State, v: VehicleId, now: int, ctx: Context)
    requires Inv(s, ctx) && v in Remembered(s, now, ctx) && s.vehicles[v].binding.Some?
    ensures var binding := s.vehicles[v].binding.value;
            Names(binding, s.instances, ctx) && Kept(s, binding.journey, now, ctx)
  {
    assert BindingSafe(s.vehicles[v], s.instances, ctx);
    assert BoundTo(Remembered(s, now, ctx)[v], s.vehicles[v].binding.value.journey);
  }

  lemma RebasedStands(instance: Instance, journey: JourneyKey, ctx: Context)
    requires Resolve(journey, ctx).Some? && Known(Resolve(journey, ctx).value, ctx) && instance.journey == journey
    ensures Standing(RebasedInstance(instance, journey, Resolve(journey, ctx).value, ctx), journey)
    ensures Known(ctx.trip(RebasedInstance(instance, journey, Resolve(journey, ctx).value, ctx).tripId), ctx)
  {
    var trip := Resolve(journey, ctx).value;
    LaidSpansCover(ctx.feed, trip, journey.day);
    TripCallsUnique(trip);
    SamePlacesStand(instance.(journeys := JourneySpansOf(ctx.feed, trip, journey.day), calls := CallStates(trip)),
                    RebasedInstance(instance, journey, trip, ctx), journey);
  }

  /** A release switch leaves a state of the new release, from any state of the same feed. */
  lemma RebaseInv(s: State, ctx: Context)
    requires Resolvable(s, ctx) && s.feed == ctx.feed
    requires forall j <- s.instances :: s.instances[j].journey == j
    ensures Inv(Rebase(s, ctx), ctx)
  {
    var after := Rebase(s, ctx);
    forall j | j in after.instances ensures Standing(after.instances[j], j) && Known(ctx.trip(after.instances[j].tripId), ctx) {
      RebasedStands(s.instances[j], j, ctx);
    }
  }
}
