/** The live state of one feed, updated in place: each operation changes the vehicles, instances
    and dirty set step by step and leaves the state its specification names. */
module FeedStates {
  import opened Model
  import opened Runs
  import opened RunLayout
  import opened Core
  import opened CoreSteps
  import opened CoreInvariant
  import opened CoreRuns

  datatype Result<T> = Success(value: T) | WrongFeed

  lemma EnumeratesMore(order: seq<JourneyKey>, done: set<JourneyKey>, j: JourneyKey)
    requires Enumerates(order, done) && j !in done
    ensures Enumerates(order + [j], done + {j})
  {
  }

  function Due(s: State, now: int): set<JourneyKey> {
    s.dirty + set j | j in s.instances && Behind(s.instances[j], now)
  }

  /** The journeys with the estimates of those due, but for the ones still to do. */
  ghost function EstimatedBut(s: State, now: int, ctx: Context, todo: set<JourneyKey>): map<JourneyKey, Instance> {
    map j | j in s.instances ::
      if j in Due(s, now) && j !in todo && s.instances[j].lifecycle != Cancelled
      then EstimatedInstance(s.instances[j], ctx.estimate(s.instances[j], now))
      else s.instances[j]
  }

  lemma AllEstimated(s: State, now: int, ctx: Context)
    ensures EstimatedBut(s, now, ctx, Due(s, now)) == s.instances
    ensures s.(instances := EstimatedBut(s, now, ctx, {}), dirty := {}) == CoreSteps.EstimateAll(s, now, ctx)
  {
  }

  lemma EstimatedStep(s: State, now: int, ctx: Context, todo: set<JourneyKey>, j: JourneyKey)
    requires j in todo && todo <= Due(s, now)
    ensures var before, after := EstimatedBut(s, now, ctx, todo), EstimatedBut(s, now, ctx, todo - {j});
            if j in before && before[j].lifecycle != Cancelled
            then after == before[j := EstimatedInstance(before[j], ctx.estimate(before[j], now))]
            else after == before
  {
  }

  ghost function RefreshedInstances(s: State, now: int, ctx: Context, done: set<JourneyKey>): map<JourneyKey, Instance>
    requires AllFit(s.instances)
  {
    map j | j in s.instances && (j !in done || Kept(s, j, now, ctx)) ::
      if j in done then RefreshJourney(s, j, now, ctx).instance else s.instances[j]
  }

  ghost function RefreshedDirty(s: State, now: int, ctx: Context, done: set<JourneyKey>): set<JourneyKey>
    requires AllFit(s.instances)
  {
    s.dirty + set j | j in s.instances && j in done && Kept(s, j, now, ctx) && RefreshJourney(s, j, now, ctx).event.Some?
  }

  /** The state once the journeys `done` have been refreshed. */
  ghost function RefreshedSoFar(s: State, now: int, ctx: Context, done: set<JourneyKey>): State
    requires AllFit(s.instances)
  {
    s.(vehicles := Remembered(s, now, ctx), instances := RefreshedInstances(s, now, ctx, done),
       dirty := RefreshedDirty(s, now, ctx, done))
  }

  lemma AllRefreshed(s: State, now: int, ctx: Context)
    requires AllFit(s.instances)
    ensures RefreshedSoFar(s, now, ctx, s.instances.Keys) == Refresh(s, now, ctx)
    ensures RefreshedSoFar(s, now, ctx, {}) == s.(vehicles := Remembered(s, now, ctx))
  {
  }

  lemma RefreshedInstancesStep(s: State, now: int, ctx: Context, done: set<JourneyKey>, j: JourneyKey)
    requires AllFit(s.instances) && j in s.instances && j !in done
    ensures var before := RefreshedInstances(s, now, ctx, done);
            && j in before && before[j] == s.instances[j]
            && RefreshedInstances(s, now, ctx, done + {j}) ==
                 if Kept(s, j, now, ctx) then before[j := RefreshJourney(s, j, now, ctx).instance] else before - {j}
  {
  }

  lemma RefreshedDirtyStep(s: State, now: int, ctx: Context, done: set<JourneyKey>, j: JourneyKey)
    requires AllFit(s.instances) && j in s.instances
    ensures RefreshedDirty(s, now, ctx, done + {j}) ==
            RefreshedDirty(s, now, ctx, done)
            + if Kept(s, j, now, ctx) && RefreshJourney(s, j, now, ctx).event.Some? then {j} else {}
  {
  }

  lemma RefreshEffectsMore(s: State, now: int, ctx: Context, order: seq<JourneyKey>, j: JourneyKey)
    requires AllFit(s.instances) && j in s.instances
    ensures RefreshEffects(s, now, ctx, order + [j]) ==
            if Kept(s, j, now, ctx) && RefreshJourney(s, j, now, ctx).event.Some?
            then RefreshEffects(s, now, ctx, order) + [RefreshJourney(s, j, now, ctx).event.value]
            else RefreshEffects(s, now, ctx, order)
  {
    assert (order + [j])[..|order|] == order;
  }

  /** The state once the journeys `done` have been moved onto the release of `ctx`. */
  ghost function RebasedSoFar(s: State, ctx: Context, done: set<JourneyKey>): State {
    s.(instances := map j | j in s.instances && (j !in done || Resolve(j, ctx).Some?) ::
                      if j in done then RebasedInstance(s.instances[j], j, Resolve(j, ctx).value, ctx) else s.instances[j],
       dirty := s.dirty + set j | j in s.instances && j in done && Resolve(j, ctx).Some?)
  }

  lemma NoneRebased(s: State, ctx: Context)
    ensures RebasedSoFar(s, ctx, {}) == s && MovedSoFar(s, ctx, {}) == map[]
  {
  }

  lemma AllRebased(s: State, ctx: Context)
    ensures var after := RebasedSoFar(s, ctx, s.instances.Keys);
            && after.instances == RebasedInstances(s, ctx)
            && after.dirty == s.dirty + after.instances.Keys
            && MovedSoFar(s, ctx, s.instances.Keys) == map j | j in after.instances :: after.instances[j].tripId
  {
  }

  lemma RebasedStep(s: State, ctx: Context, done: set<JourneyKey>, j: JourneyKey)
    requires j in s.instances && j !in done
    ensures var before, after := RebasedSoFar(s, ctx, done), RebasedSoFar(s, ctx, done + {j});
            && j in before.instances && before.instances[j] == s.instances[j]
            && after == if Resolve(j, ctx).None? then before.(instances := before.instances - {j})
                        else before.(instances := before.instances[j := RebasedInstance(s.instances[j], j, Resolve(j, ctx).value, ctx)],
                                     dirty := before.dirty + {j})
  {
  }

  lemma RebaseEffectsMore(s: State, ctx: Context, order: seq<JourneyKey>, j: JourneyKey)
    requires Resolvable(s, ctx) && j in s.instances
    ensures RebaseEffects(s, ctx, order + [j]) == RebaseEffects(s, ctx, order) + JourneySnapshots(s, ctx, j)
  {
    assert (order + [j])[..|order|] == order;
  }

  /** The trips of the moved journeys among `done`. */
  ghost function MovedSoFar(s: State, ctx: Context, done: set<JourneyKey>): map<JourneyKey, TripId> {
    map j | j in done && Resolve(j, ctx).Some? :: Resolve(j, ctx).value.tripId
  }

  lemma MovedStep(s: State, ctx: Context, done: set<JourneyKey>, j: JourneyKey)
    ensures MovedSoFar(s, ctx, done + {j}) ==
            if Resolve(j, ctx).None? then MovedSoFar(s, ctx, done)
            else MovedSoFar(s, ctx, done)[j := Resolve(j, ctx).value.tripId]
  {
  }

  class FeedState {
    const feed: string
    var vehicles: map<VehicleId, VehicleState>
    var instances: map<JourneyKey, Instance>
    var dirty: set<JourneyKey>

    ghost function View(): State
      reads this
    {
      State(feed, vehicles, instances, dirty)
    }

    constructor (feed: string)
      ensures View() == Empty(feed)
    {
      this.feed := feed;
      vehicles, instances, dirty := map[], map[], {};
    }

    // ----- one observation ---------------------------------------------------------------------

    method Open(m: Match, ctx: Context, o: Observation) returns (effects: seq<Effect>)
      requires WellLaid(m.trip) && feed == ctx.feed
      modifies this`instances
      ensures Stepped(View(), effects) == Core.Open(old(View()), m, ctx, o)
    {
      if m.journey in instances {
        return [];
      }
      var spans := JourneySpans(ctx.feed, m.trip, m.journey.day);
      instances := instances[m.journey := NewInstance(m, ctx, o)];
      LaidSpansCover(ctx.feed, m.trip, m.journey.day);
      effects := Snapshots(m.journey, spans, m.trip, ctx.releaseId, o.At());
    }

    method DropUnstarted(journey: JourneyKey, vehicle: VehicleId)
      modifies this`instances, this`dirty
      ensures View() == Core.DropUnstarted(old(View()), journey, vehicle)
    {
      if journey !in instances || instances[journey].progress.Some? || instances[journey].lifecycle == Finished {
        return;
      }
      if !(exists v <- vehicles :: v != vehicle && BoundTo(vehicles[v], journey)) {
        instances := instances - {journey};
        dirty := dirty - {journey};
      }
    }

    method SetVehicle(
      o: Observation, v: VehicleId, status: VehicleStatus, key: Option<KeyRef>, binding: Option<Binding>,
      reason: Option<Reason>, episode: Option<Episode>) returns (since: int)
      modifies this`vehicles
      ensures var after := VehicleAfter(old(View()), o, v, status, key, binding, reason, episode);
              View() == Core.SetVehicle(old(View()), after) && since == after.since
    {
      var previous := if v in vehicles then Some(vehicles[v]) else None;
      var fix := Fix(previous, o.facts.position, o.At());
      since := Since(previous, o, binding, episode);
      vehicles := vehicles[v := VehicleState(v, status, o.At(), key, binding, fix.0, fix.1, reason, episode, o.facts, since)];
    }

    method Unbind(o: Observation, v: VehicleId, key: Option<KeyRef>, reason: Reason, episode: Option<Episode>)
      returns (effects: seq<Effect>)
      modifies this`vehicles
      ensures Stepped(View(), effects) == CoreSteps.Unbind(old(View()), o, v, key, reason, episode)
    {
      var status := if reason == NotInService then OutOfService else Unmatched;
      var since := SetVehicle(o, v, status, key, None, Some(reason), episode);
      effects := [ObservationResult(None, Some(reason), [], Some(since))];
    }

    method BindNew(m: Match, v: VehicleId, how: BindingMethod, ctx: Context, o: Observation)
      returns (binding: Binding, effects: seq<Effect>)
      requires WellLaid(m.trip) && feed == ctx.feed
      modifies this`instances
      ensures Bound(Stepped(View(), effects), binding) == Core.BindNew(old(View()), m, v, how, ctx, o)
    {
      binding := Binding(v, m.journey, m.trip.tripId, how, o.At(), how == Keyed);
      effects := Open(m, ctx, o);
      effects := effects + Assignments(instances[m.journey], v, o.At());
    }

    method Conclude(
      moved: Moved, o: Observation, v: VehicleId, key: Option<KeyRef>, binding: Binding, episode: Option<Episode>)
      returns (effects: seq<Effect>)
      modifies this
      ensures Stepped(View(), effects) == CoreSteps.Conclude(old(View()), moved, o, v, key, binding, episode)
    {
      instances := instances[binding.journey := moved.instance];
      if moved.dirty {
        dirty := dirty + {binding.journey};
      }
      var since := SetVehicle(o, v, StatusOf(moved.instance.lifecycle), key, Some(binding), None, episode);
      effects := moved.effects + [ObservationResult(Some(binding.journey), None, Publics(moved.instance), Some(since))];
    }

    method Follow(
      o: Observation, v: VehicleId, key: Option<KeyRef>, binding: Binding, episode: Option<Episode>,
      before: Option<Position>, ctx: Context) returns (effects: seq<Effect>)
      requires Sound(ctx) && Inv(View(), ctx) && Names(binding, instances, ctx)
      modifies this
      ensures Stepped(View(), effects) == CoreSteps.Follow(old(View()), o, v, key, binding, episode, before, ctx)
    {
      var instance := instances[binding.journey];
      var moved := Moved(instance, [], false);
      assert Standing(instance, binding.journey);
      if Leads(instance, v, o.At(), ctx) {
        moved := Drive(WithLead(instance, v, o.At()), ctx.trip(binding.tripId), o, binding, before, ctx);
      }
      assert moved == MoveOf(View(), o, v, binding, before, ctx);
      effects := Conclude(moved, o, v, key, binding, episode);
    }

    method StepKeyed(o: Observation, v: VehicleId, key: KeyRef, before: Option<Position>, ctx: Context)
      returns (effects: seq<Effect>)
      requires Sound(ctx) && Inv(View(), ctx) && o.facts.keys != [] && key == o.facts.keys[0]
      requires !Repeated(VehicleBefore(View(), v), o)
      requires before == (if v in vehicles then vehicles[v].position else None)
      modifies this
      ensures Stepped(View(), effects) == StepVehicle(old(View()), o, v, ctx)
    {
      ChooseKeyedSafe(View(), o, v, key, ctx);
      var previous := if v in vehicles then Some(vehicles[v]) else None;
      ghost var entry := View();
      var continued := Continued(previous, key, o, State(feed, vehicles, instances, dirty), ctx);
      if continued.Some? {
        effects := Follow(o, v, Some(key), continued.value, None, before, ctx);
        assert [] + effects == effects;
        return;
      }
      BindProper(o, ctx, o.At());
      var found := Bind(o, ctx, o.At());
      if found.Missed? {
        effects := Unbind(o, v, Some(key), found.reason, None);
      } else if Stale(found.m, o, ctx) {
        DropUnstarted(found.m.journey, v);
        effects := Unbind(o, v, Some(key), StaleKey, None);
      } else {
        var binding, opening := BindNew(found.m, v, Keyed, ctx, o);
        effects := Follow(o, v, Some(key), binding, None, before, ctx);
        effects := opening + effects;
      }
    }

    method StepKeyless(o: Observation, v: VehicleId, before: Option<Position>, ctx: Context)
      returns (effects: seq<Effect>)
      requires Sound(ctx) && Inv(View(), ctx) && o.facts.keys == []
      requires !Repeated(VehicleBefore(View(), v), o)
      requires before == (if v in vehicles then vehicles[v].position else None)
      modifies this
      ensures Stepped(View(), effects) == StepVehicle(old(View()), o, v, ctx)
    {
      var previous := if v in vehicles then Some(vehicles[v]) else None;
      var prior := if previous.Some? then previous.value.episode else None;
      var episode := if o.facts.line.Some? then ctx.nextEpisode(prior, o) else None;
      if episode.None? {
        effects := Unbind(o, v, None, NoKey, None);
        return;
      }
      ChooseInferredSafe(View(), o, v, o.facts.line.value, episode.value, ctx);
      var continued := ContinuedEpisode(previous, episode.value, o.At(), State(feed, vehicles, instances, dirty), ctx);
      if continued.Some? {
        effects := Follow(o, v, None, Confirm(continued.value, episode.value, ctx), episode, before, ctx);
        assert [] + effects == effects;
        return;
      }
      var found := ctx.inferTrip(o.facts.line.value, episode.value, o);
      assert Proper(found, ctx);
      if found.Missed? {
        effects := Unbind(o, v, None, found.reason, episode);
      } else {
        var binding, opening := BindNew(found.m, v, Inferred, ctx, o);
        effects := Follow(o, v, None, Confirm(binding, episode.value, ctx), episode, before, ctx);
        effects := opening + effects;
      }
    }

    method ApplyPlatform(o: Observation, fact: PlatformFact, ctx: Context) returns (effects: seq<Effect>)
      requires Sound(ctx) && Inv(View(), ctx)
      modifies this`instances, this`dirty
      ensures Stepped(View(), effects) == CoreSteps.ApplyPlatform(old(View()), o, fact, ctx)
    {
      BindProper(o, ctx, fact.scheduled);
      var found := Bind(o, ctx, fact.scheduled);
      if found.Missed? {
        return [ObservationResult(None, Some(found.reason), [], None)];
      }
      var journey := found.m.journey;
      OpenSafe(View(), found.m, ctx, o);
      effects := Open(found.m, ctx, o);
      var instance := instances[journey];
      assert Standing(instance, journey);
      var i := BoardCall(found.m.trip.calls, journey.day, fact, ctx);
      if i.None? {
        effects := effects + [Unresolved(fact.station)];
      } else if i.value >= |instance.calls| {
        return;
      } else {
        var platform := Platform(fact.value, fact.numbering, o.receivedAt, o.source);
        instances := instances[journey := WithPlatform(instance, i.value, platform, o.receivedAt)];
        dirty := dirty + {journey};
        var public := PublicCall(instance.journey, instance.journeys, instance.calls, i.value, fact.kind);
        effects := effects +
          [RecordPlatform(public.0, instance.calls[i.value].location, public.1, fact.kind, platform)];
      }
      effects := effects + [ObservationResult(Some(journey), None, Publics(instance), None)];
    }

    method Cancel(o: Observation, ctx: Context) returns (effects: seq<Effect>)
      requires Sound(ctx) && Inv(View(), ctx)
      modifies this`instances, this`dirty
      ensures Stepped(View(), effects) == CoreSteps.Cancel(old(View()), o, ctx)
    {
      BindProper(o, ctx, o.At());
      var found := Bind(o, ctx, o.At());
      if found.Missed? {
        return [ObservationResult(None, Some(found.reason), [], None)];
      }
      var journey := found.m.journey;
      effects := Open(found.m, ctx, o);
      var instance := instances[journey];
      if Cancellable(instance) {
        instances := instances[journey := CancelledInstance(instance, o)];
        dirty := dirty + {journey};
        effects := effects + CancellationRecords(instance, o.source, o.At(), true);
      }
      effects := effects + [ObservationResult(Some(journey), None, Publics(instance), Some(o.receivedAt))];
    }

    /** Apply one observation and return its effects. */
    method Step(o: Observation, ctx: Context) returns (r: Result<seq<Effect>>)
      requires Sound(ctx) && Inv(View(), ctx)
      modifies this
      ensures r.WrongFeed? <==> o.feed != feed
      ensures r.WrongFeed? ==> View() == old(View())
      ensures r.Success? ==> Stepped(View(), r.value) == CoreSteps.Step(old(View()), o, ctx)
      ensures Inv(View(), ctx)
    {
      if o.feed != feed {
        return WrongFeed;
      }
      StepInv(View(), o, ctx);
      var vehicle := VehicleOf(o);
      if vehicle.None? && o.facts.platform.Some? {
        var effects := ApplyPlatform(o, o.facts.platform.value, ctx);
        return Success(effects);
      }
      if vehicle.None? && o.facts.cancelled {
        var effects := Cancel(o, ctx);
        return Success(effects);
      }
      if vehicle.None? {
        return Success([ObservationResult(None, Some(NoKey), [], None)]);
      }
      var v := vehicle.value;
      var previous := if v in vehicles then Some(vehicles[v]) else None;
      if Repeated(previous, o) {
        return Success([]);
      }
      var before := if previous.Some? then previous.value.position else None;
      var effects: seq<Effect>;
      if o.facts.keys != [] {
        effects := StepKeyed(o, v, o.facts.keys[0], before, ctx);
      } else {
        effects := StepKeyless(o, v, before, ctx);
      }
      return Success(effects);
    }

    // ----- the emit tick -----------------------------------------------------------------------

    /** Bring the estimates of changed and overtaken journeys up to date. */
    method EstimateAll(now: int, ctx: Context)
      modifies this`instances, this`dirty
      ensures View() == CoreSteps.EstimateAll(old(View()), now, ctx)
    {
      ghost var entry := View();
      AllEstimated(entry, now, ctx);
      var todo := dirty + set j | j in instances && Behind(instances[j], now);
      while todo != {}
        invariant todo <= Due(entry, now)
        invariant instances == EstimatedBut(entry, now, ctx, todo)
        decreases todo
      {
        var journey :| journey in todo;
        EstimatedStep(entry, now, ctx, todo, journey);
        todo := todo - {journey};
        if journey in instances && instances[journey].lifecycle != Cancelled {
          var instance := instances[journey];
          instances := instances[journey := EstimatedInstance(instance, ctx.estimate(instance, now))];
        }
      }
      dirty := {};
    }

    method RefreshJourney(journey: JourneyKey, now: int, ctx: Context, ghost entry: State, ghost done: set<JourneyKey>)
      returns (event: Option<Effect>)
      requires AllFit(entry.instances) && journey in entry.instances && journey !in done
      requires View() == RefreshedSoFar(entry, now, ctx, done)
      modifies this`instances, this`dirty
      ensures View() == RefreshedSoFar(entry, now, ctx, done + {journey})
      ensures event == if Kept(entry, journey, now, ctx) then CoreSteps.RefreshJourney(entry, journey, now, ctx).event else None
    {
      event := None;
      RefreshedInstancesStep(entry, now, ctx, done, journey);
      RefreshedDirtyStep(entry, now, ctx, done, journey);
      var instance := instances[journey];
      if now - instance.freshness.heardAt > ctx.policy.forgetAfter && !HeldByVehicle(vehicles, journey) {
        instances := instances - {journey};
      } else {
        var r := RefreshOne(instance, Unconfirmed(vehicles, journey), now, ctx);
        instances := instances[journey := r.instance];
        event := r.event;
        if event.Some? {
          dirty := dirty + {journey};
        }
      }
    }

    /** Forget vehicles and journeys long unseen; flag stale and lost journeys. `order` is the order
        the journeys were taken in. */
    method Refresh(now: int, ctx: Context) returns (effects: seq<Effect>, ghost order: seq<JourneyKey>)
      requires Inv(View(), ctx)
      modifies this
      ensures Enumerates(order, old(instances).Keys)
      ensures AllFit(old(View()).instances)
      ensures View() == CoreSteps.Refresh(old(View()), now, ctx)
      ensures effects == RefreshEffects(old(View()), now, ctx, order)
    {
      ghost var entry := View();
      InvFits(entry, ctx);
      Forget(now, ctx);
      effects, order := RefreshAll(now, ctx, entry);
    }

    /** Vehicles not seen for long are forgotten. */
    method Forget(now: int, ctx: Context)
      requires AllFit(instances)
      modifies this`vehicles
      ensures View() == RefreshedSoFar(old(View()), now, ctx, {})
    {
      AllRefreshed(View(), now, ctx);
      vehicles := map v | v in vehicles && now - vehicles[v].lastSeen <= ctx.policy.forgetAfter :: vehicles[v];
      assert vehicles == Remembered(old(View()), now, ctx);
    }

    method RefreshAll(now: int, ctx: Context, ghost entry: State) returns (effects: seq<Effect>, ghost order: seq<JourneyKey>)
      requires AllFit(entry.instances) && View() == RefreshedSoFar(entry, now, ctx, {})
      modifies this
      ensures Enumerates(order, entry.instances.Keys)
      ensures View() == CoreSteps.Refresh(entry, now, ctx)
      ensures effects == RefreshEffects(entry, now, ctx, order)
    {
      AllRefreshed(entry, now, ctx);
      effects, order := [], [];
      var todo := instances.Keys;
      ghost var done: set<JourneyKey> := {};
      while todo != {}
        invariant done + todo == entry.instances.Keys && done !! todo
        invariant Enumerates(order, done)
        invariant View() == RefreshedSoFar(entry, now, ctx, done)
        invariant effects == RefreshEffects(entry, now, ctx, order)
        decreases todo
      {
        var journey :| journey in todo;
        var event := RefreshJourney(journey, now, ctx, entry, done);
        EnumeratesMore(order, done, journey);
        RefreshEffectsMore(entry, now, ctx, order, journey);
        todo, done, order := todo - {journey}, done + {journey}, order + [journey];
        if event.Some? {
          effects := effects + [event.value];
        }
      }
      assert done == entry.instances.Keys;
    }

    // ----- the release switch ------------------------------------------------------------------

    method RebaseJourney(journey: JourneyKey, ctx: Context, ghost entry: State, ghost done: set<JourneyKey>)
      returns (found: Option<Trip>, snapshots: seq<Effect>)
      requires Resolvable(entry, ctx) && feed == ctx.feed
      requires journey in entry.instances && journey !in done
      requires View() == RebasedSoFar(entry, ctx, done)
      modifies this`instances, this`dirty
      ensures View() == RebasedSoFar(entry, ctx, done + {journey})
      ensures found == Resolve(journey, ctx) && snapshots == JourneySnapshots(entry, ctx, journey)
    {
      RebasedStep(entry, ctx, done, journey);
      var instance := instances[journey];
      snapshots := [];
      found := Resolve(journey, ctx);
      if found.None? {
        instances := instances - {journey};
      } else {
        LaidSpansCover(ctx.feed, found.value, journey.day);
        instances := instances[journey := RebasedInstance(instance, journey, found.value, ctx)];
        dirty := dirty + {journey};
        snapshots := Snapshots(journey, JourneySpansOf(ctx.feed, found.value, journey.day), found.value,
                               ctx.releaseId, instance.freshness.updatedAt);
      }
    }

    method RebaseJourneys(ctx: Context)
      returns (effects: seq<Effect>, moved: map<JourneyKey, TripId>, ghost order: seq<JourneyKey>)
      requires Resolvable(View(), ctx) && feed == ctx.feed
      modifies this`instances, this`dirty
      ensures Enumerates(order, old(instances).Keys)
      ensures View() == RebasedSoFar(old(View()), ctx, old(instances).Keys)
      ensures moved == MovedSoFar(old(View()), ctx, old(instances).Keys)
      ensures effects == RebaseEffects(old(View()), ctx, order)
    {
      ghost var entry := View();
      NoneRebased(entry, ctx);
      effects, moved, order := [], map[], [];
      var todo := instances.Keys;
      ghost var done: set<JourneyKey> := {};
      while todo != {}
        invariant done + todo == entry.instances.Keys && done !! todo
        invariant Enumerates(order, done)
        invariant View() == RebasedSoFar(entry, ctx, done)
        invariant moved == MovedSoFar(entry, ctx, done)
        invariant effects == RebaseEffects(entry, ctx, order)
        decreases todo
      {
        var journey :| journey in todo;
        var found, snapshots := RebaseJourney(journey, ctx, entry, done);
        EnumeratesMore(order, done, journey);
        RebaseEffectsMore(entry, ctx, order, journey);
        MovedStep(entry, ctx, done, journey);
        todo, done, order := todo - {journey}, done + {journey}, order + [journey];
        if found.Some? {
          moved := moved[journey := found.value.tripId];
        }
        effects := effects + snapshots;
      }
      assert done == entry.instances.Keys;
    }

    method RebaseVehicles(moved: map<JourneyKey, TripId>)
      requires moved == map j | j in instances :: instances[j].tripId
      modifies this`vehicles
      ensures vehicles == map v | v in old(vehicles) :: RebasedVehicle(old(vehicles)[v], instances)
    {
      ghost var entry := vehicles;
      var rest := vehicles.Keys;
      while rest != {}
        invariant rest <= entry.Keys && vehicles.Keys == entry.Keys
        invariant forall v <- vehicles ::
                    vehicles[v] == if v in rest then entry[v] else RebasedVehicle(entry[v], instances)
        decreases rest
      {
        var v :| v in rest;
        rest := rest - {v};
        var binding := vehicles[v].binding;
        if binding.Some? {
          if binding.value.journey in moved {
            vehicles := vehicles[v := vehicles[v].(binding := Some(binding.value.(tripId := moved[binding.value.journey])))];
          } else {
            vehicles := vehicles[v := vehicles[v].(binding := None, status := Unmatched, reason := Some(NoTrip))];
          }
        }
      }
    }

    /** Move live journeys onto the release of `ctx`, taking them in `order`. */
    method Rebase(ctx: Context) returns (effects: seq<Effect>, ghost order: seq<JourneyKey>)
      requires Resolvable(View(), ctx) && feed == ctx.feed
      modifies this
      ensures Enumerates(order, old(instances).Keys)
      ensures View() == CoreSteps.Rebase(old(View()), ctx)
      ensures effects == RebaseEffects(old(View()), ctx, order)
    {
      var moved: map<JourneyKey, TripId>;
      AllRebased(View(), ctx);
      effects, moved, order := RebaseJourneys(ctx);
      RebaseVehicles(moved);
    }
  }
}
