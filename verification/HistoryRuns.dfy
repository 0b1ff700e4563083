/** History over whole runs: every event and platform it is given names a call of a schedule
    snapshot it was given before, for that public journey and under that visit number. */
module HistoryRuns {
  import opened Model
  import opened Runs
  import opened RunLayout
  import opened Core
  import opened CoreSteps
  import opened CoreInvariant
  import opened CoreRuns
  import opened Cancellation
  import opened TripAgreement

  // ----- what history has been given -----------------------------------------------------------

  /** An effect naming a call: a stop event or a platform. */
  predicate NamesCall(e: Effect) {
    e.WriteEvent? || e.RecordPlatform?
  }

  ghost predicate ListedEffect(log: seq<Effect>, e: Effect) {
    NamesCall(e) ==> Listed(log, e.public, e.location, e.visit)
  }

  /** Every effect naming a call comes after a snapshot listing it. */
  ghost predicate HistoryHolds(log: seq<Effect>) {
    forall k :: 0 <= k < |log| ==> ListedEffect(log[..k], log[k])
  }

  lemma ListedEffectMore(log: seq<Effect>, more: seq<Effect>, e: Effect)
    requires ListedEffect(log, e)
    ensures ListedEffect(log + more, e)
  {
    if NamesCall(e) {
      ListedMore(log, more, e.public, e.location, e.visit);
    }
  }

  lemma HistoryMore(log: seq<Effect>, more: seq<Effect>)
    requires HistoryHolds(log)
    requires forall e <- more :: ListedEffect(log, e)
    ensures HistoryHolds(log + more)
  {
    var all := log + more;
    forall k | 0 <= k < |all| ensures ListedEffect(all[..k], all[k]) {
      if k < |log| {
        assert all[..k] == log[..k];
      } else {
        assert all[k] == more[k - |log|];
        ListedEffectMore(log, more[..k - |log|], all[k]);
        assert all[..k] == log + more[..k - |log|];
      }
    }
  }

  // ----- what an instance will be named by -----------------------------------------------------

  /** Every history identity an instance can give, and every event it holds back, is listed. */
  ghost predicate Covered(log: seq<Effect>, instance: Instance) {
    && Within(instance.journeys, |instance.calls|)
    && (forall i, kind :: 0 <= i < |instance.calls| ==>
          var t := Triple(instance.journey, instance.journeys, instance.calls, i, kind);
          Listed(log, t.0, t.1, t.2))
    && (forall e <- instance.held :: ListedEffect(log, e))
  }

  ghost predicate AllCovered(log: seq<Effect>, s: State) {
    forall j <- s.instances :: Covered(log, s.instances[j])
  }

  lemma CoveredMore(log: seq<Effect>, more: seq<Effect>, instance: Instance)
    requires Covered(log, instance)
    ensures Covered(log + more, instance)
  {
    forall i, kind | 0 <= i < |instance.calls|
      ensures var t := Triple(instance.journey, instance.journeys, instance.calls, i, kind);
              Listed(log + more, t.0, t.1, t.2)
    {
      var t := Triple(instance.journey, instance.journeys, instance.calls, i, kind);
      ListedMore(log, more, t.0, t.1, t.2);
    }
    forall e | e in instance.held ensures ListedEffect(log + more, e) {
      ListedEffectMore(log, more, e);
    }
  }

  lemma AllCoveredMore(log: seq<Effect>, more: seq<Effect>, s: State)
    requires AllCovered(log, s)
    ensures AllCovered(log + more, s)
  {
    forall j | j in s.instances ensures Covered(log + more, s.instances[j]) {
      CoveredMore(log, more, s.instances[j]);
    }
  }

  lemma SameTriples(a: Instance, b: Instance, i: int, kind: EventKind)
    requires SameLayout(a, b) && Within(a.journeys, |a.calls|) && 0 <= i < |a.calls|
    ensures Triple(a.journey, a.journeys, a.calls, i, kind) == Triple(b.journey, b.journeys, b.calls, i, kind)
  {
    assert CallPlaces(a.calls) == CallPlaces(b.calls);
  }

  lemma CoveredSame(log: seq<Effect>, a: Instance, b: Instance)
    requires Covered(log, a) && SameLayout(a, b)
    requires forall e <- b.held :: ListedEffect(log, e)
    ensures Covered(log, b)
  {
    forall i, kind | 0 <= i < |b.calls|
      ensures var t := Triple(b.journey, b.journeys, b.calls, i, kind); Listed(log, t.0, t.1, t.2)
    {
      SameTriples(a, b, i, kind);
      var t := Triple(a.journey, a.journeys, a.calls, i, kind);
      assert Listed(log, t.0, t.1, t.2);
    }
  }

  /** Opening an instance gives history the snapshots that list all its calls. */
  lemma NewCovered(m: Match, ctx: Context, o: Observation, log: seq<Effect>)
    requires WellLaid(m.trip)
    ensures Within(JourneySpansOf(ctx.feed, m.trip, m.journey.day), |m.trip.calls|)
    ensures Covered(log + SnapshotsOf(m.journey, JourneySpansOf(ctx.feed, m.trip, m.journey.day), m.trip, ctx.releaseId, o.At()),
                    NewInstance(m, ctx, o))
  {
    LaidSpansCover(ctx.feed, m.trip, m.journey.day);
    var instance := NewInstance(m, ctx, o);
    var snapshots := SnapshotsOf(m.journey, instance.journeys, m.trip, ctx.releaseId, o.At());
    forall i, kind | 0 <= i < |instance.calls|
      ensures var t := Triple(m.journey, instance.journeys, instance.calls, i, kind);
              Listed(log + snapshots, t.0, t.1, t.2)
    {
      TriplesListed(ctx.feed, m.trip, m.journey, instance.calls, i, kind, ctx.releaseId, o.At());
      var t := Triple(m.journey, instance.journeys, instance.calls, i, kind);
      ListedMore(snapshots, log, t.0, t.1, t.2);
    }
  }

  // ----- operations ----------------------------------------------------------------------------

  /** The log of a run and its state agree. */
  ghost predicate Agree(log: seq<Effect>, s: State) {
    HistoryHolds(log) && AllCovered(log, s)
  }

  lemma OpenAgrees(log: seq<Effect>, s: State, m: Match, ctx: Context, o: Observation)
    requires Agree(log, s) && WellLaid(m.trip)
    ensures var opening := Open(s, m, ctx, o); Agree(log + opening.effects, opening.state)
  {
    var opening := Open(s, m, ctx, o);
    OpenKeeps(s, m, ctx, o);
    OpenFaithful(s, m, ctx, o);
    AllCoveredMore(log, opening.effects, s);
    if m.journey in s.instances {
      assert log + opening.effects == log;
    } else {
      NewCovered(m, ctx, o, log);
      forall e | e in opening.effects ensures ListedEffect(log, e) {
        assert !NamesCall(e);
      }
      HistoryMore(log, opening.effects);
    }
  }

  /** One journey changed within its layout, its effects naming calls it covers. */
  lemma ChangeAgrees(log: seq<Effect>, s: State, after: State, j: JourneyKey, effects: seq<Effect>)
    requires Agree(log, s)
    requires j in s.instances && j in after.instances
    requires after.instances == s.instances[j := after.instances[j]]
    requires Covered(log, after.instances[j])
    requires forall e <- effects :: ListedEffect(log, e)
    ensures Agree(log + effects, after)
  {
    HistoryMore(log, effects);
    forall k | k in after.instances ensures Covered(log + effects, after.instances[k]) {
      CoveredMore(log, effects, after.instances[k]);
    }
  }

  lemma EventsListed(log: seq<Effect>, instance: Instance, crossings: seq<Crossing>, source: string)
    requires Covered(log, instance)
    requires forall c <- crossings :: c.call < |instance.calls|
    ensures forall e <- CrossingEvents(instance, crossings, source) :: ListedEffect(log, e)
  {
    var events := CrossingEvents(instance, crossings, source);
    forall e | e in events ensures ListedEffect(log, e) {
      var k :| 0 <= k < |events| && events[k] == e;
      assert crossings[k] in crossings;
      var t := Triple(instance.journey, instance.journeys, instance.calls, crossings[k].call, crossings[k].kind);
      assert Listed(log, t.0, t.1, t.2);
    }
  }

  lemma DriveCovered(
    log: seq<Effect>, instance: Instance, journey: JourneyKey, o: Observation, binding: Binding, before: Option<Position>,
    ctx: Context)
    requires Sound(ctx) && Laid(instance, journey, ctx) && Covered(log, instance)
    requires |ctx.trip(instance.tripId).calls| == |instance.calls|
    ensures var moved := Drive(instance, ctx.trip(instance.tripId), o, binding, before, ctx);
            Covered(log, moved.instance) && forall e <- moved.effects :: ListedEffect(log, e)
  {
    var trip := ctx.trip(instance.tripId);
    var lifecycle := LifecycleAfter(instance, trip, o, ctx.span(trip, binding.journey).0, before, ctx);
    var restored := instance.lifecycle == Cancelled && lifecycle != Cancelled;
    var live := instance.(lifecycle := lifecycle, calls := if restored then CallStates(trip) else instance.calls);
    assert SameLayout(instance, live);
    CoveredSame(log, instance, live);
    var moved := Drive(instance, trip, o, binding, before, ctx);
    if lifecycle != Cancelled {
      EventsListed(log, live, ctx.track(live, trip, o).crossings, o.source);
      DriveLayout(instance, journey, o, binding, before, ctx);
      CoveredSame(log, instance, moved.instance);
    }
  }

  lemma MoveCovered(
    log: seq<Effect>, s: State, o: Observation, v: VehicleId, binding: Binding, before: Option<Position>, ctx: Context, tripOf: TripOf)
    requires OneTrip(ctx, tripOf) && Aligned(s, ctx, tripOf) && Names(binding, s.instances, ctx)
    requires binding.tripId == tripOf(binding.journey)
    requires Covered(log, s.instances[binding.journey])
    ensures var moved := MoveOf(s, o, v, binding, before, ctx);
            Covered(log, moved.instance) && forall e <- moved.effects :: ListedEffect(log, e)
  {
    var instance := s.instances[binding.journey];
    assert LaidOn(instance, binding.journey, ctx, tripOf);
    LaidFits(instance, binding.journey, ctx);
    if Leads(instance, v, o.At(), ctx) {
      var lead := WithLead(instance, v, o.At());
      assert SameLayout(instance, lead);
      CoveredSame(log, instance, lead);
      DriveCovered(log, lead, binding.journey, o, binding, before, ctx);
    }
  }

  /** An operation's outcome agrees with the log it extends. */
  ghost predicate Extends(log: seq<Effect>, stepped: Stepped) {
    Agree(log + stepped.effects, stepped.state)
  }

  lemma ExtendsChained(log: seq<Effect>, first: seq<Effect>, next: Stepped)
    requires Extends(log + first, next)
    ensures Extends(log, Stepped(next.state, first + next.effects))
  {
    assert log + (first + next.effects) == log + first + next.effects;
  }

  lemma FollowAgrees(
    log: seq<Effect>, s: State, o: Observation, v: VehicleId, key: Option<KeyRef>, binding: Binding,
    episode: Option<Episode>, before: Option<Position>, ctx: Context, tripOf: TripOf)
    requires OneTrip(ctx, tripOf) && Aligned(s, ctx, tripOf) && Names(binding, s.instances, ctx) && Agree(log, s)
    requires binding.tripId == tripOf(binding.journey)
    ensures Extends(log, Follow(s, o, v, key, binding, episode, before, ctx))
  {
    MoveCovered(log, s, o, v, binding, before, ctx, tripOf);
    var moved := MoveOf(s, o, v, binding, before, ctx);
    var after := Conclude(s, moved, o, v, key, binding, episode);
    ChangeAgrees(log, s, after.state, binding.journey, after.effects);
  }

  /** Forgetting journeys and naming no call. */
  lemma FewerAgree(log: seq<Effect>, s: State, stepped: Stepped)
    requires Agree(log, s)
    requires forall j <- stepped.state.instances :: j in s.instances && stepped.state.instances[j] == s.instances[j]
    requires forall e <- stepped.effects :: !NamesCall(e)
    ensures Extends(log, stepped)
  {
    HistoryMore(log, stepped.effects);
    AllCoveredMore(log, stepped.effects, s);
  }

  lemma BindNewAgrees(log: seq<Effect>, s: State, m: Match, v: VehicleId, how: BindingMethod, ctx: Context, o: Observation)
    requires Agree(log, s) && WellLaid(m.trip)
    ensures Extends(log, BindNew(s, m, v, how, ctx, o).stepped)
  {
    OpenAgrees(log, s, m, ctx, o);
    var opening := Open(s, m, ctx, o);
    var given := Assignments(opening.state.instances[m.journey], v, o.At());
    FewerAgree(log + opening.effects, opening.state, Stepped(opening.state, given));
    ExtendsChained(log, opening.effects, Stepped(opening.state, given));
  }

  lemma ChooseKeyedAgrees(log: seq<Effect>, s: State, o: Observation, v: VehicleId, key: KeyRef, ctx: Context)
    requires Sound(ctx) && Inv(s, ctx) && Agree(log, s)
    ensures match ChooseKeyed(s, o, v, key, ctx)
            case Bound(stepped, _) => Extends(log, stepped)
            case NotBound(_, _) => true
  {
    assert log + [] == log;
    BindProper(o, ctx, o.At());
    match Bind(o, ctx, o.At())
    case Missed(_) =>
    case Matched(m) => BindNewAgrees(log, s, m, v, Keyed, ctx, o);
  }

  lemma ChooseInferredAgrees(log: seq<Effect>, s: State, o: Observation, v: VehicleId, line: KeyRef, episode: Episode, ctx: Context)
    requires Sound(ctx) && Inv(s, ctx) && Agree(log, s)
    ensures match ChooseInferred(s, o, v, line, episode, ctx)
            case Bound(stepped, _) => Extends(log, stepped)
            case NotBound(_, _) => true
  {
    assert log + [] == log;
    match ctx.inferTrip(line, episode, o)
    case Missed(_) =>
    case Matched(m) =>
      assert Proper(ctx.inferTrip(line, episode, o), ctx);
      BindNewAgrees(log, s, m, v, Inferred, ctx, o);
  }

  lemma ChosenAgrees(
    log: seq<Effect>, chosen: Stepped, o: Observation, v: VehicleId, key: Option<KeyRef>, binding: Binding,
    episode: Option<Episode>, fix: Option<Position>, ctx: Context, tripOf: TripOf)
    requires OneTrip(ctx, tripOf) && Aligned(chosen.state, ctx, tripOf) && Names(binding, chosen.state.instances, ctx)
    requires binding.tripId == tripOf(binding.journey) && Extends(log, chosen)
    ensures var followed := Follow(chosen.state, o, v, key, binding, episode, fix, ctx);
            Extends(log, Stepped(followed.state, chosen.effects + followed.effects))
  {
    FollowAgrees(log + chosen.effects, chosen.state, o, v, key, binding, episode, fix, ctx, tripOf);
    ExtendsChained(log, chosen.effects, Follow(chosen.state, o, v, key, binding, episode, fix, ctx));
  }

  lemma StepVehicleAgrees(log: seq<Effect>, s: State, o: Observation, v: VehicleId, ctx: Context, tripOf: TripOf)
    requires OneTrip(ctx, tripOf) && Aligned(s, ctx, tripOf) && Agree(log, s)
    ensures Extends(log, StepVehicle(s, o, v, ctx))
  {
    var previous := VehicleBefore(s, v);
    var fix := if previous.Some? then previous.value.position else None;
    var stepped := StepVehicle(s, o, v, ctx);
    if Repeated(previous, o) {
      FewerAgree(log, s, stepped);
    } else if o.facts.keys != [] {
      ChooseKeyedSafe(s, o, v, o.facts.keys[0], ctx);
      ChooseKeyedFaithful(s, o, v, o.facts.keys[0], ctx);
      ChooseKeyedAligned(s, o, v, o.facts.keys[0], ctx, tripOf);
      ChooseKeyedAgrees(log, s, o, v, o.facts.keys[0], ctx);
      match ChooseKeyed(s, o, v, o.facts.keys[0], ctx)
      case NotBound(_, _) => FewerAgree(log, s, stepped);
      case Bound(chosen, binding) => ChosenAgrees(log, chosen, o, v, Some(o.facts.keys[0]), binding, None, fix, ctx, tripOf);
    } else {
      var prior := if previous.Some? then previous.value.episode else None;
      var episode := if o.facts.line.Some? then ctx.nextEpisode(prior, o) else None;
      if episode.None? {
        FewerAgree(log, s, stepped);
      } else {
        ChooseInferredSafe(s, o, v, o.facts.line.value, episode.value, ctx);
        ChooseInferredFaithful(s, o, v, o.facts.line.value, episode.value, ctx);
        ChooseInferredAligned(s, o, v, o.facts.line.value, episode.value, ctx, tripOf);
        ChooseInferredAgrees(log, s, o, v, o.facts.line.value, episode.value, ctx);
        match ChooseInferred(s, o, v, o.facts.line.value, episode.value, ctx)
        case NotBound(_, _) => FewerAgree(log, s, stepped);
        case Bound(chosen, binding) => ChosenAgrees(log, chosen, o, v, None, binding, episode, fix, ctx, tripOf);
      }
    }
  }

  /** A board row records its platform under an identity history has been given. */
  lemma PlatformAgrees(log: seq<Effect>, opening: Stepped, m: Match, o: Observation, fact: PlatformFact, ctx: Context)
    requires m.journey in opening.state.instances
    requires var instance := opening.state.instances[m.journey];
             var i := BoardCall(m.trip.calls, m.journey.day, fact, ctx);
             Within(instance.journeys, |instance.calls|) && (i.Some? ==> i.value < |instance.calls|)
    requires Extends(log, opening)
    ensures Extends(log, AssignPlatform(opening, m, o, fact, ctx))
  {
    var all, s := log + opening.effects, opening.state;
    var stepped := AssignPlatform(opening, m, o, fact, ctx);
    var tail := stepped.effects[|opening.effects|..];
    assert stepped.effects == opening.effects + tail && |tail| == 2;
    var instance := s.instances[m.journey];
    assert Covered(all, instance);
    match BoardCall(m.trip.calls, m.journey.day, fact, ctx) {
      case None =>
      case Some(i) =>
        var t := Triple(instance.journey, instance.journeys, instance.calls, i, fact.kind);
        assert Listed(all, t.0, t.1, t.2);
        assert ListedEffect(all, tail[0]);
        assert SameLayout(instance, stepped.state.instances[m.journey]);
        CoveredSame(all, instance, stepped.state.instances[m.journey]);
    }
    ChangeAgrees(all, s, stepped.state, m.journey, tail);
    ExtendsChained(log, opening.effects, Stepped(stepped.state, tail));
  }

  lemma CancelJourneyAgrees(log: seq<Effect>, opening: Stepped, j: JourneyKey, o: Observation)
    requires j in opening.state.instances && Extends(log, opening)
    ensures Extends(log, CancelJourney(opening, j, o))
  {
    var stepped := CancelJourney(opening, j, o);
    var tail := stepped.effects[|opening.effects|..];
    assert stepped.effects == opening.effects + tail;
    var instance := opening.state.instances[j];
    assert Covered(log + opening.effects, instance);
    assert SameLayout(instance, stepped.state.instances[j]);
    CoveredSame(log + opening.effects, instance, stepped.state.instances[j]);
    ChangeAgrees(log + opening.effects, opening.state, stepped.state, j, tail);
    ExtendsChained(log, opening.effects, Stepped(stepped.state, tail));
  }

  lemma ApplyPlatformAgrees(log: seq<Effect>, s: State, o: Observation, fact: PlatformFact, ctx: Context, tripOf: TripOf)
    requires OneTrip(ctx, tripOf) && Aligned(s, ctx, tripOf) && Agree(log, s)
    ensures Extends(log, ApplyPlatform(s, o, fact, ctx))
  {
    BindProper(o, ctx, fact.scheduled);
    match Bind(o, ctx, fact.scheduled)
    case Missed(_) => FewerAgree(log, s, ApplyPlatform(s, o, fact, ctx));
    case Matched(m) =>
      BoardCallWithin(s, o, fact, ctx, tripOf);
      OpenSafe(s, m, ctx, o);
      OpenAgrees(log, s, m, ctx, o);
      assert Covered(log + Open(s, m, ctx, o).effects, Open(s, m, ctx, o).state.instances[m.journey]);
      PlatformAgrees(log, Open(s, m, ctx, o), m, o, fact, ctx);
  }

  lemma CancelAgrees(log: seq<Effect>, s: State, o: Observation, ctx: Context)
    requires Sound(ctx) && Inv(s, ctx) && Agree(log, s)
    ensures Extends(log, Cancel(s, o, ctx))
  {
    BindProper(o, ctx, o.At());
    match Bind(o, ctx, o.At())
    case Missed(_) => FewerAgree(log, s, Cancel(s, o, ctx));
    case Matched(m) =>
      OpenSafe(s, m, ctx, o);
      OpenAgrees(log, s, m, ctx, o);
      CancelJourneyAgrees(log, Open(s, m, ctx, o), m.journey, o);
  }

  lemma StepAgrees(log: seq<Effect>, s: State, o: Observation, ctx: Context, tripOf: TripOf)
    requires OneTrip(ctx, tripOf) && Aligned(s, ctx, tripOf) && o.feed == s.feed && Agree(log, s)
    ensures Extends(log, Step(s, o, ctx))
  {
    match VehicleOf(o)
    case Some(v) => StepVehicleAgrees(log, s, o, v, ctx, tripOf);
    case None =>
      if o.facts.platform.Some? {
        ApplyPlatformAgrees(log, s, o, o.facts.platform.value, ctx, tripOf);
      } else if o.facts.cancelled {
        CancelAgrees(log, s, o, ctx);
      } else {
        FewerAgree(log, s, Step(s, o, ctx));
      }
  }

  // ----- ticks and switches --------------------------------------------------------------------

  lemma RefreshOneCovered(log: seq<Effect>, instance: Instance, unconfirmed: bool, now: int, ctx: Context)
    requires Covered(log, instance) && instance.calls != []
    ensures var r := RefreshOne(instance, unconfirmed, now, ctx);
            Covered(log, r.instance) && (r.event.Some? ==> ListedEffect(log, r.event.value))
  {
    var r := RefreshOne(instance, unconfirmed, now, ctx);
    RefreshOneLayout(instance, unconfirmed, now, ctx);
    CoveredSame(log, instance, r.instance);
    var t := Triple(instance.journey, instance.journeys, instance.calls, |instance.calls| - 1, Arrival);
    assert Listed(log, t.0, t.1, t.2);
  }

  lemma {:induction false} RefreshEffectsListed(log: seq<Effect>, s: State, now: int, ctx: Context, order: seq<JourneyKey>)
    requires AllFit(s.instances) && AllCovered(log, s)
    ensures forall e <- RefreshEffects(s, now, ctx, order) :: ListedEffect(log, e)
  {
    if order != [] {
      RefreshEffectsListed(log, s, now, ctx, order[..|order| - 1]);
      var j := order[|order| - 1];
      if j in s.instances {
        RefreshOneCovered(log, s.instances[j], Unconfirmed(Remembered(s, now, ctx), j), now, ctx);
      }
    }
  }

  lemma RefreshAgrees(log: seq<Effect>, s: State, now: int, ctx: Context, order: seq<JourneyKey>)
    requires Inv(s, ctx) && AllFit(s.instances) && Agree(log, s)
    ensures Agree(log + RefreshEffects(s, now, ctx, order), Refresh(s, now, ctx))
  {
    var effects, after := RefreshEffects(s, now, ctx, order), Refresh(s, now, ctx);
    RefreshEffectsListed(log, s, now, ctx, order);
    HistoryMore(log, effects);
    forall j | j in after.instances ensures Covered(log + effects, after.instances[j]) {
      RefreshOneCovered(log, s.instances[j], Unconfirmed(Remembered(s, now, ctx), j), now, ctx);
      CoveredMore(log, effects, after.instances[j]);
    }
  }

  lemma EstimateAgrees(log: seq<Effect>, s: State, now: int, ctx: Context)
    requires Agree(log, s)
    ensures Agree(log, EstimateAll(s, now, ctx))
  {
    var after := EstimateAll(s, now, ctx);
    forall j | j in after.instances ensures Covered(log, after.instances[j]) {
      EstimatedLayout(s.instances[j], ctx.estimate(s.instances[j], now));
      CoveredSame(log, s.instances[j], after.instances[j]);
    }
  }

  lemma {:induction false} RebaseEffectsList(s: State, ctx: Context, order: seq<JourneyKey>, j: JourneyKey, i: int, kind: EventKind)
    requires Resolvable(s, ctx) && j in order && j in s.instances && Resolve(j, ctx).Some? && s.instances[j].journey == j
    requires 0 <= i < |Resolve(j, ctx).value.calls|
    ensures var after := RebasedInstance(s.instances[j], j, Resolve(j, ctx).value, ctx);
            && Within(after.journeys, |after.calls|)
            && var t := Triple(j, after.journeys, after.calls, i, kind);
               Listed(RebaseEffects(s, ctx, order), t.0, t.1, t.2)
    decreases |order|
  {
    var trip := Resolve(j, ctx).value;
    var after := RebasedInstance(s.instances[j], j, trip, ctx);
    var front, last := order[..|order| - 1], order[|order| - 1];
    var at := s.instances[j].freshness.updatedAt;
    RebasedLaid(s.instances[j], j, ctx);
    TriplesListed(ctx.feed, trip, j, after.calls, i, kind, ctx.releaseId, at);
    var t := Triple(j, after.journeys, after.calls, i, kind);
    if last == j {
      ListedMore(SnapshotsOf(j, after.journeys, trip, ctx.releaseId, at), RebaseEffects(s, ctx, front), t.0, t.1, t.2);
    } else {
      RebaseEffectsList(s, ctx, front, j, i, kind);
      var all, some := RebaseEffects(s, ctx, order), RebaseEffects(s, ctx, front);
      assert all[..|some|] == some && all == some + all[|some|..];
      ListedMore(some, all[|some|..], t.0, t.1, t.2);
    }
  }

  lemma {:induction false} RebaseEffectsQuiet(s: State, ctx: Context, order: seq<JourneyKey>)
    requires Resolvable(s, ctx)
    ensures forall e <- RebaseEffects(s, ctx, order) :: !NamesCall(e)
  {
    if order != [] {
      RebaseEffectsQuiet(s, ctx, order[..|order| - 1]);
    }
  }

  lemma RebasedCovered(log: seq<Effect>, s: State, ctx: Context, order: seq<JourneyKey>, j: JourneyKey)
    requires Resolvable(s, ctx) && j in order && j in s.instances && Resolve(j, ctx).Some? && s.instances[j].journey == j
    requires forall e <- s.instances[j].held :: ListedEffect(log, e)
    ensures Covered(log + RebaseEffects(s, ctx, order), RebasedInstance(s.instances[j], j, Resolve(j, ctx).value, ctx))
  {
    var after := RebasedInstance(s.instances[j], j, Resolve(j, ctx).value, ctx);
    var effects := RebaseEffects(s, ctx, order);
    LaidSpansCover(ctx.feed, Resolve(j, ctx).value, j.day);
    forall i, kind | 0 <= i < |after.calls|
      ensures var t := Triple(after.journey, after.journeys, after.calls, i, kind); Listed(log + effects, t.0, t.1, t.2)
    {
      RebaseEffectsList(s, ctx, order, j, i, kind);
      var t := Triple(j, after.journeys, after.calls, i, kind);
      ListedMore(effects, log, t.0, t.1, t.2);
    }
    forall e | e in after.held ensures ListedEffect(log + effects, e) {
      ListedEffectMore(log, effects, e);
    }
  }

  lemma RebaseAgrees(log: seq<Effect>, s: State, ctx: Context, order: seq<JourneyKey>)
    requires Resolvable(s, ctx) && Agree(log, s) && Enumerates(order, s.instances.Keys)
    requires forall j <- s.instances :: s.instances[j].journey == j
    ensures Agree(log + RebaseEffects(s, ctx, order), Rebase(s, ctx))
  {
    var effects, after := RebaseEffects(s, ctx, order), Rebase(s, ctx);
    RebaseEffectsQuiet(s, ctx, order);
    HistoryMore(log, effects);
    forall j | j in after.instances ensures Covered(log + effects, after.instances[j]) {
      assert Covered(log, s.instances[j]);
      RebasedCovered(log, s, ctx, order, j);
    }
  }

  // ----- whole runs ----------------------------------------------------------------------------

  lemma ApplyAgrees(log: seq<Effect>, w: World, op: Op)
    requires AlignedWorld(w) && Ready(w) && Allowed(w, op) && Agree(log, w.state)
    ensures var out := Apply(w, op); Agree(log + out.effects, out.world.state)
  {
    var tripOf :| OneTrip(w.ctx, tripOf) && Aligned(w.state, w.ctx, tripOf);
    match op
    case Observe(o) => StepAgrees(log, w.state, o, w.ctx, tripOf);
    case Housekeep(now, order) =>
      InvFits(w.state, w.ctx);
      RefreshAgrees(log, w.state, now, w.ctx, order);
    case Estimating(now) =>
      EstimateAgrees(log, w.state, now, w.ctx);
      assert log + [] == log;
    case Switch(ctx, order) =>
      assert forall j <- w.state.instances :: Standing(w.state.instances[j], j);
      RebaseAgrees(log, w.state, ctx, order);
  }

  /** Over any run, release switches included, every stop event and platform given to history names
      a call that a snapshot of that public journey, given before, lists under that visit number;
      and so does every identity a live instance can still give. */
  lemma {:induction false} HistoryScheduled(w: World, ops: seq<Op>)
    requires AlignedWorld(w) && Ready(w) && AllowedRun(w, ops) && OneTripOps(ops)
    requires w.state.instances == map[]
    ensures HistoryHolds(Log(w, ops)) && AllCovered(Log(w, ops), After(w, ops).state)
    decreases |ops|
  {
    if ops != [] {
      var front := ops[..|ops| - 1];
      assert forall i | 0 <= i < |front| :: front[i] == ops[i];
      AfterAligned(w, front);
      HistoryScheduled(w, front);
      ApplyAgrees(Log(w, ops[..|ops| - 1]), After(w, ops[..|ops| - 1]), ops[|ops| - 1]);
    }
  }
}
