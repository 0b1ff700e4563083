/** Whole runs of the core: any interleaving of observations, board rows, cancellations, ticks and
    release switches, and what no such run can do to bindings and cancellations. */
module CoreRuns {
  import opened Model
  import opened Runs
  import opened RunLayout
  import opened Core
  import opened CoreSteps
  import opened CoreInvariant

  /** An operation of the runner. A tick's housekeeping and a switch take the journeys in `order`. */
  datatype Op =
    | Observe(o: Observation)
    | Housekeep(now: int, order: seq<JourneyKey>)
    | Estimating(now: int)
    | Switch(ctx: Context, order: seq<JourneyKey>)

  datatype World = World(state: State, ctx: Context)
  datatype Outcome = Outcome(world: World, effects: seq<Effect>)

  ghost predicate Ready(w: World) {
    Sound(w.ctx) && Inv(w.state, w.ctx)
  }

  ghost predicate Enumerates(order: seq<JourneyKey>, journeys: set<JourneyKey>) {
    && (forall j :: j in order <==> j in journeys)
    && (forall a, b :: 0 <= a < b < |order| ==> order[a] != order[b])
  }

  ghost predicate Allowed(w: World, op: Op) {
    match op
    case Observe(o) => o.feed == w.state.feed
    case Housekeep(_, order) => Enumerates(order, w.state.instances.Keys)
    case Estimating(_) => true
    case Switch(ctx, order) =>
      && Sound(ctx) && Resolvable(w.state, ctx) && ctx.feed == w.state.feed
      && Enumerates(order, w.state.instances.Keys)
  }

  ghost function Apply(w: World, op: Op): (out: Outcome)
    requires Ready(w) && Allowed(w, op)
    ensures Ready(out.world) && out.world.state.feed == w.state.feed
  {
    match op
    case Observe(o) =>
      StepInv(w.state, o, w.ctx);
      var stepped := Step(w.state, o, w.ctx);
      Outcome(World(stepped.state, w.ctx), stepped.effects)
    case Housekeep(now, order) =>
      RefreshInv(w.state, now, w.ctx);
      Outcome(World(Refresh(w.state, now, w.ctx), w.ctx), RefreshEffects(w.state, now, w.ctx, order))
    case Estimating(now) =>
      EstimateInv(w.state, now, w.ctx);
      Outcome(World(EstimateAll(w.state, now, w.ctx), w.ctx), [])
    case Switch(ctx, order) =>
      RebaseInv(w.state, ctx);
      Outcome(World(Rebase(w.state, ctx), ctx), RebaseEffects(w.state, ctx, order))
  }

  ghost predicate AllowedRun(w: World, ops: seq<Op>)
    requires Ready(w)
    decreases |ops|, 0
  {
    ops == [] || (AllowedRun(w, ops[..|ops| - 1]) && Allowed(After(w, ops[..|ops| - 1]), ops[|ops| - 1]))
  }

  /** The world after a run. */
  ghost function After(w: World, ops: seq<Op>): (after: World)
    requires Ready(w) && AllowedRun(w, ops)
    ensures Ready(after)
    decreases |ops|, 1
  {
    if ops == [] then w else Apply(After(w, ops[..|ops| - 1]), ops[|ops| - 1]).world
  }

  /** Everything a run has given history. */
  ghost function Log(w: World, ops: seq<Op>): seq<Effect>
    requires Ready(w) && AllowedRun(w, ops)
    decreases |ops|
  {
    if ops == [] then []
    else Log(w, ops[..|ops| - 1]) + Apply(After(w, ops[..|ops| - 1]), ops[|ops| - 1]).effects
  }

  function Empty(feed: string): State {
    State(feed, map[], map[], {})
  }

  // ----- bindings are safe ---------------------------------------------------------------------

  /** After any run from the empty state, whatever binders answer, every vehicle's binding names a journey
      that has an instance standing for it. */
  lemma BindingsSafe(feed: string, ctx: Context, ops: seq<Op>)
    requires Sound(ctx) && ctx.feed == feed
    requires AllowedRun(World(Empty(feed), ctx), ops)
    ensures var s := After(World(Empty(feed), ctx), ops).state;
            forall v <- s.vehicles :: s.vehicles[v].binding.Some? ==>
              var journey := s.vehicles[v].binding.value.journey;
              journey in s.instances && s.instances[journey].journey == journey
  {
    var w := After(World(Empty(feed), ctx), ops);
    forall v | v in w.state.vehicles && w.state.vehicles[v].binding.Some?
      ensures var journey := w.state.vehicles[v].binding.value.journey;
              journey in w.state.instances && w.state.instances[journey].journey == journey
    {
      assert BindingSafe(w.state.vehicles[v], w.state.instances, w.ctx);
      assert Standing(w.state.instances[w.state.vehicles[v].binding.value.journey], w.state.vehicles[v].binding.value.journey);
    }
  }

  // ----- bindings are stable -------------------------------------------------------------------

  /** `op` leaves alone, or continues, vehicle `v`'s binding under `key`: its own observations
      report the key inside the window and are not stale, and housekeeping remembers it. */
  ghost predicate Steady(w: World, op: Op, v: VehicleId, key: KeyRef, binding: Binding) {
    match op
    case Observe(o) =>
      VehicleOf(o) == Some(v) ==> o.facts.keys != [] && o.facts.keys[0] == key && Admits(binding, o, w.ctx)
    case Housekeep(now, _) => v in Remembered(w.state, now, w.ctx)
    case Estimating(_) => true
    case Switch(_, _) => false
  }

  ghost predicate SteadyRun(w: World, ops: seq<Op>, v: VehicleId, key: KeyRef, binding: Binding)
    requires Ready(w) && AllowedRun(w, ops)
  {
    ops == [] ||
    (SteadyRun(w, ops[..|ops| - 1], v, key, binding) &&
     Steady(After(w, ops[..|ops| - 1]), ops[|ops| - 1], v, key, binding))
  }

  ghost predicate Keeps(s: State, v: VehicleId, key: KeyRef, binding: Binding) {
    v in s.vehicles && s.vehicles[v].tripKey == Some(key) && s.vehicles[v].binding == Some(binding)
  }

  /** An observation of another vehicle, or of none, does not touch this one. */
  lemma OthersUntouched(s: State, o: Observation, v: VehicleId, ctx: Context)
    requires Sound(ctx) && Inv(s, ctx) && o.feed == s.feed
    requires VehicleOf(o) != Some(v) && v in s.vehicles
    ensures var after := Step(s, o, ctx).state; v in after.vehicles && after.vehicles[v] == s.vehicles[v]
  {
    match VehicleOf(o)
    case None => OpenKeepsVehicles(s, o, ctx);
    case Some(w) => StepVehicleFrame(s, o, w, v, ctx);
  }

  lemma OpenKeepsVehicles(s: State, o: Observation, ctx: Context)
    requires Sound(ctx) && Inv(s, ctx) && o.feed == s.feed && VehicleOf(o) == None
    ensures Step(s, o, ctx).state.vehicles == s.vehicles
  {
    if o.facts.platform.Some? {
      BoardKeepsVehicles(s, o, o.facts.platform.value, ctx);
    } else if o.facts.cancelled {
      BindProper(o, ctx, o.At());
    }
  }

  lemma BoardKeepsVehicles(s: State, o: Observation, fact: PlatformFact, ctx: Context)
    requires Sound(ctx) && Inv(s, ctx)
    ensures ApplyPlatform(s, o, fact, ctx).state.vehicles == s.vehicles
  {
    BindProper(o, ctx, fact.scheduled);
  }

  lemma ChooseKeyedVehicles(s: State, o: Observation, w: VehicleId, key: KeyRef, ctx: Context)
    requires Sound(ctx)
    ensures match ChooseKeyed(s, o, w, key, ctx)
            case Bound(stepped, _) => stepped.state.vehicles == s.vehicles
            case NotBound(state, _) => state.vehicles == s.vehicles
  {
    BindProper(o, ctx, o.At());
  }

  lemma ChooseInferredVehicles(s: State, o: Observation, w: VehicleId, line: KeyRef, episode: Episode, ctx: Context)
    requires Sound(ctx)
    ensures match ChooseInferred(s, o, w, line, episode, ctx)
            case Bound(stepped, _) => stepped.state.vehicles == s.vehicles
            case NotBound(state, _) => state.vehicles == s.vehicles
  {
    assert Proper(ctx.inferTrip(line, episode, o), ctx);
  }

  lemma StepVehicleFrame(s: State, o: Observation, w: VehicleId, v: VehicleId, ctx: Context)
    requires Sound(ctx) && Inv(s, ctx) && w != v && v in s.vehicles
    ensures var after := StepVehicle(s, o, w, ctx).state; v in after.vehicles && after.vehicles[v] == s.vehicles[v]
  {
    if !Repeated(VehicleBefore(s, w), o) {
      if o.facts.keys != [] {
        ChooseKeyedSafe(s, o, w, o.facts.keys[0], ctx);
        ChooseKeyedVehicles(s, o, w, o.facts.keys[0], ctx);
      } else {
        var prior := if w in s.vehicles then s.vehicles[w].episode else None;
        var episode := if o.facts.line.Some? then ctx.nextEpisode(prior, o) else None;
        if episode.Some? {
          ChooseInferredSafe(s, o, w, o.facts.line.value, episode.value, ctx);
          ChooseInferredVehicles(s, o, w, o.facts.line.value, episode.value, ctx);
        }
      }
    }
  }

  lemma SteadyStep(w: World, op: Op, v: VehicleId, key: KeyRef, binding: Binding)
    requires Ready(w) && Allowed(w, op) && Steady(w, op, v, key, binding)
    requires Keeps(w.state, v, key, binding)
    ensures Keeps(Apply(w, op).world.state, v, key, binding)
  {
    match op
    case Observe(o) =>
      if VehicleOf(o) == Some(v) {
        assert BindingSafe(w.state.vehicles[v], w.state.instances, w.ctx);
        assert Continued(VehicleBefore(w.state, v), key, o, w.state, w.ctx) == Some(binding);
        assert ChooseKeyed(w.state, o, v, key, w.ctx) == Bound(Stepped(w.state, []), binding);
      } else {
        OthersUntouched(w.state, o, v, w.ctx);
      }
    case Housekeep(now, _) =>
    case Estimating(_) =>
    case Switch(_, _) =>
  }

  /** While a keyed vehicle is remembered and keeps reporting its key inside the window and not
      stale, its binding - journey, trip and bound time - never changes, whatever other vehicles,
      board rows, cancellations and ticks come between. */
  lemma {:induction false} BindingStable(w: World, ops: seq<Op>, v: VehicleId, key: KeyRef, binding: Binding)
    requires Ready(w) && AllowedRun(w, ops) && SteadyRun(w, ops, v, key, binding)
    requires Keeps(w.state, v, key, binding)
    ensures Keeps(After(w, ops).state, v, key, binding)
    decreases |ops|
  {
    if ops != [] {
      BindingStable(w, ops[..|ops| - 1], v, key, binding);
      SteadyStep(After(w, ops[..|ops| - 1]), ops[|ops| - 1], v, key, binding);
    }
  }

  /** A keyed observation moves its vehicle off a journey whose window is still open only when it reports
      another key than the one the vehicle was bound under, or is stale for that journey. */
  lemma MovedOnlyByKeyOrStale(s: State, o: Observation, v: VehicleId, ctx: Context)
    requires Sound(ctx) && Inv(s, ctx) && o.feed == s.feed
    requires VehicleOf(o) == Some(v) && o.facts.keys != []
    requires v in s.vehicles && s.vehicles[v].binding.Some?
    requires ctx.inWindow(MatchOf(s.vehicles[v].binding.value, ctx), o.At())
    ensures var before, after := s.vehicles[v], Step(s, o, ctx).state.vehicles;
            && v in after
            && (after[v].binding.Some? && after[v].binding.value.journey != before.binding.value.journey ==>
                  before.tripKey != Some(o.facts.keys[0]) || Stale(MatchOf(before.binding.value, ctx), o, ctx))
  {
    var before, key := s.vehicles[v], o.facts.keys[0];
    if before.tripKey == Some(key) && !Stale(MatchOf(before.binding.value, ctx), o, ctx) {
      assert BindingSafe(before, s.instances, ctx);
      assert Continued(VehicleBefore(s, v), key, o, s, ctx) == before.binding;
      assert ChooseKeyed(s, o, v, key, ctx) == Bound(Stepped(s, []), before.binding.value);
    }
  }
}
