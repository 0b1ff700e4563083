/** The cancellation protocol: what a cancelled journey is, how it is restored, and that what is
    recorded of an instance while it lives is the truth about it. */
module Cancellation {
  import opened Model
  import opened Runs
  import opened RunLayout
  import opened Core
  import opened CoreSteps
  import opened CoreInvariant
  import opened CoreRuns

  // ----- one instance --------------------------------------------------------------------------

  /** A cancelled journey carries one train number and all its calls are cancelled, unestimated. */
  ghost predicate WhollyCancelled(instance: Instance) {
    instance.lifecycle == Cancelled ==>
      && |Publics(instance)| == 1
      && forall i :: 0 <= i < |instance.calls| ==>
           instance.calls[i].status == CancelledCall
           && instance.calls[i].estimatedArrival == None && instance.calls[i].estimatedDeparture == None
  }

  predicate Seen(lifecycle: Lifecycle) {
    lifecycle == Running || lifecycle == Finished
  }

  /** How an instance may change while it lives, a release switch apart: once seen running it is
      never cancelled, once finished it stays so, and its public journeys stay. */
  ghost predicate Lives(a: Instance, b: Instance) {
    && (Seen(a.lifecycle) ==> Seen(b.lifecycle))
    && (a.lifecycle == Finished ==> b.lifecycle == Finished)
    && (WhollyCancelled(a) ==> WhollyCancelled(b))
    && Publics(a) == Publics(b)
  }

  // ----- what the effects record ---------------------------------------------------------------

  /** The instance an observation's effects are about. */
  function Subject(effects: seq<Effect>): Option<JourneyKey> {
    if effects != [] && effects[|effects| - 1].ObservationResult? then effects[|effects| - 1].instance else None
  }

  /** What the effects last record of the cancellation of a public journey. */
  function Recorded(effects: seq<Effect>, public: JourneyKey): Option<bool> {
    if effects == [] then None
    else
      var e := effects[|effects| - 1];
      if e.RecordCancellation? && e.public == public then Some(e.cancelled)
      else Recorded(effects[..|effects| - 1], public)
  }

  lemma {:induction false} RecordedMore(a: seq<Effect>, b: seq<Effect>, public: JourneyKey)
    ensures Recorded(a + b, public) == Else(Recorded(b, public), Recorded(a, public))
    decreases |b|
  {
    if b == [] {
      assert a + b == a;
    } else {
      assert (a + b)[..|a + b| - 1] == a + b[..|b| - 1];
      RecordedMore(a, b[..|b| - 1], public);
    }
  }

  lemma {:induction false} NothingRecorded(effects: seq<Effect>, public: JourneyKey)
    requires forall e <- effects :: !e.RecordCancellation?
    ensures Recorded(effects, public) == None
    decreases |effects|
  {
    if effects != [] {
      assert effects[|effects| - 1] in effects;
      NothingRecorded(effects[..|effects| - 1], public);
    }
  }

  lemma {:induction false} AllRecorded(effects: seq<Effect>, publics: seq<JourneyKey>, public: JourneyKey, cancelled: bool)
    requires |effects| == |publics|
    requires forall i :: 0 <= i < |effects| ==>
               effects[i].RecordCancellation? && effects[i].public == publics[i] && effects[i].cancelled == cancelled
    ensures Recorded(effects, public) == if public in publics then Some(cancelled) else None
    decreases |effects|
  {
    if effects != [] {
      AllRecorded(effects[..|effects| - 1], publics[..|publics| - 1], public, cancelled);
      assert publics == publics[..|publics| - 1] + [publics[|publics| - 1]];
    }
  }

  /** The effects say of a public journey of instance `j` what has become of `j`. */
  ghost predicate SaysTrue(before: State, after: State, effects: seq<Effect>, j: JourneyKey, public: JourneyKey)
    requires j in after.instances
  {
    var cancelled := after.instances[j].lifecycle == Cancelled;
    var was := j in before.instances && before.instances[j].lifecycle == Cancelled;
    if Subject(effects) == Some(j) && Recorded(effects, public).Some? then Recorded(effects, public).value == cancelled
    else cancelled == was
  }

  /** What is recorded is recorded of a public journey of the instance the effects are about. */
  ghost predicate Owns(after: State, effects: seq<Effect>) {
    forall public | Recorded(effects, public).Some? ::
      Subject(effects).Some? && Subject(effects).value in after.instances
      && public in Publics(after.instances[Subject(effects).value])
  }

  /** An operation's account of every live instance is true. */
  ghost predicate Faithful(before: State, after: State, effects: seq<Effect>) {
    && Owns(after, effects)
    && (forall j <- after.instances :: j in before.instances ==> Lives(before.instances[j], after.instances[j]))
    && (forall j <- after.instances :: j !in before.instances ==> WhollyCancelled(after.instances[j]))
    && (forall j <- after.instances :: forall public <- Publics(after.instances[j]) ::
          SaysTrue(before, after, effects, j, public))
  }

  // ----- driving -------------------------------------------------------------------------------

  /** A vehicle's observation never cancels its journey, and restores a cancelled one, with fresh
      calls, only by showing it started. */
  lemma DriveLives(instance: Instance, trip: Trip, o: Observation, binding: Binding, before: Option<Position>, ctx: Context)
    requires Anchored(instance.journeys)
    requires Sound(ctx)
    ensures var after := Drive(instance, trip, o, binding, before, ctx).instance;
            && Lives(instance, after)
            && (after.lifecycle == Cancelled ==> after == instance)
            && (instance.lifecycle == Cancelled && after.lifecycle != Cancelled ==>
                  Started(trip, instance.journey.day, o, ctx.span(trip, binding.journey).0, before, ctx)
                  && forall call <- after.calls :: call.status == Scheduled)
  {
  }

  /** It records the restoration of every public journey, and of no other. */
  lemma DriveRecords(instance: Instance, trip: Trip, o: Observation, binding: Binding, before: Option<Position>, ctx: Context,
                     public: JourneyKey)
    requires Anchored(instance.journeys)
    requires Sound(ctx)
    ensures var moved := Drive(instance, trip, o, binding, before, ctx);
            Recorded(moved.effects, public) ==
              if instance.lifecycle == Cancelled && moved.instance.lifecycle != Cancelled && public in Publics(instance)
              then Some(false) else None
  {
    var lifecycle := LifecycleAfter(instance, trip, o, ctx.span(trip, binding.journey).0, before, ctx);
    var restored := instance.lifecycle == Cancelled && lifecycle != Cancelled;
    var records := if restored then CancellationRecords(instance, o.source, o.At(), false) else [];
    var moved := Drive(instance, trip, o, binding, before, ctx);
    if lifecycle != Cancelled {
      var events := DriveEvents(instance, trip, o, binding, before, ctx, records);
      if restored {
        AllRecorded(records, Publics(instance), public, false);
      }
      NothingRecorded(events, public);
      RecordedMore(records, events, public);
    }
  }

  /** After what it records of the cancellation, a drive only writes events. */
  lemma DriveEvents(instance: Instance, trip: Trip, o: Observation, binding: Binding, before: Option<Position>, ctx: Context,
                    records: seq<Effect>) returns (events: seq<HistoryEvent>)
    requires Anchored(instance.journeys)
    requires Sound(ctx)
    requires var lifecycle := LifecycleAfter(instance, trip, o, ctx.span(trip, binding.journey).0, before, ctx);
             && lifecycle != Cancelled
             && records == if instance.lifecycle == Cancelled
                           then CancellationRecords(instance, o.source, o.At(), false) else []
    ensures Drive(instance, trip, o, binding, before, ctx).effects == records + events
  {
    var lifecycle := LifecycleAfter(instance, trip, o, ctx.span(trip, binding.journey).0, before, ctx);
    var live := instance.(lifecycle := lifecycle,
                          calls := if instance.lifecycle == Cancelled then CallStates(trip) else instance.calls);
    var tracking := ctx.track(live, trip, o);
    var held, crossed := Tracked(live, tracking).held, CrossingEvents(live, tracking.crossings, o.source);
    events := if binding.confirmed then held + crossed else [];
    assert records + held + crossed == records + (held + crossed);
  }

  // ----- every operation -----------------------------------------------------------------------

  /** The journey an operation is about has an instance before it acts: its own, or a new one. */
  ghost predicate Opening(before: State, opening: State, j: JourneyKey) {
    && j in opening.instances
    && (j in before.instances ==> opening.instances == before.instances)
    && (j !in before.instances ==>
          opening.instances[j].lifecycle == PreTrip
          && opening.instances == before.instances[j := opening.instances[j]])
  }

  /** Changing one instance by the rules and recording what became of it is faithful. */
  lemma OneInstance(before: State, opening: State, after: State, effects: seq<Effect>, j: JourneyKey)
    requires Opening(before, opening, j)
    requires j in after.instances && after.instances == opening.instances[j := after.instances[j]]
    requires Lives(opening.instances[j], after.instances[j])
    requires Subject(effects) == Some(j)
    requires forall public <- Publics(after.instances[j]) ::
               (after.instances[j].lifecycle == Cancelled) ==
                 if Recorded(effects, public).Some? then Recorded(effects, public).value
                 else opening.instances[j].lifecycle == Cancelled
    requires forall public | Recorded(effects, public).Some? :: public in Publics(after.instances[j])
    ensures Faithful(before, after, effects)
  {
  }

  lemma OpenFaithful(s: State, m: Match, ctx: Context, o: Observation)
    requires WellLaid(m.trip)
    ensures Opening(s, Open(s, m, ctx, o).state, m.journey)
    ensures forall e <- Open(s, m, ctx, o).effects :: !e.RecordCancellation? && !e.ObservationResult?
  {
    OpenKeeps(s, m, ctx, o);
  }

  lemma SubjectMore(a: seq<Effect>, b: seq<Effect>)
    requires b != []
    ensures Subject(a + b) == Subject(b)
  {
  }

  /** What is recorded between effects that record nothing. */
  lemma RecordedBetween(a: seq<Effect>, b: seq<Effect>, c: seq<Effect>, public: JourneyKey)
    requires forall e <- a :: !e.RecordCancellation?
    requires forall e <- c :: !e.RecordCancellation?
    ensures Recorded(a + b + c, public) == Recorded(b, public)
  {
    RecordedMore(a + b, c, public);
    RecordedMore(a, b, public);
    NothingRecorded(a, public);
    NothingRecorded(c, public);
  }

  /** The shape of every operation on one journey: open it, record, conclude. */
  lemma AccountFaithful(before: State, opening: Stepped, after: State, j: JourneyKey, records: seq<Effect>, tail: seq<Effect>)
    requires Opening(before, opening.state, j)
    requires forall e <- opening.effects :: !e.RecordCancellation?
    requires tail != [] && Subject(tail) == Some(j) && forall e <- tail :: !e.RecordCancellation?
    requires j in after.instances && after.instances == opening.state.instances[j := after.instances[j]]
    requires Lives(opening.state.instances[j], after.instances[j])
    requires forall public <- Publics(after.instances[j]) ::
               (after.instances[j].lifecycle == Cancelled) ==
                 if Recorded(records, public).Some? then Recorded(records, public).value
                 else opening.state.instances[j].lifecycle == Cancelled
    requires forall public | Recorded(records, public).Some? :: public in Publics(after.instances[j])
    ensures Faithful(before, after, opening.effects + records + tail)
  {
    SubjectMore(opening.effects + records, tail);
    forall public
      ensures Recorded(opening.effects + records + tail, public) == Recorded(records, public)
    {
      RecordedBetween(opening.effects, records, tail, public);
    }
    OneInstance(before, opening.state, after, opening.effects + records + tail, j);
  }

  /** What a move records of the public journeys is what became of the journey. */
  ghost predicate MovesTruly(instance: Instance, moved: Moved) {
    && Lives(instance, moved.instance)
    && (forall public <- Publics(moved.instance) ::
          (moved.instance.lifecycle == Cancelled) ==
            if Recorded(moved.effects, public).Some? then Recorded(moved.effects, public).value
            else instance.lifecycle == Cancelled)
    && (forall public | Recorded(moved.effects, public).Some? :: public in Publics(moved.instance))
  }

  lemma DriveTrue(instance: Instance, trip: Trip, o: Observation, binding: Binding, before: Option<Position>, ctx: Context)
    requires Anchored(instance.journeys)
    requires Sound(ctx)
    ensures MovesTruly(instance, Drive(instance, trip, o, binding, before, ctx))
  {
    DriveLives(instance, trip, o, binding, before, ctx);
    forall public
      ensures var moved := Drive(instance, trip, o, binding, before, ctx);
              Recorded(moved.effects, public) ==
                if instance.lifecycle == Cancelled && moved.instance.lifecycle != Cancelled && public in Publics(instance)
                then Some(false) else None
    {
      DriveRecords(instance, trip, o, binding, before, ctx, public);
    }
  }

  /** Taking the lead changes nothing a move is judged by. */
  lemma LeadTrue(instance: Instance, vehicle: VehicleId, at: int, moved: Moved)
    requires MovesTruly(WithLead(instance, vehicle, at), moved)
    ensures MovesTruly(instance, moved)
  {
  }

  lemma MoveTrue(s: State, o: Observation, v: VehicleId, binding: Binding, fix: Option<Position>, ctx: Context)
    requires Sound(ctx) && Inv(s, ctx) && Names(binding, s.instances, ctx)
    ensures MovesTruly(s.instances[binding.journey], MoveOf(s, o, v, binding, fix, ctx))
  {
    var instance := s.instances[binding.journey];
    assert Standing(instance, binding.journey);
    if Leads(instance, v, o.At(), ctx) {
      var lead, trip := WithLead(instance, v, o.At()), ctx.trip(binding.tripId);
      DriveTrue(lead, trip, o, binding, fix, ctx);
      LeadTrue(instance, v, o.At(), Drive(lead, trip, o, binding, fix, ctx));
    }
  }

  lemma ConcludeFaithful(
    before: State, stepped: Stepped, moved: Moved, o: Observation, v: VehicleId, key: Option<KeyRef>, binding: Binding,
    episode: Option<Episode>)
    requires Opening(before, stepped.state, binding.journey)
    requires forall e <- stepped.effects :: !e.RecordCancellation?
    requires MovesTruly(stepped.state.instances[binding.journey], moved)
    ensures var followed := Conclude(stepped.state, moved, o, v, key, binding, episode);
            Faithful(before, followed.state, stepped.effects + followed.effects)
  {
    var followed := Conclude(stepped.state, moved, o, v, key, binding, episode);
    var tail := followed.effects[|moved.effects|..];
    assert followed.effects == moved.effects + tail;
    AccountFaithful(before, stepped, followed.state, binding.journey, moved.effects, tail);
    assert stepped.effects + followed.effects == stepped.effects + moved.effects + tail;
  }

  lemma FollowFaithful(
    before: State, stepped: Stepped, o: Observation, v: VehicleId, key: Option<KeyRef>, binding: Binding,
    episode: Option<Episode>, fix: Option<Position>, ctx: Context)
    requires Sound(ctx) && Inv(stepped.state, ctx) && Names(binding, stepped.state.instances, ctx)
    requires Opening(before, stepped.state, binding.journey)
    requires forall e <- stepped.effects :: !e.RecordCancellation?
    ensures var followed := Follow(stepped.state, o, v, key, binding, episode, fix, ctx);
            Faithful(before, followed.state, stepped.effects + followed.effects)
  {
    MoveTrue(stepped.state, o, v, binding, fix, ctx);
    ConcludeFaithful(before, stepped, MoveOf(stepped.state, o, v, binding, fix, ctx), o, v, key, binding, episode);
  }

  lemma UnboundFaithful(before: State, after: State, effects: seq<Effect>)
    requires forall j <- after.instances :: j in before.instances && after.instances[j] == before.instances[j]
    requires Subject(effects) == None && forall e <- effects :: !e.RecordCancellation?
    ensures Faithful(before, after, effects)
  {
    forall public ensures Recorded(effects, public) == None {
      NothingRecorded(effects, public);
    }
  }

  lemma ChooseKeyedFaithful(s: State, o: Observation, v: VehicleId, key: KeyRef, ctx: Context)
    requires Sound(ctx) && Inv(s, ctx)
    ensures match ChooseKeyed(s, o, v, key, ctx)
            case Bound(stepped, binding) =>
              Opening(s, stepped.state, binding.journey) && forall e <- stepped.effects :: !e.RecordCancellation?
            case NotBound(state, _) =>
              forall j <- state.instances :: j in s.instances && state.instances[j] == s.instances[j]
  {
    BindProper(o, ctx, o.At());
    match Bind(o, ctx, o.At())
    case Missed(_) =>
    case Matched(m) => OpenFaithful(s, m, ctx, o);
  }

  lemma ChooseInferredFaithful(s: State, o: Observation, v: VehicleId, line: KeyRef, episode: Episode, ctx: Context)
    requires Sound(ctx) && Inv(s, ctx)
    ensures match ChooseInferred(s, o, v, line, episode, ctx)
            case Bound(stepped, binding) =>
              Opening(s, stepped.state, binding.journey) && forall e <- stepped.effects :: !e.RecordCancellation?
            case NotBound(state, _) => state == s
  {
    match ctx.inferTrip(line, episode, o)
    case Missed(_) =>
    case Matched(m) =>
      assert Proper(ctx.inferTrip(line, episode, o), ctx);
      OpenFaithful(s, m, ctx, o);
  }

  lemma StepVehicleFaithful(s: State, o: Observation, v: VehicleId, ctx: Context)
    requires Sound(ctx) && Inv(s, ctx)
    ensures var stepped := StepVehicle(s, o, v, ctx); Faithful(s, stepped.state, stepped.effects)
  {
    var previous := VehicleBefore(s, v);
    var fix := if previous.Some? then previous.value.position else None;
    var stepped := StepVehicle(s, o, v, ctx);
    if Repeated(previous, o) {
      UnboundFaithful(s, s, []);
    } else if o.facts.keys != [] {
      ChooseKeyedSafe(s, o, v, o.facts.keys[0], ctx);
      ChooseKeyedFaithful(s, o, v, o.facts.keys[0], ctx);
      match ChooseKeyed(s, o, v, o.facts.keys[0], ctx)
      case NotBound(_, _) => UnboundFaithful(s, stepped.state, stepped.effects);
      case Bound(chosen, binding) => FollowFaithful(s, chosen, o, v, Some(o.facts.keys[0]), binding, None, fix, ctx);
    } else {
      var prior := if previous.Some? then previous.value.episode else None;
      var episode := if o.facts.line.Some? then ctx.nextEpisode(prior, o) else None;
      if episode.None? {
        UnboundFaithful(s, stepped.state, stepped.effects);
      } else {
        ChooseInferredSafe(s, o, v, o.facts.line.value, episode.value, ctx);
        ChooseInferredFaithful(s, o, v, o.facts.line.value, episode.value, ctx);
        match ChooseInferred(s, o, v, o.facts.line.value, episode.value, ctx)
        case NotBound(_, _) => UnboundFaithful(s, stepped.state, stepped.effects);
        case Bound(chosen, binding) => FollowFaithful(s, chosen, o, v, None, binding, episode, fix, ctx);
      }
    }
  }

  lemma AssignFaithful(before: State, opening: Stepped, m: Match, o: Observation, fact: PlatformFact, ctx: Context)
    requires Opening(before, opening.state, m.journey)
    requires Anchored(opening.state.instances[m.journey].journeys)
    requires forall e <- opening.effects :: !e.RecordCancellation?
    ensures var stepped := AssignPlatform(opening, m, o, fact, ctx); Faithful(before, stepped.state, stepped.effects)
  {
    var stepped := AssignPlatform(opening, m, o, fact, ctx);
    var tail := stepped.effects[|opening.effects|..];
    assert stepped.effects == opening.effects + [] + tail;
    if tail == [] {
      OpeningFaithful(before, opening, m.journey);
    } else {
      AccountFaithful(before, opening, stepped.state, m.journey, [], tail);
    }
  }

  /** Opening alone records nothing. */
  lemma OpeningFaithful(before: State, opening: Stepped, j: JourneyKey)
    requires Opening(before, opening.state, j)
    requires forall e <- opening.effects :: !e.RecordCancellation?
    ensures Faithful(before, opening.state, opening.effects)
  {
    forall public ensures Recorded(opening.effects, public) == None {
      NothingRecorded(opening.effects, public);
    }
  }

  lemma CancelJourneyFaithful(before: State, opening: Stepped, j: JourneyKey, o: Observation)
    requires Opening(before, opening.state, j)
    requires forall e <- opening.effects :: !e.RecordCancellation?
    ensures var stepped := CancelJourney(opening, j, o); Faithful(before, stepped.state, stepped.effects)
  {
    var instance := opening.state.instances[j];
    var records := if Cancellable(instance) then CancellationRecords(instance, o.source, o.At(), true) else [];
    var tail := [ObservationResult(Some(j), None, Publics(instance), Some(o.receivedAt))];
    if Cancellable(instance) {
      forall public ensures Recorded(records, public) == if public in Publics(instance) then Some(true) else None {
        AllRecorded(records, Publics(instance), public, true);
      }
    }
    AccountFaithful(before, opening, CancelJourney(opening, j, o).state, j, records, tail);
  }

  lemma ApplyPlatformFaithful(s: State, o: Observation, fact: PlatformFact, ctx: Context)
    requires Sound(ctx) && Inv(s, ctx)
    ensures var stepped := ApplyPlatform(s, o, fact, ctx); Faithful(s, stepped.state, stepped.effects)
  {
    BindProper(o, ctx, fact.scheduled);
    match Bind(o, ctx, fact.scheduled)
    case Missed(reason) => UnboundFaithful(s, s, [ObservationResult(None, Some(reason), [], None)]);
    case Matched(m) =>
      OpenSafe(s, m, ctx, o);
      OpenFaithful(s, m, ctx, o);
      assert Standing(Open(s, m, ctx, o).state.instances[m.journey], m.journey);
      AssignFaithful(s, Open(s, m, ctx, o), m, o, fact, ctx);
  }

  lemma CancelFaithful(s: State, o: Observation, ctx: Context)
    requires Sound(ctx) && Inv(s, ctx)
    ensures var stepped := Cancel(s, o, ctx); Faithful(s, stepped.state, stepped.effects)
  {
    BindProper(o, ctx, o.At());
    match Bind(o, ctx, o.At())
    case Missed(reason) => UnboundFaithful(s, s, [ObservationResult(None, Some(reason), [], None)]);
    case Matched(m) =>
      OpenFaithful(s, m, ctx, o);
      CancelJourneyFaithful(s, Open(s, m, ctx, o), m.journey, o);
  }

  lemma StepFaithful(s: State, o: Observation, ctx: Context)
    requires Sound(ctx) && Inv(s, ctx) && o.feed == s.feed
    ensures var stepped := Step(s, o, ctx); Faithful(s, stepped.state, stepped.effects)
  {
    match VehicleOf(o)
    case Some(v) => StepVehicleFaithful(s, o, v, ctx);
    case None =>
      if o.facts.platform.Some? {
        ApplyPlatformFaithful(s, o, o.facts.platform.value, ctx);
      } else if o.facts.cancelled {
        CancelFaithful(s, o, ctx);
      } else {
        UnboundFaithful(s, s, Step(s, o, ctx).effects);
      }
  }

  lemma QuietFaithful(before: State, after: State, effects: seq<Effect>)
    requires forall j <- after.instances :: j in before.instances && Lives(before.instances[j], after.instances[j])
                 && (after.instances[j].lifecycle == Cancelled <==> before.instances[j].lifecycle == Cancelled)
    requires Subject(effects) == None && forall e <- effects :: !e.RecordCancellation?
    ensures Faithful(before, after, effects)
  {
    forall public ensures Recorded(effects, public) == None {
      NothingRecorded(effects, public);
    }
  }

  lemma EstimateLives(s: State, now: int, ctx: Context, j: JourneyKey)
    requires j in s.instances
    ensures var after := EstimateAll(s, now, ctx).instances[j];
            Lives(s.instances[j], after) && after.lifecycle == s.instances[j].lifecycle
  {
  }

  lemma {:induction false} RefreshEffectsWrite(s: State, now: int, ctx: Context, order: seq<JourneyKey>)
    requires AllFit(s.instances)
    ensures forall e <- RefreshEffects(s, now, ctx, order) :: e.WriteEvent?
  {
    if order != [] {
      RefreshEffectsWrite(s, now, ctx, order[..|order| - 1]);
    }
  }

  lemma RefreshLives(instance: Instance, unconfirmed: bool, now: int, ctx: Context)
    requires Anchored(instance.journeys) && instance.calls != []
    ensures var after := RefreshOne(instance, unconfirmed, now, ctx).instance;
            Lives(instance, after) && (after.lifecycle == Cancelled <==> instance.lifecycle == Cancelled)
  {
  }

  /** Every operation but a release switch gives a true account of every live instance. */
  lemma ApplyFaithful(w: World, op: Op)
    requires Ready(w) && Allowed(w, op) && !op.Switch?
    ensures var out := Apply(w, op); Faithful(w.state, out.world.state, out.effects)
  {
    var out := Apply(w, op);
    match op
    case Observe(o) => StepFaithful(w.state, o, w.ctx);
    case Housekeep(now, order) =>
      RefreshInv(w.state, now, w.ctx);
      RefreshEffectsWrite(w.state, now, w.ctx, order);
      forall j | j in out.world.state.instances
        ensures j in w.state.instances && Lives(w.state.instances[j], out.world.state.instances[j])
        ensures out.world.state.instances[j].lifecycle == Cancelled <==> w.state.instances[j].lifecycle == Cancelled
      {
        RefreshLives(w.state.instances[j], Unconfirmed(Remembered(w.state, now, w.ctx), j), now, w.ctx);
      }
      assert out.effects != [] ==> out.effects[|out.effects| - 1] in out.effects;
      QuietFaithful(w.state, out.world.state, out.effects);
    case Estimating(now) =>
      forall j | j in out.world.state.instances
        ensures j in w.state.instances && Lives(w.state.instances[j], out.world.state.instances[j])
        ensures out.world.state.instances[j].lifecycle == w.state.instances[j].lifecycle
      {
        EstimateLives(w.state, now, w.ctx, j);
      }
      QuietFaithful(w.state, out.world.state, []);
  }

  // ----- whole runs ----------------------------------------------------------------------------

  predicate NoSwitch(ops: seq<Op>) {
    forall i :: 0 <= i < |ops| ==> !ops[i].Switch?
  }

  /** What the run last recorded of public journey `public` of instance `j`, since `j` last had its
      instance opened. */
  ghost function Heard(w: World, ops: seq<Op>, j: JourneyKey, public: JourneyKey): bool
    requires Ready(w) && AllowedRun(w, ops)
    decreases |ops|
  {
    if ops == [] then false
    else
      var prior := After(w, ops[..|ops| - 1]);
      var effects := Apply(prior, ops[|ops| - 1]).effects;
      if Subject(effects) == Some(j) && Recorded(effects, public).Some? then Recorded(effects, public).value
      else j in prior.state.instances && Heard(w, ops[..|ops| - 1], j, public)
  }

  /** The run has told the truth about instance `j`. */
  ghost predicate Told(w: World, ops: seq<Op>, j: JourneyKey)
    requires Ready(w) && AllowedRun(w, ops)
    requires j in After(w, ops).state.instances
  {
    var instance := After(w, ops).state.instances[j];
    && WhollyCancelled(instance)
    && forall public <- Publics(instance) :: Heard(w, ops, j, public) <==> instance.lifecycle == Cancelled
  }

  lemma ToldStep(w: World, ops: seq<Op>, j: JourneyKey)
    requires Ready(w) && AllowedRun(w, ops) && ops != [] && !ops[|ops| - 1].Switch?
    requires j in After(w, ops).state.instances
    requires j in After(w, ops[..|ops| - 1]).state.instances ==> Told(w, ops[..|ops| - 1], j)
    ensures Told(w, ops, j)
  {
    var prior, op := After(w, ops[..|ops| - 1]), ops[|ops| - 1];
    ApplyFaithful(prior, op);
    var instance := After(w, ops).state.instances[j];
    assert j in prior.state.instances ==> Lives(prior.state.instances[j], instance);
    forall public | public in Publics(instance)
      ensures Heard(w, ops, j, public) <==> instance.lifecycle == Cancelled
    {
      assert SaysTrue(prior.state, After(w, ops).state, Apply(prior, op).effects, j, public);
    }
  }

  /** Over any run without a release switch: a cancelled journey carries one train number and has
      only cancelled calls without estimates, and what the effects of its operations last said, since
      it was opened, of the cancellation of a live journey is exactly whether it is cancelled. */
  lemma {:induction false} CancellationTrue(w: World, ops: seq<Op>)
    requires Ready(w) && AllowedRun(w, ops) && NoSwitch(ops)
    requires w.state.instances == map[]
    ensures forall j <- After(w, ops).state.instances :: Told(w, ops, j)
    decreases |ops|
  {
    if ops != [] {
      CancellationTrue(w, ops[..|ops| - 1]);
      forall j | j in After(w, ops).state.instances ensures Told(w, ops, j) {
        ToldStep(w, ops, j);
      }
    }
  }

  /** No single operation, a release switch included, takes a journey seen running or finished back
      to being cancelled or waiting. */
  lemma SeenStaysSeen(w: World, op: Op, j: JourneyKey)
    requires Ready(w) && Allowed(w, op)
    requires j in w.state.instances && j in Apply(w, op).world.state.instances
    ensures var a, b := w.state.instances[j].lifecycle, Apply(w, op).world.state.instances[j].lifecycle;
            (Seen(a) ==> Seen(b)) && (a == Finished ==> b == Finished)
  {
    if !op.Switch? {
      ApplyFaithful(w, op);
      assert Lives(w.state.instances[j], Apply(w, op).world.state.instances[j]);
    }
  }

  /** An observation showing, of the vehicle it leads with, that the trip the vehicle is bound to started. */
  ghost predicate ShowsStarted(s: State, o: Observation, v: VehicleId, instance: Instance, trip: Trip, ctx: Context) {
    var previous := VehicleBefore(s, v);
    && Leads(instance, v, o.At(), ctx)
    && Started(trip, instance.journey.day, o, ctx.span(trip, instance.journey).0,
               if previous.Some? then previous.value.position else None, ctx)
  }

  /** The vehicle is left bound to journey `j`, on a trip the observation shows started. */
  ghost predicate BoundStarted(s: State, after: State, o: Observation, v: VehicleId, j: JourneyKey, ctx: Context)
    requires j in s.instances
  {
    && v in after.vehicles && after.vehicles[v].binding.Some? && after.vehicles[v].binding.value.journey == j
    && ShowsStarted(s, o, v, s.instances[j], ctx.trip(after.vehicles[v].binding.value.tripId), ctx)
  }

  lemma FollowRestores(
    s: State, stepped: Stepped, o: Observation, v: VehicleId, key: Option<KeyRef>, binding: Binding,
    episode: Option<Episode>, ctx: Context, j: JourneyKey)
    requires Sound(ctx) && Inv(stepped.state, ctx) && Names(binding, stepped.state.instances, ctx)
    requires Opening(s, stepped.state, binding.journey)
    requires j in s.instances && s.instances[j].lifecycle == Cancelled && Standing(s.instances[j], j)
    requires var previous := VehicleBefore(s, v);
             var fix := if previous.Some? then previous.value.position else None;
             var after := Follow(stepped.state, o, v, key, binding, episode, fix, ctx).state;
             j in after.instances && after.instances[j].lifecycle != Cancelled
    ensures var previous := VehicleBefore(s, v);
            var fix := if previous.Some? then previous.value.position else None;
            BoundStarted(s, Follow(stepped.state, o, v, key, binding, episode, fix, ctx).state, o, v, j, ctx)
  {
    var previous := VehicleBefore(s, v);
    var fix := if previous.Some? then previous.value.position else None;
    var instance := stepped.state.instances[binding.journey];
    assert Standing(instance, binding.journey);
    FollowLeavesBound(stepped.state, o, v, key, binding, episode, fix, ctx);
    if Leads(instance, v, o.At(), ctx) {
      DriveLives(WithLead(instance, v, o.At()), ctx.trip(binding.tripId), o, binding, fix, ctx);
    }
  }

  lemma FollowLeavesBound(
    s: State, o: Observation, v: VehicleId, key: Option<KeyRef>, binding: Binding, episode: Option<Episode>,
    fix: Option<Position>, ctx: Context)
    requires Sound(ctx) && Inv(s, ctx) && Names(binding, s.instances, ctx)
    ensures var after := Follow(s, o, v, key, binding, episode, fix, ctx).state;
            && v in after.vehicles && after.vehicles[v].binding == Some(binding)
            && after.instances == s.instances[binding.journey := MoveOf(s, o, v, binding, fix, ctx).instance]
  {
  }

  lemma StepVehicleRestores(s: State, o: Observation, v: VehicleId, ctx: Context, j: JourneyKey)
    requires Sound(ctx) && Inv(s, ctx) && VehicleOf(o) == Some(v)
    requires j in s.instances && s.instances[j].lifecycle == Cancelled
    requires var after := StepVehicle(s, o, v, ctx).state; j in after.instances && after.instances[j].lifecycle != Cancelled
    ensures BoundStarted(s, StepVehicle(s, o, v, ctx).state, o, v, j, ctx)
  {
    assert Standing(s.instances[j], j);
    if o.facts.keys != [] {
      ChooseKeyedSafe(s, o, v, o.facts.keys[0], ctx);
      ChooseKeyedFaithful(s, o, v, o.facts.keys[0], ctx);
      match ChooseKeyed(s, o, v, o.facts.keys[0], ctx)
      case NotBound(_, _) =>
      case Bound(chosen, binding) => FollowRestores(s, chosen, o, v, Some(o.facts.keys[0]), binding, None, ctx, j);
    } else {
      var prior := if v in s.vehicles then s.vehicles[v].episode else None;
      var episode := if o.facts.line.Some? then ctx.nextEpisode(prior, o) else None;
      if episode.Some? {
        ChooseInferredSafe(s, o, v, o.facts.line.value, episode.value, ctx);
        ChooseInferredFaithful(s, o, v, o.facts.line.value, episode.value, ctx);
        match ChooseInferred(s, o, v, o.facts.line.value, episode.value, ctx)
        case NotBound(_, _) =>
        case Bound(chosen, binding) => FollowRestores(s, chosen, o, v, None, binding, episode, ctx, j);
      }
    }
  }

  lemma OtherStepsDoNotRestore(s: State, o: Observation, ctx: Context, j: JourneyKey)
    requires Sound(ctx) && Inv(s, ctx) && o.feed == s.feed && VehicleOf(o) == None
    requires j in s.instances && s.instances[j].lifecycle == Cancelled
    requires j in Step(s, o, ctx).state.instances
    ensures Step(s, o, ctx).state.instances[j].lifecycle == Cancelled
  {
    if o.facts.platform.Some? {
      BindProper(o, ctx, o.facts.platform.value.scheduled);
    } else {
      BindProper(o, ctx, o.At());
    }
  }

  /** A cancelled journey comes back only when its leading vehicle's observation shows it started. */
  lemma RestoredBySeeing(w: World, op: Op, j: JourneyKey)
    requires Ready(w) && Allowed(w, op)
    requires j in w.state.instances && w.state.instances[j].lifecycle == Cancelled
    requires j in Apply(w, op).world.state.instances
    requires Apply(w, op).world.state.instances[j].lifecycle != Cancelled
    ensures op.Observe? && VehicleOf(op.o).Some?
            && BoundStarted(w.state, Apply(w, op).world.state, op.o, VehicleOf(op.o).value, j, w.ctx)
  {
    match op
    case Observe(o) =>
      match VehicleOf(o) {
        case Some(v) => StepVehicleRestores(w.state, o, v, w.ctx, j);
        case None => OtherStepsDoNotRestore(w.state, o, w.ctx, j);
      }
    case Housekeep(now, _) =>
      InvFits(w.state, w.ctx);
      RefreshLives(w.state.instances[j], Unconfirmed(Remembered(w.state, now, w.ctx), j), now, w.ctx);
    case Estimating(now) => EstimateLives(w.state, now, w.ctx, j);
    case Switch(_, _) =>
  }
}
