/** A case of history falling behind the newest snapshots: an event held for a binding not yet confirmed, and a
    switch to a release whose trip no longer has its call. */
module NewestCase {
  import opened Model
  import opened Runs
  import opened RunLayout
  import opened Core
  import opened CoreSteps
  import opened CoreInvariant
  import opened CoreRuns
  import opened CancellationLog
  import opened TripAgreement
  import opened NewestSnapshots

  const FIRST_CALL := Call(1, "A", 1, true, None, Some(0), false, None)
  const LAST_CALL := Call(2, "B", 1, true, Some(10), None, false, None)
  const LONG_TRIP := Trip(Published("t"), "r", "1", "bus", "s", None, None, [FIRST_CALL, LAST_CALL], None, None, None, [], None)
  const SHORT_TRIP := Trip(Published("t"), "r", "1", "bus", "s", None, None, [FIRST_CALL], None, None, None, [], None)
  const LIVE := JourneyKey("f", "n", "k", 0)
  const INFERRED := Match(LIVE, LONG_TRIP, 0, 10)
  const ARRIVED: HistoryEvent := WriteEvent(LIVE, "B", 1, Arrival, Interval(10, 10), "s")

  function Crossings(instance: Instance): seq<Crossing> {
    if |instance.calls| == 2 then [Crossing(1, Arrival, Interval(10, 10))] else []
  }

  /** A release of one trip, which the keyless binder infers and never confirms, and whose last call every
      report of two calls is seen to reach. */
  function ReleaseOf(trip: Trip, entries: seq<KeyEntry>, inferred: Found): Context {
    Context(
      "f", "r", Policy(100, 100, mode => 100, mode => 100),
      key => entries, id => trip, (service, day) => true, (t, day) => t,
      (key, at, day) => Missed(NoTrip), (line, episode, o) => inferred, (prior, o) => Some(Episode("l", "d", 0, 0, 0)),
      (binding, episode) => false, (t, journey) => (0, 10), (m, at) => true, (source, channel) => false,
      (t, day, before, position, at) => true, (departure, start) => false, (t, day, position) => false,
      (instance, t, o) => Tracking(map[], Crossings(instance), false, false, None, None, Freshness(0, 0, false, false), None, 0),
      instance => None, (instance, now) => (i => Estimate(None, None, Scheduled, None)), place => None, (day, seconds) => seconds)
  }

  function Before(): Context {
    ReleaseOf(LONG_TRIP, [], Matched(INFERRED))
  }

  function Shortened(): Context {
    ReleaseOf(SHORT_TRIP, [KeyEntry("t", 0, 0)], Missed(NoTrip))
  }

  const REPORT :=
    Observation("s", "c", "f", 20, None, Facts(Some("v"), [], Some(KeyRef("l", "x")), None, None, None, None, false, None, 0))
  const REPORTED := Observe(REPORT)

  function Shortening(): Op {
    Switch(Shortened(), [LIVE])
  }

  ghost predicate TripT(tripOf: TripOf) {
    forall j :: tripOf(j) == Published("t")
  }

  lemma BeforeOneTrip(tripOf: TripOf)
    requires TripT(tripOf)
    ensures OneTrip(Before(), tripOf)
  {
    assert VisitsCount(LONG_TRIP.calls);
  }

  lemma ShortenedOneTrip(tripOf: TripOf)
    requires TripT(tripOf)
    ensures OneTrip(Shortened(), tripOf)
    ensures Resolve(LIVE, Shortened()) == Some(SHORT_TRIP) && Known(SHORT_TRIP, Shortened())
    ensures forall j | Resolve(j, Shortened()).Some? :: Resolve(j, Shortened()).value == SHORT_TRIP
  {
    assert VisitsCount(SHORT_TRIP.calls);
    forall j ensures Resolve(j, Shortened()) == if j.day == 0 then Some(SHORT_TRIP) else None {
      var entries := [KeyEntry("t", 0, 0)];
      assert entries[1..] == [] && ResolveAmong(entries[1..], j, Shortened()) == None;
    }
  }

  ghost predicate Holding(s: State) {
    s.instances.Keys == {LIVE} && s.feed == "f" && s.instances[LIVE].held == [ARRIVED]
  }

  /** The report moves the journey it opens to its last call, unconfirmed. */
  lemma ReportMoves(s: State, v: VehicleId, binding: Binding, ctx: Context)
    requires ctx == Before() && Sound(ctx) && Inv(s, ctx) && Names(binding, s.instances, ctx) && !binding.confirmed
    requires binding.journey == LIVE && s.instances[LIVE] == NewInstance(INFERRED, ctx, REPORT)
    ensures MoveOf(s, REPORT, v, binding, None, ctx).instance.held == [ARRIVED]
  {
    assert JourneySpansOf("f", LONG_TRIP, 0) == [];
  }

  lemma ReportFollows(s: State, v: VehicleId, binding: Binding, episode: Episode, ctx: Context)
    requires ctx == Before() && Sound(ctx) && Inv(s, ctx) && Names(binding, s.instances, ctx) && !binding.confirmed && s.feed == "f"
    requires binding.journey == LIVE && s.instances == map[LIVE := NewInstance(INFERRED, ctx, REPORT)]
    ensures Holding(Follow(s, REPORT, v, None, binding, Some(episode), None, ctx).state)
  {
    ReportMoves(s, v, binding, ctx);
  }

  lemma ReportOpens(s: State, v: VehicleId, episode: Episode, ctx: Context)
    requires ctx == Before() && s == Empty("f") && Sound(ctx) && Inv(s, ctx) && !ctx.confirms(Binding(v, LIVE, Published("t"), Inferred, 20, false), episode)
    ensures ChooseInferred(s, REPORT, v, KeyRef("l", "x"), episode, ctx) == BindNew(s, INFERRED, v, Inferred, ctx, REPORT)
    ensures var choice := BindNew(s, INFERRED, v, Inferred, ctx, REPORT);
            && choice.stepped.state.instances == map[LIVE := NewInstance(INFERRED, ctx, REPORT)] && choice.stepped.state.feed == "f"
            && choice.binding.journey == LIVE && !choice.binding.confirmed
  {
  }

  /** The report opens the journey and its arrival is held. */
  lemma ReportHolds(s: State, ctx: Context)
    requires ctx == Before() && s == Empty("f") && Sound(ctx) && Inv(s, ctx)
    ensures Holding(Step(s, REPORT, ctx).state)
  {
    var v, episode := VehicleId("s", "v"), Episode("l", "d", 0, 0, 0);
    ReportOpens(s, v, episode, ctx);
    ChooseInferredSafe(s, REPORT, v, KeyRef("l", "x"), episode, ctx);
    var choice := ChooseInferred(s, REPORT, v, KeyRef("l", "x"), episode, ctx);
    ReportFollows(choice.stepped.state, v, choice.binding, episode, ctx);
    assert Step(s, REPORT, ctx) == StepVehicle(s, REPORT, v, ctx);
  }

  /** With one live journey of one public journey, none is shared. */
  lemma OneUnshared(s: State, ctx: Context)
    requires s.instances.Keys == {LIVE} && LaidAll(s, ctx) && ctx.feed == "f"
    requires JourneySpansOf("f", ctx.trip(s.instances[LIVE].tripId), 0) == []
    ensures Unshared(s, ctx)
    ensures Shown(s.instances[LIVE], LIVE, ctx) ==
              [Listing(LIVE, var calls := ctx.trip(s.instances[LIVE].tripId).calls; ScheduledCalls(calls, 0, |calls| - 1))]
  {
  }

  /** A run goes on with no journey shared. */
  lemma UnsharedMore(w: World, front: seq<Op>, op: Op)
    requires Ready(w) && AllowedRun(w, front) && UnsharedRun(w, front) && Allowed(After(w, front), op)
    requires var after := Apply(After(w, front), op).world; LaidAll(after.state, after.ctx) && Unshared(after.state, after.ctx)
    ensures AllowedRun(w, front + [op]) && UnsharedRun(w, front + [op])
    ensures var out := Apply(After(w, front), op);
            After(w, front + [op]) == out.world && Log(w, front + [op]) == Log(w, front) + out.effects
  {
    AfterOne(w, front, op);
    assert (front + [op])[..|front + [op]| - 1] == front;
  }

  lemma OneTripMore(front: seq<Op>, op: Op, tripOf: TripOf)
    requires OneTripOps(front) && (op.Switch? ==> OneTrip(op.ctx, tripOf))
    ensures OneTripOps(front + [op])
  {
    var all := front + [op];
    forall i | 0 <= i < |all| && all[i].Switch? ensures exists next :: OneTrip(all[i].ctx, next) {
      assert i < |front| ==> all[i] == front[i];
    }
  }

  lemma HoldingLaid(w: World)
    requires AlignedWorld(w) && Holding(w.state) && w.ctx == Before()
    ensures LaidAll(w.state, w.ctx) && Unshared(w.state, w.ctx)
  {
    assert JourneySpansOf("f", LONG_TRIP, 0) == [];
    OneUnshared(w.state, w.ctx);
  }

  lemma ReportApplied(w: World, a: Op)
    requires w == World(Empty("f"), Before()) && a == REPORTED && Ready(w)
    ensures Allowed(w, a)
    ensures var after := Apply(w, a).world; after.ctx == w.ctx && Holding(after.state)
  {
    ReportHolds(w.state, w.ctx);
  }

  lemma ObservedAligned(w: World, a: Op)
    requires Ready(w) && AlignedWorld(w) && !a.Switch? && Allowed(w, a)
    ensures AlignedWorld(Apply(w, a).world)
  {
    ApplyAligned(w, a);
  }

  /** The switch keeps the event and lists the one call left. */
  lemma SwitchDrops(log: seq<Effect>, s: State, ctx: Context)
    requires ctx == Shortened() && s.instances.Keys == {LIVE} && s.instances[LIVE].journey == LIVE && s.instances[LIVE].held == [ARRIVED]
    requires Resolve(LIVE, ctx) == Some(SHORT_TRIP) && Known(SHORT_TRIP, ctx) && Resolvable(s, ctx)
    ensures var after := Rebase(s, ctx);
            && after.instances.Keys == {LIVE} && after.instances[LIVE].held == [ARRIVED]
            && LaidAll(after, ctx) && Unshared(after, ctx)
            && !NewestLists(log + RebaseEffects(s, ctx, [LIVE]), ARRIVED)
  {
    var after := Rebase(s, ctx);
    RebasedLaid(s.instances[LIVE], LIVE, ctx);
    OneUnshared(after, ctx);
    var shown := Shown(after.instances[LIVE], LIVE, ctx);
    assert RunsAs(after, ctx, LIVE, 0, shown[0]);
    assert !Lists(shown[0].calls, "B", 1);
    DroppedCallHeld(log, s, ctx, [LIVE], LIVE, 0, 0, shown[0]);
  }

  lemma SwitchAllowed(w: World, b: Op, tripOf: TripOf)
    requires Ready(w) && b == Shortening() && w.state.instances.Keys == {LIVE} && w.state.feed == "f" && TripT(tripOf)
    ensures OneTrip(b.ctx, tripOf) && Allowed(w, b)
    ensures Resolve(LIVE, b.ctx) == Some(SHORT_TRIP) && Known(SHORT_TRIP, b.ctx)
  {
    ShortenedOneTrip(tripOf);
    assert Enumerates([LIVE], w.state.instances.Keys);
  }

  lemma SwitchLaid(log: seq<Effect>, w: World, b: Op, tripOf: TripOf)
    requires Ready(w) && b == Shortening() && TripT(tripOf) && Holding(w.state)
    ensures Allowed(w, b) && OneTrip(b.ctx, tripOf)
    ensures var out := Apply(w, b);
            && out.world.state.instances.Keys == {LIVE} && out.world.state.instances[LIVE].held == [ARRIVED]
            && LaidAll(out.world.state, out.world.ctx) && Unshared(out.world.state, out.world.ctx)
            && !NewestLists(log + out.effects, ARRIVED)
  {
    SwitchAllowed(w, b, tripOf);
    assert Standing(w.state.instances[LIVE], LIVE);
    SwitchDrops(log, w.state, b.ctx);
  }

  ghost predicate Behind(w: World, ops: seq<Op>)
    requires Ready(w) && AllowedRun(w, ops)
  {
    var s := After(w, ops).state;
    LIVE in s.instances && s.instances[LIVE].held == [ARRIVED] && !NewestLists(Log(w, ops), ARRIVED)
  }

  lemma ReportRun(w: World, a: Op)
    requires w == World(Empty("f"), Before()) && a == REPORTED && Ready(w) && AlignedWorld(w)
    ensures AllowedRun(w, [a]) && UnsharedRun(w, [a]) && Holding(After(w, [a]).state)
  {
    ReportApplied(w, a);
    ObservedAligned(w, a);
    HoldingLaid(Apply(w, a).world);
    StartUnshared(w);
    UnsharedMore(w, [], a);
    assert [] + [a] == [a];
  }

  lemma SwitchRun(w: World, front: seq<Op>, b: Op, tripOf: TripOf)
    requires Ready(w) && AllowedRun(w, front) && UnsharedRun(w, front) && OneTripOps(front) && TripT(tripOf)
    requires b == Shortening() && Holding(After(w, front).state)
    ensures AllowedRun(w, front + [b]) && UnsharedRun(w, front + [b]) && OneTripOps(front + [b]) && Behind(w, front + [b])
  {
    SwitchLaid(Log(w, front), After(w, front), b, tripOf);
    UnsharedMore(w, front, b);
    OneTripMore(front, b, tripOf);
  }

  lemma StartUnshared(w: World)
    requires Ready(w) && w.state.instances == map[]
    ensures AllowedRun(w, []) && UnsharedRun(w, [])
  {
  }

  lemma BehindExact(w: World, ops: seq<Op>)
    requires Ready(w) && AlignedWorld(w) && AllowedRun(w, ops) && OneTripOps(ops) && UnsharedRun(w, ops)
    requires w.state.instances == map[] && Behind(w, ops)
    ensures !NewestThroughout(w, ops) && !FitsThroughout(w, ops)
  {
    var s := After(w, ops).state;
    assert ARRIVED == s.instances[LIVE].held[0] && ARRIVED in s.instances[LIVE].held;
    NewestExact(w, ops);
  }

  function Ops(): seq<Op> {
    [REPORTED] + [Shortening()]
  }

  lemma CaseStarts(w: World, tripOf: TripOf)
    requires w == World(Empty("f"), Before()) && TripT(tripOf)
    ensures Ready(w) && AlignedWorld(w)
  {
    BeforeOneTrip(tripOf);
    assert Aligned(w.state, w.ctx, tripOf);
  }

  lemma CaseRun(w: World, tripOf: TripOf)
    requires w == World(Empty("f"), Before()) && TripT(tripOf)
    ensures Ready(w) && AlignedWorld(w) && AllowedRun(w, Ops()) && OneTripOps(Ops()) && UnsharedRun(w, Ops()) && Behind(w, Ops())
  {
    CaseStarts(w, tripOf);
    ReportRun(w, REPORTED);
    SwitchRun(w, [REPORTED], Shortening(), tripOf);
  }

  /** Reached by one report and one switch, both on releases of one trip per journey: the arrival still held
      names a call the newest snapshot of its journey does not list. */
  lemma HeldPastSwitch()
    ensures var w, ops := World(Empty("f"), Before()), Ops();
            && Ready(w) && AlignedWorld(w) && AllowedRun(w, ops) && OneTripOps(ops) && UnsharedRun(w, ops) && Behind(w, ops)
            && !NewestThroughout(w, ops) && !FitsThroughout(w, ops)
  {
    var w := World(Empty("f"), Before());
    CaseRun(w, (j: JourneyKey) => Published("t"));
    BehindExact(w, Ops());
  }
}
