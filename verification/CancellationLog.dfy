/** Cancellations over the whole log of a run: the last one recorded of a public journey is the truth
    about its instance unless that was removed while cancelled and nothing was recorded since. */
module CancellationLog {
  import opened Model
  import opened Runs
  import opened RunLayout
  import opened Core
  import opened CoreSteps
  import opened CoreInvariant
  import opened CoreRuns
  import opened Cancellation

  /** Instance `j` is live, cancelled and runs as this public journey. */
  ghost predicate CancelledAs(s: State, j: JourneyKey, public: JourneyKey) {
    j in s.instances && s.instances[j].lifecycle == Cancelled && public in Publics(s.instances[j])
  }

  /** No other instance runs as this public journey. */
  ghost predicate Sole(s: State, j: JourneyKey, public: JourneyKey) {
    forall k <- s.instances :: public in Publics(s.instances[k]) ==> k == j
  }

  /** Instance `j` runs as this public journey after exactly if it did before, if it lives in both. */
  ghost predicate NameKept(before: State, after: State, j: JourneyKey, public: JourneyKey) {
    j in before.instances && j in after.instances ==>
      (public in Publics(before.instances[j]) <==> public in Publics(after.instances[j]))
  }

  /** Through the run no other instance runs as this public journey, and no release switch gives it to
      `j` or takes it from `j`. */
  ghost predicate Own(w: World, ops: seq<Op>, j: JourneyKey, public: JourneyKey)
    requires Ready(w) && AllowedRun(w, ops)
    decreases |ops|
  {
    && Sole(After(w, ops).state, j, public)
    && (ops != [] ==>
          Own(w, ops[..|ops| - 1], j, public)
          && (ops[|ops| - 1].Switch? ==> NameKept(After(w, ops[..|ops| - 1]).state, After(w, ops).state, j, public)))
  }

  /** `j` was removed while cancelled as this public journey, of which nothing was recorded since. */
  ghost predicate Owed(w: World, ops: seq<Op>, j: JourneyKey, public: JourneyKey)
    requires Ready(w) && AllowedRun(w, ops)
    decreases |ops|
  {
    ops != [] &&
    var prior := After(w, ops[..|ops| - 1]);
    && Recorded(Apply(prior, ops[|ops| - 1]).effects, public).None?
    && (Owed(w, ops[..|ops| - 1], j, public)
        || (CancelledAs(prior.state, j, public) && j !in After(w, ops).state.instances))
  }

  lemma {:induction false} RebaseRecordsNothing(s: State, ctx: Context, order: seq<JourneyKey>)
    requires Resolvable(s, ctx)
    ensures forall e <- RebaseEffects(s, ctx, order) :: !e.RecordCancellation?
  {
    if order != [] {
      RebaseRecordsNothing(s, ctx, order[..|order| - 1]);
    }
  }

  /** What one operation does to the account: what it records of the journey is what became of it, and
      where it records nothing, a cancelled journey can only have been removed. */
  ghost predicate Accounted(before: State, after: State, effects: seq<Effect>, j: JourneyKey, public: JourneyKey) {
    if Recorded(effects, public).Some?
    then Recorded(effects, public).value == CancelledAs(after, j, public) && j in after.instances
    else CancelledAs(after, j, public) <==> CancelledAs(before, j, public) && j in after.instances
  }

  lemma FaithfulAccounted(before: State, after: State, effects: seq<Effect>, j: JourneyKey, public: JourneyKey)
    requires Faithful(before, after, effects) && Sole(after, j, public)
    ensures Accounted(before, after, effects, j, public)
  {
    if j in after.instances && public in Publics(after.instances[j]) {
      assert SaysTrue(before, after, effects, j, public);
    }
  }

  lemma SwitchAccounted(s: State, ctx: Context, order: seq<JourneyKey>, j: JourneyKey, public: JourneyKey)
    requires Resolvable(s, ctx) && NameKept(s, Rebase(s, ctx), j, public)
    ensures Accounted(s, Rebase(s, ctx), RebaseEffects(s, ctx, order), j, public)
  {
    RebaseRecordsNothing(s, ctx, order);
    NothingRecorded(RebaseEffects(s, ctx, order), public);
  }

  lemma ApplyAccounted(w: World, op: Op, j: JourneyKey, public: JourneyKey)
    requires Ready(w) && Allowed(w, op)
    requires Sole(Apply(w, op).world.state, j, public)
    requires op.Switch? ==> NameKept(w.state, Apply(w, op).world.state, j, public)
    ensures var out := Apply(w, op); Accounted(w.state, out.world.state, out.effects, j, public)
  {
    var out := Apply(w, op);
    if op.Switch? {
      SwitchAccounted(w.state, op.ctx, op.order, j, public);
    } else {
      ApplyFaithful(w, op);
      FaithfulAccounted(w.state, out.world.state, out.effects, j, public);
    }
  }

  /** Over the whole log of a run, release switches included: a journey last recorded cancelled is cancelled,
      or was removed while it was and has had nothing recorded since, and never both. */
  lemma {:induction false} LogAccounts(w: World, ops: seq<Op>, j: JourneyKey, public: JourneyKey)
    requires Ready(w) && AllowedRun(w, ops) && w.state.instances == map[]
    requires Own(w, ops, j, public)
    ensures var cancelled, owed := CancelledAs(After(w, ops).state, j, public), Owed(w, ops, j, public);
            && !(cancelled && owed)
            && (Recorded(Log(w, ops), public) == Some(true) <==> cancelled || owed)
    decreases |ops|
  {
    if ops != [] {
      var front, last := ops[..|ops| - 1], ops[|ops| - 1];
      LogAccounts(w, front, j, public);
      ApplyAccounted(After(w, front), last, j, public);
      RecordedMore(Log(w, front), Apply(After(w, front), last).effects, public);
    }
  }

  /** The last cancellation recorded of a live journey agrees with its lifecycle if and only if its instance
      was not removed while cancelled, or something was recorded since. */
  lemma LastRecordTrue(w: World, ops: seq<Op>, j: JourneyKey, public: JourneyKey)
    requires Ready(w) && AllowedRun(w, ops) && w.state.instances == map[]
    requires Own(w, ops, j, public)
    requires j in After(w, ops).state.instances && public in Publics(After(w, ops).state.instances[j])
    ensures var said, cancelled := Recorded(Log(w, ops), public) == Some(true), After(w, ops).state.instances[j].lifecycle == Cancelled;
            (said <==> cancelled) <==> !Owed(w, ops, j, public)
  {
    LogAccounts(w, ops, j, public);
  }

  // ----- a case --------------------------------------------------------------------------------

  const ONE_CALL := Trip(Published("t"), "r", "1", "bus", "s", None, None, [Call(1, "A", 1, true, None, Some(0), false, None)],
                         None, None, None, [], None)
  const ITS_JOURNEY := JourneyKey("f", "n", "k", 0)
  const ITS_MATCH := Match(ITS_JOURNEY, ONE_CALL, 0, 10)

  /** A release of one trip, which every key names, read from a source that leaves keys over. */
  function OneTripContext(): Context {
    Context(
      "f", "r1", Policy(100, 100, mode => 100, mode => 100),
      key => [], id => ONE_CALL, (service, day) => true, (trip, day) => trip,
      (key, at, day) => Matched(ITS_MATCH), (line, episode, o) => Missed(NoTrip), (prior, o) => None,
      (binding, episode) => true, (trip, journey) => (0, 10), (m, at) => true, (source, channel) => true,
      (trip, day, before, position, at) => true, (departure, start) => false, (trip, day, position) => false,
      (instance, trip, o) => Tracking(map[], [], false, false, None, None, Freshness(0, 0, false, false), None, 0),
      instance => None, (instance, now) => (i => Estimate(None, None, Scheduled, None)), place => None, (day, seconds) => seconds)
  }

  function FactsOf(vehicle: Option<string>, state: Option<string>, cancelled: bool, platform: Option<PlatformFact>): Facts {
    Facts(vehicle, [KeyRef("n", "k")], None, None, state, None, None, cancelled, platform, 0)
  }

  const ITS_CANCELLATION := Observe(Observation("s", "c", "f", 0, None, FactsOf(None, None, true, None)))
  const STALE_REPORT := Observe(Observation("s", "c", "f", 20, None, FactsOf(Some("v"), Some(SOURCE_PRE_TRIP), false, None)))
  const BOARD_ROW :=
    Observe(Observation("s", "c", "f", 30, None, FactsOf(None, None, false, Some(PlatformFact("A", Departure, 0, "1", "p")))))

  /** A cancellation, a waiting report after the trip's end by a vehicle, and a board row. */
  function CancelledThenStale(): seq<Op> {
    [ITS_CANCELLATION] + [STALE_REPORT] + [BOARD_ROW]
  }

  lemma OneTripSound()
    ensures Sound(OneTripContext())
  {
    assert VisitsCount(ONE_CALL.calls);
  }

  lemma BindsIt(o: Observation, at: int)
    requires o.facts.keys == [KeyRef("n", "k")]
    ensures Bind(o, OneTripContext(), at) == Matched(ITS_MATCH)
  {
    var ctx := OneTripContext();
    assert ctx.bind(o.facts.keys[0], at, o.facts.serviceDay) == Matched(ITS_MATCH);
    assert NationalName(o.facts.keys, ITS_MATCH, at, o.facts.serviceDay, ctx) == ITS_JOURNEY;
  }

  /** The cancellation opens the journey cancelled and is recorded. */
  lemma FirstCancels(w: World, op: Op)
    requires w == World(Empty("f"), OneTripContext()) && op == ITS_CANCELLATION && Ready(w)
    ensures Allowed(w, op)
    ensures var out := Apply(w, op);
            && out.world.state.instances.Keys == {ITS_JOURNEY} && out.world.state.vehicles == map[]
            && out.world.state.instances[ITS_JOURNEY].lifecycle == Cancelled
            && out.world.state.instances[ITS_JOURNEY].progress == None
            && Recorded(out.effects, ITS_JOURNEY) == Some(true)
  {
    BindsIt(op.o, op.o.At());
    var opening := Open(w.state, ITS_MATCH, w.ctx, op.o);
    var instance := opening.state.instances[ITS_JOURNEY];
    assert JourneySpansOf(w.ctx.feed, ONE_CALL, 0) == [];
    assert Publics(instance) == [ITS_JOURNEY];
    assert Step(w.state, op.o, w.ctx) == CancelJourney(opening, ITS_JOURNEY, op.o);
    var records := CancellationRecords(instance, "s", 0, true);
    AllRecorded(records, [ITS_JOURNEY], ITS_JOURNEY, true);
    RecordedBetween(opening.effects, records, [ObservationResult(Some(ITS_JOURNEY), None, [ITS_JOURNEY], Some(0))], ITS_JOURNEY);
  }

  /** The waiting report removes it and records nothing. */
  lemma SecondRemoves(w: World, op: Op)
    requires w.ctx == OneTripContext() && op == STALE_REPORT && Ready(w) && Allowed(w, op)
    requires w.state.instances.Keys == {ITS_JOURNEY} && w.state.vehicles == map[]
    requires w.state.instances[ITS_JOURNEY].lifecycle == Cancelled && w.state.instances[ITS_JOURNEY].progress == None
    ensures var out := Apply(w, op); out.world.state.instances == map[] && Recorded(out.effects, ITS_JOURNEY) == None
  {
    var v := VehicleId("s", "v");
    BindsIt(op.o, op.o.At());
    assert Stale(ITS_MATCH, op.o, w.ctx);
    assert ChooseKeyed(w.state, op.o, v, KeyRef("n", "k"), w.ctx) == NotBound(DropUnstarted(w.state, ITS_JOURNEY, v), StaleKey);
    var out := Apply(w, op);
    assert out.effects == [out.effects[0]] && !out.effects[0].RecordCancellation?;
    NothingRecorded(out.effects, ITS_JOURNEY);
  }

  /** The board row opens it waiting and records nothing. */
  lemma ThirdReopens(w: World, op: Op)
    requires w.ctx == OneTripContext() && op == BOARD_ROW && Ready(w) && Allowed(w, op)
    requires w.state.instances == map[]
    ensures var out := Apply(w, op);
            && ITS_JOURNEY in out.world.state.instances && out.world.state.instances[ITS_JOURNEY].lifecycle == PreTrip
            && Recorded(out.effects, ITS_JOURNEY) == None
  {
    var fact := op.o.facts.platform.value;
    BindsIt(op.o, fact.scheduled);
    OpenFaithful(w.state, ITS_MATCH, w.ctx, op.o);
    var opening := Open(w.state, ITS_MATCH, w.ctx, op.o);
    assert BoardCall(ONE_CALL.calls, 0, fact, w.ctx) == None;
    var out := Apply(w, op);
    var tail := [Unresolved("A"), ObservationResult(Some(ITS_JOURNEY), None, Publics(opening.state.instances[ITS_JOURNEY]), None)];
    assert out.effects == opening.effects + tail;
    NothingRecorded(out.effects, ITS_JOURNEY);
  }

  lemma AfterOne(w: World, ops: seq<Op>, op: Op)
    requires Ready(w) && AllowedRun(w, ops) && Allowed(After(w, ops), op)
    ensures AllowedRun(w, ops + [op]) && After(w, ops + [op]) == Apply(After(w, ops), op).world
    ensures Log(w, ops + [op]) == Log(w, ops) + Apply(After(w, ops), op).effects
  {
    assert (ops + [op])[..|ops + [op]| - 1] == ops;
  }

  /** A run that goes on, and what it last recorded. */
  lemma RunGoesOn(w: World, ops: seq<Op>, op: Op, public: JourneyKey)
    requires Ready(w) && AllowedRun(w, ops) && Allowed(After(w, ops), op)
    ensures AllowedRun(w, ops + [op]) && After(w, ops + [op]) == Apply(After(w, ops), op).world
    ensures Recorded(Log(w, ops + [op]), public) == Else(Recorded(Apply(After(w, ops), op).effects, public), Recorded(Log(w, ops), public))
  {
    AfterOne(w, ops, op);
    RecordedMore(Log(w, ops), Apply(After(w, ops), op).effects, public);
  }

  lemma CancelledFirst(w: World, a: Op)
    requires w == World(Empty("f"), OneTripContext()) && a == ITS_CANCELLATION && Ready(w)
    ensures AllowedRun(w, [a])
    ensures var s := After(w, [a]).state;
            && s.instances.Keys == {ITS_JOURNEY} && s.vehicles == map[] && After(w, [a]).ctx == w.ctx && s.feed == "f"
            && s.instances[ITS_JOURNEY].lifecycle == Cancelled && s.instances[ITS_JOURNEY].progress == None
            && Recorded(Log(w, [a]), ITS_JOURNEY) == Some(true)
  {
    FirstCancels(w, a);
    RunGoesOn(w, [], a, ITS_JOURNEY);
    assert [] + [a] == [a];
  }

  lemma RemovedSecond(w: World, front: seq<Op>, b: Op)
    requires Ready(w) && AllowedRun(w, front) && After(w, front).ctx == OneTripContext() && b == STALE_REPORT
    requires var s := After(w, front).state;
             && s.instances.Keys == {ITS_JOURNEY} && s.vehicles == map[] && s.feed == "f"
             && s.instances[ITS_JOURNEY].lifecycle == Cancelled && s.instances[ITS_JOURNEY].progress == None
             && Recorded(Log(w, front), ITS_JOURNEY) == Some(true)
    ensures AllowedRun(w, front + [b])
    ensures var after := After(w, front + [b]);
            && after.state.instances == map[] && after.ctx == OneTripContext() && after.state.feed == "f"
            && Recorded(Log(w, front + [b]), ITS_JOURNEY) == Some(true)
  {
    SecondRemoves(After(w, front), b);
    RunGoesOn(w, front, b, ITS_JOURNEY);
  }

  lemma ReopenedThird(w: World, front: seq<Op>, c: Op)
    requires Ready(w) && AllowedRun(w, front) && After(w, front).ctx == OneTripContext() && c == BOARD_ROW
    requires After(w, front).state.instances == map[] && After(w, front).state.feed == "f"
    requires Recorded(Log(w, front), ITS_JOURNEY) == Some(true)
    ensures AllowedRun(w, front + [c])
    ensures var s := After(w, front + [c]).state;
            && ITS_JOURNEY in s.instances && s.instances[ITS_JOURNEY].lifecycle == PreTrip
            && Recorded(Log(w, front + [c]), ITS_JOURNEY) == Some(true)
  {
    ThirdReopens(After(w, front), c);
    RunGoesOn(w, front, c, ITS_JOURNEY);
  }

  lemma FirstTwo(w: World, a: Op, b: Op)
    requires w == World(Empty("f"), OneTripContext()) && a == ITS_CANCELLATION && b == STALE_REPORT && Ready(w)
    ensures AllowedRun(w, [a] + [b])
    ensures var after := After(w, [a] + [b]);
            && after.state.instances == map[] && after.ctx == OneTripContext() && after.state.feed == "f"
            && Recorded(Log(w, [a] + [b]), ITS_JOURNEY) == Some(true)
  {
    CancelledFirst(w, a);
    RemovedSecond(w, [a], b);
  }

  /** A cancelled journey forgotten by a stale report and opened again by a board row waits, while the last
      thing recorded of it is that it is cancelled. */
  lemma CancelledReopensWaiting()
    ensures var w, ops := World(Empty("f"), OneTripContext()), CancelledThenStale();
            && Ready(w) && AllowedRun(w, ops)
            && ITS_JOURNEY in After(w, ops).state.instances && After(w, ops).state.instances[ITS_JOURNEY].lifecycle == PreTrip
            && Recorded(Log(w, ops), ITS_JOURNEY) == Some(true)
  {
    OneTripSound();
    var w := World(Empty("f"), OneTripContext());
    FirstTwo(w, ITS_CANCELLATION, STALE_REPORT);
    ReopenedThird(w, [ITS_CANCELLATION] + [STALE_REPORT], BOARD_ROW);
  }
}
