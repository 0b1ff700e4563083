/** Sweeping never changes an answer: whatever was loaded, asked or swept before, the index answers
    for a batch it was given and for the live journeys as the database itself does. One lookup
    escapes: the own key of a line kept without trip keys. */
module SweepTransparent {
  import opened Model
  import opened Runs
  import opened StaticIndex
  import opened IndexInvariant
  import opened RunMemo
  import opened RunLayout

  // ----- any history of the index --------------------------------------------------------------

  datatype IndexOp = EnsureOp(b: Batch) | AskOp(name: string, day: int) | SweepOp(k: Kept)

  ghost function ApplyOp(db: Database, s: Store, op: IndexOp): Store
    requires Stored(db)
  {
    match op
    case EnsureOp(b) => Ensure(db, s, b)
    case AskOp(name, day) =>
      if Published(name) !in s.trips then s
      else
        var asked := AskRun(s, s.trips[Published(name)], day);
        if asked.Some? then asked.value.0 else s
    case SweepOp(k) => Sweep(s, k)
  }

  ghost function Grown(db: Database, ops: seq<IndexOp>): Store
    requires Stored(db)
  {
    if ops == [] then EmptyStore() else ApplyOp(db, Grown(db, ops[..|ops| - 1]), ops[|ops| - 1])
  }

  /** A run asked for on a day not loaded is a miss. */
  lemma AskMisses(db: Database, s: Store, trip: Trip, day: int)
    requires Stored(db) && Inv(db, s) && Asked(s, trip) && day !in s.loaded
    ensures AskRun(s, trip, day) == if OwnRun(trip) then Some((s, trip)) else None
  {
    AskedStored(db, s, trip);
    assert trip.runKey.Some? ==> trip.tripId.id in s.runs[trip.runKey.value];
  }

  lemma ApplyOpInv(db: Database, s: Store, op: IndexOp)
    requires Stored(db) && Inv(db, s)
    ensures Inv(db, ApplyOp(db, s, op))
  {
    match op
    case EnsureOp(b) => EnsureInv(db, s, b);
    case AskOp(name, day) =>
      if Published(name) in s.trips {
        assert TrueTrip(db, Published(name), s.trips[Published(name)]);
        if day in s.loaded {
          AskRunInv(db, s, s.trips[Published(name)], day);
        } else {
          AskMisses(db, s, s.trips[Published(name)], day);
        }
      }
    case SweepOp(k) => SweepInv(db, s, k);
  }

  /** However it was loaded, asked and swept, the index is faithful to the database and closed. */
  lemma {:induction false} GrownInv(db: Database, ops: seq<IndexOp>)
    requires Stored(db)
    ensures Inv(db, Grown(db, ops))
  {
    if ops != [] {
      GrownInv(db, ops[..|ops| - 1]);
      ApplyOpInv(db, Grown(db, ops[..|ops| - 1]), ops[|ops| - 1]);
    }
  }

  lemma BuiltWellLaid(db: Database, id: TripId, trip: Trip, name: string, day: int)
    requires Stored(db) && BuiltOn(db, id, trip, name, day)
    ensures trip.tripId == id && WellLaid(trip) && VisitsUnique(trip.calls)
  {
    var run := db.trips[name].runKey.value;
    RunTripWellLaid(id, run, RunningParts(DbParts(db, run), db.trips[name], DbRuns(db, day)));
  }

  lemma TrueTripWellLaid(db: Database, id: TripId, trip: Trip)
    requires Stored(db) && TrueTrip(db, id, trip)
    ensures trip.tripId == id && WellLaid(trip) && VisitsUnique(trip.calls)
  {
    if id.RunOf? {
      var name, day :| BuiltOn(db, id, trip, name, day);
      BuiltWellLaid(db, id, trip, name, day);
    } else {
      CountedVisitsUnique(trip.calls);
    }
  }

  /** Every trip the index holds, run trips included, is laid out as the core relies on: visits counted,
      and published parts covering the calls. */
  lemma IndexWellLaid(db: Database, s: Store, id: TripId)
    requires Stored(db) && Inv(db, s) && id in s.trips
    ensures s.trips[id].tripId == id && WellLaid(s.trips[id]) && VisitsUnique(s.trips[id].calls)
  {
    assert TrueTrip(db, id, s.trips[id]);
    TrueTripWellLaid(db, id, s.trips[id]);
  }

  // ----- answering as the database does --------------------------------------------------------

  /** The index answers for a stored trip, and on `days` for its service, as the database does. */
  ghost predicate TripServed(db: Database, s: Store, id: string, days: set<int>)
    requires Stored(db) && id in db.trips
  {
    var trip := db.trips[id];
    && LookupTrip(s, Published(id)) == Some(trip)
    && (trip.shapeId.Some? ==> LookupShape(s, trip.shapeId.value) == Some(ShapeOf(db, trip.shapeId.value)))
    && (forall place <- PlacesOf(trip) ::
          LookupLocation(s, place) == if place in db.locations then Some(db.locations[place]) else None)
    && (forall day <- days :: LookupRunsOn(s, trip.serviceId, day) == Some(day in DatesOf(db, trip.serviceId)))
  }

  /** So it does for every part of the trip's run, and for the run trips of `days`. */
  ghost predicate RunServed(db: Database, s: Store, id: string, days: set<int>)
    requires Stored(db) && id in db.trips
  {
    var trip := db.trips[id];
    && (trip.runKey.Some? ==> forall part <- db.runs[trip.runKey.value] :: TripServed(db, s, part, days))
    && (forall day <- days :: AskRun(s, trip, day).Some? && AskRun(s, trip, day).value.1 == FreshRun(db, trip, day))
  }

  ghost predicate KeyServed(db: Database, s: Store, ref: KeyRef, days: set<int>)
    requires Stored(db)
  {
    && LookupKeys(s, ref) == Some(Entries(db, ref))
    && forall id <- TripsNamed(db, ref) :: TripServed(db, s, id, days) && RunServed(db, s, id, days)
  }

  ghost predicate AllIdentify(db: Database)
    requires Stored(db)
  {
    forall run <- db.runs :: NumbersIdentify(db, run)
  }

  lemma TripLoadedServed(db: Database, s: Store, id: string, days: set<int>)
    requires Stored(db) && Inv(db, s) && Published(id) in s.trips && days <= s.loaded
    ensures id in db.trips && TripServed(db, s, id, days)
  {
    assert TrueTrip(db, Published(id), s.trips[Published(id)]);
    var trip := db.trips[id];
    assert TripClosed(db, s, trip, {});
    assert s.dates[trip.serviceId] == DatesOf(db, trip.serviceId) * s.loaded;
  }

  lemma PartsLoadedServed(db: Database, s: Store, run: string, days: set<int>)
    requires Stored(db) && Inv(db, s) && run in s.runs && days <= s.loaded
    ensures run in db.runs && forall part <- db.runs[run] :: TripServed(db, s, part, days)
  {
    forall part | part in db.runs[run] ensures TripServed(db, s, part, days) {
      assert part in s.runs[run];
      TripLoadedServed(db, s, part, days);
    }
  }

  lemma RunsFresh(db: Database, s: Store, trip: Trip, days: set<int>)
    requires Stored(db) && Inv(db, s) && Asked(s, trip) && days <= s.loaded
    requires trip.runKey.Some? ==> trip.runKey.value in db.runs && NumbersIdentify(db, trip.runKey.value)
    ensures forall day <- days :: AskRun(s, trip, day).Some? && AskRun(s, trip, day).value.1 == FreshRun(db, trip, day)
  {
    forall day | day in days
      ensures AskRun(s, trip, day).Some? && AskRun(s, trip, day).value.1 == FreshRun(db, trip, day)
    {
      MemoRefines(db, s, trip, day);
    }
  }

  lemma RunLoadedServed(db: Database, s: Store, id: string, days: set<int>)
    requires Stored(db) && Inv(db, s) && AllIdentify(db) && Published(id) in s.trips && days <= s.loaded
    ensures id in db.trips && RunServed(db, s, id, days)
  {
    TripLoadedServed(db, s, id, days);
    var trip := db.trips[id];
    AskedStored(db, s, trip);
    if trip.runKey.Some? {
      PartsLoadedServed(db, s, trip.runKey.value, days);
    }
    RunsFresh(db, s, trip, days);
  }

  /** A loaded key is answered for, with everything it leads to. */
  lemma KeyLoadedServed(db: Database, s: Store, ref: KeyRef, days: set<int>)
    requires Stored(db) && Inv(db, s) && AllIdentify(db) && ref in s.keys && days <= s.loaded
    ensures KeyServed(db, s, ref, days)
  {
    forall id | id in TripsNamed(db, ref) ensures TripServed(db, s, id, days) && RunServed(db, s, id, days) {
      assert Published(id) in s.trips;
      TripLoadedServed(db, s, id, days);
      RunLoadedServed(db, s, id, days);
    }
  }

  // ----- batches -------------------------------------------------------------------------------

  function LinesOf(b: Batch): set<KeyRef> {
    set line | line in b.lines && IsLine(line)
  }

  /** The keys a batch may look up: its own, its lines' trip keys and their parents. */
  function NamedBy(db: Database, b: Batch): set<KeyRef> {
    var refs := b.refs + LineKeys(db, LinesOf(b));
    refs + Parents(refs)
  }

  ghost predicate BatchServed(db: Database, s: Store, b: Batch)
    requires Stored(db)
  {
    && (forall ref <- NamedBy(db, b) :: KeyServed(db, s, ref, b.days))
    && (forall line <- LinesOf(b) :: LookupLine(s, line) == Some(Children(db, line)))
  }

  lemma NamedLoaded(db: Database, s: Store, b: Batch)
    requires Stored(db) && Inv(db, s)
    ensures NamedBy(db, b) <= Ensure(db, s, b).keys.Keys
    ensures forall line <- LinesOf(b) :: LookupLine(Ensure(db, s, b), line) == Some(Children(db, line))
  {
    EnsureInv(db, s, b);
    var after := Ensure(db, s, b);
    forall line | line in LinesOf(b) ensures line in after.lines && after.lines[line] == Children(db, line) {
      if line !in s.lines {
        assert line in NewLines(s, b.lines);
      }
    }
    forall ref | ref in b.refs + LineKeys(db, LinesOf(b)) ensures ref in after.keys {
      if ref in b.refs {
        assert ref in Wanted(db, s, b);
      } else {
        var line, id :| line in LinesOf(b) && id in Children(db, line) && ref == KeyRef(LINE_TRIP, id);
        assert id in after.lines[line];
      }
    }
  }

  /** Loading a batch answers all it may look up, from whatever the index held. */
  lemma EnsureServes(db: Database, s: Store, b: Batch)
    requires Stored(db) && Inv(db, s) && AllIdentify(db)
    ensures BatchServed(db, Ensure(db, s, b), b)
  {
    EnsureInv(db, s, b);
    NamedLoaded(db, s, b);
    forall ref | ref in NamedBy(db, b) ensures KeyServed(db, Ensure(db, s, b), ref, b.days) {
      KeyLoadedServed(db, Ensure(db, s, b), ref, b.days);
    }
  }

  // ----- when loading queries ------------------------------------------------------------------

  /** Only a first date, before any service is known, is said to need the database and makes no
      query. */
  lemma NeedsExact(db: Database, s: Store, b: Batch)
    ensures Needs(s, b) <==> Queries(db, s, b) || (b.days - s.loaded != {} && s.dates == map[])
  {
    LinesNew(s, b);
    forall day | b.days - s.loaded == {} && day in b.days ensures day in s.loaded {
      assert day !in b.days - s.loaded;
    }
    if NewLines(s, b.lines) == {} {
      assert LineKeys(db, {}) == {};
      assert b.refs + {} == b.refs;
      assert Wanted(db, s, b) == b.refs + Parents(b.refs);
    }
  }

  /** Such a batch: one day, asked of an index that knows no service. */
  lemma FirstDateUnqueried()
    ensures var db, b := BareLine(), Batch({}, {1}, {});
            Needs(EmptyStore(), b) && !Queries(db, EmptyStore(), b)
  {
    var db, b := BareLine(), Batch({}, {1}, {});
    NeedsExact(db, EmptyStore(), b);
    assert Wanted(db, EmptyStore(), b) == {} by {
      assert LineKeys(db, {}) == {};
      assert Parents({}) == {};
    }
    assert 1 in b.days && 1 !in EmptyStore().loaded;
  }

  lemma LinesNew(s: Store, b: Batch)
    ensures NewLines(s, b.lines) != {} <==> exists line :: line in b.lines && IsLine(line) && line !in s.lines
  {
    if line :| line in b.lines && IsLine(line) && line !in s.lines {
      assert line in NewLines(s, b.lines);
    }
  }

  /** What is said not to need the database changes nothing, and a loaded batch needs it no more. */
  lemma NeedsSettled(db: Database, s: Store, b: Batch)
    requires Stored(db) && Inv(db, s)
    ensures !Needs(s, b) ==> Ensure(db, s, b) == s
    ensures !Needs(Ensure(db, s, b), b) && Ensure(db, Ensure(db, s, b), b) == Ensure(db, s, b)
  {
    Unneeded(db, s, b);
    EnsureInv(db, s, b);
    var after := Ensure(db, s, b);
    NamedLoaded(db, s, b);
    assert b.refs + Parents(b.refs) <= NamedBy(db, b);
    assert !Needs(after, b) by {
      forall line | line in b.lines && IsLine(line) ensures line in after.lines {
        assert line in LinesOf(b);
      }
    }
    Unneeded(db, after, b);
  }

  lemma Unneeded(db: Database, s: Store, b: Batch)
    requires Stored(db)
    ensures !Needs(s, b) ==> Ensure(db, s, b) == s
  {
    if !Needs(s, b) {
      assert NewLines(s, b.lines) == {};
      assert LineKeys(db, {}) == {};
      assert b.refs + {} == b.refs;
      assert Wanted(db, s, b) == b.refs + Parents(b.refs);
      assert WithLines(db, s, {}) == s;
      assert b.days - s.loaded == {};
    }
  }

  // ----- sweeping ------------------------------------------------------------------------------

  /** A batch is answered the same, and as the database answers, whether or not the index was swept
      before loading it, whatever its history. */
  lemma SweepKeepsBatchAnswers(db: Database, ops: seq<IndexOp>, k: Kept, b: Batch)
    requires Stored(db) && AllIdentify(db)
    ensures var s := Grown(db, ops);
            BatchServed(db, Ensure(db, s, b), b) && BatchServed(db, Ensure(db, Sweep(s, k), b), b)
  {
    var s := Grown(db, ops);
    GrownInv(db, ops);
    SweepInv(db, s, k);
    EnsureServes(db, s, b);
    EnsureServes(db, Sweep(s, k), b);
  }

  // ----- live journeys -------------------------------------------------------------------------

  function ResolveAmong(s: Store, entries: seq<KeyEntry>, day: int): Option<Option<Trip>> {
    if entries == [] then Some(None)
    else if !entries[0].ValidOn(day) then ResolveAmong(s, entries[1..], day)
    else
      var trip := LookupTrip(s, Published(entries[0].publicId));
      if trip.None? then None
      else
        var runs := LookupRunsOn(s, trip.value.serviceId, day);
        if runs.None? then None
        else if !runs.value then ResolveAmong(s, entries[1..], day)
        else
          var asked := AskRun(s, trip.value, day);
          if asked.None? then None else Some(Some(asked.value.1))
  }

  /** What the index says a journey runs as; None is a miss, Some(None) that nothing of its key runs. */
  function ResolveOn(s: Store, journey: JourneyKey): Option<Option<Trip>> {
    var entries := LookupKeys(s, KeyRef(journey.namespace, journey.key));
    if entries.None? then None else ResolveAmong(s, entries.value, journey.day)
  }

  /** The same by the database: the first valid entry whose trip runs, and its fresh run trip; an
      entry that names no stored trip is a miss. */
  ghost function FreshAmong(db: Database, entries: seq<KeyEntry>, day: int): Option<Option<Trip>>
    requires Stored(db)
  {
    if entries == [] then Some(None)
    else if !entries[0].ValidOn(day) then FreshAmong(db, entries[1..], day)
    else if entries[0].publicId !in db.trips then None
    else
      var trip := db.trips[entries[0].publicId];
      if day in DatesOf(db, trip.serviceId) then Some(Some(FreshRun(db, trip, day))) else FreshAmong(db, entries[1..], day)
  }

  ghost function FreshResolve(db: Database, journey: JourneyKey): Option<Option<Trip>>
    requires Stored(db)
  {
    FreshAmong(db, Entries(db, KeyRef(journey.namespace, journey.key)), journey.day)
  }

  lemma OnlyStored(db: Database, s: Store)
    requires Stored(db) && TripsTrue(db, s.trips)
    ensures forall id :: Published(id) in s.trips ==> id in db.trips
  {
    forall id | Published(id) in s.trips ensures id in db.trips {
      assert TrueTrip(db, Published(id), s.trips[Published(id)]);
    }
  }

  lemma {:induction false} ResolveAmongServed(db: Database, s: Store, ref: KeyRef, entries: seq<KeyEntry>, day: int)
    requires Stored(db) && KeyServed(db, s, ref, {day})
    requires forall id :: Published(id) in s.trips ==> id in db.trips
    requires forall e <- entries :: e in Entries(db, ref)
    ensures ResolveAmong(s, entries, day) == FreshAmong(db, entries, day)
  {
    if entries != [] {
      assert forall e <- entries[1..] :: e in entries;
      ResolveAmongServed(db, s, ref, entries[1..], day);
      var id := entries[0].publicId;
      assert entries[0] in Entries(db, ref);
      if id in db.trips {
        assert id in TripsNamed(db, ref);
        assert TripServed(db, s, id, {day}) && RunServed(db, s, id, {day});
        assert day in {day};
      }
    }
  }

  /** A journey whose key and day are loaded resolves as the database says. */
  lemma ResolveServed(db: Database, s: Store, journey: JourneyKey)
    requires Stored(db) && Inv(db, s) && AllIdentify(db)
    requires KeyRef(journey.namespace, journey.key) in s.keys && journey.day in s.loaded
    ensures ResolveOn(s, journey) == FreshResolve(db, journey)
  {
    var ref := KeyRef(journey.namespace, journey.key);
    KeyLoadedServed(db, s, ref, {journey.day});
    OnlyStored(db, s);
    ResolveAmongServed(db, s, ref, Entries(db, ref), journey.day);
  }

  /** A journey's key and trip are kept, and its day is. */
  predicate KeepsJourney(refs: set<KeyRef>, trips: set<TripId>, since: int, journey: JourneyKey, id: TripId) {
    KeyRef(journey.namespace, journey.key) in refs && id in trips && since <= journey.day
  }

  ghost predicate KeepsBinding(refs: set<KeyRef>, trips: set<TripId>, since: int, vehicle: VehicleState) {
    vehicle.binding.Some? ==> KeepsJourney(refs, trips, since, vehicle.binding.value.journey, vehicle.binding.value.tripId)
  }

  /** The trip a journey resolves to can be looked up again under its ID exactly when its key resolves to no
      run of two versions of one part: the ID of such a run is never remembered. */
  lemma ResolvedFound(db: Database, s: Store, trip: Trip, day: int)
    requires Stored(db) && Inv(db, s) && Asked(s, trip) && day in s.loaded && !OwnRun(trip)
    requires trip.runKey.value in db.runs
    ensures AskRun(s, trip, day).Some?
    ensures var asked := AskRun(s, trip, day).value;
            var running := RunningParts(DbParts(db, trip.runKey.value), trip, DbRuns(db, day));
            LookupTrip(asked.0, asked.1.tripId) == if Repeats(PartNumbers(running)) then None else Some(asked.1)
  {
    AskedStored(db, s, trip);
    AskedRunning(db, s, trip, day);
    NoneAmbiguous(db, s);
    var running := RunningParts(DbParts(db, trip.runKey.value), trip, DbRuns(db, day));
    var built := BuildRun(trip.runKey.value, trip, running);
    assert Repeats(PartNumbers(running)) ==> built.tripId.AmbiguousRun?;
    AnswerFound(db, s, Repeats(PartNumbers(running)), built);
  }

  lemma AnswerFound(db: Database, s: Store, ambiguous: bool, built: Trip)
    requires Stored(db) && Inv(db, s)
    requires ambiguous ==> built.tripId !in s.trips
    ensures var asked := Answer(s, ambiguous, built);
            LookupTrip(asked.0, asked.1.tripId) == if ambiguous then None else Some(asked.1)
  {
    if !ambiguous && built.tripId in s.trips {
      IndexWellLaid(db, s, built.tripId);
    }
  }

  lemma NoneAmbiguous(db: Database, s: Store)
    requires Stored(db) && Inv(db, s)
    ensures forall id <- s.trips :: !id.AmbiguousRun?
  {
    forall id | id in s.trips ensures !id.AmbiguousRun? {
      assert TrueTrip(db, id, s.trips[id]);
    }
  }

  // ----- a run of two versions of one part -----------------------------------------------------

  /** Two versions of the only part of run "K", both running on day 1. */
  function BothVersions(): Database {
    TwoVersions().(dates := map["sa" := {1}, "sb" := {1}])
  }

  function BothLoaded(): Store {
    TwoVersionsLoaded().(dates := map["sa" := {1}, "sb" := {1}])
  }

  lemma BothFaithful()
    requires Stored(BothVersions())
    ensures Faithful(BothVersions(), BothLoaded())
  {
    var db, s := BothVersions(), BothLoaded();
    assert DatesOf(db, "sa") * s.loaded == {1} && DatesOf(db, "sb") * s.loaded == {1};
    assert TripsTrue(db, s.trips) && RunsTrue(db, s.runs);
  }

  lemma BothInv()
    ensures Stored(BothVersions()) && Inv(BothVersions(), BothLoaded())
  {
    TwoVersionsStored();
    BothFaithful();
    assert TripsClosed(BothVersions(), BothLoaded(), {}) && RunsLead(BothLoaded().runs, BothLoaded().trips, {});
  }

  lemma BothRunning()
    ensures var db, a, b := BothVersions(), Version("a", "sa", "x"), Version("b", "sb", "y");
            RunningParts(DbParts(db, "K"), a, DbRuns(db, 1)) == [a, b] && Repeats(PartNumbers([a, b]))
  {
    var db, a, b := BothVersions(), Version("a", "sa", "x"), Version("b", "sb", "y");
    assert DbParts(db, "K") == [a, b] && [a, b][1..] == [b] && [b][1..] == [];
    assert Among([b], DbRuns(db, 1)) == [b];
    assert PartNumbers([a, b])[0] == PartNumbers([a, b])[1];
  }

  /** Asked for on that day, the run is answered, under an ID the index does not know. */
  lemma TwoVersionsUnfound()
    ensures var asked := AskRun(BothLoaded(), Version("a", "sa", "x"), 1);
            asked.Some? && asked.value.1.tripId == AmbiguousRun("K") && LookupTrip(asked.value.0, AmbiguousRun("K")) == None
  {
    BothInv();
    BothRunning();
    ResolvedFound(BothVersions(), BothLoaded(), Version("a", "sa", "x"), 1);
    AskedRunning(BothVersions(), BothLoaded(), Version("a", "sa", "x"), 1);
  }

  // ----- what a sweep keeps --------------------------------------------------------------------

  /** What the runner asks a sweep to keep: the keys and lines named since, the live journeys' keys
      and trips, and the days from the earliest live journey's (or yesterday) on. */
  ghost predicate KeepsLive(k: Kept, state: State, yesterday: int) {
    && k.since <= yesterday
    && (forall journey <- state.instances :: KeepsJourney(k.refs, k.trips, k.since, journey, state.instances[journey].tripId))
    && (forall v <- state.vehicles :: KeepsBinding(k.refs, k.trips, k.since, state.vehicles[v]))
  }

  ghost predicate Live(state: State, journey: JourneyKey) {
    || journey in state.instances
    || exists v <- state.vehicles :: state.vehicles[v].binding.Some? && state.vehicles[v].binding.value.journey == journey
  }

  ghost predicate LiveTrip(state: State, id: TripId) {
    || (exists j <- state.instances :: state.instances[j].tripId == id)
    || exists v <- state.vehicles :: state.vehicles[v].binding.Some? && state.vehicles[v].binding.value.tripId == id
  }

  lemma ServiceKept(db: Database, s: Store, swept: Store, service: string, since: int)
    requires DatesTrue(db, s.dates, s.loaded) && DatesTrue(db, swept.dates, swept.loaded)
    requires service in s.dates && service in swept.dates
    requires swept.loaded == set d | d in s.loaded && d >= since
    ensures forall day | day in s.loaded && day >= since ::
              LookupRunsOn(swept, service, day) == LookupRunsOn(s, service, day) != None
  {
    assert swept.dates[service] == DatesOf(db, service) * swept.loaded;
    assert s.dates[service] == DatesOf(db, service) * s.loaded;
  }

  lemma PlacesKept(db: Database, s: Store, swept: Store, trip: Trip)
    requires PlacesTrue(db, s.locations) && PlacesTrue(db, swept.locations) && swept.locations.Keys <= s.locations.Keys
    requires TripClosed(db, swept, trip, {})
    ensures forall place <- PlacesOf(trip) :: LookupLocation(swept, place) == LookupLocation(s, place)
  {
    forall place | place in PlacesOf(trip) ensures LookupLocation(swept, place) == LookupLocation(s, place) {
      assert place in db.locations ==> place in swept.locations;
    }
  }

  /** A trip kept by name is answered for as before the sweep, run trips included, with its shape,
      its places and its service on the days kept. */
  lemma KeptTripAnswers(db: Database, s: Store, k: Kept, id: TripId)
    requires Stored(db) && Inv(db, s) && id in k.trips && id in s.trips
    ensures var swept, trip := Sweep(s, k), s.trips[id];
            && LookupTrip(swept, id) == Some(trip)
            && (trip.shapeId.Some? ==>
                  LookupShape(swept, trip.shapeId.value) == LookupShape(s, trip.shapeId.value) != None)
            && (forall place <- PlacesOf(trip) :: LookupLocation(swept, place) == LookupLocation(s, place))
            && (forall day | day in s.loaded && day >= k.since ::
                  LookupRunsOn(swept, trip.serviceId, day) == LookupRunsOn(s, trip.serviceId, day) != None)
  {
    var swept, trip := Sweep(s, k), s.trips[id];
    assert id in NamedTrips(s, k);
    KeptTripClosed(db, s, k, id);
    SweepFaithful(db, s, k);
    assert TripClosed(db, s, trip, {});
    ServiceKept(db, s, swept, trip.serviceId, k.since);
    PlacesKept(db, s, swept, trip);
  }

  /** On a day not loaded, the first entry valid that day is a miss, whatever trips are held. */
  lemma {:induction false} ResolveUnloaded(s: Store, t: Store, entries: seq<KeyEntry>, day: int)
    requires day !in s.loaded && day !in t.loaded
    ensures ResolveAmong(s, entries, day) == ResolveAmong(t, entries, day)
  {
    if entries != [] {
      ResolveUnloaded(s, t, entries[1..], day);
    }
  }

  /** Two indexes that agree on which of the journey's key and day are loaded resolve it alike. */
  lemma ResolveSame(db: Database, s: Store, t: Store, journey: JourneyKey)
    requires Stored(db) && Inv(db, s) && Inv(db, t) && AllIdentify(db)
    requires KeyRef(journey.namespace, journey.key) in s.keys <==> KeyRef(journey.namespace, journey.key) in t.keys
    requires journey.day in s.loaded <==> journey.day in t.loaded
    ensures ResolveOn(s, journey) == ResolveOn(t, journey)
  {
    var ref := KeyRef(journey.namespace, journey.key);
    if ref in s.keys {
      if journey.day in s.loaded {
        ResolveServed(db, s, journey);
        ResolveServed(db, t, journey);
      } else {
        ResolveUnloaded(s, t, Entries(db, ref), journey.day);
      }
    }
  }

  lemma LiveKept(k: Kept, state: State, yesterday: int, journey: JourneyKey)
    requires KeepsLive(k, state, yesterday) && Live(state, journey)
    ensures KeyRef(journey.namespace, journey.key) in k.refs && k.since <= journey.day
  {
  }

  /** No live journey notices a sweep, whether or not its own key was ever loaded: the key resolves as it did,
      to the database's trip where it and the day are loaded. */
  lemma SweepKeepsLive(db: Database, s: Store, k: Kept, state: State, yesterday: int, journey: JourneyKey)
    requires Stored(db) && Inv(db, s) && AllIdentify(db)
    requires KeepsLive(k, state, yesterday) && Live(state, journey)
    ensures ResolveOn(Sweep(s, k), journey) == ResolveOn(s, journey)
    ensures KeyRef(journey.namespace, journey.key) in s.keys && journey.day in s.loaded ==>
              ResolveOn(s, journey) == FreshResolve(db, journey)
              && KeyServed(db, Sweep(s, k), KeyRef(journey.namespace, journey.key), {journey.day})
  {
    SweepInv(db, s, k);
    LiveKept(k, state, yesterday, journey);
    ResolveSame(db, s, Sweep(s, k), journey);
    if KeyRef(journey.namespace, journey.key) in s.keys && journey.day in s.loaded {
      ResolveServed(db, s, journey);
      KeyLoadedServed(db, Sweep(s, k), KeyRef(journey.namespace, journey.key), {journey.day});
    }
  }

  /** Nor does it after the batch that follows: what resolves without the sweep resolves to the same with it. A
      key never loaded may only be found where it missed, when the batch loads a swept line again. */
  lemma SweepThenBatch(db: Database, s: Store, k: Kept, b: Batch, state: State, yesterday: int, journey: JourneyKey)
    requires Stored(db) && Inv(db, s) && AllIdentify(db)
    requires KeepsLive(k, state, yesterday) && Live(state, journey)
    ensures var plain, swept := ResolveOn(Ensure(db, s, b), journey), ResolveOn(Ensure(db, Sweep(s, k), b), journey);
            && (plain.Some? || KeyRef(journey.namespace, journey.key) in s.keys ==> swept == plain)
            && (swept != plain ==> KeyRef(journey.namespace, journey.key) in Wanted(db, Sweep(s, k), b) - Wanted(db, s, b))
  {
    SweepInv(db, s, k);
    LiveKept(k, state, yesterday, journey);
    EnsureInv(db, s, b);
    EnsureInv(db, Sweep(s, k), b);
    WantedMore(db, s, k, b);
    var ref := KeyRef(journey.namespace, journey.key);
    if ref in s.keys || ref in Wanted(db, s, b) || ref !in Wanted(db, Sweep(s, k), b) {
      ResolveSame(db, Ensure(db, s, b), Ensure(db, Sweep(s, k), b), journey);
    }
  }

  /** Two indexes that hold one trip answer alike for it: for its shape, its places and its service's days. */
  ghost predicate TripAlike(s: Store, t: Store, trip: Trip, since: int) {
    && LookupTrip(s, trip.tripId) == LookupTrip(t, trip.tripId) == Some(trip)
    && (trip.shapeId.Some? ==> LookupShape(s, trip.shapeId.value) == LookupShape(t, trip.shapeId.value) != None)
    && (forall place <- PlacesOf(trip) :: LookupLocation(s, place) == LookupLocation(t, place))
    && (forall day | day >= since :: LookupRunsOn(s, trip.serviceId, day) == LookupRunsOn(t, trip.serviceId, day))
  }

  lemma PlacesAlike(db: Database, s: Store, t: Store, trip: Trip)
    requires PlacesTrue(db, s.locations) && PlacesTrue(db, t.locations) && TripClosed(db, s, trip, {}) && TripClosed(db, t, trip, {})
    ensures forall place <- PlacesOf(trip) :: LookupLocation(s, place) == LookupLocation(t, place)
  {
    forall place | place in PlacesOf(trip) ensures LookupLocation(s, place) == LookupLocation(t, place) {
      assert place in db.locations ==> place in s.locations && place in t.locations;
    }
  }

  lemma DaysAlike(db: Database, s: Store, t: Store, service: string, since: int)
    requires DatesTrue(db, s.dates, s.loaded) && DatesTrue(db, t.dates, t.loaded) && service in s.dates && service in t.dates
    requires forall day | day >= since :: day in s.loaded <==> day in t.loaded
    ensures forall day | day >= since :: LookupRunsOn(s, service, day) == LookupRunsOn(t, service, day)
  {
    assert s.dates[service] == DatesOf(db, service) * s.loaded;
    assert t.dates[service] == DatesOf(db, service) * t.loaded;
  }

  lemma ShapesAlike(db: Database, s: Store, t: Store, shape: string)
    requires ShapesTrue(db, s.shapes) && ShapesTrue(db, t.shapes) && shape in s.shapes && shape in t.shapes
    ensures LookupShape(s, shape) == LookupShape(t, shape) != None
  {
  }

  lemma HeldAlike(db: Database, s: Store, t: Store, trip: Trip, since: int)
    requires Stored(db) && Inv(db, s) && Inv(db, t)
    requires LookupTrip(s, trip.tripId) == LookupTrip(t, trip.tripId) == Some(trip)
    requires forall day | day >= since :: day in s.loaded <==> day in t.loaded
    ensures TripAlike(s, t, trip, since)
  {
    assert TripClosed(db, s, trip, {}) && TripClosed(db, t, trip, {});
    PlacesAlike(db, s, t, trip);
    DaysAlike(db, s, t, trip.serviceId, since);
    if trip.shapeId.Some? {
      ShapesAlike(db, s, t, trip.shapeId.value);
    }
  }

  lemma HeldThenBatch(db: Database, s: Store, b: Batch, id: TripId)
    requires Stored(db) && Inv(db, s) && id in s.trips
    ensures LookupTrip(Ensure(db, s, b), id) == Some(s.trips[id]) && s.trips[id].tripId == id
  {
    IndexWellLaid(db, s, id);
    EnsureKeeps(db, s, b);
  }

  lemma LoadedThenBatch(db: Database, s: Store, k: Kept, b: Batch)
    requires Stored(db) && Inv(db, s)
    ensures Inv(db, Ensure(db, s, b)) && Inv(db, Ensure(db, Sweep(s, k), b))
    ensures forall day | day >= k.since :: day in Ensure(db, s, b).loaded <==> day in Ensure(db, Sweep(s, k), b).loaded
  {
    SweepInv(db, s, k);
    EnsureInv(db, s, b);
    EnsureInv(db, Sweep(s, k), b);
  }

  /** A live journey's trip, a remembered run trip too, is answered for after the sweep and the batch that
      follows as it would be without the sweep: itself, its shape, its places and its days. */
  lemma LiveTripThenBatch(db: Database, s: Store, k: Kept, b: Batch, state: State, yesterday: int, id: TripId)
    requires Stored(db) && Inv(db, s) && KeepsLive(k, state, yesterday) && LiveTrip(state, id) && id in s.trips
    ensures TripAlike(Ensure(db, s, b), Ensure(db, Sweep(s, k), b), s.trips[id], k.since)
  {
    SweepInv(db, s, k);
    KeptTripAnswers(db, s, k, id);
    HeldThenBatch(db, s, b, id);
    HeldThenBatch(db, Sweep(s, k), b, id);
    LoadedThenBatch(db, s, k, b);
    HeldAlike(db, Ensure(db, s, b), Ensure(db, Sweep(s, k), b), s.trips[id], k.since);
  }

  /** After a sweep a batch wants what it wanted before, and perhaps the lines dropped. */
  lemma WantedMore(db: Database, s: Store, k: Kept, b: Batch)
    ensures Wanted(db, s, b) <= Wanted(db, Sweep(s, k), b)
  {
    var fewer, more := NewLines(s, b.lines), NewLines(Sweep(s, k), b.lines);
    assert fewer <= more;
    assert LineKeys(db, fewer) <= LineKeys(db, more);
    assert Parents(b.refs + fewer) <= Parents(b.refs + more);
  }

  lemma SweepKeepsLiveTrip(db: Database, s: Store, k: Kept, state: State, yesterday: int, id: TripId)
    requires Stored(db) && Inv(db, s) && KeepsLive(k, state, yesterday) && LiveTrip(state, id) && id in s.trips
    ensures LookupTrip(Sweep(s, k), id) == LookupTrip(s, id) != None
    ensures var trip := s.trips[id];
            forall place <- PlacesOf(trip) :: LookupLocation(Sweep(s, k), place) == LookupLocation(s, place)
  {
    KeptTripAnswers(db, s, k, id);
  }

  // ----- the lookup that escapes ---------------------------------------------------------------

  /** Without sweeps, a loaded line's own key is loaded. */
  ghost predicate LinesKeyed(s: Store) {
    forall line <- s.lines :: line in s.keys
  }

  lemma EnsureKeysLines(db: Database, s: Store, b: Batch)
    requires Stored(db) && Inv(db, s) && LinesKeyed(s)
    ensures LinesKeyed(Ensure(db, s, b))
    ensures forall line <- LinesOf(b) :: LookupKeys(Ensure(db, s, b), line) == Some(Entries(db, line))
  {
    EnsureInv(db, s, b);
    var after := Ensure(db, s, b);
    forall line | line in after.lines ensures line in after.keys {
      if line !in s.lines {
        assert line in Wanted(db, s, b);
      }
    }
    NamedLoaded(db, s, b);
  }

  /** A caller can tell from the keys and lines named whether a line's own key stays. */
  ghost predicate LineNamed(refs: set<KeyRef>, line: KeyRef) {
    line in refs || line in Parents(refs)
  }

  ghost predicate HasTripKey(db: Database, line: KeyRef) {
    exists id :: id in Children(db, line) && ':' in id
  }

  lemma LineWanted(db: Database, s: Store, k: Kept, line: KeyRef)
    requires Stored(db) && LinesTrue(db, s.lines) && line in s.lines && line in k.lines
    ensures line in SweepWants(s, k) <==> LineNamed(k.refs, line) || HasTripKey(db, line)
  {
    var lines := KeptLines(s, k);
    var wanted := k.refs + set l, id | l in lines && id in lines[l] :: KeyRef(LINE_TRIP, id);
    assert IsLine(line) && lines[line] == Children(db, line);
    if HasTripKey(db, line) {
      var id :| id in Children(db, line) && ':' in id;
      ChildParent(db, line, id);
      assert KeyRef(LINE_TRIP, id) in wanted;
    }
    if line in SweepWants(s, k) && !LineNamed(k.refs, line) {
      assert line !in wanted;
      var ref :| ref in wanted && ParentRef(ref) == Some(line);
      assert ref !in k.refs;
      var l, id :| l in lines && id in lines[l] && ref == KeyRef(LINE_TRIP, id);
      ChildParent(db, l, id);
    }
  }

  /** A batch's line is asked for under its own key too. After a sweep that key is loaded exactly when
      the line itself was dropped, some trip key of it carries the line, or someone named it: a kept
      line without trip keys loses its key for good, for the line counts as loaded. */
  lemma LineKeyKept(db: Database, s: Store, k: Kept, b: Batch, line: KeyRef)
    requires Stored(db) && Inv(db, s) && line in LinesOf(b) && line in s.keys
    ensures LookupKeys(Ensure(db, Sweep(s, k), b), line).Some? <==>
              || !(line in k.lines && line in s.lines)
              || HasTripKey(db, line)
              || LineNamed(k.refs + b.refs, line)
  {
    var swept := Sweep(s, k);
    LoadedAgain(db, s, k, b, line);
    if line in swept.lines {
      LineWanted(db, s, k, line);
      WantedAgain(db, swept, b, line);
      NamedInEither(k.refs, b.refs, line);
    } else {
      assert line in NewLines(swept, b.lines);
    }
  }

  lemma LoadedAgain(db: Database, s: Store, k: Kept, b: Batch, line: KeyRef)
    requires Stored(db) && Inv(db, s) && line in s.keys
    ensures LookupKeys(Ensure(db, Sweep(s, k), b), line).Some? <==> line in SweepWants(s, k) || line in Wanted(db, Sweep(s, k), b)
  {
    SweepInv(db, s, k);
    EnsureInv(db, Sweep(s, k), b);
  }

  lemma NamedInEither(a: set<KeyRef>, b: set<KeyRef>, line: KeyRef)
    ensures LineNamed(a + b, line) <==> LineNamed(a, line) || LineNamed(b, line)
  {
  }

  /** A loaded line is wanted again only where a key names it. */
  lemma WantedAgain(db: Database, s: Store, b: Batch, line: KeyRef)
    requires IsLine(line) && line in s.lines
    ensures line in Wanted(db, s, b) <==> LineNamed(b.refs, line)
  {
    var added := NewLines(s, b.lines);
    assert forall l <- added :: ParentRef(l).None?;
    assert line in Parents(b.refs + added) <==> line in Parents(b.refs);
  }

  // ----- the miss a caller sees ----------------------------------------------------------------

  datatype LineRead = Miss | Refused(reason: Reason) | TripKeys(ids: set<string>)

  /** How keyless inference reads a line: its key first, then its trip keys. */
  function ReadLine(s: Store, line: KeyRef): LineRead {
    if !IsLine(line) then Refused(NoLine)
    else
      var entries := LookupKeys(s, line);
      if entries.None? then Miss
      else if entries.value == [] then Refused(NoLine)
      else
        var ids := LookupLine(s, line);
        if ids.None? then Miss
        else if ids.value == {} then Refused(NoTrip)
        else TripKeys(ids.value)
  }

  const NIGHT_LINE := KeyRef(LINE, "9")

  /** A line "9" whose key names its route, with no trip key. */
  function BareLine(): Database {
    Database(map[NIGHT_LINE := [KeyEntry("route", 0, 10)]], map[], map[], map[], map[], map[])
  }

  /** Named twice by keyless observations, with a sweep between that keeps the line: the first time
      the line has no trip, the second time it was never loaded. */
  lemma BareLineLost()
    ensures var db := BareLine();
            var b := Batch({}, {1}, {NIGHT_LINE});
            && Stored(db) && AllIdentify(db)
            && var s := Grown(db, [EnsureOp(b)]);
               && ReadLine(s, NIGHT_LINE) == Refused(NoTrip)
               && ReadLine(Ensure(db, s, b), NIGHT_LINE) == Refused(NoTrip)
               && ReadLine(Ensure(db, Sweep(s, Kept({}, {NIGHT_LINE}, {}, 0)), b), NIGHT_LINE) == Miss
  {
    var db := BareLine();
    var b, k := Batch({}, {1}, {NIGHT_LINE}), Kept({}, {NIGHT_LINE}, {}, 0);
    var ops := [EnsureOp(b)];
    var s := Grown(db, ops);
    assert ops[..|ops| - 1] == [];
    assert Grown(db, ops[..|ops| - 1]) == EmptyStore();
    assert ops[|ops| - 1] == EnsureOp(b);
    assert s == Ensure(db, EmptyStore(), b);
    GrownInv(db, []);
    EnsureKeysLines(db, EmptyStore(), b);
    EnsureInv(db, EmptyStore(), b);
    EnsureKeysLines(db, s, b);
    NamedLoaded(db, EmptyStore(), b);
    NamedLoaded(db, s, b);
    SweepInv(db, s, k);
    assert Children(db, NIGHT_LINE) == {};
    assert NIGHT_LINE in LinesOf(b);
    LineKeyKept(db, s, k, b, NIGHT_LINE);
    assert Parents(k.refs + b.refs) == {};
  }
}
