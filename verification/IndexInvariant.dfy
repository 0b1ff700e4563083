/** The index is always faithful to the database and closed under what a lookup leads to, through
    any sequence of loads, run requests and sweeps. */
module IndexInvariant {
  import opened Model
  import opened Runs
  import opened StaticIndex

  // ----- what a run is, by the database --------------------------------------------------------

  function DbParts(db: Database, run: string): (r: seq<Trip>)
    requires run in db.runs && forall id <- db.runs[run] :: id in db.trips
    ensures |r| == |db.runs[run]|
  {
    seq(|db.runs[run]|, i requires 0 <= i < |db.runs[run]| => db.trips[db.runs[run][i]])
  }

  function DbRuns(db: Database, day: int): string -> bool {
    service => day in DatesOf(db, service)
  }

  /** The run trip a fresh index would build for `trip` on `day`. */
  ghost function FreshRun(db: Database, trip: Trip, day: int): Trip
    requires Stored(db)
    requires OwnRun(trip) || trip.runKey.value in db.runs
  {
    if OwnRun(trip) then trip
    else
      var run := trip.runKey.value;
      BuildRun(run, trip, RunningParts(DbParts(db, run), trip, DbRuns(db, day)))
  }

  /** `trip` is the run trip of ID `id`, as built for the stored trip `name` on `day`. */
  ghost predicate BuiltOn(db: Database, id: TripId, trip: Trip, name: string, day: int)
    requires Stored(db)
  {
    && name in db.trips && db.trips[name].runKey.Some?
    && var running := RunningParts(DbParts(db, db.trips[name].runKey.value), db.trips[name], DbRuns(db, day));
       && !Repeats(PartNumbers(running))
       && id == RunOf(db.trips[name].runKey.value, PartNumbers(running))
       && trip == RunTripOf(id, db.trips[name].runKey.value, running)
  }

  // ----- the invariant -------------------------------------------------------------------------

  ghost predicate TrueTrip(db: Database, id: TripId, trip: Trip)
    requires Stored(db)
  {
    match id
    case Published(name) => name in db.trips && trip == db.trips[name]
    case RunOf(_, _) => exists name, day :: BuiltOn(db, id, trip, name, day)
    case AmbiguousRun(_) => false
  }

  ghost predicate TripsTrue(db: Database, trips: map<TripId, Trip>)
    requires Stored(db)
  {
    forall id <- trips :: TrueTrip(db, id, trips[id])
  }

  ghost predicate KeysTrue(db: Database, keys: map<KeyRef, seq<KeyEntry>>) {
    forall ref <- keys :: keys[ref] == Entries(db, ref)
  }

  ghost predicate DatesTrue(db: Database, dates: map<string, set<int>>, loaded: set<int>) {
    forall service <- dates :: dates[service] == DatesOf(db, service) * loaded
  }

  ghost predicate PlacesTrue(db: Database, locations: map<string, Location>) {
    forall l <- locations :: l in db.locations && locations[l] == db.locations[l]
  }

  ghost predicate ShapesTrue(db: Database, shapes: map<string, Shape>) {
    forall l <- shapes :: shapes[l] == ShapeOf(db, l)
  }

  ghost predicate RunsTrue(db: Database, runs: map<string, seq<string>>) {
    forall run <- runs :: run in db.runs && runs[run] == db.runs[run]
  }

  ghost predicate LinesTrue(db: Database, lines: map<KeyRef, set<string>>) {
    forall line <- lines :: IsLine(line) && lines[line] == Children(db, line)
  }

  /** Whatever the index holds is what the database says. */
  ghost predicate Faithful(db: Database, s: Store)
    requires Stored(db)
  {
    KeysTrue(db, s.keys) && TripsTrue(db, s.trips) && DatesTrue(db, s.dates, s.loaded) && PlacesTrue(db, s.locations)
    && ShapesTrue(db, s.shapes) && RunsTrue(db, s.runs) && LinesTrue(db, s.lines)
  }

  /** What a trip leads to is loaded: its shape, its stored locations, its service and its run. */
  ghost predicate TripClosed(db: Database, s: Store, trip: Trip, open: set<string>) {
    && (trip.shapeId.Some? ==> trip.shapeId.value in s.shapes)
    && (forall place <- PlacesOf(trip) :: place in db.locations ==> place in s.locations)
    && trip.serviceId in s.dates
    && (trip.runKey.Some? ==> trip.runKey.value in s.runs || trip.runKey.value in open)
  }

  ghost predicate TripsClosed(db: Database, s: Store, open: set<string>) {
    forall id <- s.trips :: TripClosed(db, s, s.trips[id], open)
  }

  ghost predicate KeysLead(db: Database, keys: map<KeyRef, seq<KeyEntry>>, trips: map<TripId, Trip>, pending: set<string>) {
    forall ref <- keys, id <- TripsNamed(db, ref) :: Published(id) in trips || id in pending
  }

  ghost predicate RunsLead(runs: map<string, seq<string>>, trips: map<TripId, Trip>, pending: set<string>) {
    forall run <- runs, id <- runs[run] :: Published(id) in trips || id in pending
  }

  /** Closed but for the trips `pending` and the runs `open` still being loaded. */
  ghost predicate ClosedBut(db: Database, s: Store, pending: set<string>, open: set<string>) {
    KeysLead(db, s.keys, s.trips, pending) && TripsClosed(db, s, open) && RunsLead(s.runs, s.trips, pending)
  }

  /** Every loaded key's parent and every loaded line's keys are loaded. */
  ghost predicate KeysClosed(db: Database, s: Store) {
    && (forall ref <- s.keys :: ParentRef(ref).Some? ==> ParentRef(ref).value in s.keys)
    && (forall line <- s.lines, id <- s.lines[line] :: KeyRef(LINE_TRIP, id) in s.keys)
  }

  ghost predicate Inv(db: Database, s: Store)
    requires Stored(db)
  {
    Faithful(db, s) && ClosedBut(db, s, {}, {}) && KeysClosed(db, s)
  }

  // ----- loading trips and runs ----------------------------------------------------------------

  /** Nothing loaded for a trip is dropped: shapes, locations, services and runs. */
  ghost predicate Widens(s: Store, s': Store) {
    && s.shapes.Keys <= s'.shapes.Keys && s.locations.Keys <= s'.locations.Keys
    && s.dates.Keys <= s'.dates.Keys && s.runs.Keys <= s'.runs.Keys
  }

  lemma TripStaysClosed(db: Database, s: Store, s': Store, trip: Trip, open: set<string>, open': set<string>)
    requires TripClosed(db, s, trip, open) && Widens(s, s') && open <= open' + s'.runs.Keys
    ensures TripClosed(db, s', trip, open')
  {
  }

  lemma TripsStayClosed(db: Database, s: Store, s': Store, open: set<string>, open': set<string>)
    requires TripsClosed(db, s, open) && Widens(s, s') && open <= open' + s'.runs.Keys && s'.trips == s.trips
    ensures TripsClosed(db, s', open')
  {
    forall id | id in s'.trips ensures TripClosed(db, s', s'.trips[id], open') {
      TripStaysClosed(db, s, s', s.trips[id], open, open');
    }
  }

  /** The trips of `s` and the stored trips `ids`. */
  lemma AddedTrip(db: Database, s: Store, ids: set<string>, id: TripId)
    requires Stored(db) && ids <= db.trips.Keys && TripsTrue(db, s.trips)
    ensures var trips := WithTrips(db, s, ids).trips;
            && (id in s.trips ==> id in trips && trips[id] == s.trips[id])
            && (id in trips && id !in s.trips ==> id.Published? && id.id in ids && trips[id] == db.trips[id.id])
            && (id.Published? && id.id in ids ==> id in trips)
  {
    if id in s.trips {
      assert TrueTrip(db, id, s.trips[id]);
    }
  }

  /** The trips held are held still. */
  ghost predicate TripsKept(s: Store, s': Store) {
    forall id <- s.trips :: id in s'.trips && s'.trips[id] == s.trips[id]
  }

  lemma WithTripsTrue(db: Database, s: Store, ids: set<string>)
    requires Stored(db) && TripsTrue(db, s.trips) && ids <= db.trips.Keys
    ensures TripsTrue(db, WithTrips(db, s, ids).trips) && TripsKept(s, WithTrips(db, s, ids))
  {
    var after := WithTrips(db, s, ids);
    forall id | id in after.trips ensures TrueTrip(db, id, after.trips[id]) {
      AddedTrip(db, s, ids, id);
      if id in s.trips {
        assert TrueTrip(db, id, s.trips[id]);
      }
    }
    forall id | id in s.trips ensures id in after.trips && after.trips[id] == s.trips[id] {
      AddedTrip(db, s, ids, id);
    }
  }

  lemma WithTripsRest(db: Database, s: Store, ids: set<string>)
    requires DatesTrue(db, s.dates, s.loaded) && PlacesTrue(db, s.locations) && ShapesTrue(db, s.shapes) && ids <= db.trips.Keys
    ensures var after := WithTrips(db, s, ids);
            DatesTrue(db, after.dates, after.loaded) && PlacesTrue(db, after.locations) && ShapesTrue(db, after.shapes)
  {
  }

  lemma WithTripsFaithful(db: Database, s: Store, ids: set<string>)
    requires Stored(db) && Faithful(db, s) && ids <= db.trips.Keys
    ensures Faithful(db, WithTrips(db, s, ids))
  {
    WithTripsTrue(db, s, ids);
    WithTripsRest(db, s, ids);
  }

  lemma NewTripClosed(db: Database, s: Store, ids: set<string>, id: string)
    requires Stored(db) && ids <= db.trips.Keys && id in ids
    ensures TripClosed(db, WithTrips(db, s, ids), db.trips[id], NewRuns(db, s, ids))
  {
    assert db.trips[id].serviceId in NewServices(db, ids);
    forall place | place in PlacesOf(db.trips[id]) && place in db.locations
      ensures place in WithTrips(db, s, ids).locations
    {
      assert place in NewPlaces(db, ids);
    }
  }

  lemma WithTripsClosed(db: Database, s: Store, ids: set<string>)
    requires Stored(db) && Faithful(db, s) && ids <= db.trips.Keys && ClosedBut(db, s, ids, {})
    ensures ClosedBut(db, WithTrips(db, s, ids), {}, NewRuns(db, s, ids))
  {
    var after := WithTrips(db, s, ids);
    forall id | id in after.trips ensures TripClosed(db, after, after.trips[id], NewRuns(db, s, ids)) {
      AddedTrip(db, s, ids, id);
      if id in s.trips {
        TripStaysClosed(db, s, after, s.trips[id], {}, NewRuns(db, s, ids));
      } else {
        NewTripClosed(db, s, ids, id.id);
      }
    }
    forall ref, id | ref in after.keys && id in TripsNamed(db, ref) ensures Published(id) in after.trips {
      AddedTrip(db, s, ids, Published(id));
    }
    forall run, id | run in after.runs && id in after.runs[run] ensures Published(id) in after.trips {
      AddedTrip(db, s, ids, Published(id));
    }
  }

  lemma WithRunsFaithful(db: Database, s: Store, runs: set<string>)
    requires Stored(db) && Faithful(db, s) && runs <= db.runs.Keys
    ensures Faithful(db, WithRuns(db, s, runs))
  {
    assert RunsTrue(db, WithRuns(db, s, runs).runs);
  }

  lemma WithRunsClosed(db: Database, s: Store, runs: set<string>)
    requires Stored(db) && Faithful(db, s) && ClosedBut(db, s, {}, runs) && runs <= db.runs.Keys
    ensures ClosedBut(db, WithRuns(db, s, runs), Siblings(db, s, runs), {})
  {
    var after := WithRuns(db, s, runs);
    TripsStayClosed(db, s, after, runs, {});
    forall run, id | run in after.runs && id in after.runs[run]
      ensures Published(id) in after.trips || id in Siblings(db, s, runs)
    {
    }
  }

  /** What loading leaves as it was. */
  ghost predicate SameKeys(s: Store, s': Store) {
    s'.keys == s.keys && s'.lines == s.lines && s'.loaded == s.loaded
  }

  /** Loading trips, and through them their runs and the runs' other parts, closes the index. */
  lemma {:induction false} LoadTripsInv(db: Database, s: Store, ids: set<string>)
    requires Stored(db) && Faithful(db, s) && ids <= db.trips.Keys && ClosedBut(db, s, ids, {})
    ensures var after := LoadTrips(db, s, ids);
            Faithful(db, after) && ClosedBut(db, after, {}, {}) && SameKeys(s, after) && s.trips.Keys <= after.trips.Keys
    decreases |db.runs.Keys - s.runs.Keys|, 1
  {
    NewRunsStored(db, s, ids);
    WithTripsFaithful(db, s, ids);
    WithTripsClosed(db, s, ids);
    var runs := NewRuns(db, s, ids);
    if runs != {} {
      LoadRunsInv(db, WithTrips(db, s, ids), runs);
    }
  }

  lemma {:induction false} LoadRunsInv(db: Database, s: Store, runs: set<string>)
    requires Stored(db) && Faithful(db, s) && ClosedBut(db, s, {}, runs)
    requires runs <= db.runs.Keys && runs !! s.runs.Keys && runs != {}
    ensures var after := LoadRuns(db, s, runs);
            Faithful(db, after) && ClosedBut(db, after, {}, {}) && SameKeys(s, after) && s.trips.Keys <= after.trips.Keys
    decreases |db.runs.Keys - s.runs.Keys|, 0
  {
    FewerUnloaded(db, s, runs);
    SiblingsStored(db, s, runs);
    WithRunsFaithful(db, s, runs);
    WithRunsClosed(db, s, runs);
    var siblings := Siblings(db, s, runs);
    if siblings != {} {
      LoadTripsInv(db, WithRuns(db, s, runs), siblings);
    }
  }

  /** However far loading leads, run trips remembered and trips loaded before stay as they are. */
  lemma {:induction false} LoadTripsKeeps(db: Database, s: Store, ids: set<string>)
    requires Stored(db) && TripsTrue(db, s.trips) && ids <= db.trips.Keys
    ensures TripsKept(s, LoadTrips(db, s, ids))
    decreases |db.runs.Keys - s.runs.Keys|, 1
  {
    NewRunsStored(db, s, ids);
    WithTripsTrue(db, s, ids);
    var runs := NewRuns(db, s, ids);
    if runs != {} {
      LoadRunsKeeps(db, WithTrips(db, s, ids), runs);
    }
  }

  lemma {:induction false} LoadRunsKeeps(db: Database, s: Store, runs: set<string>)
    requires Stored(db) && TripsTrue(db, s.trips) && runs <= db.runs.Keys && runs !! s.runs.Keys && runs != {}
    ensures TripsKept(s, LoadRuns(db, s, runs))
    decreases |db.runs.Keys - s.runs.Keys|, 0
  {
    FewerUnloaded(db, s, runs);
    SiblingsStored(db, s, runs);
    var siblings := Siblings(db, s, runs);
    if siblings != {} {
      LoadTripsKeeps(db, WithRuns(db, s, runs), siblings);
    }
  }

  // ----- loading keys, lines and dates ---------------------------------------------------------

  lemma WithKeysStep(db: Database, s: Store, refs: set<KeyRef>)
    requires Stored(db) && Faithful(db, s) && ClosedBut(db, s, {}, {})
    ensures var after := WithKeys(db, s, refs);
            Faithful(db, after) && ClosedBut(db, after, UnloadedTrips(db, s, refs), {})
  {
    var after := WithKeys(db, s, refs);
    assert KeysTrue(db, after.keys);
    TripsStayClosed(db, s, after, {}, {});
    forall ref, id | ref in after.keys && id in TripsNamed(db, ref)
      ensures Published(id) in after.trips || id in UnloadedTrips(db, s, refs)
    {
    }
    assert RunsLead(after.runs, after.trips, UnloadedTrips(db, s, refs));
  }

  lemma LoadKeysInv(db: Database, s: Store, refs: set<KeyRef>)
    requires Stored(db) && Faithful(db, s) && ClosedBut(db, s, {}, {})
    ensures var after := LoadKeys(db, s, refs);
            && Faithful(db, after) && ClosedBut(db, after, {}, {})
            && after.keys == WithKeys(db, s, refs).keys && after.lines == s.lines && after.loaded == s.loaded
            && s.trips.Keys <= after.trips.Keys
  {
    NamedStored(db, s, refs);
    WithKeysStep(db, s, refs);
    var ids := UnloadedTrips(db, s, refs);
    if ids != {} {
      LoadTripsInv(db, WithKeys(db, s, refs), ids);
    }
  }

  lemma LoadDatesInv(db: Database, s: Store, days: set<int>)
    requires Stored(db) && Faithful(db, s) && ClosedBut(db, s, {}, {})
    ensures var after := LoadDates(db, s, days); Faithful(db, after) && ClosedBut(db, after, {}, {})
  {
    var after := LoadDates(db, s, days);
    forall service | service in after.dates
      ensures after.dates[service] == DatesOf(db, service) * after.loaded
    {
      assert s.dates[service] == DatesOf(db, service) * s.loaded;
    }
    assert DatesTrue(db, after.dates, after.loaded);
    TripsStayClosed(db, s, after, {}, {});
  }

  lemma WithLinesInv(db: Database, s: Store, lines: set<KeyRef>)
    requires Stored(db) && Faithful(db, s) && ClosedBut(db, s, {}, {})
    requires forall line <- lines :: IsLine(line)
    ensures var after := WithLines(db, s, lines); Faithful(db, after) && ClosedBut(db, after, {}, {})
  {
    var after := WithLines(db, s, lines);
    assert LinesTrue(db, after.lines);
    TripsStayClosed(db, s, after, {}, {});
  }

  /** A line's trip keys with a colon have that line as parent. */
  lemma ChildParent(db: Database, line: KeyRef, id: string)
    requires IsLine(line) && id in Children(db, line)
    ensures ParentRef(KeyRef(LINE_TRIP, id)) == if ':' in id then Some(line) else None
  {
  }

  lemma WithKeysKeys(db: Database, s: Store, refs: set<KeyRef>)
    ensures WithKeys(db, s, refs - s.keys.Keys).keys.Keys == s.keys.Keys + refs
  {
  }

  lemma EnsureKeysInv(db: Database, s: Store, b: Batch)
    requires Stored(db) && Inv(db, s)
    ensures var after := EnsureKeys(db, s, b);
            && Faithful(db, after) && ClosedBut(db, after, {}, {})
            && after.keys.Keys == s.keys.Keys + Wanted(db, s, b)
            && after.lines == WithLines(db, s, NewLines(s, b.lines)).lines
            && after.loaded == s.loaded
            && s.trips.Keys <= after.trips.Keys
  {
    var s1 := WithLines(db, s, NewLines(s, b.lines));
    WithLinesInv(db, s, NewLines(s, b.lines));
    var wanted := Wanted(db, s, b);
    WithKeysKeys(db, s1, wanted);
    LoadKeysInv(db, s1, wanted - s.keys.Keys);
    assert wanted - s.keys.Keys == {} ==> wanted <= s.keys.Keys;
  }

  /** What `Ensure` loads: everything the batch wants, and nothing held is dropped. */
  lemma EnsureInv(db: Database, s: Store, b: Batch)
    requires Stored(db) && Inv(db, s)
    ensures var after := Ensure(db, s, b);
            && Inv(db, after)
            && after.keys.Keys == s.keys.Keys + Wanted(db, s, b)
            && after.loaded == s.loaded + b.days
            && after.lines == WithLines(db, s, NewLines(s, b.lines)).lines
            && s.trips.Keys <= after.trips.Keys
  {
    EnsureKeysInv(db, s, b);
    LoadDatesInv(db, EnsureKeys(db, s, b), b.days - s.loaded);
    WantedClosed(db, s, b, Ensure(db, s, b));
  }

  lemma LoadKeysKeeps(db: Database, s: Store, refs: set<KeyRef>)
    requires Stored(db) && TripsTrue(db, s.trips)
    ensures TripsKept(s, LoadKeys(db, s, refs))
  {
    NamedStored(db, s, refs);
    if UnloadedTrips(db, s, refs) != {} {
      LoadTripsKeeps(db, WithKeys(db, s, refs), UnloadedTrips(db, s, refs));
    }
  }

  lemma EnsureKeysKeeps(db: Database, s: Store, b: Batch)
    requires Stored(db) && TripsTrue(db, s.trips)
    ensures TripsKept(s, EnsureKeys(db, s, b))
  {
    LoadKeysKeeps(db, WithLines(db, s, NewLines(s, b.lines)), Wanted(db, s, b) - s.keys.Keys);
  }

  /** Loading a batch drops no trip. */
  lemma EnsureKeeps(db: Database, s: Store, b: Batch)
    requires Stored(db) && TripsTrue(db, s.trips)
    ensures TripsKept(s, Ensure(db, s, b))
  {
    EnsureKeysKeeps(db, s, b);
  }

  lemma WantedClosed(db: Database, s: Store, b: Batch, after: Store)
    requires Stored(db) && Inv(db, s)
    requires after.keys.Keys == s.keys.Keys + Wanted(db, s, b)
    requires after.lines == WithLines(db, s, NewLines(s, b.lines)).lines
    ensures KeysClosed(db, after)
  {
    var lines := NewLines(s, b.lines);
    forall ref | ref in after.keys && ParentRef(ref).Some? ensures ParentRef(ref).value in after.keys {
      if ref in s.keys {
      } else if ref in LineKeys(db, lines) {
        var line :| line in lines && ref.identifier in Children(db, line);
        ChildParent(db, line, ref.identifier);
      } else {
        assert ParentRef(ref).value in Parents(b.refs + lines);
      }
    }
    forall line, id | line in after.lines && id in after.lines[line] ensures KeyRef(LINE_TRIP, id) in after.keys {
      if line !in s.lines {
        assert KeyRef(LINE_TRIP, id) in LineKeys(db, lines);
      } else if line in lines {
        assert false;
      }
    }
  }

  // ----- sweeping ------------------------------------------------------------------------------

  lemma SweepParentsKept(s: Store, k: Kept, db: Database)
    requires KeysClosed(db, s)
    ensures forall ref <- Sweep(s, k).keys :: ParentRef(ref).Some? ==> ParentRef(ref).value in Sweep(s, k).keys
  {
    var lines := KeptLines(s, k);
    var wanted := k.refs + set line, id | line in lines && id in lines[line] :: KeyRef(LINE_TRIP, id);
    forall ref | ref in Sweep(s, k).keys && ParentRef(ref).Some? ensures ParentRef(ref).value in Sweep(s, k).keys {
      assert ref in wanted;
      assert ParentRef(ref).value in Parents(wanted);
    }
  }

  lemma SweepKeysKept(s: Store, k: Kept, db: Database)
    requires KeysClosed(db, s)
    ensures KeysClosed(db, Sweep(s, k))
  {
    var after := Sweep(s, k);
    SweepParentsKept(s, k, db);
    forall line, id | line in after.lines && id in after.lines[line] ensures KeyRef(LINE_TRIP, id) in after.keys {
      assert KeyRef(LINE_TRIP, id) in SweepWants(s, k);
      assert KeyRef(LINE_TRIP, id) in s.keys;
    }
  }

  /** A kept trip's run is kept. */
  lemma KeptTripRun(db: Database, s: Store, k: Kept, id: TripId)
    requires Stored(db) && TripsTrue(db, s.trips) && RunsTrue(db, s.runs) && TripsClosed(db, s, {})
    requires id in KeptTrips(s, k) && s.trips[id].runKey.Some?
    ensures s.trips[id].runKey.value in KeptRuns(s, k)
  {
    assert TripClosed(db, s, s.trips[id], {});
    if id !in NamedTrips(s, k) {
      var runs := KeptRuns(s, k);
      var run, name :| run in runs && name in runs[run] && id == Published(name);
      assert TrueTrip(db, id, s.trips[id]);
    }
  }

  /** Everything a kept trip leads to is kept. */
  lemma KeptTripClosed(db: Database, s: Store, k: Kept, id: TripId)
    requires Stored(db) && TripsTrue(db, s.trips) && RunsTrue(db, s.runs) && TripsClosed(db, s, {})
    requires id in KeptTrips(s, k)
    ensures TripClosed(db, Sweep(s, k), s.trips[id], {})
  {
    var after, trip := Sweep(s, k), s.trips[id];
    assert TripClosed(db, s, trip, {});
    assert id in after.trips && after.trips[id] == trip;
    if trip.runKey.Some? {
      KeptTripRun(db, s, k, id);
    }
  }

  lemma SweepFaithful(db: Database, s: Store, k: Kept)
    requires Stored(db) && Inv(db, s)
    ensures Faithful(db, Sweep(s, k))
  {
    var after := Sweep(s, k);
    forall id | id in after.trips ensures TrueTrip(db, id, after.trips[id]) {
      assert TrueTrip(db, id, s.trips[id]);
    }
    assert TripsTrue(db, after.trips);
    FewerDatesTrue(db, s.dates, s.loaded, after.dates, after.loaded);
    assert KeysTrue(db, after.keys) && PlacesTrue(db, after.locations) && ShapesTrue(db, after.shapes);
    assert RunsTrue(db, after.runs) && LinesTrue(db, after.lines);
  }

  lemma FewerDatesTrue(db: Database, dates: map<string, set<int>>, loaded: set<int>, fewer: map<string, set<int>>, days: set<int>)
    requires DatesTrue(db, dates, loaded) && days <= loaded
    requires forall service <- fewer :: service in dates && fewer[service] == dates[service] * days
    ensures DatesTrue(db, fewer, days)
  {
    forall service | service in fewer ensures fewer[service] == DatesOf(db, service) * days {
      assert dates[service] == DatesOf(db, service) * loaded;
    }
  }

  lemma KeyTripKept(db: Database, s: Store, k: Kept, ref: KeyRef, id: string)
    requires Stored(db) && Inv(db, s) && ref in KeptKeys(s, k) && id in TripsNamed(db, ref)
    ensures Published(id) in NamedTrips(s, k) && Published(id) in KeptTrips(s, k)
  {
    var e :| e in Entries(db, ref) && e.publicId == id;
    assert e in s.keys[ref];
  }

  lemma RunPartKept(s: Store, k: Kept, run: string, id: string)
    requires RunsLead(s.runs, s.trips, {})
    requires run in KeptRuns(s, k) && id in KeptRuns(s, k)[run]
    ensures Published(id) in KeptTrips(s, k)
  {
    var runs := KeptRuns(s, k);
    assert run in s.runs && runs[run] == s.runs[run];
    assert Published(id) in PartIds(runs);
  }

  /** A sweep keeps the index faithful and closed. */
  lemma SweepInv(db: Database, s: Store, k: Kept)
    requires Stored(db) && Inv(db, s)
    ensures Inv(db, Sweep(s, k))
  {
    SweepFaithful(db, s, k);
    SweepKeysKept(s, k, db);
    var after := Sweep(s, k);
    forall id | id in after.trips ensures TripClosed(db, after, after.trips[id], {}) {
      KeptTripClosed(db, s, k, id);
    }
    assert TripsClosed(db, after, {});
    forall ref, id | ref in after.keys && id in TripsNamed(db, ref) ensures Published(id) in after.trips {
      KeyTripKept(db, s, k, ref, id);
    }
    assert KeysLead(db, after.keys, after.trips, {});
    forall run, id | run in after.runs && id in after.runs[run] ensures Published(id) in after.trips {
      RunPartKept(s, k, run, id);
    }
  }
}
