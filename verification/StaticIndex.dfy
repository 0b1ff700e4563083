/** The lazy static index as a cache over one release's database: what the database holds, what the
    index holds of it, and how loading, sweeping and asking for runs change the index. */
module StaticIndex {
  import opened Model
  import opened Runs

  const LINE := "cis:line"
  const LINE_TRIP := "cis:line_trip"

  // ----- keys ----------------------------------------------------------------------------------

  /** The part of a composite identifier before its first colon, or all of it. */
  function Head(identifier: string): string {
    if identifier == [] || identifier[0] == ':' then [] else [identifier[0]] + Head(identifier[1..])
  }

  /** The line a line-and-trip key belongs to. */
  function ParentRef(ref: KeyRef): Option<KeyRef> {
    if ref.namespace == LINE_TRIP && ':' in ref.identifier then Some(KeyRef(LINE, Head(ref.identifier))) else None
  }

  function Parents(refs: set<KeyRef>): set<KeyRef> {
    set ref | ref in refs && ParentRef(ref).Some? :: ParentRef(ref).value
  }

  predicate IsLine(ref: KeyRef) {
    ref.namespace == LINE
  }

  function ChildRefs(identifiers: set<string>): set<KeyRef> {
    set id | id in identifiers :: KeyRef(LINE_TRIP, id)
  }

  // ----- the database --------------------------------------------------------------------------

  datatype Location = Location(name: string, lon: Option<real>, lat: Option<real>)
  type Shape = seq<(real, real)>

  /** One release's static data, as the loader's queries read it. */
  datatype Database = Database(
    keys: map<KeyRef, seq<KeyEntry>>,
    trips: map<string, Trip>,
    runs: map<string, seq<string>>,
    dates: map<string, set<int>>,
    locations: map<string, Location>,
    shapes: map<string, Shape>)

  /** What the schema guarantees: trips are stored under their own IDs with visits counted by the
      loader's window query and no run layout, and the trips of a run are exactly those that carry
      its key. */
  ghost predicate Stored(db: Database) {
    && (forall id <- db.trips ::
          db.trips[id].tripId == Published(id) && db.trips[id].parts == [] && VisitsCount(db.trips[id].calls)
          && (db.trips[id].runKey.Some? ==>
                db.trips[id].runKey.value in db.runs && id in db.runs[db.trips[id].runKey.value]))
    && (forall run <- db.runs, id <- db.runs[run] :: id in db.trips && db.trips[id].runKey == Some(run))
  }

  function Entries(db: Database, ref: KeyRef): seq<KeyEntry> {
    if ref in db.keys then db.keys[ref] else []
  }

  /** The trips a key names; its other public IDs are of routes and locations. */
  function TripsNamed(db: Database, ref: KeyRef): set<string> {
    set e | e in Entries(db, ref) && e.publicId in db.trips :: e.publicId
  }

  function Children(db: Database, line: KeyRef): set<string> {
    set ref | ref in db.keys && ref.namespace == LINE_TRIP && db.keys[ref] != [] && Head(ref.identifier) == line.identifier
      :: ref.identifier
  }

  function DatesOf(db: Database, service: string): set<int> {
    if service in db.dates then db.dates[service] else {}
  }

  function ShapeOf(db: Database, id: string): Shape {
    if id in db.shapes then db.shapes[id] else []
  }

  function PlacesOf(trip: Trip): set<string> {
    (set c | c in trip.calls :: c.location) + (set c | c in trip.calls && c.point.Some? :: c.point.value)
  }

  // ----- the index -----------------------------------------------------------------------------

  datatype Store = Store(
    keys: map<KeyRef, seq<KeyEntry>>,
    trips: map<TripId, Trip>,
    dates: map<string, set<int>>,
    loaded: set<int>,
    locations: map<string, Location>,
    shapes: map<string, Shape>,
    runs: map<string, seq<string>>,
    lines: map<KeyRef, set<string>>)

  function EmptyStore(): Store {
    Store(map[], map[], map[], {}, map[], map[], map[], map[])
  }

  // ----- lookups: None is a lookup of data that was never loaded -------------------------------

  function LookupKeys(s: Store, ref: KeyRef): Option<seq<KeyEntry>> {
    if ref in s.keys then Some(s.keys[ref]) else None
  }

  function LookupTrip(s: Store, id: TripId): Option<Trip> {
    if id in s.trips then Some(s.trips[id]) else None
  }

  function LookupRunsOn(s: Store, service: string, day: int): Option<bool> {
    if day in s.loaded then Some(service in s.dates && day in s.dates[service]) else None
  }

  function LookupLocation(s: Store, id: string): Option<Location> {
    if id in s.locations then Some(s.locations[id]) else None
  }

  function LookupShape(s: Store, id: string): Option<Shape> {
    if id in s.shapes then Some(s.shapes[id]) else None
  }

  function LookupLine(s: Store, line: KeyRef): Option<set<string>> {
    if line in s.lines then Some(s.lines[line]) else None
  }

  // ----- runs ----------------------------------------------------------------------------------

  /** The parts whose service runs. */
  function Among(parts: seq<Trip>, runs: string -> bool): (r: seq<Trip>)
    ensures forall p <- r :: p in parts && runs(p.serviceId)
  {
    if parts == [] then []
    else if runs(parts[0].serviceId) then [parts[0]] + Among(parts[1..], runs)
    else Among(parts[1..], runs)
  }

  function PartNumbers(parts: seq<Trip>): (r: seq<Option<int>>)
    ensures |r| == |parts|
  {
    seq(|parts|, i requires 0 <= i < |parts| => parts[i].runPart)
  }

  predicate Repeats<T(==)>(values: seq<T>) {
    exists i, j :: 0 <= i < j < |values| && values[i] == values[j]
  }

  /** The parts running on a day, or the asking trip alone when none does. */
  function RunningParts(parts: seq<Trip>, trip: Trip, runs: string -> bool): (r: seq<Trip>)
    ensures r != []
  {
    var running := Among(parts, runs);
    if running == [] then [trip] else running
  }

  /** The run trip of the running parts, built afresh; two versions of one part leave it unbuilt. */
  function BuildRun(run: string, trip: Trip, running: seq<Trip>): Trip
    requires running != []
  {
    var numbers := PartNumbers(running);
    if Repeats(numbers) then trip.(tripId := AmbiguousRun(run))
    else RunTripOf(RunOf(run, numbers), run, running)
  }

  predicate PartsLoaded(s: Store, run: string) {
    run in s.runs && forall id <- s.runs[run] :: Published(id) in s.trips
  }

  function LoadedParts(s: Store, run: string): (r: seq<Trip>)
    requires PartsLoaded(s, run)
    ensures |r| == |s.runs[run]|
  {
    seq(|s.runs[run]|, i requires 0 <= i < |s.runs[run]| => s.trips[Published(s.runs[run][i])])
  }

  /** Nothing to lift: a trip of the road, or a run trip already. */
  predicate OwnRun(trip: Trip) {
    trip.runKey.None? || trip.parts != []
  }

  function ServiceRuns(s: Store, day: int): string -> bool {
    service => service in s.dates && day in s.dates[service]
  }

  /** The answer for a run: an unbuilt one as it is, a built one as remembered, or remembered from now. */
  function Answer(s: Store, ambiguous: bool, built: Trip): (Store, Trip) {
    if ambiguous then (s, built)
    else if built.tripId in s.trips then (s, s.trips[built.tripId])
    else (s.(trips := s.trips[built.tripId := built]), built)
  }

  /** The run trip of `trip` on `day`, remembered under its part numbers; None for a miss. */
  function AskRun(s: Store, trip: Trip, day: int): Option<(Store, Trip)> {
    if OwnRun(trip) then Some((s, trip))
    else
      var run := trip.runKey.value;
      if !PartsLoaded(s, run) || (day !in s.loaded && s.runs[run] != []) then None
      else
        var running := RunningParts(LoadedParts(s, run), trip, ServiceRuns(s, day));
        Some(Answer(s, Repeats(PartNumbers(running)), BuildRun(run, trip, running)))
  }

  // ----- loading -------------------------------------------------------------------------------

  function NewTrips(db: Database, ids: set<string>): map<TripId, Trip>
    requires ids <= db.trips.Keys
  {
    var keys := set id | id in ids :: Published(id);
    map k | k in keys :: db.trips[k.id]
  }

  function NewPlaces(db: Database, ids: set<string>): set<string>
    requires ids <= db.trips.Keys
  {
    set id, place | id in ids && place in PlacesOf(db.trips[id]) :: place
  }

  function NewShapes(db: Database, ids: set<string>): set<string>
    requires ids <= db.trips.Keys
  {
    set id | id in ids && db.trips[id].shapeId.Some? :: db.trips[id].shapeId.value
  }

  function NewServices(db: Database, ids: set<string>): set<string>
    requires ids <= db.trips.Keys
  {
    set id | id in ids :: db.trips[id].serviceId
  }

  function NewRuns(db: Database, s: Store, ids: set<string>): set<string>
    requires ids <= db.trips.Keys
  {
    set id | id in ids && db.trips[id].runKey.Some? && db.trips[id].runKey.value !in s.runs :: db.trips[id].runKey.value
  }

  function LocationsFor(db: Database, ids: set<string>): map<string, Location> {
    map l | l in ids && l in db.locations :: db.locations[l]
  }

  function ShapesFor(db: Database, ids: set<string>): map<string, Shape> {
    map l | l in ids :: ShapeOf(db, l)
  }

  function DatesFor(db: Database, services: set<string>, days: set<int>): map<string, set<int>> {
    map v | v in services :: DatesOf(db, v) * days
  }

  /** The trips `ids` with their calls' locations, their shapes and their services' dates. */
  function WithTrips(db: Database, s: Store, ids: set<string>): Store
    requires ids <= db.trips.Keys
  {
    s.(trips := s.trips + NewTrips(db, ids),
       locations := s.locations + LocationsFor(db, NewPlaces(db, ids) - s.locations.Keys),
       shapes := s.shapes + ShapesFor(db, NewShapes(db, ids) - s.shapes.Keys),
       dates := s.dates + DatesFor(db, NewServices(db, ids) - s.dates.Keys, s.loaded))
  }

  function WithRuns(db: Database, s: Store, runs: set<string>): Store
    requires runs <= db.runs.Keys
  {
    s.(runs := s.runs + map r | r in runs :: db.runs[r])
  }

  /** The parts of `runs` not loaded yet. */
  function Siblings(db: Database, s: Store, runs: set<string>): set<string>
    requires runs <= db.runs.Keys
  {
    set r, id | r in runs && id in db.runs[r] && Published(id) !in s.trips :: id
  }

  lemma NewRunsStored(db: Database, s: Store, ids: set<string>)
    requires Stored(db) && ids <= db.trips.Keys
    ensures NewRuns(db, s, ids) <= db.runs.Keys && NewRuns(db, s, ids) !! s.runs.Keys
  {
  }

  lemma SiblingsStored(db: Database, s: Store, runs: set<string>)
    requires Stored(db) && runs <= db.runs.Keys
    ensures Siblings(db, s, runs) <= db.trips.Keys
  {
  }

  lemma FewerLeft<T>(all: set<T>, held: set<T>, more: set<T>)
    requires more <= all && more !! held && more != {}
    ensures |all - (held + more)| < |all - held|
  {
    assert all - held == (all - (held + more)) + more;
    assert (all - (held + more)) !! more;
    assert |more| > 0;
  }

  lemma WithRunsKeys(db: Database, s: Store, runs: set<string>)
    requires runs <= db.runs.Keys
    ensures WithRuns(db, s, runs).runs.Keys == s.runs.Keys + runs
  {
  }

  lemma FewerUnloaded(db: Database, s: Store, runs: set<string>)
    requires runs <= db.runs.Keys && runs !! s.runs.Keys && runs != {}
    ensures |db.runs.Keys - WithRuns(db, s, runs).runs.Keys| < |db.runs.Keys - s.runs.Keys|
  {
    WithRunsKeys(db, s, runs);
    FewerLeft(db.runs.Keys, s.runs.Keys, runs);
  }

  /** Trips and, in turn, every part of the runs they belong to. */
  ghost function LoadTrips(db: Database, s: Store, ids: set<string>): Store
    requires Stored(db) && ids <= db.trips.Keys
    decreases |db.runs.Keys - s.runs.Keys|, 1
  {
    NewRunsStored(db, s, ids);
    var runs := NewRuns(db, s, ids);
    if runs == {} then WithTrips(db, s, ids) else LoadRuns(db, WithTrips(db, s, ids), runs)
  }

  ghost function LoadRuns(db: Database, s: Store, runs: set<string>): Store
    requires Stored(db) && runs <= db.runs.Keys && runs !! s.runs.Keys && runs != {}
    decreases |db.runs.Keys - s.runs.Keys|, 0
  {
    FewerUnloaded(db, s, runs);
    SiblingsStored(db, s, runs);
    var siblings := Siblings(db, s, runs);
    if siblings == {} then WithRuns(db, s, runs) else LoadTrips(db, WithRuns(db, s, runs), siblings)
  }

  function WithKeys(db: Database, s: Store, refs: set<KeyRef>): Store {
    s.(keys := s.keys + map ref | ref in refs :: Entries(db, ref))
  }

  function UnloadedTrips(db: Database, s: Store, refs: set<KeyRef>): set<string> {
    set ref, id | ref in refs && id in TripsNamed(db, ref) && Published(id) !in s.trips :: id
  }

  lemma NamedStored(db: Database, s: Store, refs: set<KeyRef>)
    requires Stored(db)
    ensures UnloadedTrips(db, s, refs) <= db.trips.Keys
  {
  }

  ghost function LoadKeys(db: Database, s: Store, refs: set<KeyRef>): Store
    requires Stored(db)
  {
    NamedStored(db, s, refs);
    var ids := UnloadedTrips(db, s, refs);
    if ids == {} then WithKeys(db, s, refs) else LoadTrips(db, WithKeys(db, s, refs), ids)
  }

  function LoadDates(db: Database, s: Store, days: set<int>): Store {
    s.(dates := map service | service in s.dates :: s.dates[service] + DatesOf(db, service) * days,
       loaded := s.loaded + days)
  }

  datatype Batch = Batch(refs: set<KeyRef>, days: set<int>, lines: set<KeyRef>)

  function NewLines(s: Store, lines: set<KeyRef>): set<KeyRef> {
    set line | line in lines && IsLine(line) && line !in s.lines
  }

  function WithLines(db: Database, s: Store, lines: set<KeyRef>): Store {
    s.(lines := s.lines + map line | line in lines :: Children(db, line))
  }

  function LineKeys(db: Database, lines: set<KeyRef>): set<KeyRef> {
    set line, id | line in lines && id in Children(db, line) :: KeyRef(LINE_TRIP, id)
  }

  /** The keys a batch wants loaded: its own and its new lines', their parents, and the trip keys
      of its new lines. */
  function Wanted(db: Database, s: Store, b: Batch): set<KeyRef> {
    var lines := NewLines(s, b.lines);
    b.refs + lines + Parents(b.refs + lines) + LineKeys(db, lines)
  }

  /** The index with a batch's new lines and its missing keys. */
  ghost function EnsureKeys(db: Database, s: Store, b: Batch): Store
    requires Stored(db)
  {
    var missing := Wanted(db, s, b) - s.keys.Keys;
    var s1 := WithLines(db, s, NewLines(s, b.lines));
    if missing == {} then s1 else LoadKeys(db, s1, missing)
  }

  /** Load what a batch names and the index lacks. */
  ghost function Ensure(db: Database, s: Store, b: Batch): Store
    requires Stored(db)
  {
    var days := b.days - s.loaded;
    if days == {} then EnsureKeys(db, s, b) else LoadDates(db, EnsureKeys(db, s, b), days)
  }

  /** Whether loading a batch makes a query: for new lines, for missing keys, and for new dates of the
      services known. */
  predicate Queries(db: Database, s: Store, b: Batch) {
    || NewLines(s, b.lines) != {}
    || Wanted(db, s, b) - s.keys.Keys != {}
    || (b.days - s.loaded != {} && s.dates != map[])
  }

  /** Whether loading a batch is said to need the database. */
  predicate Needs(s: Store, b: Batch) {
    || (exists line :: line in b.lines && IsLine(line) && line !in s.lines)
    || (b.refs + Parents(b.refs)) - s.keys.Keys != {}
    || !(b.days <= s.loaded)
  }

  // ----- sweeping ------------------------------------------------------------------------------

  datatype Kept = Kept(refs: set<KeyRef>, lines: set<KeyRef>, trips: set<TripId>, since: int)

  function KeptLines(s: Store, k: Kept): map<KeyRef, set<string>> {
    map line | line in k.lines && line in s.lines :: s.lines[line]
  }

  /** The keys a sweep wants kept: those named, the trip keys of the kept lines, and parents. */
  function SweepWants(s: Store, k: Kept): set<KeyRef> {
    var lines := KeptLines(s, k);
    var wanted := k.refs + set line, id | line in lines && id in lines[line] :: KeyRef(LINE_TRIP, id);
    wanted + Parents(wanted)
  }

  function KeptKeys(s: Store, k: Kept): map<KeyRef, seq<KeyEntry>> {
    map ref | ref in SweepWants(s, k) && ref in s.keys :: s.keys[ref]
  }

  function NamedTrips(s: Store, k: Kept): set<TripId> {
    var keys := KeptKeys(s, k);
    var named := (set ref, e | ref in keys && e in keys[ref] :: Published(e.publicId)) + k.trips;
    set id | id in named && id in s.trips
  }

  function KeptRuns(s: Store, k: Kept): map<string, seq<string>> {
    var runs := set id | id in NamedTrips(s, k) && s.trips[id].runKey.Some? :: s.trips[id].runKey.value;
    map run | run in runs && run in s.runs :: s.runs[run]
  }

  function PartIds(runs: map<string, seq<string>>): set<TripId> {
    set run, id | run in runs && id in runs[run] :: Published(id)
  }

  function KeptTrips(s: Store, k: Kept): map<TripId, Trip> {
    var ids := NamedTrips(s, k) + PartIds(KeptRuns(s, k));
    map id | id in ids && id in s.trips :: s.trips[id]
  }

  /** The index with all that no kept key, line or trip leads to dropped. */
  function Sweep(s: Store, k: Kept): Store {
    var trips := KeptTrips(s, k);
    var days := set d | d in s.loaded && d >= k.since;
    var services := set id | id in trips :: trips[id].serviceId;
    var shapes := set id | id in trips && trips[id].shapeId.Some? :: trips[id].shapeId.value;
    var places := set id, place | id in trips && place in PlacesOf(trips[id]) :: place;
    Store(KeptKeys(s, k), trips,
          map service | service in services && service in s.dates :: s.dates[service] * days,
          days,
          map l | l in places && l in s.locations :: s.locations[l],
          map l | l in shapes && l in s.shapes :: s.shapes[l],
          KeptRuns(s, k), KeptLines(s, k))
  }
}
