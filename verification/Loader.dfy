/** The index and its loader as they change in place: loading follows rows, sets and dictionaries one
    at a time, and leaves the index the store that the loading functions describe. */
module Loading {
  import opened Model
  import opened Runs
  import opened StaticIndex
  import opened FeedStates
  import opened SweepTransparent

  lemma SetOfSeq<T>(values: seq<T>)
    ensures |set v | v in values| <= |values|
    ensures |set v | v in values| == |values| <==> !Repeats(values)
  {
    if values != [] {
      var rest, last := values[..|values| - 1], values[|values| - 1];
      SetOfSeq(rest);
      var all, few := set v | v in values, set v | v in rest;
      assert values == rest + [last];
      assert all == few + {last};
      if last in rest {
        assert all == few;
        var i :| 0 <= i < |rest| && rest[i] == last;
        assert values[i] == values[|values| - 1];
      } else {
        assert |all| == |few| + 1;
        if Repeats(values) {
          var i, j :| 0 <= i < j < |values| && values[i] == values[j];
          assert values[i] == rest[i];
          assert rest[i] == rest[j];
        }
      }
      if Repeats(rest) {
        var i, j :| 0 <= i < j < |rest| && rest[i] == rest[j];
        assert values[i] == values[j];
      }
    }
  }

  lemma {:induction false} AmongMore(parts: seq<Trip>, p: Trip, runs: string -> bool)
    ensures Among(parts + [p], runs) == Among(parts, runs) + if runs(p.serviceId) then [p] else []
  {
    if parts == [] {
      assert parts + [p] == [p] && [p][1..] == [];
    } else {
      assert (parts + [p])[1..] == parts[1..] + [p];
      AmongMore(parts[1..], p, runs);
    }
  }

  class Index {
    var keys: map<KeyRef, seq<KeyEntry>>
    var trips: map<TripId, Trip>
    var dates: map<string, set<int>>
    var loaded: set<int>
    var locations: map<string, Location>
    var shapes: map<string, Shape>
    var runs: map<string, seq<string>>
    var lines: map<KeyRef, set<string>>

    function View(): Store
      reads this
    {
      Store(keys, trips, dates, loaded, locations, shapes, runs, lines)
    }

    constructor ()
      ensures View() == EmptyStore()
    {
      keys, trips, dates, loaded := map[], map[], map[], {};
      locations, shapes, runs, lines := map[], map[], map[], map[];
    }

    /** The parts of a loaded run; None for a miss. */
    method PartsOf(run: string) returns (r: Option<seq<Trip>>)
      requires run in runs
      ensures r == if PartsLoaded(View(), run) then Some(LoadedParts(View(), run)) else None
    {
      var parts: seq<Trip> := [];
      for i := 0 to |runs[run]|
        invariant forall k | 0 <= k < i :: Published(runs[run][k]) in trips
        invariant |parts| == i && forall k | 0 <= k < i :: parts[k] == trips[Published(runs[run][k])]
      {
        var part := LookupTrip(View(), Published(runs[run][i]));
        if part.None? {
          assert runs[run][i] in runs[run];
          return None;
        }
        parts := parts + [part.value];
      }
      assert forall id <- runs[run] :: Published(id) in trips;
      assert parts == LoadedParts(View(), run);
      return Some(parts);
    }

    /** The parts among `parts` that run on `day`; None for a miss. */
    method Running(parts: seq<Trip>, day: int) returns (r: Option<seq<Trip>>)
      ensures r == if day !in loaded && parts != [] then None else Some(Among(parts, ServiceRuns(View(), day)))
    {
      var running: seq<Trip> := [];
      for i := 0 to |parts|
        invariant running == Among(parts[..i], ServiceRuns(View(), day))
        invariant i > 0 ==> day in loaded
      {
        var on := LookupRunsOn(View(), parts[i].serviceId, day);
        if on.None? {
          return None;
        }
        AmongMore(parts[..i], parts[i], ServiceRuns(View(), day));
        assert parts[..i + 1] == parts[..i] + [parts[i]];
        if on.value {
          running := running + [parts[i]];
        }
      }
      assert parts[..|parts|] == parts;
      return Some(running);
    }

    /** Lifts a part to its run on a day, remembered from then on. None is a miss and changes nothing. */
    method Run(trip: Trip, day: int) returns (r: Option<Trip>)
      modifies this`trips
      ensures match AskRun(old(View()), trip, day)
              case None => r == None && View() == old(View())
              case Some(asked) => r == Some(asked.1) && View() == asked.0
    {
      if trip.runKey.None? || trip.parts != [] {
        return Some(trip);
      }
      var run := trip.runKey.value;
      if run !in runs {
        return None;
      }
      var parts := PartsOf(run);
      if parts.None? {
        return None;
      }
      var on := Running(parts.value, day);
      if on.None? {
        return None;
      }
      var running := if on.value == [] then [trip] else on.value;
      var numbers := PartNumbers(running);
      SetOfSeq(numbers);
      if |set n | n in numbers| != |numbers| {
        return Some(trip.(tripId := AmbiguousRun(run)));
      }
      var id := RunOf(run, numbers);
      assert BuildRun(run, trip, running).tripId == id;
      if id !in trips {
        var built := RunTrip(id, run, running);
        trips := trips[id := built];
      }
      return Some(trips[id]);
    }

    /** The kept lines and the keys wanted with them. */
    method Wants(refs: set<KeyRef>, lineRefs: set<KeyRef>, ghost k: Kept)
      returns (keptLines: map<KeyRef, set<string>>, wanted: set<KeyRef>)
      requires k.refs == refs && k.lines == lineRefs
      ensures keptLines == KeptLines(View(), k) && wanted == SweepWants(View(), k)
    {
      keptLines := map line | line in lineRefs && line in lines :: lines[line];
      wanted := refs;
      var todo := keptLines.Keys;
      while todo != {}
        invariant todo <= keptLines.Keys
        invariant wanted == refs + set line, id | line in keptLines.Keys - todo && id in keptLines[line] :: KeyRef(LINE_TRIP, id)
      {
        var line :| line in todo;
        wanted := wanted + ChildRefs(keptLines[line]);
        todo := todo - {line};
      }
      assert keptLines.Keys - todo == keptLines.Keys;
      wanted := wanted + Parents(wanted);
    }

    /** The runs and trips the kept keys and the trips `tripIds` need. */
    method TripsFor(keptKeys: map<KeyRef, seq<KeyEntry>>, tripIds: set<TripId>, ghost k: Kept)
      returns (keptTrips: map<TripId, Trip>, keptRuns: map<string, seq<string>>)
      requires keptKeys == KeptKeys(View(), k) && k.trips == tripIds
      ensures keptTrips == KeptTrips(View(), k) && keptRuns == KeptRuns(View(), k)
    {
      var named := set ref, e: KeyEntry | ref in keptKeys && e in keptKeys[ref] :: Published(e.publicId);
      var ids := set id | id in named + tripIds && id in trips;
      assert ids == NamedTrips(View(), k);
      var runKeys := set id | id in ids && trips[id].runKey.Some? :: trips[id].runKey.value;
      keptRuns := map run | run in runKeys && run in runs :: runs[run];
      ids := ids + set id | id in PartIds(keptRuns) && id in trips;
      keptTrips := map id | id in ids :: trips[id];
    }

    /** What the kept trips lead to: their shapes, locations and service dates. */
    method LedTo(keptTrips: map<TripId, Trip>, days: set<int>, ghost k: Kept)
      returns (keptShapes: map<string, Shape>, keptLocations: map<string, Location>, keptDates: map<string, set<int>>)
      requires keptTrips == KeptTrips(View(), k) && days == set d | d in loaded && d >= k.since
      ensures var swept := StaticIndex.Sweep(View(), k);
              keptShapes == swept.shapes && keptLocations == swept.locations && keptDates == swept.dates
    {
      var outlines := set id | id in keptTrips && keptTrips[id].shapeId.Some? :: keptTrips[id].shapeId.value;
      keptShapes := map l | l in outlines && l in shapes :: shapes[l];
      var places := set id, place | id in keptTrips && place in PlacesOf(keptTrips[id]) :: place;
      keptLocations := map l | l in places && l in locations :: locations[l];
      var services := set id | id in keptTrips :: keptTrips[id].serviceId;
      keptDates := map service | service in services && service in dates :: dates[service] * days;
    }

    method Survivors(refs: set<KeyRef>, lineRefs: set<KeyRef>, tripIds: set<TripId>, since: int) returns (s: Store)
      ensures s == StaticIndex.Sweep(View(), Kept(refs, lineRefs, tripIds, since))
    {
      ghost var k := Kept(refs, lineRefs, tripIds, since);
      var keptLines, wanted := Wants(refs, lineRefs, k);
      var keptKeys := map ref | ref in wanted && ref in keys :: keys[ref];
      var keptTrips, keptRuns := TripsFor(keptKeys, tripIds, k);
      var days := set d | d in loaded && d >= since;
      var keptShapes, keptLocations, keptDates := LedTo(keptTrips, days, k);
      s := Store(keptKeys, keptTrips, keptDates, days, keptLocations, keptShapes, keptRuns, keptLines);
    }

    /** Drops, field by field, all that no kept key, line or trip leads to. */
    method Sweep(refs: set<KeyRef>, lineRefs: set<KeyRef>, tripIds: set<TripId>, since: int)
      modifies this
      ensures View() == StaticIndex.Sweep(old(View()), Kept(refs, lineRefs, tripIds, since))
    {
      var s := Survivors(refs, lineRefs, tripIds, since);
      keys, lines, trips, runs := s.keys, s.lines, s.trips, s.runs;
      shapes, locations, dates, loaded := s.shapes, s.locations, s.dates, s.loaded;
    }
  }

  // ----- one row more --------------------------------------------------------------------------

  lemma NewTripsMore(db: Database, done: set<string>, id: string)
    requires done <= db.trips.Keys && id in db.trips
    ensures NewTrips(db, done + {id}) == NewTrips(db, done)[Published(id) := db.trips[id]]
    ensures NewPlaces(db, done + {id}) == NewPlaces(db, done) + PlacesOf(db.trips[id])
  {
  }

  /** The index's trips after the rows of trips, and what those lead to that is not loaded. */
  datatype Heads = Heads(trips: map<TripId, Trip>, outlines: set<string>, services: set<string>, runs: set<string>)

  function HeadsOf(db: Database, s: Store, ids: set<string>): Heads
    requires ids <= db.trips.Keys
  {
    Heads(s.trips + NewTrips(db, ids), NewShapes(db, ids) - s.shapes.Keys, NewServices(db, ids) - s.dates.Keys,
          NewRuns(db, s, ids))
  }

  /** A row more. */
  function HeadMore(h: Heads, id: string, trip: Trip, s: Store): Heads {
    Heads(h.trips[Published(id) := trip],
          h.outlines + (if trip.shapeId.Some? && trip.shapeId.value !in s.shapes then {trip.shapeId.value} else {}),
          h.services + (if trip.serviceId !in s.dates then {trip.serviceId} else {}),
          h.runs + if trip.runKey.Some? && trip.runKey.value !in s.runs then {trip.runKey.value} else {})
  }

  lemma ShapesMore(db: Database, s: Store, done: set<string>, id: string)
    requires done <= db.trips.Keys && id in db.trips
    ensures HeadsOf(db, s, done + {id}).outlines == HeadMore(HeadsOf(db, s, done), id, db.trips[id], s).outlines
  {
  }

  lemma ServicesMore(db: Database, s: Store, done: set<string>, id: string)
    requires done <= db.trips.Keys && id in db.trips
    ensures HeadsOf(db, s, done + {id}).services == HeadMore(HeadsOf(db, s, done), id, db.trips[id], s).services
  {
  }

  lemma RunsMore(db: Database, s: Store, done: set<string>, id: string)
    requires done <= db.trips.Keys && id in db.trips
    ensures HeadsOf(db, s, done + {id}).runs == HeadMore(HeadsOf(db, s, done), id, db.trips[id], s).runs
  {
  }

  lemma TripsMore(db: Database, s: Store, done: set<string>, id: string)
    requires done <= db.trips.Keys && id in db.trips
    ensures HeadsOf(db, s, done + {id}).trips == HeadMore(HeadsOf(db, s, done), id, db.trips[id], s).trips
  {
    NewTripsMore(db, done, id);
  }

  lemma HeadsMore(db: Database, s: Store, done: set<string>, id: string)
    requires done <= db.trips.Keys && id in db.trips
    ensures HeadsOf(db, s, done + {id}) == HeadMore(HeadsOf(db, s, done), id, db.trips[id], s)
  {
    TripsMore(db, s, done, id);
    ShapesMore(db, s, done, id);
    ServicesMore(db, s, done, id);
    RunsMore(db, s, done, id);
  }

  lemma HeadsNone(db: Database, s: Store)
    ensures HeadsOf(db, s, {}) == Heads(s.trips, {}, {}, {})
  {
  }

  lemma WithRunsMore(db: Database, s: Store, done: set<string>, run: string)
    requires done <= db.runs.Keys && run in db.runs
    ensures WithRuns(db, s, done + {run}) == WithRuns(db, s, done).(runs := WithRuns(db, s, done).runs[run := db.runs[run]])
    ensures Siblings(db, s, done + {run}) ==
            Siblings(db, s, done) + set id | id in db.runs[run] && Published(id) !in s.trips
  {
  }

  lemma WithKeysMore(db: Database, s: Store, done: set<KeyRef>, ref: KeyRef)
    ensures WithKeys(db, s, done + {ref}) == WithKeys(db, s, done).(keys := WithKeys(db, s, done).keys[ref := Entries(db, ref)])
  {
    var before, after := map k | k in done :: Entries(db, k), map k | k in done + {ref} :: Entries(db, k);
    MapMore(before, after, ref, Entries(db, ref), s.keys);
  }

  lemma UnloadedMore(db: Database, s: Store, done: set<KeyRef>, ref: KeyRef)
    ensures UnloadedTrips(db, s, done + {ref}) ==
            UnloadedTrips(db, s, done) + set id | id in TripsNamed(db, ref) && Published(id) !in s.trips
  {
  }

  /** The dates of each of `services` among `days`, joined with those it has in `dates`. */
  function DatesJoined(db: Database, dates: map<string, set<int>>, services: set<string>, days: set<int>): map<string, set<int>> {
    map v | v in services :: (if v in dates then dates[v] else {}) + DatesOf(db, v) * days
  }

  lemma DatesMore(db: Database, dates: map<string, set<int>>, done: set<string>, days: set<int>, v: string)
    requires v !in done
    ensures var now := dates + DatesJoined(db, dates, done, days);
            dates + DatesJoined(db, dates, done + {v}, days) ==
              now[v := (if v in now then now[v] else {}) + DatesOf(db, v) * days]
  {
  }

  lemma LinesMore(db: Database, s: Store, done: set<KeyRef>, line: KeyRef)
    ensures WithLines(db, s, done + {line}) == WithLines(db, s, done).(lines := WithLines(db, s, done).lines[line := Children(db, line)])
  {
    var before, after := map l | l in done :: Children(db, l), map l | l in done + {line} :: Children(db, l);
    MapMore(before, after, line, Children(db, line), s.lines);
  }

  lemma MapMore<K, V>(before: map<K, V>, after: map<K, V>, k: K, v: V, held: map<K, V>)
    requires after.Keys == before.Keys + {k} && after[k] == v && forall l <- before :: l != k ==> after[l] == before[l]
    ensures held + after == (held + before)[k := v]
  {
  }

  lemma LineKeysMore(db: Database, done: set<KeyRef>, line: KeyRef)
    ensures LineKeys(db, done + {line}) == LineKeys(db, done) + ChildRefs(Children(db, line))
  {
  }

  /** New services take their loaded dates, or none while no date is loaded. */
  lemma DatesForNew(db: Database, dates: map<string, set<int>>, services: set<string>, loaded: set<int>)
    requires services !! dates.Keys
    ensures var joined := if services != {} && loaded != {} then dates + DatesJoined(db, dates, services, loaded) else dates;
            (map v | v in services :: {}) + joined == dates + DatesFor(db, services, loaded)
  {
    assert forall v <- services :: loaded == {} ==> DatesOf(db, v) * loaded == {};
    forall v | v in services ensures DatesJoined(db, dates, services, loaded)[v] == DatesFor(db, services, loaded)[v] {
      assert v !in dates;
    }
  }

  lemma LinesNone(db: Database, s: Store)
    ensures WithLines(db, s, {}) == s && LineKeys(db, {}) == {}
  {
  }

  lemma KnownDates(db: Database, s: Store, days: set<int>)
    ensures s.dates + DatesJoined(db, s.dates, s.dates.Keys, days) == StaticIndex.LoadDates(db, s, days).dates
  {
  }

  lemma OneMore<T>(all: set<T>, todo: set<T>, x: T)
    requires todo <= all && x in todo
    ensures all - (todo - {x}) == (all - todo) + {x}
  {
  }

  /** Fills an index from one database. `queries` counts queries; `used` and `linesUsed` hold the last time each
      key and line was named. */
  class IndexLoader {
    const db: Database
    const index: Index
    var used: map<KeyRef, int>
    var linesUsed: map<KeyRef, int>
    var queries: nat

    constructor (db: Database)
      ensures this.db == db && fresh(index) && index.View() == EmptyStore()
      ensures used == map[] && linesUsed == map[] && queries == 0
    {
      this.db := db;
      index := new Index();
      used, linesUsed, queries := map[], map[], 0;
    }

    method Touch(refs: set<KeyRef>, lineRefs: set<KeyRef>, at: int)
      modifies this`used, this`linesUsed
      ensures used == old(used) + map ref | ref in refs :: at
      ensures linesUsed == old(linesUsed) + map ref | ref in lineRefs :: at
    {
      var todo := refs;
      while todo != {}
        invariant todo <= refs && used == old(used) + map ref | ref in refs - todo :: at
        modifies this`used
      {
        var ref :| ref in todo;
        used := used[ref := at];
        todo := todo - {ref};
      }
      todo := lineRefs;
      while todo != {}
        invariant todo <= lineRefs && linesUsed == old(linesUsed) + map ref | ref in lineRefs - todo :: at
        modifies this`linesUsed
      {
        var ref :| ref in todo;
        linesUsed := linesUsed[ref := at];
        todo := todo - {ref};
      }
    }

    /** Forget keys and lines not named since `since`, and sweep the index of what nothing then needs. */
    method Sweep(since: int, tripIds: set<TripId>, refs: set<KeyRef>, day: int)
      modifies this`used, this`linesUsed, index
      ensures used == map ref | ref in old(used) && old(used)[ref] >= since :: old(used)[ref]
      ensures linesUsed == map ref | ref in old(linesUsed) && old(linesUsed)[ref] >= since :: old(linesUsed)[ref]
      ensures index.View() ==
              StaticIndex.Sweep(old(index.View()), Kept(used.Keys + refs, linesUsed.Keys, tripIds, day))
    {
      used := map ref | ref in used && used[ref] >= since :: used[ref];
      linesUsed := map ref | ref in linesUsed && linesUsed[ref] >= since :: linesUsed[ref];
      index.Sweep(used.Keys + refs, linesUsed.Keys, tripIds, day);
    }

    // ----- queries, row by row -----------------------------------------------------------------

    method LoadLocations(ids: set<string>)
      modifies this`queries, index`locations
      ensures index.locations == old(index.locations) + LocationsFor(db, ids)
      ensures queries >= old(queries)
    {
      if ids == {} {
        return;
      }
      queries := queries + 1;
      var rows := ids * db.locations.Keys;
      var todo := rows;
      while todo != {}
        invariant todo <= rows
        invariant index.locations == old(index.locations) + LocationsFor(db, rows - todo)
        modifies index`locations
      {
        var l :| l in todo;
        index.locations := index.locations[l := db.locations[l]];
        todo := todo - {l};
      }
    }

    method LoadShapes(ids: set<string>)
      modifies this`queries, index`shapes
      ensures index.shapes == old(index.shapes) + ShapesFor(db, ids)
      ensures queries > old(queries)
    {
      queries := queries + 1;
      var todo := ids;
      while todo != {}
        invariant todo <= ids
        invariant index.shapes == old(index.shapes) + ShapesFor(db, ids - todo)
        modifies index`shapes
      {
        var l :| l in todo;
        index.shapes := index.shapes[l := ShapeOf(db, l)];
        todo := todo - {l};
      }
    }

    /** The dates among `days` of each service, joined with those it has. */
    method LoadDates(services: set<string>, days: set<int>, extend: bool)
      modifies this`queries, index`dates, index`loaded
      ensures index.dates == old(index.dates)
              + DatesJoined(db, old(index.dates), services, days)
      ensures index.loaded == if extend then old(index.loaded) + days else old(index.loaded)
      ensures queries == old(queries) + if services == {} then 0 else 1
    {
      if services != {} {
        queries := queries + 1;
      }
      var todo := services;
      while todo != {}
        invariant todo <= services
        invariant index.dates == old(index.dates)
                  + DatesJoined(db, old(index.dates), services - todo, days)
        modifies index`dates
      {
        var v :| v in todo;
        OneMore(services, todo, v);
        DatesMore(db, old(index.dates), services - todo, days, v);
        index.dates := index.dates[v := (if v in index.dates then index.dates[v] else {}) + DatesOf(db, v) * days];
        todo := todo - {v};
      }
      if extend {
        index.loaded := index.loaded + days;
      }
    }

    /** The rows of trips' calls: where they call. */
    method ReadCalls(ids: set<string>) returns (places: set<string>)
      requires ids <= db.trips.Keys
      ensures places == NewPlaces(db, ids)
    {
      places := {};
      var todo := ids;
      while todo != {}
        invariant todo <= ids && places == NewPlaces(db, ids - todo)
      {
        var id :| id in todo;
        OneMore(ids, todo, id);
        NewTripsMore(db, ids - todo, id);
        places := places + PlacesOf(db.trips[id]);
        todo := todo - {id};
      }
      assert ids - todo == ids;
    }

    /** One trip's row. */
    method ReadTrip(id: string, trip: Trip, heads: Heads, ghost s: Store) returns (more: Heads)
      requires index.View() == s.(trips := heads.trips)
      modifies index`trips
      ensures more == HeadMore(heads, id, trip, s) && index.View() == s.(trips := more.trips)
    {
      var outlines, services, runs := heads.outlines, heads.services, heads.runs;
      index.trips := index.trips[Published(id) := trip];
      if trip.runKey.Some? && trip.runKey.value !in index.runs {
        runs := runs + {trip.runKey.value};
      }
      if trip.shapeId.Some? && trip.shapeId.value !in index.shapes {
        outlines := outlines + {trip.shapeId.value};
      }
      if trip.serviceId !in index.dates {
        services := services + {trip.serviceId};
      }
      more := Heads(index.trips, outlines, services, runs);
    }

    /** The rows of trips: the trips themselves, and the shapes, services and runs they lead to that
        are not loaded. */
    method ReadTrips(ids: set<string>, ghost s: Store) returns (heads: Heads)
      requires ids <= db.trips.Keys && s == index.View()
      modifies index`trips
      ensures heads == HeadsOf(db, s, ids) && index.View() == s.(trips := heads.trips)
    {
      heads := Heads(index.trips, {}, {}, {});
      var todo := ids;
      ghost var done: set<string> := {};
      HeadsNone(db, s);
      while todo != {}
        invariant done <= ids && todo == ids - done && done <= db.trips.Keys
        invariant heads == HeadsOf(db, s, done) && index.View() == s.(trips := heads.trips)
        modifies index`trips
      {
        var id :| id in todo;
        HeadsMore(db, s, done, id);
        heads := ReadTrip(id, db.trips[id], heads, s);
        todo, done := todo - {id}, done + {id};
      }
      assert done == ids;
    }

    /** Trips with what they lead to, but for their runs. */
    method LoadLed(ids: set<string>, ghost s: Store) returns (runs: set<string>)
      requires ids <= db.trips.Keys && s == index.View()
      modifies this`queries, index
      ensures index.View() == WithTrips(db, s, ids)
      ensures runs == NewRuns(db, s, ids)
      ensures queries > old(queries)
    {
      queries := queries + 2;
      var places := ReadCalls(ids);
      var heads := ReadTrips(ids, s);
      LoadLocations(places - index.locations.Keys);
      LoadShapesAndDates(heads);
      runs := heads.runs;
    }

    /** The shapes and service dates that rows of trips lead to. */
    method LoadShapesAndDates(heads: Heads)
      requires heads.outlines !! index.shapes.Keys && heads.services !! index.dates.Keys
      modifies this`queries, index`shapes, index`dates, index`loaded
      ensures index.loaded == old(index.loaded)
      ensures index.shapes == old(index.shapes) + ShapesFor(db, heads.outlines)
      ensures index.dates == old(index.dates) + DatesFor(db, heads.services, index.loaded)
      ensures queries >= old(queries)
    {
      if heads.outlines != {} {
        LoadShapes(heads.outlines);
      }
      DatesForNew(db, index.dates, heads.services, index.loaded);
      if heads.services != {} && index.loaded != {} {
        LoadDates(heads.services, index.loaded, false);
      }
      index.dates := (map v | v in heads.services :: {}) + index.dates;
    }

    /** Trips and, in turn, every part of the runs they belong to. */
    method LoadTrips(ids: set<string>)
      requires Stored(db) && ids <= db.trips.Keys
      modifies this`queries, index
      ensures index.View() == StaticIndex.LoadTrips(db, old(index.View()), ids)
      ensures queries > old(queries)
      decreases |db.runs.Keys - index.runs.Keys|, 1
    {
      NewRunsStored(db, index.View(), ids);
      var runs := LoadLed(ids, index.View());
      if runs != {} {
        LoadRuns(runs);
      }
    }

    /** The rows of runs: the parts of each, and those of them not loaded. */
    method ReadRuns(runs: set<string>, ghost s: Store) returns (siblings: set<string>)
      requires runs <= db.runs.Keys && s == index.View()
      modifies index`runs
      ensures index.View() == WithRuns(db, s, runs) && siblings == Siblings(db, s, runs)
    {
      siblings := {};
      var todo := runs;
      while todo != {}
        invariant todo <= runs
        invariant index.View() == WithRuns(db, s, runs - todo)
        invariant siblings == Siblings(db, s, runs - todo)
        modifies index`runs
      {
        var run :| run in todo;
        OneMore(runs, todo, run);
        WithRunsMore(db, s, runs - todo, run);
        index.runs := index.runs[run := db.runs[run]];
        siblings := siblings + set id | id in db.runs[run] && Published(id) !in index.trips;
        todo := todo - {run};
      }
      assert runs - todo == runs;
    }

    /** Records the parts of runs, then loads the parts that are missing. */
    method LoadRuns(runs: set<string>)
      requires Stored(db) && runs <= db.runs.Keys && runs !! index.runs.Keys && runs != {}
      modifies this`queries, index
      ensures index.View() == StaticIndex.LoadRuns(db, old(index.View()), runs)
      ensures queries > old(queries)
      decreases |db.runs.Keys - index.runs.Keys|, 0
    {
      FewerUnloaded(db, index.View(), runs);
      SiblingsStored(db, index.View(), runs);
      queries := queries + 1;
      var siblings := ReadRuns(runs, index.View());
      if siblings != {} {
        LoadTrips(siblings);
      }
    }

    /** Keys with their entries, and the trips they name that are not loaded. */
    method LoadKeys(refs: set<KeyRef>)
      requires Stored(db)
      modifies this`queries, index
      ensures index.View() == StaticIndex.LoadKeys(db, old(index.View()), refs)
      ensures queries > old(queries)
    {
      NamedStored(db, index.View(), refs);
      queries := queries + 1;
      var ids: set<string> := {};
      var todo := refs;
      while todo != {}
        invariant todo <= refs
        invariant index.View() == WithKeys(db, old(index.View()), refs - todo)
        invariant ids == UnloadedTrips(db, old(index.View()), refs - todo)
        modifies index`keys
      {
        var ref :| ref in todo;
        OneMore(refs, todo, ref);
        WithKeysMore(db, old(index.View()), refs - todo, ref);
        UnloadedMore(db, old(index.View()), refs - todo, ref);
        index.keys := index.keys[ref := Entries(db, ref)];
        ids := ids + set id | id in TripsNamed(db, ref) && Published(id) !in index.trips;
        todo := todo - {ref};
      }
      assert refs - todo == refs;
      if ids != {} {
        LoadTrips(ids);
      }
    }

    /** Records which trip keys a line has, and returns them. */
    method LoadLines(lineRefs: set<KeyRef>) returns (refs: set<KeyRef>)
      modifies this`queries, index`lines
      ensures index.View() == WithLines(db, old(index.View()), lineRefs)
      ensures refs == LineKeys(db, lineRefs)
      ensures queries > old(queries)
    {
      queries := queries + 1;
      refs := {};
      var todo := lineRefs;
      while todo != {}
        invariant todo <= lineRefs
        invariant index.View() == WithLines(db, old(index.View()), lineRefs - todo)
        invariant refs == LineKeys(db, lineRefs - todo)
        modifies index`lines
      {
        var line :| line in todo;
        OneMore(lineRefs, todo, line);
        LinesMore(db, old(index.View()), lineRefs - todo, line);
        LineKeysMore(db, lineRefs - todo, line);
        index.lines := index.lines[line := Children(db, line)];
        refs := refs + ChildRefs(Children(db, line));
        todo := todo - {line};
      }
      assert lineRefs - todo == lineRefs;
    }

    /** The keys a batch wants loaded; its new lines are loaded on the way. */
    method LoadWanted(refs: set<KeyRef>, lineRefs: set<KeyRef>, ghost b: Batch) returns (wanted: set<KeyRef>)
      requires b.refs == refs && b.lines == lineRefs
      modifies this`queries, index`lines
      ensures index.View() == WithLines(db, old(index.View()), NewLines(old(index.View()), lineRefs))
      ensures wanted == Wanted(db, old(index.View()), b)
      ensures queries >= old(queries) && (queries > old(queries) <==> NewLines(old(index.View()), lineRefs) != {})
    {
      ghost var s := index.View();
      var newLines := set line | line in lineRefs && line.namespace == LINE && line !in index.lines;
      assert newLines == NewLines(s, lineRefs);
      wanted := refs + newLines;
      wanted := wanted + Parents(wanted);
      LinesNone(db, s);
      if newLines != {} {
        var children := LoadLines(newLines);
        wanted := wanted + children;
      }
    }

    method LoadMissing(refs: set<KeyRef>, lineRefs: set<KeyRef>, ghost b: Batch)
      requires Stored(db) && b.refs == refs && b.lines == lineRefs
      modifies this`queries, index
      ensures index.View() == EnsureKeys(db, old(index.View()), b)
      ensures queries >= old(queries)
      ensures queries > old(queries) <==> NewLines(old(index.View()), lineRefs) != {} || Wanted(db, old(index.View()), b) - old(index.keys).Keys != {}
    {
      var wanted := LoadWanted(refs, lineRefs, b);
      var missing := wanted - index.keys.Keys;
      if missing != {} {
        LoadKeys(missing);
      }
    }

    /** Load what a batch names and the index lacks. */
    method Ensure(refs: set<KeyRef>, days: set<int>, lineRefs: set<KeyRef>)
      requires Stored(db)
      modifies this`queries, index
      ensures index.View() == StaticIndex.Ensure(db, old(index.View()), Batch(refs, days, lineRefs))
      ensures queries >= old(queries)
      ensures queries > old(queries) <==> Queries(db, old(index.View()), Batch(refs, days, lineRefs))
    {
      ghost var b, s := Batch(refs, days, lineRefs), index.View();
      var newDays := days - index.loaded;
      LoadMissing(refs, lineRefs, b);
      if NewLines(s, lineRefs) == {} && Wanted(db, s, b) - s.keys.Keys == {} {
        LinesNone(db, s);
        assert index.dates == s.dates;
      }
      if newDays != {} {
        KnownDates(db, index.View(), newDays);
        LoadDates(index.dates.Keys, newDays, true);
      }
    }

    /** Says in advance whether `Ensure` will ask the database; `SweepTransparent.NeedsExact` says when that is so. */
    method Needs(refs: set<KeyRef>, days: set<int>, lineRefs: set<KeyRef>) returns (r: bool)
      ensures r == StaticIndex.Needs(index.View(), Batch(refs, days, lineRefs))
    {
      if exists line :: line in lineRefs && line.namespace == LINE && line !in index.lines {
        return true;
      }
      var all := refs + Parents(refs);
      return (set ref | ref in all && ref !in index.keys) != {} || !(days <= index.loaded);
    }
  }

  method EarliestDay(journeys: set<JourneyKey>, yesterday: int) returns (day: int)
    ensures day <= yesterday && (day == yesterday || exists j :: j in journeys && j.day == day)
    ensures forall j <- journeys :: day <= j.day
  {
    day := yesterday;
    var todo := journeys;
    while todo != {}
      invariant todo <= journeys && day <= yesterday && (day == yesterday || exists j :: j in journeys && j.day == day)
      invariant forall j <- journeys - todo :: day <= j.day
    {
      var j :| j in todo;
      day := if j.day < day then j.day else day;
      todo := todo - {j};
    }
  }

  /** What the live journeys of a feed need: their keys, their trips and the days from the earliest of
      them, or yesterday, on. */
  method LiveNeeds(state: FeedState, yesterday: int) returns (refs: set<KeyRef>, tripIds: set<TripId>, day: int)
    ensures KeepsLive(Kept(refs, {}, tripIds, day), state.View(), yesterday)
  {
    var bindings := set v | v in state.vehicles && state.vehicles[v].binding.Some? :: state.vehicles[v].binding.value;
    var journeys := state.instances.Keys + set b | b in bindings :: b.journey;
    tripIds := (set j | j in state.instances :: state.instances[j].tripId) + set b | b in bindings :: b.tripId;
    day := EarliestDay(journeys, yesterday);
    refs := set j | j in journeys :: KeyRef(j.namespace, j.key);
    forall v | v in state.vehicles ensures KeepsBinding(refs, tripIds, day, state.vehicles[v]) {
      if state.vehicles[v].binding.Some? {
        assert state.vehicles[v].binding.value in bindings;
      }
    }
  }

  lemma KeepsMore(k: Kept, more: Kept, state: State, yesterday: int)
    requires KeepsLive(k, state, yesterday) && k.refs <= more.refs && k.trips == more.trips && k.since == more.since
    ensures KeepsLive(more, state, yesterday)
  {
    forall v | v in state.vehicles ensures KeepsBinding(more.refs, more.trips, more.since, state.vehicles[v]) {
      assert KeepsBinding(k.refs, k.trips, k.since, state.vehicles[v]);
    }
  }

  /** Sweep a feed's index of what no key named since `since` and no live journey needs. */
  method SweepRuntime(loader: IndexLoader, state: FeedState, since: int, yesterday: int) returns (ghost k: Kept)
    modifies loader`used, loader`linesUsed, loader.index
    ensures loader.index.View() == StaticIndex.Sweep(old(loader.index.View()), k)
    ensures KeepsLive(k, state.View(), yesterday)
    ensures forall ref <- old(loader.used) :: old(loader.used)[ref] >= since ==> ref in k.refs
    ensures forall line :: line in k.lines <==> line in old(loader.linesUsed) && old(loader.linesUsed)[line] >= since
  {
    var refs, tripIds, day := LiveNeeds(state, yesterday);
    loader.Sweep(since, tripIds, refs, day);
    k := Kept(loader.used.Keys + refs, loader.linesUsed.Keys, tripIds, day);
    KeepsMore(Kept(refs, {}, tripIds, day), k, state.View(), yesterday);
  }
}
