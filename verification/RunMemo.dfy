/** The index remembers run trips under their part numbers: exactly when that is what a fresh index
    would build, and that remembering keeps the index's invariant. */
module RunMemo {
  import opened Model
  import opened Runs
  import opened StaticIndex
  import opened IndexInvariant

  // ----- the same parts run --------------------------------------------------------------------

  lemma {:induction false} AmongSame(parts: seq<Trip>, f: string -> bool, g: string -> bool)
    requires forall p <- parts :: f(p.serviceId) == g(p.serviceId)
    ensures Among(parts, f) == Among(parts, g)
  {
    if parts != [] {
      assert forall p <- parts[1..] :: p in parts;
      AmongSame(parts[1..], f, g);
    }
  }

  lemma LoadedPartsStored(db: Database, s: Store, run: string)
    requires Stored(db) && RunsTrue(db, s.runs) && TripsTrue(db, s.trips) && PartsLoaded(s, run)
    ensures LoadedParts(s, run) == DbParts(db, run)
  {
    forall i | 0 <= i < |s.runs[run]| ensures LoadedParts(s, run)[i] == DbParts(db, run)[i] {
      assert s.runs[run][i] in s.runs[run];
      assert TrueTrip(db, Published(s.runs[run][i]), s.trips[Published(s.runs[run][i])]);
    }
  }

  /** On a loaded day the index finds the parts running that the database does. */
  lemma SameRunning(db: Database, s: Store, trip: Trip, run: string, day: int)
    requires Stored(db) && Inv(db, s) && run in s.runs && day in s.loaded
    ensures PartsLoaded(s, run)
    ensures RunningParts(LoadedParts(s, run), trip, ServiceRuns(s, day))
         == RunningParts(DbParts(db, run), trip, DbRuns(db, day))
  {
    assert forall id <- s.runs[run] :: Published(id) in s.trips;
    LoadedPartsStored(db, s, run);
    var parts := DbParts(db, run);
    forall p | p in parts ensures ServiceRuns(s, day)(p.serviceId) == DbRuns(db, day)(p.serviceId) {
      var i :| 0 <= i < |parts| && parts[i] == p;
      var id := s.runs[run][i];
      assert id in s.runs[run];
      assert TrueTrip(db, Published(id), s.trips[Published(id)]) && TripClosed(db, s, s.trips[Published(id)], {});
      assert s.dates[p.serviceId] == DatesOf(db, p.serviceId) * s.loaded;
    }
    AmongSame(parts, ServiceRuns(s, day), DbRuns(db, day));
  }

  // ----- where a run trip calls ----------------------------------------------------------------

  ghost predicate PlacedIn(calls: seq<Call>, places: set<string>) {
    forall c <- calls :: c.location in places && (c.point.Some? ==> c.point.value in places)
  }

  lemma {:induction false} LayAllPlaced(calls: seq<Call>, more: seq<Call>, places: set<string>)
    requires PlacedIn(calls, places) && PlacedIn(more, places)
    ensures PlacedIn(LayAll(calls, more), places)
  {
    if more != [] {
      LayAllPlaced(calls, more[..|more| - 1], places);
      assert more[|more| - 1] in more;
    }
  }

  lemma {:induction false} LayPartsPlaced(parts: seq<Trip>, places: set<string>)
    requires forall p <- parts :: PlacedIn(p.calls, places)
    ensures PlacedIn(LayParts(parts).calls, places)
  {
    if parts != [] {
      LayPartsPlaced(parts[..|parts| - 1], places);
      assert parts[|parts| - 1] in parts;
      LayAllPlaced(LayParts(parts[..|parts| - 1]).calls, parts[|parts| - 1].calls, places);
    }
  }

  /** A run trip calls only where its parts do. */
  lemma RunPlaced(id: TripId, run: string, parts: seq<Trip>, places: set<string>)
    requires parts != [] && forall p <- parts :: PlacesOf(p) <= places
    ensures PlacesOf(RunTripOf(id, run, parts)) <= places
  {
    forall p | p in parts ensures PlacedIn(p.calls, places) {
      forall c | c in p.calls ensures c.location in places && (c.point.Some? ==> c.point.value in places) {
        assert c.location in PlacesOf(p) && (c.point.Some? ==> c.point.value in PlacesOf(p));
      }
    }
    LayPartsPlaced(parts, places);
    var laid := LayParts(parts).calls;
    forall c | c in Numbered(laid) ensures c.location in places && (c.point.Some? ==> c.point.value in places) {
      var i :| 0 <= i < |laid| && Numbered(laid)[i] == c;
      assert laid[i] in laid;
    }
  }

  // ----- asking for a run ----------------------------------------------------------------------

  /** A trip as the core asks about it: loaded under its published ID. */
  ghost predicate Asked(s: Store, trip: Trip) {
    trip.tripId.Published? && trip.tripId in s.trips && s.trips[trip.tripId] == trip
  }

  lemma AskedStored(db: Database, s: Store, trip: Trip)
    requires Stored(db) && Inv(db, s) && Asked(s, trip)
    ensures trip.tripId.id in db.trips && db.trips[trip.tripId.id] == trip
    ensures trip.runKey.Some? ==> trip.runKey.value in s.runs && trip.runKey.value in db.runs
  {
    assert TrueTrip(db, trip.tripId, trip) && TripClosed(db, s, trip, {});
  }

  lemma PartLoaded(db: Database, s: Store, run: string, i: int)
    requires Stored(db) && Inv(db, s) && run in s.runs && run in db.runs && 0 <= i < |db.runs[run]|
    ensures TripClosed(db, s, db.trips[db.runs[run][i]], {}) && db.trips[db.runs[run][i]].runKey == Some(run)
  {
    var id := db.runs[run][i];
    assert s.runs[run] == db.runs[run] && id in s.runs[run];
    assert RunsLead(s.runs, s.trips, {});
    assert TrueTrip(db, Published(id), s.trips[Published(id)]) && TripClosed(db, s, s.trips[Published(id)], {});
  }

  lemma RunningLoaded(db: Database, s: Store, trip: Trip, day: int)
    requires Stored(db) && Inv(db, s) && Asked(s, trip) && !OwnRun(trip) && day in s.loaded
    ensures trip.runKey.value in db.runs
    ensures forall p <- RunningParts(DbParts(db, trip.runKey.value), trip, DbRuns(db, day)) ::
              TripClosed(db, s, p, {}) && p.runKey == trip.runKey
  {
    AskedStored(db, s, trip);
    PartsClosed(db, s, trip.runKey.value);
    assert TripClosed(db, s, trip, {});
  }

  lemma PartsClosed(db: Database, s: Store, run: string)
    requires Stored(db) && Inv(db, s) && run in s.runs && run in db.runs
    ensures forall p <- DbParts(db, run) :: TripClosed(db, s, p, {}) && p.runKey == Some(run)
  {
    var parts := DbParts(db, run);
    forall p | p in parts ensures TripClosed(db, s, p, {}) && p.runKey == Some(run) {
      var i :| 0 <= i < |parts| && parts[i] == p;
      PartLoaded(db, s, run, i);
    }
  }

  lemma AskRunKeeps(db: Database, s: Store, trip: Trip, day: int)
    requires Stored(db) && Inv(db, s) && Asked(s, trip) && day in s.loaded
    ensures AskRun(s, trip, day).Some?
    ensures var after := AskRun(s, trip, day).value.0;
            s.trips.Keys <= after.trips.Keys && after == s.(trips := after.trips)
  {
    if !OwnRun(trip) {
      AskedStored(db, s, trip);
      AskedRunning(db, s, trip, day);
      var running := RunningParts(DbParts(db, trip.runKey.value), trip, DbRuns(db, day));
      AnswerKeeps(s, Repeats(PartNumbers(running)), BuildRun(trip.runKey.value, trip, running));
    }
  }

  lemma AnswerKeeps(s: Store, ambiguous: bool, built: Trip)
    ensures var after := Answer(s, ambiguous, built).0;
            s.trips.Keys <= after.trips.Keys && after == s.(trips := after.trips)
  {
  }

  /** Asking for a run of a loaded trip on a loaded day always answers, and keeps the index
      faithful and closed. */
  lemma AskRunInv(db: Database, s: Store, trip: Trip, day: int)
    requires Stored(db) && Inv(db, s) && Asked(s, trip) && day in s.loaded
    ensures AskRun(s, trip, day).Some? && Inv(db, AskRun(s, trip, day).value.0)
    ensures var after := AskRun(s, trip, day).value.0;
            s.trips.Keys <= after.trips.Keys && after == s.(trips := after.trips)
  {
    AskRunKeeps(db, s, trip, day);
    if !OwnRun(trip) {
      AskedStored(db, s, trip);
      AskedRunning(db, s, trip, day);
      var running := RunningParts(DbParts(db, trip.runKey.value), trip, DbRuns(db, day));
      var built := BuildRun(trip.runKey.value, trip, running);
      if !Repeats(PartNumbers(running)) && built.tripId !in s.trips {
        BuiltTrue(db, s, trip, day);
        RememberInv(db, s, built);
      }
    }
  }

  /** What the index answers for a run, in the database's terms. */
  lemma AskedRunning(db: Database, s: Store, trip: Trip, day: int)
    requires Stored(db) && Inv(db, s) && trip.runKey.Some? && trip.runKey.value in s.runs && day in s.loaded && !OwnRun(trip)
    ensures trip.runKey.value in db.runs
    ensures var running := RunningParts(DbParts(db, trip.runKey.value), trip, DbRuns(db, day));
            AskRun(s, trip, day) ==
              Some(Answer(s, Repeats(PartNumbers(running)), BuildRun(trip.runKey.value, trip, running)))
  {
    SameRunning(db, s, trip, trip.runKey.value, day);
  }

  lemma BuiltTrue(db: Database, s: Store, trip: Trip, day: int)
    requires Stored(db) && Inv(db, s) && Asked(s, trip) && !OwnRun(trip) && day in s.loaded
    requires trip.runKey.value in db.runs
    requires !Repeats(PartNumbers(RunningParts(DbParts(db, trip.runKey.value), trip, DbRuns(db, day))))
    ensures var built := BuildRun(trip.runKey.value, trip, RunningParts(DbParts(db, trip.runKey.value), trip, DbRuns(db, day)));
            built.tripId.RunOf? && TrueTrip(db, built.tripId, built) && TripClosed(db, s, built, {})
  {
    AskedStored(db, s, trip);
    assert db.trips[trip.tripId.id] == trip;
    BuiltStored(db, trip.tripId.id, day);
    var running := RunningParts(DbParts(db, trip.runKey.value), trip, DbRuns(db, day));
    RunningClosed(db, s, trip, day, RunOf(trip.runKey.value, PartNumbers(running)));
  }

  lemma RunningClosed(db: Database, s: Store, trip: Trip, day: int, id: TripId)
    requires Stored(db) && Inv(db, s) && Asked(s, trip) && !OwnRun(trip) && day in s.loaded
    requires trip.runKey.value in db.runs
    ensures TripClosed(db, s, RunTripOf(id, trip.runKey.value, RunningParts(DbParts(db, trip.runKey.value), trip, DbRuns(db, day))), {})
  {
    RunningLoaded(db, s, trip, day);
    BuiltClosed(db, s, id, trip.runKey.value, RunningParts(DbParts(db, trip.runKey.value), trip, DbRuns(db, day)));
  }

  /** A run trip built of parts of different numbers is what the database says its ID stands for. */
  lemma BuiltStored(db: Database, name: string, day: int)
    requires Stored(db) && name in db.trips && db.trips[name].runKey.Some?
    requires !Repeats(PartNumbers(RunningParts(DbParts(db, db.trips[name].runKey.value), db.trips[name], DbRuns(db, day))))
    ensures var run := db.trips[name].runKey.value;
            var built := BuildRun(run, db.trips[name], RunningParts(DbParts(db, run), db.trips[name], DbRuns(db, day)));
            built.tripId.RunOf? && TrueTrip(db, built.tripId, built)
  {
    var run := db.trips[name].runKey.value;
    var built := BuildRun(run, db.trips[name], RunningParts(DbParts(db, run), db.trips[name], DbRuns(db, day)));
    assert BuiltOn(db, built.tripId, built, name, day);
  }

  lemma BuiltClosed(db: Database, s: Store, id: TripId, run: string, running: seq<Trip>)
    requires running != [] && forall p <- running :: TripClosed(db, s, p, {}) && p.runKey == Some(run)
    ensures TripClosed(db, s, RunTripOf(id, run, running), {})
  {
    assert running[0] in running;
    RunPlacesLoaded(db, s, id, run, running);
  }

  lemma RunPlacesLoaded(db: Database, s: Store, id: TripId, run: string, running: seq<Trip>)
    requires running != [] && forall p <- running :: TripClosed(db, s, p, {})
    ensures forall place <- PlacesOf(RunTripOf(id, run, running)) :: place in db.locations ==> place in s.locations
  {
    var missing := set p, place | p in running && place in PlacesOf(p) && place !in db.locations :: place;
    forall p | p in running ensures PlacesOf(p) <= missing + s.locations.Keys {
      assert TripClosed(db, s, p, {});
    }
    RunPlaced(id, run, running, missing + s.locations.Keys);
  }

  lemma RememberTrue(db: Database, s: Store, built: Trip)
    requires Stored(db) && TripsTrue(db, s.trips) && TrueTrip(db, built.tripId, built)
    ensures TripsTrue(db, s.trips[built.tripId := built])
  {
  }

  lemma RememberClosed(db: Database, s: Store, built: Trip)
    requires TripsClosed(db, s, {}) && TripClosed(db, s, built, {})
    ensures TripsClosed(db, s.(trips := s.trips[built.tripId := built]), {})
  {
    var after := s.(trips := s.trips[built.tripId := built]);
    forall id | id in after.trips ensures TripClosed(db, after, after.trips[id], {}) {
      TripStaysClosed(db, s, after, after.trips[id], {}, {});
    }
  }

  lemma RememberInv(db: Database, s: Store, built: Trip)
    requires Stored(db) && Inv(db, s) && TrueTrip(db, built.tripId, built) && TripClosed(db, s, built, {})
    ensures Inv(db, s.(trips := s.trips[built.tripId := built]))
  {
    var after := s.(trips := s.trips[built.tripId := built]);
    RememberTrue(db, s, built);
    RememberClosed(db, s, built);
    assert KeysLead(db, after.keys, after.trips, {}) && RunsLead(after.runs, after.trips, {});
  }

  // ----- when remembering is right -------------------------------------------------------------

  /** What runs of the run of part `name` on a day. */
  ghost function RunningOn(db: Database, run: string, name: string, day: int): (r: seq<Trip>)
    requires Stored(db) && run in db.runs && name in db.runs[run]
    ensures r != []
  {
    RunningParts(DbParts(db, run), db.trips[name], DbRuns(db, day))
  }

  /** Two parts and days whose running parts carry the same numbers, none twice. */
  ghost predicate SameNumbers(db: Database, run: string, a: string, day: int, b: string, day': int)
    requires Stored(db) && run in db.runs && a in db.runs[run] && b in db.runs[run]
  {
    PartNumbers(RunningOn(db, run, a, day)) == PartNumbers(RunningOn(db, run, b, day'))
    && !Repeats(PartNumbers(RunningOn(db, run, a, day)))
  }

  /** Two requests for a run that find equal part numbers build equal run trips: part numbers
      identify what runs. A property of the stored parts and their dates alone. */
  ghost predicate NumbersIdentify(db: Database, run: string)
    requires Stored(db) && run in db.runs
  {
    forall a <- db.runs[run], b <- db.runs[run], day, day' | SameNumbers(db, run, a, day, b, day') ::
      BuildRun(run, db.trips[a], RunningOn(db, run, a, day)) == BuildRun(run, db.trips[b], RunningOn(db, run, b, day'))
  }

  /** A run trip already remembered under the ID to be built is the one to be built. */
  lemma RememberedIsBuilt(db: Database, s: Store, trip: Trip, day: int, built: Trip)
    requires Stored(db) && TripsTrue(db, s.trips) && trip.tripId.Published? && trip.tripId.id in db.trips
    requires db.trips[trip.tripId.id] == trip && !OwnRun(trip) && trip.runKey.value in db.runs
    requires NumbersIdentify(db, trip.runKey.value)
    requires var running := RunningParts(DbParts(db, trip.runKey.value), trip, DbRuns(db, day));
             !Repeats(PartNumbers(running)) && built == BuildRun(trip.runKey.value, trip, running)
    requires built.tripId in s.trips
    ensures s.trips[built.tripId] == built
  {
    var run := trip.runKey.value;
    assert TrueTrip(db, built.tripId, s.trips[built.tripId]);
    var name, day' :| BuiltOn(db, built.tripId, s.trips[built.tripId], name, day');
    assert db.trips[name].runKey == Some(run);
    assert name in db.runs[run] && trip.tripId.id in db.runs[run];
    assert SameNumbers(db, run, name, day', trip.tripId.id, day);
  }

  /** While part numbers identify what runs, the index answers as a fresh one would, whatever it
      remembers from other days. */
  lemma MemoRefines(db: Database, s: Store, trip: Trip, day: int)
    requires Stored(db) && Inv(db, s) && Asked(s, trip) && day in s.loaded
    requires trip.runKey.Some? ==> trip.runKey.value in db.runs && NumbersIdentify(db, trip.runKey.value)
    ensures AskRun(s, trip, day).Some? && AskRun(s, trip, day).value.1 == FreshRun(db, trip, day)
  {
    if !OwnRun(trip) {
      AskedStored(db, s, trip);
      AskedRunning(db, s, trip, day);
      AnswerFresh(db, s, trip, day);
    }
  }

  /** While part numbers identify what runs, what is remembered is what would be built. */
  lemma AnswerFresh(db: Database, s: Store, trip: Trip, day: int)
    requires Stored(db) && TripsTrue(db, s.trips) && trip.tripId.Published? && trip.tripId.id in db.trips
    requires db.trips[trip.tripId.id] == trip && !OwnRun(trip) && trip.runKey.value in db.runs
    requires NumbersIdentify(db, trip.runKey.value)
    ensures var running := RunningParts(DbParts(db, trip.runKey.value), trip, DbRuns(db, day));
            var built := BuildRun(trip.runKey.value, trip, running);
            Answer(s, Repeats(PartNumbers(running)), built).1 == built
  {
    var running := RunningParts(DbParts(db, trip.runKey.value), trip, DbRuns(db, day));
    var built := BuildRun(trip.runKey.value, trip, running);
    if !Repeats(PartNumbers(running)) && built.tripId in s.trips {
      RememberedIsBuilt(db, s, trip, day, built);
    }
    AnswerIs(s, Repeats(PartNumbers(running)), built);
  }

  lemma AnswerIs(s: Store, ambiguous: bool, built: Trip)
    requires !ambiguous && built.tripId in s.trips ==> s.trips[built.tripId] == built
    ensures Answer(s, ambiguous, built).1 == built
  {
  }

  lemma PartAsked(db: Database, s: Store, run: string, name: string)
    requires Stored(db) && Inv(db, s) && run in db.runs && name in db.runs[run] && Published(name) in s.trips
    ensures name in db.trips && !OwnRun(db.trips[name]) && db.trips[name].runKey == Some(run) && run in s.runs
    ensures Asked(s, db.trips[name])
  {
    assert TrueTrip(db, Published(name), s.trips[Published(name)]);
    AskedStored(db, s, db.trips[name]);
  }

  /** Where they do not, asking twice mixes two days up: the second request is answered with the
      first one's run trip. */
  lemma MemoMixes(db: Database, s: Store, run: string, a: string, day: int, b: string, day': int)
    requires Stored(db) && Inv(db, s) && run in db.runs && a in db.runs[run] && b in db.runs[run]
    requires Published(a) in s.trips && Published(b) in s.trips && day in s.loaded && day' in s.loaded
    requires SameNumbers(db, run, a, day, b, day') && RunOf(run, PartNumbers(RunningOn(db, run, a, day))) !in s.trips
    ensures AskRun(s, db.trips[a], day).Some?
    ensures var once := AskRun(s, db.trips[a], day).value.0;
            && AskRun(once, db.trips[b], day').Some?
            && AskRun(once, db.trips[b], day').value.1 == FreshRun(db, db.trips[a], day)
            && (AskRun(once, db.trips[b], day').value.1 == FreshRun(db, db.trips[b], day') <==>
                  FreshRun(db, db.trips[a], day) == FreshRun(db, db.trips[b], day'))
  {
    PartAsked(db, s, run, a);
    AskRunInv(db, s, db.trips[a], day);
    AskedRunning(db, s, db.trips[a], day);
    var once := AskRun(s, db.trips[a], day).value.0;
    PartAsked(db, once, run, b);
    AskedRunning(db, once, db.trips[b], day');
  }

  // ----- when part numbers identify ------------------------------------------------------------

  /** No two parts of the run share a number. */
  ghost predicate NumbersUnique(db: Database, run: string)
    requires Stored(db) && run in db.runs
  {
    !Repeats(PartNumbers(DbParts(db, run)))
  }

  /** Parts running in order, told by their numbers. */
  lemma {:induction false} AmongByNumbers(parts: seq<Trip>, f: string -> bool, g: string -> bool)
    requires !Repeats(PartNumbers(parts))
    requires PartNumbers(Among(parts, f)) == PartNumbers(Among(parts, g))
    ensures Among(parts, f) == Among(parts, g)
  {
    if parts != [] {
      var rest := parts[1..];
      assert !Repeats(PartNumbers(rest)) by {
        assert PartNumbers(rest) == PartNumbers(parts)[1..];
      }
      var fa, ga := Among(parts, f), Among(parts, g);
      var fr, gr := Among(rest, f), Among(rest, g);
      if f(parts[0].serviceId) && g(parts[0].serviceId) {
        assert PartNumbers(fr) == PartNumbers(fa)[1..] && PartNumbers(gr) == PartNumbers(ga)[1..];
        AmongByNumbers(rest, f, g);
      } else if f(parts[0].serviceId) || g(parts[0].serviceId) {
        NumbersDiffer(parts, f, g);
      } else {
        AmongByNumbers(rest, f, g);
      }
    }
  }

  /** Parts of unique numbers that differ in the first are told apart by their numbers. */
  lemma NumbersDiffer(parts: seq<Trip>, f: string -> bool, g: string -> bool)
    requires parts != [] && !Repeats(PartNumbers(parts)) && f(parts[0].serviceId) != g(parts[0].serviceId)
    ensures PartNumbers(Among(parts, f)) != PartNumbers(Among(parts, g))
  {
    var fa, ga := Among(parts, f), Among(parts, g);
    FirstNotAmong(parts, f);
    FirstNotAmong(parts, g);
    if fa != [] && ga != [] {
      assert fa[0] in fa && ga[0] in ga;
      assert PartNumbers(fa)[0] == fa[0].runPart && PartNumbers(ga)[0] == ga[0].runPart;
    } else {
      assert |PartNumbers(fa)| != |PartNumbers(ga)|;
    }
  }

  lemma FirstNotAmong(parts: seq<Trip>, g: string -> bool)
    requires parts != [] && !Repeats(PartNumbers(parts))
    ensures forall p <- Among(parts[1..], g) :: p.runPart != parts[0].runPart
  {
    forall p | p in Among(parts[1..], g) ensures p.runPart != parts[0].runPart {
      var i :| 0 <= i < |parts[1..]| && parts[1..][i] == p;
      assert PartNumbers(parts)[i + 1] == p.runPart && PartNumbers(parts)[0] == parts[0].runPart;
    }
  }

  lemma SameNumberSamePart(parts: seq<Trip>, a: Trip, b: Trip)
    requires !Repeats(PartNumbers(parts)) && a in parts && b in parts && a.runPart == b.runPart
    ensures a == b
  {
    var i :| 0 <= i < |parts| && parts[i] == a;
    var j :| 0 <= j < |parts| && parts[j] == b;
    assert PartNumbers(parts)[i] == PartNumbers(parts)[j];
  }

  /** Whatever runs, or the asking part alone, is told by its numbers while they are unique. */
  lemma RunningByNumbers(parts: seq<Trip>, a: Trip, b: Trip, f: string -> bool, g: string -> bool)
    requires !Repeats(PartNumbers(parts)) && a in parts && b in parts
    requires PartNumbers(RunningParts(parts, a, f)) == PartNumbers(RunningParts(parts, b, g))
    ensures RunningParts(parts, a, f) == RunningParts(parts, b, g)
  {
    var fa, ga := Among(parts, f), Among(parts, g);
    var ra, rb := RunningParts(parts, a, f), RunningParts(parts, b, g);
    if fa != [] && ga != [] {
      AmongByNumbers(parts, f, g);
    } else {
      assert |ra| == |rb| == 1;
      assert PartNumbers(ra)[0] == PartNumbers(rb)[0];
      assert ra[0] in parts && rb[0] in parts;
      SameNumberSamePart(parts, ra[0], rb[0]);
    }
  }

  /** Unique part numbers identify what runs. */
  lemma UniqueNumbersIdentify(db: Database, run: string)
    requires Stored(db) && run in db.runs && NumbersUnique(db, run)
    ensures NumbersIdentify(db, run)
  {
    forall a, b, day, day' | a in db.runs[run] && b in db.runs[run] && SameNumbers(db, run, a, day, b, day')
      ensures BuildRun(run, db.trips[a], RunningOn(db, run, a, day)) == BuildRun(run, db.trips[b], RunningOn(db, run, b, day'))
    {
      PartStored(db, run, a);
      PartStored(db, run, b);
      RunningByNumbers(DbParts(db, run), db.trips[a], db.trips[b], DbRuns(db, day), DbRuns(db, day'));
      BuiltFromRunning(run, db.trips[a], db.trips[b], RunningOn(db, run, a, day));
    }
  }

  lemma PartStored(db: Database, run: string, name: string)
    requires Stored(db) && run in db.runs && name in db.runs[run]
    ensures db.trips[name] in DbParts(db, run)
  {
    var i :| 0 <= i < |db.runs[run]| && db.runs[run][i] == name;
    assert DbParts(db, run)[i] == db.trips[name];
  }

  /** A run built from parts of unique numbers does not depend on the part asking. */
  lemma BuiltFromRunning(run: string, a: Trip, b: Trip, running: seq<Trip>)
    requires running != [] && !Repeats(PartNumbers(running))
    ensures BuildRun(run, a, running) == BuildRun(run, b, running)
  {
  }

  // ----- two versions of one part --------------------------------------------------------------

  /** A part of run "K" numbered 1, without calls, under a service and a headsign of its own. */
  function Version(id: string, service: string, headsign: string): Trip {
    Trip(Published(id), "r", "R", "train", service, Some(headsign), None, [], Some("K"), Some(1), None, [], None)
  }

  /** Versions "a" and "b" of the part, running on days 1 and 2. */
  function TwoVersions(): Database {
    Database(map[], map["a" := Version("a", "sa", "x"), "b" := Version("b", "sb", "y")], map["K" := ["a", "b"]],
             map["sa" := {1}, "sb" := {2}], map[], map[])
  }

  function TwoVersionsLoaded(): Store {
    Store(map[], map[Published("a") := Version("a", "sa", "x"), Published("b") := Version("b", "sb", "y")],
          map["sa" := {1}, "sb" := {2}], {1, 2}, map[], map[], map["K" := ["a", "b"]], map[])
  }

  lemma TwoVersionsInv()
    ensures Stored(TwoVersions()) && Inv(TwoVersions(), TwoVersionsLoaded())
  {
    TwoVersionsStored();
    TwoVersionsFaithful();
    var db, s := TwoVersions(), TwoVersionsLoaded();
    assert TripsClosed(db, s, {}) && RunsLead(s.runs, s.trips, {});
  }

  lemma TwoVersionsStored()
    ensures Stored(TwoVersions())
  {
    assert ["a", "b"][0] == "a" && ["a", "b"][1] == "b";
    assert "a" in ["a", "b"] && "b" in ["a", "b"];
  }

  lemma TwoVersionsFaithful()
    requires Stored(TwoVersions())
    ensures Faithful(TwoVersions(), TwoVersionsLoaded())
  {
    var db, s := TwoVersions(), TwoVersionsLoaded();
    assert DatesOf(db, "sa") * s.loaded == {1} && DatesOf(db, "sb") * s.loaded == {2};
    assert TripsTrue(db, s.trips) && RunsTrue(db, s.runs);
  }

  lemma TwoVersionsRunning()
    ensures RunningParts(DbParts(TwoVersions(), "K"), Version("a", "sa", "x"), DbRuns(TwoVersions(), 1))
         == [Version("a", "sa", "x")]
    ensures RunningParts(DbParts(TwoVersions(), "K"), Version("b", "sb", "y"), DbRuns(TwoVersions(), 2))
         == [Version("b", "sb", "y")]
  {
    var db := TwoVersions();
    var a, b := Version("a", "sa", "x"), Version("b", "sb", "y");
    assert "sa"[1] != "sb"[1];
    assert DbParts(db, "K") == [a, b] && [a, b][1..] == [b] && [b][1..] == [];
    assert Among([b], DbRuns(db, 1)) == [] && Among([b], DbRuns(db, 2)) == [b];
  }

  /** The second day's request is answered with the first day's trip, headsign and all. */
  lemma TwoVersionsMixed()
    ensures var a, b := Version("a", "sa", "x"), Version("b", "sb", "y");
            var first := AskRun(TwoVersionsLoaded(), a, 1);
            && first.Some? && first.value.1.headsign == Some("x")
            && var second := AskRun(first.value.0, b, 2);
               && second.Some? && second.value.1.headsign == Some("x")
               && Stored(TwoVersions()) && FreshRun(TwoVersions(), b, 2).headsign == Some("y")
  {
    var db, s := TwoVersions(), TwoVersionsLoaded();
    var a, b := Version("a", "sa", "x"), Version("b", "sb", "y");
    TwoVersionsInv();
    TwoVersionsRunning();
    MemoRefinesFirst(db, s, a, 1);
    assert "a" in ["a", "b"] && "b" in ["a", "b"];
    MemoMixes(db, s, "K", "a", 1, "b", 2);
  }

  lemma MemoRefinesFirst(db: Database, s: Store, trip: Trip, day: int)
    requires Stored(db) && Inv(db, s) && Asked(s, trip) && day in s.loaded && !OwnRun(trip)
    requires trip.runKey.value in db.runs
    requires var running := RunningParts(DbParts(db, trip.runKey.value), trip, DbRuns(db, day));
             RunOf(trip.runKey.value, PartNumbers(running)) !in s.trips
    ensures AskRun(s, trip, day).Some? && AskRun(s, trip, day).value.1 == FreshRun(db, trip, day)
  {
    AskedStored(db, s, trip);
    AskedRunning(db, s, trip, day);
  }
}
