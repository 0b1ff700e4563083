/** A release's database gives the core a timetable of one trip per journey: whichever part of a run is asked
    for, and whatever the index remembers of other days, a run has one ID on a day. */
module Releases {
  import opened Model
  import opened Runs
  import opened StaticIndex
  import opened IndexInvariant
  import opened RunMemo
  import Core
  import Keyed

  predicate ServiceOn(db: Database, service: string, day: int) {
    day in DatesOf(db, service)
  }

  /** What the run trip answered for a stored trip is called, and which run it says it is. */
  ghost predicate Answers(db: Database, trip: Trip, day: int, answer: Trip)
    requires Stored(db) && (OwnRun(trip) || trip.runKey.value in db.runs)
  {
    if trip.runKey.None? then answer == trip
    else answer.tripId == FreshRun(db, trip, day).tripId && answer.runKey == FreshRun(db, trip, day).runKey
  }

  /** An index that remembers run trips may answer with another day's calls, never with another ID or run. */
  lemma AnswerNamed(db: Database, s: Store, trip: Trip, day: int)
    requires Stored(db) && Inv(db, s) && Asked(s, trip) && day in s.loaded
    ensures OwnRun(trip) || trip.runKey.value in db.runs
    ensures AskRun(s, trip, day).Some? && Answers(db, trip, day, AskRun(s, trip, day).value.1)
  {
    AskedStored(db, s, trip);
    AskRunKeeps(db, s, trip, day);
    if !OwnRun(trip) {
      AskedRunning(db, s, trip, day);
      var running := RunningParts(DbParts(db, trip.runKey.value), trip, DbRuns(db, day));
      AnswerIdentity(db, s, trip.runKey.value, trip, running);
    }
  }

  lemma AnswerIdentity(db: Database, s: Store, run: string, trip: Trip, running: seq<Trip>)
    requires Stored(db) && TripsTrue(db, s.trips) && running != [] && trip.runKey == Some(run)
    ensures var built := BuildRun(run, trip, running);
            var answer := Answer(s, Repeats(PartNumbers(running)), built).1;
            answer.tripId == built.tripId && answer.runKey == built.runKey
  {
    var built := BuildRun(run, trip, running);
    if !Repeats(PartNumbers(running)) && built.tripId in s.trips {
      assert TrueTrip(db, built.tripId, s.trips[built.tripId]);
    }
  }

  lemma {:induction false} AmongSome(parts: seq<Trip>, runs: string -> bool, i: int)
    requires 0 <= i < |parts| && runs(parts[i].serviceId)
    ensures Among(parts, runs) != []
  {
    if i > 0 {
      AmongSome(parts[1..], runs, i - 1);
    }
  }

  /** A part that runs leaves no say to the trip that asks. */
  lemma RunningFound(db: Database, id: string, trip: Trip, day: int)
    requires Stored(db) && id in db.trips && db.trips[id].runKey.Some? && ServiceOn(db, db.trips[id].serviceId, day)
    ensures var run := db.trips[id].runKey.value;
            RunningParts(DbParts(db, run), trip, DbRuns(db, day)) == Among(DbParts(db, run), DbRuns(db, day))
  {
    var run := db.trips[id].runKey.value;
    var i :| 0 <= i < |db.runs[run]| && db.runs[run][i] == id;
    AmongSome(DbParts(db, run), DbRuns(db, day), i);
  }

  /** Two parts of one run that both run on a day are lifted to run trips of one ID, named for the run. */
  lemma FreshAlike(db: Database, a: string, b: string, day: int)
    requires Stored(db) && a in db.trips && b in db.trips && db.trips[a].runKey.Some? && db.trips[a].runKey == db.trips[b].runKey
    requires ServiceOn(db, db.trips[a].serviceId, day) && ServiceOn(db, db.trips[b].serviceId, day)
    ensures FreshRun(db, db.trips[a], day).tripId == FreshRun(db, db.trips[b], day).tripId
    ensures FreshRun(db, db.trips[a], day).runKey == db.trips[a].runKey
  {
    RunningFound(db, a, db.trips[a], day);
    RunningFound(db, b, db.trips[b], day);
  }

  // ----- a release as a timetable --------------------------------------------------------------

  /** The timetable reads the database. An ID that names no trip never runs: its lookup fails. */
  ghost predicate TimetableOf(t: Keyed.Timetable, db: Database)
    requires Stored(db)
  {
    && (forall key :: t.entries(key) == Entries(db, key))
    && (forall service, day :: t.runsOn(service, day) == ServiceOn(db, service, day))
    && (forall id :: if id in db.trips then t.trip(id) == db.trips[id] else forall day :: !Keyed.RunsOn(t, id, day))
    && (forall id, day | id in db.trips :: Answers(db, db.trips[id], day, t.run(db.trips[id], day)))
  }

  /** The keys of runs name their parts. */
  ghost predicate RunKeysNamed(db: Database) {
    forall ref <- db.keys, e | ref.namespace == RUN_NAMESPACE && e in db.keys[ref] ::
      e.publicId in db.trips && db.trips[e.publicId].runKey == Some(ref.identifier)
  }

  /** Every trip is a part of a run, as in a release of trains. */
  ghost predicate RunsOnly(db: Database) {
    forall id <- db.trips :: db.trips[id].runKey.Some?
  }

  /** A release's timetable keeps the laws of runs. */
  lemma ReleaseLaws(t: Keyed.Timetable, db: Database)
    requires Stored(db) && TimetableOf(t, db) && RunKeysNamed(db)
    ensures Keyed.RunsNamed(t) && Keyed.PartsAlike(t) && Keyed.RunKeysOwn(t)
    ensures RunsOnly(db) ==> Keyed.Laws(t)
  {
    forall id, day | Keyed.RunsOn(t, id, day)
      ensures if t.trip(id).runKey.Some? then t.run(t.trip(id), day).runKey == t.trip(id).runKey
              else t.run(t.trip(id), day) == t.trip(id)
    {
      assert id in db.trips && t.trip(id) == db.trips[id] && Answers(db, db.trips[id], day, t.run(db.trips[id], day));
      if t.trip(id).runKey.Some? {
        FreshAlike(db, id, id, day);
      }
    }
    forall a, b, day | Keyed.RunsOn(t, a, day) && Keyed.RunsOn(t, b, day) && t.trip(a).runKey.Some? && t.trip(a).runKey == t.trip(b).runKey
      ensures t.run(t.trip(a), day).tripId == t.run(t.trip(b), day).tripId
    {
      assert a in db.trips && b in db.trips;
      assert Answers(db, db.trips[a], day, t.run(db.trips[a], day)) && Answers(db, db.trips[b], day, t.run(db.trips[b], day));
      FreshAlike(db, a, b, day);
    }
    if RunsOnly(db) {
      forall e, day | Keyed.Running(t, e, day) ensures t.trip(e.publicId).runKey.Some? {
        assert Keyed.RunsOn(t, e.publicId, day);
      }
    }
  }

  /** A core that reads a release of trains is given one trip for every journey. */
  lemma TrainsLawful(ctx: Core.Context, t: Keyed.Timetable, db: Database)
    requires Core.Sound(ctx) && Keyed.Reads(ctx, t) && Stored(db) && TimetableOf(t, db) && RunKeysNamed(db) && RunsOnly(db)
    ensures Keyed.Lawful(ctx)
  {
    ReleaseLaws(t, db);
  }
}
