/** The run memo over every history of the index: it always answers as a fresh index would exactly if part
    numbers identify what runs. */
module MemoHistories {
  import opened Model
  import opened Runs
  import opened StaticIndex
  import opened IndexInvariant
  import opened RunMemo
  import opened SweepTransparent

  /** The run of part `name` on `day`, if both are loaded, is answered as built afresh. */
  ghost predicate RightIn(db: Database, s: Store, name: string, day: int)
    requires Stored(db) && name in db.trips
    requires OwnRun(db.trips[name]) || db.trips[name].runKey.value in db.runs
  {
    Published(name) in s.trips && day in s.loaded ==>
      var asked := AskRun(s, db.trips[name], day);
      asked.Some? && asked.value.1 == FreshRun(db, db.trips[name], day)
  }

  /** So it is after this history. */
  ghost predicate AsksRight(db: Database, ops: seq<IndexOp>, name: string, day: int)
    requires Stored(db) && name in db.trips
    requires OwnRun(db.trips[name]) || db.trips[name].runKey.value in db.runs
  {
    RightIn(db, Grown(db, ops), name, day)
  }

  /** Some key leads to a part of the run, so that it can be loaded at all. */
  ghost predicate Reached(db: Database, run: string)
    requires run in db.runs
  {
    exists ref, id :: id in TripsNamed(db, ref) && id in db.runs[run]
  }

  lemma RunPart(db: Database, run: string, name: string)
    requires Stored(db) && run in db.runs && name in db.runs[run]
    ensures name in db.trips && db.trips[name].runKey == Some(run) && !OwnRun(db.trips[name])
    ensures db.trips[name].tripId == Published(name)
  {
  }

  lemma WholeRunLoaded(db: Database, s: Store, run: string, id: string)
    requires Stored(db) && Inv(db, s) && run in db.runs && id in db.runs[run] && Published(id) in s.trips
    ensures forall part <- db.runs[run] :: Published(part) in s.trips
  {
    PartAsked(db, s, run, id);
    PartsHeld(s.runs, s.trips, run);
  }

  lemma PartsHeld(runs: map<string, seq<string>>, trips: map<TripId, Trip>, run: string)
    requires RunsLead(runs, trips, {}) && run in runs
    ensures forall part <- runs[run] :: Published(part) in trips
  {
  }

  /** A history that loads the whole run and the days. */
  lemma RunLoads(db: Database, run: string, days: set<int>) returns (ops: seq<IndexOp>)
    requires Stored(db) && run in db.runs && Reached(db, run)
    ensures var s := Grown(db, ops); Inv(db, s) && days <= s.loaded && forall id <- db.runs[run] :: Published(id) in s.trips
  {
    var ref, id :| id in TripsNamed(db, ref) && id in db.runs[run];
    var b := Batch({ref}, days, {});
    ops := [EnsureOp(b)];
    assert ops[..|ops| - 1] == [];
    GrownInv(db, []);
    LoadsKey(db, b, ref, id);
    WholeRunLoaded(db, Grown(db, ops), run, id);
  }

  lemma LoadsKey(db: Database, b: Batch, ref: KeyRef, id: string)
    requires Stored(db) && Inv(db, EmptyStore()) && ref in b.refs && id in TripsNamed(db, ref)
    ensures var s := Ensure(db, EmptyStore(), b); Inv(db, s) && b.days <= s.loaded && Published(id) in s.trips
  {
    EnsureInv(db, EmptyStore(), b);
    KeyLeads(db, Ensure(db, EmptyStore(), b), ref, id);
  }

  lemma KeyLeads(db: Database, s: Store, ref: KeyRef, id: string)
    requires KeysLead(db, s.keys, s.trips, {}) && ref in s.keys && id in TripsNamed(db, ref)
    ensures Published(id) in s.trips
  {
  }

  /** What is built under one ID is answered alike from the first time on. */
  lemma AnswerAgain(s: Store, first: Trip, second: Trip)
    requires second.tripId == first.tripId
    ensures var once := Answer(s, false, first);
            && Answer(once.0, false, second).1 == once.1
            && s.trips.Keys <= once.0.trips.Keys && once.0.loaded == s.loaded
  {
  }

  lemma AnswerOf(db: Database, s: Store, run: string, name: string, day: int)
    requires Stored(db) && Inv(db, s) && run in db.runs && name in db.runs[run]
    requires Published(name) in s.trips && day in s.loaded
    requires !Repeats(PartNumbers(RunningOn(db, run, name, day)))
    ensures var running := RunningOn(db, run, name, day);
            && AskRun(s, db.trips[name], day) == Some(Answer(s, false, BuildRun(run, db.trips[name], running)))
            && BuildRun(run, db.trips[name], running).tripId == RunOf(run, PartNumbers(running))
  {
    PartAsked(db, s, run, name);
    AskedRunning(db, s, db.trips[name], day);
  }

  /** Two requests whose numbers agree get one answer, the second after the first. */
  lemma SecondAnswer(db: Database, s: Store, run: string, a: string, day: int, b: string, day': int)
    requires Stored(db) && Inv(db, s) && run in db.runs && a in db.runs[run] && b in db.runs[run]
    requires Published(a) in s.trips && Published(b) in s.trips && day in s.loaded && day' in s.loaded
    requires SameNumbers(db, run, a, day, b, day')
    ensures AskRun(s, db.trips[a], day).Some?
    ensures var once := AskRun(s, db.trips[a], day).value;
            && Published(b) in once.0.trips && day' in once.0.loaded
            && AskRun(once.0, db.trips[b], day').Some? && AskRun(once.0, db.trips[b], day').value.1 == once.1
  {
    PartAsked(db, s, run, a);
    AskRunInv(db, s, db.trips[a], day);
    AnswerOf(db, s, run, a, day);
    var first := BuildRun(run, db.trips[a], RunningOn(db, run, a, day));
    var second := BuildRun(run, db.trips[b], RunningOn(db, run, b, day'));
    AnswerOf(db, Answer(s, false, first).0, run, b, day');
    AnswerAgain(s, first, second);
  }

  /** A history that goes on by asking for a loaded part. */
  lemma AskedMore(db: Database, ops: seq<IndexOp>, name: string, day: int)
    requires Stored(db) && name in db.trips && Published(name) in Grown(db, ops).trips
    requires AskRun(Grown(db, ops), db.trips[name], day).Some?
    ensures Grown(db, ops + [AskOp(name, day)]) == AskRun(Grown(db, ops), db.trips[name], day).value.0
  {
    var more := ops + [AskOp(name, day)];
    assert more[..|more| - 1] == ops;
    GrownInv(db, ops);
    assert TrueTrip(db, Published(name), Grown(db, ops).trips[Published(name)]);
  }

  lemma FreshIs(db: Database, run: string, name: string, day: int)
    requires Stored(db) && run in db.runs && name in db.runs[run]
    ensures name in db.trips && !OwnRun(db.trips[name]) && db.trips[name].runKey == Some(run)
    ensures FreshRun(db, db.trips[name], day) == BuildRun(run, db.trips[name], RunningOn(db, run, name, day))
  {
    RunPart(db, run, name);
  }

  /** Where the same numbers stand for different run trips, one of two requests is answered wrongly. */
  lemma OneWrong(db: Database, s: Store, run: string, a: string, day: int, b: string, day': int)
    requires Stored(db) && Inv(db, s) && run in db.runs && a in db.runs[run] && b in db.runs[run]
    requires Published(a) in s.trips && Published(b) in s.trips && day in s.loaded && day' in s.loaded
    requires SameNumbers(db, run, a, day, b, day')
    requires BuildRun(run, db.trips[a], RunningOn(db, run, a, day)) != BuildRun(run, db.trips[b], RunningOn(db, run, b, day'))
    ensures a in db.trips && db.trips[a].runKey == Some(run) && b in db.trips && db.trips[b].runKey == Some(run)
    ensures AskRun(s, db.trips[a], day).Some?
    ensures !RightIn(db, s, a, day) || !RightIn(db, AskRun(s, db.trips[a], day).value.0, b, day')
  {
    FreshIs(db, run, a, day);
    FreshIs(db, run, b, day');
    SecondAnswer(db, s, run, a, day, b, day');
  }

  /** So one of two histories ends with a wrong answer. */
  lemma OneHistoryWrong(db: Database, ops: seq<IndexOp>, run: string, a: string, day: int, b: string, day': int)
    requires Stored(db) && run in db.runs && a in db.runs[run] && b in db.runs[run]
    requires Published(a) in Grown(db, ops).trips && Published(b) in Grown(db, ops).trips
    requires {day, day'} <= Grown(db, ops).loaded
    requires SameNumbers(db, run, a, day, b, day')
    requires BuildRun(run, db.trips[a], RunningOn(db, run, a, day)) != BuildRun(run, db.trips[b], RunningOn(db, run, b, day'))
    ensures a in db.trips && db.trips[a].runKey == Some(run) && b in db.trips && db.trips[b].runKey == Some(run)
    ensures !AsksRight(db, ops, a, day) || !AsksRight(db, ops + [AskOp(a, day)], b, day')
  {
    GrownInv(db, ops);
    OneWrong(db, Grown(db, ops), run, a, day, b, day');
    AskedMore(db, ops, a, day);
  }

  lemma MemoFails(db: Database, run: string, a: string, day: int, b: string, day': int) returns (first: seq<IndexOp>, second: seq<IndexOp>)
    requires Stored(db) && run in db.runs && Reached(db, run) && a in db.runs[run] && b in db.runs[run]
    requires SameNumbers(db, run, a, day, b, day')
    requires BuildRun(run, db.trips[a], RunningOn(db, run, a, day)) != BuildRun(run, db.trips[b], RunningOn(db, run, b, day'))
    ensures a in db.trips && db.trips[a].runKey == Some(run) && b in db.trips && db.trips[b].runKey == Some(run)
    ensures !AsksRight(db, first, a, day) || !AsksRight(db, second, b, day')
  {
    first := RunLoads(db, run, {day, day'});
    OneHistoryWrong(db, first, run, a, day, b, day');
    second := first + [AskOp(a, day)];
  }

  /** For a run some key leads to: whatever was loaded, asked and swept before, every request for it is answered
      as a fresh index would if and only if part numbers identify what runs. */
  lemma MemoExact(db: Database, run: string)
    requires Stored(db) && run in db.runs && Reached(db, run)
    ensures NumbersIdentify(db, run) <==> forall ops, name, day | name in db.runs[run] :: AsksRight(db, ops, name, day)
  {
    if NumbersIdentify(db, run) {
      forall ops, name, day | name in db.runs[run] ensures AsksRight(db, ops, name, day) {
        IdentifiedRight(db, run, ops, name, day);
      }
    } else {
      var a, b, day, day' :| a in db.runs[run] && b in db.runs[run] && SameNumbers(db, run, a, day, b, day')
        && BuildRun(run, db.trips[a], RunningOn(db, run, a, day)) != BuildRun(run, db.trips[b], RunningOn(db, run, b, day'));
      var first, second := MemoFails(db, run, a, day, b, day');
    }
  }

  lemma IdentifiedRight(db: Database, run: string, ops: seq<IndexOp>, name: string, day: int)
    requires Stored(db) && run in db.runs && NumbersIdentify(db, run) && name in db.runs[run]
    requires name in db.trips && db.trips[name].runKey == Some(run)
    ensures AsksRight(db, ops, name, day)
  {
    GrownInv(db, ops);
    var s := Grown(db, ops);
    if Published(name) in s.trips && day in s.loaded {
      PartAsked(db, s, run, name);
      MemoRefines(db, s, db.trips[name], day);
    }
  }
}
