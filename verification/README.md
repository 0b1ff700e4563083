# Obehy: a Dafny model of its realtime core and feed algorithms

This project models the parts of Obehy, a Czech public-transport backend, that carry state or an algorithm with
a specification, and proves what their code and documentation promise. Methods follow the program step by step
and are proved against specification functions; lemmas prove the promises about those functions.
`dafny verify dfyconfig.toml` checks the whole project.

## What is modelled

**The realtime core** (`Model`, `Core`, `CoreSteps`, `FeedStates`). A feed's live state holds vehicles, journey
instances and journeys waiting to be estimated. `FeedStates.FeedState` changes it in place as the program does:
an observation of a vehicle, a station-board row, a cancellation, a tick's housekeeping, estimates, and the switch to
a new release. Each method refines a function, and theorems range over every interleaving of operations
(`CoreRuns.Op`) from the empty state. What only computes a value for the core - binders, the tracker, the
predictor, the policy - is a record of functions (`Core.Context`), and `Core.Sound` is all that is assumed of
it: binders name trips of the release, laid out as the index lays them and with calls, and the tracker names calls
the instance has. That one journey is always bound to one trip is not assumed: `Keyed` is the binding by keys, with
the exact condition for a road key, `TripAgreement` is what follows where it holds, and `Releases` derives it from
the database for trains. `Cancellation` and `CancellationLog` are about cancellations, `ReleaseSwitch` about
switches, and `HistoryRuns`, `NewestSnapshots` and `NewestCase` about what history is given.

**Run construction** (`Runs`, `RunLayout`). A rail run's parts are concatenated with junction calls
merged, visits are counted again, and public journeys and published parts are laid over the calls. The trip's visit
numbers, those of a snapshot and those an event is filed under are computed separately; `HistoryRuns` and
`RunLayout.TriplesListed` prove they agree, and `Identities` says when two calls are filed under one identity.

**The lazy static index** (`StaticIndex`, `IndexInvariant`, `RunMemo`, `SweepTransparent`, `MemoHistories`, `Loading`). One
release's database is an immutable value, and each query a function of it. `Loading.Index` and
`Loading.IndexLoader` load, sweep and memoise in place, row by row; the theorems say that the index always answers as
the database does.

**Self-contained algorithms.** Timetable merging and the grid of a line (`Timetables`), local time across daylight
saving, dates by the hour and the board window (`Times`), warm replay against the replay clock
(`WarmReplay`), the filter of the national feed against its stop verifier (`GtfsFilter`) and the
download of a growing inventory (`CzpttDownload`).

## What the proofs found

- A sweep keeps a kept line's trip keys but not the line's own key. A line without trip keys that is kept then
  misses its own key for good, since loading treats the line as loaded, and keyless inference, which reads that
  key first, fails. `SweepTransparent.LineKeyKept` is the exact condition, `BareLineLost` a case.
- `IndexLoader.needs` also says yes where `ensure` makes no query: for new dates while no service is
  known (`SweepTransparent.NeedsExact`, `FirstDateUnqueried`).
- The run memo is right, over every history of the index, exactly if part numbers identify what runs
  (`MemoHistories.MemoExact`). Two versions of one part on different days get the first day's trip
  (`RunMemo.TwoVersionsMixed`).
- Two entries of one key that run on one day, one trip ahead of the other, are one journey that binds to two trips
  in turn, and its instance stays on the first (`Keyed.TwoEntriesTwoTrips`). `Keyed.OneTripExact` is the exact
  condition on a road key; one running entry a day is enough. Trains are free of it: whichever keys find a run, it
  is one trip on a day (`Keyed.RunBoundOnce`, `Releases.TrainsLawful`).
- A cancelled journey that a stale report or housekeeping forgets comes back waiting on the next board row or key,
  while the last thing recorded of it is its cancellation (`CancellationLog.CancelledReopensWaiting`). Nothing else
  makes the log wrong about a live journey whose public key no other has (`LastRecordTrue`).
- After a switch an event still held may name a call the newest revision of its journey no longer lists
  (`NewestSnapshots.DroppedCallHeld`; `NewestExact` says exactly when, `NewestCase.HeldPastSwitch` is a case).
- A run of two versions of one part on one day gets an ID the index never holds, and `resolve` returns that trip; a
  lookup of it then misses (`SweepTransparent.ResolvedFound`, `TwoVersionsUnfound`). Only a switch that finds a live
  journey again as such a run is not a run's operation (`CoreRuns.Allowed`, `Core.Resolvable`).
- A release switch gives a cancelled journey a scheduled call for each call new in the release, so "every call is
  cancelled" holds exactly when there is none and the journey stays a single one (`ReleaseSwitch.CancelledRebased`).
- Train numbers that come back within a run (A, B, A), or a second unnumbered part, give two public journeys one
  key. History then files two calls under one identity exactly if both journeys file some visit number of one
  place (`Identities.TripCollides`): three calls numbered A, B, A collide exactly if the outer two are at one place
  (`ReturningNumber`), and two unnumbered parts do not collide for sharing their junction (`UnnumberedTwice`).
- A trip may be against itself as backbone of its own direction, exactly if more of its steps lead to a stop it
  leaves for good earlier than to one it leaves for good later (`Timetables.AgainstItselfExact`). It takes a stop
  visited three times (`AtMostTwiceWithItself`); a loop run twice out and once back is one (`BackboneAgainstItself`).
- Schedule times strictly inside a skipped hour, and no others, come out after later ones (`Times.ScheduleInOrder`,
  `PragueOutOfOrder`), as the documented reading with the offset before the change implies; the first moment of
  the hour is the instant of its end.
- Before the epoch whole seconds are cut off upwards, so a tick may pass over the first multiple after an instant:
  exactly within the second before one (`WarmReplay.NextMultipleExact`).
- A train number equal to the run's own key, after an unnumbered part, is carried on under the run's journey, and
  the run then has no current train (`RunLayout.CurrentTrainOfPart`, exactly then).
- A pre-trip journey may also be started by the tracker on a point event (`timeline/fusion.py:276-280`). The
  model follows the code: `Core.Tracking` carries it.

## Model

| member | source | states |
|---|---|---|
| `Runs.RunTrip` | src/obehy/realtime/index.py:327-388 | the run trip of the parts: every timed call laid in order, a call met again merged with the one before, visits counted over the whole run, a span per part that has a call |
| `Runs.JourneySpans` | src/obehy/realtime/runs.py:40-61 | one span per train number over the consecutive parts that carry it, one per unnumbered part |
| `Runs.Snapshots` | src/obehy/realtime/runs.py:93-117 | a snapshot of each public journey under the part it begins on, and a link between neighbours |
| `Runs.ListCalls` | src/obehy/realtime/runs.py:120-157 | the calls of a span with ordinals from 1 and visits counted from the span's first call |
| `RunLayout.LayoutCovers` | src/obehy/realtime/index.py:327-357 | for any parts in any order the part spans cover all calls from first to last, with no gap and at most the junction call shared |
| `RunLayout.LayoutJoinsJunctions` | src/obehy/realtime/index.py:336-353 | the calls of a run stand, in order, for the groups of all timed calls: earliest arrival given, latest departure given, first boarding point given, passengers if any, on request if all |
| `RunLayout.GroupsPartition` | src/obehy/realtime/index.py:336-353 | those groups are a partition of the timed calls, in order, into the longest runs of one sequence number |
| `RunLayout.CountedVisitsUnique` | src/obehy/realtime/index.py:359-374 | no two calls of a trip with counted visits share location and visit, and visits of a location grow along the trip |
| `RunLayout.RunTripWellLaid` | src/obehy/realtime/index.py:327-388 | every run trip has counted, unique visits and parts that cover its calls |
| `RunLayout.SpansCover` | src/obehy/realtime/runs.py:40-61 | public journeys over any covering parts cover the same calls, overlapping in at most one |
| `RunLayout.LaidSpansCover` | src/obehy/realtime/runs.py:40-68 | so they do on every instance of a well-laid trip, or the instance is its own journey |
| `RunLayout.DistinctJourneys` | src/obehy/realtime/runs.py:46-61 | the public journeys of a run are distinct if and only if no two parts that open one have the same number, or none; a part opens one unless it is numbered as the key of the part before it |
| `Identities.CollideExact` | src/obehy/realtime/model.py:538-550 | over covering public journeys history files two calls under one (journey, location, visit) for a kind of event if and only if two journeys of one key both file some visit number of one place, each filing all its calls but the junctions that go to its neighbour |
| `Identities.TripCollides` | src/obehy/realtime/model.py:538-550 | so on every instance of a well-laid trip, told from parts and places; a road trip, and a run whose public journeys are distinct, never has two calls collide |
| `Identities.ReturningNumber` | src/obehy/realtime/runs.py:46-61 | a case: three calls of parts numbered A, B, A collide if and only if the outer two are at one place |
| `Identities.UnnumberedTwice` | src/obehy/realtime/runs.py:46-61 | a case: two unnumbered parts sharing a junction collide if and only if the run calls again where it began, for arrivals at its end |
| `RunLayout.FirstAheadHolds` | src/obehy/realtime/runs.py:71-79 | the current part holds the next call to reach and every part before it is behind; past the end it is the last part |
| `RunLayout.FirstAheadAdvances` | src/obehy/realtime/runs.py:71-79 | the current part never moves back as progress grows |
| `RunLayout.CurrentTrainOfPart` | src/obehy/realtime/runs.py:71-90 | the train number a run carries now, found among public journeys, is that of the current part, found among published parts, if and only if that part is not numbered as the run itself and carried on from an unnumbered one |
| `RunLayout.TriplesListed` | src/obehy/realtime/runs.py:93-157 | every identity an event can be filed under is a call, with that visit number, of the snapshot emitted for that journey |
| `Core.BindProper` | src/obehy/realtime/core.py:295-319 | whichever of an observation's keys decides and names the journey, the match's trip is one of the release |
| `CoreInvariant.StepInv` | src/obehy/realtime/core.py:124-263 | one observation, whatever it says and whatever binders answer, keeps every instance standing for its journey with calls told apart by place and visit, and every binding on a journey that has an instance and a trip of the release |
| `CoreInvariant.EstimateInv` | src/obehy/realtime/core.py:322-358 | estimating keeps the same |
| `CoreInvariant.RefreshInv` | src/obehy/realtime/core.py:385-430 | housekeeping keeps the same |
| `CoreInvariant.RememberedBindingKept` | src/obehy/realtime/core.py:394-410 | the journey of a remembered vehicle's binding is never forgotten |
| `CoreInvariant.RebaseInv` | src/obehy/realtime/core.py:693-745 | a release switch that finds live journeys again as trips of the release leaves a state of the new release, from any state of the feed |
| `CoreRuns.BindingsSafe` | src/obehy/realtime/core.py:124-263 | after any run of operations, whatever binders answer, every binding names a journey that has an instance standing for it |
| `CoreRuns.BindingStable` | src/obehy/realtime/core.py:472-489 | a remembered keyed vehicle that keeps reporting its key inside the window and not stale keeps journey, trip and bound time through anything that comes between |
| `CoreRuns.OthersUntouched` | src/obehy/realtime/core.py:124-263 | an observation of another vehicle, or of none, leaves a vehicle as it is |
| `CoreRuns.MovedOnlyByKeyOrStale` | src/obehy/realtime/runner.py:237-242 | a keyed vehicle leaves a journey whose window is open only for another key or by a stale report |
| `Keyed.Bind` | src/obehy/realtime/infer/keyed.py:75-112 | binding by a key: the reasons for none, and the admissible match strictly closest in time, or ambiguous |
| `Keyed.OneTripExact` | src/obehy/realtime/infer/keyed.py:75-112 | a key whose entries are all of the road and of one mode binds one journey to one trip if and only if its entries running that day that are at some moment the only ones under way are of one trip; one running entry a day is enough |
| `Keyed.TwoEntriesTwoTrips` | src/obehy/realtime/infer/keyed.py:84-112 | a case: two entries running on one day, one ahead of the other, bind one journey to both trips |
| `Keyed.RunBoundOnce` | src/obehy/realtime/infer/keyed.py:89-97 | whichever keys find it, at whatever times, a run's journey is bound to one trip, where what a run is on a day does not hang on the part that asks |
| `Keyed.BinderAgrees` | src/obehy/realtime/infer/keyed.py:75-112 | a timetable of roads and runs whose road keys each bind a day's journey to one trip gives a binder that names one trip per journey |
| `Keyed.LawfulAgrees` | src/obehy/realtime/core.py:295-319 | so binding, keyless inference and the lookup of a switch all name one trip for a journey, where a key that names a road trip on a day names no other trip that day |
| `Keyed.LawfulHistory` | src/obehy/realtime/core.py:124-430 | over any run on such releases history is given only calls of snapshots given before, and every instance and binding is on its journey's trip |
| `Keyed.BoardRowsPlaced` | src/obehy/realtime/platforms.py:60-98 | after any run on such releases the call a board row names is one the instance has, whether or not the row opens it |
| `Releases.AnswerNamed` | src/obehy/realtime/index.py:301-320 | whatever the index remembers of other days, the run trip it answers has the ID and the run key of one built afresh |
| `Releases.FreshAlike` | src/obehy/realtime/index.py:301-320 | two parts of one run running on a day are lifted to run trips of one ID, named for the run |
| `Releases.TrainsLawful` | src/obehy/data/serving/serving-v5.json:633 | a core that reads a release whose trips are all parts of runs is given one trip for every journey |
| `TripAgreement.BindAgrees` | src/obehy/realtime/core.py:295-319 | where binders name one trip per journey, so does binding by several keys, whichever decides and whichever names the journey |
| `TripAgreement.StepAligned` | src/obehy/realtime/core.py:124-263 | there one observation keeps every instance laid on its journey's trip and every binding to it |
| `TripAgreement.BoardCallWithin` | src/obehy/realtime/platforms.py:60-98 | there the call a board row names is one of the instance's |
| `TripAgreement.BindingsAgree` | src/obehy/realtime/core.py:124-430 | after any run on such releases, switches included, every binding is on the trip its journey's instance lies on |
| `Cancellation.ApplyFaithful` | src/obehy/realtime/core.py:124-430 | every operation but a switch changes live instances by the lifecycle rules and records of each public journey what became of it |
| `Cancellation.CancellationTrue` | src/obehy/realtime/core.py:266-292 | over any run without a switch a cancelled journey has one train number and only cancelled, unestimated calls, and what its operations last recorded since it was opened says cancelled exactly when it is |
| `CancellationLog.LogAccounts` | src/obehy/realtime/core.py:502-536 | over the whole log of a run, switches included, a public journey that stays one instance's own is last recorded cancelled if and only if it is cancelled, or its instance was removed while it was and nothing was recorded since, and never both |
| `CancellationLog.LastRecordTrue` | src/obehy/realtime/core.py:502-536 | so the last cancellation recorded of a live journey agrees with its lifecycle if and only if its instance was not removed while cancelled or something was recorded since |
| `CancellationLog.CancelledReopensWaiting` | src/obehy/realtime/core.py:502-536 | a case: cancelled, forgotten by a stale report, opened again by a board row: it waits and is last recorded cancelled |
| `Cancellation.SeenStaysSeen` | src/obehy/realtime/core.py:554-618 | a journey seen running or finished is never cancelled or waiting again, by any operation |
| `Cancellation.RestoredBySeeing` | src/obehy/realtime/core.py:217-230 | only an observation of the leading vehicle, left bound to the journey on a trip it shows started, restores a cancelled journey |
| `ReleaseSwitch.EventsCarried` | src/obehy/realtime/core.py:710-718 | unique calls and those of a well-laid trip correspond one to one: a call in both carries everything over, a new one starts blank, and nothing is matched twice |
| `ReleaseSwitch.RebaseTwice` | src/obehy/realtime/core.py:693-745 | switching twice to one release leaves what switching once does |
| `ReleaseSwitch.BindingsRebased` | src/obehy/realtime/core.py:733-744 | a binding survives exactly when its journey's key still runs, on its instance's new trip |
| `ReleaseSwitch.SwitchCarries` | src/obehy/realtime/core.py:693-745 | a switch at any point of a run carries all observed of a staying journey's calls, one to one by place and visit, to the calls of its trip in the new release, with its held events, lifecycle and freshness |
| `ReleaseSwitch.InstancesCurrent` | src/obehy/realtime/core.py:719-731 | after any run, switches included, every live instance is of the release the core reads now, and its trip and every binding's is one of that release |
| `ReleaseSwitch.CancelledRebased` | src/obehy/realtime/core.py:711-718 | a cancelled journey stays wholly cancelled exactly when the release gives it one public journey and no new call |
| `ReleaseSwitch.CancelledGainsCall` | src/obehy/realtime/core.py:711-718 | a case: the call a release adds to a cancelled journey is scheduled |
| `HistoryRuns.HistoryScheduled` | src/obehy/realtime/model.py:538-550 | over any run, switches included, on releases that name one trip per journey, every stop event and platform names a call that a snapshot given before lists for that public journey under that visit |
| `NewestSnapshots.NewestExact` | src/obehy/realtime/core.py:693-731 | if besides no two live public journeys are one, each one's newest snapshot is its instance's, and all events and platforms given, and all events held, name calls of the newest snapshot of their journey if and only if no live journey ever lacks the call of an event held under its name |
| `NewestSnapshots.DroppedCallHeld` | src/obehy/realtime/core.py:693-731 | a switch that drops the call of an event held, its journey keeping its public key, leaves the event held and not listed by the newest snapshot |
| `NewestCase.HeldPastSwitch` | src/obehy/realtime/core.py:693-731 | a case: one report whose arrival is held unconfirmed and one switch to a trip without its call, from the empty state, on releases of one trip per journey |
| `FeedStates.FeedState.Open` | src/obehy/realtime/core.py:518-536 | a journey's instance is created on its first binding, with its snapshots, and left alone after |
| `FeedStates.FeedState.DropUnstarted` | src/obehy/realtime/core.py:502-515 | a journey without progress that no other vehicle is bound to is forgotten |
| `FeedStates.FeedState.SetVehicle` | src/obehy/realtime/core.py:621-650 | the vehicle is recorded and nothing else changes |
| `FeedStates.FeedState.ApplyPlatform` | src/obehy/realtime/platforms.py:60-98 | a board row opens its journey, sets one call's platform and records it under the call's public identity |
| `FeedStates.FeedState.Cancel` | src/obehy/realtime/core.py:266-292 | a cancellation of a journey not seen running cancels all its calls and is recorded; a run of several numbers is left |
| `FeedStates.FeedState.Step` | src/obehy/realtime/core.py:124-263 | one observation: the new state and the effects are those of the step function, an error for another feed's |
| `FeedStates.FeedState.EstimateAll` | src/obehy/realtime/core.py:322-358 | the changed and overdue journeys that are not cancelled get new estimates, and none stays marked changed |
| `FeedStates.FeedState.Refresh` | src/obehy/realtime/core.py:385-430 | housekeeping decides each vehicle and journey on its own, so the order it takes them in shows only in the order of effects |
| `FeedStates.FeedState.Rebase` | src/obehy/realtime/core.py:693-745 | the release switch over all journeys and vehicles |
| `IndexInvariant.LoadTripsInv` | src/obehy/realtime/index_sql.py:211-309 | loading trips, and through them runs and the runs' parts, ends and leaves the index faithful to the database and closed |
| `IndexInvariant.LoadRunsInv` | src/obehy/realtime/index_sql.py:311-326 | the same from the runs' side of the recursion |
| `IndexInvariant.LoadKeysInv` | src/obehy/realtime/index_sql.py:159-182 | loaded keys lead to loaded trips |
| `IndexInvariant.LoadDatesInv` | src/obehy/realtime/index_sql.py:375-391 | services agree with the database on all loaded dates, the new ones included |
| `IndexInvariant.EnsureInv` | src/obehy/realtime/index_sql.py:138-157 | loading a batch keeps the index faithful and closed and adds exactly the keys, dates and lines wanted |
| `IndexInvariant.EnsureKeeps` | src/obehy/realtime/index_sql.py:138-157 | loading a batch, however far it leads, leaves every trip held as it is, remembered run trips included |
| `IndexInvariant.SweepInv` | src/obehy/realtime/index.py:253-299 | a sweep keeps it faithful and closed |
| `RunMemo.AskRunInv` | src/obehy/realtime/index.py:301-320 | a run of a loaded trip on a loaded day is always answered, and remembering it keeps the index faithful and closed |
| `RunMemo.MemoRefines` | src/obehy/realtime/index.py:301-320 | while part numbers identify what runs, the answer is the trip built afresh from the parts running that day, whatever was asked before |
| `RunMemo.UniqueNumbersIdentify` | src/obehy/realtime/index.py:310-320 | unique part numbers within a run identify what runs |
| `RunMemo.MemoMixes` | src/obehy/realtime/index.py:315-320 | where two days' parts share their numbers the second request gets the first one's trip, right exactly if both would be built alike |
| `RunMemo.TwoVersionsMixed` | src/obehy/realtime/index.py:315-320 | a case: two versions of one part on two days |
| `MemoHistories.MemoExact` | src/obehy/realtime/index.py:301-320 | for a run some key leads to, every request after every history of loads, requests and sweeps is answered as a fresh index would if and only if part numbers identify what runs |
| `SweepTransparent.GrownInv` | src/obehy/realtime/index_sql.py:118-182 | any sequence of loads, run requests and sweeps leaves the index faithful and closed |
| `SweepTransparent.IndexWellLaid` | src/obehy/realtime/index.py:327-388 | every trip the index holds, run trips included, is under its ID and laid out as the core relies on |
| `SweepTransparent.EnsureServes` | src/obehy/realtime/index_sql.py:138-157 | after loading a batch every key it may look up is answered as the database does: entries, trips, runs, service days, shapes and locations, and its lines' trip keys |
| `SweepTransparent.SweepKeepsBatchAnswers` | src/obehy/realtime/runner.py:297-310 | so it is after any history, swept before the load or not |
| `SweepTransparent.ResolveServed` | src/obehy/realtime/core.py:748-757 | a journey resolves to the run trip the database gives for the first valid entry that runs |
| `SweepTransparent.SweepKeepsLive` | src/obehy/realtime/runner.py:297-310 | a sweep with what the runner keeps changes nothing a live journey's key resolves to, loaded or not, and loaded it and all it leads to are the database's |
| `SweepTransparent.SweepThenBatch` | src/obehy/realtime/runner.py:297-310 | after the batch that follows, what a live journey resolves to without the sweep it resolves to with it; only a key never loaded may be found where it missed, by loading a swept line again |
| `SweepTransparent.LiveTripThenBatch` | src/obehy/realtime/runner.py:297-310 | after the sweep and the batch that follows, a live instance's or binding's trip, a remembered run trip too, is answered for as it is without the sweep: itself, its shape, its locations and its days |
| `SweepTransparent.SweepKeepsLiveTrip` | src/obehy/realtime/runner.py:302-309 | a live instance's or binding's trip stays, with its locations |
| `SweepTransparent.KeptTripAnswers` | src/obehy/realtime/index.py:253-299 | a trip kept by name keeps its shape, its locations and its service on the kept days |
| `SweepTransparent.ResolvedFound` | src/obehy/realtime/index.py:310-320 | a run's answer can be looked up under its ID exactly unless two versions of one part run that day |
| `SweepTransparent.TwoVersionsUnfound` | src/obehy/realtime/index.py:310-314 | a case: two versions running on one day are answered under an ID that a lookup misses |
| `SweepTransparent.NeedsExact` | src/obehy/realtime/index_sql.py:129-157 | needs is true exactly when ensure queries or only new dates are asked of an index without services |
| `SweepTransparent.FirstDateUnqueried` | src/obehy/realtime/index_sql.py:129-157 | a case: one date asked of an empty index |
| `SweepTransparent.NeedsSettled` | src/obehy/realtime/index_sql.py:129-157 | what does not need the database changes nothing, and a loaded batch needs it no more |
| `SweepTransparent.LineKeyKept` | src/obehy/realtime/index.py:264-269 | after a sweep a line's own key is loaded exactly if the line was dropped, has a trip key, or is named |
| `SweepTransparent.BareLineLost` | src/obehy/realtime/infer/keyless/candidates.py:27-37 | a case: a line without trip keys has no trip before the sweep and is a miss after it |
| `Loading.Index.Run` | src/obehy/realtime/index.py:301-320 | the memoised run trip, or a miss that changes nothing |
| `Loading.Index.Sweep` | src/obehy/realtime/index.py:253-299 | every field is left as the sweep function says |
| `Loading.IndexLoader.Touch` | src/obehy/realtime/index_sql.py:112-116 | the named keys and lines are used as of now, the others as before |
| `Loading.IndexLoader.Sweep` | src/obehy/realtime/index_sql.py:118-127 | keys and lines named since stay used, and the index is swept of what they and the journeys do not need |
| `Loading.IndexLoader.Needs` | src/obehy/realtime/index_sql.py:129-136 | whether a new line, a missing key or parent, or a new date is named |
| `Loading.IndexLoader.Ensure` | src/obehy/realtime/index_sql.py:138-157 | the index becomes what loading the batch gives, with a query exactly for new lines, missing keys or new dates of known services |
| `Loading.IndexLoader.LoadKeys` | src/obehy/realtime/index_sql.py:159-182 | keys with their entries, then the trips they name |
| `Loading.IndexLoader.LoadLines` | src/obehy/realtime/index_sql.py:184-206 | each line's trip keys, recorded and returned as keys |
| `Loading.IndexLoader.LoadTrips` | src/obehy/realtime/index_sql.py:211-309 | trips with locations, shapes, services, and in turn their runs |
| `Loading.IndexLoader.LoadRuns` | src/obehy/realtime/index_sql.py:311-326 | every part of each run, loading those missing |
| `Loading.IndexLoader.LoadLocations` | src/obehy/realtime/index_sql.py:352-360 | the stored ones among the locations are added |
| `Loading.IndexLoader.LoadDates` | src/obehy/realtime/index_sql.py:375-391 | each service gains its dates among the days; no query without services |
| `Loading.SweepRuntime` | src/obehy/realtime/runner.py:297-310 | the sweep keeps what was named since and every live journey's key, trip and day |
| `Timetables.RowsOf` | src/obehy/api/timetable.py:15-23 | a row per stop with the visit counted so far |
| `Timetables.RowsDistinct` | src/obehy/api/timetable.py:15-23 | a trip has no row twice and its stops read back off its rows |
| `Timetables.RowsCount` | src/obehy/api/timetable.py:15-23 | visits of a stop count up from 1 along the trip |
| `Timetables.MergeOne` | src/obehy/api/timetable.py:36-43 | one trip's rows placed: those new after the row before them |
| `Timetables.PlaceKeeps` | src/obehy/api/timetable.py:36-43 | placing a trip adds exactly its rows and never reorders rows already placed |
| `Timetables.MergedReadsDown` | src/obehy/api/timetable.py:26-44 | a trip's rows end in its own order if and only if it agreed with the order it was merged into |
| `Timetables.Rank` | src/obehy/api/timetable.py:33-34 | the distinct sequences, most common first, the longest on a tie, then the least |
| `Timetables.Merge` | src/obehy/api/timetable.py:26-44 | the order merged from the ranked sequences |
| `Timetables.MergedAllKeeps` | src/obehy/api/timetable.py:26-44 | the final order holds the rows of all sequences and nothing else, and keeps every intermediate order |
| `Timetables.MergedAllReadsDown` | src/obehy/api/timetable.py:26-44 | a sequence reads down the final order if and only if it agreed when merged; the first always does |
| `Timetables.MergeOrderFree` | src/obehy/api/timetable.py:33-34 | there is one merged order, and it does not depend on how the trips are listed |
| `Timetables.MergedTimetable` | src/obehy/api/timetable.py:26-44 | every row of every trip once, nothing else, and the most common trip reads down |
| `Timetables.Column` | src/obehy/api/lines.py:212-218 | each call written into the cell of its row, the other cells empty |
| `Timetables.ColumnHoldsCalls` | src/obehy/api/lines.py:212-218 | each call is in exactly one cell and no cell holds anything else |
| `Timetables.ColumnReadsDown` | src/obehy/api/lines.py:212-218 | the column reads down as the trip's calls if and only if its rows read down the order |
| `Timetables.ChooseBackbone` | src/obehy/api/timetable.py:62-63 | of the trips without a direction the most common, the longest on a tie, then the greatest |
| `Timetables.Directions` | src/obehy/api/timetable.py:56-67 | ascending, non-empty groups in their keys' order, each holding exactly the trips of its key |
| `Timetables.DirectionsApart` | src/obehy/api/timetable.py:56-67 | each trip is in exactly one group |
| `Timetables.BackAgainst` | src/obehy/api/timetable.py:47-53 | running a trip's stops backwards swaps its steps up and down, so it and its reverse are never both against the backbone |
| `Timetables.ThereAndBack` | src/obehy/api/timetable.py:47-53 | a backbone that visits no stop twice is not against itself, and its reverse is |
| `Timetables.AgainstItselfExact` | src/obehy/api/timetable.py:47-53 | a trip is against itself if and only if more of its steps lead to a stop it leaves for good earlier than to one it leaves for good later |
| `Timetables.AtMostTwiceWithItself` | src/obehy/api/timetable.py:47-53 | a trip that visits no stop three times never is |
| `Timetables.BackboneAgainstItself` | src/obehy/api/timetable.py:47-53 | a case: a loop twice out and once back is against itself |
| `Timetables.LineTimetable` | src/obehy/api/lines.py:271-320 | the printed trips in grids by direction, each grid's order merged from its trips' rows and its columns made of their calls |
| `Timetables.GridHolds` | src/obehy/api/lines.py:203-220 | in a grid a trip's column holds each call once, and of calls stored in sequence it reads down exactly when its rows do |
| `Timetables.CommonReadsDown` | src/obehy/api/lines.py:203-220 | in a grid the most common of its trips, the longest on a tie, reads down its column |
| `Timetables.RowsStopped` | src/obehy/api/lines.py:269-281 | a printed row is of a stop where some trip of the line stops |
| `Times.Readings` | src/obehy/realtime/times.py:112-121 | the folds' instants that read back as the wall time |
| `Times.ReadingsExact` | src/obehy/realtime/times.py:112-121 | they are exactly the instants that read as it, each once, at most two |
| `Times.NoReading` | src/obehy/realtime/times.py:112-121 | there is none if and only if a change skips the time |
| `Times.Closest` | src/obehy/realtime/times.py:124-127 | the reading closest to reception, the earlier of two as close, none of none |
| `Times.ResolveExact` | src/obehy/realtime/times.py:130-136 | a local time resolves to the closest instant that reads as it, and to none exactly when skipped |
| `Times.RoundTrip` | src/obehy/realtime/times.py:130-136 | what an instant reads as, received less than half an hour from it, resolves to it, in the repeated hour too |
| `Times.RepeatedTwice` | src/obehy/realtime/times.py:112-136 | a time repeated by any change has two readings an hour apart, and reception midway takes the earlier: the half hour is sharp |
| `Times.ScheduleExact` | src/obehy/realtime/times.py:50-53 | a schedule time is read as its first occurrence, or an hour late if skipped |
| `Times.InOrderExact` | src/obehy/realtime/times.py:40-53 | a wall time's first instant comes no later than those of all later wall times if and only if it is not strictly inside a gap; inside, it is after the gap's end |
| `Times.ScheduleInOrder` | src/obehy/realtime/times.py:50-53 | later schedule times come no earlier than one if and only if it is not strictly inside a gap |
| `Times.PragueOutOfOrder` | src/obehy/realtime/times.py:50-53 | a case: 2:30 of the skipped hour is an instant after 3:00's |
| `Times.DateByHour` | src/obehy/realtime/times.py:61-77 | the local date of an instant is that of its whole hour |
| `Times.DateCache.LocalDate` | src/obehy/realtime/times.py:61-77 | the cached date is the direct conversion, whatever was kept or dropped |
| `Times.ResolveClock` | src/obehy/realtime/times.py:165-174 | a time of day resolves to the closest instant within twelve hours that reads as it, and to none exactly if there is none |
| `Times.ScheduleSpans` | src/obehy/api/params.py:69-84 | the dates from the day before the window to its last day that have a second in it, each once, with its seconds |
| `Times.WindowComplete` | src/obehy/api/params.py:69-84 | every schedule time under 48 hours whose instant lies in the window has its date among the spans and its seconds in range, across both changes |
| `Times.WindowTight` | src/obehy/api/params.py:69-84 | the spans reach no more than two hours beyond the window |
| `Times.LateTimeMissed` | src/obehy/api/params.py:69-84 | a time of 48 hours or more is missed by a window that begins with it, in every zone |
| `Times.PragueZone` | src/obehy/realtime/times.py:22 | Prague's year meets the hypotheses on zones |
| `Times.PragueNights` | src/obehy/realtime/times.py:22 | 2:30 is skipped in March and repeated in October |
| `WarmReplay.NextMultipleExact` | src/obehy/realtime/times.py:105-109 | a round multiple after any instant, the first one if and only if none is passed over: within the second before a multiple, before the epoch or at it |
| `WarmReplay.ReplayClock.Advance` | src/obehy/realtime/replay.py:226-247 | every tick up to and including the instant |
| `WarmReplay.ReplayClock.Replay` | src/obehy/realtime/replay.py:179-186 | the schedule of one observation at a time |
| `WarmReplay.Ticks.Advance` | src/obehy/realtime/warm.py:49-56 | the same ticks, though each is computed as a multiple anew |
| `WarmReplay.Ticks.Split` | src/obehy/realtime/warm.py:58-69 | a chunk in batches between ticks leaves what one observation at a time does |
| `WarmReplay.WarmStart` | src/obehy/realtime/warm.py:72-111 | however the stream is cut into chunks, the batches and ticks flatten to the replay clock's schedule, and all are counted |
| `WarmReplay.ScheduleExact` | src/obehy/realtime/replay.py:226-247 | of a stream in the order received each observation is seen once, and the ticks are the consecutive multiples from its first observation's next one, each once, after all received before it and before all received at it or later |
| `GtfsFilter.FilterGtfs` | src/obehy/filtered_jdf.py:209-341 | the filtered feed and every count of its report, or a failure exactly when a kept call is at an unknown stop |
| `GtfsFilter.FilterTwice` | src/obehy/filtered_jdf.py:209-331 | filtering by further rules gives what both rules at once give, where a trip's rows agree |
| `GtfsFilter.UniqueRowsAgree` | src/obehy/filtered_jdf.py:243-248 | they agree where trip IDs are unique |
| `GtfsFilter.FilterIdempotent` | src/obehy/filtered_jdf.py:209-331 | filtering a filtered feed again changes no row of any file, with no hypothesis but success |
| `GtfsFilter.FilterConserves` | src/obehy/filtered_jdf.py:243-270 | where trip IDs are unique the counts add up: trips kept, removed by line or left with too few calls; calls of kept trips kept or removed |
| `GtfsFilter.VerifyGtfsStops` | src/obehy/national_jdf.py:450-502 | the verdict is good exactly when every check holds, and lists the stops at 0, 0 in order; a faulty row's names the first one and its fault, and an unreachable one the four differences |
| `GtfsFilter.FilterPasses` | src/obehy/filtered_jdf.py:297-315 | the verifier accepts every output of a successful filter of a source with clean distinct stops, stations as parents and no calls at stations |
| `GtfsFilter.FilterCloses` | src/obehy/filtered_jdf.py:283-331 | a reference-closed source is filtered without failing and stays closed for stops, trips, routes, services, shapes, agencies and transfers |
| `GtfsFilter.TripsCall` | src/obehy/filtered_jdf.py:251-255 | every trip written has at least two calls |
| `CzpttDownload.FetchAll` | src/obehy/national_czptt.py:969-998 | whatever order downloads complete in, one record per object, the most in flight being twice the connections or all objects if fewer; none exactly if an object fails |
| `CzpttDownload.SortRecords` | src/obehy/national_czptt.py:1038 | the same records, by path |
| `CzpttDownload.DownloadSources` | src/obehy/national_czptt.py:931-1038 | the download ends within five passes, as its listings and objects decide, the most in flight being that of its widest pass |
| `CzpttDownload.OutcomeUnique` | src/obehy/national_czptt.py:958-1032 | only one pass can end it and only one way, so no order of completion changes the outcome |
| `CzpttDownload.DownloadedPaths` | src/obehy/national_czptt.py:1012-1032 | through the passes each object of the last listing is downloaded once |
| `CzpttDownload.DoneExact` | src/obehy/national_czptt.py:1012-1038 | a finished download has exactly one record for each object of the last listing, which lists what the one before did |

## Left out

- CancellationTrue: without release switches, because the code does give new calls of a cancelled journey a scheduled state; `CancelledRebased` is the exact condition for a switch, and `LogAccounts` holds across switches that leave the journey its public key.
- BindingStable: not across a release switch, which rewrites the trip of every binding; `BindingsRebased` says how.
- MovedOnlyByKeyOrStale: states when the runner's check against re-dating can fire; that binders never do so is theirs. Committed progress belongs to the tracker.
- RebaseInv: not where a live journey is found again as a run of two versions of one part, whose ID a lookup then misses (`ResolvedFound`); no run of operations has such a switch (`CoreRuns.Allowed`).
- HistoryScheduled: a snapshot given at any time before; `NewestExact` is the same of the newest one.
- Keyed.OneTripExact: for keys of the road and one mode, so of one pair of margins; for keys of runs `RunBoundOnce` needs no condition.
- Keyed.LawfulAgrees: supposes of the road that a key names one trip a day, which `OneTripExact` does not need of a binder alone.
- Runs.Snapshots: a snapshot's names, mode, agency and run key.
- Runs.ListCalls: the name of a listed call's location.
- FeedStates.FeedState.Step: running times between stops are not recorded, and the tracker is a function.
- FeedStates.FeedState.EstimateAll: the estimates themselves are a function.
- FeedStates.FeedState.Refresh: running times between stops are not forgotten.
- Loading.IndexLoader.LoadTrips: rail station and track keys (`sr70`, `sr70:track`), which a sweep never drops.
- Loading.SweepRuntime: the cache of plans is not swept.
- LineTimetable: columns come in the trips' own order, not by departure, and a cell is its call without codes and flags.
- WindowComplete: supposes that no change touches midnight, as Prague's do not.
- ReplayClock.Advance: snapshots and quality samples between ticks.
- WarmStart: an early stop, which ends between chunks without the last ticks, progress logging and the order a batch is sorted in by the runner.
- FilterPasses: identifiers are compared as the verifier strips them; blanks other than space, tab and line ends are not modelled.
- DownloadSources: the snapshot of the catalogue in the first pass, which may fail.
- The tracker, predictors, plans and hops of the core are functions of a context; nothing is claimed of positions, lateness or committed distance. Source tracks keep the tracker's own index into calls over a release switch, of which nothing is claimed.
- Run and trip IDs are structured values, not text: the text of a run ID names its run and part numbers.
- A key's entry names a trip exactly if its public ID is a stored trip; other kinds of entity only have keys.
- Order of iteration over sets and dictionaries is arbitrary in the methods; where effects depend on it, it is a parameter.
- Diagnostics for unplaced platforms carry no observation.
- `Runner.compact`, which replaces the index.
- Polls that fail to decode.
- CSV text, ZIP files, HTTP, the object cache, snapshots of calendars, reporting and timing of the filter and the download; a download of one object gives one result.
- SQL text, connections and transactions, the API's routers and schemas, supervision of processes, alerts and geometry.
