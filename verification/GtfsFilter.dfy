/** The filtered national feed: lines other feeds publish and calls at stops without coordinates are
    dropped, with everything that then hangs loose, and the stop verifier the result must pass. */
module GtfsFilter {
  import opened Model

  // ----- a feed --------------------------------------------------------------------------------

  /** What a coordinate's text reads as; `Unordered` is a text read as NaN or an infinity. */
  datatype Coordinate = Unreadable | Unordered | Number(value: real)

  /** Rows keep what the filter does not read as `rest`. */
  datatype Stop = Stop(id: string, lat: Coordinate, lon: Coordinate, kind: string, parent: string, rest: string)
  datatype Route = Route(id: string, agency: string, rest: string)
  datatype Trip = Trip(id: string, route: string, service: string, shape: string, rest: string)
  datatype StopTime = StopTime(trip: string, stop: string, rest: string)
  datatype Named = Named(id: string, rest: string)
  datatype Transfer = Transfer(
    fromStop: string, toStop: string, fromTrip: string, toTrip: string, fromRoute: string, toRoute: string, rest: string)

  /** The files of a feed; `others` are copied as they are. */
  datatype Feed = Feed(
    stops: seq<Stop>,
    routes: seq<Route>,
    trips: seq<Trip>,
    stopTimes: seq<StopTime>,
    agencies: seq<Named>,
    calendar: seq<Named>,
    calendarDates: seq<Named>,
    shapes: seq<Named>,
    transfers: seq<Transfer>,
    others: map<string, string>)

  datatype Rules = Rules(lines: set<string>, prefixes: seq<string>)

  datatype Result<T> = Success(value: T) | UnknownStop(id: string)

  function Keep<T(!new)>(rows: seq<T>, keep: T -> bool): (r: seq<T>)
    ensures forall x :: x in r <==> x in rows && keep(x)
  {
    if rows == [] then []
    else
      var front, last := Keep(rows[..|rows| - 1], keep), rows[|rows| - 1];
      assert rows == rows[..|rows| - 1] + [last];
      if keep(last) then front + [last] else front
  }

  // ----- lines ---------------------------------------------------------------------------------

  function Split(text: string): (parts: seq<string>)
    ensures parts != []
  {
    if text == [] then [[]]
    else
      var rest := Split(text[1..]);
      if text[0] == ':' then [[]] + rest else [[text[0]] + rest[0]] + rest[1..]
  }

  predicate Digits(text: string) {
    text != [] && forall c <- text :: '0' <= c <= '9'
  }

  /** The line number a route's ID carries, after "jdf" and "route". */
  function RouteLine(id: string): Option<string> {
    var parts := Split(id);
    if |parts| >= 3 && parts[0] == "jdf" && parts[1] == "route" && Digits(parts[2]) then Some(parts[2]) else None
  }

  predicate Starts(line: string, prefixes: seq<string>) {
    exists p <- prefixes :: p <= line
  }

  predicate Drops(rules: Rules, route: string) {
    var line := RouteLine(route);
    line.Some? && (line.value in rules.lines || Starts(line.value, rules.prefixes))
  }

  // ----- stops ---------------------------------------------------------------------------------

  predicate MissingCoordinates(stop: Stop) {
    || stop.lat.Unreadable? || stop.lon.Unreadable?
    || (stop.lat == Number(0.0) && stop.lon == Number(0.0))
  }

  /** The last row of an ID. */
  function StopNamed(stops: seq<Stop>, id: string): (r: Option<Stop>)
    ensures r.Some? ==> r.value in stops && r.value.id == id
    ensures r.None? <==> forall s <- stops :: s.id != id
  {
    if stops == [] then None
    else
      assert stops == stops[..|stops| - 1] + [stops[|stops| - 1]];
      if stops[|stops| - 1].id == id then Some(stops[|stops| - 1]) else StopNamed(stops[..|stops| - 1], id)
  }

  /** A stop whose calls are dropped: it has no coordinates, or the station it names has none. */
  predicate Invalid(stops: seq<Stop>, id: string) {
    var stop := StopNamed(stops, id);
    stop.Some? &&
    (MissingCoordinates(stop.value) ||
     (stop.value.parent != "" &&
      var parent := StopNamed(stops, stop.value.parent);
      parent.None? || MissingCoordinates(parent.value)))
  }

  // ----- what is kept --------------------------------------------------------------------------

  /** Some row of the trip is on a route that stays. */
  predicate Runs(feed: Feed, rules: Rules, trip: string) {
    exists t <- feed.trips :: t.id == trip && !RemovedRoute(feed, rules, t.route)
  }

  predicate RemovedRoute(feed: Feed, rules: Rules, route: string) {
    Drops(rules, route) && exists r <- feed.routes :: r.id == route
  }

  function ValidCalls(stopTimes: seq<StopTime>, stops: seq<Stop>, trip: string): nat {
    if stopTimes == [] then 0
    else
      var last := stopTimes[|stopTimes| - 1];
      ValidCalls(stopTimes[..|stopTimes| - 1], stops, trip) + if last.trip == trip && !Invalid(stops, last.stop) then 1 else 0
  }

  predicate KeptTrip(feed: Feed, rules: Rules, trip: string) {
    Runs(feed, rules, trip) && ValidCalls(feed.stopTimes, feed.stops, trip) >= 2
  }

  function KeptTimes(feed: Feed, rules: Rules): seq<StopTime> {
    Keep(feed.stopTimes, (t: StopTime) => KeptTrip(feed, rules, t.trip) && !Invalid(feed.stops, t.stop))
  }

  function KeptTrips(feed: Feed, rules: Rules): seq<Trip> {
    Keep(feed.trips, (t: Trip) => KeptTrip(feed, rules, t.id))
  }

  /** The stops, stations, routes, services, shapes, trips and agencies in use. */
  datatype Used = Used(
    stops: set<string>, emitted: set<string>, trips: set<string>, routes: set<string>, services: set<string>,
    shapes: set<string>, agencies: set<string>)

  function UsedStops(times: seq<StopTime>): set<string> {
    set t | t in times :: t.stop
  }

  function UsedParents(stops: seq<Stop>, used: set<string>): set<string> {
    set id | id in used && StopNamed(stops, id).Some? && StopNamed(stops, id).value.parent != "" :: StopNamed(stops, id).value.parent
  }

  function UsedRoutes(trips: seq<Trip>): set<string> {
    set t | t in trips :: t.route
  }

  function UsedServices(trips: seq<Trip>): set<string> {
    set t | t in trips :: t.service
  }

  function UsedShapes(trips: seq<Trip>): set<string> {
    set t | t in trips && t.shape != "" :: t.shape
  }

  function UsedBy(feed: Feed, times: seq<StopTime>, trips: seq<Trip>): Used {
    var stops, routes := UsedStops(times), UsedRoutes(trips);
    Used(stops, stops + UsedParents(feed.stops, stops), set t | t in trips :: t.id, routes,
         UsedServices(trips), UsedShapes(trips), set r | r in feed.routes && r.id in routes :: r.agency)
  }

  predicate KeptTransfer(used: Used, t: Transfer) {
    && t.fromStop in used.emitted && t.toStop in used.emitted
    && (t.fromTrip == "" || t.fromTrip in used.trips) && (t.toTrip == "" || t.toTrip in used.trips)
    && (t.fromRoute == "" || t.fromRoute in used.routes) && (t.toRoute == "" || t.toRoute in used.routes)
  }

  function KeepStops(stops: seq<Stop>, emitted: set<string>): seq<Stop> {
    Keep(stops, (s: Stop) => s.id in emitted)
  }

  function Output(feed: Feed, times: seq<StopTime>, trips: seq<Trip>, used: Used): Feed {
    Feed(KeepStops(feed.stops, used.emitted),
         Keep(feed.routes, (r: Route) => r.id in used.routes),
         trips, times,
         Keep(feed.agencies, (a: Named) => a.id in used.agencies),
         Keep(feed.calendar, (c: Named) => c.id in used.services),
         Keep(feed.calendarDates, (c: Named) => c.id in used.services),
         Keep(feed.shapes, (p: Named) => p.id in used.shapes),
         Keep(feed.transfers, (t: Transfer) => KeptTransfer(used, t)),
         feed.others)
  }

  /** Every stop still called at is in the feed; the filter fails on one that is not. */
  predicate StopsKnown(feed: Feed, rules: Rules) {
    forall t <- KeptTimes(feed, rules) :: StopNamed(feed.stops, t.stop).Some?
  }

  /** The filtered feed, when every stop still called at is known. */
  function Filtered(feed: Feed, rules: Rules): Feed {
    var times, trips := KeptTimes(feed, rules), KeptTrips(feed, rules);
    Output(feed, times, trips, UsedBy(feed, times, trips))
  }

  // ----- filtering what is filtered ------------------------------------------------------------

  lemma {:induction false} KeepKeep<T(!new)>(rows: seq<T>, f: T -> bool, g: T -> bool, h: T -> bool)
    requires forall x <- rows :: h(x) <==> f(x) && g(x)
    ensures Keep(Keep(rows, f), g) == Keep(rows, h)
  {
    if rows != [] {
      var front, last := rows[..|rows| - 1], rows[|rows| - 1];
      assert rows == front + [last];
      KeepKeep(front, f, g, h);
      var kept := Keep(front, f);
      if f(last) {
        assert (kept + [last])[..|kept|] == kept;
      }
    }
  }

  lemma {:induction false} KeepSame<T(!new)>(rows: seq<T>, f: T -> bool, g: T -> bool)
    requires forall x <- rows :: f(x) <==> g(x)
    ensures Keep(rows, f) == Keep(rows, g)
  {
    if rows != [] {
      assert rows == rows[..|rows| - 1] + [rows[|rows| - 1]];
      KeepSame(rows[..|rows| - 1], f, g);
    }
  }

  /** Both rules at once. */
  function Both(a: Rules, b: Rules): Rules {
    Rules(a.lines + b.lines, a.prefixes + b.prefixes)
  }

  lemma DropsBoth(a: Rules, b: Rules, route: string)
    ensures Drops(Both(a, b), route) <==> Drops(a, route) || Drops(b, route)
  {
    assert forall p :: p in a.prefixes + b.prefixes <==> p in a.prefixes || p in b.prefixes;
  }

  lemma {:induction false} StopNamedKept(stops: seq<Stop>, emitted: set<string>, id: string)
    requires id in emitted
    ensures StopNamed(KeepStops(stops, emitted), id) == StopNamed(stops, id)
  {
    if stops != [] {
      var front, last := stops[..|stops| - 1], stops[|stops| - 1];
      var kept := KeepStops(front, emitted);
      StopNamedKept(front, emitted, id);
      assert (kept + [last])[..|kept|] == kept;
    }
  }

  /** A used stop is valid in the filtered feed as it was before. */
  lemma InvalidKept(feed: Feed, rules: Rules, id: string)
    requires StopsKnown(feed, rules)
    requires id in UsedBy(feed, KeptTimes(feed, rules), KeptTrips(feed, rules)).stops
    ensures !Invalid(feed.stops, id) && !Invalid(Filtered(feed, rules).stops, id)
    ensures StopNamed(Filtered(feed, rules).stops, id) == StopNamed(feed.stops, id)
  {
    var times := KeptTimes(feed, rules);
    var used := UsedBy(feed, times, KeptTrips(feed, rules));
    var t :| t in times && t.stop == id;
    var stop := StopNamed(feed.stops, id);
    StopNamedKept(feed.stops, used.emitted, id);
    if stop.value.parent != "" {
      assert stop.value.parent in UsedParents(feed.stops, used.stops);
      StopNamedKept(feed.stops, used.emitted, stop.value.parent);
    }
  }

  lemma RemovedKept(feed: Feed, rules: Rules, more: Rules, route: string)
    requires route in UsedRoutes(KeptTrips(feed, rules))
    ensures RemovedRoute(Filtered(feed, rules), more, route) <==> RemovedRoute(feed, more, route)
  {
    var used := UsedBy(feed, KeptTimes(feed, rules), KeptTrips(feed, rules));
    var out := Filtered(feed, rules);
    if r :| r in feed.routes && r.id == route {
      assert r in out.routes;
    }
  }

  /** Calls of a kept trip count the same after filtering. */
  lemma {:induction false} ValidCallsKept(feed: Feed, rules: Rules, times: seq<StopTime>, trip: string)
    requires StopsKnown(feed, rules) && KeptTrip(feed, rules, trip)
    requires forall t <- times :: t in feed.stopTimes
    ensures var kept := Keep(times, (t: StopTime) => KeptTrip(feed, rules, t.trip) && !Invalid(feed.stops, t.stop));
            ValidCalls(kept, Filtered(feed, rules).stops, trip) == ValidCalls(times, feed.stops, trip)
  {
    if times != [] {
      var front, last := times[..|times| - 1], times[|times| - 1];
      assert times == front + [last];
      ValidCallsKept(feed, rules, front, trip);
      var keep := (t: StopTime) => KeptTrip(feed, rules, t.trip) && !Invalid(feed.stops, t.stop);
      var kept := Keep(front, keep);
      if keep(last) {
        assert (kept + [last])[..|kept|] == kept;
        assert last in KeptTimes(feed, rules);
        InvalidKept(feed, rules, last.stop);
      }
    }
  }

  /** A trip on routes of both rules' lines alone is dropped by neither: it has a row off both, or rows
      on one only. */
  ghost predicate RowsAgree(feed: Feed, a: Rules, b: Rules) {
    forall trip | Runs(feed, a, trip) && Runs(feed, b, trip) :: Runs(feed, Both(a, b), trip)
  }

  lemma RunsKept(feed: Feed, a: Rules, b: Rules, trip: string)
    requires RowsAgree(feed, a, b)
    ensures KeptTrip(feed, a, trip) ==> (Runs(Filtered(feed, a), b, trip) <==> Runs(feed, Both(a, b), trip))
    ensures Runs(feed, Both(a, b), trip) ==> Runs(feed, a, trip)
    ensures !KeptTrip(feed, a, trip) ==> !Runs(Filtered(feed, a), b, trip)
  {
    var out := Filtered(feed, a);
    if t :| t in feed.trips && t.id == trip && !RemovedRoute(feed, Both(a, b), t.route) {
      DropsBoth(a, b, t.route);
      assert !RemovedRoute(feed, a, t.route) && !RemovedRoute(feed, b, t.route);
      if KeptTrip(feed, a, trip) {
        assert t in out.trips;
        RemovedKept(feed, a, b, t.route);
      }
    }
    if t :| t in out.trips && t.id == trip && !RemovedRoute(out, b, t.route) {
      assert t in feed.trips && KeptTrip(feed, a, trip);
      RemovedKept(feed, a, b, t.route);
      assert Runs(feed, b, trip);
    }
  }

  lemma TripKeptTwice(feed: Feed, a: Rules, b: Rules, trip: string)
    requires StopsKnown(feed, a) && RowsAgree(feed, a, b)
    ensures KeptTrip(Filtered(feed, a), b, trip) <==> KeptTrip(feed, Both(a, b), trip)
  {
    RunsKept(feed, a, b, trip);
    if KeptTrip(feed, a, trip) {
      ValidCallsKept(feed, a, feed.stopTimes, trip);
    }
  }

  lemma TimesKeptTwice(feed: Feed, a: Rules, b: Rules)
    requires StopsKnown(feed, a) && RowsAgree(feed, a, b)
    ensures KeptTimes(Filtered(feed, a), b) == KeptTimes(feed, Both(a, b))
  {
    var out := Filtered(feed, a);
    forall t | t in feed.stopTimes
      ensures (KeptTrip(feed, Both(a, b), t.trip) && !Invalid(feed.stops, t.stop)) <==>
              ((KeptTrip(feed, a, t.trip) && !Invalid(feed.stops, t.stop)) && (KeptTrip(out, b, t.trip) && !Invalid(out.stops, t.stop)))
    {
      TripKeptTwice(feed, a, b, t.trip);
      RunsKept(feed, a, b, t.trip);
      if KeptTrip(feed, a, t.trip) && !Invalid(feed.stops, t.stop) {
        assert t in KeptTimes(feed, a);
        InvalidKept(feed, a, t.stop);
      }
    }
    KeepKeep(feed.stopTimes, (t: StopTime) => KeptTrip(feed, a, t.trip) && !Invalid(feed.stops, t.stop),
             (t: StopTime) => KeptTrip(out, b, t.trip) && !Invalid(out.stops, t.stop),
             (t: StopTime) => KeptTrip(feed, Both(a, b), t.trip) && !Invalid(feed.stops, t.stop));
  }

  lemma TripsKeptTwice(feed: Feed, a: Rules, b: Rules)
    requires StopsKnown(feed, a) && RowsAgree(feed, a, b)
    ensures KeptTrips(Filtered(feed, a), b) == KeptTrips(feed, Both(a, b))
  {
    var out := Filtered(feed, a);
    forall t | t in feed.trips
      ensures KeptTrip(feed, Both(a, b), t.id) <==> KeptTrip(feed, a, t.id) && KeptTrip(out, b, t.id)
    {
      TripKeptTwice(feed, a, b, t.id);
      RunsKept(feed, a, b, t.id);
    }
    KeepKeep(feed.trips, (t: Trip) => KeptTrip(feed, a, t.id), (t: Trip) => KeptTrip(out, b, t.id),
             (t: Trip) => KeptTrip(feed, Both(a, b), t.id));
  }

  /** What is in use of fewer rows is in use of more. */
  ghost predicate Within(u: Used, v: Used) {
    u.stops <= v.stops && u.emitted <= v.emitted && u.trips <= v.trips && u.routes <= v.routes
    && u.services <= v.services && u.shapes <= v.shapes && u.agencies <= v.agencies
  }

  lemma UsedWithin(feed: Feed, times: seq<StopTime>, trips: seq<Trip>, moreTimes: seq<StopTime>, moreTrips: seq<Trip>)
    requires (forall t <- times :: t in moreTimes) && (forall t <- trips :: t in moreTrips)
    ensures Within(UsedBy(feed, times, trips), UsedBy(feed, moreTimes, moreTrips))
  {
  }

  /** What is in use of kept rows is the same in the filtered feed. */
  lemma UsedKept(feed: Feed, a: Rules, times: seq<StopTime>, trips: seq<Trip>)
    requires StopsKnown(feed, a)
    requires (forall t <- times :: t in KeptTimes(feed, a)) && (forall t <- trips :: t in KeptTrips(feed, a))
    ensures UsedBy(Filtered(feed, a), times, trips) == UsedBy(feed, times, trips)
  {
    var out := Filtered(feed, a);
    var used := UsedBy(feed, KeptTimes(feed, a), KeptTrips(feed, a));
    var stops := UsedStops(times);
    forall id | id in stops ensures StopNamed(out.stops, id) == StopNamed(feed.stops, id) {
      assert id in used.stops;
      InvalidKept(feed, a, id);
    }
    assert UsedParents(out.stops, stops) == UsedParents(feed.stops, stops);
    forall r | r in feed.routes && r.id in UsedRoutes(trips) ensures r in out.routes {
      assert r.id in used.routes;
    }
  }

  lemma OutputTwice(feed: Feed, times: seq<StopTime>, trips: seq<Trip>, moreTimes: seq<StopTime>, moreTrips: seq<Trip>, used: Used, more: Used)
    requires Within(used, more)
    ensures Output(Output(feed, moreTimes, moreTrips, more), times, trips, used) == Output(feed, times, trips, used)
  {
    KeepKeep(feed.stops, (s: Stop) => s.id in more.emitted, (s: Stop) => s.id in used.emitted, (s: Stop) => s.id in used.emitted);
    KeepKeep(feed.routes, (r: Route) => r.id in more.routes, (r: Route) => r.id in used.routes, (r: Route) => r.id in used.routes);
    KeepKeep(feed.agencies, (a: Named) => a.id in more.agencies, (a: Named) => a.id in used.agencies, (a: Named) => a.id in used.agencies);
    KeepKeep(feed.calendar, (c: Named) => c.id in more.services, (c: Named) => c.id in used.services, (c: Named) => c.id in used.services);
    KeepKeep(feed.calendarDates, (c: Named) => c.id in more.services, (c: Named) => c.id in used.services, (c: Named) => c.id in used.services);
    KeepKeep(feed.shapes, (p: Named) => p.id in more.shapes, (p: Named) => p.id in used.shapes, (p: Named) => p.id in used.shapes);
    KeepKeep(feed.transfers, (t: Transfer) => KeptTransfer(more, t), (t: Transfer) => KeptTransfer(used, t), (t: Transfer) => KeptTransfer(used, t));
  }

  /** Filtering a filtered feed by further rules gives what both rules at once give. */
  lemma FilterTwice(feed: Feed, a: Rules, b: Rules)
    requires StopsKnown(feed, a) && RowsAgree(feed, a, b)
    ensures StopsKnown(Filtered(feed, a), b) && StopsKnown(feed, Both(a, b))
    ensures Filtered(Filtered(feed, a), b) == Filtered(feed, Both(a, b))
  {
    var out := Filtered(feed, a);
    TimesKeptTwice(feed, a, b);
    TripsKeptTwice(feed, a, b);
    var times, trips := KeptTimes(feed, Both(a, b)), KeptTrips(feed, Both(a, b));
    assert forall t <- times :: t in KeptTimes(feed, a);
    assert forall t <- trips :: t in KeptTrips(feed, a);
    UsedKept(feed, a, times, trips);
    UsedWithin(feed, times, trips, KeptTimes(feed, a), KeptTrips(feed, a));
    OutputTwice(feed, times, trips, KeptTimes(feed, a), KeptTrips(feed, a), UsedBy(feed, times, trips),
                UsedBy(feed, KeptTimes(feed, a), KeptTrips(feed, a)));
    forall t | t in times ensures StopNamed(out.stops, t.stop).Some? {
      assert t.stop in UsedBy(feed, KeptTimes(feed, a), KeptTrips(feed, a)).stops;
      InvalidKept(feed, a, t.stop);
    }
  }

  lemma SameRules(feed: Feed, a: Rules, b: Rules)
    requires forall route :: Drops(a, route) <==> Drops(b, route)
    ensures KeptTimes(feed, a) == KeptTimes(feed, b) && KeptTrips(feed, a) == KeptTrips(feed, b)
    ensures Filtered(feed, a) == Filtered(feed, b)
  {
    assert forall trip :: KeptTrip(feed, a, trip) <==> KeptTrip(feed, b, trip);
    KeepSame(feed.stopTimes, (t: StopTime) => KeptTrip(feed, a, t.trip) && !Invalid(feed.stops, t.stop),
             (t: StopTime) => KeptTrip(feed, b, t.trip) && !Invalid(feed.stops, t.stop));
    KeepSame(feed.trips, (t: Trip) => KeptTrip(feed, a, t.id), (t: Trip) => KeptTrip(feed, b, t.id));
  }

  /** Filtering an already filtered feed changes no row of any file. */
  lemma FilterIdempotent(feed: Feed, rules: Rules)
    requires StopsKnown(feed, rules)
    ensures StopsKnown(Filtered(feed, rules), rules)
    ensures Filtered(Filtered(feed, rules), rules) == Filtered(feed, rules)
  {
    forall route ensures Drops(rules, route) <==> Drops(Both(rules, rules), route) {
      DropsBoth(rules, rules, route);
    }
    SameRules(feed, rules, Both(rules, rules));
    FilterTwice(feed, rules, rules);
  }

  /** No trip ID twice. */
  ghost predicate TripsUnique(feed: Feed) {
    forall i, j | 0 <= i < j < |feed.trips| :: feed.trips[i].id != feed.trips[j].id
  }

  lemma UniqueRowsAgree(feed: Feed, a: Rules, b: Rules)
    requires TripsUnique(feed)
    ensures RowsAgree(feed, a, b)
  {
    forall trip | Runs(feed, a, trip) && Runs(feed, b, trip) ensures Runs(feed, Both(a, b), trip) {
      var t :| t in feed.trips && t.id == trip && !RemovedRoute(feed, a, t.route);
      var u :| u in feed.trips && u.id == trip && !RemovedRoute(feed, b, u.route);
      assert t == u;
      DropsBoth(a, b, t.route);
    }
  }

  // ----- the filter ----------------------------------------------------------------------------

  method Write<T(!new)>(rows: seq<T>, keep: T -> bool) returns (written: seq<T>)
    ensures written == Keep(rows, keep)
  {
    written := [];
    for i := 0 to |rows|
      invariant written == Keep(rows[..i], keep)
    {
      assert rows[..i + 1][..i] == rows[..i];
      if keep(rows[i]) {
        written := written + [rows[i]];
      }
    }
    assert rows[..|rows|] == rows;
  }

  method ReadStops(rows: seq<Stop>) returns (stops: map<string, Stop>)
    ensures forall id :: StopNamed(rows, id) == if id in stops then Some(stops[id]) else None
  {
    stops := map[];
    for i := 0 to |rows|
      invariant forall id :: StopNamed(rows[..i], id) == if id in stops then Some(stops[id]) else None
    {
      assert rows[..i + 1][..i] == rows[..i];
      stops := stops[rows[i].id := rows[i]];
    }
    assert rows[..|rows|] == rows;
  }

  method InvalidStops(rows: seq<Stop>, stops: map<string, Stop>) returns (invalid: set<string>)
    requires forall id :: StopNamed(rows, id) == if id in stops then Some(stops[id]) else None
    ensures forall id :: id in invalid <==> Invalid(rows, id)
  {
    invalid := set id | id in stops &&
      (MissingCoordinates(stops[id]) ||
       (stops[id].parent != "" && (stops[id].parent !in stops || MissingCoordinates(stops[stops[id].parent]))));
  }

  method RemovedRoutes(feed: Feed, rules: Rules) returns (removed: set<string>, lines: set<string>)
    ensures forall id :: id in removed <==> RemovedRoute(feed, rules, id)
    ensures forall line :: line in lines <==> exists r <- feed.routes :: Drops(rules, r.id) && RouteLine(r.id) == Some(line)
  {
    removed, lines := {}, {};
    for i := 0 to |feed.routes|
      invariant forall id :: id in removed <==> Drops(rules, id) && exists r <- feed.routes[..i] :: r.id == id
      invariant forall line :: line in lines <==>
                  exists r <- feed.routes[..i] :: Drops(rules, r.id) && RouteLine(r.id) == Some(line)
    {
      var row := feed.routes[i];
      assert forall r :: r in feed.routes[..i + 1] <==> r in feed.routes[..i] || r == row;
      var line := RouteLine(row.id);
      if line.Some? && (line.value in rules.lines || Starts(line.value, rules.prefixes)) {
        removed := removed + {row.id};
        lines := lines + {line.value};
      }
    }
    assert feed.routes[..|feed.routes|] == feed.routes;
  }

  method RunningTrips(feed: Feed, rules: Rules, removed: set<string>) returns (running: set<string>, byLine: nat)
    requires forall id :: id in removed <==> RemovedRoute(feed, rules, id)
    ensures forall id :: id in running <==> Runs(feed, rules, id)
    ensures byLine == |Keep(feed.trips, (t: Trip) => RemovedRoute(feed, rules, t.route))|
  {
    running, byLine := {}, 0;
    for i := 0 to |feed.trips|
      invariant forall id :: id in running <==> exists t <- feed.trips[..i] :: t.id == id && !RemovedRoute(feed, rules, t.route)
      invariant byLine == |Keep(feed.trips[..i], (t: Trip) => RemovedRoute(feed, rules, t.route))|
    {
      var row := feed.trips[i];
      assert feed.trips[..i + 1][..i] == feed.trips[..i];
      assert forall t :: t in feed.trips[..i + 1] <==> t in feed.trips[..i] || t == row;
      if row.route !in removed {
        running := running + {row.id};
      } else {
        byLine := byLine + 1;
      }
    }
    assert feed.trips[..|feed.trips|] == feed.trips;
  }

  function Tally(counts: map<string, nat>, id: string): nat {
    if id in counts then counts[id] else 0
  }

  method CountCalls(feed: Feed, running: set<string>, invalid: set<string>) returns (valid: map<string, nat>)
    requires forall id :: id in invalid <==> Invalid(feed.stops, id)
    ensures forall id :: id in running ==> Tally(valid, id) == ValidCalls(feed.stopTimes, feed.stops, id)
  {
    valid := map[];
    for i := 0 to |feed.stopTimes|
      invariant forall id :: id in running ==> Tally(valid, id) == ValidCalls(feed.stopTimes[..i], feed.stops, id)
    {
      var row := feed.stopTimes[i];
      assert feed.stopTimes[..i + 1][..i] == feed.stopTimes[..i];
      if row.trip in running && row.stop !in invalid {
        valid := valid[row.trip := Tally(valid, row.trip) + 1];
      }
    }
    assert feed.stopTimes[..|feed.stopTimes|] == feed.stopTimes;
  }

  predicate Dropped(feed: Feed, rules: Rules, t: StopTime) {
    KeptTrip(feed, rules, t.trip) && Invalid(feed.stops, t.stop)
  }

  method WriteTimes(feed: Feed, rules: Rules, kept: set<string>, invalid: set<string>)
    returns (times: seq<StopTime>, used: set<string>, dropped: nat)
    requires forall id :: id in kept <==> KeptTrip(feed, rules, id)
    requires forall id :: id in invalid <==> Invalid(feed.stops, id)
    ensures times == KeptTimes(feed, rules) && used == UsedStops(times)
    ensures dropped == |Keep(feed.stopTimes, (t: StopTime) => Dropped(feed, rules, t))|
  {
    times, used, dropped := [], {}, 0;
    for i := 0 to |feed.stopTimes|
      invariant times == Keep(feed.stopTimes[..i], (t: StopTime) => KeptTrip(feed, rules, t.trip) && !Invalid(feed.stops, t.stop))
      invariant used == UsedStops(times)
      invariant dropped == |Keep(feed.stopTimes[..i], (t: StopTime) => Dropped(feed, rules, t))|
    {
      var row := feed.stopTimes[i];
      assert feed.stopTimes[..i + 1][..i] == feed.stopTimes[..i];
      if row.trip in kept {
        if row.stop in invalid {
          dropped := dropped + 1;
        } else {
          used := used + {row.stop};
          times := times + [row];
        }
      }
    }
    assert feed.stopTimes[..|feed.stopTimes|] == feed.stopTimes;
  }

  lemma UsedMore(trips: seq<Trip>, row: Trip)
    ensures UsedRoutes(trips + [row]) == UsedRoutes(trips) + {row.route}
    ensures UsedServices(trips + [row]) == UsedServices(trips) + {row.service}
    ensures UsedShapes(trips + [row]) == UsedShapes(trips) + if row.shape != "" then {row.shape} else {}
  {
  }

  lemma KeepNext<T(!new)>(rows: seq<T>, i: int, keep: T -> bool)
    requires 0 <= i < |rows|
    ensures Keep(rows[..i + 1], keep) == Keep(rows[..i], keep) + if keep(rows[i]) then [rows[i]] else []
  {
    assert rows[..i + 1][..i] == rows[..i];
  }

  method WriteTrips(feed: Feed, rules: Rules, kept: set<string>)
    returns (trips: seq<Trip>, routes: set<string>, services: set<string>, shapes: set<string>)
    requires forall id :: id in kept <==> KeptTrip(feed, rules, id)
    ensures trips == KeptTrips(feed, rules) && routes == UsedRoutes(trips)
    ensures services == UsedServices(trips) && shapes == UsedShapes(trips)
  {
    trips, routes, services, shapes := [], {}, {}, {};
    for i := 0 to |feed.trips|
      invariant trips == Keep(feed.trips[..i], (t: Trip) => KeptTrip(feed, rules, t.id)) && routes == UsedRoutes(trips)
      invariant services == UsedServices(trips) && shapes == UsedShapes(trips)
    {
      var row := feed.trips[i];
      KeepNext(feed.trips, i, (t: Trip) => KeptTrip(feed, rules, t.id));
      if row.id in kept {
        UsedMore(trips, row);
        routes := routes + {row.route};
        services := services + {row.service};
        if row.shape != "" {
          shapes := shapes + {row.shape};
        }
        trips := trips + [row];
      }
    }
    assert feed.trips[..|feed.trips|] == feed.trips;
  }

  datatype Report = Report(
    routesRemoved: nat,
    removedLines: set<string>,
    routesKept: nat,
    tripsKept: nat,
    stopsKept: nat,
    stopsWithoutCoordinates: nat,
    tripsRemovedByLine: nat,
    tripsRemovedTooFewCalls: nat,
    callsRemoved: nat,
    copied: set<string>)

  /** Which trips stay, and the counts so far. */
  method DecideTrips(feed: Feed, rules: Rules, invalid: set<string>) returns (kept: set<string>, report: Report)
    requires forall id :: id in invalid <==> Invalid(feed.stops, id)
    ensures forall id :: id in kept <==> KeptTrip(feed, rules, id)
    ensures TripsReported(feed, rules, report)
  {
    var removed, lines := RemovedRoutes(feed, rules);
    var running, byLine := RunningTrips(feed, rules, removed);
    var valid := CountCalls(feed, running, invalid);
    kept := set id | id in running && Tally(valid, id) >= 2;
    assert kept == KeptIds(feed, rules) && running == RunningIds(feed, rules);
    assert removed == RemovedIds(feed, rules) && invalid == InvalidIds(feed.stops);
    report := Report(|removed|, lines, 0, |kept|, 0, |invalid|, byLine, |running - kept|, 0, {});
  }

  /** What the kept rows use, once every stop they call at is known. */
  method InUse(feed: Feed, rules: Rules, stops: map<string, Stop>, kept: set<string>, times: seq<StopTime>, usedStops: set<string>)
    returns (trips: seq<Trip>, used: Used)
    requires forall id :: StopNamed(feed.stops, id) == if id in stops then Some(stops[id]) else None
    requires forall id :: id in kept <==> KeptTrip(feed, rules, id)
    requires usedStops == UsedStops(times) && usedStops <= stops.Keys
    ensures trips == KeptTrips(feed, rules) && used == UsedBy(feed, times, trips)
  {
    var routes, services, shapes;
    trips, routes, services, shapes := WriteTrips(feed, rules, kept);
    var agencies := set r | r in feed.routes && r.id in routes :: r.agency;
    var parents := set id | id in usedStops && stops[id].parent != "" :: stops[id].parent;
    assert parents == UsedParents(feed.stops, usedStops);
    TripIds(feed, rules);
    assert kept == set t | t in trips :: t.id;
    used := Used(usedStops, usedStops + parents, kept, routes, services, shapes, agencies);
  }

  /** The filtered feed and its counts. A call at a stop the feed does not have fails the filter. */
  method FilterGtfs(feed: Feed, rules: Rules) returns (r: Result<(Feed, Report)>)
    ensures r.Success? <==> StopsKnown(feed, rules)
    ensures r.UnknownStop? ==> exists t <- KeptTimes(feed, rules) :: t.stop == r.id && StopNamed(feed.stops, t.stop).None?
    ensures r.Success? ==> r.value.0 == Filtered(feed, rules) && Reported(feed, rules, r.value.1)
  {
    var stops := ReadStops(feed.stops);
    var invalid := InvalidStops(feed.stops, stops);
    var kept, report := DecideTrips(feed, rules, invalid);
    var times, usedStops, dropped := WriteTimes(feed, rules, kept, invalid);
    if unknown :| unknown in usedStops && unknown !in stops {
      var t :| t in times && t.stop == unknown;
      return UnknownStop(unknown);
    }
    forall t | t in times ensures StopNamed(feed.stops, t.stop).Some? {
      assert t.stop in usedStops;
    }
    var trips, used := InUse(feed, rules, stops, kept, times, usedStops);
    var out := WriteOthers(feed, times, trips, used);
    return Success((out, report.(routesKept := |used.routes|, stopsKept := |used.emitted|, callsRemoved := dropped,
                                 copied := feed.others.Keys)));
  }

  lemma TripIds(feed: Feed, rules: Rules)
    ensures forall id :: KeptTrip(feed, rules, id) <==> exists t <- KeptTrips(feed, rules) :: t.id == id
  {
    forall id | KeptTrip(feed, rules, id) ensures exists t <- KeptTrips(feed, rules) :: t.id == id {
      var t :| t in feed.trips && t.id == id && !RemovedRoute(feed, rules, t.route);
      assert t in KeptTrips(feed, rules);
    }
  }

  method WriteOthers(feed: Feed, times: seq<StopTime>, trips: seq<Trip>, used: Used) returns (out: Feed)
    ensures out == Output(feed, times, trips, used)
  {
    var stops := Write(feed.stops, (s: Stop) => s.id in used.emitted);
    var routes := Write(feed.routes, (r: Route) => r.id in used.routes);
    var agencies := Write(feed.agencies, (a: Named) => a.id in used.agencies);
    var calendar := Write(feed.calendar, (c: Named) => c.id in used.services);
    var calendarDates := Write(feed.calendarDates, (c: Named) => c.id in used.services);
    var shapes := Write(feed.shapes, (p: Named) => p.id in used.shapes);
    var transfers := Write(feed.transfers, (t: Transfer) => KeptTransfer(used, t));
    out := Feed(stops, routes, trips, times, agencies, calendar, calendarDates, shapes, transfers, feed.others);
  }

  function KeptIds(feed: Feed, rules: Rules): set<string> {
    set t | t in feed.trips && KeptTrip(feed, rules, t.id) :: t.id
  }

  function RunningIds(feed: Feed, rules: Rules): set<string> {
    set t | t in feed.trips && Runs(feed, rules, t.id) :: t.id
  }

  function RemovedIds(feed: Feed, rules: Rules): set<string> {
    set r | r in feed.routes && RemovedRoute(feed, rules, r.id) :: r.id
  }

  function InvalidIds(stops: seq<Stop>): (ids: set<string>)
    ensures forall id :: id in ids <==> Invalid(stops, id)
  {
    set s | s in stops && Invalid(stops, s.id) :: s.id
  }

  /** What the counts of routes, stops and trips left out say. */
  ghost predicate TripsReported(feed: Feed, rules: Rules, report: Report) {
    && report.routesRemoved == |RemovedIds(feed, rules)|
    && report.stopsWithoutCoordinates == |InvalidIds(feed.stops)|
    && (forall line :: line in report.removedLines <==>
          exists r <- feed.routes :: Drops(rules, r.id) && RouteLine(r.id) == Some(line))
    && report.tripsKept == |KeptIds(feed, rules)|
    && report.tripsRemovedByLine == |Keep(feed.trips, (t: Trip) => RemovedRoute(feed, rules, t.route))|
    && report.tripsRemovedTooFewCalls == |RunningIds(feed, rules) - KeptIds(feed, rules)|
  }

  ghost predicate Reported(feed: Feed, rules: Rules, report: Report) {
    && TripsReported(feed, rules, report)
    && report.routesKept == |UsedRoutes(KeptTrips(feed, rules))|
    && report.stopsKept == |UsedBy(feed, KeptTimes(feed, rules), KeptTrips(feed, rules)).emitted|
    && report.copied == feed.others.Keys
    && report.callsRemoved == |Keep(feed.stopTimes, (t: StopTime) => Dropped(feed, rules, t))|
  }

  // ----- conservation --------------------------------------------------------------------------

  lemma {:induction false} KeepSplit<T(!new)>(rows: seq<T>, f: T -> bool, g: T -> bool, h: T -> bool)
    requires forall x <- rows :: h(x) <==> (f(x) || g(x))
    requires forall x <- rows :: !(f(x) && g(x))
    ensures |Keep(rows, h)| == |Keep(rows, f)| + |Keep(rows, g)|
  {
    if rows != [] {
      assert rows == rows[..|rows| - 1] + [rows[|rows| - 1]];
      KeepSplit(rows[..|rows| - 1], f, g, h);
    }
  }

  lemma {:induction false} KeepAll<T(!new)>(rows: seq<T>, f: T -> bool)
    requires forall x <- rows :: f(x)
    ensures Keep(rows, f) == rows
  {
    if rows != [] {
      assert rows == rows[..|rows| - 1] + [rows[|rows| - 1]];
      KeepAll(rows[..|rows| - 1], f);
    }
  }

  function IdsThat(trips: seq<Trip>, f: Trip -> bool): set<string> {
    set t | t in trips && f(t) :: t.id
  }

  lemma {:induction false} IdsCount(trips: seq<Trip>, f: Trip -> bool)
    requires forall i, j | 0 <= i < j < |trips| :: trips[i].id != trips[j].id
    ensures |IdsThat(trips, f)| == |Keep(trips, f)|
  {
    if trips != [] {
      var front, last := trips[..|trips| - 1], trips[|trips| - 1];
      assert trips == front + [last];
      IdsCount(front, f);
      assert IdsThat(trips, f) == IdsThat(front, f) + if f(last) then {last.id} else {};
      assert last.id !in IdsThat(front, f);
    } else {
      assert IdsThat(trips, f) == {};
    }
  }

  lemma TripCounts(feed: Feed, rules: Rules)
    requires TripsUnique(feed)
    ensures |KeptIds(feed, rules)| == |KeptTrips(feed, rules)|
    ensures |RunningIds(feed, rules) - KeptIds(feed, rules)| ==
            |Keep(feed.trips, (t: Trip) => Runs(feed, rules, t.id) && !KeptTrip(feed, rules, t.id))|
  {
    var kept, few := (t: Trip) => KeptTrip(feed, rules, t.id), (t: Trip) => Runs(feed, rules, t.id) && !KeptTrip(feed, rules, t.id);
    IdsCount(feed.trips, kept);
    IdsCount(feed.trips, few);
    assert KeptIds(feed, rules) == IdsThat(feed.trips, kept);
    assert RunningIds(feed, rules) - KeptIds(feed, rules) == IdsThat(feed.trips, few);
  }

  lemma RunsOrRemoved(feed: Feed, rules: Rules)
    requires TripsUnique(feed)
    ensures forall t <- feed.trips :: Runs(feed, rules, t.id) <==> !RemovedRoute(feed, rules, t.route)
  {
    forall t | t in feed.trips ensures Runs(feed, rules, t.id) <==> !RemovedRoute(feed, rules, t.route) {
      if u :| u in feed.trips && u.id == t.id && !RemovedRoute(feed, rules, u.route) {
        assert u == t;
      }
    }
  }

  lemma TripsSplit(feed: Feed, rules: Rules)
    requires TripsUnique(feed)
    ensures |feed.trips| == |Keep(feed.trips, (t: Trip) => RemovedRoute(feed, rules, t.route))|
            + |Keep(feed.trips, (t: Trip) => Runs(feed, rules, t.id) && !KeptTrip(feed, rules, t.id))|
            + |KeptTrips(feed, rules)|
  {
    var kept, few := (t: Trip) => KeptTrip(feed, rules, t.id), (t: Trip) => Runs(feed, rules, t.id) && !KeptTrip(feed, rules, t.id);
    var runs := (t: Trip) => Runs(feed, rules, t.id);
    RunsOrRemoved(feed, rules);
    KeepSplit(feed.trips, kept, few, runs);
    KeepSplit(feed.trips, (t: Trip) => RemovedRoute(feed, rules, t.route), runs, (t: Trip) => true);
    KeepAll(feed.trips, (t: Trip) => true);
  }

  /** No row goes uncounted: trips are kept, removed by line or left with too few calls, and the calls
      of kept trips are kept or removed for want of coordinates. */
  lemma FilterConserves(feed: Feed, rules: Rules, report: Report)
    requires TripsUnique(feed) && Reported(feed, rules, report)
    ensures report.tripsKept == |KeptTrips(feed, rules)|
    ensures |feed.trips| == report.tripsRemovedByLine + report.tripsRemovedTooFewCalls + report.tripsKept
    ensures |Keep(feed.stopTimes, (t: StopTime) => KeptTrip(feed, rules, t.trip))| == |KeptTimes(feed, rules)| + report.callsRemoved
  {
    TripCounts(feed, rules);
    TripsSplit(feed, rules);
    KeepSplit(feed.stopTimes, (t: StopTime) => KeptTrip(feed, rules, t.trip) && !Invalid(feed.stops, t.stop),
              (t: StopTime) => Dropped(feed, rules, t), (t: StopTime) => KeptTrip(feed, rules, t.trip));
  }

  // ----- the stop verifier ---------------------------------------------------------------------

  predicate IsSpace(c: char) {
    c == ' ' || c == '\t' || c == '\n' || c == '\r'
  }

  function StripLeft(text: string): string {
    if text != [] && IsSpace(text[0]) then StripLeft(text[1..]) else text
  }

  function StripRight(text: string): string {
    if text != [] && IsSpace(text[|text| - 1]) then StripRight(text[..|text| - 1]) else text
  }

  function Strip(text: string): string {
    StripRight(StripLeft(text))
  }

  predicate InRange(stop: Stop) {
    && stop.lat.Number? && stop.lon.Number?
    && -90.0 <= stop.lat.value <= 90.0 && -180.0 <= stop.lon.value <= 180.0
  }

  function Referenced(times: seq<StopTime>): set<string> {
    set t | t in times :: Strip(t.stop)
  }

  function Emitted(stops: seq<Stop>): set<string> {
    set s | s in stops :: Strip(s.id)
  }

  function Boarding(stops: seq<Stop>): set<string> {
    set s | s in stops && Strip(s.kind) != "1" :: Strip(s.id)
  }

  function ParentIds(stops: seq<Stop>): set<string> {
    set s | s in stops && Strip(s.parent) != "" :: Strip(s.parent)
  }

  /** Every stop time names a stop; stops have an ID of their own and coordinates in range; what is called
      at is emitted, what can be boarded is called at, parents are emitted and stations are parents. */
  ghost predicate StopsVerified(times: seq<StopTime>, stops: seq<Stop>) {
    && (forall t <- times :: Strip(t.stop) != "")
    && StopRowsVerified(stops)
    && Referenced(times) <= Emitted(stops) && Boarding(stops) <= Referenced(times)
    && ParentIds(stops) <= Emitted(stops) && Emitted(stops) - Boarding(stops) <= ParentIds(stops)
  }

  ghost predicate StopRowsVerified(stops: seq<Stop>) {
    && (forall s <- stops :: Strip(s.id) != "" && InRange(s))
    && (forall i, j | 0 <= i < j < |stops| :: Strip(stops[i].id) != Strip(stops[j].id))
  }

  datatype Verdict =
    | Verified(unresolved: seq<string>)
    | StopTimeWithoutStop
    | BlankOrDuplicateStop(id: string)
    | InvalidCoordinates(id: string)
    | OutOfRange(id: string)
    | Unreachable(dangling: set<string>, unreferenced: set<string>, missingParents: set<string>, extraStations: set<string>)

  /** What is wrong with a row after rows of these IDs, if anything. */
  function RowFault(row: Stop, before: set<string>): Option<Verdict> {
    var id := Strip(row.id);
    if id == "" || id in before then Some(BlankOrDuplicateStop(id))
    else if row.lat.Unreadable? || row.lon.Unreadable? then Some(InvalidCoordinates(id))
    else if !InRange(row) then Some(OutOfRange(id))
    else None
  }

  /** The first row with something wrong, and what it is. */
  ghost predicate FirstFault(stops: seq<Stop>, fault: Verdict) {
    exists i | 0 <= i < |stops| :: StopRowsVerified(stops[..i]) && RowFault(stops[i], Emitted(stops[..i])) == Some(fault)
  }

  lemma FaultFirst(stops: seq<Stop>, i: int, fault: Verdict)
    requires 0 <= i < |stops| && StopRowsVerified(stops[..i]) && RowFault(stops[i], Emitted(stops[..i])) == Some(fault)
    ensures FirstFault(stops, fault) && !StopRowsVerified(stops)
  {
    if Strip(stops[i].id) == "" || Strip(stops[i].id) in Emitted(stops[..i]) {
      BadRow(stops, i);
    } else {
      assert stops[i] in stops;
    }
  }

  /** The stops at 0, 0, in the rows' order. */
  function Unresolved(stops: seq<Stop>): seq<string> {
    if stops == [] then []
    else
      var front, last := Unresolved(stops[..|stops| - 1]), stops[|stops| - 1];
      if last.lat == Number(0.0) && last.lon == Number(0.0) then front + [Strip(last.id)] else front
  }

  /** The stop rows in turn: their IDs, those that can be boarded, their parents and those at 0, 0. */
  method VerifyStopRows(stops: seq<Stop>)
    returns (fault: Option<Verdict>, emitted: set<string>, boarding: set<string>, parents: set<string>, unresolved: seq<string>)
    ensures fault.None? <==> StopRowsVerified(stops)
    ensures fault.Some? ==> FirstFault(stops, fault.value)
    ensures fault.None? ==> emitted == Emitted(stops) && boarding == Boarding(stops) && parents == ParentIds(stops)
    ensures fault.None? ==> unresolved == Unresolved(stops)
  {
    emitted, boarding, parents, unresolved := {}, {}, {}, [];
    fault := None;
    for i := 0 to |stops|
      invariant fault.None? && StopRowsVerified(stops[..i])
      invariant emitted == Emitted(stops[..i]) && boarding == Boarding(stops[..i]) && parents == ParentIds(stops[..i])
      invariant unresolved == Unresolved(stops[..i])
    {
      var row := stops[i];
      var bad := RowFault(row, emitted);
      if bad.Some? {
        FaultFirst(stops, i, bad.value);
        return bad, emitted, boarding, parents, unresolved;
      }
      emitted := emitted + {Strip(row.id)};
      if Strip(row.kind) != "1" {
        boarding := boarding + {Strip(row.id)};
      }
      if Strip(row.parent) != "" {
        parents := parents + {Strip(row.parent)};
      }
      if row.lat.value == 0.0 && row.lon.value == 0.0 {
        unresolved := unresolved + [Strip(row.id)];
      }
      SetsMore(stops, i);
      RowsMore(stops, i);
    }
    assert stops[..|stops|] == stops;
  }

  lemma SetsMore(stops: seq<Stop>, i: int)
    requires 0 <= i < |stops|
    ensures var row := stops[i];
            && Emitted(stops[..i + 1]) == Emitted(stops[..i]) + {Strip(row.id)}
            && Boarding(stops[..i + 1]) == Boarding(stops[..i]) + (if Strip(row.kind) != "1" then {Strip(row.id)} else {})
            && ParentIds(stops[..i + 1]) == ParentIds(stops[..i]) + (if Strip(row.parent) != "" then {Strip(row.parent)} else {})
            && Unresolved(stops[..i + 1]) ==
                 Unresolved(stops[..i]) + (if row.lat == Number(0.0) && row.lon == Number(0.0) then [Strip(row.id)] else [])
  {
    assert stops[..i + 1] == stops[..i] + [stops[i]];
  }

  lemma BadRow(stops: seq<Stop>, i: int)
    requires 0 <= i < |stops| && (Strip(stops[i].id) == "" || Strip(stops[i].id) in Emitted(stops[..i]))
    ensures !StopRowsVerified(stops)
  {
    if Strip(stops[i].id) in Emitted(stops[..i]) {
      var s :| s in stops[..i] && Strip(s.id) == Strip(stops[i].id);
      var j :| 0 <= j < i && stops[j] == s;
    }
    assert stops[i] in stops;
  }

  lemma RowsMore(stops: seq<Stop>, i: int)
    requires 0 <= i < |stops| && StopRowsVerified(stops[..i])
    requires Strip(stops[i].id) != "" && Strip(stops[i].id) !in Emitted(stops[..i]) && InRange(stops[i])
    ensures StopRowsVerified(stops[..i + 1])
  {
    forall a, b | 0 <= a < b < i + 1 ensures Strip(stops[a].id) != Strip(stops[b].id) {
      assert stops[..i][a] in stops[..i];
      assert b < i ==> stops[..i][b] == stops[b];
    }
  }

  method VerifyGtfsStops(times: seq<StopTime>, stops: seq<Stop>) returns (v: Verdict)
    ensures v.Verified? <==> StopsVerified(times, stops)
    ensures v.Verified? ==> v.unresolved == Unresolved(stops)
    ensures v.StopTimeWithoutStop? <==> exists t <- times :: Strip(t.stop) == ""
    ensures v.BlankOrDuplicateStop? || v.InvalidCoordinates? || v.OutOfRange? ==> FirstFault(stops, v)
    ensures v.Unreachable? ==>
              && v.dangling == Referenced(times) - Emitted(stops) && v.unreferenced == Boarding(stops) - Referenced(times)
              && v.missingParents == ParentIds(stops) - Emitted(stops)
              && v.extraStations == (Emitted(stops) - Boarding(stops)) - ParentIds(stops)
  {
    var referenced: set<string> := {};
    for i := 0 to |times|
      invariant referenced == Referenced(times[..i])
      invariant forall t <- times[..i] :: Strip(t.stop) != ""
    {
      assert times[..i + 1] == times[..i] + [times[i]];
      if Strip(times[i].stop) == "" {
        return StopTimeWithoutStop;
      }
      referenced := referenced + {Strip(times[i].stop)};
    }
    assert times[..|times|] == times;
    var fault, emitted, boarding, parents, unresolved := VerifyStopRows(stops);
    if fault.Some? {
      return fault.value;
    }
    var dangling, unreferenced := referenced - emitted, boarding - referenced;
    var missingParents, extraStations := parents - emitted, (emitted - boarding) - parents;
    if dangling != {} || unreferenced != {} || missingParents != {} || extraStations != {} {
      v := Unreachable(dangling, unreferenced, missingParents, extraStations);
      assert !StopsVerified(times, stops);
    } else {
      v := Verified(unresolved);
      NoneLeft(referenced, emitted);
      NoneLeft(boarding, referenced);
      NoneLeft(parents, emitted);
      NoneLeft(emitted - boarding, parents);
    }
  }

  lemma NoneLeft(a: set<string>, b: set<string>)
    ensures a - b == {} <==> a <= b
  {
    if a - b == {} {
      forall x | x in a ensures x in b {
        assert x !in a - b;
      }
    }
  }

  // ----- what the filter promises the verifier --------------------------------------------------

  predicate Clean(text: string) {
    Strip(text) == text
  }

  /** What the merged national feed gives the filter: stops of clean distinct IDs whose readable
      coordinates are in range, parents that are stations without parents, and calls at no station. */
  ghost predicate SourceStops(feed: Feed) {
    && (forall s <- feed.stops :: s.id != "" && Clean(s.id) && Clean(s.parent) && (MissingCoordinates(s) || InRange(s)))
    && StopsUnique(feed.stops)
    && (forall s <- feed.stops, p <- feed.stops :: s.parent == p.id ==> Strip(p.kind) == "1" && p.parent == "")
    && (forall t <- feed.stopTimes, s <- feed.stops :: t.stop == s.id ==> Strip(s.kind) != "1")
  }

  ghost predicate StopsUnique(stops: seq<Stop>) {
    forall i, j | 0 <= i < j < |stops| :: stops[i].id != stops[j].id
  }

  lemma {:induction false} StopNamedRow(stops: seq<Stop>, s: Stop)
    requires s in stops && StopsUnique(stops)
    ensures StopNamed(stops, s.id) == Some(s)
  {
    var front, last := stops[..|stops| - 1], stops[|stops| - 1];
    assert stops == front + [last];
    if last != s {
      StopNamedRow(front, s);
      var i :| 0 <= i < |front| && front[i] == s;
      assert stops[i] == s;
    }
  }

  lemma {:induction false} KeepDistinct(stops: seq<Stop>, keep: Stop -> bool)
    requires StopsUnique(stops)
    ensures StopsUnique(Keep(stops, keep))
  {
    if stops != [] {
      var front, last := stops[..|stops| - 1], stops[|stops| - 1];
      assert stops == front + [last];
      KeepDistinct(front, keep);
      var kept := Keep(front, keep);
      forall i | 0 <= i < |kept| ensures kept[i].id != last.id {
        assert kept[i] in front;
        var j :| 0 <= j < |front| && front[j] == kept[i];
        assert stops[j] == front[j];
      }
      var all := Keep(stops, keep);
      assert all == if keep(last) then kept + [last] else kept;
      forall i, j | 0 <= i < j < |all| ensures all[i].id != all[j].id {
        if j < |kept| {
          assert all[i] == kept[i] && all[j] == kept[j];
        } else {
          assert all[i] == kept[i] && all[j] == last;
        }
      }
    }
  }

  /** A row of the filtered stops is of a valid stop in use, or of the station of one. */
  lemma EmittedRow(feed: Feed, rules: Rules, s: Stop)
    requires StopsKnown(feed, rules) && SourceStops(feed) && s in Filtered(feed, rules).stops
    ensures s in feed.stops && !MissingCoordinates(s)
    ensures || s.id in UsedStops(KeptTimes(feed, rules))
            || exists u <- Filtered(feed, rules).stops :: u.id in UsedStops(KeptTimes(feed, rules)) && u.parent == s.id && s.id != ""
  {
    var times := KeptTimes(feed, rules);
    var used := UsedBy(feed, times, KeptTrips(feed, rules));
    StopNamedRow(feed.stops, s);
    if s.id in used.stops {
      InvalidKept(feed, rules, s.id);
    } else {
      var id :| id in used.stops && StopNamed(feed.stops, id).Some? && StopNamed(feed.stops, id).value.parent != ""
        && StopNamed(feed.stops, id).value.parent == s.id;
      InvalidKept(feed, rules, id);
      assert StopNamed(feed.stops, id).value in Filtered(feed, rules).stops;
    }
  }

  /** The row of a stop in use, and that of its station, are emitted. */
  lemma UsedRow(feed: Feed, rules: Rules, id: string)
    requires StopsKnown(feed, rules) && SourceStops(feed) && id in UsedStops(KeptTimes(feed, rules))
    ensures exists s <- Filtered(feed, rules).stops ::
              s.id == id && (s.parent != "" ==> exists p <- Filtered(feed, rules).stops :: p.id == s.parent)
  {
    InvalidKept(feed, rules, id);
    var s := StopNamed(feed.stops, id).value;
    assert s in Filtered(feed, rules).stops;
    if s.parent != "" {
      assert s.parent in UsedBy(feed, KeptTimes(feed, rules), KeptTrips(feed, rules)).emitted;
      var p := StopNamed(feed.stops, s.parent).value;
      assert p in Filtered(feed, rules).stops;
    }
  }

  lemma RowsClean(feed: Feed, rules: Rules)
    requires StopsKnown(feed, rules) && SourceStops(feed)
    ensures forall s <- Filtered(feed, rules).stops :: s.id != "" && Clean(s.id) && Clean(s.parent) && InRange(s)
  {
    forall s | s in Filtered(feed, rules).stops ensures s.id != "" && Clean(s.id) && Clean(s.parent) && InRange(s) {
      EmittedRow(feed, rules, s);
    }
  }

  lemma FilteredRows(feed: Feed, rules: Rules)
    requires StopsKnown(feed, rules) && SourceStops(feed)
    ensures StopRowsVerified(Filtered(feed, rules).stops)
    ensures forall s <- Filtered(feed, rules).stops :: Clean(s.id) && Clean(s.parent)
  {
    RowsClean(feed, rules);
    var emitted := UsedBy(feed, KeptTimes(feed, rules), KeptTrips(feed, rules)).emitted;
    KeepDistinct(feed.stops, (s: Stop) => s.id in emitted);
    assert StopsUnique(KeepStops(feed.stops, emitted));
    CleanDistinct(KeepStops(feed.stops, emitted));
  }

  lemma CleanDistinct(stops: seq<Stop>)
    requires forall s <- stops :: s.id != "" && Clean(s.id) && InRange(s)
    requires StopsUnique(stops)
    ensures StopRowsVerified(stops)
  {
    forall i, j | 0 <= i < j < |stops| ensures Strip(stops[i].id) != Strip(stops[j].id) {
      assert stops[i] in stops && stops[j] in stops;
    }
  }

  /** The verifier accepts whatever the filter makes of the merged national feed. */
  lemma FilterPasses(feed: Feed, rules: Rules)
    requires StopsKnown(feed, rules) && SourceStops(feed)
    ensures StopsVerified(Filtered(feed, rules).stopTimes, Filtered(feed, rules).stops)
  {
    var times, stops := KeptTimes(feed, rules), Filtered(feed, rules).stops;
    FilteredRows(feed, rules);
    forall t | t in times ensures Strip(t.stop) == t.stop && t.stop != "" && t.stop in Emitted(stops) {
      assert t.stop in UsedStops(times);
      UsedRow(feed, rules, t.stop);
    }
    forall s | s in stops ensures Strip(s.kind) != "1" ==> s.id in Referenced(times) {
      EmittedRow(feed, rules, s);
    }
    ParentsEmitted(feed, rules);
    StationsParents(feed, rules);
  }

  lemma ParentsEmitted(feed: Feed, rules: Rules)
    requires StopsKnown(feed, rules) && SourceStops(feed)
    ensures ParentIds(Filtered(feed, rules).stops) <= Emitted(Filtered(feed, rules).stops)
  {
    var times, stops := KeptTimes(feed, rules), Filtered(feed, rules).stops;
    FilteredRows(feed, rules);
    forall s | s in stops && s.parent != "" ensures s.parent in Emitted(stops) {
      EmittedRow(feed, rules, s);
      if s.id in UsedStops(times) {
        UsedRow(feed, rules, s.id);
        var u :| u in stops && u.id == s.id && (u.parent != "" ==> exists p <- stops :: p.id == u.parent);
        StopNamedRow(feed.stops, s);
        StopNamedRow(feed.stops, u);
      }
    }
  }

  lemma StationsParents(feed: Feed, rules: Rules)
    requires StopsKnown(feed, rules) && SourceStops(feed)
    ensures Emitted(Filtered(feed, rules).stops) - Boarding(Filtered(feed, rules).stops) <= ParentIds(Filtered(feed, rules).stops)
  {
    var times, stops := KeptTimes(feed, rules), Filtered(feed, rules).stops;
    FilteredRows(feed, rules);
    forall s | s in stops && Strip(s.kind) == "1" ensures s.id in ParentIds(stops) {
      EmittedRow(feed, rules, s);
      StationNotUsed(feed, rules, s);
    }
  }

  lemma StationNotUsed(feed: Feed, rules: Rules, s: Stop)
    requires SourceStops(feed) && s in feed.stops && Strip(s.kind) == "1"
    ensures s.id !in UsedStops(KeptTimes(feed, rules))
  {
    forall t | t in KeptTimes(feed, rules) ensures t.stop != s.id {
      assert t in feed.stopTimes;
    }
  }

  // ----- references ----------------------------------------------------------------------------

  ghost predicate HasTrip(feed: Feed, id: string) {
    exists t <- feed.trips :: t.id == id
  }

  ghost predicate HasRoute(feed: Feed, id: string) {
    exists r <- feed.routes :: r.id == id
  }

  ghost predicate HasStop(feed: Feed, id: string) {
    exists s <- feed.stops :: s.id == id
  }

  ghost predicate HasNamed(rows: seq<Named>, id: string) {
    exists n <- rows :: n.id == id
  }

  ghost predicate TransferClosed(feed: Feed, t: Transfer) {
    && HasStop(feed, t.fromStop) && HasStop(feed, t.toStop)
    && (t.fromTrip == "" || HasTrip(feed, t.fromTrip)) && (t.toTrip == "" || HasTrip(feed, t.toTrip))
    && (t.fromRoute == "" || HasRoute(feed, t.fromRoute)) && (t.toRoute == "" || HasRoute(feed, t.toRoute))
  }

  /** What rows name is in the feed. */
  ghost predicate Closed(feed: Feed) {
    && (forall t <- feed.stopTimes :: HasTrip(feed, t.trip) && HasStop(feed, t.stop))
    && (forall t <- feed.trips :: HasRoute(feed, t.route) && (HasNamed(feed.calendar, t.service) || HasNamed(feed.calendarDates, t.service))
                                  && (t.shape == "" || HasNamed(feed.shapes, t.shape)))
    && (forall r <- feed.routes :: HasNamed(feed.agencies, r.agency))
    && (forall t <- feed.transfers :: TransferClosed(feed, t))
  }

  lemma ClosedStops(feed: Feed)
    requires Closed(feed)
    ensures forall t <- feed.stopTimes :: StopNamed(feed.stops, t.stop).Some?
  {
    forall t | t in feed.stopTimes ensures StopNamed(feed.stops, t.stop).Some? {
      assert HasStop(feed, t.stop);
    }
  }

  /** A route in use is written. */
  lemma RouteWritten(feed: Feed, rules: Rules, route: string)
    requires Closed(feed) && route in UsedRoutes(KeptTrips(feed, rules))
    ensures HasRoute(Filtered(feed, rules), route)
  {
    var t :| t in KeptTrips(feed, rules) && t.route == route;
    assert HasRoute(feed, t.route);
    var r :| r in feed.routes && r.id == route;
    assert r in Filtered(feed, rules).routes;
  }

  /** A stop in use, and a station of one that the feed has, is written. */
  lemma StopWritten(feed: Feed, rules: Rules, id: string)
    requires HasStop(feed, id) && id in UsedBy(feed, KeptTimes(feed, rules), KeptTrips(feed, rules)).emitted
    ensures HasStop(Filtered(feed, rules), id)
  {
    var s :| s in feed.stops && s.id == id;
    assert s in Filtered(feed, rules).stops;
  }

  lemma TimesClosed(feed: Feed, rules: Rules)
    requires Closed(feed)
    ensures forall t <- KeptTimes(feed, rules) :: HasTrip(Filtered(feed, rules), t.trip) && HasStop(Filtered(feed, rules), t.stop)
  {
    forall t | t in KeptTimes(feed, rules) ensures HasTrip(Filtered(feed, rules), t.trip) && HasStop(Filtered(feed, rules), t.stop) {
      TripIds(feed, rules);
      assert t.stop in UsedStops(KeptTimes(feed, rules));
      StopWritten(feed, rules, t.stop);
    }
  }

  lemma TripsClosed(feed: Feed, rules: Rules)
    requires Closed(feed)
    ensures var out := Filtered(feed, rules);
            forall t <- out.trips :: HasRoute(out, t.route) && (HasNamed(out.calendar, t.service) || HasNamed(out.calendarDates, t.service))
                                     && (t.shape == "" || HasNamed(out.shapes, t.shape))
  {
    var out, trips := Filtered(feed, rules), KeptTrips(feed, rules);
    forall t | t in trips
      ensures HasRoute(out, t.route) && (HasNamed(out.calendar, t.service) || HasNamed(out.calendarDates, t.service))
              && (t.shape == "" || HasNamed(out.shapes, t.shape))
    {
      assert t in feed.trips;
      RouteWritten(feed, rules, t.route);
      ServiceWritten(feed, rules, t);
    }
  }

  lemma ServiceWritten(feed: Feed, rules: Rules, t: Trip)
    requires Closed(feed) && t in KeptTrips(feed, rules)
    ensures var out := Filtered(feed, rules);
            (HasNamed(out.calendar, t.service) || HasNamed(out.calendarDates, t.service)) && (t.shape == "" || HasNamed(out.shapes, t.shape))
  {
    var used := UsedBy(feed, KeptTimes(feed, rules), KeptTrips(feed, rules));
    assert t in feed.trips && t.service in used.services;
    if n :| n in feed.calendar && n.id == t.service {
      assert n in Filtered(feed, rules).calendar;
    }
    if n :| n in feed.calendarDates && n.id == t.service {
      assert n in Filtered(feed, rules).calendarDates;
    }
    if n :| n in feed.shapes && n.id == t.shape && t.shape != "" {
      assert n in Filtered(feed, rules).shapes;
    }
  }

  lemma RoutesClosed(feed: Feed, rules: Rules)
    requires Closed(feed)
    ensures var out := Filtered(feed, rules); forall r <- out.routes :: HasNamed(out.agencies, r.agency)
  {
    var used := UsedBy(feed, KeptTimes(feed, rules), KeptTrips(feed, rules));
    forall r | r in Filtered(feed, rules).routes ensures HasNamed(Filtered(feed, rules).agencies, r.agency) {
      assert r.agency in used.agencies && HasNamed(feed.agencies, r.agency);
      var n :| n in feed.agencies && n.id == r.agency;
      assert n in Filtered(feed, rules).agencies;
    }
  }

  lemma TransfersClosed(feed: Feed, rules: Rules)
    requires Closed(feed)
    ensures forall t <- Filtered(feed, rules).transfers :: TransferClosed(Filtered(feed, rules), t)
  {
    var out := Filtered(feed, rules);
    var used := UsedBy(feed, KeptTimes(feed, rules), KeptTrips(feed, rules));
    forall t | t in out.transfers ensures TransferClosed(out, t) {
      assert t in feed.transfers && KeptTransfer(used, t);
      assert TransferClosed(feed, t);
      StopWritten(feed, rules, t.fromStop);
      StopWritten(feed, rules, t.toStop);
      if t.fromRoute != "" {
        RouteWritten(feed, rules, t.fromRoute);
      }
      if t.toRoute != "" {
        RouteWritten(feed, rules, t.toRoute);
      }
    }
  }

  /** A reference-closed feed stays closed, and the filter does not fail on it. */
  lemma FilterCloses(feed: Feed, rules: Rules)
    requires Closed(feed)
    ensures StopsKnown(feed, rules) && Closed(Filtered(feed, rules))
  {
    ClosedStops(feed);
    TimesClosed(feed, rules);
    TripsClosed(feed, rules);
    RoutesClosed(feed, rules);
    TransfersClosed(feed, rules);
  }

  function CallsOf(times: seq<StopTime>, trip: string): nat {
    |Keep(times, (t: StopTime) => t.trip == trip)|
  }

  lemma {:induction false} CallsCounted(feed: Feed, rules: Rules, times: seq<StopTime>, trip: string)
    requires KeptTrip(feed, rules, trip)
    ensures CallsOf(Keep(times, (t: StopTime) => KeptTrip(feed, rules, t.trip) && !Invalid(feed.stops, t.stop)), trip)
            == ValidCalls(times, feed.stops, trip)
  {
    if times != [] {
      var front, last := times[..|times| - 1], times[|times| - 1];
      CallsCounted(feed, rules, front, trip);
      var kept := Keep(front, (t: StopTime) => KeptTrip(feed, rules, t.trip) && !Invalid(feed.stops, t.stop));
      assert (kept + [last])[..|kept|] == kept;
    }
  }

  /** Every trip written has at least two calls. */
  lemma TripsCall(feed: Feed, rules: Rules)
    ensures forall t <- Filtered(feed, rules).trips :: CallsOf(Filtered(feed, rules).stopTimes, t.id) >= 2
  {
    forall t | t in Filtered(feed, rules).trips ensures CallsOf(Filtered(feed, rules).stopTimes, t.id) >= 2 {
      CallsCounted(feed, rules, feed.stopTimes, t.id);
    }
  }
}
