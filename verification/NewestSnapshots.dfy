/** History against the newest snapshots: whatever history is given names a call of the newest schedule
    snapshot of its journey exactly as long as no live journey lacks the call of an event still held. */
module NewestSnapshots {
  import opened Model
  import opened Runs
  import opened RunLayout
  import opened Core
  import opened CoreSteps
  import opened CoreInvariant
  import opened CoreRuns
  import opened Cancellation
  import opened TripAgreement
  import opened HistoryRuns

  // ----- the newest snapshot of a journey ------------------------------------------------------

  /** The calls of the last snapshot of a public journey. */
  function Newest(log: seq<Effect>, public: JourneyKey): Option<seq<ScheduledCall>> {
    if log == [] then None
    else
      var e := log[|log| - 1];
      if e.SnapshotJourney? && e.journey == public then Some(e.calls) else Newest(log[..|log| - 1], public)
  }

  lemma {:induction false} NewestMore(a: seq<Effect>, b: seq<Effect>, public: JourneyKey)
    ensures Newest(a + b, public) == Else(Newest(b, public), Newest(a, public))
    decreases |b|
  {
    if b == [] {
      assert a + b == a;
    } else {
      assert (a + b)[..|a + b| - 1] == a + b[..|b| - 1];
      NewestMore(a, b[..|b| - 1], public);
    }
  }

  lemma {:induction false} NewestNone(log: seq<Effect>, public: JourneyKey)
    requires forall i | 0 <= i < |log| :: !(log[i].SnapshotJourney? && log[i].journey == public)
    ensures Newest(log, public) == None
    decreases |log|
  {
    if log != [] {
      NewestNone(log[..|log| - 1], public);
    }
  }

  lemma {:induction false} NewestAt(log: seq<Effect>, public: JourneyKey, at: int)
    requires 0 <= at < |log| && log[at].SnapshotJourney? && log[at].journey == public
    requires forall i | at < i < |log| :: !(log[i].SnapshotJourney? && log[i].journey == public)
    ensures Newest(log, public) == Some(log[at].calls)
    decreases |log|
  {
    if at < |log| - 1 {
      NewestAt(log[..|log| - 1], public, at);
    }
  }

  predicate Lists(calls: seq<ScheduledCall>, place: string, visit: int) {
    exists k :: 0 <= k < |calls| && calls[k].location == place && calls[k].visit == visit
  }

  /** The newest snapshot of its journey lists the call an event or a platform names. */
  ghost predicate NewestLists(log: seq<Effect>, e: Effect) {
    NamesCall(e) ==> Newest(log, e.public).Some? && Lists(Newest(log, e.public).value, e.location, e.visit)
  }

  // ----- what an instance's snapshots say ------------------------------------------------------

  datatype Listing = Listing(public: JourneyKey, calls: seq<ScheduledCall>)

  /** The public journeys a trip runs as on a journey's day, with their calls. */
  function Revision(feed: string, trip: Trip, journey: JourneyKey): (r: seq<Listing>)
    requires WellLaid(trip)
    ensures r != []
  {
    LaidSpansCover(feed, trip, journey.day);
    var spans := JourneySpansOf(feed, trip, journey.day);
    if spans == [] then [Listing(journey, ScheduledCalls(trip.calls, 0, |trip.calls| - 1))]
    else seq(|spans|, i requires 0 <= i < |spans| =>
           assert spans[i] in spans;
           Listing(spans[i].journey, ScheduledCalls(trip.calls, spans[i].first, spans[i].last)))
  }

  ghost predicate Spells(effects: seq<Effect>, listings: seq<Listing>) {
    && |listings| <= |effects|
    && (forall i | 0 <= i < |listings| ::
          effects[i].SnapshotJourney? && effects[i].journey == listings[i].public && effects[i].calls == listings[i].calls)
    && (forall i | |listings| <= i < |effects| :: !effects[i].SnapshotJourney?)
  }

  ghost predicate Apart(listings: seq<Listing>) {
    forall a, b | 0 <= a < b < |listings| :: listings[a].public != listings[b].public
  }

  lemma SnapshotsSpell(feed: string, trip: Trip, journey: JourneyKey, releaseId: string, at: int)
    requires WellLaid(trip)
    ensures Within(JourneySpansOf(feed, trip, journey.day), |trip.calls|)
    ensures Spells(SnapshotsOf(journey, JourneySpansOf(feed, trip, journey.day), trip, releaseId, at), Revision(feed, trip, journey))
  {
    LaidSpansCover(feed, trip, journey.day);
    var spans := JourneySpansOf(feed, trip, journey.day);
    if spans != [] {
      var snapshots, links := SpanSnapshots(spans, trip, releaseId, at), SpanLinks(spans);
      var all: seq<Effect> := snapshots + links;
      forall i | |snapshots| <= i < |all| ensures !all[i].SnapshotJourney? {
        assert all[i] == links[i - |snapshots|] && links[i - |snapshots|] in links;
      }
    }
  }

  /** Snapshots of different journeys are each the newest of theirs, and of no other journey. */
  lemma NewestSpelled(effects: seq<Effect>, listings: seq<Listing>)
    requires Spells(effects, listings) && Apart(listings)
    ensures forall a | 0 <= a < |listings| :: Newest(effects, listings[a].public) == Some(listings[a].calls)
    ensures forall public | Newest(effects, public).Some? :: exists a | 0 <= a < |listings| :: listings[a].public == public
  {
    forall a | 0 <= a < |listings| ensures Newest(effects, listings[a].public) == Some(listings[a].calls) {
      forall i | a < i < |effects| ensures !(effects[i].SnapshotJourney? && effects[i].journey == listings[a].public) {
        assert i < |listings| ==> listings[a].public != listings[i].public;
      }
      NewestAt(effects, listings[a].public, a);
    }
    forall public | Newest(effects, public).Some? ensures exists a | 0 <= a < |listings| :: listings[a].public == public {
      if forall a | 0 <= a < |listings| :: listings[a].public != public {
        NewestNone(effects, public);
      }
    }
  }

  lemma SpellsMore(effects: seq<Effect>, more: seq<Effect>, listings: seq<Listing>)
    requires Spells(effects, listings) && forall e <- more :: !e.SnapshotJourney?
    ensures Spells(effects + more, listings)
  {
    var all := effects + more;
    forall i | |listings| <= i < |all| ensures !all[i].SnapshotJourney? {
      assert i >= |effects| ==> all[i] == more[i - |effects|] && more[i - |effects|] in more;
    }
  }

  // ----- what a state shows --------------------------------------------------------------------

  ghost predicate LaidAll(s: State, ctx: Context) {
    forall j <- s.instances :: Laid(s.instances[j], j, ctx)
  }

  ghost function Shown(instance: Instance, journey: JourneyKey, ctx: Context): (r: seq<Listing>)
    requires Laid(instance, journey, ctx)
  {
    Revision(ctx.feed, ctx.trip(instance.tripId), journey)
  }

  /** Instance `j` runs as this public journey with these calls. */
  ghost predicate RunsAs(s: State, ctx: Context, j: JourneyKey, a: int, listing: Listing)
    requires LaidAll(s, ctx)
  {
    j in s.instances && 0 <= a < |Shown(s.instances[j], j, ctx)| && Shown(s.instances[j], j, ctx)[a] == listing
  }

  /** No two public journeys of live instances are one. */
  ghost predicate Unshared(s: State, ctx: Context)
    requires LaidAll(s, ctx)
  {
    forall j, a, l, k, b, m | RunsAs(s, ctx, j, a, l) && RunsAs(s, ctx, k, b, m) && l.public == m.public :: j == k && a == b
  }

  /** Every live public journey's newest snapshot is the one its instance now has. */
  ghost predicate AllShown(log: seq<Effect>, s: State, ctx: Context)
    requires LaidAll(s, ctx)
  {
    forall j, a, l | RunsAs(s, ctx, j, a, l) :: Newest(log, l.public) == Some(l.calls)
  }

  /** No live public journey lacks the call this event names under it. */
  ghost predicate Fitting(s: State, ctx: Context, e: Effect)
    requires LaidAll(s, ctx) && NamesCall(e)
  {
    forall j, a, l | RunsAs(s, ctx, j, a, l) && l.public == e.public :: Lists(l.calls, e.location, e.visit)
  }

  /** Nor that of any event still held. */
  ghost predicate HeldFitting(s: State, ctx: Context)
    requires LaidAll(s, ctx)
  {
    forall j <- s.instances, e <- s.instances[j].held :: Fitting(s, ctx, e)
  }

  ghost predicate HeldListed(log: seq<Effect>, s: State) {
    forall j <- s.instances, e <- s.instances[j].held :: NewestLists(log, e)
  }

  predicate ListedAs(listing: Listing, e: Effect) {
    NamesCall(e) && listing.public == e.public && Lists(listing.calls, e.location, e.visit)
  }

  /** An event of a call of the instance. */
  ghost predicate Fits(instance: Instance, journey: JourneyKey, ctx: Context, e: Effect)
    requires Laid(instance, journey, ctx)
  {
    NamesCall(e) && exists listing :: listing in Shown(instance, journey, ctx) && ListedAs(listing, e)
  }

  ghost predicate Quiet(effects: seq<Effect>) {
    forall e <- effects :: !e.SnapshotJourney?
  }

  lemma NewestQuiet(log: seq<Effect>, effects: seq<Effect>, public: JourneyKey)
    requires Quiet(effects)
    ensures Newest(effects, public) == None && Newest(log + effects, public) == Newest(log, public)
  {
    NewestNone(effects, public);
    NewestMore(log, effects, public);
  }

  lemma CallListed(calls: seq<Call>, first: int, last: int, i: int)
    requires 0 <= first <= i <= last < |calls|
    ensures Lists(ScheduledCalls(calls, first, last), calls[i].location, Occurrences(Places(calls), calls[i].location, first, i + 1))
  {
    assert ScheduledCalls(calls, first, last)[i - first].location == calls[i].location;
  }

  /** Where history files a call of a run: by one of its spans, visits counted from the span's first. */
  lemma FiledInSpan(
    journey: JourneyKey, spans: seq<JourneySpan>, calls: seq<CallState>, i: int, kind: EventKind) returns (a: int)
    requires Within(spans, |calls|) && Covers(JourneyBounds(spans), |calls|) && 0 <= i < |calls|
    ensures 0 <= a < |spans| && Holds(spans[a], i) && spans[a] in spans
    ensures var t := Triple(journey, spans, calls, i, kind);
            t.0 == spans[a].journey && t.2 == Occurrences(CallPlaces(calls), calls[i].location, spans[a].first, i + 1)
  {
    a := FilingSpan(spans, |calls|, i, kind);
  }

  /** Every identity of an instance is a call of its own snapshots. */
  lemma TripleFits(instance: Instance, journey: JourneyKey, ctx: Context, i: int, kind: EventKind) returns (a: int)
    requires Laid(instance, journey, ctx) && 0 <= i < |instance.calls|
    ensures Within(instance.journeys, |instance.calls|)
    ensures 0 <= a < |Shown(instance, journey, ctx)|
    ensures var t := Triple(journey, instance.journeys, instance.calls, i, kind);
            Shown(instance, journey, ctx)[a].public == t.0 && Lists(Shown(instance, journey, ctx)[a].calls, t.1, t.2)
  {
    LaidFits(instance, journey, ctx);
    LaidSpansCover(ctx.feed, ctx.trip(instance.tripId), journey.day);
    var trip, spans := ctx.trip(instance.tripId), instance.journeys;
    assert CallPlaces(instance.calls) == Places(trip.calls);
    a := 0;
    if spans == [] {
      CallListed(trip.calls, 0, |trip.calls| - 1, i);
    } else {
      a := FiledInSpan(journey, spans, instance.calls, i, kind);
      CallListed(trip.calls, spans[a].first, spans[a].last, i);
    }
  }

  // ----- what a state shows after an operation -------------------------------------------------

  /** Snapshots given are of journeys that are live after. */
  ghost predicate GivenLive(effects: seq<Effect>, after: State, ctx: Context)
    requires LaidAll(after, ctx)
  {
    forall public | Newest(effects, public).Some? :: exists j, a, l :: RunsAs(after, ctx, j, a, l) && l.public == public
  }

  lemma FitsListed(log: seq<Effect>, s: State, ctx: Context, j: JourneyKey, e: Effect)
    requires LaidAll(s, ctx) && AllShown(log, s, ctx) && j in s.instances && Fits(s.instances[j], j, ctx, e)
    ensures NewestLists(log, e)
  {
    var listing :| listing in Shown(s.instances[j], j, ctx) && ListedAs(listing, e);
    var a :| 0 <= a < |Shown(s.instances[j], j, ctx)| && Shown(s.instances[j], j, ctx)[a] == listing;
    assert RunsAs(s, ctx, j, a, Shown(s.instances[j], j, ctx)[a]);
  }

  /** What was listed stays so exactly if it fits the journeys live after. */
  lemma ListedOn(log: seq<Effect>, effects: seq<Effect>, after: State, ctx: Context, e: Effect)
    requires LaidAll(after, ctx) && AllShown(log + effects, after, ctx) && GivenLive(effects, after, ctx)
    requires NamesCall(e) && NewestLists(log, e)
    ensures NewestLists(log + effects, e) <==> Fitting(after, ctx, e)
  {
    NewestMore(log, effects, e.public);
    if j, a, l :| RunsAs(after, ctx, j, a, l) && l.public == e.public {
      assert Newest(log + effects, e.public) == Some(l.calls);
    }
  }

  /** What an operation other than a switch does to journeys: it opens `j` with its snapshots, or gives none. */
  ghost predicate Opens(s: State, after: State, effects: seq<Effect>, ctx: Context, j: JourneyKey)
    requires LaidAll(after, ctx)
  {
    && (forall k <- after.instances :: k in s.instances ==> after.instances[k].tripId == s.instances[k].tripId)
    && (forall k <- after.instances :: k in s.instances || k == j)
    && (if j in after.instances && j !in s.instances then Spells(effects, Shown(after.instances[j], j, ctx)) else Quiet(effects))
  }

  ghost predicate FitsSome(s: State, ctx: Context, e: Effect)
    requires LaidAll(s, ctx)
  {
    exists k <- s.instances :: Fits(s.instances[k], k, ctx, e)
  }

  /** The events given are of live journeys' calls, or were held. */
  ghost predicate Gives(s: State, after: State, effects: seq<Effect>, ctx: Context)
    requires LaidAll(after, ctx)
  {
    forall e <- effects | NamesCall(e) ::
      FitsSome(after, ctx, e) || (Quiet(effects) && exists k <- s.instances :: e in s.instances[k].held)
  }

  /** So are the events held. */
  ghost predicate Retains(s: State, after: State, ctx: Context)
    requires LaidAll(after, ctx)
  {
    forall k <- after.instances, e <- after.instances[k].held ::
      Fits(after.instances[k], k, ctx, e) || (k in s.instances && e in s.instances[k].held)
  }

  lemma ShownApart(s: State, ctx: Context, j: JourneyKey)
    requires LaidAll(s, ctx) && Unshared(s, ctx) && j in s.instances
    ensures Apart(Shown(s.instances[j], j, ctx))
  {
    var shown := Shown(s.instances[j], j, ctx);
    forall a, b | 0 <= a < b < |shown| ensures shown[a].public != shown[b].public {
      assert RunsAs(s, ctx, j, a, shown[a]) && RunsAs(s, ctx, j, b, shown[b]);
    }
  }

  lemma OpensOne(
    log: seq<Effect>, s: State, after: State, effects: seq<Effect>, ctx: Context, j: JourneyKey, k: JourneyKey, a: int, l: Listing)
    requires LaidAll(s, ctx) && AllShown(log, s, ctx) && LaidAll(after, ctx) && Unshared(after, ctx)
    requires Opens(s, after, effects, ctx, j) && RunsAs(after, ctx, k, a, l)
    ensures Newest(log + effects, l.public) == Some(l.calls)
  {
    NewestMore(log, effects, l.public);
    if k in s.instances {
      assert RunsAs(s, ctx, k, a, l);
      if j in after.instances && j !in s.instances {
        var shown := Shown(after.instances[j], j, ctx);
        ShownApart(after, ctx, j);
        NewestSpelled(effects, shown);
        if b :| 0 <= b < |shown| && shown[b].public == l.public {
          assert RunsAs(after, ctx, j, b, shown[b]);
        }
      } else {
        NewestQuiet(log, effects, l.public);
      }
    } else {
      ShownApart(after, ctx, j);
      NewestSpelled(effects, Shown(after.instances[j], j, ctx));
    }
  }

  /** The newest snapshots stay those of the live journeys. */
  lemma OpensShown(log: seq<Effect>, s: State, after: State, effects: seq<Effect>, ctx: Context, j: JourneyKey)
    requires LaidAll(s, ctx) && AllShown(log, s, ctx) && LaidAll(after, ctx) && Unshared(after, ctx)
    requires Opens(s, after, effects, ctx, j)
    ensures AllShown(log + effects, after, ctx) && GivenLive(effects, after, ctx)
  {
    forall k, a, l | RunsAs(after, ctx, k, a, l) ensures Newest(log + effects, l.public) == Some(l.calls) {
      OpensOne(log, s, after, effects, ctx, j, k, a, l);
    }
    if j in after.instances && j !in s.instances {
      var shown := Shown(after.instances[j], j, ctx);
      ShownApart(after, ctx, j);
      NewestSpelled(effects, shown);
      forall public | Newest(effects, public).Some? ensures exists k, a, l :: RunsAs(after, ctx, k, a, l) && l.public == public {
        var a :| 0 <= a < |shown| && shown[a].public == public;
        assert RunsAs(after, ctx, j, a, shown[a]);
      }
    } else {
      forall public ensures Newest(effects, public) == None {
        NewestQuiet(log, effects, public);
      }
    }
  }

  /** Everything given is then listed, and everything held exactly if it fits. */
  lemma GivenListed(log: seq<Effect>, s: State, after: State, effects: seq<Effect>, ctx: Context)
    requires LaidAll(after, ctx) && AllShown(log + effects, after, ctx)
    requires HeldListed(log, s) && Gives(s, after, effects, ctx)
    ensures forall e <- effects :: NewestLists(log + effects, e)
  {
    forall e | e in effects && NamesCall(e) ensures NewestLists(log + effects, e) {
      if k :| k in after.instances && Fits(after.instances[k], k, ctx, e) {
        FitsListed(log + effects, after, ctx, k, e);
      } else {
        assert Quiet(effects);
        var k :| k in s.instances && e in s.instances[k].held;
        var i :| 0 <= i < |s.instances[k].held| && s.instances[k].held[i] == e;
        assert NewestLists(log, s.instances[k].held[i]);
        NewestQuiet(log, effects, e.public);
      }
    }
  }

  lemma HeldExact(log: seq<Effect>, s: State, after: State, effects: seq<Effect>, ctx: Context)
    requires LaidAll(after, ctx) && AllShown(log + effects, after, ctx) && GivenLive(effects, after, ctx)
    requires HeldListed(log, s) && Retains(s, after, ctx)
    ensures HeldListed(log + effects, after) <==> HeldFitting(after, ctx)
  {
    forall k, e | k in after.instances && e in after.instances[k].held
      ensures NewestLists(log + effects, e) <==> Fitting(after, ctx, e)
    {
      if k in s.instances && e in s.instances[k].held {
        ListedOn(log, effects, after, ctx, e);
      } else {
        FitsListed(log + effects, after, ctx, k, e);
        ListedFits(log + effects, after, ctx, e);
      }
    }
  }

  lemma ListedFits(log: seq<Effect>, s: State, ctx: Context, e: Effect)
    requires LaidAll(s, ctx) && AllShown(log, s, ctx) && NamesCall(e) && NewestLists(log, e)
    ensures Fitting(s, ctx, e)
  {
  }

  // ----- observations --------------------------------------------------------------------------

  /** A journey opened with its snapshots, or already live. */
  ghost predicate OpenedWith(s: State, opening: Stepped, ctx: Context, j: JourneyKey) {
    && Opening(s, opening.state, j)
    && (forall e <- opening.effects :: !NamesCall(e))
    && (j in s.instances ==> Quiet(opening.effects))
    && (j !in s.instances ==>
          && opening.state.instances[j].held == []
          && Laid(opening.state.instances[j], j, ctx)
          && Spells(opening.effects, Shown(opening.state.instances[j], j, ctx)))
  }

  /** What is given and held of a journey is of its calls, or was held. */
  ghost predicate Keeps1(before: Instance, after: Instance, effects: seq<Effect>, j: JourneyKey, ctx: Context)
    requires Laid(after, j, ctx)
  {
    && after.tripId == before.tripId && Quiet(effects)
    && (forall e <- after.held :: e in before.held || Fits(after, j, ctx, e))
    && (forall e <- effects | NamesCall(e) :: e in before.held || Fits(after, j, ctx, e))
  }

  /** The account of an operation on one journey: what any operation but a switch does. */
  ghost predicate Accounts(s: State, after: State, effects: seq<Effect>, ctx: Context, j: JourneyKey)
    requires LaidAll(after, ctx)
  {
    Opens(s, after, effects, ctx, j) && Gives(s, after, effects, ctx) && Retains(s, after, ctx)
  }

  lemma OneAccounts(s: State, opening: Stepped, after: State, tail: seq<Effect>, ctx: Context, j: JourneyKey)
    requires LaidAll(after, ctx) && OpenedWith(s, opening, ctx, j)
    requires j in after.instances && after.instances == opening.state.instances[j := after.instances[j]]
    requires Keeps1(opening.state.instances[j], after.instances[j], tail, j, ctx)
    ensures Accounts(s, after, opening.effects + tail, ctx, j)
  {
    OneOpens(s, opening, after, tail, ctx, j);
    OneGives(s, opening, after, tail, ctx, j);
  }

  lemma OneOpens(s: State, opening: Stepped, after: State, tail: seq<Effect>, ctx: Context, j: JourneyKey)
    requires LaidAll(after, ctx) && OpenedWith(s, opening, ctx, j)
    requires j in after.instances && after.instances == opening.state.instances[j := after.instances[j]]
    requires Quiet(tail) && after.instances[j].tripId == opening.state.instances[j].tripId
    ensures Opens(s, after, opening.effects + tail, ctx, j)
  {
    if j in s.instances {
      assert Quiet(opening.effects + tail);
    } else {
      OpenedSpells(opening, after.instances[j], tail, ctx, j);
    }
  }

  lemma OpenedSpells(opening: Stepped, after: Instance, tail: seq<Effect>, ctx: Context, j: JourneyKey)
    requires j in opening.state.instances && Laid(opening.state.instances[j], j, ctx) && Laid(after, j, ctx)
    requires Spells(opening.effects, Shown(opening.state.instances[j], j, ctx)) && Quiet(tail)
    requires after.tripId == opening.state.instances[j].tripId
    ensures Spells(opening.effects + tail, Shown(after, j, ctx))
  {
    SpellsMore(opening.effects, tail, Shown(opening.state.instances[j], j, ctx));
  }

  lemma OneGives(s: State, opening: Stepped, after: State, tail: seq<Effect>, ctx: Context, j: JourneyKey)
    requires LaidAll(after, ctx) && OpenedWith(s, opening, ctx, j)
    requires j in after.instances && after.instances == opening.state.instances[j := after.instances[j]]
    requires Keeps1(opening.state.instances[j], after.instances[j], tail, j, ctx)
    ensures Gives(s, after, opening.effects + tail, ctx) && Retains(s, after, ctx)
  {
    assert forall e <- opening.effects + tail :: e in opening.effects || e in tail;
  }

  lemma FewerAccounts(s: State, after: State, effects: seq<Effect>, ctx: Context, j: JourneyKey)
    requires LaidAll(after, ctx)
    requires forall k <- after.instances :: k in s.instances && after.instances[k] == s.instances[k]
    requires forall e <- effects :: !NamesCall(e) && !e.SnapshotJourney?
    ensures Accounts(s, after, effects, ctx, j)
  {
  }

  lemma OpenOpens(s: State, m: Match, ctx: Context, o: Observation)
    requires Known(m.trip, ctx)
    ensures OpenedWith(s, Open(s, m, ctx, o), ctx, m.journey)
  {
    OpenFaithful(s, m, ctx, o);
    NewInstanceLaid(m, ctx, o);
    SnapshotsSpell(ctx.feed, m.trip, m.journey, ctx.releaseId, o.At());
  }

  lemma BindNewOpens(s: State, m: Match, v: VehicleId, how: BindingMethod, ctx: Context, o: Observation)
    requires Known(m.trip, ctx)
    ensures var choice := BindNew(s, m, v, how, ctx, o); OpenedWith(s, choice.stepped, ctx, m.journey)
  {
    OpenOpens(s, m, ctx, o);
    var opening := Open(s, m, ctx, o);
    var given := Assignments(opening.state.instances[m.journey], v, o.At());
    if m.journey !in s.instances {
      SpellsMore(opening.effects, given, Shown(opening.state.instances[m.journey], m.journey, ctx));
    }
  }

  lemma ChooseKeyedOpens(s: State, o: Observation, v: VehicleId, key: KeyRef, ctx: Context)
    requires Sound(ctx)
    ensures match ChooseKeyed(s, o, v, key, ctx)
            case Bound(stepped, binding) => OpenedWith(s, stepped, ctx, binding.journey)
            case NotBound(state, _) => forall k <- state.instances :: k in s.instances && state.instances[k] == s.instances[k]
  {
    BindProper(o, ctx, o.At());
    if Continued(VehicleBefore(s, v), key, o, s, ctx).None? {
      match Bind(o, ctx, o.At())
      case Missed(_) =>
      case Matched(m) => BindNewOpens(s, m, v, Keyed, ctx, o);
    }
  }

  lemma ChooseInferredOpens(s: State, o: Observation, v: VehicleId, line: KeyRef, episode: Episode, ctx: Context)
    requires Sound(ctx)
    ensures match ChooseInferred(s, o, v, line, episode, ctx)
            case Bound(stepped, binding) => OpenedWith(s, stepped, ctx, binding.journey)
            case NotBound(state, _) => state == s
  {
    if ContinuedEpisode(VehicleBefore(s, v), episode, o.At(), s, ctx).None? {
      match ctx.inferTrip(line, episode, o)
      case Missed(_) =>
      case Matched(m) =>
        assert Proper(ctx.inferTrip(line, episode, o), ctx);
        BindNewOpens(s, m, v, Inferred, ctx, o);
    }
  }

  // ----- driving -------------------------------------------------------------------------------

  lemma CrossingFits(
    live: Instance, journey: JourneyKey, ctx: Context, crossings: seq<Crossing>, source: string, k: int, e: Effect)
    requires Laid(live, journey, ctx) && Anchored(live.journeys) && forall c <- crossings :: c.call < |live.calls|
    requires 0 <= k < |crossings| && CrossingEvents(live, crossings, source)[k] == e
    ensures Fits(live, journey, ctx, e)
  {
    assert crossings[k] in crossings;
    var a := TripleFits(live, journey, ctx, crossings[k].call, crossings[k].kind);
    var t := Triple(live.journey, live.journeys, live.calls, crossings[k].call, crossings[k].kind);
    assert e.WriteEvent? && e.public == t.0 && e.location == t.1 && e.visit == t.2;
    assert ListedAs(Shown(live, journey, ctx)[a], e);
  }

  lemma FitsSame(a: Instance, b: Instance, journey: JourneyKey, ctx: Context, e: Effect)
    requires Laid(a, journey, ctx) && Laid(b, journey, ctx) && a.tripId == b.tripId && Fits(a, journey, ctx, e)
    ensures Fits(b, journey, ctx, e)
  {
  }

  lemma CrossingsFit(
    live: Instance, after: Instance, journey: JourneyKey, ctx: Context, crossings: seq<Crossing>, source: string)
    requires Laid(live, journey, ctx) && Anchored(live.journeys) && forall c <- crossings :: c.call < |live.calls|
    requires Laid(after, journey, ctx) && after.tripId == live.tripId
    ensures forall e <- CrossingEvents(live, crossings, source) :: Fits(after, journey, ctx, e)
  {
    var events := CrossingEvents(live, crossings, source);
    forall e | e in events ensures Fits(after, journey, ctx, e) {
      var k :| 0 <= k < |events| && events[k] == e;
      CrossingFits(live, journey, ctx, crossings, source, k, e);
      FitsSame(live, after, journey, ctx, e);
    }
  }

  lemma DriveKeeps(
    instance: Instance, journey: JourneyKey, o: Observation, binding: Binding, before: Option<Position>, ctx: Context)
    requires Sound(ctx) && Laid(instance, journey, ctx) && Anchored(instance.journeys)
    ensures var moved := Drive(instance, ctx.trip(instance.tripId), o, binding, before, ctx);
            Laid(moved.instance, journey, ctx) && Keeps1(instance, moved.instance, moved.effects, journey, ctx)
  {
    var trip := ctx.trip(instance.tripId);
    var lifecycle := LifecycleAfter(instance, trip, o, ctx.span(trip, binding.journey).0, before, ctx);
    var restored := instance.lifecycle == Cancelled && lifecycle != Cancelled;
    var live := instance.(lifecycle := lifecycle, calls := if restored then CallStates(trip) else instance.calls);
    var moved := Drive(instance, trip, o, binding, before, ctx);
    DriveLayout(instance, journey, o, binding, before, ctx);
    SameLayoutLaid(instance, moved.instance, journey, ctx);
    RestoredPlaces(instance, journey, ctx);
    SameLayoutLaid(instance, live, journey, ctx);
    if lifecycle != Cancelled {
      CrossingsFit(live, moved.instance, journey, ctx, ctx.track(live, trip, o).crossings, o.source);
    }
  }

  /** What a state's own journey lies on is its binding's trip. */
  lemma MoveKeeps(
    s: State, o: Observation, v: VehicleId, binding: Binding, before: Option<Position>, ctx: Context, tripOf: TripOf)
    requires OneTrip(ctx, tripOf) && Aligned(s, ctx, tripOf) && Names(binding, s.instances, ctx)
    requires binding.tripId == tripOf(binding.journey)
    ensures var moved := MoveOf(s, o, v, binding, before, ctx);
            Laid(moved.instance, binding.journey, ctx)
            && Keeps1(s.instances[binding.journey], moved.instance, moved.effects, binding.journey, ctx)
  {
    var instance := s.instances[binding.journey];
    assert LaidOn(instance, binding.journey, ctx, tripOf) && Standing(instance, binding.journey);
    if Leads(instance, v, o.At(), ctx) {
      var lead := WithLead(instance, v, o.At());
      var moved := Drive(lead, ctx.trip(instance.tripId), o, binding, before, ctx);
      DriveKeeps(lead, binding.journey, o, binding, before, ctx);
      LeadKeeps(instance, lead, moved.instance, moved.effects, binding.journey, ctx);
    }
  }

  lemma LeadKeeps(a: Instance, lead: Instance, after: Instance, effects: seq<Effect>, j: JourneyKey, ctx: Context)
    requires lead.tripId == a.tripId && lead.held == a.held && Laid(after, j, ctx) && Keeps1(lead, after, effects, j, ctx)
    ensures Keeps1(a, after, effects, j, ctx)
  {
  }

  lemma ConcludeAccounts(
    s: State, stepped: Stepped, moved: Moved, o: Observation, v: VehicleId, key: Option<KeyRef>, binding: Binding,
    episode: Option<Episode>, ctx: Context)
    requires OpenedWith(s, stepped, ctx, binding.journey)
    requires Laid(moved.instance, binding.journey, ctx)
    requires Keeps1(stepped.state.instances[binding.journey], moved.instance, moved.effects, binding.journey, ctx)
    requires LaidAll(Conclude(stepped.state, moved, o, v, key, binding, episode).state, ctx)
    ensures var followed := Conclude(stepped.state, moved, o, v, key, binding, episode);
            Accounts(s, followed.state, stepped.effects + followed.effects, ctx, binding.journey)
  {
    var followed := Conclude(stepped.state, moved, o, v, key, binding, episode);
    OneAccounts(s, stepped, followed.state, followed.effects, ctx, binding.journey);
  }

  lemma FollowAccounts(
    s: State, stepped: Stepped, o: Observation, v: VehicleId, key: Option<KeyRef>, binding: Binding,
    episode: Option<Episode>, before: Option<Position>, ctx: Context, tripOf: TripOf)
    requires OneTrip(ctx, tripOf) && Aligned(stepped.state, ctx, tripOf) && Names(binding, stepped.state.instances, ctx)
    requires binding.tripId == tripOf(binding.journey) && OpenedWith(s, stepped, ctx, binding.journey)
    requires LaidAll(Follow(stepped.state, o, v, key, binding, episode, before, ctx).state, ctx)
    ensures var followed := Follow(stepped.state, o, v, key, binding, episode, before, ctx);
            Accounts(s, followed.state, stepped.effects + followed.effects, ctx, binding.journey)
  {
    MoveKeeps(stepped.state, o, v, binding, before, ctx, tripOf);
    ConcludeAccounts(s, stepped, MoveOf(stepped.state, o, v, binding, before, ctx), o, v, key, binding, episode, ctx);
  }

  lemma KeyedAccounts(s: State, o: Observation, v: VehicleId, ctx: Context, tripOf: TripOf) returns (j: JourneyKey)
    requires OneTrip(ctx, tripOf) && Aligned(s, ctx, tripOf) && !Repeated(VehicleBefore(s, v), o) && o.facts.keys != []
    requires LaidAll(StepVehicle(s, o, v, ctx).state, ctx)
    ensures var stepped := StepVehicle(s, o, v, ctx); Accounts(s, stepped.state, stepped.effects, ctx, j)
  {
    var previous, key := VehicleBefore(s, v), o.facts.keys[0];
    var stepped := StepVehicle(s, o, v, ctx);
    j := JourneyKey("", "", "", 0);
    ChooseKeyedSafe(s, o, v, key, ctx);
    ChooseKeyedOpens(s, o, v, key, ctx);
    ChooseKeyedAligned(s, o, v, key, ctx, tripOf);
    match ChooseKeyed(s, o, v, key, ctx)
    case NotBound(_, _) => FewerAccounts(s, stepped.state, stepped.effects, ctx, j);
    case Bound(chosen, binding) =>
      j := binding.journey;
      var fix := if previous.Some? then previous.value.position else None;
      FollowAccounts(s, chosen, o, v, Some(key), binding, None, fix, ctx, tripOf);
  }

  lemma InferredAccounts(s: State, o: Observation, v: VehicleId, ctx: Context, tripOf: TripOf) returns (j: JourneyKey)
    requires OneTrip(ctx, tripOf) && Aligned(s, ctx, tripOf) && !Repeated(VehicleBefore(s, v), o) && o.facts.keys == []
    requires LaidAll(StepVehicle(s, o, v, ctx).state, ctx)
    ensures var stepped := StepVehicle(s, o, v, ctx); Accounts(s, stepped.state, stepped.effects, ctx, j)
  {
    var previous := VehicleBefore(s, v);
    var stepped := StepVehicle(s, o, v, ctx);
    j := JourneyKey("", "", "", 0);
    var prior := if previous.Some? then previous.value.episode else None;
    var episode := if o.facts.line.Some? then ctx.nextEpisode(prior, o) else None;
    if episode.None? {
      FewerAccounts(s, stepped.state, stepped.effects, ctx, j);
    } else {
      ChooseInferredSafe(s, o, v, o.facts.line.value, episode.value, ctx);
      ChooseInferredOpens(s, o, v, o.facts.line.value, episode.value, ctx);
      ChooseInferredAligned(s, o, v, o.facts.line.value, episode.value, ctx, tripOf);
      match ChooseInferred(s, o, v, o.facts.line.value, episode.value, ctx)
      case NotBound(_, _) => FewerAccounts(s, stepped.state, stepped.effects, ctx, j);
      case Bound(chosen, binding) =>
        j := binding.journey;
        var fix := if previous.Some? then previous.value.position else None;
        FollowAccounts(s, chosen, o, v, None, binding, episode, fix, ctx, tripOf);
    }
  }

  lemma StepVehicleAccounts(s: State, o: Observation, v: VehicleId, ctx: Context, tripOf: TripOf) returns (j: JourneyKey)
    requires OneTrip(ctx, tripOf) && Aligned(s, ctx, tripOf)
    requires LaidAll(StepVehicle(s, o, v, ctx).state, ctx)
    ensures var stepped := StepVehicle(s, o, v, ctx); Accounts(s, stepped.state, stepped.effects, ctx, j)
  {
    if Repeated(VehicleBefore(s, v), o) {
      j := JourneyKey("", "", "", 0);
      FewerAccounts(s, s, [], ctx, j);
    } else if o.facts.keys != [] {
      j := KeyedAccounts(s, o, v, ctx, tripOf);
    } else {
      j := InferredAccounts(s, o, v, ctx, tripOf);
    }
  }

  // ----- board rows, cancellations and ticks ---------------------------------------------------

  lemma PlatformFits(instance: Instance, journey: JourneyKey, ctx: Context, i: int, kind: EventKind, platform: Platform)
    requires Laid(instance, journey, ctx) && Anchored(instance.journeys) && 0 <= i < |instance.calls|
    ensures var public := PublicCall(instance.journey, instance.journeys, instance.calls, i, kind);
            Fits(instance, journey, ctx, RecordPlatform(public.0, instance.calls[i].location, public.1, kind, platform))
  {
    var a := TripleFits(instance, journey, ctx, i, kind);
    var public := PublicCall(instance.journey, instance.journeys, instance.calls, i, kind);
    var e := RecordPlatform(public.0, instance.calls[i].location, public.1, kind, platform);
    assert ListedAs(Shown(instance, journey, ctx)[a], e);
  }

  /** A change that leaves trip and held events, its events of the instance's calls. */
  lemma LayoutKeeps(a: Instance, b: Instance, effects: seq<Effect>, j: JourneyKey, ctx: Context)
    requires Laid(a, j, ctx) && Laid(b, j, ctx) && b.tripId == a.tripId && b.held == a.held && Quiet(effects)
    requires forall e <- effects | NamesCall(e) :: Fits(a, j, ctx, e)
    ensures Keeps1(a, b, effects, j, ctx)
  {
    forall e | e in effects && NamesCall(e) ensures Fits(b, j, ctx, e) {
      FitsSame(a, b, j, ctx, e);
    }
  }

  lemma PlatformAccounts(
    s: State, opening: Stepped, j: JourneyKey, after: State, record: Effect, result: Effect, ctx: Context)
    requires OpenedWith(s, opening, ctx, j) && LaidAll(opening.state, ctx) && LaidAll(after, ctx)
    requires j in after.instances && after.instances == opening.state.instances[j := after.instances[j]]
    requires var a, b := opening.state.instances[j], after.instances[j]; b.tripId == a.tripId && b.held == a.held
    requires NamesCall(record) ==> Fits(opening.state.instances[j], j, ctx, record)
    requires !record.SnapshotJourney? && result.ObservationResult?
    ensures Accounts(s, after, opening.effects + [record, result], ctx, j)
  {
    LayoutKeeps(opening.state.instances[j], after.instances[j], [record, result], j, ctx);
    OneAccounts(s, opening, after, [record, result], ctx, j);
  }

  lemma AssignAccounts(s: State, opening: Stepped, m: Match, o: Observation, fact: PlatformFact, ctx: Context)
    requires OpenedWith(s, opening, ctx, m.journey) && LaidAll(opening.state, ctx)
    requires Anchored(opening.state.instances[m.journey].journeys)
    requires LaidAll(AssignPlatform(opening, m, o, fact, ctx).state, ctx)
    ensures var stepped := AssignPlatform(opening, m, o, fact, ctx); Accounts(s, stepped.state, stepped.effects, ctx, m.journey)
  {
    var instance, after := opening.state.instances[m.journey], AssignPlatform(opening, m, o, fact, ctx).state;
    var result := ObservationResult(Some(m.journey), None, Publics(instance), None);
    match BoardCall(m.trip.calls, m.journey.day, fact, ctx)
    case None => PlatformAccounts(s, opening, m.journey, after, Unresolved(fact.station), result, ctx);
    case Some(i) =>
      if i >= |instance.calls| {
        LayoutKeeps(instance, instance, [], m.journey, ctx);
        OneAccounts(s, opening, after, [], ctx, m.journey);
        assert opening.effects + [] == opening.effects;
      } else {
        var platform := Platform(fact.value, fact.numbering, o.receivedAt, o.source);
        var public := PublicCall(instance.journey, instance.journeys, instance.calls, i, fact.kind);
        PlatformFits(instance, m.journey, ctx, i, fact.kind, platform);
        PlatformAccounts(s, opening, m.journey, after,
                         RecordPlatform(public.0, instance.calls[i].location, public.1, fact.kind, platform), result, ctx);
      }
  }

  /** A change of one journey that leaves its trip and its held events and gives no event. */
  lemma SilentAccounts(s: State, opening: Stepped, j: JourneyKey, after: State, tail: seq<Effect>, ctx: Context)
    requires OpenedWith(s, opening, ctx, j) && LaidAll(after, ctx)
    requires j in after.instances && after.instances == opening.state.instances[j := after.instances[j]]
    requires var a, b := opening.state.instances[j], after.instances[j]; b.tripId == a.tripId && b.held == a.held
    requires forall e <- tail :: !NamesCall(e) && !e.SnapshotJourney?
    ensures Accounts(s, after, opening.effects + tail, ctx, j)
  {
    OneAccounts(s, opening, after, tail, ctx, j);
  }

  lemma CancelJourneyShape(opening: Stepped, j: JourneyKey, o: Observation) returns (tail: seq<Effect>)
    requires j in opening.state.instances
    ensures var stepped := CancelJourney(opening, j, o);
            && stepped.effects == opening.effects + tail && (forall e <- tail :: !NamesCall(e) && !e.SnapshotJourney?)
            && j in stepped.state.instances
            && stepped.state.instances == opening.state.instances[j := stepped.state.instances[j]]
            && stepped.state.instances[j].tripId == opening.state.instances[j].tripId
            && stepped.state.instances[j].held == opening.state.instances[j].held
  {
    var instance := opening.state.instances[j];
    var records := if Cancellable(instance) then CancellationRecords(instance, o.source, o.At(), true) else [];
    var result := ObservationResult(Some(j), None, Publics(instance), Some(o.receivedAt));
    tail := records + [result];
    assert opening.effects + records + [result] == opening.effects + tail;
  }

  lemma CancelJourneyAccounts(s: State, opening: Stepped, j: JourneyKey, o: Observation, ctx: Context)
    requires OpenedWith(s, opening, ctx, j) && LaidAll(CancelJourney(opening, j, o).state, ctx)
    ensures var stepped := CancelJourney(opening, j, o); Accounts(s, stepped.state, stepped.effects, ctx, j)
  {
    var tail := CancelJourneyShape(opening, j, o);
    SilentAccounts(s, opening, j, CancelJourney(opening, j, o).state, tail, ctx);
  }

  lemma StepAccounts(s: State, o: Observation, ctx: Context, tripOf: TripOf) returns (j: JourneyKey)
    requires OneTrip(ctx, tripOf) && Aligned(s, ctx, tripOf) && o.feed == s.feed
    requires LaidAll(Step(s, o, ctx).state, ctx)
    ensures var stepped := Step(s, o, ctx); Accounts(s, stepped.state, stepped.effects, ctx, j)
  {
    j := JourneyKey("", "", "", 0);
    match VehicleOf(o)
    case Some(v) => j := StepVehicleAccounts(s, o, v, ctx, tripOf);
    case None =>
      var at := if o.facts.platform.Some? then o.facts.platform.value.scheduled else o.At();
      BindProper(o, ctx, at);
      if !(o.facts.platform.Some? || o.facts.cancelled) || Bind(o, ctx, at).Missed? {
        FewerAccounts(s, Step(s, o, ctx).state, Step(s, o, ctx).effects, ctx, j);
      } else {
        j := Bind(o, ctx, at).m.journey;
        OpenedAccounts(s, o, ctx, tripOf, Bind(o, ctx, at).m);
      }
  }

  lemma OpenedAccounts(s: State, o: Observation, ctx: Context, tripOf: TripOf, m: Match)
    requires OneTrip(ctx, tripOf) && Aligned(s, ctx, tripOf) && o.feed == s.feed && VehicleOf(o) == None
    requires o.facts.platform.Some? || o.facts.cancelled
    requires Known(m.trip, ctx) && LaidAll(Step(s, o, ctx).state, ctx)
    requires Bind(o, ctx, if o.facts.platform.Some? then o.facts.platform.value.scheduled else o.At()) == Matched(m)
    ensures var stepped := Step(s, o, ctx); Accounts(s, stepped.state, stepped.effects, ctx, m.journey)
  {
    BindAgrees(o, ctx, if o.facts.platform.Some? then o.facts.platform.value.scheduled else o.At(), tripOf);
    OpenAligned(s, m, ctx, o, tripOf);
    OpenOpens(s, m, ctx, o);
    var opening := Open(s, m, ctx, o);
    assert Standing(opening.state.instances[m.journey], m.journey);
    AlignedLaid(opening.state, ctx, tripOf);
    if o.facts.platform.Some? {
      AssignAccounts(s, opening, m, o, o.facts.platform.value, ctx);
    } else {
      CancelJourneyAccounts(s, opening, m.journey, o, ctx);
    }
  }

  lemma AlignedLaid(s: State, ctx: Context, tripOf: TripOf)
    requires Aligned(s, ctx, tripOf)
    ensures LaidAll(s, ctx)
  {
    forall j | j in s.instances ensures Laid(s.instances[j], j, ctx) {
      assert LaidOn(s.instances[j], j, ctx, tripOf);
    }
  }

  lemma ArrivalFits(instance: Instance, j: JourneyKey, ctx: Context, i: int, interval: Interval, source: string)
    requires Laid(instance, j, ctx) && Anchored(instance.journeys) && 0 <= i < |instance.calls|
    ensures var public := PublicCall(instance.journey, instance.journeys, instance.calls, i, Arrival);
            Fits(instance, j, ctx, WriteEvent(public.0, instance.calls[i].location, public.1, Arrival, interval, source))
  {
    var a := TripleFits(instance, j, ctx, i, Arrival);
    var public := PublicCall(instance.journey, instance.journeys, instance.calls, i, Arrival);
    assert ListedAs(Shown(instance, j, ctx)[a],
                    WriteEvent(public.0, instance.calls[i].location, public.1, Arrival, interval, source));
  }

  lemma ArrivedFits(instance: Instance, j: JourneyKey, ctx: Context)
    requires Laid(instance, j, ctx) && Anchored(instance.journeys) && instance.calls != []
    requires ArrivedUnseen(instance, ctx).Some?
    ensures Fits(instance, j, ctx, ArrivedUnseen(instance, ctx).value.1)
  {
    var e := ArrivedUnseen(instance, ctx).value.1;
    ArrivalFits(instance, j, ctx, |instance.calls| - 1, e.interval, e.source);
  }

  lemma RefreshOneFits(instance: Instance, j: JourneyKey, unconfirmed: bool, now: int, ctx: Context)
    requires Laid(instance, j, ctx) && Anchored(instance.journeys) && instance.calls != []
    ensures var r := RefreshOne(instance, unconfirmed, now, ctx);
            && Laid(r.instance, j, ctx) && r.instance.tripId == instance.tripId && r.instance.held == instance.held
            && (r.event.Some? ==> Fits(r.instance, j, ctx, r.event.value))
  {
    var r := RefreshOne(instance, unconfirmed, now, ctx);
    RefreshOneLayout(instance, unconfirmed, now, ctx);
    SameLayoutLaid(instance, r.instance, j, ctx);
    if r.event.Some? {
      RefreshEventFits(instance, j, unconfirmed, now, ctx);
      FitsSame(instance, r.instance, j, ctx, r.event.value);
    }
  }

  lemma RefreshEventFits(instance: Instance, j: JourneyKey, unconfirmed: bool, now: int, ctx: Context)
    requires Laid(instance, j, ctx) && Anchored(instance.journeys) && instance.calls != []
    requires RefreshOne(instance, unconfirmed, now, ctx).event.Some?
    ensures Fits(instance, j, ctx, RefreshOne(instance, unconfirmed, now, ctx).event.value)
  {
    var r := RefreshOne(instance, unconfirmed, now, ctx);
    var flagged := instance.(freshness := r.instance.freshness);
    SameLayoutLaid(instance, flagged, j, ctx);
    assert r.event.value == ArrivedUnseen(flagged, ctx).value.1;
    ArrivedFits(flagged, j, ctx);
    FitsSame(flagged, instance, j, ctx, r.event.value);
  }

  lemma RefreshedFits(s: State, now: int, ctx: Context, j: JourneyKey)
    requires AllFit(s.instances) && LaidAll(s, ctx) && LaidAll(Refresh(s, now, ctx), ctx)
    requires j in s.instances && Kept(s, j, now, ctx) && RefreshJourney(s, j, now, ctx).event.Some?
    ensures FitsSome(Refresh(s, now, ctx), ctx, RefreshJourney(s, j, now, ctx).event.value)
  {
    RefreshOneFits(s.instances[j], j, Unconfirmed(Remembered(s, now, ctx), j), now, ctx);
    assert Fits(Refresh(s, now, ctx).instances[j], j, ctx, RefreshJourney(s, j, now, ctx).event.value);
  }

  lemma {:induction false} RefreshEffectsFit(s: State, now: int, ctx: Context, order: seq<JourneyKey>)
    requires AllFit(s.instances) && LaidAll(s, ctx) && LaidAll(Refresh(s, now, ctx), ctx)
    ensures forall e <- RefreshEffects(s, now, ctx, order) :: FitsSome(Refresh(s, now, ctx), ctx, e)
  {
    if order != [] {
      var j := order[|order| - 1];
      RefreshEffectsFit(s, now, ctx, order[..|order| - 1]);
      if j in s.instances && Kept(s, j, now, ctx) && RefreshJourney(s, j, now, ctx).event.Some? {
        RefreshedFits(s, now, ctx, j);
      }
    }
  }

  lemma RefreshAccounts(s: State, now: int, ctx: Context, order: seq<JourneyKey>, j: JourneyKey)
    requires AllFit(s.instances) && LaidAll(s, ctx) && LaidAll(Refresh(s, now, ctx), ctx)
    ensures Accounts(s, Refresh(s, now, ctx), RefreshEffects(s, now, ctx, order), ctx, j)
  {
    var after := Refresh(s, now, ctx);
    RefreshEffectsWrite(s, now, ctx, order);
    RefreshEffectsFit(s, now, ctx, order);
    forall k | k in after.instances
      ensures after.instances[k].tripId == s.instances[k].tripId && after.instances[k].held == s.instances[k].held
    {
      RefreshOneFits(s.instances[k], k, Unconfirmed(Remembered(s, now, ctx), k), now, ctx);
    }
  }

  lemma EstimateAccounts(s: State, now: int, ctx: Context, j: JourneyKey)
    requires LaidAll(EstimateAll(s, now, ctx), ctx)
    ensures Accounts(s, EstimateAll(s, now, ctx), [], ctx, j)
  {
    var after := EstimateAll(s, now, ctx);
    assert forall k <- after.instances :: after.instances[k].tripId == s.instances[k].tripId && after.instances[k].held == s.instances[k].held;
  }

  // ----- release switches ----------------------------------------------------------------------

  /** A moved journey's snapshots are those of what it now is. */
  lemma JourneySpells(s: State, ctx: Context, j: JourneyKey)
    requires Resolvable(s, ctx) && j in s.instances && s.instances[j].journey == j && Resolve(j, ctx).Some?
    ensures var after := RebasedInstance(s.instances[j], j, Resolve(j, ctx).value, ctx);
            Laid(after, j, ctx) && Spells(JourneySnapshots(s, ctx, j), Shown(after, j, ctx))
  {
    var trip := Resolve(j, ctx).value;
    RebasedLaid(s.instances[j], j, ctx);
    SnapshotsSpell(ctx.feed, trip, j, ctx.releaseId, s.instances[j].freshness.updatedAt);
  }

  /** What the snapshots of one moved journey say: its own public journeys, and no other's. */
  lemma JourneyNewest(s: State, ctx: Context, j: JourneyKey)
    requires Resolvable(s, ctx) && j in s.instances && forall k <- s.instances :: s.instances[k].journey == k
    requires LaidAll(Rebase(s, ctx), ctx) && Unshared(Rebase(s, ctx), ctx)
    ensures var snapshots := JourneySnapshots(s, ctx, j);
            && (forall a, l | RunsAs(Rebase(s, ctx), ctx, j, a, l) :: Newest(snapshots, l.public) == Some(l.calls))
            && (forall public | Newest(snapshots, public).Some? ::
                  exists a, l :: RunsAs(Rebase(s, ctx), ctx, j, a, l) && l.public == public)
  {
    var after, snapshots := Rebase(s, ctx), JourneySnapshots(s, ctx, j);
    if Resolve(j, ctx).Some? {
      JourneySpells(s, ctx, j);
      ShownApart(after, ctx, j);
      var shown := Shown(after.instances[j], j, ctx);
      NewestSpelled(snapshots, shown);
      forall public | Newest(snapshots, public).Some? ensures exists a, l :: RunsAs(after, ctx, j, a, l) && l.public == public {
        var a :| 0 <= a < |shown| && shown[a].public == public;
        assert RunsAs(after, ctx, j, a, shown[a]);
      }
    }
  }

  lemma {:induction false} RebaseNewest(s: State, ctx: Context, order: seq<JourneyKey>, k: JourneyKey, a: int, l: Listing)
    requires Resolvable(s, ctx) && forall j <- s.instances :: s.instances[j].journey == j
    requires LaidAll(Rebase(s, ctx), ctx) && Unshared(Rebase(s, ctx), ctx)
    requires k in order && RunsAs(Rebase(s, ctx), ctx, k, a, l)
    ensures Newest(RebaseEffects(s, ctx, order), l.public) == Some(l.calls)
    decreases |order|
  {
    var front, j := order[..|order| - 1], order[|order| - 1];
    if j in s.instances {
      NewestMore(RebaseEffects(s, ctx, front), JourneySnapshots(s, ctx, j), l.public);
      JourneyNewest(s, ctx, j);
    }
    if j != k {
      RebaseNewest(s, ctx, front, k, a, l);
    }
  }

  lemma {:induction false} RebaseGivenLive(s: State, ctx: Context, order: seq<JourneyKey>, public: JourneyKey)
    requires Resolvable(s, ctx) && forall j <- s.instances :: s.instances[j].journey == j
    requires LaidAll(Rebase(s, ctx), ctx) && Unshared(Rebase(s, ctx), ctx)
    requires Newest(RebaseEffects(s, ctx, order), public).Some?
    ensures exists j, a, l :: RunsAs(Rebase(s, ctx), ctx, j, a, l) && l.public == public
    decreases |order|
  {
    var front, j := order[..|order| - 1], order[|order| - 1];
    if j in s.instances {
      NewestMore(RebaseEffects(s, ctx, front), JourneySnapshots(s, ctx, j), public);
      JourneyNewest(s, ctx, j);
    }
    if j !in s.instances || Newest(JourneySnapshots(s, ctx, j), public).None? {
      RebaseGivenLive(s, ctx, front, public);
    } else {
      var a, l :| RunsAs(Rebase(s, ctx), ctx, j, a, l) && l.public == public;
    }
  }

  /** After a switch the newest snapshots are those of the new release. */
  lemma RebaseShown(log: seq<Effect>, s: State, ctx: Context, order: seq<JourneyKey>)
    requires Resolvable(s, ctx) && (forall j <- s.instances :: s.instances[j].journey == j) && Enumerates(order, s.instances.Keys)
    requires LaidAll(Rebase(s, ctx), ctx) && Unshared(Rebase(s, ctx), ctx)
    ensures AllShown(log + RebaseEffects(s, ctx, order), Rebase(s, ctx), ctx)
    ensures GivenLive(RebaseEffects(s, ctx, order), Rebase(s, ctx), ctx)
  {
    var effects, after := RebaseEffects(s, ctx, order), Rebase(s, ctx);
    forall j, a, l | RunsAs(after, ctx, j, a, l) ensures Newest(log + effects, l.public) == Some(l.calls) {
      RebaseNewest(s, ctx, order, j, a, l);
      NewestMore(log, effects, l.public);
    }
    forall public | Newest(effects, public).Some? ensures exists j, a, l :: RunsAs(after, ctx, j, a, l) && l.public == public {
      RebaseGivenLive(s, ctx, order, public);
    }
  }

  /** A switch onto a trip that no longer has the call of an event held, while the journey still runs under the
      event's public journey: the event stays held, and the newest snapshot does not list it. */
  lemma DroppedCallHeld(
    log: seq<Effect>, s: State, ctx: Context, order: seq<JourneyKey>, j: JourneyKey, i: int, a: int, l: Listing)
    requires Resolvable(s, ctx) && (forall k <- s.instances :: s.instances[k].journey == k) && Enumerates(order, s.instances.Keys)
    requires LaidAll(Rebase(s, ctx), ctx) && Unshared(Rebase(s, ctx), ctx)
    requires RunsAs(Rebase(s, ctx), ctx, j, a, l) && 0 <= i < |s.instances[j].held|
    requires var e := s.instances[j].held[i]; l.public == e.public && !Lists(l.calls, e.location, e.visit)
    ensures Rebase(s, ctx).instances[j].held[i] == s.instances[j].held[i]
    ensures !NewestLists(log + RebaseEffects(s, ctx, order), s.instances[j].held[i])
  {
    RebaseShown(log, s, ctx, order);
  }

  // ----- whole runs ----------------------------------------------------------------------------

  /** Through the run no two live public journeys are one. */
  ghost predicate UnsharedRun(w: World, ops: seq<Op>)
    requires Ready(w) && AllowedRun(w, ops)
    decreases |ops|
  {
    var after := After(w, ops);
    && LaidAll(after.state, after.ctx) && Unshared(after.state, after.ctx)
    && (ops != [] ==> UnsharedRun(w, ops[..|ops| - 1]))
  }

  /** Through the run no live journey lacks, under its public journey's name, the call of an event held. */
  ghost predicate FitsThroughout(w: World, ops: seq<Op>)
    requires Ready(w) && AllowedRun(w, ops)
    decreases |ops|
  {
    var after := After(w, ops);
    && LaidAll(after.state, after.ctx) && HeldFitting(after.state, after.ctx)
    && (ops != [] ==> FitsThroughout(w, ops[..|ops| - 1]))
  }

  /** Through the run every event and platform given, when it is given, and every event held, at any time, names
      a call of the newest snapshot of its public journey. */
  ghost predicate NewestThroughout(w: World, ops: seq<Op>)
    requires Ready(w) && AllowedRun(w, ops)
    decreases |ops|
  {
    && HeldListed(Log(w, ops), After(w, ops).state)
    && (ops != [] ==>
          NewestThroughout(w, ops[..|ops| - 1])
          && forall e <- Apply(After(w, ops[..|ops| - 1]), ops[|ops| - 1]).effects :: NewestLists(Log(w, ops), e))
  }

  lemma ApplyAccounts(w: World, op: Op) returns (j: JourneyKey)
    requires AlignedWorld(w) && Ready(w) && Allowed(w, op) && !op.Switch?
    requires LaidAll(w.state, w.ctx) && LaidAll(Apply(w, op).world.state, w.ctx)
    ensures var out := Apply(w, op); Accounts(w.state, out.world.state, out.effects, w.ctx, j)
  {
    j := JourneyKey("", "", "", 0);
    match op
    case Observe(o) =>
      var tripOf :| OneTrip(w.ctx, tripOf) && Aligned(w.state, w.ctx, tripOf);
      j := StepAccounts(w.state, o, w.ctx, tripOf);
    case Housekeep(now, order) =>
      InvFits(w.state, w.ctx);
      RefreshAccounts(w.state, now, w.ctx, order, j);
    case Estimating(now) => EstimateAccounts(w.state, now, w.ctx, j);
  }

  /** One operation: the newest snapshots stay those of the live journeys; what it gives is listed by them, and
      what is then held exactly if it fits. */
  lemma ApplyNewest(log: seq<Effect>, w: World, op: Op)
    requires AlignedWorld(w) && Ready(w) && Allowed(w, op)
    requires LaidAll(w.state, w.ctx) && AllShown(log, w.state, w.ctx)
    requires var after := Apply(w, op).world; LaidAll(after.state, after.ctx) && Unshared(after.state, after.ctx)
    ensures var out := Apply(w, op); AllShown(log + out.effects, out.world.state, out.world.ctx)
    ensures var out := Apply(w, op);
            HeldListed(log, w.state) ==>
              && (forall e <- out.effects :: NewestLists(log + out.effects, e))
              && (HeldListed(log + out.effects, out.world.state) <==> HeldFitting(out.world.state, out.world.ctx))
  {
    var out := Apply(w, op);
    if op.Switch? {
      SwitchNewest(log, w.state, op.ctx, op.order);
    } else {
      var j := ApplyAccounts(w, op);
      OpensShown(log, w.state, out.world.state, out.effects, w.ctx, j);
      if HeldListed(log, w.state) {
        GivenListed(log, w.state, out.world.state, out.effects, w.ctx);
        HeldExact(log, w.state, out.world.state, out.effects, w.ctx);
      }
    }
  }

  lemma SwitchNewest(log: seq<Effect>, s: State, ctx: Context, order: seq<JourneyKey>)
    requires Resolvable(s, ctx) && Enumerates(order, s.instances.Keys) && forall j <- s.instances :: Standing(s.instances[j], j)
    requires LaidAll(Rebase(s, ctx), ctx) && Unshared(Rebase(s, ctx), ctx)
    ensures AllShown(log + RebaseEffects(s, ctx, order), Rebase(s, ctx), ctx)
    ensures HeldListed(log, s) ==>
              && (forall e <- RebaseEffects(s, ctx, order) :: NewestLists(log + RebaseEffects(s, ctx, order), e))
              && (HeldListed(log + RebaseEffects(s, ctx, order), Rebase(s, ctx)) <==> HeldFitting(Rebase(s, ctx), ctx))
  {
    RebaseShown(log, s, ctx, order);
    RebaseEffectsQuiet(s, ctx, order);
    if HeldListed(log, s) {
      HeldExact(log, s, Rebase(s, ctx), RebaseEffects(s, ctx, order), ctx);
    }
  }

  lemma NewestStep(w: World, ops: seq<Op>)
    requires Ready(w) && AllowedRun(w, ops) && ops != [] && UnsharedRun(w, ops)
    requires AlignedWorld(After(w, ops[..|ops| - 1]))
    requires var front := ops[..|ops| - 1];
             && UnsharedRun(w, front)
             && AllShown(Log(w, front), After(w, front).state, After(w, front).ctx)
             && (NewestThroughout(w, front) <==> FitsThroughout(w, front))
    ensures AllShown(Log(w, ops), After(w, ops).state, After(w, ops).ctx)
    ensures NewestThroughout(w, ops) <==> FitsThroughout(w, ops)
  {
    var front := ops[..|ops| - 1];
    ApplyNewest(Log(w, front), After(w, front), ops[|ops| - 1]);
  }

  /** Over any run on releases that name one trip per journey, no two live public journeys being one: the newest
      snapshot of each is that of the live instance, and all that is given or held names a call of the newest
      snapshot of its journey if and only if at no time a live journey lacks, under the same public journey, the
      call of an event still held. */
  lemma {:induction false} NewestExact(w: World, ops: seq<Op>)
    requires AlignedWorld(w) && Ready(w) && AllowedRun(w, ops) && OneTripOps(ops) && w.state.instances == map[]
    requires UnsharedRun(w, ops)
    ensures AllShown(Log(w, ops), After(w, ops).state, After(w, ops).ctx)
    ensures NewestThroughout(w, ops) <==> FitsThroughout(w, ops)
    decreases |ops|
  {
    if ops != [] {
      var front := ops[..|ops| - 1];
      FrontOneTrip(ops);
      AfterAligned(w, front);
      NewestExact(w, front);
      NewestStep(w, ops);
    }
  }

  lemma FrontOneTrip(ops: seq<Op>)
    requires OneTripOps(ops) && ops != []
    ensures OneTripOps(ops[..|ops| - 1])
  {
    assert forall i | 0 <= i < |ops| - 1 :: ops[..|ops| - 1][i] == ops[i];
  }
}
