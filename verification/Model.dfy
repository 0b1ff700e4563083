/** The values the realtime core, the run layout and the static index share: identities, static
    trips, journey instances, vehicles and effects. Instants are microseconds since the epoch,
    days are day numbers and schedule times are seconds of the service day. */
module Model {
  datatype Option<+T> = None | Some(value: T)

  // ----- static data ---------------------------------------------------------------------------

  /** A published trip's own ID, or the synthetic ID of a run trip: the run and the part numbers
      it was built from. */
  datatype TripId =
    | Published(id: string)
    | RunOf(run: string, numbers: seq<Option<int>>)
    | AmbiguousRun(run: string)

  datatype Call = Call(
    sequence: int,
    location: string,
    visit: int,
    passenger: bool,
    arrival: Option<int>,
    departure: Option<int>,
    onRequest: bool,
    point: Option<string>)

  /** One part of a run as published: the stretch of the run's calls it has, both ends included. */
  datatype TripPart = TripPart(tripId: TripId, number: Option<string>, first: int, last: int)

  datatype Trip = Trip(
    tripId: TripId,
    routeId: string,
    routeName: string,
    mode: string,
    serviceId: string,
    headsign: Option<string>,
    shapeId: Option<string>,
    calls: seq<Call>,
    runKey: Option<string>,
    runPart: Option<int>,
    trainNumber: Option<string>,
    parts: seq<TripPart>,
    agencyId: Option<string>)

  datatype KeyRef = KeyRef(namespace: string, identifier: string)

  /** What a source key stands for, between two service days. */
  datatype KeyEntry = KeyEntry(publicId: string, validFrom: int, validTo: int) {
    predicate ValidOn(day: int) {
      validFrom <= day <= validTo
    }
  }

  // ----- identity ------------------------------------------------------------------------------

  datatype VehicleId = VehicleId(source: string, vehicle: string)
  datatype JourneyKey = JourneyKey(feed: string, namespace: string, key: string, day: int)

  datatype Reason =
    | NoKey | NoLine | NoTrip | NotActive | NotInService | AmbiguousKey | Untimed | StaleKey

  datatype BindingMethod = Keyed | Inferred

  datatype Binding = Binding(
    vehicle: VehicleId,
    journey: JourneyKey,
    tripId: TripId,
    how: BindingMethod,
    boundAt: int,
    confirmed: bool)

  // ----- observations --------------------------------------------------------------------------

  datatype EventKind = Arrival | Departure | Passage
  datatype Interval = Interval(lo: int, hi: int)
  datatype Position = Position(lat: real, lon: real, bearing: Option<real>)
  datatype PlatformFact = PlatformFact(station: string, kind: EventKind, scheduled: int, value: string, numbering: string)

  /** An observation's facts as the core reads them: the first of each type, every trip key, and
      `other`, which stands for the facts only the tracker reads. */
  datatype Facts = Facts(
    vehicle: Option<string>,
    keys: seq<KeyRef>,
    line: Option<KeyRef>,
    position: Option<Position>,
    sourceState: Option<string>,
    sourceDeparture: Option<int>,
    serviceDay: Option<int>,
    cancelled: bool,
    platform: Option<PlatformFact>,
    other: int)

  datatype Observation = Observation(
    source: string,
    channel: string,
    feed: string,
    receivedAt: int,
    observedAt: Option<int>,
    facts: Facts)
  {
    /** The best time of the observation: the source time, else reception. */
    function At(): int {
      if observedAt.Some? then observedAt.value else receivedAt
    }
  }

  // ----- instance state ------------------------------------------------------------------------

  datatype Lifecycle = Forecast | PreTrip | Running | Finished | Cancelled
  datatype CallStatus = Scheduled | Predicted | Actual | InferredCall | NoRealtime | CancelledCall

  datatype Platform = Platform(value: string, numbering: string, assignedAt: int, source: string)

  datatype CallState = CallState(
    sequence: int,
    location: string,
    visit: int,
    arrival: Option<Interval>,
    departure: Option<Interval>,
    estimatedArrival: Option<int>,
    estimatedDeparture: Option<int>,
    status: CallStatus,
    sourceClass: Option<string>,
    passedArrival: Option<int>,
    passedDeparture: Option<int>,
    passenger: bool,
    platform: Option<Platform>)
  {
    /** A copy with new estimates; everything observed stays. */
    function Estimated(arrival: Option<int>, departure: Option<int>, status: CallStatus, sourceClass: Option<string>)
      : CallState
    {
      this.(estimatedArrival := arrival, estimatedDeparture := departure, status := status, sourceClass := sourceClass)
    }
  }

  datatype Progress = Progress(callIndex: int, at: int)
  datatype Freshness = Freshness(updatedAt: int, heardAt: int, stale: bool, lost: bool)
  datatype Lead = Lead(vehicle: VehicleId, seen: int)

  /** A public journey over the calls `first..last` of a run instance. */
  datatype JourneySpan = JourneySpan(journey: JourneyKey, first: int, last: int)

  /** A published part over the calls `first..last` of a run instance. */
  datatype PartSpan = PartSpan(tripId: TripId, first: int, last: int)

  /** `track` and `rest` stand for the fields only the tracker and the emitters read. */
  datatype Instance = Instance(
    journey: JourneyKey,
    releaseId: string,
    tripId: TripId,
    mode: string,
    lifecycle: Lifecycle,
    calls: seq<CallState>,
    freshness: Freshness,
    progress: Option<Progress>,
    track: Option<int>,
    lead: Option<Lead>,
    sourceLeads: map<string, Lead>,
    journeys: seq<JourneySpan>,
    parts: seq<PartSpan>,
    trackSource: Option<string>,
    held: seq<HistoryEvent>,
    rest: int)

  datatype Episode = Episode(line: string, destination: string, startedAt: int, lastAt: int, rest: int)

  datatype VehicleStatus = OnTrip | Positioning | Layover | Unmatched | OutOfService

  datatype VehicleState = VehicleState(
    vehicle: VehicleId,
    status: VehicleStatus,
    lastSeen: int,
    tripKey: Option<KeyRef>,
    binding: Option<Binding>,
    position: Option<Position>,
    positionAt: Option<int>,
    reason: Option<Reason>,
    episode: Option<Episode>,
    facts: Facts,
    since: int)

  /** The live state of one feed. */
  datatype State = State(
    feed: string,
    vehicles: map<VehicleId, VehicleState>,
    instances: map<JourneyKey, Instance>,
    dirty: set<JourneyKey>)

  // ----- effects -------------------------------------------------------------------------------

  datatype ScheduledCall = ScheduledCall(
    ordinal: int,
    location: string,
    visit: int,
    passenger: bool,
    arrival: Option<int>,
    departure: Option<int>)

  datatype Effect =
    | SnapshotJourney(journey: JourneyKey, at: int, releaseId: string, tripId: TripId, calls: seq<ScheduledCall>)
    | LinkJourneys(before: JourneyKey, after: JourneyKey)
    | WriteEvent(public: JourneyKey, location: string, visit: int, kind: EventKind, interval: Interval, source: string)
    | RecordPlatform(public: JourneyKey, location: string, visit: int, kind: EventKind, platform: Platform)
    | AssignVehicle(vehicle: VehicleId, public: JourneyKey, at: int)
    | RecordCancellation(public: JourneyKey, source: string, at: int, cancelled: bool)
    | ObservationResult(instance: Option<JourneyKey>, reason: Option<Reason>, publics: seq<JourneyKey>, since: Option<int>)
    | Unresolved(what: string)

  /** An event history keeps. */
  type HistoryEvent = e: Effect | e.WriteEvent?
    witness WriteEvent(JourneyKey("", "", "", 0), "", 0, Arrival, Interval(0, 0), "")
}
