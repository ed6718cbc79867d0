/** The records the agency tools read and write: the GTFS route, stop and
    trip they are handed, the output trip whose headsign they set, the
    per-route direction declaration (`RouteTripSpec`) of the split
    registry, and the fatal errors they raise. */
module GtfsData {

  /** The fields of a GTFS route that the agency tools read. */
  datatype GRoute = GRoute(routeId: string, routeShortName: string, routeLongName: string)

  /** The fields of a GTFS stop that the agency tools read. */
  datatype GStop = GStop(stopId: string, stopCode: string)

  /** The fields of a GTFS trip that `setTripHeadsign` reads; `directionId`
      is the value the library's direction getter returns for it. */
  datatype GTrip = GTrip(tripHeadsign: string, directionId: int)

  /** The fatal conditions: `MTLog.Fatal` in the current version,
      a message and `System.exit(-1)` in the legacy one. */
  datatype Error =
    | UnexpectedRouteId(route: GRoute)
    | UnexpectedRouteLongName(route: GRoute)
    | UnexpectedRouteColor(route: GRoute)
    | UnexpectedStopId(stop: GStop)
    | UnexpectedTripsToMerge(trip: MTrip, tripToMerge: MTrip)

  /** An output trip.  Only the headsign it carries is modelled:
      `setHeadsignString(value, id)` records a string headsign and the
      direction id it belongs to. */
  class MTrip {
    var headsignValue: string
    var headsignId: int

    constructor (headsignValue: string, headsignId: int)
      ensures this.headsignValue == headsignValue && this.headsignId == headsignId
    {
      this.headsignValue := headsignValue;
      this.headsignId := headsignId;
    }

    method SetHeadsignString(value: string, id: int)
      modifies this
      ensures headsignValue == value && headsignId == id
    {
      headsignValue := value;
      headsignId := id;
    }
  }

  /** How a direction's headsign is given; every registry entry uses a string. */
  datatype HeadsignType = HeadsignTypeString

  /** One `addTripSort(directionId, stopIds)` call: the stop ids a trip
      in that direction passes, in order. */
  datatype TripSort = TripSort(directionId: int, stopIds: seq<string>)

  /** One entry of the split registry: the route id it is filed under, the
      two directions it declares (id, headsign type, headsign) and the stop
      orders added to it, in the order they were added. */
  datatype RouteTripSpec = RouteTripSpec(
    routeId: int,
    directionId0: int, headsignType0: HeadsignType, headsign0: string,
    directionId1: int, headsignType1: HeadsignType, headsign1: string,
    tripSorts: seq<TripSort>)
  {
    /** `addTripSort(directionId, stopIds)`: records the stop order of one
        direction after those already recorded. */
    function AddTripSort(directionId: int, stopIds: seq<string>): RouteTripSpec {
      this.(tripSorts := tripSorts + [TripSort(directionId, stopIds)])
    }

    /** The shape every registry entry has: directions 0 and 1 with two
        different headsigns, and exactly one non-empty stop order for
        direction 0 followed by one for direction 1. */
    predicate DeclaresBothDirections() {
      && directionId0 == 0 && directionId1 == 1
      && headsign0 != headsign1
      && |tripSorts| == 2
      && tripSorts[0].directionId == 0 && |tripSorts[0].stopIds| > 0
      && tripSorts[1].directionId == 1 && |tripSorts[1].stopIds| > 0
    }
  }

  /** `new RouteTripSpec(routeId, id0, type0, headsign0, id1, type1, headsign1)`:
      an entry with no stop orders yet. */
  function NewRouteTripSpec(
    routeId: int,
    directionId0: int, headsignType0: HeadsignType, headsign0: string,
    directionId1: int, headsignType1: HeadsignType, headsign1: string): RouteTripSpec
  {
    RouteTripSpec(routeId, directionId0, headsignType0, headsign0,
                  directionId1, headsignType1, headsign1, [])
  }

  /** How a route's trips are handled by `setTripHeadsign`, `splitTrip`,
      `splitTripStop` and `compareEarly`: through its registry entry, or by
      the library's default behaviour. */
  datatype Handling = SplitBySpec(spec: RouteTripSpec) | DefaultBehaviour

  /** An entry filed under `id` that carries that id and declares both
      directions. */
  predicate EntryWellFormed(id: int, spec: RouteTripSpec) {
    spec.routeId == id && spec.DeclaresBothDirections()
  }

  /** Every entry of a registry (`ALL_ROUTE_TRIPS2`) is well formed. */
  predicate RegistryWellFormed(registry: map<int, RouteTripSpec>) {
    forall id :: id in registry ==> EntryWellFormed(id, registry[id])
  }

  /** The guard shared by `setTripHeadsign`, `splitTrip`, `splitTripStop`
      and `compareEarly`: a route whose id the registry holds is handled
      through its entry, which is filed under that id and declares both
      directions; any other route by the library's default behaviour. */
  function TripHandling(registry: map<int, RouteTripSpec>, routeId: int): (h: Handling)
    requires RegistryWellFormed(registry)
    ensures h.SplitBySpec? <==> routeId in registry
    ensures h.SplitBySpec? ==> h.spec == registry[routeId]
    ensures h.SplitBySpec? ==> h.spec.routeId == routeId && h.spec.DeclaresBothDirections()
  {
    if routeId in registry then SplitBySpec(registry[routeId]) else DefaultBehaviour
  }
}
