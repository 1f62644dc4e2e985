/** The interface of the helpers the application imports from utils.ts. Their bodies
    (network lookups, corridor and zone geometry, the fee tiers, the time estimate)
    are not part of this model: each is an arbitrary total function supplied by the
    caller, so every property proved here holds whatever those helpers compute. */
module Collaborators {
  import opened Wrappers
  import opened Types

  /** A GeoJSON position as returned by the routing service: longitude first. */
  datatype Position = Position(lng: real, lat: real)

  /** The route geometry handed back by the routing service (a GeoJSON line). */
  datatype RouteGeometry = LineString(coordinates: seq<Position>)

  /** A geocoding hit. */
  datatype GeocodeHit = GeocodeHit(lat: real, lng: real, displayName: string)

  /** A routing hit: one-way distance in kilometres plus the path. */
  datatype RouteInfo = RouteInfo(distanceKm: real, geometry: RouteGeometry)

  /** The six imported helpers. The lookups are asynchronous network requests in the
      source. A calculation awaits the geocoder twice, first for the origin and then for
      the destination, and the router once. Each of those three requests is its own
      function of what it is sent. So the two geocoding answers may differ even for
      the same address text, as two real requests can. */
  datatype Services = Services(
    geocodeOrigin: string -> Option<GeocodeHit>,
    geocodeDestination: string -> Option<GeocodeHit>,
    getRouteData: (Location, Location) -> Option<RouteInfo>,
    checkPassesDonBosco: RouteGeometry -> bool,
    checkSpecialZones: Location -> bool,
    calculateShippingFee: (real, TariffType, bool, bool) -> real,
    estimateTime: real -> int)
}
