/**
 * What the two location-aware components share about the browser's
 * Geolocation API: the error codes of a failed position request (section
 * 6.3, GeolocationPositionError, of the W3C Geolocation specification) and
 * the fallback position both components use, Jamsil station in Seoul.
 */
module Geolocation {

  /** The user refused the permission prompt. */
  const PermissionDenied: int := 1
  /** No position could be determined. */
  const PositionUnavailable: int := 2
  /** The request ran past its timeout (10 seconds in both components). */
  const Timeout: int := 3

  /** A code the error callbacks name in their `switch`; any other falls to `default`. */
  predicate IsKnownCode(code: int)
  {
    code == PermissionDenied || code == PositionUnavailable || code == Timeout
  }

  /** The fallback latitude and longitude (Jamsil station). */
  const DefaultLat: real := 37.5133
  const DefaultLng: real := 127.1028
}
