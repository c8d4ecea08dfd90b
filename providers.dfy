/**
 * The four external services, as functions from the parameters of one request to the
 * decoded JSON body or the failure of the HTTP round trip. Building the query text, the
 * HTTP transport and JSON decoding happen inside these functions and are not modelled.
 */
module Providers {
  import opened Wrappers
  import opened JsonData
  import opened PyOps

  /** Why `requests` did not deliver a decoded body (`raise_for_status`, timeouts, `.json()`). */
  datatype FetchError = TransportError | UpstreamStatus(code: int) | UndecodableBody

  /** What escapes a source call: the fetch failure or the exception raised while reading the body. */
  datatype Fault = FetchFailed(err: FetchError) | Raised(exc: PyError)

  type Response = Result<Json, FetchError>

  /** The four Overpass POI categories, in the order `poi_counts` queries them. */
  datatype Category = Restaurants | Bars | Cafes | Shops {
    /** The key of this category in the POI result. */
    function Key(): string {
      match this
      case Restaurants => "restaurants"
      case Bars => "bars"
      case Cafes => "cafes"
      case Shops => "shops"
    }
  }

  /** The two ArcGIS queries `crime_counts` issues against the same feature layer. */
  datatype CrimeQuery =
    | CountOnly(latKey: real, lonKey: real, radiusM: int)
    | GroupedByType(latKey: real, lonKey: real, radiusM: int)

  datatype Providers = Providers(
    /** Census geocoder: (lat_key, lon_key) -> body. */
    geocoder: (real, real) -> Response,
    /** Census ACS 5-year: (state_fips, county_fips, tract) -> body. */
    acs: (Json, Json, Json) -> Response,
    /** Overpass: (lat_key, lon_key, radius_m, category) -> body. */
    overpass: (real, real, int, Category) -> Response,
    /** Baltimore Police ArcGIS crime layer. */
    arcgis: CrimeQuery -> Response)

  /** The decoded body, or the fetch failure as a fault. */
  function Fetched(r: Response): Result<Json, Fault> {
    r.MapError(e => FetchFailed(e))
  }

  /** A Python-level result, with its exception as a fault. */
  function Lift<T>(r: Result<T, PyError>): Result<T, Fault> {
    r.MapError(e => Raised(e))
  }
}
