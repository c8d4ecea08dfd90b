/** The `/api/features` endpoint: one request fanned out to every source (main.py:167-201). */
module Api {
  import opened Wrappers
  import opened JsonData
  import opened PyOps
  import opened Providers
  import opened Geography
  import opened Acs
  import opened Poi
  import opened Crime

  const TransitKeys: set<string> := {"nearest_stop_m", "stops_within_radius", "note"}

  /** `transit_stub`: placeholder fields, whatever the point and radius. */
  function TransitStub(lat: real, lon: real, radiusM: int): (r: map<string, Json>)
    ensures r.Keys == TransitKeys
    ensures r["nearest_stop_m"] == JNull && r["stops_within_radius"] == JNull
  {
    map["nearest_stop_m" := JNull, "stops_within_radius" := JNull, "note" := JStr("GTFS pending")]
  }

  /** The response dict of the endpoint. */
  datatype Features = Features(
    lat: real,
    lon: real,
    radiusM: int,
    census: map<string, Json>,
    poi: map<string, int>,
    crime: CrimeSummary,
    transit: map<string, Json>)

  /**
   * `acs_features` is memoised by `lru_cache`, which hashes its arguments before the body
   * runs: a code that is a JSON list or object raises TypeError before any ACS request.
   */
  predicate CacheableCodes(geo: map<string, Json>)
    requires geo.Keys == GeoKeys
  {
    Hashable(geo["state_fips"]) && Hashable(geo["county_fips"]) && Hashable(geo["tract"])
  }

  /** `census = dict(geo)`, extended with the ACS fields only when `geo` is non-empty. */
  function CensusRecord(geo: map<string, Json>, acs: (Json, Json, Json) -> Response)
    : (r: Result<map<string, Json>, Fault>)
    requires geo == map[] || geo.Keys == GeoKeys
    ensures geo == map[] ==> r == Ok(map[])
    ensures geo != map[] && !CacheableCodes(geo) ==> r == Err(Raised(TypeError))
    ensures r.Ok? && geo != map[] ==>
      r.value.Keys == GeoKeys + AcsKeys && forall k :: k in GeoKeys ==> r.value[k] == geo[k]
  {
    if geo == map[] then Ok(geo)
    else if !CacheableCodes(geo) then Err(Raised(TypeError))
    else
      var demographics :- AcsFeatures(acs(geo["state_fips"], geo["county_fips"], geo["tract"]));
      Ok(geo + demographics)
  }

  /**
   * The endpoint's answer, or the fault that escapes it. `roundKey` stands for
   * `_round_key(lat, lon, 3)`; the keyed sources see the rounded point, the echo and the
   * transit stub the raw one. Sources are consulted in the order the source evaluates them.
   */
  function FeaturesOf(lat: real, lon: real, radiusM: int,
                      roundKey: (real, real) -> (real, real), p: Providers)
    : (r: Result<Features, Fault>)
    ensures r.Ok? ==> r.value.lat == lat && r.value.lon == lon && r.value.radiusM == radiusM
    ensures r.Ok? ==> r.value.poi.Keys == PoiKeys && r.value.transit.Keys == TransitKeys
    ensures p.geocoder(roundKey(lat, lon).0, roundKey(lat, lon).1).Err? ==>
      r == Err(FetchFailed(p.geocoder(roundKey(lat, lon).0, roundKey(lat, lon).1).error))
  {
    var (latKey, lonKey) := roundKey(lat, lon);
    var geo :- GeographiesCall(p.geocoder(latKey, lonKey));
    var census :- CensusRecord(geo, p.acs);
    var poi :- PoiCounts(p.overpass, latKey, lonKey, radiusM);
    var crime :- CrimeCountsOf(p.arcgis(CountOnly(latKey, lonKey, radiusM)),
                               p.arcgis(GroupedByType(latKey, lonKey, radiusM)));
    Ok(Features(lat, lon, radiusM, census, poi, crime, TransitStub(lat, lon, radiusM)))
  }

  /** `api_features`; the framework admits only radii in [100, 2000]. */
  method ApiFeatures(lat: real, lon: real, radius: int,
                     roundKey: (real, real) -> (real, real), p: Providers)
    returns (r: Result<Features, Fault>)
    requires 100 <= radius <= 2000
    ensures r == FeaturesOf(lat, lon, radius, roundKey, p)
  {
    var (latKey, lonKey) := roundKey(lat, lon);
    var geo := GeographiesCall(p.geocoder(latKey, lonKey));
    if geo.Err? {
      return Err(geo.error);
    }
    var census := geo.value;
    if geo.value != map[] {
      var g := geo.value;
      if !CacheableCodes(g) {
        return Err(Raised(TypeError));
      }
      var demographics := AcsFeatures(p.acs(g["state_fips"], g["county_fips"], g["tract"]));
      if demographics.Err? {
        return Err(demographics.error);
      }
      census := census + demographics.value;
    }
    var poi := PoiCounts(p.overpass, latKey, lonKey, radius);
    if poi.Err? {
      return Err(poi.error);
    }
    var crime := CrimeCounts(p.arcgis, latKey, lonKey, radius);
    if crime.Err? {
      return Err(crime.error);
    }
    return Ok(Features(lat, lon, radius, census, poi.value, crime.value, TransitStub(lat, lon, radius)));
  }

  /** The stub is the same placeholder for every point and radius. */
  lemma TransitStubIsFixed(lat: real, lon: real, radiusM: int, lat': real, lon': real, radiusM': int)
    ensures TransitStub(lat, lon, radiusM) == TransitStub(lat', lon', radiusM')
    ensures TransitStub(lat, lon, radiusM).Keys == TransitKeys
    ensures TransitStub(lat, lon, radiusM)["nearest_stop_m"] == JNull
    ensures TransitStub(lat, lon, radiusM)["stops_within_radius"] == JNull
  {
  }

  /**
   * A response echoes the unrounded point and the radius, carries the four POI counts,
   * the crime summary of the rounded point and the fixed transit stub.
   */
  lemma FeaturesEcho(lat: real, lon: real, radiusM: int,
                     roundKey: (real, real) -> (real, real), p: Providers)
    ensures var r := FeaturesOf(lat, lon, radiusM, roundKey, p);
      var (latKey, lonKey) := roundKey(lat, lon);
      r.Ok? ==>
        && r.value.lat == lat && r.value.lon == lon && r.value.radiusM == radiusM
        && r.value.transit == TransitStub(lat, lon, radiusM)
        && r.value.poi == PoiCounts(p.overpass, latKey, lonKey, radiusM).value
        && r.value.poi.Keys == PoiKeys
        && Ok(r.value.crime) == CrimeCountsOf(p.arcgis(CountOnly(latKey, lonKey, radiusM)),
                                             p.arcgis(GroupedByType(latKey, lonKey, radiusM)))
  {
    var (latKey, lonKey) := roundKey(lat, lon);
    PoiCountsAllOrNothing(p.overpass, latKey, lonKey, radiusM);
  }

  /**
   * When the geocoder finds no geography, `census` is {} (no population or income keys)
   * and the ACS source is never consulted: replacing it changes nothing.
   */
  lemma FeaturesWithoutGeography(lat: real, lon: real, radiusM: int,
                                 roundKey: (real, real) -> (real, real), p: Providers,
                                 otherAcs: (Json, Json, Json) -> Response)
    requires var (latKey, lonKey) := roundKey(lat, lon);
      p.geocoder(latKey, lonKey).Ok? && CensusGeographies(p.geocoder(latKey, lonKey).value) == map[]
    ensures var r := FeaturesOf(lat, lon, radiusM, roundKey, p);
      && (r.Ok? ==> r.value.census == map[])
      && FeaturesOf(lat, lon, radiusM, roundKey, p.(acs := otherAcs)) == r
  {
  }

  /**
   * When the geocoder finds a geography, the ACS source is consulted with its three codes
   * exactly when the cache can hash them; otherwise the response fails with TypeError and
   * ACS plays no part. When it is consulted, its fault fails the response, otherwise
   * `census` is the geography plus the two ACS fields, and only the ACS answer for those
   * codes matters.
   */
  lemma FeaturesWithGeography(lat: real, lon: real, radiusM: int,
                              roundKey: (real, real) -> (real, real), p: Providers,
                              otherAcs: (Json, Json, Json) -> Response)
    requires var (latKey, lonKey) := roundKey(lat, lon);
      p.geocoder(latKey, lonKey).Ok? && CensusGeographies(p.geocoder(latKey, lonKey).value) != map[]
    ensures var (latKey, lonKey) := roundKey(lat, lon);
      var geo := CensusGeographies(p.geocoder(latKey, lonKey).value);
      var demographics := AcsFeatures(p.acs(geo["state_fips"], geo["county_fips"], geo["tract"]));
      var r := FeaturesOf(lat, lon, radiusM, roundKey, p);
      && (!CacheableCodes(geo) ==> r == Err(Raised(TypeError)))
      && (!CacheableCodes(geo) ==> FeaturesOf(lat, lon, radiusM, roundKey, p.(acs := otherAcs)) == r)
      && (CacheableCodes(geo) && demographics.Err? ==> r == Err(demographics.error))
      && (r.Ok? ==> CacheableCodes(geo) && demographics.Ok? && r.value.census == geo + demographics.value)
      && (r.Ok? ==> r.value.census.Keys == GeoKeys + AcsKeys)
      && (otherAcs(geo["state_fips"], geo["county_fips"], geo["tract"])
            == p.acs(geo["state_fips"], geo["county_fips"], geo["tract"])
          ==> FeaturesOf(lat, lon, radiusM, roundKey, p.(acs := otherAcs)) == r)
  {
  }

  /**
   * Nothing is caught: the response exists exactly when every source call succeeds, and
   * otherwise carries the fault of the first one to fail, in evaluation order.
   */
  lemma FeaturesFailFast(lat: real, lon: real, radiusM: int,
                         roundKey: (real, real) -> (real, real), p: Providers)
    ensures var (latKey, lonKey) := roundKey(lat, lon);
      var geo := GeographiesCall(p.geocoder(latKey, lonKey));
      var census := if geo.Ok? then CensusRecord(geo.value, p.acs) else Ok(map[]);
      var poi := PoiCounts(p.overpass, latKey, lonKey, radiusM);
      var crime := CrimeCountsOf(p.arcgis(CountOnly(latKey, lonKey, radiusM)),
                                 p.arcgis(GroupedByType(latKey, lonKey, radiusM)));
      var r := FeaturesOf(lat, lon, radiusM, roundKey, p);
      && (r.Ok? <==> geo.Ok? && census.Ok? && poi.Ok? && crime.Ok?)
      && (p.geocoder(latKey, lonKey).Err? ==> r == Err(FetchFailed(p.geocoder(latKey, lonKey).error)))
      && (geo.Ok? && census.Err? ==> r == Err(census.error))
      && (geo.Ok? && census.Ok? && poi.Err? ==> r == Err(poi.error))
      && (geo.Ok? && census.Ok? && poi.Ok? && crime.Err? ==> r == Err(crime.error))
  {
  }
}
