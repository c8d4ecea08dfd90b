/** Census geocoder adapter: coordinates to state, county and tract codes (main.py:29-53). */
module Geography {
  import opened Wrappers
  import opened JsonData
  import opened PyOps
  import opened Providers

  /** The keys of a resolved geography. */
  const GeoKeys: set<string> := {"state_fips", "county_fips", "tract"}

  /** The body of the try block: element 0 of each layer, then its code field. */
  function ExtractIds(data: Json): (r: Result<map<string, Json>, PyError>)
    ensures r.Ok? ==> r.value.Keys == GeoKeys
    ensures !data.JObj? ==> r == Err(TypeError)
    ensures data.JObj? && "result" !in data.fields ==> r == Err(KeyError)
  {
    var res :- Subscript(data, "result");
    var geos :- Subscript(res, "geographies");
    var tracts :- Subscript(geos, "Census Tracts");
    var tractInfo :- Index(tracts, 0);
    var counties :- Subscript(geos, "Counties");
    var countyInfo :- Index(counties, 0);
    var states :- Subscript(geos, "States");
    var stateInfo :- Index(states, 0);
    var st :- Subscript(stateInfo, "STATE");
    var co :- Subscript(countyInfo, "COUNTY");
    var tr :- Subscript(tractInfo, "TRACT");
    Ok(map["state_fips" := st, "county_fips" := co, "tract" := tr])
  }

  /** The geography of a decoded body; every exception of the extraction gives the empty map. */
  function CensusGeographies(data: Json): (r: map<string, Json>)
    ensures r == map[] || r.Keys == GeoKeys
  {
    match ExtractIds(data)
    case Ok(m) => m
    case Err(_) => map[]
  }

  /** `census_geographies` as a whole: the fetch's failure propagates, nothing else does. */
  function GeographiesCall(resp: Response): (r: Result<map<string, Json>, Fault>)
    ensures r.Err? <==> resp.Err?
    ensures r.Err? ==> r.error == FetchFailed(resp.error)
    ensures r.Ok? ==> r.value == map[] || r.value.Keys == GeoKeys
  {
    var data :- Fetched(resp);
    Ok(CensusGeographies(data))
  }

  /**
   * Reference reading of the geocoder's layout: `field` of the first record of `layer`
   * under result.geographies, when the body has exactly that shape.
   */
  function FirstRecordField(data: Json, layer: string, field: string): Option<Json> {
    if data.JObj? && "result" in data.fields then
      var res := data.fields["result"];
      if res.JObj? && "geographies" in res.fields then
        var geos := res.fields["geographies"];
        if geos.JObj? && layer in geos.fields then
          var recs := geos.fields[layer];
          if recs.JList? && |recs.items| > 0 && recs.items[0].JObj? && field in recs.items[0].fields
          then Some(recs.items[0].fields[field])
          else None
        else None
      else None
    else None
  }

  /**
   * The geography is the three codes of element 0 of "States", "Counties" and
   * "Census Tracts" when all three exist, and the empty map otherwise: a missing key,
   * an empty list or a record without its code field gives {}, never an error.
   */
  lemma CensusGeographiesSpec(data: Json)
    ensures
      var st := FirstRecordField(data, "States", "STATE");
      var co := FirstRecordField(data, "Counties", "COUNTY");
      var tr := FirstRecordField(data, "Census Tracts", "TRACT");
      CensusGeographies(data) ==
        if st.Some? && co.Some? && tr.Some?
        then map["state_fips" := st.value, "county_fips" := co.value, "tract" := tr.value]
        else map[]
  {
  }

  /** A body without the "result" key, or with an empty tract list, resolves to nothing. */
  lemma NoGeographyWithoutRecords(data: Json)
    ensures data.JObj? && "result" !in data.fields ==> CensusGeographies(data) == map[]
    ensures FirstRecordField(data, "Census Tracts", "TRACT").None? ==> CensusGeographies(data) == map[]
  {
    CensusGeographiesSpec(data);
  }
}
