# Small-Business feature lookup — response normalisation and assembly

This project models the part of the `/api/features` service in `main.py` that turns what
four external services return into one response. A caller asks about a point (latitude,
longitude) and a radius. The service asks several providers about it:

- the Census geocoder, for the state, county and tract codes;
- the Census ACS 5-year tables for that tract, for population and median household income;
- Overpass, for restaurants, bars, cafes and shops in the radius;
- the Baltimore Police ArcGIS layer, for crime totals and counts per crime type.

It then assembles one dict. The model works on already-decoded JSON values (`JsonData.Json`:
null, bool, int, string, list, object). Each network call is a function field of
`Providers.Providers`. These functions map the call's parameters to `Result<Json, FetchError>`.

Modules, one per component:

- `Wrappers`: `Option` and `Result`.
- `JsonData`: the JSON value, Python truthiness, hashability.
- `PyOps`: the Python operations the code applies to JSON: `d[k]`, `d.get`, `x[0]`, `len`,
  iteration, `int()`. Each one raises the Python exception it would raise on a wrongly shaped value.
- `Providers`: fetch errors, the `Fault` that escapes a source call, POI categories, the two
  ArcGIS queries, the provider functions.
- `Geography`: `census_geographies`. Every shape mismatch is caught and gives `{}`.
- `Acs`: `acs_features`. Header row and value row are zipped into a dict, then two columns go through `to_int`.
- `Poi`: `count_for` / `poi_counts`. Each count is `len(elements)`, and the four categories succeed or fail together.
- `Crime`: `crime_counts`. The `by_type` loop is the method `CrimeCounts`, proved against the fold `ByTypeOf`.
- `Api`: `transit_stub` and `api_features`. The method `ApiFeatures` copies and extends `census`,
  and it is proved against the function `FeaturesOf`.

Nothing in `api_features` catches exceptions. A failed fetch makes the whole request fail,
and so does a body of the wrong shape outside the two `try` blocks (`census_geographies`,
main.py:42-53, and `to_int`, main.py:75-78). This is modelled
as `Err(Fault)`, where the fault belongs to the first call that failed, in Python's order of
evaluation. The code has no rate limiter, no per-source failure isolation, no `notes` map
and no null fallbacks. When the geocoder finds nothing, `census` has no `population` or
`median_household_income` keys (`FeaturesWithoutGeography`).

## Model

| member | source | states |
|---|---|---|
| `Geography.CensusGeographies` | main.py:42-53 | The geography of a decoded body is either `{}` or a map whose keys are exactly state_fips, county_fips and tract. |
| `Geography.ExtractIds` | main.py:43-51 | The lookups inside the `try`: on success the keys are exactly state_fips, county_fips and tract. A body that is not an object raises TypeError, and an object without "result" raises KeyError. |
| `Geography.GeographiesCall` | main.py:40-53 | `census_geographies` fails exactly when the fetch at line 40 fails, with that fetch error. Any other problem gives `{}`. |
| `Geography.CensusGeographiesSpec` | main.py:43-51 | The geography holds the STATE, COUNTY and TRACT fields of element 0 of "States", "Counties" and "Census Tracts" under result.geographies when all three exist. Otherwise it is `{}`. |
| `Geography.NoGeographyWithoutRecords` | main.py:42-53 | A body without "result", or without a first tract record that has TRACT, resolves to `{}` and not to an error. |
| `PyOps.ParseDecimalRoundTrip` | main.py:74-78 | Every integer's decimal rendering parses back to that integer. |
| `PyOps.ParseDecimalShape` | main.py:74-78 | The parser accepts exactly an optional `-` followed by one or more decimal digits. Without the sign the value is non-negative. |
| `PyOps.PyIntOfRendered` | main.py:76 | `int()` of a JSON number, or of a string holding its decimal rendering, gives that integer. |
| `PyOps.PyIntFails` | main.py:76 | `int()` on a JSON value fails exactly on null, lists, objects and non-integer strings. Only the last of these is a ValueError. |
| `PyOps.Subscript` | main.py:43-50 | `d[k]` succeeds exactly on an object holding `k` and yields its value. A missing key is KeyError, and a non-object is TypeError. |
| `PyOps.Index` | main.py:44-46 | `x[i]` succeeds exactly on a list or string longer than `i`. It yields the element, or the one-character string. Too short a list or string is IndexError. |
| `PyOps.Get` | main.py:81-82 | `d.get(k, default)` succeeds exactly on an object. It yields the value under `k`, or `default` when `k` is absent. Any other value raises AttributeError. |
| `PyOps.Len` | main.py:107 | `len(x)` succeeds exactly on a list, string or object, and gives a list its number of items. Anything else is TypeError. |
| `PyOps.Iter` | main.py:72 | Iterating a list yields its items, and a string yields its characters as one-character strings. null, a bool or a number raises TypeError. |
| `PyOps.ParseDecimal` | main.py:76 | A parsed text is non-empty and starts with `-` or a digit. Without the sign the value is non-negative, and with it non-positive. |
| `PyOps.PyInt` | main.py:76 | `int()` keeps a JSON integer, maps a bool to 0 or 1, and converts a string exactly when it parses. A string failure is ValueError, and any other failure is TypeError. |
| `Acs.Zip` | main.py:72 | `zip(cols, vals)` pairs elements by position and is as long as the shorter row. |
| `Acs.DictOf` | main.py:72 | The dict built from the pairs has only hashable keys and no more keys than pairs. Its only failure is TypeError. |
| `Acs.DictOfSucceeds` | main.py:72 | `dict(...)` of the pairs succeeds exactly when every paired header cell is hashable. |
| `Acs.DictOfLookup` | main.py:72 | The dict's keys are exactly the pairs' keys. Each key maps to the value of its last pair. |
| `Acs.ToInt` | main.py:74-78 | `to_int` keeps a JSON integer. It gives None exactly on null, a list, an object or a string that does not parse. |
| `Acs.RowGet` | main.py:81-82 | `row.get(name, "")` yields the column's cell when present. When absent, the default converts to None. |
| `Acs.AcsFeatures` | main.py:58-83 | A failed fetch propagates. On success the result has exactly the keys population and median_household_income, each an integer or null. |
| `Acs.ColumnField` | main.py:74-83 | A parsed field is `to_int` of the cell at its column's last position, or null when the column is absent. |
| `Acs.FieldNullIff` | main.py:74-83 | A parsed field is null exactly when its column is absent or its cell does not parse as an integer. |
| `Acs.AcsReadsItsColumns` | main.py:70-83 | With two rows, the result has exactly the keys population and median_household_income. Population comes only from column B01003_001E of row 1 and income only from B19013_001E, each independently null when absent or unparsable. The call succeeds exactly when every paired header cell is hashable. |
| `Acs.AcsNeedsTwoRows` | main.py:68-71 | A failed fetch propagates. A list body with fewer than two rows raises IndexError. An object, null or number body also fails. |
| `Acs.AcsExample` | main.py:70-83 | On a Census-shaped answer with a null income cell, population is 4021 and income is null. |
| `Poi.CountForElements` | main.py:103-107 | A category's count is the length of `elements`, or 0 when that key is absent. A body that is not an object raises AttributeError, an `elements` that is null, a bool or a number raises TypeError, and a failed fetch propagates. |
| `Poi.CountFor` | main.py:93-107 | A failed fetch propagates. A count exists only for an object body, and it is 0 when `elements` is absent. |
| `Poi.PoiCounts` | main.py:109-114 | On success the keys are exactly restaurants, bars, cafes and shops, each non-negative. A failing restaurants query is the call's fault. |
| `Poi.PoiCountsAllOrNothing` | main.py:109-114 | The POI result exists exactly when all four sub-queries succeed. It then has exactly the keys restaurants, bars, cafes and shops, each holding its own category's count. |
| `Poi.PoiFirstFailure` | main.py:109-114 | The fault reported is that of the first failing category, in the order restaurants, bars, cafes, shops. |
| `Crime.ByTypeOf` | main.py:159-163 | Every bucket key is truthy and hashable. |
| `Crime.FeatureEntry` | main.py:161-163 | One loop step succeeds only on a dict feature whose `attributes` is absent or a dict, so a present non-dict `attributes` fails. Its bucket is then that dict's CRIME_TYPE when truthy, else "UNKNOWN", and is hashable. |
| `Crime.FeatureItems` | main.py:160 | `for f in feats` visits a list's own items. A string yields one-character strings, and the loop body fails on each of them. `{}` yields nothing. A non-empty dict fails with AttributeError, and null, a bool or a number raises TypeError. |
| `Crime.ByTypePrefixFailure` | main.py:160-163 | An exception raised on an earlier feature is the exception of the whole loop. |
| `Crime.CrimeCounts` | main.py:136-165 | The loop method returns exactly what the specification `CrimeCountsOf` gives for the two ArcGIS answers: the total, the buckets, or the first fault. |
| `Crime.CrimeCountsOf` | main.py:136-165 | A failed first fetch propagates. A first body that is not an object raises AttributeError. Every bucket of a result is truthy and hashable. |
| `Crime.FeatureEntryReads` | main.py:161-163 | For a dict feature whose `attributes` is absent or a dict: the bucket is a truthy CRIME_TYPE, or "UNKNOWN" otherwise. A missing or falsy `ct` counts 0, and any other `ct` is converted by `int()`. The entry fails exactly when that conversion fails or a truthy label is unhashable. |
| `Crime.ByTypeSucceeds` | main.py:160-163 | The loop completes exactly when every feature can be read. |
| `Crime.ByTypeKeys` | main.py:160-163 | The set of bucket keys equals the set of bucket labels over all features. |
| `Crime.ByTypeLastWins` | main.py:160-163 | For each label, the bucket holds the count of the last feature with that label. |
| `Crime.ByTypeKeysAreLabels` | main.py:160-163 | Every bucket of a completed loop is "UNKNOWN" or the truthy CRIME_TYPE of some feature's `attributes` dict. |
| `Crime.ByTypeExample` | main.py:159-163 | A repeated label keeps its last count, and a null label without `ct` becomes UNKNOWN with count 0. |
| `Crime.CrimeTotal` | main.py:136-165 | `total_last_3mo` is `int()` of the first answer's `count`, or 0 when `count` is absent. A `count` that does not convert fails the call. |
| `Crime.CrimeBuckets` | main.py:158-165 | `by_type` is the loop's result over the second answer's `features`, and `{}` when `features` is absent. |
| `Crime.CrimeFetchFailures` | main.py:136-158 | A failure of the first ArcGIS fetch fails the call with that fetch's error. A failure of the second does the same when the first body is an object; otherwise `.get` at line 136 raises AttributeError first. |
| `Api.ApiFeatures` | main.py:184-201 | For every radius in [100, 2000], the endpoint method returns exactly what the specification `FeaturesOf` gives, including the TypeError of an unhashable geography code before any ACS request. |
| `Api.TransitStub` | main.py:170-173 | The stub has exactly the keys nearest_stop_m, stops_within_radius and note, and both counts are null. |
| `Api.CensusRecord` | main.py:187-190 | An empty geography gives `{}`. An unhashable code raises TypeError in `acs_features`' cache before any request. Otherwise a result keeps the three codes and adds exactly the two ACS keys. |
| `Api.FeaturesOf` | main.py:184-201 | A response echoes lat, lon and radius and has the four POI keys and the three transit keys. A failing geocoder fetch is the response's fault. |
| `Api.TransitStubIsFixed` | main.py:170-173 | The transit stub is the same for every input. It has keys nearest_stop_m, stops_within_radius and note, and both counts are null. |
| `Api.FeaturesEcho` | main.py:192-200 | A response echoes the unrounded lat, lon and radius. It carries the four POI counts and the crime summary computed at the rounded point, plus the fixed transit stub. |
| `Api.FeaturesWithoutGeography` | main.py:186-190 | When the geography is empty, `census` is `{}`. The response does not depend on the ACS provider at all, so ACS is not consulted. |
| `Api.FeaturesWithGeography` | main.py:186-190 | When the geography is non-empty, ACS is consulted with its state, county and tract codes exactly when all three are hashable. Otherwise the response is TypeError whatever ACS would answer. An ACS fault fails the response. Otherwise `census` is the geography plus the two ACS fields, and only the ACS answer for those codes matters. |
| `Api.FeaturesFailFast` | main.py:184-201 | The response exists exactly when the geocoder, the census merge, POI and crime all succeed. Otherwise it carries the fault of the first source to fail. |

## Left out

- HTTP transport and JSON decoding (`_get_json`, `requests.post`, `raise_for_status`, timeouts). An answer is a `Result<Json, FetchError>` returned by a `Providers` function.
- The query text and parameters sent to the services (the Overpass QL string, the ArcGIS and Census parameters). Each query is represented only by the parameters it depends on.
- `@lru_cache` memoisation. Caching itself is left out. Its requirement that the arguments be hashable is modelled: `Api.CacheableCodes` and `Api.CensusRecord` raise TypeError for a list or object code before `acs_features` runs. The other cached functions take only numbers.
- `_round_key`: Python float rounding. The aggregator takes it as the function parameter `roundKey`. JSON numbers with a fractional part are not part of the value model, so `int()` truncation of a float is not modelled either.
- The FastAPI routing and the `Query(500, ge=100, le=2000)` validation. The radius bound is a precondition of `Api.ApiFeatures`. The framework's default radius of 500 for an omitted parameter is left out: the model always takes an explicit radius.
- The HTML/Leaflet front end and its debounce. They are UI.
- PyOps.ParseDecimal: accepts only an optional `-` followed by ASCII digits. Python's `int()` also accepts surrounding whitespace, a leading `+`, underscores between digits and non-ASCII digits. The parser has no length limit, while Python 3.11 and later (and the 3.7.14, 3.8.14, 3.9.14 and 3.10.7 security releases) raise ValueError in `int()` on a string of more than 4300 digits. `Acs.ToInt`, `Crime.FeatureEntry` and `Crime.CrimeCountsOf` therefore accept such strings where those Python versions would give None or fail the request.
- PyOps.Iter: a non-empty JSON object used as a row in `zip` raises TypeError in the model. Python would pair the object's keys in insertion order, which the map representation does not keep. The loop over `features` is not affected, because it fails on a non-empty object whatever the key order.
- Acs.DictOf: header cells are compared as JSON values, so `true` and `1` are two keys. Python's dict merges them, because `True == 1`. `Acs.AcsFeatures` is unaffected, because it reads only the two string columns.
- Crime.ByTypeOf: bucket keys are compared as JSON values, so a label `true` and a label `1` are two buckets. Python's dict treats them as one key, because `True == 1`.
