/** Baltimore Police ArcGIS adapter: crime total and counts per crime type (main.py:119-165). */
module Crime {
  import opened Wrappers
  import opened JsonData
  import opened PyOps
  import opened Providers

  /** The bucket of features whose CRIME_TYPE is missing or falsy. */
  const Unknown: Json := JStr("UNKNOWN")

  datatype CrimeSummary = CrimeSummary(totalLast3mo: int, byType: map<Json, int>)

  /** The dict assignment one grouped feature performs: `by_type[key] = count`. */
  datatype Entry = Entry(key: Json, count: int)

  /** The CRIME_TYPE a feature's `attributes` dict carries, or null when there is none. */
  function CrimeTypeOf(f: Json): (r: Json)
    ensures r != JNull ==> f.JObj? && "attributes" in f.fields && f.fields["attributes"].JObj?
  {
    if f.JObj? && "attributes" in f.fields && f.fields["attributes"].JObj?
       && "CRIME_TYPE" in f.fields["attributes"].fields
    then f.fields["attributes"].fields["CRIME_TYPE"]
    else JNull
  }

  /**
   * One iteration of the loop: the bucket is CRIME_TYPE or "UNKNOWN" when falsy, the count
   * `int(ct or 0)`; the count is converted before the bucket is hashed as a dict key.
   */
  function FeatureEntry(f: Json): (r: Result<Entry, PyError>)
    ensures r.Ok? ==> Truthy(r.value.key) && Hashable(r.value.key)
    ensures r.Ok? ==> f.JObj? && ("attributes" !in f.fields || f.fields["attributes"].JObj?)
    ensures r.Ok? ==> r.value.key == (if Truthy(CrimeTypeOf(f)) then CrimeTypeOf(f) else Unknown)
  {
    var a :- Get(f, "attributes", JObj(map[]));
    var crimeType :- Get(a, "CRIME_TYPE", JNull);
    var k := if Truthy(crimeType) then crimeType else Unknown;
    // `a` is a dict once its CRIME_TYPE lookup succeeded, so `a.get("ct", 0)` cannot fail.
    var ct := Get(a, "ct", JInt(0)).value;
    var n :- PyInt(if Truthy(ct) then ct else JInt(0));
    if Hashable(k) then Ok(Entry(k, n)) else Err(TypeError)
  }

  /** The by-type dict after the loop has visited `feats` in order, or its first exception. */
  function ByTypeOf(feats: seq<Json>): (r: Result<map<Json, int>, PyError>)
    ensures r.Ok? ==> forall k :: k in r.value ==> Truthy(k) && Hashable(k)
  {
    if feats == [] then Ok(map[])
    else
      var m :- ByTypeOf(feats[..|feats| - 1]);
      var e :- FeatureEntry(feats[|feats| - 1]);
      Ok(m[e.key := e.count])
  }

  /**
   * What `for f in feats` visits. A non-empty dict or string yields strings, and a string
   * has no `get`, so a non-empty dict fails at its first key whatever the key order.
   */
  function FeatureItems(feats: Json): (r: Result<seq<Json>, PyError>)
    ensures feats.JList? ==> r == Ok(feats.items)
    ensures r.Ok? && !feats.JList? ==> forall i :: 0 <= i < |r.value| ==> FeatureEntry(r.value[i]).Err?
    ensures feats == JObj(map[]) ==> r == Ok([])
    ensures feats.JObj? && feats.fields != map[] ==> r == Err(AttributeError)
    ensures feats.JNull? || feats.JBool? || feats.JInt? ==> r == Err(TypeError)
  {
    match feats
    case JList(items) => Ok(items)
    case JStr(s) => Ok(Chars(s))
    case JObj(fm) => if fm == map[] then Ok([]) else Err(AttributeError)
    case _ => Err(TypeError)
  }

  /**
   * `crime_counts` on the two bodies: `count` read from the first, the loop over the
   * second's `features`, and `int(total)` only at the end, after the second fetch.
   */
  function CrimeCountsOf(totalResp: Response, groupedResp: Response): (r: Result<CrimeSummary, Fault>)
    ensures totalResp.Err? ==> r == Err(FetchFailed(totalResp.error))
    ensures totalResp.Ok? && !totalResp.value.JObj? ==> r == Err(Raised(AttributeError))
    ensures r.Ok? ==> forall k :: k in r.value.byType ==> Truthy(k) && Hashable(k)
  {
    var totalBody :- Fetched(totalResp);
    var total :- Lift(Get(totalBody, "count", JInt(0)));
    var groupedBody :- Fetched(groupedResp);
    var feats :- Lift(Get(groupedBody, "features", JList([])));
    var items :- Lift(FeatureItems(feats));
    var byType :- Lift(ByTypeOf(items));
    var t :- Lift(PyInt(total));
    Ok(CrimeSummary(t, byType))
  }

  /** A failure on a prefix of the features is the failure of the whole loop. */
  lemma {:induction false} ByTypePrefixFailure(feats: seq<Json>, i: nat)
    requires i <= |feats| && ByTypeOf(feats[..i]).Err?
    ensures ByTypeOf(feats) == ByTypeOf(feats[..i])
    decreases |feats| - i
  {
    if i < |feats| {
      assert feats[..i + 1][..i] == feats[..i];
      ByTypePrefixFailure(feats, i + 1);
    } else {
      assert feats[..i] == feats;
    }
  }

  /** `crime_counts` itself: the two ArcGIS queries and the loop that fills `by_type`. */
  method CrimeCounts(arcgis: CrimeQuery -> Response, latKey: real, lonKey: real, radiusM: int)
    returns (r: Result<CrimeSummary, Fault>)
    ensures r == CrimeCountsOf(arcgis(CountOnly(latKey, lonKey, radiusM)),
                               arcgis(GroupedByType(latKey, lonKey, radiusM)))
  {
    var totalResp := arcgis(CountOnly(latKey, lonKey, radiusM));
    if totalResp.Err? {
      return Err(FetchFailed(totalResp.error));
    }
    var total := Get(totalResp.value, "count", JInt(0));
    if total.Err? {
      return Err(Raised(total.error));
    }
    var groupedResp := arcgis(GroupedByType(latKey, lonKey, radiusM));
    if groupedResp.Err? {
      return Err(FetchFailed(groupedResp.error));
    }
    var feats := Get(groupedResp.value, "features", JList([]));
    if feats.Err? {
      return Err(Raised(feats.error));
    }
    var items := FeatureItems(feats.value);
    if items.Err? {
      return Err(Raised(items.error));
    }
    var fs := items.value;
    var byType: map<Json, int> := map[];
    var i := 0;
    while i < |fs|
      invariant 0 <= i <= |fs|
      invariant ByTypeOf(fs[..i]) == Ok(byType)
    {
      var entry := FeatureEntry(fs[i]);
      assert fs[..i + 1][..i] == fs[..i];
      if entry.Err? {
        ByTypePrefixFailure(fs, i + 1);
        return Err(Raised(entry.error));
      }
      byType := byType[entry.value.key := entry.value.count];
      i := i + 1;
    }
    assert fs[..i] == fs;
    var t := PyInt(total.value);
    if t.Err? {
      return Err(Raised(t.error));
    }
    return Ok(CrimeSummary(t.value, byType));
  }

  /**
   * Reference reading of one feature: its bucket is a truthy CRIME_TYPE, else "UNKNOWN";
   * a missing or falsy `ct` counts 0, any other `ct` is converted by int().
   */
  lemma FeatureEntryReads(f: map<string, Json>, a: map<string, Json>)
    requires ("attributes" in f && f["attributes"] == JObj(a)) || ("attributes" !in f && a == map[])
    ensures var crimeType := if "CRIME_TYPE" in a then a["CRIME_TYPE"] else JNull;
      var ct := if "ct" in a then a["ct"] else JInt(0);
      var e := FeatureEntry(JObj(f));
      && (e.Ok? <==> (!Truthy(ct) || PyInt(ct).Ok?) && (!Truthy(crimeType) || Hashable(crimeType)))
      && (e.Ok? ==> e.value.key == (if Truthy(crimeType) then crimeType else Unknown))
      && (e.Ok? && !Truthy(ct) ==> e.value.count == 0)
      && (e.Ok? && Truthy(ct) ==> PyInt(ct) == Ok(e.value.count))
  {
  }

  /** Index i holds the last feature that lands in its bucket. */
  ghost predicate LastInBucket(feats: seq<Json>, i: int)
    requires forall j :: 0 <= j < |feats| ==> FeatureEntry(feats[j]).Ok?
  {
    0 <= i < |feats| &&
    forall j :: i < j < |feats| ==> FeatureEntry(feats[j]).value.key != FeatureEntry(feats[i]).value.key
  }

  /** The loop finishes exactly when every feature can be read. */
  lemma {:induction false} ByTypeSucceeds(feats: seq<Json>)
    ensures ByTypeOf(feats).Ok? <==> forall i :: 0 <= i < |feats| ==> FeatureEntry(feats[i]).Ok?
  {
    if feats != [] {
      var p := feats[..|feats| - 1];
      ByTypeSucceeds(p);
      assert forall i :: 0 <= i < |p| ==> p[i] == feats[i];
    }
  }

  /** The buckets are exactly the labels of the features. */
  lemma {:induction false} ByTypeKeys(feats: seq<Json>)
    requires ByTypeOf(feats).Ok?
    ensures ByTypeOf(feats).value.Keys ==
      set i | 0 <= i < |feats| && FeatureEntry(feats[i]).Ok? :: FeatureEntry(feats[i]).value.key
  {
    if feats != [] {
      var n := |feats|;
      var p := feats[..n - 1];
      ByTypeKeys(p);
      var e := FeatureEntry(feats[n - 1]).value;
      var keysP := set i | 0 <= i < |p| && FeatureEntry(p[i]).Ok? :: FeatureEntry(p[i]).value.key;
      var keys := set i | 0 <= i < n && FeatureEntry(feats[i]).Ok? :: FeatureEntry(feats[i]).value.key;
      assert ByTypeOf(feats).value.Keys == keysP + {e.key};
      forall x | x in keys ensures x in keysP + {e.key} {
        var i :| 0 <= i < n && FeatureEntry(feats[i]).Ok? && FeatureEntry(feats[i]).value.key == x;
        if i < n - 1 { assert p[i] == feats[i]; }
      }
      forall x | x in keysP ensures x in keys {
        var i :| 0 <= i < |p| && FeatureEntry(p[i]).Ok? && FeatureEntry(p[i]).value.key == x;
        assert p[i] == feats[i];
      }
      assert e.key in keys;
    }
  }

  /** Each bucket holds the count of the last feature with its label: a later duplicate wins. */
  lemma {:induction false} ByTypeLastWins(feats: seq<Json>)
    requires ByTypeOf(feats).Ok?
    ensures forall i :: 0 <= i < |feats| ==> FeatureEntry(feats[i]).Ok?
    ensures forall i :: 0 <= i < |feats| && LastInBucket(feats, i) ==>
      var e := FeatureEntry(feats[i]).value;
      e.key in ByTypeOf(feats).value && ByTypeOf(feats).value[e.key] == e.count
  {
    ByTypeSucceeds(feats);
    if feats != [] {
      var n := |feats|;
      var p := feats[..n - 1];
      assert forall i :: 0 <= i < |p| ==> p[i] == feats[i];
      ByTypeLastWins(p);
      var mp := ByTypeOf(p).value;
      var e := FeatureEntry(feats[n - 1]).value;
      var m := ByTypeOf(feats).value;
      assert m == mp[e.key := e.count];
      forall i | 0 <= i < n && LastInBucket(feats, i)
        ensures var ei := FeatureEntry(feats[i]).value; ei.key in m && m[ei.key] == ei.count
      {
        if i < n - 1 {
          assert LastInBucket(p, i);
        }
      }
    }
  }

  /** Every bucket is UNKNOWN or the truthy CRIME_TYPE of some feature's `attributes` dict. */
  lemma ByTypeKeysAreLabels(feats: seq<Json>)
    requires ByTypeOf(feats).Ok?
    ensures forall k :: k in ByTypeOf(feats).value ==>
      k == Unknown || (Truthy(k) && exists i :: 0 <= i < |feats| && CrimeTypeOf(feats[i]) == k)
  {
    ByTypeKeys(feats);
    forall k | k in ByTypeOf(feats).value && k != Unknown
      ensures Truthy(k) && exists i :: 0 <= i < |feats| && CrimeTypeOf(feats[i]) == k
    {
      var i :| 0 <= i < |feats| && FeatureEntry(feats[i]).Ok? && FeatureEntry(feats[i]).value.key == k;
      assert CrimeTypeOf(feats[i]) == k;
    }
  }

  /** The total is the first body's `count`, or 0 when it has none. */
  lemma CrimeTotal(totalFields: map<string, Json>, groupedResp: Response)
    ensures var r := CrimeCountsOf(Ok(JObj(totalFields)), groupedResp);
      && (r.Ok? && "count" !in totalFields ==> r.value.totalLast3mo == 0)
      && (r.Ok? && "count" in totalFields ==> PyInt(totalFields["count"]) == Ok(r.value.totalLast3mo))
      && ("count" in totalFields && PyInt(totalFields["count"]).Err? ==> r.Err?)
  {
  }

  /** The buckets are those of the loop over the second body's `features` (none when absent). */
  lemma CrimeBuckets(totalResp: Response, grouped: map<string, Json>)
    ensures var r := CrimeCountsOf(totalResp, Ok(JObj(grouped)));
      var feats := if "features" in grouped then grouped["features"] else JList([]);
      && (r.Ok? ==> FeatureItems(feats).Ok? && ByTypeOf(FeatureItems(feats).value) == Ok(r.value.byType))
      && (r.Ok? && "features" !in grouped ==> r.value.byType == map[])
  {
  }

  /** Either fetch failing fails the call, with that fetch's error. */
  lemma CrimeFetchFailures(totalResp: Response, groupedResp: Response)
    ensures totalResp.Err? ==> CrimeCountsOf(totalResp, groupedResp) == Err(FetchFailed(totalResp.error))
    ensures totalResp.Ok? && totalResp.value.JObj? && groupedResp.Err? ==>
      CrimeCountsOf(totalResp, groupedResp) == Err(FetchFailed(groupedResp.error))
  {
  }

  /** A repeated label keeps its last count; a null label with no `ct` lands in UNKNOWN with 0. */
  lemma ByTypeExample()
    ensures ByTypeOf([
        JObj(map["attributes" := JObj(map["CRIME_TYPE" := JStr("LARCENY"), "ct" := JInt(3)])]),
        JObj(map["attributes" := JObj(map["CRIME_TYPE" := JNull])]),
        JObj(map["attributes" := JObj(map["CRIME_TYPE" := JStr("LARCENY"), "ct" := JInt(5)])])])
      == Ok(map[JStr("LARCENY") := 5, Unknown := 0])
  {
    var f0 := JObj(map["attributes" := JObj(map["CRIME_TYPE" := JStr("LARCENY"), "ct" := JInt(3)])]);
    var f1 := JObj(map["attributes" := JObj(map["CRIME_TYPE" := JNull])]);
    var f2 := JObj(map["attributes" := JObj(map["CRIME_TYPE" := JStr("LARCENY"), "ct" := JInt(5)])]);
    var feats := [f0, f1, f2];
    assert FeatureEntry(f0) == Ok(Entry(JStr("LARCENY"), 3));
    assert FeatureEntry(f1) == Ok(Entry(Unknown, 0));
    assert FeatureEntry(f2) == Ok(Entry(JStr("LARCENY"), 5));
    assert feats[..2][..1][..0] == [];
    assert ByTypeOf(feats[..1]) == Ok(map[JStr("LARCENY") := 3]);
    assert ByTypeOf(feats[..2]) == Ok(map[JStr("LARCENY") := 3, Unknown := 0]) by {
      assert feats[..2][..1] == feats[..1];
    }
    assert feats[..2] == feats[..|feats| - 1];
    assert map[JStr("LARCENY") := 3, Unknown := 0][JStr("LARCENY") := 5]
        == map[JStr("LARCENY") := 5, Unknown := 0];
  }
}
