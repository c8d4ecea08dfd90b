/** Overpass adapter: points of interest per category within the radius (main.py:88-114). */
module Poi {
  import opened Wrappers
  import opened JsonData
  import opened PyOps
  import opened Providers

  /** The categories in the order `poi_counts` evaluates them. */
  const Categories: seq<Category> := [Restaurants, Bars, Cafes, Shops]

  const PoiKeys: set<string> := {"restaurants", "bars", "cafes", "shops"}

  /** `count_for` once the body is decoded: `len(j.get("elements", []))`. */
  function CountFor(resp: Response): (r: Result<nat, Fault>)
    ensures resp.Err? ==> r == Err(FetchFailed(resp.error))
    ensures r.Ok? ==> resp.Ok? && resp.value.JObj?
    ensures resp.Ok? && resp.value.JObj? && "elements" !in resp.value.fields ==> r == Ok(0)
  {
    var j :- Fetched(resp);
    var elements :- Lift(Get(j, "elements", JList([])));
    Lift(Len(elements))
  }

  /** `poi_counts`: the four sub-queries in order; the first failure fails the whole call. */
  function PoiCounts(overpass: (real, real, int, Category) -> Response,
                     latKey: real, lonKey: real, radiusM: int): (r: Result<map<string, int>, Fault>)
    ensures r.Ok? ==> r.value.Keys == PoiKeys
    ensures r.Ok? ==> forall k :: k in r.value ==> r.value[k] >= 0
    ensures CountFor(overpass(latKey, lonKey, radiusM, Restaurants)).Err? ==>
      r == Err(CountFor(overpass(latKey, lonKey, radiusM, Restaurants)).error)
  {
    var restaurants :- CountFor(overpass(latKey, lonKey, radiusM, Restaurants));
    var bars :- CountFor(overpass(latKey, lonKey, radiusM, Bars));
    var cafes :- CountFor(overpass(latKey, lonKey, radiusM, Cafes));
    var shops :- CountFor(overpass(latKey, lonKey, radiusM, Shops));
    Ok(map["restaurants" := restaurants, "bars" := bars, "cafes" := cafes, "shops" := shops])
  }

  /**
   * A category's count is the length of the body's `elements` list, 0 when the key is
   * absent; a body that is not a JSON object, or whose `elements` has no length, raises.
   */
  lemma CountForElements(resp: Response)
    ensures resp.Err? ==> CountFor(resp) == Err(FetchFailed(resp.error))
    ensures resp.Ok? && resp.value.JObj? && "elements" !in resp.value.fields ==> CountFor(resp) == Ok(0)
    ensures resp.Ok? && resp.value.JObj? && "elements" in resp.value.fields
      && resp.value.fields["elements"].JList?
      ==> CountFor(resp) == Ok(|resp.value.fields["elements"].items|)
    ensures resp.Ok? && !resp.value.JObj? ==> CountFor(resp) == Err(Raised(AttributeError))
    ensures resp.Ok? && resp.value.JObj? && "elements" in resp.value.fields
      && (resp.value.fields["elements"].JNull? || resp.value.fields["elements"].JBool?
          || resp.value.fields["elements"].JInt?)
      ==> CountFor(resp) == Err(Raised(TypeError))
  {
  }

  /**
   * The result has exactly the four category keys, each holding that category's count,
   * and exists exactly when every one of the four sub-queries succeeds.
   */
  lemma PoiCountsAllOrNothing(overpass: (real, real, int, Category) -> Response,
                              latKey: real, lonKey: real, radiusM: int)
    ensures var r := PoiCounts(overpass, latKey, lonKey, radiusM);
      && (r.Ok? <==> forall c: Category :: CountFor(overpass(latKey, lonKey, radiusM, c)).Ok?)
      && (r.Ok? ==> r.value.Keys == PoiKeys)
      && (r.Ok? ==> forall c: Category ::
            r.value[c.Key()] == CountFor(overpass(latKey, lonKey, radiusM, c)).value)
  {
    var r := PoiCounts(overpass, latKey, lonKey, radiusM);
    if r.Ok? {
      forall c: Category
        ensures CountFor(overpass(latKey, lonKey, radiusM, c)).Ok?
        ensures r.value[c.Key()] == CountFor(overpass(latKey, lonKey, radiusM, c)).value
      {
        match c
        case Restaurants =>
        case Bars =>
        case Cafes =>
        case Shops =>
      }
    } else {
      assert !CountFor(overpass(latKey, lonKey, radiusM, Restaurants)).Ok? ||
             !CountFor(overpass(latKey, lonKey, radiusM, Bars)).Ok? ||
             !CountFor(overpass(latKey, lonKey, radiusM, Cafes)).Ok? ||
             !CountFor(overpass(latKey, lonKey, radiusM, Shops)).Ok?;
    }
  }

  /** The fault reported is that of the first failing category, in query order. */
  lemma {:induction false} PoiFirstFailure(overpass: (real, real, int, Category) -> Response,
                                           latKey: real, lonKey: real, radiusM: int, k: nat)
    requires k < |Categories|
    requires CountFor(overpass(latKey, lonKey, radiusM, Categories[k])).Err?
    requires forall j :: 0 <= j < k ==> CountFor(overpass(latKey, lonKey, radiusM, Categories[j])).Ok?
    ensures PoiCounts(overpass, latKey, lonKey, radiusM) ==
      Err(CountFor(overpass(latKey, lonKey, radiusM, Categories[k])).error)
  {
    if k > 0 { assert CountFor(overpass(latKey, lonKey, radiusM, Categories[0])).Ok?; }
    if k > 1 { assert CountFor(overpass(latKey, lonKey, radiusM, Categories[1])).Ok?; }
    if k > 2 { assert CountFor(overpass(latKey, lonKey, radiusM, Categories[2])).Ok?; }
  }
}
