/** ACS 5-year adapter: tract codes to population and median household income (main.py:58-83). */
module Acs {
  import opened Wrappers
  import opened JsonData
  import opened PyOps
  import opened Providers

  const PopulationColumn: string := "B01003_001E"
  const IncomeColumn: string := "B19013_001E"

  /** The keys of the demographic part of the census record. */
  const AcsKeys: set<string> := {"population", "median_household_income"}

  /** Python's `zip(a, b)`: pairs by position, as long as the shorter input. */
  function Zip(a: seq<Json>, b: seq<Json>): (r: seq<(Json, Json)>)
    ensures |r| == if |a| <= |b| then |a| else |b|
    ensures forall i :: 0 <= i < |r| ==> r[i] == (a[i], b[i])
  {
    if a == [] || b == [] then [] else [(a[0], b[0])] + Zip(a[1..], b[1..])
  }

  /** Python's `dict(pairs)`: inserted left to right, a later key overwrites an earlier one. */
  function DictOf(pairs: seq<(Json, Json)>): (r: Result<map<Json, Json>, PyError>)
    ensures r.Ok? ==> forall k :: k in r.value ==> Hashable(k)
    ensures r.Ok? ==> |r.value| <= |pairs|
    ensures r.Err? ==> r.error == TypeError
  {
    if pairs == [] then Ok(map[])
    else
      var m :- DictOf(pairs[..|pairs| - 1]);
      var (k, v) := pairs[|pairs| - 1];
      if Hashable(k) then Ok(m[k := v]) else Err(TypeError)
  }

  /** Index i holds the last pair whose key is k. */
  ghost predicate LastKeyAt(pairs: seq<(Json, Json)>, k: Json, i: int) {
    0 <= i < |pairs| && pairs[i].0 == k && forall j :: i < j < |pairs| ==> pairs[j].0 != k
  }

  /** `dict(pairs)` succeeds exactly when every key is hashable. */
  lemma {:induction false} DictOfSucceeds(pairs: seq<(Json, Json)>)
    ensures DictOf(pairs).Ok? <==> forall i :: 0 <= i < |pairs| ==> Hashable(pairs[i].0)
  {
    if pairs != [] {
      var p := pairs[..|pairs| - 1];
      DictOfSucceeds(p);
      assert forall i :: 0 <= i < |p| ==> p[i] == pairs[i];
    }
  }

  /** The dict holds exactly the keys of the pairs, each with the value of its last pair. */
  lemma {:induction false} DictOfLookup(pairs: seq<(Json, Json)>, k: Json)
    requires DictOf(pairs).Ok?
    ensures var m := DictOf(pairs).value;
      (k in m <==> exists i :: 0 <= i < |pairs| && pairs[i].0 == k) &&
      (k in m ==> exists i :: LastKeyAt(pairs, k, i) && m[k] == pairs[i].1)
  {
    if pairs != [] {
      var n := |pairs|;
      var p := pairs[..n - 1];
      DictOfLookup(p, k);
      assert forall i :: 0 <= i < |p| ==> p[i] == pairs[i];
      var m := DictOf(pairs).value;
      if k == pairs[n - 1].0 {
        assert LastKeyAt(pairs, k, n - 1);
      } else if k in m {
        var i :| LastKeyAt(p, k, i) && m[k] == p[i].1;
        assert LastKeyAt(pairs, k, i);
      }
    }
  }

  lemma LastKeyAtUnique(pairs: seq<(Json, Json)>, k: Json, i: int, i': int)
    requires LastKeyAt(pairs, k, i) && LastKeyAt(pairs, k, i')
    ensures i == i'
  {
  }

  /** `to_int`: `int(x)`, with every exception turned into None. */
  function ToInt(x: Json): (r: Option<int>)
    ensures x.JInt? ==> r == Some(x.i)
    ensures r.None? <==> x.JNull? || x.JList? || x.JObj? || (x.JStr? && ParseDecimal(x.s).None?)
  {
    PyInt(x).ToOption()
  }

  /** None serialises as null. */
  function OptJson(o: Option<int>): Json {
    match o
    case Some(n) => JInt(n)
    case None => JNull
  }

  /** `row.get(name, "")`. */
  function RowGet(row: map<Json, Json>, name: string): (r: Json)
    ensures JStr(name) in row ==> r == row[JStr(name)]
    ensures JStr(name) !in row ==> ToInt(r).None?
  {
    if JStr(name) in row then row[JStr(name)] else JStr("")
  }

  /** `acs_features`: header row 0 and value row 1 zipped into a dict, two columns parsed. */
  function AcsFeatures(resp: Response): (r: Result<map<string, Json>, Fault>)
    ensures resp.Err? ==> r == Err(FetchFailed(resp.error))
    ensures r.Ok? ==> r.value.Keys == AcsKeys
    ensures r.Ok? ==> forall k :: k in r.value ==> r.value[k].JInt? || r.value[k].JNull?
  {
    var data :- Fetched(resp);
    var cols :- Lift(Index(data, 0));
    var vals :- Lift(Index(data, 1));
    var header :- Lift(Iter(cols));
    var values :- Lift(Iter(vals));
    var row :- Lift(DictOf(Zip(header, values)));
    Ok(map[
      "population" := OptJson(ToInt(RowGet(row, PopulationColumn))),
      "median_household_income" := OptJson(ToInt(RowGet(row, IncomeColumn)))])
  }

  /** Column `name` of the zipped rows sits at position i (the last such position). */
  ghost predicate ColumnAt(header: seq<Json>, values: seq<Json>, name: string, i: int) {
    0 <= i < |header| && i < |values| && header[i] == JStr(name) &&
    forall j :: i < j < |header| && j < |values| ==> header[j] != JStr(name)
  }

  /** The parsed field for column `name`: the integer of its cell, or null when absent or unparsable. */
  lemma ColumnField(header: seq<Json>, values: seq<Json>, row: map<Json, Json>, name: string)
    requires DictOf(Zip(header, values)) == Ok(row)
    ensures forall i :: ColumnAt(header, values, name, i) ==>
      OptJson(ToInt(RowGet(row, name))) == OptJson(ToInt(values[i]))
    ensures (forall i :: !ColumnAt(header, values, name, i)) ==>
      OptJson(ToInt(RowGet(row, name))) == JNull
  {
    var pairs := Zip(header, values);
    DictOfLookup(pairs, JStr(name));
    forall i | 0 <= i < |pairs|
      ensures ColumnAt(header, values, name, i) <==> LastKeyAt(pairs, JStr(name), i)
    {
    }
    if JStr(name) in row {
      var i0 :| LastKeyAt(pairs, JStr(name), i0) && row[JStr(name)] == pairs[i0].1;
      forall i | ColumnAt(header, values, name, i)
        ensures OptJson(ToInt(RowGet(row, name))) == OptJson(ToInt(values[i]))
      {
        LastKeyAtUnique(pairs, JStr(name), i, i0);
      }
    } else {
      assert ParseDecimal("") == None;
    }
  }

  /**
   * With at least two rows, `population` is the integer in column B01003_001E of row 1
   * and `median_household_income` the one in column B19013_001E, each null exactly when
   * its column is absent or its cell is not an integer, whatever the other column holds.
   * The call succeeds exactly when every header cell that is paired is hashable.
   */
  lemma {:induction false} AcsReadsItsColumns(rows: seq<Json>, header: seq<Json>, values: seq<Json>)
    requires |rows| >= 2 && Iter(rows[0]) == Ok(header) && Iter(rows[1]) == Ok(values)
    ensures var r := AcsFeatures(Ok(JList(rows)));
      && (r.Ok? <==> forall i :: 0 <= i < |header| && i < |values| ==> Hashable(header[i]))
      && (r.Ok? ==> r.value.Keys == AcsKeys)
      && (r.Ok? ==> forall i :: ColumnAt(header, values, PopulationColumn, i) ==>
            r.value["population"] == OptJson(ToInt(values[i])))
      && (r.Ok? && (forall i :: !ColumnAt(header, values, PopulationColumn, i)) ==>
            r.value["population"] == JNull)
      && (r.Ok? ==> forall i :: ColumnAt(header, values, IncomeColumn, i) ==>
            r.value["median_household_income"] == OptJson(ToInt(values[i])))
      && (r.Ok? && (forall i :: !ColumnAt(header, values, IncomeColumn, i)) ==>
            r.value["median_household_income"] == JNull)
  {
    var pairs := Zip(header, values);
    DictOfSucceeds(pairs);
    if DictOf(pairs).Ok? {
      var row := DictOf(pairs).value;
      ColumnField(header, values, row, PopulationColumn);
      ColumnField(header, values, row, IncomeColumn);
    }
  }

  /** A parsed field is null exactly when its column is absent or its cell does not parse. */
  lemma FieldNullIff(header: seq<Json>, values: seq<Json>, row: map<Json, Json>, name: string)
    requires DictOf(Zip(header, values)) == Ok(row)
    ensures OptJson(ToInt(RowGet(row, name))) == JNull <==>
      (forall i :: !ColumnAt(header, values, name, i)) ||
      (exists i :: ColumnAt(header, values, name, i) && ToInt(values[i]).None?)
  {
    ColumnField(header, values, row, name);
  }

  /** Fewer than two rows, or a body that is not a list, fail: the indexing is outside any try. */
  lemma AcsNeedsTwoRows(resp: Response)
    ensures resp.Err? ==> AcsFeatures(resp) == Err(FetchFailed(resp.error))
    ensures resp.Ok? && resp.value.JList? && |resp.value.items| < 2 ==>
      AcsFeatures(resp) == Err(Raised(IndexError))
    ensures resp.Ok? && (resp.value.JObj? || resp.value.JNull? || resp.value.JInt?) ==>
      AcsFeatures(resp).Err?
  {
  }

  /** A tract answer in the Census layout: a null income cell gives null, the other field is unaffected. */
  lemma AcsExample()
    ensures AcsFeatures(Ok(JList([
        JList([JStr(IncomeColumn), JStr(PopulationColumn), JStr("tract")]),
        JList([JNull, JStr("4021"), JStr("040100")])])))
      == Ok(map["population" := JInt(4021), "median_household_income" := JNull])
  {
    var header := [JStr(IncomeColumn), JStr(PopulationColumn), JStr("tract")];
    var values := [JNull, JStr("4021"), JStr("040100")];
    assert DigitsValue("4021") == 4021 by {
      assert "4021"[..3] == "402" && "402"[..2] == "40" && "40"[..1] == "4" && "4"[..0] == "";
    }
    assert ToInt(JStr("4021")) == Some(4021);
    AcsReadsItsColumns([JList(header), JList(values)], header, values);
    assert ColumnAt(header, values, PopulationColumn, 1);
    assert ColumnAt(header, values, IncomeColumn, 0);
  }
}
