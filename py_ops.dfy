/**
 * The Python operations main.py applies to decoded JSON: `d[k]`, `d.get(k, default)`,
 * `x[0]`, `len(x)`, iteration, and `int(x)`, each with the exception Python raises when
 * the value has the wrong shape.
 */
module PyOps {
  import opened Wrappers
  import opened JsonData

  /** The exception classes these operations raise on decoded JSON. */
  datatype PyError = KeyError | IndexError | TypeError | AttributeError | ValueError

  /** `j[key]` with a string key: only a dict can be subscripted by a string. */
  function Subscript(j: Json, key: string): (r: Result<Json, PyError>)
    ensures r.Ok? <==> j.JObj? && key in j.fields
    ensures r.Ok? ==> r.value == j.fields[key]
    ensures r.Err? ==> r.error == (if j.JObj? then KeyError else TypeError)
  {
    match j
    case JObj(f) => if key in f then Ok(f[key]) else Err(KeyError)
    case _ => Err(TypeError)
  }

  /**
   * `j[i]` with an integer index. A string yields its i-th character as a one-character
   * string; a dict is looked up by the integer key, which a decoded JSON object never has.
   */
  function Index(j: Json, i: nat): (r: Result<Json, PyError>)
    ensures r.Ok? <==> (j.JList? && i < |j.items|) || (j.JStr? && i < |j.s|)
    ensures r.Ok? && j.JList? ==> r.value == j.items[i]
    ensures r.Ok? && j.JStr? ==> r.value == JStr([j.s[i]])
    ensures r == Err(IndexError) <==> (j.JList? && i >= |j.items|) || (j.JStr? && i >= |j.s|)
  {
    match j
    case JList(items) => if i < |items| then Ok(items[i]) else Err(IndexError)
    case JStr(s) => if i < |s| then Ok(JStr([s[i]])) else Err(IndexError)
    case JObj(_) => Err(KeyError)
    case _ => Err(TypeError)
  }

  /** `j.get(key, default)`: only a dict has a `get` method. */
  function Get(j: Json, key: string, default: Json): (r: Result<Json, PyError>)
    ensures r.Ok? <==> j.JObj?
    ensures r.Ok? && key in j.fields ==> r.value == j.fields[key]
    ensures r.Ok? && key !in j.fields ==> r.value == default
    ensures r.Err? ==> r.error == AttributeError
  {
    match j
    case JObj(f) => Ok(if key in f then f[key] else default)
    case _ => Err(AttributeError)
  }

  /** `len(j)`. */
  function Len(j: Json): (r: Result<nat, PyError>)
    ensures r.Ok? <==> j.JList? || j.JStr? || j.JObj?
    ensures r.Ok? && j.JList? ==> r.value == |j.items|
    ensures r.Err? ==> r.error == TypeError
  {
    match j
    case JList(items) => Ok(|items|)
    case JStr(s) => Ok(|s|)
    case JObj(f) => Ok(|f|)
    case _ => Err(TypeError)
  }

  /** The one-character strings a Python string yields when iterated. */
  function Chars(s: string): (r: seq<Json>)
    ensures |r| == |s|
  {
    seq(|s|, i requires 0 <= i < |s| => JStr([s[i]]))
  }

  /**
   * The elements `iter(j)` yields. A non-empty dict would yield its keys in insertion
   * order, which a map does not keep, so that one case is reported as a TypeError.
   */
  function Iter(j: Json): (r: Result<seq<Json>, PyError>)
    ensures j.JList? ==> r == Ok(j.items)
    ensures j.JStr? ==> r.Ok?
    ensures j.JStr? ==> |r.value| == |j.s| && forall i :: 0 <= i < |j.s| ==> r.value[i] == JStr([j.s[i]])
    ensures j.JNull? || j.JBool? || j.JInt? ==> r == Err(TypeError)
  {
    match j
    case JList(items) => Ok(items)
    case JStr(s) => Ok(Chars(s))
    case JObj(f) => if f == map[] then Ok([]) else Err(TypeError)
    case _ => Err(TypeError)
  }

  predicate IsDigit(c: char) {
    '0' <= c <= '9'
  }

  predicate AllDigits(s: string) {
    forall i :: 0 <= i < |s| ==> IsDigit(s[i])
  }

  /** The value of a string of decimal digits, most significant digit first. */
  function DigitsValue(s: string): nat
    requires AllDigits(s)
  {
    if s == [] then 0
    else 10 * DigitsValue(s[..|s| - 1]) + (s[|s| - 1] as int - '0' as int)
  }

  /** Python's `int(s)` on a string: an optional `-` followed by one or more decimal digits. */
  function ParseDecimal(s: string): (r: Option<int>)
    ensures r.Some? ==> |s| > 0 && (s[0] == '-' || IsDigit(s[0]))
    ensures r.Some? && s[0] != '-' ==> r.value >= 0
    ensures r.Some? && s[0] == '-' ==> r.value <= 0
  {
    if |s| > 1 && s[0] == '-' && AllDigits(s[1..]) then Some(-(DigitsValue(s[1..]) as int))
    else if |s| > 0 && AllDigits(s) then Some(DigitsValue(s))
    else None
  }

  function DigitChar(d: nat): char
    requires d < 10
  {
    ('0' as int + d) as char
  }

  /** The decimal digits of n, without sign or leading zeros. */
  function Digits(n: nat): (s: string)
    ensures |s| > 0 && AllDigits(s)
  {
    if n < 10 then [DigitChar(n)] else Digits(n / 10) + [DigitChar(n % 10)]
  }

  /** Python's `str(n)` for an integer. */
  function Decimal(n: int): string {
    if n < 0 then "-" + Digits(-n) else Digits(n)
  }

  lemma {:induction false} DigitsValueOfDigits(n: nat)
    ensures DigitsValue(Digits(n)) == n
  {
    if n >= 10 {
      var s := Digits(n);
      assert s[..|s| - 1] == Digits(n / 10);
      DigitsValueOfDigits(n / 10);
    }
  }

  /** Every integer's decimal rendering is accepted by the parser and gives that integer back. */
  lemma ParseDecimalRoundTrip(n: int)
    ensures ParseDecimal(Decimal(n)) == Some(n)
  {
    if n < 0 {
      var s := Decimal(n);
      assert s[1..] == Digits(-n);
      DigitsValueOfDigits(-n);
    } else {
      DigitsValueOfDigits(n);
      var s := Digits(n);
      assert s[0] != '-' by { assert IsDigit(s[0]); }
    }
  }

  /** A string the parser accepts consists of an optional minus sign and at least one digit. */
  lemma ParseDecimalShape(s: string)
    ensures ParseDecimal(s).Some? <==>
      ((|s| > 0 && AllDigits(s)) || (|s| > 1 && s[0] == '-' && AllDigits(s[1..])))
    ensures ParseDecimal(s).Some? && s[0] != '-' ==> ParseDecimal(s).value >= 0
  {
  }

  /** Python's `int(j)` on a decoded JSON value; floats are not part of the value model. */
  function PyInt(j: Json): (r: Result<int, PyError>)
    ensures j.JInt? ==> r == Ok(j.i)
    ensures j.JBool? ==> r == Ok(if j.b then 1 else 0)
    ensures j.JStr? ==> (r.Ok? <==> ParseDecimal(j.s).Some?)
    ensures r.Err? ==> r.error == (if j.JStr? then ValueError else TypeError)
  {
    match j
    case JInt(i) => Ok(i)
    case JBool(b) => Ok(if b then 1 else 0)
    case JStr(s) => (match ParseDecimal(s) case Some(n) => Ok(n) case None => Err(ValueError))
    case _ => Err(TypeError)
  }

  /** int() of a rendered integer, as a JSON string or a JSON number, is that integer. */
  lemma PyIntOfRendered(n: int)
    ensures PyInt(JStr(Decimal(n))) == Ok(n)
    ensures PyInt(JInt(n)) == Ok(n)
  {
    ParseDecimalRoundTrip(n);
  }

  /** int() fails exactly on null, lists, dicts and strings that are not decimal integers. */
  lemma PyIntFails(j: Json)
    ensures PyInt(j).Err? <==>
      (j.JNull? || j.JList? || j.JObj? || (j.JStr? && ParseDecimal(j.s).None?))
    ensures PyInt(j) == Err(ValueError) <==> j.JStr? && ParseDecimal(j.s).None?
  {
  }
}
