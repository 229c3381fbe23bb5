/**
 * The JSON values the loaders read from their configuration (a stand-in for
 * nlohmann::json), its typed getters, and `get_vec` from util/util.h, which
 * copies the first N entries of a JSON array into a fixed-size vector.
 */
module JsonConfig {
  import opened Wrappers

  /** Numbers are held exactly; an object is only ever the top-level configuration. */
  datatype Json = JNull | JBool(b: bool) | JNumber(n: real) | JString(s: string) | JArray(items: seq<Json>)

  /** A boolean converted to an arithmetic type: true is 1, false is 0. */
  function BoolValue(b: bool): real {
    if b then 1.0 else 0.0
  }

  /** `j.get<std::string>()`: anything but a string is a `type_error`. */
  function GetString(j: Json): (r: Result<string, LoadError>)
    ensures r.Ok? <==> j.JString?
    ensures r.Ok? ==> r.value == j.s
  {
    if j.JString? then Ok(j.s) else Err(JsonTypeError)
  }

  /**
   * `j.get<float>()`: the arithmetic conversion accepts a number, which it
   * keeps (float rounding is not modelled), and a boolean, which becomes 0 or
   * 1; anything else is a `type_error`.
   */
  function GetReal(j: Json): (r: Result<real, LoadError>)
    ensures r.Ok? <==> j.JNumber? || j.JBool?
    ensures j.JNumber? ==> r == Ok(j.n)
    ensures j.JBool? ==> r == Ok(BoolValue(j.b))
  {
    match j
    case JNumber(n) => Ok(n)
    case JBool(b) => Ok(BoolValue(b))
    case _ => Err(JsonTypeError)
  }

  /** C++'s conversion of a number to `int`: truncation toward zero. */
  function Truncate(x: real): (i: int)
    ensures x >= 0.0 ==> 0.0 <= i as real <= x < i as real + 1.0
    ensures x < 0.0 ==> i as real - 1.0 < x <= i as real <= 0.0
  {
    if x >= 0.0 then x.Floor else -((-x).Floor)
  }

  /** `j.get<int>()`: a number truncated toward zero, or a boolean as 0 or 1. */
  function GetInt(j: Json): (r: Result<int, LoadError>)
    ensures r.Ok? <==> j.JNumber? || j.JBool?
    ensures j.JNumber? ==> r == Ok(Truncate(j.n))
    ensures j.JBool? ==> r == Ok(if j.b then 1 else 0)
  {
    match j
    case JNumber(n) => Ok(Truncate(n))
    case JBool(b) => Ok(if b then 1 else 0)
    case _ => Err(JsonTypeError)
  }

  /** Converts entries in order; the first one that does not convert throws. */
  function ConvertAll<T>(items: seq<Json>, get: Json -> Result<T, LoadError>): (r: Result<seq<T>, LoadError>)
    ensures r.Ok? ==> |r.value| == |items|
    ensures r.Ok? <==> forall i :: 0 <= i < |items| ==> get(items[i]).Ok?
    ensures r.Ok? ==> forall i :: 0 <= i < |items| ==> get(items[i]) == Ok(r.value[i])
  {
    if |items| == 0 then Ok([])
    else
      match get(items[0])
      case Err(e) => Err(e)
      case Ok(x) =>
        match ConvertAll(items[1..], get)
        case Err(e) => Err(e)
        case Ok(rest) =>
          assert forall i :: 1 <= i < |items| ==> items[i] == items[1..][i - 1];
          Ok([x] + rest)
  }

  /** The exception thrown is the one from the first entry that does not convert. */
  lemma {:induction false} ConvertAllFirstError<T>(items: seq<Json>, get: Json -> Result<T, LoadError>, i: nat)
    requires i < |items| && get(items[i]).Err?
    requires forall k :: 0 <= k < i ==> get(items[k]).Ok?
    ensures ConvertAll(items, get) == Err(get(items[i]).error)
  {
    if i > 0 {
      assert forall k :: 0 <= k < i - 1 ==> items[1..][k] == items[k + 1];
      ConvertAllFirstError(items[1..], get, i - 1);
    }
  }

  /** What `get_vec<T, N>(j)` computes: entry i of the result is `j[i].get<T>()`. */
  function Vec<T>(j: Json, n: nat, get: Json -> Result<T, LoadError>): Result<seq<T>, LoadError>
    requires j.JArray? ==> |j.items| >= n
  {
    if j.JArray? then ConvertAll(j.items[..n], get) else Err(JsonTypeError)
  }

  /**
   * `get_vec<T, N>(j)`: fills a fixed-size vector in place, entry by entry.
   * Indexing a const JSON array past its end is undefined, so at least n
   * entries are required; a non-array entry, or an entry of the wrong type,
   * throws.
   */
  method GetVec<T(0)>(j: Json, n: nat, get: Json -> Result<T, LoadError>) returns (r: Result<seq<T>, LoadError>)
    requires j.JArray? ==> |j.items| >= n
    ensures r == Vec(j, n, get)
    ensures r.Ok? <==> j.JArray? && forall i :: 0 <= i < n ==> get(j.items[i]).Ok?
    ensures r.Ok? ==> |r.value| == n && forall i :: 0 <= i < n ==> get(j.items[i]) == Ok(r.value[i])
  {
    if !j.JArray? {
      return Err(JsonTypeError);
    }
    var v := new T[n];
    for i := 0 to n
      invariant forall k :: 0 <= k < i ==> get(j.items[k]) == Ok(v[k])
    {
      var x := get(j.items[i]);
      if x.Err? {
        assert forall k :: 0 <= k <= i ==> j.items[..n][k] == j.items[k];
        ConvertAllFirstError(j.items[..n], get, i);
        return Err(x.error);
      }
      v[i] := x.value;
    }
    assert forall k :: 0 <= k < n ==> j.items[..n][k] == j.items[k];
    var spec := ConvertAll(j.items[..n], get);
    assert spec.Ok? && |spec.value| == n;
    assert forall k :: 0 <= k < n ==> spec.value[k] == v[k];
    assert spec.value == v[..];
    r := Ok(v[..]);
  }
}
