/**
 * JSON values as Python's `json` module hands them to the program: objects
 * become dicts keyed by strings, arrays become lists. Numbers are integers
 * here (JSON fractions are not modelled).
 *
 * The module also gives Python's meaning to a subscript `x[k]` on such a
 * value, because the estimator digs its answer out of the response with a
 * chain of subscripts and the kind of exception a failed subscript raises
 * decides whether the call is retried, abandoned or crashes.
 */
module PyJson {

  import opened Wrappers

  datatype Json =
    | JNull
    | JBool(b: bool)
    | JNum(n: int)
    | JStr(s: string)
    | JArr(items: seq<Json>)
    | JObj(fields: map<string, Json>)

  /** A subscript: a string key `x["name"]` or an integer index `x[0]`. */
  datatype Key = Name(name: string) | Pos(index: nat)

  /**
   * What evaluating a subscript yields: a value, a `KeyError` (which the
   * estimator catches), or another exception (`IndexError`, `TypeError`),
   * which it does not catch.
   */
  datatype Lookup = Found(value: Json) | KeyError | OtherError

  /** Python's `x[k]` on a decoded JSON value. */
  function Subscript(x: Json, k: Key): (r: Lookup)
    // A dict raises KeyError exactly when the key is missing; only a dict raises it.
    ensures r.KeyError? <==> x.JObj? && !(k.Name? && k.name in x.fields)
    // Any other value raises unless it is a list or string indexed in range.
    ensures r.OtherError? <==>
      match x
      case JObj(_) => false
      case JArr(items) => !(k.Pos? && k.index < |items|)
      case JStr(s) => !(k.Pos? && k.index < |s|)
      case _ => true
    ensures r.Found? && k.Name? ==> x.JObj? && k.name in x.fields && r.value == x.fields[k.name]
    ensures r.Found? && k.Pos? && x.JArr? ==> k.index < |x.items| && r.value == x.items[k.index]
    ensures r.Found? && k.Pos? && x.JStr? ==> k.index < |x.s| && r.value == JStr([x.s[k.index]])
  {
    match x
    case JObj(fields) =>
      // Keys of a decoded dict are strings, so an integer subscript is a missing key.
      if k.Name? && k.name in fields then Found(fields[k.name]) else KeyError
    case JArr(items) =>
      if k.Name? then OtherError                      // TypeError: list indices must be integers
      else if k.index < |items| then Found(items[k.index])
      else OtherError                                  // IndexError
    case JStr(s) =>
      if k.Name? then OtherError                      // TypeError: string indices must be integers
      else if k.index < |s| then Found(JStr([s[k.index]]))
      else OtherError                                  // IndexError
    case _ => OtherError                               // TypeError: not subscriptable
  }

  /** A chain of subscripts `x[k0][k1]...`, stopping at the first exception. */
  function Path(x: Json, keys: seq<Key>): (r: Lookup)
    decreases |keys|
  {
    if keys == [] then Found(x)
    else match Subscript(x, keys[0])
      case Found(y) => Path(y, keys[1..])
      case failure => failure
  }

  /**
   * A chain splits at any point: `x[a...][b...]` is `x[a...]` followed by the
   * subscripts `b` on its value, and an exception in the first part is the
   * exception of the whole.
   */
  lemma {:induction false} PathAppend(x: Json, a: seq<Key>, b: seq<Key>)
    ensures Path(x, a + b) ==
      match Path(x, a)
      case Found(y) => Path(y, b)
      case failure => failure
    decreases |a|
  {
    if a == [] {
      assert a + b == b;
    } else {
      assert (a + b)[0] == a[0];
      assert (a + b)[1..] == a[1..] + b;
      match Subscript(x, a[0])
      case Found(y) => PathAppend(y, a[1..], b);
      case _ =>
    }
  }

  /** Python's truth value of a result that may be `None`. */
  predicate Truthy(v: Option<Json>)
  {
    match v
    case None => false
    case Some(JNull) => false
    case Some(JBool(b)) => b
    case Some(JNum(n)) => n != 0
    case Some(JStr(s)) => s != []
    case Some(JArr(items)) => items != []
    case Some(JObj(fields)) => fields != map[]
  }
}
