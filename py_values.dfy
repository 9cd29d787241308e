/** Decoded JSON values as the Python adapter sees them, with the few Python
    operations on them (dict.get, truthiness, iteration) that the adapter relies on. */
module PyValues {

  /** A decoded JSON value; Python's `None` is `Null`. */
  datatype Value =
    | Null
    | Bool(b: bool)
    | Int(i: int)
    | Str(s: string)
    | List(elems: seq<Value>)
    | Object(fields: map<string, Value>)

  /** A JSON object: a response, a listed item, a context row. */
  type Item = map<string, Value>

  /** The Python exceptions the modelled code can raise. */
  datatype PyError = TypeError | AttributeError | IndexError | KeyError

  datatype Option<+T> = None | Some(value: T)

  /** Either a value or the exception raised while computing it. */
  datatype Result<+T> = Ok(value: T) | Err(error: PyError) {
    predicate IsFailure() {
      Err?
    }

    function PropagateFailure<U>(): Result<U>
      requires Err?
    {
      Err(error)
    }

    function Extract(): T
      requires Ok?
    {
      value
    }
  }

  /** `d.get(key)` on a dict. */
  function Get(d: Item, key: string): Value {
    if key in d then d[key] else Null
  }

  /** `v.get(key)` on a value that may not be a dict: anything else has no `get`. */
  function AttrGet(v: Value, key: string): (r: Result<Value>)
    ensures r.Ok? <==> v.Object?
    ensures r.Ok? ==> r.value == Get(v.fields, key)
    ensures r.Err? ==> r.error == AttributeError
  {
    match v
    case Object(m) => Ok(Get(m, key))
    case _ => Err(AttributeError)
  }

  /** Python truthiness (`if v:`). */
  predicate Truthy(v: Value) {
    match v
    case Null => false
    case Bool(b) => b
    case Int(i) => i != 0
    case Str(s) => s != []
    case List(xs) => xs != []
    case Object(m) => m != map[]
  }

  predicate AllObjects(xs: seq<Value>) {
    forall i :: 0 <= i < |xs| ==> xs[i].Object?
  }

  /** The dicts met by `for item in v: item.get(...)`. Iterating a list yields its
      elements, a string its one-character strings, a dict its keys (strings);
      none of these but a dict has `get`, and `None`, numbers and booleans are not
      iterable at all. */
  function ObjectsOf(v: Value): (r: Result<seq<Item>>)
    ensures r.Ok? <==> (v.List? && AllObjects(v.elems)) || v == Str([]) || v == Object(map[])
    ensures r.Err? && !(v.List? || v.Str? || v.Object?) ==> r.error == TypeError
    ensures r.Err? && (v.List? || v.Str? || v.Object?) ==> r.error == AttributeError
    ensures r.Ok? && v.List? ==> |r.value| == |v.elems| && forall i :: 0 <= i < |v.elems| ==> v.elems[i] == Object(r.value[i])
    ensures r.Ok? && !v.List? ==> r.value == []
  {
    match v
    case List(xs) =>
      if AllObjects(xs) then Ok(seq(|xs|, i requires 0 <= i < |xs| => xs[i].fields)) else Err(AttributeError)
    case Str(s) => if s == [] then Ok([]) else Err(AttributeError)
    case Object(m) => if m == map[] then Ok([]) else Err(AttributeError)
    case _ => Err(TypeError)
  }

  /** `xs[i]` with Python's negative indexing. */
  function PyIndex<T>(xs: seq<T>, i: int): (r: Result<T>)
    ensures r.Ok? <==> -|xs| <= i < |xs|
    ensures r.Ok? && i >= 0 ==> r.value == xs[i]
    ensures r.Ok? && i < 0 ==> r.value == xs[|xs| + i]
    ensures r.Err? ==> r.error == IndexError
  {
    if 0 <= i < |xs| then Ok(xs[i])
    else if -|xs| <= i < 0 then Ok(xs[|xs| + i])
    else Err(IndexError)
  }

  /** `v[i]` with an integer index: lists and strings are indexed as Python does
      (a string yields a one-character string); a dict is looked up under the key
      `i`, which a decoded JSON object never has, its keys being strings; any other
      value is not subscriptable. */
  function Subscript(v: Value, i: int): (r: Result<Value>)
    ensures v.List? ==> r == PyIndex(v.elems, i)
    ensures v.Str? ==> (r.Ok? <==> -|v.s| <= i < |v.s|)
    ensures v.Str? && r.Ok? ==> r.value.Str? && |r.value.s| == 1
    ensures v.Object? ==> r == Err(KeyError)
    ensures !(v.List? || v.Str? || v.Object?) ==> r == Err(TypeError)
    ensures r.Err? && (v.List? || v.Str?) ==> r.error == IndexError
  {
    match v
    case List(xs) => PyIndex(xs, i)
    case Str(s) =>
      (match PyIndex(s, i)
       case Ok(c) => Ok(Str([c]))
       case Err(e) => Err(e))
    case Object(_) => Err(KeyError)
    case _ => Err(TypeError)
  }
}
