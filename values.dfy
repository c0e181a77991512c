/** The values the reader stores: configuration literals (as loaded from JSON or YAML)
    and the arrays it computes or copies out of waves. */
module Values {
  import opened Text

  /** A wave's numeric payload (`wData`), passed through unchanged. Its shape and element
      type play no part in the normalization, so only the flattened elements are kept. */
  datatype Payload = Payload(elements: seq<real>)

  datatype Value =
    | Str(s: string)
    | Int(i: int)
    | Real(r: real)
    | Bool(b: bool)
    | Null
    | List(elems: seq<Value>)
      /** A Python dict, as its items in insertion order. */
    | Dict(items: seq<(string, Value)>)
    | Tuple(parts: seq<Value>)
      /** A coordinate array computed from a wave header. */
    | Coords(coords: seq<real>)
      /** A payload array copied from a wave. */
    | Array(payload: Payload)

  /** The text of `type(v)` that the reader puts into its error messages. */
  function TypeName(v: Value): string
  {
    match v
    case Str(_) => "<class 'str'>"
    case Int(_) => "<class 'int'>"
    case Real(_) => "<class 'float'>"
    case Bool(_) => "<class 'bool'>"
    case Null => "<class 'NoneType'>"
    case List(_) => "<class 'list'>"
    case Dict(_) => "<class 'dict'>"
    case Tuple(_) => "<class 'tuple'>"
    case Coords(_) => "<class 'numpy.ndarray'>"
    case Array(_) => "<class 'numpy.ndarray'>"
  }

  /** Values whose `str()` this model spells out. */
  predicate Displayable(v: Value)
  {
    v.Str? || v.Int? || v.Bool? || v.Null?
  }

  /** Python's `str(v)`, as used when a value is interpolated into an f-string. */
  function Display(v: Value): (r: string)
    requires Displayable(v)
    ensures v.Str? ==> r == v.s
  {
    match v
    case Str(s) => s
    case Int(i) => IntText(i)
    case Bool(b) => if b then "True" else "False"
    case Null => "None"
  }

  /** Python's `dict(items)`: a later binding of a key replaces an earlier one. */
  function ToMap(items: seq<(string, Value)>): (m: map<string, Value>)
    ensures m.Keys == set i | 0 <= i < |items| :: items[i].0
  {
    if items == [] then map[]
    else
      var last := items[|items| - 1];
      var m := ToMap(items[..|items| - 1]);
      assert forall i :: 0 <= i < |items| - 1 ==> items[..|items| - 1][i] == items[i];
      m[last.0 := last.1]
  }
}
