/** The dynamically typed values that pass through the stores (Go's `any`), and what a
    trip through encoding/json does to them. */
module Values {
  datatype Option<+T> = None | Some(value: T)

  /** A Go `any`.  `Int` is an `int`, `Int64` an `int64`, `Float` a `float64`;
      float rounding is not modelled, so a `Float` carries a real number. */
  datatype Value =
    | Null
    | Bool(b: bool)
    | Str(s: string)
    | Float(r: real)
    | Int(i: int)
    | Int64(n: int)
    | List(items: seq<Value>)
    | Object(fields: Fields)

  type Fields = map<string, Value>

  /** A Go `map[string]any`, which may be nil. */
  type Doc = Option<Fields>

  /** Reading an absent key of a Go map gives the zero value, nil for `any`. */
  function Lookup(f: Fields, key: string): Value {
    if key in f then f[key] else Null
  }

  /** The `v, _ := x.(string)` idiom: anything but a string reads as "". */
  function AsString(v: Value): string {
    if v.Str? then v.s else ""
  }

  /** The value that json.Unmarshal yields for the text json.Marshal made of `v`:
      every number comes back as a float64. */
  function Normal(v: Value): Value {
    match v
    case Int(i) => Float(i as real)
    case Int64(n) => Float(n as real)
    case List(items) => List(seq(|items|, k requires 0 <= k < |items| => Normal(items[k])))
    case Object(fields) => Object(map key | key in fields :: Normal(fields[key]))
    case _ => v
  }

  function NormalFields(f: Fields): Fields {
    map key | key in f :: Normal(f[key])
  }

  function NormalDoc(d: Doc): Doc {
    match d
    case None => None
    case Some(f) => Some(NormalFields(f))
  }

  lemma NormalObject(f: Fields)
    ensures Normal(Object(f)) == Object(NormalFields(f))
  {
  }

  /** Normalisation is idempotent: storing a value that was read back changes nothing more. */
  lemma {:induction false} NormalIdempotent(v: Value)
    ensures Normal(Normal(v)) == Normal(v)
  {
    match v
    case List(items) =>
      forall k | 0 <= k < |items|
        ensures Normal(Normal(items[k])) == Normal(items[k])
      {
        NormalIdempotent(items[k]);
      }
      assert Normal(Normal(v)).items == Normal(v).items;
    case Object(fields) =>
      forall key | key in fields
        ensures Normal(Normal(fields[key])) == Normal(fields[key])
      {
        NormalIdempotent(fields[key]);
      }
      assert Normal(Normal(v)).fields == Normal(v).fields;
    case _ =>
  }
}
