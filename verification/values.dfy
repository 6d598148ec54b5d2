/** The loosely typed payload of a submitted POS order line.

    The point-of-sale client submits each line as a command triple
    `(0, 0, {...})` whose third element is a dictionary of field values.
    The expansion reads a handful of those fields, copies the dictionary,
    removes and overwrites fields, and otherwise forwards whatever else the
    client put there.  A line is therefore modelled as a map from field
    names to dynamically typed values, so that "the line is forwarded
    unchanged" is plain equality. */
module Values {

  datatype Option<T> = None | Some(value: T)

  /** A field value as the client can send it. */
  datatype Value =
    | Null
    | Bool(b: bool)
    | Int(i: int)
    | Num(r: real)
    | Str(s: string)
    | List(items: seq<Value>)
    | Record(fields: map<string, Value>)

  type Dict = map<string, Value>

  /** `d.get(key)`: a missing key reads as None. */
  function Get(d: Dict, key: string): Value
  {
    if key in d then d[key] else Null
  }

  /** The truth value the source's `if x` / `not x` give to a value. */
  predicate Truthy(v: Value)
  {
    match v
    case Null => false
    case Bool(b) => b
    case Int(i) => i != 0
    case Num(r) => r != 0.0
    case Str(s) => s != ""
    case List(items) => items != []
    case Record(fields) => fields != map[]
  }

  predicate IsNumber(v: Value)
  {
    v.Int? || v.Num?
  }

  /** An integer read as a real number.  Defined by counting rather than as
      a conversion, which keeps integer-to-real conversions out of the
      verifier's reasoning about products of prices and quantities. */
  function IntAsReal(i: int): real
    decreases if i < 0 then -i else i
  {
    if i == 0 then 0.0
    else if i > 0 then IntAsReal(i - 1) + 1.0
    else IntAsReal(i + 1) - 1.0
  }

  /** Counting gives the real number the integer stands for. */
  lemma {:induction false} IntAsRealIsConversion(i: int)
    ensures IntAsReal(i) == i as real
    decreases if i < 0 then -i else i
  {
    if i > 0 {
      IntAsRealIsConversion(i - 1);
    } else if i < 0 {
      IntAsRealIsConversion(i + 1);
    }
  }

  /** The number a numeric value stands for; `default` for anything else. */
  function NumberOr(v: Value, default: real): real
  {
    match v
    case Int(i) => IntAsReal(i)
    case Num(r) => r
    case _ => default
  }

  /** `d.get(key, default)` read as a number. */
  function NumberField(d: Dict, key: string, default: real): real
  {
    if key in d then NumberOr(d[key], default) else default
  }

  /** An entry of the order's line list: either a list or tuple of at least
      three items whose third item is the line's field dictionary, or any
      other value. */
  datatype RawLine =
    | Command(op: Value, lineId: Value, data: Dict, rest: seq<Value>)
    | Malformed(raw: Value)
}
