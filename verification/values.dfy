/** The dynamically typed values that flow through the assistant: what
    `json.loads` produces from a language-model reply, what is written into a
    ledger row, and what the profile document holds. */
module Values {

  datatype Option<+T> = None | Some(value: T) {
    function GetOr(default: T): T {
      match this
      case Some(v) => v
      case None => default
    }
  }

  /** A computation that either produced a value or raised; `error` is the
      text Python would show for the exception (`str(e)`). */
  datatype Result<+T, +E> = Ok(value: T) | Err(error: E)

  /** A JSON-shaped Python value. Integers and floats are kept apart as JSON
      keeps them apart (`5` and `5.0`). */
  datatype Value =
    | Null
    | Bool(b: bool)
    | Int(i: int)
    | Float(f: real)
    | Str(s: string)
    | List(items: seq<Value>)
    | Obj(fields: map<string, Value>)

  /** One line of the ledger file: its cells, left to right. */
  type Row = seq<Value>

  /** Python's `bool(v)`: false exactly for `None`, `False`, zero, and the
      empty string, list and dict. */
  predicate Truthy(v: Value): (b: bool)
    ensures !b <==> v == Null || v == Bool(false) || v == Int(0) || v == Float(0.0)
                    || v == Str("") || v == List([]) || v == Obj(map[])
  {
    match v
    case Null => false
    case Bool(b) => b
    case Int(i) => i != 0
    case Float(f) => f != 0.0
    case Str(s) => |s| > 0
    case List(items) => |items| > 0
    case Obj(fields) => |fields| > 0
  }

  /** `d.get(key, default)` on a dict. */
  function Get(d: map<string, Value>, key: string, default: Value): Value {
    if key in d then d[key] else default
  }

  /** `d.get(capital, d.get(lower))`: the capitalised key wins whenever it is
      present, even when it holds `None`. */
  function FieldOf(d: map<string, Value>, capital: string, lower: string): (v: Value)
    ensures capital in d ==> v == d[capital]
    ensures capital !in d && lower in d ==> v == d[lower]
    ensures capital !in d && lower !in d ==> v == Null
  {
    Get(d, capital, Get(d, lower, Null))
  }

  /** `type(v).__name__`, as it appears in Python's error messages. */
  function TypeName(v: Value): string {
    match v
    case Null => "NoneType"
    case Bool(_) => "bool"
    case Int(_) => "int"
    case Float(_) => "float"
    case Str(_) => "str"
    case List(_) => "list"
    case Obj(_) => "dict"
  }
}
