/** JSON values as the Python code holds them after `json.loads` (dicts, lists, strings,
    numbers, booleans and `None`), the exceptions that Python's dynamic typing raises on them,
    and the `json` module itself kept abstract. */
module JsonValues {
  import opened Wrappers
  import opened Strings

  /** A decoded JSON value. `Null` is also Python's `None`. Objects are maps: the model does
      not keep the insertion order of a Python dict. */
  datatype Json =
    | Null
    | Bool(b: bool)
    | Int(i: int)
    | Float(f: real)
    | Str(s: string)
    | Arr(items: seq<Json>)
    | Obj(fields: map<string, Json>)

  /** The Python exceptions the modelled code can raise. */
  datatype PyError =
    | KeyError(key: string)       // d[key] on a dict without that key
    | IndexError                  // a list or split result indexed past its end
    | TypeError                   // len(), `in`, iteration or indexing on the wrong kind of value
    | AttributeError              // .get() / .strip() on a value that has no such method
    | DecodeError(text: string)   // json.loads(text) failed

  /** The serialisation functions the program calls but that this model does not define:
      `json.dumps(x, ensure_ascii=False)`, `json.dumps(x)`, `json.loads(s)` (None when it
      raises) and Python's `str(x)` for floats, lists and dicts. */
  datatype Codec = Codec(
    dumps: Json -> string,
    dumpsAscii: Json -> string,
    loads: string -> Option<Json>,
    repr: Json -> string)

  /** What the JSON-Lines files rely on: a dumped value holds no raw newline (JSON escapes
      it) and loading a dumped line, newline included, gives the value back. */
  ghost predicate LineSafe(codec: Codec) {
    forall x :: '\n' !in codec.dumps(x) && codec.loads(codec.dumps(x) + "\n") == Some(x)
  }

  /** Python's `bool(x)`. */
  predicate Truthy(j: Json) {
    match j
    case Null => false
    case Bool(b) => b
    case Int(i) => i != 0
    case Float(f) => f != 0.0
    case Str(s) => s != ""
    case Arr(items) => items != []
    case Obj(fields) => |fields| > 0
  }

  /** Python's `str(x)`, as an f-string renders a value. */
  function Show(j: Json, codec: Codec): string {
    match j
    case Null => "None"
    case Bool(b) => if b then "True" else "False"
    case Int(i) => IntToDecimal(i)
    case Str(s) => s
    case _ => codec.repr(j)
  }

  /** `d.get(key, default)` on a dict. */
  function Get(d: map<string, Json>, key: string, default: Json): (r: Json)
    ensures key in d ==> r == d[key]
    ensures key !in d ==> r == default
  {
    if key in d then d[key] else default
  }

  /** The dict behind a value on which the code calls `.get`: anything else raises. */
  function AsDict(j: Json): (r: Result<map<string, Json>, PyError>)
    ensures r.Success? <==> j.Obj?
    ensures r.Success? ==> r.value == j.fields
  {
    if j.Obj? then Success(j.fields) else Failure(AttributeError)
  }

  /** Python's `key in x` for a string key: a dict tests its keys, a list its elements, a
      string its substrings; other values raise. */
  function PyIn(key: string, x: Json): Result<bool, PyError> {
    match x
    case Obj(fields) => Success(key in fields)
    case Arr(items) => Success(Str(key) in items)
    case Str(s) => Success(Contains(s, key))
    case _ => Failure(TypeError)
  }

  /** Python's `len(x)`. */
  function PyLen(x: Json): Result<nat, PyError> {
    match x
    case Obj(fields) => Success(|fields|)
    case Arr(items) => Success(|items|)
    case Str(s) => Success(|s|)
    case _ => Failure(TypeError)
  }

  /** Python's `x[0]`. A dict decoded from JSON has only string keys, so it raises. */
  function First(x: Json): Result<Json, PyError> {
    match x
    case Arr(items) => if items != [] then Success(items[0]) else Failure(IndexError)
    case Str(s) => if s != "" then Success(Str([s[0]])) else Failure(IndexError)
    case Obj(_) => Failure(KeyError("0"))
    case _ => Failure(TypeError)
  }

  /** Python's `x[key]` for a string key: only a dict accepts it. */
  function Subscript(x: Json, key: string): Result<Json, PyError> {
    match x
    case Obj(fields) => if key in fields then Success(fields[key]) else Failure(KeyError(key))
    case _ => Failure(TypeError)
  }
}
