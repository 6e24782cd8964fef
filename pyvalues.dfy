/**
 * The Python values the services hand to `json.dumps` and get back from
 * `json.loads`: the JSON shapes of RFC 8259 plus `datetime`, which the
 * encoder refuses. The encoder and decoder themselves are parameters.
 */
module PyValues {
  import opened Common

  datatype PyValue =
    | PyNone
    | PyBool(b: bool)
    | PyInt(i: int)
    | PyStr(s: string)
    | PyList(items: seq<PyValue>)
    | PyDict(fields: map<string, PyValue>)
    | PyDateTime(epoch: int)

  /** `json.dumps` succeeds on the value: no `datetime` anywhere inside it. */
  predicate Serializable(v: PyValue)
  {
    match v
    case PyDateTime(_) => false
    case PyList(items) => forall i :: 0 <= i < |items| ==> Serializable(items[i])
    case PyDict(fields) => forall k :: k in fields ==> Serializable(fields[k])
    case _ => true
  }

  /** Python truthiness (`if value:`). */
  predicate Truthy(v: PyValue)
  {
    match v
    case PyNone => false
    case PyBool(b) => b
    case PyInt(i) => i != 0
    case PyStr(s) => s != ""
    case PyList(items) => |items| > 0
    case PyDict(fields) => |fields| > 0
    case PyDateTime(_) => true
  }

  /** `value.get(key)` on a dict; None for a missing key or a non-dict. */
  function Field(v: PyValue, key: string): Option<PyValue>
  {
    if v.PyDict? && key in v.fields then Some(v.fields[key]) else None
  }

  /** A JSON text codec: `json.dumps` and `json.loads` (None is `JSONDecodeError`). */
  datatype JsonCodec = JsonCodec(dumps: PyValue -> string, loads: string -> Option<PyValue>)

  /** The codec reads back what it wrote, and never writes the empty text. */
  ghost predicate Sound(c: JsonCodec)
  {
    forall v {:trigger c.dumps(v)} :: Serializable(v) ==> c.loads(c.dumps(v)) == Some(v) && c.dumps(v) != ""
  }
}
