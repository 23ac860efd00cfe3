/**
 * Values and helpers shared by every queue backend: JSON-shaped messages and
 * options, JavaScript truthiness, the outcome of an asynchronous operation,
 * the option merge every backend performs at construction, and the message
 * codec that stands in for JSON.stringify / JSON.parse.
 */
module Common {

  datatype Option<+T> = None | Some(value: T)

  /** A JSON value. Numbers are integers in this model. */
  datatype Json =
    | Null
    | Bool(b: bool)
    | Num(n: int)
    | Str(s: string)
    | Arr(items: seq<Json>)
    | Obj(fields: map<string, Json>)

  /** JavaScript truthiness of a JSON value. */
  predicate Truthy(v: Json) {
    match v
    case Null => false
    case Bool(b) => b
    case Num(n) => n != 0
    case Str(s) => s != ""
    case Arr(_) => true
    case Obj(_) => true
  }

  /** Truthiness of a property read `o[k]`; a missing property reads as undefined, which is falsy. */
  predicate Has(o: map<string, Json>, k: string) {
    k in o && Truthy(o[k])
  }

  /** The kinds of failure a backend operation can reject with. */
  datatype Error =
    | WrongType(key: string)          // a key-value store command applied to a key of the other kind
    | BadPayload(body: string)        // the body of a message is not an encoding of any message
    | NoSuchQueue(name: string)       // the service or broker does not know the queue (or its URL)
    | PreconditionFailed(queue: string) // a queue is re-declared with different arguments
    | TypeError                       // a property of null/undefined was read or called
    | Refused                         // the remote side refused an acknowledgement, a deletion or a publish

  /** The settled state of a promise: resolved with a value, or rejected with an error. */
  datatype Result<+T> = Ok(value: T) | Err(error: Error)

  /** Per-backend options: a plain object. */
  type Options = map<string, Json>

  /**
   * Object.assign({}, defaults, overrides): every key of either object, the
   * overriding object's value winning on a shared key.
   */
  function Assign(defaults: Options, overrides: Options): (r: Options)
    ensures r.Keys == defaults.Keys + overrides.Keys
    ensures forall k :: k in overrides ==> r[k] == overrides[k]
    ensures forall k :: k in defaults && k !in overrides ==> r[k] == defaults[k]
  {
    defaults + overrides
  }

  /**
   * A bound read from an option and used as `i < bound` in a counting loop:
   * a positive number gives that many iterations, anything else none.
   */
  function Bound(o: Options, k: string): (n: nat)
    ensures n > 0 <==> k in o && o[k].Num? && o[k].n > 0
    ensures n > 0 ==> n == o[k].n
  {
    if k in o && o[k].Num? && o[k].n > 0 then o[k].n else 0
  }

  /** `data && data.field ? data.field : 0` over an optional reply field. */
  function OrZero(field: Option<Json>): (r: Json)
    ensures r == Num(0) || (field.Some? && r == field.value && Truthy(r))
    ensures field.Some? && Truthy(field.value) ==> r == field.value
  {
    if field.Some? && Truthy(field.value) then field.value else Num(0)
  }

  /** The message codec: serialise a message to the wire form and parse it back. */
  datatype Codec = Codec(encode: Json -> string, decode: string -> Option<Json>)

  /** The codec parses back every message it serialised. */
  ghost predicate RoundTrip(c: Codec) {
    forall m :: c.decode(c.encode(m)) == Some(m)
  }
}
