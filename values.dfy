/**
 * The dynamic values that handlers read from documents and write into JSON responses:
 * the plain-object view (`toObject()`) of a stored document and the bodies sent to clients.
 */
module Values {

  /** A `Date`, as milliseconds since the epoch. Rendering it to text is a parameter (`iso`). */
  datatype Date = Date(millis: int)

  /** A store-assigned identifier; `toString()` yields its hexadecimal text. */
  datatype ObjectId = ObjectId(hex: string)

  /** A JavaScript value as it appears in a plain object or a JSON body. */
  datatype Value =
    | Null
    | Bool(b: bool)
    | Num(n: real)
    | Str(s: string)
    | DateV(date: Date)
    | Oid(oid: ObjectId)
    | Arr(items: seq<Value>)
    | Obj(fields: map<string, Value>)

  /** A plain object; a key that is absent is `undefined`. */
  type Object = map<string, Value>

  /** JavaScript truthiness (`NaN` is not modelled: numbers are exact). */
  predicate Truthy(v: Value) {
    match v
    case Null => false
    case Bool(b) => b
    case Num(n) => n != 0.0
    case Str(s) => s != ""
    case _ => true
  }

  /** The body `{ error: message }` every handler sends on failure. */
  function ErrorBody(message: string): Value {
    Obj(map["error" := Str(message)])
  }
}

/** The part of an HTTP response a handler chooses: its status and its JSON body. */
module Http {
  import opened Values

  datatype Status = OK | Created | BadRequest | NotFound | InternalServerError

  /** The numeric status code Express sends. */
  function Code(s: Status): nat {
    match s
    case OK => 200
    case Created => 201
    case BadRequest => 400
    case NotFound => 404
    case InternalServerError => 500
  }

  datatype Reply = Reply(status: Status, body: Value)
}
