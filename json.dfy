/**
 * Decoded JSON, as the client receives it from the response decoder, and
 * the failures the client can raise.
 */
module Json {

  /** A decoded JSON value; `Obj` is a nested object (a Python dict). */
  datatype Value =
    | Null
    | Bool(b: bool)
    | Num(n: real)
    | Str(s: string)
    | Arr(items: seq<Value>)
    | Obj(fields: map<string, Value>)

  /** One observation or summary record: a top-level JSON object. */
  type Record = map<string, Value>

  /** The exceptions the modelled code lets escape to its caller. */
  datatype Failure =
    | Transport(message: string)    // non-2xx status, network failure, missing list key
    | NotAMapping(key: string)      // `record.update(record[key])` on a value that is not a dict
    | NoObservation                 // `observations[0]` on an empty list
    | MalformedDate(text: string)   // `strptime` rejects the (dash-stripped) text
    | Unordered                     // `start < end` with `end` being None
    | DateOverflow                  // stepping back from 0001-01-01
}
