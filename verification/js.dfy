/**
 * The JavaScript values the randomizer receives as arguments and produces as
 * results, the conversions of JavaScript that its code relies on (truthiness,
 * numeric conversion, `<` against a number), and the errors it throws.
 */
module Js {

  /** A JavaScript value other than a function. A `Num` is never NaN: NaN is
      its own case, so `Num?` is exactly the test `Number(v) === v`.
      A non-empty `Str` is taken to convert to NaN, even when it spells a
      numeral (see ToNumber). */
  datatype Value =
    | Undefined
    | NaN
    | Num(x: real)
    | Bool(b: bool)
    | Str(s: string)
    | Timestamp(ms: real)
    | List(items: seq<Value>)
    | Record(fields: seq<(string, Value)>)

  /** `Boolean(v)`: false exactly for undefined, NaN, 0, false and "". */
  predicate Truthy(v: Value)
  {
    match v
    case Undefined => false
    case NaN => false
    case Num(x) => x != 0.0
    case Bool(b) => b
    case Str(s) => s != ""
    case _ => true
  }

  /** `Number(v)`, with None for NaN. A date converts to its time value;
      "" converts to 0; other strings, lists and plain objects are taken to
      convert to NaN. */
  function ToNumber(v: Value): Option<real>
  {
    match v
    case Num(x) => Some(x)
    case Bool(b) => Some(if b then 1.0 else 0.0)
    case Str(s) => if s == "" then Some(0.0) else None
    case Timestamp(ms) => Some(ms)
    case _ => None
  }

  /** `d < v` for a number `d`: false whenever `v` converts to NaN. */
  predicate Below(d: real, v: Value)
  {
    match ToNumber(v)
    case Some(y) => d < y
    case None => false
  }

  datatype Option<+T> = None | Some(value: T)

  /** The errors the randomizer throws, one per message in its source. */
  datatype Error =
    | MissingSeed          // 'required argument missing'
    | MissingArguments     // 'required arguments missing'
    | InvalidBounds        // 'invalid argument for `min` or `max`'
    | InvalidStep          // 'invalid argument for `step`'
    | InvalidRange         // 'invalid range implied by `min`, `max`'
    | MissingWordCount     // 'missing required argument: wordCount'
    | InvalidWordCount     // 'invalid value for argument: wordCount'
    | NotAFunction         // 'invalid argument to enable must be a function'

  datatype Result<+T> = Success(value: T) | Failure(error: Error)
}
