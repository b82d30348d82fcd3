/**
 * Values shared by every module of the model: an Option and a Result
 * wrapper, the JSON-like values that travel in request payloads, the
 * outcomes of calls to the remote task queue and the errors the service
 * raises.
 */
module Common {

  datatype Option<+T> = None | Some(value: T)

  datatype Result<+T, +E> = Success(value: T) | Failure(error: E)

  /** The outcome of an operation that returns nothing but may raise. */
  datatype Outcome<+E> = Pass | Fail(error: E)

  /**
   * A value held in a request payload or returned by the backing store.
   * `Null` is Python's None. `Other` stands for every other JSON value
   * (a list, an object, a timestamp) and carries the text Python's `str`
   * gives of it.
   */
  datatype Value = Null | Bool(b: bool) | Int(i: int) | Str(s: string) | Other(text: string)

  /** A request payload: a JSON object. */
  type Payload = map<string, Value>

  /** Python truthiness of a value (every `Other` value is taken as truthy). */
  predicate Truthy(v: Value)
  {
    match v
    case Null => false
    case Bool(b) => b
    case Int(i) => i != 0
    case Str(s) => s != ""
    case Other(_) => true
  }

  function DigitChar(d: nat): (c: char)
    requires d < 10
    ensures '0' <= c <= '9'
  {
    ('0' as int + d) as char
  }

  /** Decimal digits of a natural number, without leading zeros. */
  function DecimalNat(n: nat): (s: string)
    ensures |s| >= 1
    ensures forall k :: 0 <= k < |s| ==> '0' <= s[k] <= '9'
    decreases n
  {
    if n < 10 then [DigitChar(n)] else DecimalNat(n / 10) + [DigitChar(n % 10)]
  }

  /** Python's `str(v)`, as used by an f-string `f"{v}"`. */
  function PyStr(v: Value): string
  {
    match v
    case Null => "None"
    case Bool(b) => if b then "True" else "False"
    case Int(i) => if i < 0 then "-" + DecimalNat(-i) else DecimalNat(i)
    case Str(s) => s
    case Other(t) => t
  }

  /** An answer of the remote task queue to one create or delete request. */
  datatype RemoteOutcome =
    | Ok
      /** google.api_core.exceptions.PermissionDenied */
    | PermissionDenied
      /** any other exception, with the text `str(error)` gives of it */
    | Failed(message: string)

  /** The exceptions the service raises or lets propagate. */
  datatype Error =
      /** ValueError raised by check_variables */
    | ConfigurationError(message: string)
      /** ValueError raised by action_dispatcher */
    | InvalidAction(message: string)
      /** TypeError raised by the Campaign dataclass constructor */
    | ConstructionError(message: string)
      /** KeyError on a payload lookup */
    | MissingKey(key: string)
      /** an error of the backing store, re-raised */
    | StoreError(message: string)
      /** an error of the remote queue, re-raised as it is */
    | RemoteError(cause: RemoteOutcome)
      /** tenacity's RetryError after the last allowed attempt, wrapping that attempt's error */
    | RetryError(last: RemoteOutcome)
}
