/** Value types shared by the wrapper, the history collector and the chart:
    optional values, results carrying an error, the abstract outcome of a
    vendor call, and Python's truthiness rule for optional strings. */
module Common {

  /** Python's `Optional[X]`: `None` or a value. */
  datatype Option<+T> = None | Some(value: T) {
    /** `x if x is not None else default` */
    function GetOr(default: T): T {
      match this
      case Some(v) => v
      case None => default
    }
  }

  /** The wrapper's "data or error record" return value. */
  datatype Result<+T, +E> = Success(value: T) | Failure(error: E)

  /** What one vendor SDK call does when it is made: it returns a list of
      records, raises the SDK's `APIError` (with an HTTP status and a
      message), or raises any other exception. */
  datatype Outcome<+T> = Ok(data: seq<T>) | ApiErr(status: int, message: string) | Other(message: string)

  /** Python truthiness of an `Optional[str]`: neither `None` nor `""`. */
  predicate Truthy(s: Option<string>) {
    s.Some? && s.value != ""
  }

  /** Python's `a or b` on optional strings. */
  function OrElse(a: Option<string>, b: Option<string>): Option<string> {
    if Truthy(a) then a else b
  }

  /** `[f(x) for x in s]` */
  function MapSeq<A, B>(f: A -> B, s: seq<A>): (r: seq<B>)
    ensures |r| == |s|
    ensures forall i :: 0 <= i < |s| ==> r[i] == f(s[i])
  {
    if s == [] then [] else [f(s[0])] + MapSeq(f, s[1..])
  }
}
