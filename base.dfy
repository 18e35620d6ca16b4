/** Types shared by the people and events parts of the model. */
module Base {

  /** A value that may be absent (a nullable column, an unset field). */
  datatype Option<+T> = None | Some(value: T)

  /** The value of a computation, or the reason it failed. */
  datatype Result<+T, +E> = Ok(value: T) | Err(error: E)

  /** The present value as a one-element sequence, nothing as the empty one. */
  function AsSeq<T>(o: Option<T>): (s: seq<T>)
    ensures |s| <= 1
    ensures o.Some? <==> |s| == 1
    ensures o.Some? ==> s[0] == o.value
  {
    match o
    case None => []
    case Some(v) => [v]
  }

  /** A wall-clock instant, in microseconds (the resolution of a time difference). */
  type Time = int

  /** Primary key of a user account. */
  type UserId = nat

  /** Primary key of an event. */
  type EventId = nat

  /** Length of one minute in time ticks. */
  const MicrosPerMinute: int := 60_000_000
}
