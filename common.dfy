/** Types shared by every part of the escrow model. */
module Common {

  /** Document ids (Mongo ObjectIds as strings) and processor handles. */
  type Id = string

  /** A point in time, in milliseconds since the epoch; stands for JavaScript's `Date`. */
  type Millis = int

  /** 24 hours in milliseconds: the proof window and the review window. */
  const DayMillis: int := 24 * 60 * 60 * 1000

  datatype Option<+T> = None | Some(value: T)

  /** The error a handler throws: an HTTP status and a message (utils/apiError.ts). */
  datatype ApiError = ApiError(status: int, message: string)

  /** What a handler answers: a value, or the error the error middleware turns into a response. */
  datatype Result<+T> = Ok(value: T) | Err(error: ApiError)

  /** A failed zod `parse`: the error middleware answers 400 "Validation error". */
  const ValidationError := ApiError(400, "Validation error")

  /** Any other exception (a duplicate-key write, a property read on a missing document): 500. */
  const InternalError := ApiError(500, "Internal Server Error")

  datatype Role = Brand | Influencer | Admin

  /** The authenticated user of a request (`req.user`). */
  datatype Caller = Caller(id: Id, role: Role)

  /** JavaScript's `Math.round`: the nearest integer, halves rounded up. */
  function JsRound(x: real): (n: int)
    ensures x - 1.0 / 2.0 < n as real <= x + 1.0 / 2.0
  {
    (x + 1.0 / 2.0).Floor
  }
}
