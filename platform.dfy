/**
 * The few chat-platform (serenity) types that the logging sink touches.
 * Everything here is a value: identifiers, the opaque gateway context,
 * the thread-creation request and the error a REST call can give back.
 */
module Platform {

  datatype Option<+T> = None | Some(value: T)

  /** Outcome of a fallible call: a value, or the error it was answered with. */
  datatype Result<+T, +E> = Ok(value: T) | Err(error: E)

  /** A channel (or thread) snowflake: a non-zero unsigned 64-bit integer. */
  newtype ChannelId = x: int | 0 < x < 0x1_0000_0000_0000_0000 witness 1

  /** The gateway context delivered by the `ready` event; opaque, told apart by its session. */
  datatype Context = Context(session: nat)

  /** Wall-clock time as read by the caller (seconds since the Unix epoch). */
  type Timestamp = int

  /** An error answered by the platform's REST API. */
  datatype ApiError = ApiError(reason: string)

  datatype AutoArchiveDuration = OneHour | OneDay | ThreeDays | OneWeek

  datatype ChannelType = Text | PublicThread | PrivateThread

  /** The body of a create-thread request. */
  datatype ThreadRequest = ThreadRequest(name: string, autoArchive: AutoArchiveDuration, kind: ChannelType)
}
