/** What an axios request settles with, taken as an input to the code that
    awaits it: the response body's `data` field, or the error it throws. */
module Http {
  import opened Wrappers

  /** A thrown error, as the `catch` blocks tell them apart:
      `axios.isAxiosError(error)` with `error.response?.data?.message`, or any
      other `Error` with its `message`. An absent or empty message is falsy. */
  datatype Error = AxiosError(apiMessage: Option<string>) | PlainError(message: string)

  datatype Reply<T> = Ok(data: T) | Err(error: Error)

  /** The message an error contributes to `message || fallback`. */
  function Text(error: Error): (text: string) {
    match error
    case AxiosError(apiMessage) => if apiMessage.Some? then apiMessage.value else ""
    case PlainError(message) => message
  }
}
