/** What a provider's stream is to the fallback layer: the events it yields and how it ends. */
module ProviderAttempts {
  import opened Prelude
  import opened SseEvents

  /** What a provider does when its upstream does not open: send the error as a stream, or raise it. */
  datatype OnOpenError = Render | Raise

  datatype Outcome = Completes | ProviderError(message: string) | OtherException

  datatype Attempt = Attempt(events: seq<Event>, outcome: Outcome)

  /** An upstream that does not open: the text shown to the client, and the message of the ProviderError
      it is mapped to. Errors without a mapping, such as a refused connection, stay what they are. */
  datatype OpenError = OpenError(shown: string, mapped: Option<string>)

  /** A request body that cannot be built, with the message of the ProviderError raised for it, if it is
      one. It raises in both modes. */
  datatype BodyFault = BodyFault(mapped: Option<string>)

  function Escaping(mapped: Option<string>): Outcome {
    if mapped.Some? then ProviderError(mapped.value) else OtherException
  }
}
