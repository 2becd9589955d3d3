/**
 The result wrapper every provider call goes through: a settled request is
 turned into a two-slot result, `[value, null]` on success and
 `[null, message]` on failure, where the message is the provider payload's
 `message` when it is truthy and the fixed text "Unknown Error!" otherwise.
 */
module TryCatch {
  import opened Js

  /** The fallback message for a failure without a usable provider message. */
  const UnknownError: string := "Unknown Error!"

  /** The provider's error payload (`response.data`): it may carry a `message`. */
  datatype ErrorBody = ErrorBody(message: Option<string>)

  /** A settled request: it either fulfilled with a value, or rejected with an
      error that may or may not carry a provider response. */
  datatype Settled<T> = Fulfilled(value: T) | Rejected(response: Option<ErrorBody>)

  /** The two-slot result as a tagged union: exactly one slot is ever populated. */
  datatype Outcome<+T> = Success(value: T) | Failure(message: string) {

    /** The first slot of the pair: the value, or null. */
    function Value(): (v: Option<T>)
      ensures v.Some? <==> Success?
    {
      if Success? then Some(value) else None
    }

    /** The second slot of the pair: the error message, or null. */
    function Error(): (e: Option<string>)
      ensures e.Some? <==> Failure?
    {
      if Failure? then Some(message) else None
    }
  }

  /** Reads a pair of slots back as an outcome; pairs with both slots null or
      both populated are not results of the wrapper and read as None. */
  function FromSlots<T>(value: Option<T>, error: Option<string>): (r: Option<Outcome<T>>)
    ensures r.Some? <==> (value.Some? != error.Some?)
    ensures r.Some? ==> r.value.Value() == value && r.value.Error() == error
  {
    match (value, error)
    case (Some(v), None) => Some(Success(v))
    case (None, Some(e)) => Some(Failure(e))
    case _ => None
  }

  /** `error.response?.data.message || "Unknown Error!"`. */
  function ExtractMessage(response: Option<ErrorBody>): (m: string)
    ensures m != ""
    ensures m != UnknownError ==> response == Some(ErrorBody(Some(m)))
    ensures response.Some? && Truthy(response.value.message) ==> m == response.value.message.value
    ensures response.None? || !Truthy(response.value.message) ==> m == UnknownError
  {
    if response.Some? then OrElse(response.value.message, UnknownError) else UnknownError
  }

  /** The wrapper applied to a settled request. */
  function Wrap<T>(p: Settled<T>): (r: Outcome<T>)
    ensures r.Value().Some? != r.Error().Some?
    ensures p.Fulfilled? ==> r.Value() == Some(p.value)
    ensures p.Rejected? ==> r.Value().None? && r.Error() == Some(ExtractMessage(p.response))
    ensures r.Error().Some? ==> r.Error().value != ""
  {
    match p
    case Fulfilled(v) => Success(v)
    case Rejected(response) => Failure(ExtractMessage(response))
  }

  /** The wrapper together with its diagnostic log: a rejection appends the raw
      error to the log, and the returned result is that of `Wrap` whatever the log holds. */
  function WrapLogged<T>(p: Settled<T>, log: seq<Option<ErrorBody>>): (r: (Outcome<T>, seq<Option<ErrorBody>>))
    ensures r.0 == Wrap(p)
    ensures p.Fulfilled? ==> r.1 == log
    ensures p.Rejected? ==> r.1 == log + [p.response]
  {
    match p
    case Fulfilled(v) => (Success(v), log)
    case Rejected(response) => (Failure(ExtractMessage(response)), log + [response])
  }

  /** Every result reads back from its own pair of slots. */
  lemma SlotsRoundTrip<T>(r: Outcome<T>)
    ensures FromSlots(r.Value(), r.Error()) == Some(r)
  {
  }

  /** A non-empty provider message is passed through verbatim. */
  lemma ProviderMessageVerbatim<T>(message: string)
    requires message != ""
    ensures Wrap<T>(Rejected(Some(ErrorBody(Some(message))))) == Failure(message)
  {
  }

  /** A failure without a response, without a message, or with an empty
      message gets the fallback text. */
  lemma FallbackMessage<T>(response: Option<ErrorBody>)
    requires response.None? || response.value.message.None? || response.value.message.value == ""
    ensures Wrap<T>(Rejected(response)) == Failure(UnknownError)
  {
  }

  /** The logged and unlogged wrappers agree on the result for every log. */
  lemma LoggingDoesNotAffectResult<T>(p: Settled<T>, log1: seq<Option<ErrorBody>>, log2: seq<Option<ErrorBody>>)
    ensures WrapLogged(p, log1).0 == WrapLogged(p, log2).0
  {
  }
}
