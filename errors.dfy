/** `getErrorMessage`: the message shown for a rejected remote call. */
module ErrorMessages {
  import opened Wrappers

  const UnknownError: string := "An unknown error occurred"

  /** The structured `body` of a server-side failure; its `message` may be absent. */
  datatype ErrorBody = ErrorBody(message: Option<string>)

  /** The value a remote call rejects with: an optional `body` and an optional `message`. */
  datatype RemoteError = RemoteError(body: Option<ErrorBody>, message: Option<string>)

  /** JavaScript truthiness of an optional string: present and not empty. */
  predicate Truthy(m: Option<string>) {
    m.Some? && m.value != ""
  }

  /** `error.body.message`, absent when there is no body. */
  function BodyMessage(e: RemoteError): Option<string> {
    if e.body.Some? then e.body.value.message else None
  }

  /** The places a message is looked for, most preferred first. */
  function Candidates(e: RemoteError): seq<Option<string>> {
    [BodyMessage(e), e.message]
  }

  /** Reference definition of a preference order: the first truthy candidate, else `fallback`. */
  function FirstTruthy(cs: seq<Option<string>>, fallback: string): string {
    if cs == [] then fallback
    else if Truthy(cs[0]) then cs[0].value
    else FirstTruthy(cs[1..], fallback)
  }

  /** A truthy candidate preceded only by falsy ones is the one chosen. */
  lemma {:induction false} FirstTruthyPicksEarliest(cs: seq<Option<string>>, fallback: string, k: nat)
    requires k < |cs| && Truthy(cs[k])
    requires forall j :: 0 <= j < k ==> !Truthy(cs[j])
    ensures FirstTruthy(cs, fallback) == cs[k].value
  {
    if k > 0 {
      FirstTruthyPicksEarliest(cs[1..], fallback, k - 1);
    }
  }

  /** With no truthy candidate at all, the fallback is chosen. */
  lemma {:induction false} FirstTruthyFallsBack(cs: seq<Option<string>>, fallback: string)
    requires forall j :: 0 <= j < |cs| ==> !Truthy(cs[j])
    ensures FirstTruthy(cs, fallback) == fallback
  {
    if cs != [] {
      FirstTruthyFallsBack(cs[1..], fallback);
    }
  }

  /** The message of a failure: `body.message` if truthy, else `message` if truthy, else
      the fixed fallback text. The result is never empty, so an error toast always says
      something. */
  function GetErrorMessage(e: RemoteError): (r: string)
    ensures r == FirstTruthy(Candidates(e), UnknownError)
    ensures r != ""
  {
    if e.body.Some? && Truthy(e.body.value.message) then
      FirstTruthyPicksEarliest(Candidates(e), UnknownError, 0);
      e.body.value.message.value
    else if Truthy(e.message) then
      FirstTruthyPicksEarliest(Candidates(e), UnknownError, 1);
      e.message.value
    else
      FirstTruthyFallsBack(Candidates(e), UnknownError);
      UnknownError
  }

  /** An empty `body.message` is falsy: the top-level `message` (or the fallback) is used. */
  lemma EmptyBodyMessageFallsThrough(e: RemoteError)
    requires e.body == Some(ErrorBody(Some("")))
    ensures GetErrorMessage(e) == if Truthy(e.message) then e.message.value else UnknownError
  {
  }
}
