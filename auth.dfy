/**
 * The API-key gate: picks the credential from the `x-api-key` header, falling back
 * to `authorization`, and compares it strictly with the configured secret `API_KEY`.
 */
module Auth {
  import opened Wrappers

  /** The three ways the gate can end. */
  datatype Gate = Missing | Invalid | Proceed

  /** A header or environment value that is a non-empty string, i.e. truthy; `None` is `undefined`. */
  predicate Present(h: Option<string>)
  {
    h.Some? && h.value != ""
  }

  /** `req.headers['x-api-key'] || req.headers['authorization']`. */
  function Credential(xApiKey: Option<string>, authorization: Option<string>): Option<string>
  {
    if Present(xApiKey) then xApiKey else authorization
  }

  /**
   * `authMiddleware`'s decision for the two headers and the configured key `validApiKey`
   * (`None` when `API_KEY` is unset). Strict inequality of a string and `undefined` holds.
   */
  function Authenticate(xApiKey: Option<string>, authorization: Option<string>, validApiKey: Option<string>): (g: Gate)
    ensures g == Missing <==> !Present(xApiKey) && !Present(authorization)
    ensures g == Proceed <==>
      if Present(xApiKey) then xApiKey == validApiKey
      else Present(authorization) && authorization == validApiKey
  {
    var apiKey := Credential(xApiKey, authorization);
    if !Present(apiKey) then Missing
    else if apiKey != validApiKey then Invalid
    else Proceed
  }

  const MissingMessage := "API key is missing"
  const InvalidMessage := "Invalid API key"

  /** The status and message the gate answers with, or `None` when it calls `next()`. */
  function GateReply(g: Gate): (r: Option<(int, string)>)
    ensures r.None? <==> g == Proceed
    ensures r.Some? ==> 400 <= r.value.0 < 500
  {
    match g
    case Missing => Some((401, MissingMessage))
    case Invalid => Some((403, InvalidMessage))
    case Proceed => None
  }

  /**
   * What the gate answers for given headers: 401 exactly when neither header is truthy, 403 exactly
   * when the selected credential differs from the configured key, and `next()` exactly when it equals it.
   */
  lemma GateReplyForHeaders(xApiKey: Option<string>, authorization: Option<string>, validApiKey: Option<string>)
    ensures GateReply(Authenticate(xApiKey, authorization, validApiKey)) == Some((401, MissingMessage)) <==>
      !Present(xApiKey) && !Present(authorization)
    ensures GateReply(Authenticate(xApiKey, authorization, validApiKey)) == Some((403, InvalidMessage)) <==>
      (Present(xApiKey) || Present(authorization)) && Credential(xApiKey, authorization) != validApiKey
    ensures GateReply(Authenticate(xApiKey, authorization, validApiKey)).None? <==>
      (Present(xApiKey) || Present(authorization)) && Credential(xApiKey, authorization) == validApiKey
  {
  }

  /** With `API_KEY` unset or empty no request proceeds: every request with a credential gets 403, every other 401. */
  lemma UnconfiguredKeyNeverProceeds(xApiKey: Option<string>, authorization: Option<string>, validApiKey: Option<string>)
    requires !Present(validApiKey)
    ensures Authenticate(xApiKey, authorization, validApiKey) != Proceed
    ensures Authenticate(xApiKey, authorization, validApiKey) == Invalid <==> Present(xApiKey) || Present(authorization)
  {
  }

  /** An empty `x-api-key` is ignored: the decision is the one made on `authorization` alone. */
  lemma EmptyKeyHeaderFallsThrough(authorization: Option<string>, validApiKey: Option<string>)
    ensures Authenticate(Some(""), authorization, validApiKey) == Authenticate(None, authorization, validApiKey)
  {
  }

  /** A truthy `x-api-key` takes precedence: `authorization` is then never looked at. */
  lemma KeyHeaderTakesPrecedence(xApiKey: Option<string>, authorization: Option<string>, validApiKey: Option<string>)
    requires Present(xApiKey)
    ensures Authenticate(xApiKey, authorization, validApiKey) == Authenticate(xApiKey, None, validApiKey)
    ensures Authenticate(xApiKey, authorization, validApiKey) != Missing
  {
  }

  /** Whether the credential is missing depends on the headers only, never on the configured key; so a missing key is never a 403. */
  lemma MissingIgnoresSecret(xApiKey: Option<string>, authorization: Option<string>, k1: Option<string>, k2: Option<string>)
    ensures Authenticate(xApiKey, authorization, k1) == Missing <==> Authenticate(xApiKey, authorization, k2) == Missing
  {
  }

  /** A request carrying the configured key proceeds whichever header carries it, provided `x-api-key` is not a different truthy value. */
  lemma ConfiguredKeyProceeds(authorization: Option<string>, key: string)
    requires key != ""
    ensures Authenticate(Some(key), authorization, Some(key)) == Proceed
    ensures Authenticate(None, Some(key), Some(key)) == Proceed
    ensures Authenticate(Some(""), Some(key), Some(key)) == Proceed
  {
  }
}
