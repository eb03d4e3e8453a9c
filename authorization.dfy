/** authorization.py: the API key check in front of the chat endpoint. */
module Authorization {
  import opened Wrappers
  import opened Text

  /** How `verify_api_key` ends: normally, with RuntimeError, or with an
      HTTPException carrying a status code and detail. */
  datatype Verdict =
    | Authorized
    | NotConfigured
    | Rejected(status: int, detail: string)

  const Scheme := "Bearer "

  /** `verify_api_key(authorization)` with `API_KEY = os.getenv("VERA_API_KEY")`. */
  function VerifyApiKey(apiKey: Option<string>, authorization: string): (v: Verdict)
    ensures (apiKey.None? || apiKey.value == "") <==> v == NotConfigured
    ensures v == Rejected(401, "Invalid auth header") <==>
              apiKey.Some? && apiKey.value != "" && !StartsWith(authorization, Scheme)
    ensures v == Rejected(403, "Invalid API key") <==>
              apiKey.Some? && apiKey.value != "" && StartsWith(authorization, Scheme)
              && authorization[|Scheme|..] != apiKey.value
  {
    if apiKey.None? || apiKey.value == "" then NotConfigured
    else if !StartsWith(authorization, Scheme) then Rejected(401, "Invalid auth header")
    else
      TokenAfterScheme(authorization);
      var token := SplitOnce(authorization, ' ')[1];
      if token != apiKey.value then Rejected(403, "Invalid API key")
      else Authorized
  }

  /** For a header with the `Bearer ` prefix, `split(" ", 1)[1]` is the text
      after the prefix, `authorization[7:]`. */
  lemma TokenAfterScheme(authorization: string)
    requires StartsWith(authorization, Scheme)
    ensures ' ' in authorization
    ensures SplitOnce(authorization, ' ')[1] == authorization[|Scheme|..]
  {
    assert authorization[..|Scheme|] == Scheme;
    assert authorization[6] == ' ';
    var i := Find(authorization, ' ');
  }

  /** The request passes exactly when a key is configured and the header is
      `"Bearer "` followed by that key. */
  lemma AuthorizedExactly(apiKey: Option<string>, authorization: string)
    ensures VerifyApiKey(apiKey, authorization) == Authorized <==>
              apiKey.Some? && apiKey.value != "" && authorization == Scheme + apiKey.value
  {
    if apiKey.Some? && apiKey.value != "" && StartsWith(authorization, Scheme) {
      assert authorization == authorization[..|Scheme|] + authorization[|Scheme|..];
    }
  }
}
