/** Credential extraction for the auth endpoints. */
module AuthParsers {
  import opened Wrappers
  import JsText

  const BearerPrefix: string := "Bearer "

  /** `parseBearerToken`: `None` for a missing or empty header; otherwise
      the header with one leading `Bearer ` removed, or the header itself
      when it has no such prefix. */
  function ParseBearerToken(header: Option<string>): (r: Option<string>)
    ensures r.None? <==> header.None? || header.value == ""
    ensures r.Some? && JsText.StartsWith(header.value, BearerPrefix) ==> BearerPrefix + r.value == header.value
    ensures r.Some? && !JsText.StartsWith(header.value, BearerPrefix) ==> r.value == header.value
  {
    if header.None? || header.value == "" then None
    else if JsText.StartsWith(header.value, BearerPrefix) then Some(header.value[|BearerPrefix|..])
    else Some(header.value)
  }

  /** A token sent with the prefix comes back unchanged, including a token
      that itself starts with the prefix (only one is removed); a bare token
      is accepted as it is. */
  lemma BearerRoundTrip(token: string)
    ensures ParseBearerToken(Some(BearerPrefix + token)) == Some(token)
    ensures token != "" && !JsText.StartsWith(token, BearerPrefix) ==> ParseBearerToken(Some(token)) == Some(token)
  {
    var header := BearerPrefix + token;
    assert header[..|BearerPrefix|] == BearerPrefix;
    assert header[|BearerPrefix|..] == token;
  }

  /** `parseOAuthCode`: the query's `code` when it is a string, else the
      body's, else `None`. An empty string is still a code. */
  function ParseOAuthCode(queryCode: Option<string>, bodyCode: Option<string>): (r: Option<string>)
    ensures r.Some? <==> queryCode.Some? || bodyCode.Some?
    ensures queryCode.Some? ==> r == queryCode
    ensures queryCode.None? ==> r == bodyCode
  {
    if queryCode.Some? then queryCode else if bodyCode.Some? then bodyCode else None
  }
}
