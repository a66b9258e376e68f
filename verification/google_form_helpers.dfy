/** Request-body defaulting for the export endpoint, and the classifier that
    decides whether a failed Google call is worth reporting as a transient
    network problem. */
module GoogleFormHelpers {
  import opened Wrappers
  import opened JsonValue
  import opened GoogleFormSchema
  import JsText

  /** The alternatives of the transient-error pattern, matched ignoring case. */
  const TransientPatterns: seq<string> := ["EAI_AGAIN", "ENOTFOUND", "ECONNRESET", "ETIMEDOUT", "socket hang up"]

  /** `body ?? {}`: a missing or null body is read as the empty object. */
  function DefaultBody(body: Option<Json>): (j: Json)
    ensures body.None? || body == Some(JNull) ==> j == JObj(map[])
    ensures body.Some? && body != Some(JNull) ==> j == body.value
  {
    if body.None? || body == Some(JNull) then JObj(map[]) else body.value
  }

  /** `parseCreateGoogleFormBody`: the decoded body, or `None` where the
      schema throws; a missing or null body is rejected like an empty one. */
  function ParseCreateGoogleFormBody(body: Option<Json>): (r: Option<ExportBody>)
    ensures r.Some? <==> body.Some? && ValidBody(body.value)
    ensures r.Some? ==> r == DecodeBody(body.value)
  {
    DecodeBody(DefaultBody(body))
  }

  /** `isTransientNetworkError`: some alternative of the pattern occurs in
      the message, ignoring ASCII case. */
  function IsTransientNetworkError(message: string): (b: bool)
    ensures b <==> exists k :: 0 <= k < |TransientPatterns|
                     && JsText.ContainsIgnoringCase(message, TransientPatterns[k])
  {
    || JsText.ContainsIgnoringCase(message, TransientPatterns[0])
    || JsText.ContainsIgnoringCase(message, TransientPatterns[1])
    || JsText.ContainsIgnoringCase(message, TransientPatterns[2])
    || JsText.ContainsIgnoringCase(message, TransientPatterns[3])
    || JsText.ContainsIgnoringCase(message, TransientPatterns[4])
  }

  /** The message with every ASCII letter upper-cased. */
  function UpperAll(s: string): (r: string)
    ensures |r| == |s| && forall i :: 0 <= i < |s| ==> r[i] == JsText.UpperAscii(s[i])
  {
    seq(|s|, i requires 0 <= i < |s| => JsText.UpperAscii(s[i]))
  }

  lemma ContainsIgnoresCase(text: string, pat: string)
    ensures JsText.ContainsIgnoringCase(UpperAll(text), pat) == JsText.ContainsIgnoringCase(text, pat)
  {
    var upper := UpperAll(text);
    forall j | 0 <= j < |text| ensures JsText.UpperAscii(upper[j]) == JsText.UpperAscii(text[j]) {
    }
    forall i: nat | i + |pat| <= |text|
      ensures JsText.MatchesAt(upper, pat, i) == JsText.MatchesAt(text, pat, i)
    {
    }
  }

  lemma ContainsInContext(prefix: string, text: string, suffix: string, pat: string)
    requires JsText.ContainsIgnoringCase(text, pat)
    ensures JsText.ContainsIgnoringCase(prefix + text + suffix, pat)
  {
    var whole := prefix + text + suffix;
    var i: nat :| i + |pat| <= |text| && JsText.MatchesAt(text, pat, i);
    forall j | |prefix| <= j < |prefix| + |text| ensures whole[j] == text[j - |prefix|] {
    }
    assert JsText.MatchesAt(whole, pat, |prefix| + i);
  }

  /** The classification does not depend on letter case. */
  lemma TransientIgnoresCase(message: string)
    ensures IsTransientNetworkError(UpperAll(message)) == IsTransientNetworkError(message)
  {
    forall k | 0 <= k < |TransientPatterns| {
      ContainsIgnoresCase(message, TransientPatterns[k]);
    }
  }

  /** A transient message stays transient whatever surrounds it, and the
      empty message is not transient. */
  lemma TransientInContext(prefix: string, message: string, suffix: string)
    ensures IsTransientNetworkError(message) ==> IsTransientNetworkError(prefix + message + suffix)
    ensures !IsTransientNetworkError("")
  {
    if IsTransientNetworkError(message) {
      var k :| 0 <= k < |TransientPatterns| && JsText.ContainsIgnoringCase(message, TransientPatterns[k]);
      ContainsInContext(prefix, message, suffix, TransientPatterns[k]);
    }
  }
}
