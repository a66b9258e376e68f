/** Query and path parameter parsing for the form-retrieval endpoints. A
    parameter is `None` when it is absent or not a single string. */
module FormRetrieveParsers {
  import opened Wrappers
  import JsText

  const MissingFormIdMessage: string := "Missing or invalid formId"
  const MissingUserMessage: string := "Unauthorized: Missing user information"
  const DefaultPage: int := 1
  const DefaultLimit: int := 10
  const MaxLimit: int := 50

  datatype Pagination = Pagination(page: int, limit: int, skip: int)

  /** `parseUserId`: the query's user id, or the empty string. */
  function ParseUserId(userId: Option<string>): (r: string)
    ensures userId.Some? ==> r == userId.value
    ensures userId.None? ==> r == ""
  {
    userId.GetOr("")
  }

  /** `parseInt(text, 10) || fallback`: the parsed number unless it is NaN or zero. */
  function ParsedOr(text: string, fallback: int): (n: int)
    ensures JsText.ParseInt(text).Some? && JsText.ParseInt(text).value != 0 ==> n == JsText.ParseInt(text).value
    ensures JsText.ParseInt(text).None? || JsText.ParseInt(text) == Some(0) ==> n == fallback
  {
    match JsText.ParseInt(text)
    case Some(v) => if v != 0 then v else fallback
    case None => fallback
  }

  function Max(a: int, b: int): int { if a >= b then a else b }

  function Min(a: int, b: int): int { if a <= b then a else b }

  /** The page number of a page parameter: a positive parsed value, else 1. */
  function PageNumber(text: string): (n: int)
    ensures var p := JsText.ParseInt(text);
      n == if p.Some? && p.value >= 1 then p.value else DefaultPage
  {
    Max(ParsedOr(text, DefaultPage), 1)
  }

  /** The limit of a limit parameter: a positive parsed value up to 50, 1
      for a negative one, else 10. */
  function LimitNumber(text: string): (n: int)
    ensures var l := JsText.ParseInt(text);
      n == if l.None? || l.value == 0 then DefaultLimit
           else if l.value < 0 then 1
           else Min(l.value, MaxLimit)
  {
    Min(Max(ParsedOr(text, DefaultLimit), 1), MaxLimit)
  }

  /** `parsePagination`: a page of at least 1, a limit between 1 and 50 and
      the number of documents to skip; a missing parameter reads as its
      default spelled out. */
  function ParsePagination(page: Option<string>, limit: Option<string>): (r: Pagination)
    ensures r.page >= 1 && 1 <= r.limit <= MaxLimit && r.skip == (r.page - 1) * r.limit
    ensures r.page == PageNumber(page.GetOr("1")) && r.limit == LimitNumber(limit.GetOr("10"))
  {
    PageWindow(PageNumber(page.GetOr("1")), LimitNumber(limit.GetOr("10")))
  }

  /** The window of a page: the documents of the earlier pages are skipped. */
  function PageWindow(page: int, limit: int): (r: Pagination)
    ensures r.page == page && r.limit == limit && r.skip == (page - 1) * limit
  {
    Pagination(page, limit, (page - 1) * limit)
  }

  /** Rendering a valid page and limit in decimal and parsing them back
      gives them unchanged. */
  lemma PaginationRoundTrip(page: int, limit: int)
    requires page >= 1 && 1 <= limit <= MaxLimit
    ensures ParsePagination(Some(JsText.IntToString(page)), Some(JsText.IntToString(limit)))
      == Pagination(page, limit, (page - 1) * limit)
  {
    var pageText := JsText.IntToString(page);
    var limitText := JsText.IntToString(limit);
    assert PageNumber(pageText) == page by { JsText.ParseIntOfIntToString(page); }
    assert LimitNumber(limitText) == limit by { JsText.ParseIntOfIntToString(limit); }
  }

  /** Absent parameters give the first page of ten. */
  lemma PaginationDefaults()
    ensures ParsePagination(None, None) == Pagination(DefaultPage, DefaultLimit, 0)
  {
    DefaultsParse();
    SpelledDefaults("1", "10");
    assert None.GetOr("1") == "1" && None.GetOr("10") == "10";
  }

  lemma SpelledDefaults(pageText: string, limitText: string)
    requires JsText.ParseInt(pageText) == Some(DefaultPage) && JsText.ParseInt(limitText) == Some(DefaultLimit)
    ensures ParsePagination(Some(pageText), Some(limitText)) == Pagination(DefaultPage, DefaultLimit, 0)
  {
  }

  lemma DefaultsParse()
    ensures JsText.ParseInt("1") == Some(DefaultPage) && JsText.ParseInt("10") == Some(DefaultLimit)
  {
    assert JsText.ParseInt("1") == Some(DefaultPage) by {
      JsText.ParseIntOfDigits("1");
      assert JsText.DigitsValue("1") == 1;
    }
    assert JsText.ParseInt("10") == Some(DefaultLimit) by {
      JsText.ParseIntOfDigits("10");
      assert JsText.DigitsValue("10") == 10;
    }
  }

  /** `parseUserIdAndFormId`: both ids, or the error for the first one
      missing, the form id being checked first. */
  function ParseUserIdAndFormId(formId: Option<string>, userId: Option<string>): (r: Result<(string, string), string>)
    ensures r.Success? <==> formId.Some? && formId.value != "" && userId.Some? && userId.value != ""
    ensures r.Success? ==> r.value == (formId.value, userId.value)
    ensures (formId.None? || formId.value == "") ==> r == Failure(MissingFormIdMessage)
    ensures formId.Some? && formId.value != "" && ParseUserId(userId) == "" ==> r == Failure(MissingUserMessage)
  {
    var user := ParseUserId(userId);
    if formId.None? || formId.value == "" then Failure(MissingFormIdMessage)
    else if user == "" then Failure(MissingUserMessage)
    else Success((formId.value, user))
  }
}
