/**
 * The request-size guards: each middleware either passes the request on to
 * the view or answers with an error response without calling it.
 * `parse_qsl` is an input: `parse(qs)` is the list of (key, value) pairs, or
 * `None` when it raises ValueError.
 */
module Middleware {
  import opened Wrappers
  import opened Text

  datatype Response =
    | PassThrough                                           // get_response(request)
    | Reject(status: int, body: string, contentType: string)

  const MaxTotalLen := 4096
  const MaxParamLen := 1024
  const MaxParamCount := 100
  const MaxQsLength := 2048
  const MaxBodyBytes := 3 * 1024 * 1024

  const TooLong := Reject(414, "Request URI too long.", "text/plain; charset=utf-8")

  type Pairs = seq<(string, string)>

  /** Some pair's value is longer than the per-value cap. */
  predicate LongValue(params: Pairs)
  {
    exists k :: 0 <= k < |params| && |params[k].1| > MaxParamLen
  }

  /** `QueryStringSizeLimitMiddleware.__call__`; `queryString` is `META.get("QUERY_STRING")`. */
  function QueryStringSizeLimit(queryString: Option<string>, parse: string -> Option<Pairs>): (r: Response)
    ensures r == PassThrough || r == TooLong
  {
    var qs := queryString.GetOr("");
    if qs == "" then PassThrough
    else if |qs| > MaxTotalLen then TooLong
    else
      var params := parse(qs);
      if params.None? then TooLong
      else if |params.value| > MaxParamCount then TooLong
      else if LongValue(params.value) then TooLong
      else PassThrough
  }

  /**
   * A query string passes exactly when it is empty, or when it is at most
   * 4096 characters, parses, and has at most 100 pairs none of whose values
   * exceeds 1024 characters.
   */
  lemma QueryStringSizeLimitPasses(queryString: Option<string>, parse: string -> Option<Pairs>)
    ensures var qs := queryString.GetOr("");
            QueryStringSizeLimit(queryString, parse) == PassThrough <==>
              qs == "" ||
              (|qs| <= 4096 && parse(qs).Some? && |parse(qs).value| <= 100
               && forall k :: 0 <= k < |parse(qs).value| ==> |parse(qs).value[k].1| <= 1024)
  {
  }

  /** Keys are not length-checked: two parses with the same values give the same answer. */
  lemma KeysNotChecked(qs: string, parse: string -> Option<Pairs>, parse': string -> Option<Pairs>)
    requires parse(qs).Some? && parse'(qs).Some? && |parse(qs).value| == |parse'(qs).value|
    requires forall k :: 0 <= k < |parse(qs).value| ==> parse(qs).value[k].1 == parse'(qs).value[k].1
    ensures QueryStringSizeLimit(Some(qs), parse) == QueryStringSizeLimit(Some(qs), parse')
  {
    if LongValue(parse(qs).value) {
      var k :| 0 <= k < |parse(qs).value| && |parse(qs).value[k].1| > MaxParamLen;
      assert |parse'(qs).value[k].1| > MaxParamLen;
    }
    if LongValue(parse'(qs).value) {
      var k :| 0 <= k < |parse'(qs).value| && |parse'(qs).value[k].1| > MaxParamLen;
      assert |parse(qs).value[k].1| > MaxParamLen;
    }
  }

  /** `QueryStringLimitMiddleware.__call__`. */
  function QueryStringLimit(queryString: Option<string>): (r: Response)
    ensures r.Reject? <==> |queryString.GetOr("")| > 2048
    ensures r.Reject? ==> r.status == 400
  {
    if |queryString.GetOr("")| > MaxQsLength then Reject(400, "Query string too long.", "text/html; charset=utf-8")
    else PassThrough
  }

  /** The content length as the middleware reads it: missing or not an integer counts as 0. */
  function ContentLength(header: Option<string>): (n: int)
    ensures header.None? || ParseInt(header.value).None? ==> n == 0
    ensures header.Some? && ParseInt(header.value).Some? ==> n == ParseInt(header.value).value
  {
    if header.None? then 0
    else
      var parsed := ParseInt(header.value);
      if parsed.None? then 0 else parsed.value
  }

  /** `BodySizeLimitMiddleware.__call__`; `header` is `META.get("CONTENT_LENGTH")`. */
  function BodySizeLimit(header: Option<string>): (r: Response)
  {
    if ContentLength(header) > MaxBodyBytes then Reject(413, "Request body too large", "text/plain")
    else PassThrough
  }

  /**
   * A body is refused, with 413, exactly when the header holds an integer
   * above 3 MiB; a missing or malformed header lets the request through.
   */
  lemma BodySizeLimitRejects(header: Option<string>)
    ensures BodySizeLimit(header).Reject? <==>
              header.Some? && ParseInt(header.value).Some? && ParseInt(header.value).value > 3145728
    ensures BodySizeLimit(header).Reject? ==> BodySizeLimit(header).status == 413
    ensures header.None? || ParseInt(header.value).None? ==> BodySizeLimit(header) == PassThrough
  {
  }

  /** The header `str(n)` is refused exactly above 3 MiB. */
  lemma BodySizeLimitOfNumber(n: int)
    ensures BodySizeLimit(Some(IntToString(n))).Reject? <==> n > 3145728
  {
    ParseIntOfString(n);
  }
}
