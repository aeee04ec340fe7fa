/**
 * The receipt-scanning edge function: a ladder of early returns from the
 * request and the upstream vision model's reply to an HTTP response, and
 * the extraction of the JSON object from the model's text.
 */
module ScanReceipt {
  import opened Types

  /** What `req.json()` and the destructuring of `imageBase64` yield. */
  datatype RequestBody =
    | UnreadableRequest(reason: string)       // not JSON, or JSON `null`
    | Body(imageBase64: Option<string>)

  /** What the upstream reply's `json()` yields. */
  datatype ReplyBody =
    | UnreadableReply(reason: string)         // not JSON or, for an ok reply, no `choices[0].message`
    | Readable(content: string)               // an ok reply's `choices[0].message.content`

  /** The outcome of the call to the upstream chat-completions endpoint. */
  datatype Upstream =
    | Unreachable(reason: string)             // the fetch itself failed
    | Reply(status: nat, body: ReplyBody)

  /** The JSON body of a response, or the plain text of the preflight answer. */
  datatype Payload<J> =
    | PlainText(text: string)
    | ErrorBody(error: string)
    | ParseFailure(error: string, rawText: string)
    | DataBody(data: J)

  datatype Response<J> = Response(status: nat, headers: map<string, string>, body: Payload<J>)

  const CorsHeaders: map<string, string> := map[
    "Access-Control-Allow-Origin" := "*",
    "Access-Control-Allow-Headers" := "authorization, x-client-info, apikey, content-type"]

  const JsonHeaders: map<string, string> := CorsHeaders["Content-Type" := "application/json"]

  /** `Response.ok`. */
  predicate Ok(status: nat)
  {
    200 <= status <= 299
  }

  function Digit(d: nat): (c: char)
    requires d < 10
    ensures '0' <= c <= '9' && c as int - '0' as int == d
  {
    "0123456789"[d]
  }

  predicate AllDigits(s: string)
  {
    forall k :: 0 <= k < |s| ==> '0' <= s[k] <= '9'
  }

  /** A status code in a template string: its decimal digits, without leading zeros. */
  function Decimal(n: nat): (s: string)
    ensures |s| >= 1 && AllDigits(s)
    ensures s[0] == '0' ==> n == 0
  {
    if n < 10 then [Digit(n)] else Decimal(n / 10) + [Digit(n % 10)]
  }

  /** The number a string of decimal digits denotes. */
  function DecimalValue(s: string): nat
    requires AllDigits(s)
  {
    if s == [] then 0
    else DecimalValue(s[..|s| - 1]) * 10 + (s[|s| - 1] as int - '0' as int)
  }

  /** The digits of a status code read back as that status code. */
  lemma {:induction false} DecimalRoundTrip(n: nat)
    ensures DecimalValue(Decimal(n)) == n
  {
    if n >= 10 {
      DecimalRoundTrip(n / 10);
      var s := Decimal(n);
      assert s[..|s| - 1] == Decimal(n / 10);
    }
  }

  /** `text[a..b]` is a match of `/\{[\s\S]*\}/`: it starts with `{` and ends with a later `}`. */
  predicate IsMatch(text: string, a: int, b: int)
  {
    0 <= a && a + 1 < b <= |text| && text[a] == '{' && text[b - 1] == '}'
  }

  /** The index of the first occurrence of `c`, if any. */
  function FirstIndex(text: string, c: char): (r: Option<nat>)
    ensures r.None? <==> c !in text
    ensures r.Some? ==> r.value < |text| && text[r.value] == c
    ensures r.Some? ==> forall k :: 0 <= k < r.value ==> text[k] != c
  {
    if text == [] then None
    else if text[0] == c then Some(0)
    else
      match FirstIndex(text[1..], c)
      case None => None
      case Some(i) => Some(i + 1)
  }

  /** The index of the last occurrence of `c`, if any. */
  function LastIndex(text: string, c: char): (r: Option<nat>)
    ensures r.None? <==> c !in text
    ensures r.Some? ==> r.value < |text| && text[r.value] == c
    ensures r.Some? ==> forall k :: r.value < k < |text| ==> text[k] != c
  {
    if text == [] then None
    else if text[|text| - 1] == c then Some(|text| - 1)
    else LastIndex(text[..|text| - 1], c)
  }

  /**
   * `text.match(/\{[\s\S]*\}/)`: the regular expression's leftmost match,
   * made as long as possible by the greedy `*` — which is the span from
   * the first `{` to the last `}` — or none.
   */
  function JsonSpan(text: string): (r: Option<(nat, nat)>)
    ensures r.None? <==> forall a, b :: !IsMatch(text, a, b)
    ensures r.Some? ==> IsMatch(text, r.value.0, r.value.1)
    ensures r.Some? ==> forall a, b :: IsMatch(text, a, b) ==> r.value.0 < a || (r.value.0 == a && b <= r.value.1)
    ensures r.Some? ==> (forall k :: 0 <= k < r.value.0 ==> text[k] != '{')
                         && (forall k :: r.value.1 <= k < |text| ==> text[k] != '}')
  {
    match (FirstIndex(text, '{'), LastIndex(text, '}'))
    case (Some(a), Some(l)) =>
      if a < l then
        assert IsMatch(text, a, l + 1);
        Some((a, l + 1))
      else None
    case _ => None
  }

  /** The request passed every check before the upstream call. */
  predicate Forwarded(verb: string, apiKey: Option<string>, request: RequestBody)
  {
    verb != "OPTIONS" && Truthy(apiKey) && request.Body? && Truthy(request.imageBase64)
  }

  /** The model's text, when the upstream reply is ok and carries one. */
  function ModelText(upstream: Upstream): Option<string>
  {
    if upstream.Reply? && Ok(upstream.status) && upstream.body.Readable? then Some(upstream.body.content) else None
  }

  /**
   * The answer once the upstream call has been made: its failures, the
   * `{...}` extraction and the parse of the model's text.
   */
  function Relay<J>(upstream: Upstream, parse: string -> Option<J>): (r: Response<J>)
    ensures ModelText(upstream).None? ==> r.status == 500
    ensures upstream.Reply? && !Ok(upstream.status) && upstream.body.Readable? ==>
              r.body == ErrorBody("DashScope API error: " + Decimal(upstream.status))
    ensures r.status == 422 <==>
              ModelText(upstream).Some?
              && var text := ModelText(upstream).value;
                 (JsonSpan(text).None? || parse(text[JsonSpan(text).value.0..JsonSpan(text).value.1]).None?)
    ensures r.status == 422 ==>
              r.body == ParseFailure("Failed to parse receipt data", ModelText(upstream).value)
    ensures r.body.DataBody? <==> ModelText(upstream).Some? && r.status != 422
    ensures r.body.DataBody? ==>
              r.status == 200
              && var text := ModelText(upstream).value;
                 exists a, b :: IsMatch(text, a, b) && parse(text[a..b]) == Some(r.body.data)
    ensures r.status in {200, 422, 500}
    ensures r.headers == JsonHeaders
  {
    match upstream
    case Unreachable(reason) => Response(500, JsonHeaders, ErrorBody(reason))
    case Reply(status, body) =>
      if !Ok(status) then
        match body
        case UnreadableReply(reason) => Response(500, JsonHeaders, ErrorBody(reason))
        case Readable(_) => Response(500, JsonHeaders, ErrorBody("DashScope API error: " + Decimal(status)))
      else
        match body
        case UnreadableReply(reason) => Response(500, JsonHeaders, ErrorBody(reason))
        case Readable(extractedText) =>
          var failure := Response(422, JsonHeaders, ParseFailure("Failed to parse receipt data", extractedText));
          match JsonSpan(extractedText)
          case None => failure
          case Some((a, b)) =>
            match parse(extractedText[a..b])
            case None => failure
            case Some(extractedData) => Response(200, JsonHeaders, DataBody(extractedData))
  }

  /**
   * The function's answer to one request. `apiKey` is the configured
   * `DASHSCOPE_API_KEY`, `upstream` what the chat-completions call returns
   * if it is made, and `parse` is `JSON.parse`.
   */
  function Handle<J>(verb: string, apiKey: Option<string>, request: RequestBody, upstream: Upstream,
                     parse: string -> Option<J>): (r: Response<J>)
    // a preflight is answered before anything else is looked at
    ensures verb == "OPTIONS" ==> r == Response(200, CorsHeaders, PlainText("ok"))
    // a missing key fails before the body is read
    ensures verb != "OPTIONS" && !Truthy(apiKey) ==>
              r == Response(500, JsonHeaders, ErrorBody("DASHSCOPE_API_KEY is not set"))
    ensures verb != "OPTIONS" && Truthy(apiKey) && request.UnreadableRequest? ==>
              r == Response(500, JsonHeaders, ErrorBody(request.reason))
    ensures verb != "OPTIONS" && Truthy(apiKey) && request.Body? && !Truthy(request.imageBase64) ==>
              r == Response(400, JsonHeaders, ErrorBody("No image provided"))
    // every upstream failure is a 500
    ensures Forwarded(verb, apiKey, request) && ModelText(upstream).None? ==> r.status == 500
    ensures Forwarded(verb, apiKey, request) && upstream.Reply? && !Ok(upstream.status)
              && upstream.body.Readable? ==>
              r.body == ErrorBody("DashScope API error: " + Decimal(upstream.status))
    // the model's text either yields data or a 422 carrying that text
    ensures r.status == 422 <==>
              Forwarded(verb, apiKey, request) && ModelText(upstream).Some?
              && var text := ModelText(upstream).value;
                 (JsonSpan(text).None? || parse(text[JsonSpan(text).value.0..JsonSpan(text).value.1]).None?)
    ensures r.status == 422 ==>
              r.body == ParseFailure("Failed to parse receipt data", ModelText(upstream).value)
    ensures r.body.DataBody? <==>
              Forwarded(verb, apiKey, request) && ModelText(upstream).Some? && r.status != 422
    ensures r.body.DataBody? ==>
              r.status == 200
              && var text := ModelText(upstream).value;
                 exists a, b :: IsMatch(text, a, b) && parse(text[a..b]) == Some(r.body.data)
    ensures r.status in {200, 400, 422, 500}
    // every response allows cross-origin use
    ensures forall h :: h in CorsHeaders ==> h in r.headers && r.headers[h] == CorsHeaders[h]
  {
    if verb == "OPTIONS" then Response(200, CorsHeaders, PlainText("ok"))
    else if !Truthy(apiKey) then Response(500, JsonHeaders, ErrorBody("DASHSCOPE_API_KEY is not set"))
    else if request.UnreadableRequest? then Response(500, JsonHeaders, ErrorBody(request.reason))
    else if !Truthy(request.imageBase64) then Response(400, JsonHeaders, ErrorBody("No image provided"))
    else Relay(upstream, parse)
  }
}
