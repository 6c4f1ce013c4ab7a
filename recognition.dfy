/** The receipt-recognition service: the language-model reply is classified
    into a parsed record or one of a fixed set of failure records, the Qianji
    keys are added to a parsed record when Qianji mode is on, and the caller
    normalises every failure to `{success: False, error}`.
    The HTTP exchange is an `AiReply` value and `json.loads` a parameter
    `loads`, a partial function returning `None` where Python raises
    `JSONDecodeError`. */
module Recognition {
  import opened Wrappers
  import opened PyValue
  import opened PyString
  import Qianji

  const ConfigError := "API请求失败，请检查API配置"
  const ServiceError := "API请求失败，服务返回错误"
  const FormatError := "API请求失败，返回格式不正确"
  const ParseError := "API请求失败，响应解析错误"
  const Unavailable := "API请求失败，服务不可用"
  const DefaultError := "图片识别失败"

  /** `{"success": False, "error": error}` */
  function Failure(error: Value): (d: Dict)
    ensures d.Keys == {"success", "error"} && d["success"] == Bool(false) && d["error"] == error
  {
    map["success" := Bool(false), "error" := error]
  }

  /** What `await response.json()` yielded: `Unreadable` when it raised;
      otherwise whether the body has an `"error"` member and the text at
      `choices[0].message.content`, `None` when that lookup fails or is not
      a string (the raised error is caught by the outer handler). */
  datatype AiBody = Unreadable | Body(hasError: bool, content: Option<string>)

  /** The chat-completion exchange: `Unreachable` when the POST itself raised. */
  datatype AiReply = Unreachable | Replied(status: int, body: AiBody)

  /** `reply.startswith("{") and reply.endswith("}")` */
  predicate WholeObject(reply: string) {
    |reply| > 0 && reply[0] == '{' && reply[|reply| - 1] == '}'
  }

  /** The JSON text cut out of a trimmed reply: the whole reply when it is
      brace-delimited, otherwise `reply[first "{" : last "}" + 1]`; `None`
      when there is no `{`. The `end_idx != -1` test of the source can never
      fail, since `end_idx` is `rfind(...) + 1 >= 0`. */
  function Candidate(reply: string): (c: Option<string>)
    ensures c.None? <==> '{' !in reply
    ensures c.Some? && c.value != "" ==> c.value[0] == '{' && c.value[|c.value| - 1] == '}'
    ensures c.Some? ==> (c.value == "" <==> RFind(reply, '}') < Find(reply, '{'))
    ensures '{' in reply ==> c == Some(Slice(reply, Find(reply, '{'), RFind(reply, '}') + 1))
  {
    if WholeObject(reply) then
      // The shortcut takes the same text as the slice would.
      assert Find(reply, '{') == 0;
      assert RFind(reply, '}') == |reply| - 1;
      assert reply[0..|reply|] == reply;
      Some(reply)
    else
      var startIdx := Find(reply, '{');
      var endIdx := RFind(reply, '}') + 1;
      if startIdx != -1 && endIdx != -1 then Some(Slice(reply, startIdx, endIdx))
      else None
  }

  /** `json.loads`, which rejects the empty string whatever else it does. */
  function JsonLoads(loads: string -> Option<Dict>, text: string): (r: Option<Dict>)
    ensures text == "" ==> r.None?
    ensures text != "" ==> r == loads(text)
  {
    if text == "" then None else loads(text)
  }

  datatype Classified = Parsed(record: Dict) | Failed(error: string)

  /** The reply classified, checks in source order: the request raised or
      the body is unusable (service unavailable), a status other than 200,
      an `"error"` member, no `{` in the trimmed content, text that does not
      parse. */
  function Classify(reply: AiReply, loads: string -> Option<Dict>): (o: Classified)
    ensures reply.Unreachable? ==> o == Failed(Unavailable)
    ensures reply.Replied? && reply.status != 200 ==> o == Failed(ConfigError)
    ensures reply.Replied? && reply.status == 200 && reply.body.Unreadable? ==> o == Failed(Unavailable)
    ensures reply.Replied? && reply.status == 200 && reply.body.Body? && reply.body.hasError ==> o == Failed(ServiceError)
    ensures reply == Replied(200, Body(false, None)) ==> o == Failed(Unavailable)
    ensures reply.Replied? && reply.status == 200 && reply.body.Body? && !reply.body.hasError && reply.body.content.Some? ==>
              var text := Strip(reply.body.content.value);
              && ('{' !in text ==> o == Failed(FormatError))
              && ('{' in text ==>
                    var parsed := JsonLoads(loads, Slice(text, Find(text, '{'), RFind(text, '}') + 1));
                    && (o.Parsed? <==> parsed.Some?)
                    && (o.Parsed? ==> o.record == parsed.value)
                    && (o.Failed? ==> o.error == ParseError))
    ensures o.Failed? ==> o.error in {ConfigError, ServiceError, FormatError, ParseError, Unavailable}
  {
    match reply
    case Unreachable => Failed(Unavailable)
    case Replied(status, body) =>
      if status != 200 then Failed(ConfigError)
      else match body
        case Unreadable => Failed(Unavailable)
        case Body(hasError, content) =>
          if hasError then Failed(ServiceError)
          else match content
            case None => Failed(Unavailable)
            case Some(text) =>
              match Candidate(Strip(text))
              case None => Failed(FormatError)
              case Some(candidate) =>
                match JsonLoads(loads, candidate)
                case None => Failed(ParseError)
                case Some(d) => Parsed(d)
  }

  /** A usable reply whose trimmed content has no `{` is a format error. */
  lemma NoBraceIsFormatError(text: string, loads: string -> Option<Dict>)
    requires '{' !in Strip(text)
    ensures Classify(Replied(200, Body(false, Some(text))), loads) == Failed(FormatError)
  {
  }

  /** A `{` without any `}` yields the empty slice, which never parses. */
  lemma OpenBraceOnlyIsParseError(text: string, loads: string -> Option<Dict>)
    requires '{' in Strip(text) && '}' !in Strip(text)
    ensures Classify(Replied(200, Body(false, Some(text))), loads) == Failed(ParseError)
  {
    assert Candidate(Strip(text)) == Some("");
  }

  /** A brace-delimited reply that parses is the parsed record. */
  lemma WholeObjectParses(text: string, loads: string -> Option<Dict>)
    requires WholeObject(Strip(text)) && loads(Strip(text)).Some?
    ensures Classify(Replied(200, Body(false, Some(text))), loads) == Parsed(loads(Strip(text)).value)
  {
  }

  /** The link as the source builds it: from the record renamed by
      `format_transaction_data`. It is always empty. */
  function QianjiLinkAsWritten(parsed: Dict, cateChoose: bool, quote: string -> string): (url: string)
    ensures url == ""
  {
    Qianji.FormattedRecordYieldsNoLink(parsed, cateChoose, quote);
    Qianji.QianjiUrl(Qianji.FormatTransactionData(parsed, cateChoose), cateChoose, quote)
  }

  /** A record with an amount whose text fields are strings (or falsy). */
  predicate LinkReady(parsed: Dict) {
    && Get(parsed, "amount", Null) != Null
    && forall k :: k in {"transaction_date", "description", "vendor", "category"} && k in parsed ==>
         parsed[k].Str? || !Truthy(parsed[k])
  }

  /** The link built from the parsed record itself, as intended: non-empty
      and carrying the amount whenever the record is link-ready. */
  function QianjiLink(parsed: Dict, cateChoose: bool, quote: string -> string): (url: string)
    ensures LinkReady(parsed) ==> url != "" && Qianji.BaseUrl + "type=0&" <= url
  {
    if LinkReady(parsed) then
      Qianji.RecognisedRecordYieldsLink(parsed, cateChoose, quote);
      Qianji.QianjiUrl(parsed, cateChoose, quote)
    else
      Qianji.QianjiUrl(parsed, cateChoose, quote)
  }

  const QianjiKeys: set<string> := {"qianji_url", "qianji_enabled", "catechoose"}

  /** In Qianji mode a parsed record gains `qianji_url`, `qianji_enabled =
      True` and `catechoose`, and keeps every other field. */
  function WithQianji(parsed: Dict, cateChoose: bool, quote: string -> string): (r: Dict)
    ensures r.Keys == parsed.Keys + QianjiKeys
    ensures r["qianji_url"] == Str(QianjiLink(parsed, cateChoose, quote))
    ensures r["qianji_enabled"] == Bool(true) && r["catechoose"] == Bool(cateChoose)
    ensures forall k :: k in parsed && k !in QianjiKeys ==> r[k] == parsed[k]
  {
    parsed["qianji_url" := Str(QianjiLink(parsed, cateChoose, quote))]
          ["qianji_enabled" := Bool(true)]["catechoose" := Bool(cateChoose)]
  }

  /** The record `_process_image_with_ai` returns. */
  function Processed(reply: AiReply, loads: string -> Option<Dict>, qianjiEnabled: bool,
                     cateChoose: bool, quote: string -> string): Dict
  {
    match Classify(reply, loads)
    case Failed(error) => Failure(Str(error))
    case Parsed(parsed) =>
      if qianjiEnabled then WithQianji(parsed, cateChoose, quote) else parsed
  }

  /** The dictionary `recognize_text` returns. */
  function Recognised(readFailure: Option<string>, reply: AiReply, loads: string -> Option<Dict>,
                      qianjiEnabled: bool, cateChoose: bool, quote: string -> string): Dict
  {
    if readFailure.Some? then Failure(Str(DefaultError + ": " + readFailure.value))
    else Normalise(Processed(reply, loads, qianjiEnabled, cateChoose, quote))
  }

  /** `_process_image_with_ai`, which adds the Qianji fields to the parsed
      dictionary in place. */
  method ProcessImageWithAi(reply: AiReply, loads: string -> Option<Dict>, qianjiEnabled: bool,
                            cateChoose: bool, quote: string -> string) returns (r: Dict)
    ensures r == Processed(reply, loads, qianjiEnabled, cateChoose, quote)
  {
    var outcome := Classify(reply, loads);
    if outcome.Failed? {
      return Failure(Str(outcome.error));
    }
    var parsedData := outcome.record;
    if qianjiEnabled {
      var qianjiUrl := QianjiLink(parsedData, cateChoose, quote);
      parsedData := parsedData["qianji_url" := Str(qianjiUrl)];
      parsedData := parsedData["qianji_enabled" := Bool(true)];
      parsedData := parsedData["catechoose" := Bool(cateChoose)];
    }
    return parsedData;
  }

  /** `recognize_text`'s treatment of the result: a result whose `success`
      is falsy becomes exactly `{success: False, error}`, the error defaulting
      to "图片识别失败"; anything else passes through. */
  function Normalise(result: Dict): (r: Dict)
    ensures Truthy(Get(result, "success", Bool(true))) ==> r == result
    ensures !Truthy(Get(result, "success", Bool(true))) ==>
              r.Keys == {"success", "error"} && r["success"] == Bool(false)
              && r["error"] == Get(result, "error", Str(DefaultError))
  {
    if !Truthy(Get(result, "success", Bool(true))) then
      Failure(Get(result, "error", Str(DefaultError)))
    else result
  }

  /** Normalising twice is normalising once. */
  lemma NormaliseIdempotent(result: Dict)
    ensures Normalise(Normalise(result)) == Normalise(result)
  {
  }

  /** `recognize_text`: a failure to store or read the image becomes
      "图片识别失败: <exception>"; otherwise the processed reply, normalised. */
  method RecognizeText(readFailure: Option<string>, reply: AiReply, loads: string -> Option<Dict>,
                       qianjiEnabled: bool, cateChoose: bool, quote: string -> string) returns (r: Dict)
    ensures r == Recognised(readFailure, reply, loads, qianjiEnabled, cateChoose, quote)
    ensures readFailure.Some? ==> r == Failure(Str(DefaultError + ": " + readFailure.value))
    ensures readFailure.None? && Classify(reply, loads).Failed? ==>
              r == Failure(Str(Classify(reply, loads).error))
    ensures readFailure.None? && Classify(reply, loads).Parsed? && !qianjiEnabled ==>
              r == Normalise(Classify(reply, loads).record)
    ensures Truthy(Get(r, "success", Bool(true))) || (r.Keys == {"success", "error"} && r["success"] == Bool(false))
  {
    if readFailure.Some? {
      return Failure(Str(DefaultError + ": " + readFailure.value));
    }
    var result := ProcessImageWithAi(reply, loads, qianjiEnabled, cateChoose, quote);
    r := Normalise(result);
  }
}
