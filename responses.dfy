/** Recognising erroneous responses and turning error responses into one
    message (apiHelper.js: genericCacheCondition, successResponseIsError,
    assistErrorCallback, and the `notFound` flag of fetchAssistData). */
module Responses {
  import opened JsValues

  const UnknownError: string := "Unknown error occurred"

  /** `successResponseIsError`: a response that arrived as a success but
      carries a traceback, a non-zero status or the code 500 or 503. Reading
      a field of `null` throws, so a null response is outside its domain. */
  predicate SuccessResponseIsError(response: JsValue)
    requires response != Null
  {
    response != Undefined &&
      (Get(response, "traceback") != Undefined
       || (Get(response, "status") != Undefined && Get(response, "status") != Num(0))
       || Get(response, "code") == Num(503)
       || Get(response, "code") == Num(500))
  }

  /** `genericCacheCondition`: cache a response whose status is exactly 0. */
  predicate GenericCacheCondition(data: JsValue)
    requires data != Null
  {
    data != Undefined && Get(data, "status") != Undefined && Get(data, "status") == Num(0)
  }

  /** The two things `successResponseIsError` and `genericCacheCondition`
      agree on: a defined non-zero status is an error and is never cached by
      the generic condition, and a response the generic condition accepts is
      an error only through a traceback or a 500/503 code. */
  lemma StatusDecidesBoth(data: JsValue)
    requires data != Null && data != Undefined
    ensures Get(data, "status") != Undefined && Get(data, "status") != Num(0) ==>
              SuccessResponseIsError(data) && !GenericCacheCondition(data)
    ensures GenericCacheCondition(data) ==>
              (SuccessResponseIsError(data) <==>
                 Get(data, "traceback") != Undefined || Get(data, "code") in {Num(500), Num(503)})
  {
  }

  /** The value fetchAssistData stores in `data.notFound`: the JavaScript
      value of `data.status === 0 && data.code === 500 && data.error &&
      (data.error.indexOf('Error 10001') !== -1 ||
       data.error.indexOf('AnalysisException') !== -1)`, where `&&` yields
      its first falsy operand. */
  function NotFoundValue(data: map<string, JsValue>): (v: JsValue)
    ensures Truthy(v) <==>
              && Get(Obj(data), "status") == Num(0)
              && Get(Obj(data), "code") == Num(500)
              && Get(Obj(data), "error").Str?
              && (Contains(Get(Obj(data), "error").s, "Error 10001")
                  || Contains(Get(Obj(data), "error").s, "AnalysisException"))
  {
    var d := Obj(data);
    if Get(d, "status") != Num(0) then Bool(false)
    else if Get(d, "code") != Num(500) then Bool(false)
    else if !Truthy(Get(d, "error")) then Get(d, "error")
    else if Get(d, "error").Str? then
      Bool(Contains(Get(d, "error").s, "Error 10001") || Contains(Get(d, "error").s, "AnalysisException"))
    else Bool(false)
  }

  /** What the failure handler made by `assistErrorCallback` decides: an
      aborted request is ignored, every other failure is reported with one
      message. */
  datatype ErrorReport = Ignored | Reported(message: JsValue)

  /** The `message` field of the JSON in `responseText`, when it parses to a
      value whose `message` is defined; `parseJson` stands for `JSON.parse`
      and gives None where it throws. Reading `.message` of a parsed `null`
      throws, and the source then falls back to the raw text. */
  function ParsedMessage(responseText: JsValue, parseJson: JsValue -> Option<JsValue>): Option<JsValue>
  {
    match parseJson(responseText)
    case None => None
    case Some(js) =>
      if js == Null || js == Undefined || Get(js, "message") == Undefined then None
      else Some(Get(js, "message"))
  }

  /** The message selection of `assistErrorCallback`, branch for branch. */
  function ErrorMessage(errorResponse: JsValue, parseJson: JsValue -> Option<JsValue>): (r: ErrorReport)
    ensures r.Ignored? <==>
              errorResponse != Undefined && errorResponse != Null &&
              Get(errorResponse, "statusText") == Str("abort")
  {
    if errorResponse == Undefined || errorResponse == Null then Reported(Str(UnknownError))
    else if Get(errorResponse, "statusText") == Str("abort") then Ignored
    else if Get(errorResponse, "responseText") != Undefined then
      var responseText := Get(errorResponse, "responseText");
      match ParsedMessage(responseText, parseJson)
      case Some(m) => Reported(m)
      case None => Reported(responseText)
    else if Get(errorResponse, "message") != Undefined && Get(errorResponse, "message") != Null then
      Reported(Get(errorResponse, "message"))
    else if Get(errorResponse, "statusText") != Undefined && Get(errorResponse, "statusText") != Null then
      Reported(Get(errorResponse, "statusText"))
    else if Get(errorResponse, "error") != Str("undefined") && Get(errorResponse, "error").Str? then
      Reported(Get(errorResponse, "error"))
    else if errorResponse.Str? then
      Reported(errorResponse)
    else
      Reported(Str(UnknownError))
  }

  /** The candidates for the message, in order of preference; None marks a
      candidate that is not available for this response. */
  function MessageCandidates(e: JsValue, parseJson: JsValue -> Option<JsValue>): seq<Option<JsValue>>
    requires e != Undefined && e != Null
  {
    var responseText := Get(e, "responseText");
    [ if responseText == Undefined then None else ParsedMessage(responseText, parseJson),
      if responseText == Undefined then None else Some(responseText),
      if Get(e, "message") in {Undefined, Null} then None else Some(Get(e, "message")),
      if Get(e, "statusText") in {Undefined, Null} then None else Some(Get(e, "statusText")),
      if Get(e, "error").Str? && Get(e, "error") != Str("undefined") then Some(Get(e, "error")) else None,
      if e.Str? then Some(e) else None ]
  }

  /** The first available candidate, or `fallback` when none is. */
  function FirstAvailable(candidates: seq<Option<JsValue>>, fallback: JsValue): JsValue
  {
    if |candidates| == 0 then fallback
    else if candidates[0].Some? then candidates[0].value
    else FirstAvailable(candidates[1..], fallback)
  }

  /** Unless the request was aborted, the message is the first available of:
      the parsed JSON `message` of `responseText`, the raw `responseText`,
      `message`, `statusText`, a string `error` (other than the string
      'undefined'), the response itself when it is a string, and finally
      'Unknown error occurred'. */
  lemma ErrorMessageIsFirstAvailable(e: JsValue, parseJson: JsValue -> Option<JsValue>)
    requires e != Undefined && e != Null
    requires Get(e, "statusText") != Str("abort")
    ensures ErrorMessage(e, parseJson) == Reported(FirstAvailable(MessageCandidates(e, parseJson), Str(UnknownError)))
  {
    var c := MessageCandidates(e, parseJson);
    var fallback := Str(UnknownError);
    var tail := FirstAvailable(c[2..], fallback);
    assert FirstAvailable(c[5..], fallback) == if e.Str? then e else fallback by {
      assert c[5..][1..] == [];
    }
    assert c[4..][1..] == c[5..] && c[3..][1..] == c[4..] && c[2..][1..] == c[3..];
    assert c[1..][1..] == c[2..];
    if Get(e, "responseText") != Undefined {
      var responseText := Get(e, "responseText");
      assert FirstAvailable(c[1..], fallback) == responseText;
      match ParsedMessage(responseText, parseJson)
      case Some(m) => assert FirstAvailable(c, fallback) == m;
      case None => assert FirstAvailable(c, fallback) == responseText;
    } else {
      assert FirstAvailable(c, fallback) == tail;
      if Get(e, "message") != Undefined && Get(e, "message") != Null {
        assert tail == Get(e, "message");
      } else if Get(e, "statusText") != Undefined && Get(e, "statusText") != Null {
        assert tail == FirstAvailable(c[3..], fallback) == Get(e, "statusText");
      } else {
        assert c[2] == None && c[3] == None;
        assert tail == FirstAvailable(c[3..], fallback) == FirstAvailable(c[4..], fallback);
      }
    }
  }

  /** The observable effects of the failure handler returned by
      `assistErrorCallback(options)`: what `options.errorCallback` receives,
      what is surfaced to the page (logged and triggered as an `error`
      event), and what the handler returns. */
  datatype ErrorEffects = ErrorEffects(callbackArg: Option<JsValue>, surfaced: Option<JsValue>, returned: JsValue)

  function AssistErrorCallback(errorResponse: JsValue, parseJson: JsValue -> Option<JsValue>,
                               hasErrorCallback: bool, silenceErrors: bool): (fx: ErrorEffects)
    ensures ErrorMessage(errorResponse, parseJson).Ignored? ==>
              fx == ErrorEffects(None, None, Undefined)
    ensures ErrorMessage(errorResponse, parseJson).Reported? ==>
              && fx.returned == ErrorMessage(errorResponse, parseJson).message
              && (fx.callbackArg.Some? <==> hasErrorCallback)
              && (fx.surfaced.Some? <==> !silenceErrors)
              && (hasErrorCallback ==> fx.callbackArg == Some(fx.returned))
              && (!silenceErrors ==> fx.surfaced == Some(fx.returned))
  {
    match ErrorMessage(errorResponse, parseJson)
    case Ignored => ErrorEffects(None, None, Undefined)
    case Reported(m) =>
      ErrorEffects(if hasErrorCallback then Some(m) else None,
                   if silenceErrors then None else Some(m),
                   m)
  }

  /** The rejection `{status: -1}` used for a zero timeout carries no text
      at all, so the caller is told 'Unknown error occurred'. */
  lemma TimeoutRejectionMessage(parseJson: JsValue -> Option<JsValue>)
    ensures ErrorMessage(Obj(map["status" := Num(-1)]), parseJson) == Reported(Str(UnknownError))
  {
  }
}
