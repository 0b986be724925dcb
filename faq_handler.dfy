/** The FAQ handler of services/faq_handler.py: it classifies a user message
    with a text-generation model, looks up a canned answer in the FAQ
    catalog, has the model rephrase it, and turns the whole into a reply
    text and a category tag.

    The model and `json.loads` are parameters: the model is an oracle that
    answers a prompt with text or fails, and the decoder is a partial
    function from text to a JSON value. Python exceptions that escape
    `generate_response` are part of the result (`Raised`). */
module FaqHandler {
  import opened Wrappers
  import opened PyText
  import opened PyJson

  /** `faq_data`: query type -> language -> canned answer, read once from the
      FAQ file and never changed afterwards. */
  type Catalog = map<string, map<string, string>>

  /** What a prompt is built from; the template text around it is fixed. */
  datatype Prompt =
    | AnalysisPrompt(userMessage: string)
    | PersonalityPrompt(baseResponse: string)

  /** `model.generate_content(prompt).text`: `None` when the call or reading
      its text raises. */
  type Model = Prompt -> Option<string>

  /** `json.loads`: `None` when it raises. */
  type Loads = string -> Option<Json>

  /** The tag returned beside the reply text; `Tag` is the string the source
      returns, one per category. */
  datatype Category = Faq | Other | Handoff | Error {
    function Tag(): (t: string)
      ensures t in {"faq", "other", "handoff", "error"}
      ensures t == "faq" <==> this == Faq
      ensures t == "other" <==> this == Other
      ensures t == "handoff" <==> this == Handoff
    {
      match this
      case Faq => "faq"
      case Other => "other"
      case Handoff => "handoff"
      case Error => "error"
    }
  }

  /** The outcome of `generate_response`: a `(text, tag)` pair, or an
      exception that propagates to the caller. */
  datatype Reply = Returned(text: string, category: Category) | Raised(error: PyError)

  /** The languages the handoff and apology tables know. */
  const SupportedLanguages: set<string> := {"en", "th", "ja", "zh"}

  /** Greetings used when the catalog has no usable answer. */
  const OtherResponses: map<string, string> := map[
    "en" := "Hello! How can I help you today?",
    "th" := "สวัสดีค่ะ มีอะไรให้ช่วยไหมคะ?",
    "ja" := "いらっしゃいませ。ご用件は何でしょうか？",
    "zh" := "您好！请问有什么可以帮您？"
  ]

  /** Replies once the conversation has reached the handoff threshold. */
  const HandoffMessages: map<string, string> := map[
    "en" := "I'd love to help you more! Let me have our staff contact you directly with more detailed information.",
    "th" := "ยินดีให้ข้อมูลเพิ่มเติมค่ะ ขออนุญาตให้พนักงานของเราติดต่อกลับนะคะ",
    "ja" := "より詳しい情報をご提供させていただきたく、スタッフから直接ご連絡させていただきます。",
    "zh" := "很乐意为您提供更多帮助！让我们的工作人员直接联系您，提供更详细的信息。"
  ]

  /** Apologies when looking up or rephrasing the answer raised. */
  const ErrorMessages: map<string, string> := map[
    "en" := "I apologize, but I'm having trouble right now. Please try again!",
    "th" := "ขออภัยค่ะ ระบบขัดข้องชั่วคราว กรุณาลองใหม่อีกครั้งนะคะ",
    "ja" := "申し訳ございませんが、一時的なエラーが発生しました。もう一度お試しください。",
    "zh" := "抱歉，系统暂时出现问题。请稍后再试！"
  ]

  /** Number of earlier messages from which the handler hands off to staff. */
  const HandoffThreshold: int := 3

  // ---------------------------------------------------------------------
  // _analyze_message

  /** A leading "```json" fence cut off: `t[7:-3]`. */
  function StripJsonFence(t: string): (u: string)
    ensures |u| <= |t|
    ensures !StartsWith(t, "```json") ==> u == t
  {
    if StartsWith(t, "```json") then PySlice(t, 7, -3) else t
  }

  /** A leading "```" fence cut off: `u[3:-3]`. */
  function StripPlainFence(u: string): (v: string)
    ensures |v| <= |u|
    ensures !StartsWith(u, "```") ==> v == u
  {
    if StartsWith(u, "```") then PySlice(u, 3, -3) else u
  }

  /** The classifier reply as handed to `json.loads`: trimmed, then a
      "```json" fence cut off, then, by a second independent `if`, a "```"
      fence cut off. */
  function CleanReply(raw: string): (r: string)
    ensures |r| <= |Strip(raw)|
    ensures !StartsWith(Strip(raw), "```") ==> r == Strip(raw)
  {
    StripPlainFence(StripJsonFence(Strip(raw)))
  }

  /** The analysis used whenever classification fails. */
  function DefaultAnalysis(userMessage: string): (a: Json)
    ensures a.JObject? && a.fields.Keys == {"language", "query_type", "original_message"}
    ensures a.fields["language"] == JString("en") && a.fields["query_type"] == JString("other")
    ensures a.fields["original_message"] == JString(userMessage)
  {
    JObject(map[
      "language" := JString("en"),
      "query_type" := JString("other"),
      "original_message" := JString(userMessage)
    ])
  }

  /** `_analyze_message`: the decoded classifier reply, or the default
      analysis when the model call or the decoding fails. */
  function AnalyzeMessage(model: Model, loads: Loads, userMessage: string): (a: Json)
    ensures model(AnalysisPrompt(userMessage)).None? ==> a == DefaultAnalysis(userMessage)
    ensures model(AnalysisPrompt(userMessage)).Some? ==>
      var parsed := loads(CleanReply(model(AnalysisPrompt(userMessage)).value));
      a == if parsed.Some? then parsed.value else DefaultAnalysis(userMessage)
  {
    match model(AnalysisPrompt(userMessage))
    case None => DefaultAnalysis(userMessage)
    case Some(raw) =>
      match loads(CleanReply(raw))
      case None => DefaultAnalysis(userMessage)
      case Some(analysis) => analysis
  }

  // ---------------------------------------------------------------------
  // _format_response_with_personality

  /** `_format_response_with_personality`: the model's rephrasing, trimmed,
      or `baseResponse` itself when the model fails. The prompt does not
      include `language`, so the result does not depend on it. */
  function FormatResponseWithPersonality(model: Model, baseResponse: string, language: Json): (r: string)
    ensures model(PersonalityPrompt(baseResponse)).None? ==> r == baseResponse
    ensures model(PersonalityPrompt(baseResponse)).Some? ==>
      r == Strip(model(PersonalityPrompt(baseResponse)).value)
  {
    match model(PersonalityPrompt(baseResponse))
    case None => baseResponse
    case Some(text) => Strip(text)
  }

  // ---------------------------------------------------------------------
  // _get_response

  /** The catalog holds a non-empty answer for this query type and language. */
  predicate CatalogHas(catalog: Catalog, queryType: Json, language: Json) {
    && queryType.JString? && language.JString?
    && queryType.s in catalog && language.s in catalog[queryType.s]
    && catalog[queryType.s][language.s] != ""
  }

  /** The answer `_get_response` hands to the rewriter:
      `faq_data.get(query_type, {}).get(language)
         or other_responses.get(language, other_responses["en"])`.
      Python's `or` lets a missing entry and an empty one both fall through.
      The dictionary lookups raise `TypeError` for an unhashable key. */
  function BaseResponse(catalog: Catalog, queryType: Json, language: Json): (r: Result<string, PyError>)
    ensures r.Err? <==> !Hashable(queryType) || !Hashable(language)
    ensures r.Err? ==> r.error == TypeError
    ensures r.Ok? ==> |r.value| > 0
    ensures r.Ok? && CatalogHas(catalog, queryType, language) ==>
      r.value == catalog[queryType.s][language.s]
    ensures r.Ok? && !CatalogHas(catalog, queryType, language) && language.JString? && language.s in SupportedLanguages ==>
      r.value == OtherResponses[language.s]
    ensures r.Ok? && !CatalogHas(catalog, queryType, language) && !(language.JString? && language.s in SupportedLanguages) ==>
      r.value == OtherResponses["en"]
  {
    var section :- Get(catalog, queryType);
    var answers := if section.Some? then section.value else map[];
    var entry :- Get(answers, language);
    var fallback := match Get(OtherResponses, language)
      case Ok(Some(greeting)) => greeting
      case _ => OtherResponses["en"];
    Ok(if entry.Some? && entry.value != "" then entry.value else fallback)
  }

  /** `_get_response`: the catalog answer, rephrased; raises exactly when the
      lookup raises. */
  function GetResponse(catalog: Catalog, model: Model, queryType: Json, language: Json): (r: Result<string, PyError>)
    ensures r.Err? <==> BaseResponse(catalog, queryType, language).Err?
    ensures r.Ok? ==> r.value == FormatResponseWithPersonality(model, BaseResponse(catalog, queryType, language).value, language)
  {
    var base :- BaseResponse(catalog, queryType, language);
    Ok(FormatResponseWithPersonality(model, base, language))
  }

  // ---------------------------------------------------------------------
  // generate_response

  /** The body of the `try` in `generate_response`: read the query type and
      the language from the analysis, get the rephrased answer, and tag it
      `other` when the query type is the string "other", `faq` otherwise. */
  function AnswerFromCatalog(catalog: Catalog, model: Model, analysis: Json): (r: Result<(string, Category), PyError>)
    ensures r.Ok? ==> r.value.1 == (if Subscript(analysis, "query_type") == Ok(JString("other")) then Other else Faq)
    ensures r.Ok? <==>
      && analysis.JObject? && "query_type" in analysis.fields && "language" in analysis.fields
      && Hashable(analysis.fields["query_type"]) && Hashable(analysis.fields["language"])
  {
    var queryType :- Subscript(analysis, "query_type");
    var language :- Subscript(analysis, "language");
    var response :- GetResponse(catalog, model, queryType, language);
    Ok((response, if queryType != JString("other") then Faq else Other))
  }

  /** `table[analysis["language"]]`, tagged with `category`; raises when the
      analysis has no language or one the table lacks. */
  function Localized(table: map<string, string>, analysis: Json, category: Category): (r: Reply)
    ensures r.Returned? <==> Subscript(analysis, "language").Ok? && Index(table, Subscript(analysis, "language").value).Ok?
    ensures r.Returned? ==> r.category == category && r.text in table.Values
  {
    match Subscript(analysis, "language")
    case Err(e) => Raised(e)
    case Ok(language) =>
      match Index(table, language)
      case Err(e) => Raised(e)
      case Ok(text) => Returned(text, category)
  }

  /** `generate_response` once the message is analysed: the handoff
      threshold, then the `try` with its apology. */
  function RespondTo(catalog: Catalog, model: Model, analysis: Json, messageCount: int): (r: Reply)
    ensures r.Returned? ==> (r.category == Handoff <==> messageCount >= HandoffThreshold)
    ensures r.Returned? && r.category == Error ==> r.text in ErrorMessages.Values
  {
    if messageCount >= HandoffThreshold then
      Localized(HandoffMessages, analysis, Handoff)
    else
      match AnswerFromCatalog(catalog, model, analysis)
      case Ok((response, category)) => Returned(response, category)
      case Err(_) => Localized(ErrorMessages, analysis, Error)
  }

  /** `generate_response(user_message, message_count)`: the response to the
      classifier's analysis of the message; only the classification
      prompt reaches the model before the threshold is tested. */
  function GenerateResponse(catalog: Catalog, model: Model, loads: Loads, userMessage: string, messageCount: int): (r: Reply)
    ensures r.Returned? ==> (r.category == Handoff <==> messageCount >= HandoffThreshold)
    ensures messageCount >= HandoffThreshold ==>
      r == Localized(HandoffMessages, AnalyzeMessage(model, loads, userMessage), Handoff)
  {
    RespondTo(catalog, model, AnalyzeMessage(model, loads, userMessage), messageCount)
  }
}
