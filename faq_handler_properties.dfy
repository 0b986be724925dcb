/** Properties of the FAQ handler model: how the classifier reply is
    unwrapped, the fallback chain of the catalog lookup, the handoff
    threshold, the category rule, the apology path, and exactly when an
    exception escapes `generate_response`. */
module FaqHandlerProperties {
  import opened Wrappers
  import opened PyText
  import opened PyJson
  import opened FaqHandler

  /** The analysis carries a language the handoff and apology tables know. */
  predicate HasSupportedLanguage(analysis: Json) {
    && analysis.JObject? && "language" in analysis.fields
    && analysis.fields["language"].JString?
    && analysis.fields["language"].s in SupportedLanguages
  }

  // ---------------------------------------------------------------------
  // Unwrapping the classifier reply

  /** The unwrapped reply in plain slice terms, case by case on the trimmed
      reply `t`: a "```json" fence drops 7 leading and 3 trailing characters
      (nothing is left of fewer than 10); what remains, if it starts with
      "```", drops 3 and 3 more; a reply starting with "```" but not
      "```json" drops 3 and 3; any other reply is unchanged. */
  lemma CleanReplyCases(raw: string)
    ensures var t := Strip(raw);
      !StartsWith(t, "```") ==> CleanReply(raw) == t
    ensures var t := Strip(raw);
      StartsWith(t, "```json") && |t| < 10 ==> CleanReply(raw) == ""
    ensures var t := Strip(raw);
      StartsWith(t, "```json") && |t| >= 10 && !StartsWith(t[7..|t| - 3], "```") ==>
        CleanReply(raw) == t[7..|t| - 3]
    ensures var t := Strip(raw);
      StartsWith(t, "```json") && |t| >= 10 && StartsWith(t[7..|t| - 3], "```") ==>
        CleanReply(raw) == if |t| >= 16 then t[10..|t| - 6] else ""
    ensures var t := Strip(raw);
      StartsWith(t, "```") && !StartsWith(t, "```json") ==>
        CleanReply(raw) == if |t| >= 6 then t[3..|t| - 3] else ""
  {
  }

  /** The "```json" rule removes exactly its fence. */
  lemma JsonFenceRemoved(body: string)
    ensures StripJsonFence("```json" + body + "```") == body
  {
  }

  /** The "```" rule removes exactly its fence, whatever the body. */
  lemma PlainFenceCut(body: string)
    ensures StripPlainFence("```" + body + "```") == body
  {
    var fenced := "```" + body + "```";
    assert fenced[..3] == "```";
    DropEnds(fenced, 3, 3);
    assert fenced[3..|fenced| - 3] == body;
  }

  /** The "```json" rule leaves a bare fence alone unless the body starts
      with "json", so the "```" rule then removes it exactly. */
  lemma PlainFenceRemoved(body: string)
    requires !StartsWith(body, "json")
    ensures StripJsonFence("```" + body + "```") == "```" + body + "```"
    ensures StripPlainFence("```" + body + "```") == body
  {
    var fenced := "```" + body + "```";
    if |body| >= 4 {
      assert fenced[3..7] == body[..4];
    } else {
      assert fenced[3 + |body|] == '`';
    }
    assert !StartsWith(fenced, "```json");
    PlainFenceCut(body);
  }

  /** A fenced reply, "```json" + ... + "```", with any whitespace around
      the fence, reaches the decoder as exactly its body. */
  lemma JsonFenceRoundTrip(ws1: string, body: string, ws2: string)
    requires AllSpace(ws1) && AllSpace(ws2)
    requires !StartsWith(body, "```")
    ensures CleanReply(ws1 + "```json" + body + "```" + ws2) == body
  {
    var fenced := "```json" + body + "```";
    assert ws1 + "```json" + body + "```" + ws2 == ws1 + fenced + ws2;
    StripSurrounded(ws1, fenced, ws2);
    JsonFenceRemoved(body);
  }

  /** A body in a bare "```" fence reaches the decoder exactly, unless it
      starts with "json" (then the "```json" rule applies). */
  lemma PlainFenceRoundTrip(ws1: string, body: string, ws2: string)
    requires AllSpace(ws1) && AllSpace(ws2)
    requires !StartsWith(body, "json")
    ensures CleanReply(ws1 + "```" + body + "```" + ws2) == body
  {
    var fenced := "```" + body + "```";
    assert ws1 + "```" + body + "```" + ws2 == ws1 + fenced + ws2;
    StripSurrounded(ws1, fenced, ws2);
    PlainFenceRemoved(body);
  }

  /** The two fence rules are independent `if`s, not `if`/`elif`: a reply
      fenced twice, "```json" outside and "```" inside, loses both fences. */
  lemma NestedFencesBothStripped(ws1: string, body: string, ws2: string)
    requires AllSpace(ws1) && AllSpace(ws2)
    ensures CleanReply(ws1 + "```json```" + body + "``````" + ws2) == body
  {
    var inner := "```" + body + "```";
    var fenced := "```json" + inner + "```";
    assert "```json```" + body + "``````" == fenced;
    assert ws1 + "```json```" + body + "``````" + ws2 == ws1 + fenced + ws2;
    StripSurrounded(ws1, fenced, ws2);
    JsonFenceRemoved(inner);
    PlainFenceCut(body);
  }

  /** A classifier reply that, once trimmed, starts with "```json" but has
      fewer than 10 characters leaves nothing for the decoder;
      `json.loads("")` raises, so the default analysis is used. */
  lemma BareFenceFallsBackToDefault(model: Model, loads: Loads, userMessage: string)
    requires model(AnalysisPrompt(userMessage)).Some?
    requires var t := Strip(model(AnalysisPrompt(userMessage)).value);
      StartsWith(t, "```json") && |t| < 10
    requires loads("").None?
    ensures AnalyzeMessage(model, loads, userMessage) == DefaultAnalysis(userMessage)
  {
    CleanReplyCases(model(AnalysisPrompt(userMessage)).value);
  }

  // ---------------------------------------------------------------------
  // Catalog lookup

  /** The fallback chain of the lookup, all three links: a non-empty catalog
      entry wins; otherwise the greeting for the language; otherwise the
      English greeting. Whatever is chosen is non-empty, and the lookup only
      raises for an unhashable query type or language. */
  lemma LookupFallbackChain(catalog: Catalog, queryType: string, language: string)
    ensures BaseResponse(catalog, JString(queryType), JString(language)).Ok?
    ensures var text := BaseResponse(catalog, JString(queryType), JString(language)).value;
      && |text| > 0
      && text == if queryType in catalog && language in catalog[queryType] && catalog[queryType][language] != "" then
                   catalog[queryType][language]
                 else if language in SupportedLanguages then
                   OtherResponses[language]
                 else
                   OtherResponses["en"]
  {
  }

  // ---------------------------------------------------------------------
  // generate_response

  /** At or above the threshold the reply is the handoff message for the
      analysed language, tagged `handoff`, whatever the query type and the
      catalog; an analysis without a supported language raises instead. */
  lemma HandoffAtThreshold(catalog: Catalog, model: Model, analysis: Json, messageCount: int)
    requires messageCount >= HandoffThreshold
    ensures var r := RespondTo(catalog, model, analysis, messageCount);
      if HasSupportedLanguage(analysis) then
        r == Returned(HandoffMessages[analysis.fields["language"].s], Handoff)
      else
        r.Raised?
  {
  }

  /** At or above the threshold neither the catalog nor the rewriter is
      consulted: two handlers whose model answers the classification prompt
      alike reply alike, whatever their catalogs and their rewrites. */
  lemma HandoffIgnoresCatalogAndRewriter(catalog1: Catalog, catalog2: Catalog, model1: Model, model2: Model,
                                         loads: Loads, userMessage: string, messageCount: int)
    requires messageCount >= HandoffThreshold
    requires model1(AnalysisPrompt(userMessage)) == model2(AnalysisPrompt(userMessage))
    ensures GenerateResponse(catalog1, model1, loads, userMessage, messageCount)
         == GenerateResponse(catalog2, model2, loads, userMessage, messageCount)
  {
  }

  /** Below the threshold, when the analysis has a hashable query type and
      language, the reply is the rephrased catalog answer, tagged `other`
      exactly when the query type is "other" and `faq` otherwise, including
      query types the catalog does not know. */
  lemma CategoryBelowThreshold(catalog: Catalog, model: Model, analysis: Json, messageCount: int)
    requires messageCount < HandoffThreshold
    requires analysis.JObject? && "query_type" in analysis.fields && "language" in analysis.fields
    requires Hashable(analysis.fields["query_type"]) && Hashable(analysis.fields["language"])
    ensures var queryType, language := analysis.fields["query_type"], analysis.fields["language"];
      RespondTo(catalog, model, analysis, messageCount)
        == Returned(FormatResponseWithPersonality(model, BaseResponse(catalog, queryType, language).value, language),
                    if queryType == JString("other") then Other else Faq)
  {
  }

  /** A query type the catalog lacks still gets tagged `faq` (unless it is
      "other"), and its answer is the rephrased greeting for the language. */
  lemma UnknownQueryTypeTaggedFaq(catalog: Catalog, model: Model, analysis: Json, messageCount: int,
                                  queryType: string, language: string)
    requires messageCount < HandoffThreshold
    requires queryType !in catalog && queryType != "other" && language in SupportedLanguages
    requires analysis.JObject?
    requires "query_type" in analysis.fields && analysis.fields["query_type"] == JString(queryType)
    requires "language" in analysis.fields && analysis.fields["language"] == JString(language)
    ensures RespondTo(catalog, model, analysis, messageCount)
         == Returned(FormatResponseWithPersonality(model, OtherResponses[language], JString(language)), Faq)
  {
    CategoryBelowThreshold(catalog, model, analysis, messageCount);
    LookupFallbackChain(catalog, queryType, language);
  }

  /** Below the threshold, when reading the analysis or looking up the
      answer raises, the reply is the apology for the analysed language,
      tagged `error`; without a supported language the apology itself
      raises. */
  lemma ApologyWhenLookupRaises(catalog: Catalog, model: Model, analysis: Json, messageCount: int)
    requires messageCount < HandoffThreshold
    requires AnswerFromCatalog(catalog, model, analysis).Err?
    ensures var r := RespondTo(catalog, model, analysis, messageCount);
      if HasSupportedLanguage(analysis) then
        r == Returned(ErrorMessages[analysis.fields["language"].s], Error)
      else
        r.Raised?
  {
  }

  /** An analysis without a query type, for one, takes the apology path. */
  lemma MissingQueryTypeApologizes(catalog: Catalog, model: Model, analysis: Json, messageCount: int)
    requires messageCount < HandoffThreshold
    requires analysis.JObject? && "query_type" !in analysis.fields && HasSupportedLanguage(analysis)
    ensures RespondTo(catalog, model, analysis, messageCount)
         == Returned(ErrorMessages[analysis.fields["language"].s], Error)
  {
  }

  /** Exactly when an exception escapes `generate_response`: the analysis
      has no supported language, and the handoff or the apology path is
      taken. In particular a supported language means it never raises. */
  lemma RaisesExactly(catalog: Catalog, model: Model, analysis: Json, messageCount: int)
    ensures RespondTo(catalog, model, analysis, messageCount).Raised? <==>
      && !HasSupportedLanguage(analysis)
      && (messageCount >= HandoffThreshold || AnswerFromCatalog(catalog, model, analysis).Err?)
  {
  }

  /** When the model fails, every message is answered: the analysis is the
      default one (English, "other"), and the reply is the English handoff
      message or the non-empty catalog answer (or greeting) for ("other",
      "en"), unchanged by the failed rewrite. */
  lemma FailingModelStillAnswers(catalog: Catalog, model: Model, loads: Loads, userMessage: string, messageCount: int)
    requires model(AnalysisPrompt(userMessage)).None?
    requires model(PersonalityPrompt(BaseResponse(catalog, JString("other"), JString("en")).value)).None?
    ensures var r := GenerateResponse(catalog, model, loads, userMessage, messageCount);
      && r.Returned? && |r.text| > 0
      && r.category == (if messageCount >= HandoffThreshold then Handoff else Other)
      && (messageCount >= HandoffThreshold ==> r.text == HandoffMessages["en"])
      && (messageCount < HandoffThreshold ==> r.text == BaseResponse(catalog, JString("other"), JString("en")).value)
  {
  }

  /** Only a rewrite can produce an empty reply: the handoff and apology
      texts are never empty, nor is a rewrite that failed. */
  lemma EmptyReplyOnlyFromRewrite(catalog: Catalog, model: Model, analysis: Json, messageCount: int)
    ensures var r := RespondTo(catalog, model, analysis, messageCount);
      r.Returned? && r.text == [] ==>
        && messageCount < HandoffThreshold && r.category != Error
        && var base := BaseResponse(catalog, analysis.fields["query_type"], analysis.fields["language"]).value;
           model(PersonalityPrompt(base)).Some? && AllSpace(model(PersonalityPrompt(base)).value)
  {
  }

  /** ... and it does: a rewrite made only of whitespace is trimmed to an
      empty reply, which is returned as it is. */
  lemma BlankRewriteEmptiesReply(catalog: Catalog, model: Model, analysis: Json, messageCount: int)
    requires messageCount < HandoffThreshold
    requires analysis.JObject? && "query_type" in analysis.fields && "language" in analysis.fields
    requires Hashable(analysis.fields["query_type"]) && Hashable(analysis.fields["language"])
    requires var base := BaseResponse(catalog, analysis.fields["query_type"], analysis.fields["language"]).value;
      model(PersonalityPrompt(base)).Some? && AllSpace(model(PersonalityPrompt(base)).value)
    ensures var r := RespondTo(catalog, model, analysis, messageCount);
      r.Returned? && r.text == [] && r.category != Error
  {
  }
}
