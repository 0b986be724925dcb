# FAQ handler of the LINE / Messenger restaurant bot, in Dafny

The bot relays chat messages to a text-generation model. Its one component
with real logic is `FAQHandler` (services/faq_handler.py), which turns a user
message and the number of earlier messages into a reply text and a category
tag:

1. **Classify** the message (`_analyze_message`): ask the model for a JSON
   object with `language`, `query_type` and `original_message`, trim the
   reply, cut off a "```json" fence and then, in a second independent `if`,
   a "```" fence (Python slices `[7:-3]` and `[3:-3]`), and decode it. If the
   model call or the decoding fails, use the default analysis
   `{language: "en", query_type: "other", original_message: <message>}`.
2. **Hand off** when `message_count >= 3`: return the handoff message for
   the analysed language, tagged `handoff`.
3. **Look up** the canned answer (`_get_response`) in the FAQ catalog
   (query type → language → text). Python's `or` makes a missing entry and an
   empty entry both fall through, first to a built-in greeting for the
   language and then to the English greeting.
4. **Rephrase** it (`_format_response_with_personality`) with the model. If
   the call fails, the answer comes back unchanged; otherwise the model's
   text comes back trimmed.
5. Tag the reply `other` when the query type is `"other"` and `faq`
   otherwise. If step 3 or 4 raises, return the apology for the analysed
   language, tagged `error`.

The model keeps Python's evaluation faithfully:

- The text-generation model is a parameter `Model = Prompt -> Option<string>`.
  A prompt is represented by what it is built from: the user message, or the
  answer to rephrase. `None` stands for a failed call.
- `json.loads` is a parameter `Loads = string -> Option<Json>`. It may return
  any JSON value.
- Dictionary operations raise what Python raises. `d[k]` raises `KeyError`
  for a missing key. `d.get(k)` and `d[k]` raise `TypeError` for an
  unhashable key (a list or a dict), and so does subscripting a non-object
  with a string.
- An exception that escapes `generate_response` is a result,
  `Raised(TypeError | KeyError)`. It is not excluded by a precondition.

Modules:

- `Wrappers`: the `Option` and `Result` types.
- `PyText`: `str.isspace`, `str.strip`, `str.startswith` and slicing with
  negative bounds.
- `PyJson`: JSON values and Python's `d[k]` / `d.get(k)`.
- `FaqHandler`: the four handler methods.
- `FaqHandlerProperties`: the lemmas about the handler.

## Model

| member | source | states |
|---|---|---|
| `PyText.LStrip` | services/faq_handler.py:34 | only whitespace is removed from the front, and the result does not start with whitespace |
| `PyText.RStrip` | services/faq_handler.py:34 | only whitespace is removed from the back, and the result does not end with whitespace |
| `PyText.Strip` | services/faq_handler.py:34 | `strip()` leaves no whitespace at either end; the result is empty exactly when the input is all whitespace |
| `PyText.StripSurrounded` | services/faq_handler.py:34 | `strip()` recovers a text with non-space ends from any whitespace around it |
| `PyText.IsSpaceBoundaries` | services/faq_handler.py:34 | the whitespace `strip()` removes is Python 3's `isspace` set: U+001C, U+00A0, U+202F and U+3000 are in it; NUL, U+200B, U+FEFF and U+180E are not |
| `PyText.StartsWith` | services/faq_handler.py:35-37 | `s.startswith(p)` holds exactly when `p` is no longer than `s` and matches it character for character at the front |
| `PyText.SliceBound` | services/faq_handler.py:36 | Python's slice-bound normalisation: a bound in `0..n` is kept, a negative bound down to `-n` counts from the end, a bound above `n` becomes `n` and one below `-n` becomes 0 |
| `PyText.PySlice` | services/faq_handler.py:36-38 | `s[start:stop]` has `hi - lo` characters when the normalised bounds satisfy `lo < hi` (none otherwise), and its `i`-th character is `s[lo + i]` |
| `PyText.DropEnds` | services/faq_handler.py:36 | `s[a:-b]` is `s` without its first `a` and last `b` characters, and is empty when `s` is shorter than `a + b` |
| `PyJson.Subscript` | services/faq_handler.py:107-108 | `analysis[key]` succeeds exactly on an object that has the key; otherwise it raises `KeyError` (an object) or `TypeError` (anything else) |
| `PyJson.Get` | services/faq_handler.py:82-83 | `d.get(key)` raises `TypeError` exactly for an unhashable key; otherwise it yields the entry when the key is a string in `d`, or `None` |
| `PyJson.Index` | services/faq_handler.py:102 | `d[key]` yields the entry exactly when the key is a string in `d`; otherwise it raises `KeyError` (hashable key) or `TypeError` (unhashable key) |
| `FaqHandler.StripJsonFence` | services/faq_handler.py:35-36 | a reply not starting with "```json" is unchanged, and no reply grows |
| `FaqHandler.StripPlainFence` | services/faq_handler.py:37-38 | a reply not starting with "```" is unchanged, and no reply grows |
| `FaqHandler.CleanReply` | services/faq_handler.py:34-38 | the decoder never sees more than the trimmed reply; a trimmed reply without a leading fence is passed on unchanged |
| `FaqHandlerProperties.CleanReplyCases` | services/faq_handler.py:34-38 | the exact text passed to the decoder, case by case: "```json" drops 7 + 3 characters (empty under 10), then a remaining "```" drops 3 + 3 more (empty under 6); a bare "```" drops 3 + 3; otherwise the trimmed reply |
| `FaqHandlerProperties.JsonFenceRemoved` | services/faq_handler.py:35-36 | the "```json" rule removes exactly its fence |
| `FaqHandlerProperties.PlainFenceCut` | services/faq_handler.py:37-38 | the "```" rule removes exactly its fence, for every body |
| `FaqHandlerProperties.PlainFenceRemoved` | services/faq_handler.py:35-38 | a bare "```" fence whose body does not start with "json" is left alone by the first rule and removed exactly by the second |
| `FaqHandlerProperties.JsonFenceRoundTrip` | services/faq_handler.py:34-38 | a body fenced with "```json" and "```", with any whitespace around, reaches the decoder unchanged, unless the body itself starts with "```" (the second `if` then cuts again) |
| `FaqHandlerProperties.PlainFenceRoundTrip` | services/faq_handler.py:34-38 | a body fenced with "```", with any whitespace around, reaches the decoder unchanged unless it starts with "json" |
| `FaqHandlerProperties.NestedFencesBothStripped` | services/faq_handler.py:34-38 | the second `if` is independent of the first: a "```json" fence around a "```" fence, with any whitespace around, loses both, whatever the body |
| `FaqHandlerProperties.BareFenceFallsBackToDefault` | services/faq_handler.py:34-46 | a reply that, trimmed, starts with "```json" and has fewer than 10 characters leaves "" for the decoder, so (since decoding "" fails) the default analysis is used |
| `FaqHandler.Category.Tag` | services/faq_handler.py:102-120 | each category is returned as one of the strings "faq", "other", "handoff", "error", and each string names one category, so two categories share a tag only when they are the same |
| `FaqHandler.DefaultAnalysis` | services/faq_handler.py:42-46 | the fallback analysis is an object with exactly `language` "en", `query_type` "other" and `original_message` set to the message |
| `FaqHandler.AnalyzeMessage` | services/faq_handler.py:32-46 | a failed model call or a failed decoding gives the default analysis; otherwise the result is whatever the decoder made of the unwrapped reply, with no check of its fields |
| `FaqHandler.FormatResponseWithPersonality` | services/faq_handler.py:64-69 | a failed rewrite returns the base answer unchanged; a successful one returns the generated text trimmed |
| `FaqHandler.BaseResponse` | services/faq_handler.py:74-83 | raises `TypeError` exactly for an unhashable query type or language; otherwise returns a non-empty text chosen in this order: the non-empty catalog entry, the greeting for the language, the English greeting |
| `FaqHandlerProperties.LookupFallbackChain` | services/faq_handler.py:74-83 | for string keys the lookup never raises and returns, in this order, the non-empty catalog entry, the language's greeting, or the English greeting, which is always non-empty |
| `FaqHandler.GetResponse` | services/faq_handler.py:82-86 | raises exactly when the lookup raises; otherwise returns the rewrite of the looked-up answer |
| `FaqHandler.AnswerFromCatalog` | services/faq_handler.py:104-110 | succeeds exactly when the analysis is an object with a hashable `query_type` and `language`; the tag is `other` exactly when the query type is "other", and `faq` otherwise |
| `FaqHandler.Localized` | services/faq_handler.py:96-102 | returns a text of the table, with the given tag, exactly when the analysis has a language the table holds; otherwise raises |
| `FaqHandler.RespondTo` | services/faq_handler.py:94-120 | once the message is analysed, a returned reply is tagged `handoff` exactly when the message count is at least 3, and an `error` reply is one of the apology texts |
| `FaqHandler.GenerateResponse` | services/faq_handler.py:88-120 | a returned reply is tagged `handoff` exactly when the message count is at least 3, and at that count the reply depends only on the analysis, through the handoff table |
| `FaqHandlerProperties.HandoffAtThreshold` | services/faq_handler.py:95-102 | at a count of 3 or more the reply is the handoff message for the analysed language, tagged `handoff`, whatever the query type and catalog; without a supported language it raises |
| `FaqHandlerProperties.HandoffIgnoresCatalogAndRewriter` | services/faq_handler.py:95-102 | at a count of 3 or more neither the catalog nor the rewrite is used: handlers that classify alike reply alike |
| `FaqHandlerProperties.CategoryBelowThreshold` | services/faq_handler.py:104-110 | under the threshold, with a hashable query type and language, the reply is the rewritten lookup result, tagged `other` exactly when the query type is "other" and `faq` otherwise |
| `FaqHandlerProperties.UnknownQueryTypeTaggedFaq` | services/faq_handler.py:82-83 | a query type other than "other" that is missing from the catalog, with a language among en/th/ja/zh, gets the rewritten greeting for that language, but is still tagged `faq` |
| `FaqHandlerProperties.ApologyWhenLookupRaises` | services/faq_handler.py:104-120 | when reading the analysis or the lookup raises, the reply is the apology for the analysed language, tagged `error`; without a supported language it raises |
| `FaqHandlerProperties.MissingQueryTypeApologizes` | services/faq_handler.py:106-120 | an analysis without `query_type` gets the apology, tagged `error`, when its language is one of en/th/ja/zh |
| `FaqHandlerProperties.RaisesExactly` | services/faq_handler.py:95-120 | an exception escapes exactly when the analysis lacks a supported language and either the handoff path or the apology path is taken |
| `FaqHandlerProperties.FailingModelStillAnswers` | services/faq_handler.py:32-120 | when the model fails on the classification and on the rewrite, every message gets a non-empty reply and never raises: the English handoff message tagged `handoff`, or the unrewritten answer for ("other", "en") tagged `other` |
| `FaqHandlerProperties.EmptyReplyOnlyFromRewrite` | services/faq_handler.py:64-66 | an empty reply can only come from a successful rewrite that was all whitespace, under the threshold and not on the apology path |
| `FaqHandlerProperties.BlankRewriteEmptiesReply` | services/faq_handler.py:64-66 | a whitespace-only rewrite does produce an empty reply |

## Where a reader's expectations and the code differ (the model follows the code)

- **Script rules.** A reader might expect Thai, Japanese or Chinese-only
  script to force the language to `th`, `ja` or `zh`, since the
  classification prompt (services/faq_handler.py:24-26) says so. These rules are
  only words in the classification prompt. `AnalyzeMessage` passes on
  whatever the decoder returns, with no check of its fields.
- **The reply is not always non-empty.** A reader might expect the user
  always to get a non-empty reply, as the lookup never yields "". A rewrite that is all whitespace is trimmed to
  `""` and returned as is (`BlankRewriteEmptiesReply`).
- **The handler can raise.** A reader might expect the `try` at
  services/faq_handler.py:104 to keep every exception inside. A language outside `en`, `th`, `ja` and `zh` (or no language
  at all) raises on the handoff path and on the apology path
  (`RaisesExactly`).
- **The fallback greetings are not read from the catalog.** A reader might
  expect the fallback to be the catalog's own "other" entries. The code
  uses a built-in greeting table and falls back to its English entry.
- **A query type missing from the catalog is tagged `faq`.** This is because
  the tag only compares the query type with "other".

## Left out

- The model construction and the network calls (services/faq_handler.py:9,
  33, 65) are a foreign service. They are the `Model` oracle. The prompt
  templates are represented only by what they are built from.
- `json.loads` is the `Loads` oracle. It is not a JSON parser. JSON numbers
  keep their text, because the handler only compares values with strings.
- Reading the FAQ file in the constructor is file I/O. The catalog is given
  as a map from strings to maps from strings to strings. A file whose
  sections are not objects, or whose answers are not strings, is not
  modelled.
- The `print` calls and the `json.dumps` of the analysis (lines 41, 68, 92
  and 113) are logging and are not modelled. The print at line 92 is
  outside any `try`, so a failure to write the log (for example an
  analysis string holding an unpaired surrogate, which `json.loads`
  accepts and a UTF-8 stdout rejects) would raise out of
  `generate_response`. Dafny strings cannot hold an unpaired surrogate, so
  such analyses and that exception are not represented.
- `message_count` defaults to 0 in the source; a call without it is
  `GenerateResponse(..., 0)`, as Dafny functions have no default arguments.
- The Conversation Tracker and its 10-entry history cap do not exist in
  these files. `message_count` is an integer parameter.
- botserver.py and botserver2.py are HTTP and chat-platform glue around one
  model call and are not part of this model.
