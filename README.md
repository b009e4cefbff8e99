# Health assistant chat core in Dafny

This project models the logic behind the health assistant's chat. It has two parts.

- **The medical-info service** (`fetchMedicalInfo`):
  - looks the query up in a curated table of conditions, taking the first key in table order that the lower-cased query contains or that contains the lower-cased query;
  - asks the encyclopedia for a page summary, falling back to a full-text search and a second lookup after a 404;
  - builds a record from the curated lists where a record matched, and from sentences extracted from the encyclopedia text elsewhere (`extractSection`);
  - turns empty lists into absent ones.
- **The dialogue controller** (`useHealthAI`):
  - a first-match classifier that answers some messages locally: the disease directory, the emergency message, topical and generic wellness advice, a greeting;
  - `sendMessage` and `getHealthInsights`, which append to the transcript and set and clear the typing flag.

## Files

- `wrappers.dfy` (module `Wrappers`): `Option` and `Result`.
- `js_text.dfy` (module `JsText`): the JavaScript string built-ins the core uses:
  - `\s` white space;
  - ASCII `toLowerCase`;
  - `includes`;
  - `trim`.
- `extraction.dfy` (module `Extraction`): `extractSection`. The pieces are:
  - the `/[.!?]+(?=\s|$)/` split;
  - trimming;
  - the length and keyword filters;
  - the `Set`-based de-duplication;
  - `slice(0, 5)`.
- `medical_info_service.dfy` (module `MedicalInfoService`):
  - the curated table and the lookup;
  - the encyclopedia protocol over an abstract set of replies;
  - the record assembly, written twice:
    - `Assemble`, a specification function;
    - `FetchMedicalInfo`, an imperative method proved equal to it.
- `health_ai.dfy` (module `HealthAI`):
  - the classifier `GenerateLocalResponse`;
  - the bot reply specification `BotReply`;
  - the class `HealthChat`, whose fields are the transcript `messages` and the flag `isTyping`.

The encyclopedia's replies are a parameter, `Responses`. It has three parts:
- how the summary request for the query ends: a 404, a page, another status, or an exception;
- how the search ends;
- how the summary request for the top hit ends.

`Resolve` issues the requests in the source's order and records them.

The assembly can throw in exactly one case, and the model states it (`AssembleFailsOnlyOnMissingExtract`). Three things must hold together:
- a curated record without facts matched;
- the answering page had no `extract`;
- so `extractSection` is called on `undefined`.

That failure is the one that reaches the `catch` of `sendMessage`.

## Model

| member | source | states |
|---|---|---|
| JsText.ToLower | src/services/medicalInfoService.ts:194 | lower-casing keeps the length and lower-cases each character in place |
| JsText.ToLowerAppend | src/useHealthAI.ts:40 | lower-casing distributes over concatenation |
| JsText.Contains | src/services/medicalInfoService.ts:199 | `s.includes(k)`: `k` is a prefix of `s` or occurs in its tail; `ContainsIffOccurs` ties it to an index witness |
| JsText.ContainsIffOccurs | src/services/medicalInfoService.ts:199 | `includes` holds exactly when the needle occurs at some index |
| JsText.ContainsInAppend | src/useHealthAI.ts:43-66 | a substring stays a substring when text is added on either side |
| JsText.ContainsTransitive | src/services/medicalInfoService.ts:182-186 | a substring of a substring is a substring |
| JsText.Utf16Length | src/services/medicalInfoService.ts:183 | `s.length` in UTF-16 code units: at least the number of characters and at most twice it, and equal to it when every character is in the Basic Multilingual Plane |
| JsText.Utf16LengthChar | src/services/medicalInfoService.ts:183 | a single character counts one code unit up to U+FFFF and two (a surrogate pair) above it |
| JsText.Utf16LengthAppend | src/services/medicalInfoService.ts:183 | the length of a concatenation is the sum of the lengths, so with `Utf16LengthChar` the length is the sum over the characters |
| JsText.Trim | src/services/medicalInfoService.ts:182 | the trimmed text is a slice of the input with no white space at either end, and only white space was cut from its end |
| JsText.TrimContained | src/services/medicalInfoService.ts:182 | the trimmed text occurs in the original |
| JsText.TrimEmptyIffBlank | src/useHealthAI.ts:72 | `trim()` yields the empty string exactly when every character is white space |
| Extraction.RunEnd | src/services/medicalInfoService.ts:180 | the maximal run of `.`, `!`, `?` starting at a position ends at the first non-terminator |
| Extraction.Sentences | src/services/medicalInfoService.ts:180 | the spans of `text.split` on the sentence separator: scanning left to right, a maximal terminator run followed by white space or the end closes a span |
| Extraction.Separators | src/services/medicalInfoService.ts:180 | the separator matches of the split, in order; each is a non-empty run of `.`, `!`, `?` (with `SentencesCutAtBreaks`, each is followed by white space or the end) |
| Extraction.FirstSpan | src/services/medicalInfoService.ts:180 | the first span of a split runs up to the first match at or after the scan position, or to the end |
| Extraction.SplitFromCutsAtBreaks | src/services/medicalInfoService.ts:180 | from any scan state, every span after the first starts with white space, except an empty last span after a final match: cuts happen only where the lookahead `(?=\s` or end`)` holds |
| Extraction.SentencesCutAtBreaks | src/services/medicalInfoService.ts:180 | every span of the split after the first starts with white space, or is the empty last span after a match at the end of the text |
| Extraction.SplitFromRejoins | src/services/medicalInfoService.ts:180 | from any scan position, the spans rejoined with the separator matches give back the rest of the text |
| Extraction.SentencesRejoin | src/services/medicalInfoService.ts:180 | the split loses nothing: there is one more span than separator, and the spans interleaved with the separators give back the text |
| Extraction.SentencesArePieces | src/services/medicalInfoService.ts:180 | every span of the split occurs in the text and holds no sentence break, so every break is cut; with `SentencesRejoin` and `SentencesCutAtBreaks`, the spans are exactly the stretches between the breaks |
| Extraction.TrimKeepsNoBreak | src/services/medicalInfoService.ts:182 | trimming a span without a sentence break leaves none |
| Extraction.Relevant | src/services/medicalInfoService.ts:183-187 | a trimmed span passes both filters: more than five UTF-16 code units long, and some keyword occurs in it once both are lower-cased |
| Extraction.Candidates | src/services/medicalInfoService.ts:181-187 | every kept span is the trim of some piece, is trimmed, longer than five UTF-16 code units and mentions a keyword case-insensitively; every span that qualifies after trimming is kept |
| Extraction.CandidatesOne | src/services/medicalInfoService.ts:181-187 | one piece contributes its trim exactly when the trim passes both filters, and nothing otherwise |
| Extraction.CandidatesAppend | src/services/medicalInfoService.ts:181-187 | `map` and `filter` keep order: the candidates of a concatenation are those of the first part followed by those of the second, so with `CandidatesOne` the candidates are fixed piece by piece, in order |
| Extraction.Dedup | src/services/medicalInfoService.ts:190 | the same elements as its input, without repeats |
| Extraction.DedupKeepsFirstSeenOrder | src/services/medicalInfoService.ts:190 | the distinct elements appear in the order of their first occurrence |
| Extraction.ExtractSection | src/services/medicalInfoService.ts:178-191 | at most five distinct spans, each trimmed, longer than five UTF-16 code units and mentioning a keyword |
| Extraction.ExtractedSpansComeFromText | src/services/medicalInfoService.ts:180-182 | every extracted span occurs in the text and has no sentence break inside |
| Extraction.ExtractKeepsFirstFive | src/services/medicalInfoService.ts:190 | the result is the first five distinct candidates in first-seen order; a candidate is missing only when five earlier ones were kept |
| Extraction.FirstFiveOfDedup | src/services/medicalInfoService.ts:190 | `[...new Set(xs)].slice(0, 5)` keeps exactly the first five distinct elements of `xs`, in order |
| MedicalInfoService.CuratedTableShape | src/services/medicalInfoService.ts:5-176 | every curated list is non-empty, and only malaria and typhoid carry facts |
| MedicalInfoService.FirstMatchFrom | src/services/medicalInfoService.ts:198-203 | the index found is the first at or after the start whose key is in the query or contains it |
| MedicalInfoService.FindCondition | src/services/medicalInfoService.ts:194-203 | there is no match exactly when no key matches; otherwise the match is the record of the first matching key in table order |
| MedicalInfoService.FindLocalCondition | src/services/medicalInfoService.ts:197-203 | the loop with `break` finds the record of the first matching key |
| MedicalInfoService.PreferredImage | src/services/medicalInfoService.ts:223 | the image is `thumbnail.original` when it is truthy and `thumbnail.source` otherwise |
| MedicalInfoService.Resolve | src/services/medicalInfoService.ts:205-234 | the first request is always the summary of the query. A 404, and only a 404, adds the search. A top hit adds its summary. Without an answering page the summary stays empty and the title is the query; otherwise both, and the image, come from the page |
| MedicalInfoService.SearchOnlyAfterNotFound | src/services/medicalInfoService.ts:212-225 | the search is issued exactly after a 404, and any second summary request is for the top hit's title |
| MedicalInfoService.CuratedOrExtracted | src/services/medicalInfoService.ts:245-250 | a curated list, even an empty one, wins; otherwise the list is extracted from the summary, and extraction from a missing summary throws |
| MedicalInfoService.NonEmpty | src/services/medicalInfoService.ts:256-261 | a list is kept exactly when it is non-empty |
| MedicalInfoService.Merge | src/services/medicalInfoService.ts:244-263 | the record built from a curated match (if any) and the resolved page: each list is the curated one or an extraction, empty lists become absent, and an extraction over a missing summary throws |
| MedicalInfoService.Assemble | src/services/medicalInfoService.ts:193-264 | what `fetchMedicalInfo` settles to: the placeholder when neither the table nor the encyclopedia gave anything, otherwise the merged record; its properties are the lemmas below, which state every field on every path (`NoMatchGivesPlaceholder`, `UncuratedRecordIsExtracted`, `CuratedFieldsWin`, `MergedImageComesFromPage`, `AssembleFailsOnlyOnMissingExtract`) |
| MedicalInfoService.NoMatchGivesPlaceholder | src/services/medicalInfoService.ts:236-242 | no curated match and no encyclopedia text give the placeholder record: the resolver's title (the query when no page answered), no image, no lists, and the disclaimer |
| MedicalInfoService.AssembleFailsOnlyOnMissingExtract | src/services/medicalInfoService.ts:245-250 | the assembly throws exactly when a curated record without facts matched and the answering page has no extract |
| MedicalInfoService.CuratedFieldsWin | src/services/medicalInfoService.ts:245-253 | with a curated match, the title and the five curated lists come from the table; the facts come from the table when present and are extracted otherwise |
| MedicalInfoService.CuratedFieldsIgnoreSummary | src/services/medicalInfoService.ts:245-253 | two different encyclopedia answers give a curated match the same title and lists |
| MedicalInfoService.AssembledRecordIsNormalized | src/services/medicalInfoService.ts:252-263 | the disclaimer is always set and no list is empty. The summary is the encyclopedia text when there is one. It is "Fetching global overview..." exactly when a curated record matched without text, and the placeholder exactly when nothing matched |
| MedicalInfoService.UncuratedListsAreExtracted | src/services/medicalInfoService.ts:245-250 | without a curated match, every list holds at most five distinct relevant sentences taken from the encyclopedia text |
| MedicalInfoService.UncuratedRecordIsExtracted | src/services/medicalInfoService.ts:245-263 | without a curated match but with encyclopedia text, the assembly succeeds with the page's title, text and image, each list is `extractSection` of that text made absent when empty, and the disclaimer is set |
| MedicalInfoService.MergedImageComesFromPage | src/services/medicalInfoService.ts:255 | whenever a merged record (not the placeholder) is returned, its image is the one the encyclopedia gave |
| MedicalInfoService.MigraineQueryFindsMigraine | src/services/medicalInfoService.ts:194-203 | "I have a bad migraine" finds the migraine record, the second entry |
| MedicalInfoService.MigraineQuery | src/services/medicalInfoService.ts:14-20 | the migraine query's record is titled "Migraine" and lists the four curated medications |
| MedicalInfoService.FluQuery | src/services/medicalInfoService.ts:6-13 | "flu" gives the title "Influenza (Flu)" and exactly its five curated symptoms, whatever the encyclopedia says |
| MedicalInfoService.ShortQueryMatchesByContainment | src/services/medicalInfoService.ts:199 | the query "i" matches "migraine" by containment, after missing "flu" |
| MedicalInfoService.FetchMedicalInfo | src/services/medicalInfoService.ts:193-264 | the imperative lookup, protocol and assembly yield exactly the specified record or failure, and the requests the protocol specifies |
| HealthAI.TopicalAdvice | src/useHealthAI.ts:53-57 | a topical branch gives one of the indices 0, 1, 2, 3, 5 and never 4 |
| HealthAI.TopicalAdviceIsFirstTopic | src/useHealthAI.ts:53-57 | the chain gives a topic's index exactly when that topic is the first one the input mentions, and nothing exactly when no topic is mentioned |
| HealthAI.GenerateLocalResponse | src/useHealthAI.ts:39-69 | a directory phrase gives the trigger, before any emergency check. Otherwise an emergency keyword gives the emergency message. Otherwise the first topic gives its advice. Otherwise an advice word gives the advice entry picked at random. Every answer is the trigger, the emergency message, the greeting or a piece of advice, and `null` comes exactly when no trigger word occurs |
| HealthAI.AnswersLocally | src/useHealthAI.ts:88 | `if (localResponse)`: the classifier gave a non-empty string |
| HealthAI.DirectoryRequestSurvivesAppending | src/useHealthAI.ts:43-45 | a directory request is answered with the directory whatever text surrounds it |
| HealthAI.EmergencySurvivesAppending | src/useHealthAI.ts:48-50 | an emergency keyword is answered with the emergency message whatever text is added before or after it, unless a directory phrase appears |
| HealthAI.DietQuestion | src/useHealthAI.ts:53 | "what is the best diet" gets advice entry 0 |
| HealthAI.GreetingWhenOnlyGreeted | src/useHealthAI.ts:64-66 | with no earlier trigger, "hello" or "hi" gets the greeting |
| HealthAI.ChillsGetGreeting | src/useHealthAI.ts:64-66 | "I have chills" gets the greeting, because "hi" is a raw substring |
| HealthAI.BotReply | src/useHealthAI.ts:84-142 | the reply is from the bot. A local answer becomes the directory message with the full directory on the trigger, and the answer's own text otherwise. A directory reply answers the trigger. A reply carrying a record was not answered locally; it carries the assembled record with a summary that passes the card test, and names its title |
| HealthAI.DirectoryRequestGetsDirectory | src/useHealthAI.ts:92-100 | a directory request gets the directory introduction with the full disease directory, whatever the encyclopedia says |
| HealthAI.EmergencyGetsEmergencyMessage | src/useHealthAI.ts:48-50 | a message with an emergency keyword and no directory phrase gets the emergency message verbatim |
| HealthAI.ShowsCard | src/useHealthAI.ts:115 | the card test: a non-empty summary that is not "Fetching global health overview..." and does not contain "couldn't find a detailed match" |
| HealthAI.PlaceholderNotShown | src/useHealthAI.ts:115 | the placeholder summary fails the card test |
| HealthAI.FetchingSummaryShown | src/useHealthAI.ts:115 | "Fetching global overview..." passes the card test |
| HealthAI.LocalAnswerIgnoresNetwork | src/useHealthAI.ts:86-109 | a local answer does not depend on the encyclopedia and carries no record |
| HealthAI.CardIffShowable | src/useHealthAI.ts:110-142 | on the assembly path, the reply carries the record exactly when the assembly succeeds with a summary that passes the card test. Otherwise it is the default response, prefixed by the connectivity line when the assembly throws |
| HealthAI.UnknownQueryGetsFallback | src/useHealthAI.ts:124-133 | a query neither the table nor the encyclopedia knows gets the default response |
| HealthAI.CuratedMatchOfflineGetsCard | src/useHealthAI.ts:115-123 | a curated match without an encyclopedia page still gets a card titled with the curated name |
| HealthAI.MigraineChat | src/useHealthAI.ts:110-123 | "I have a bad migraine" without an encyclopedia page gets the migraine card |
| HealthAI.HealthChat.constructor | src/useHealthAI.ts:29-37 | the transcript starts with the welcome message and the bot is not typing |
| HealthAI.HealthChat.SendMessage | src/useHealthAI.ts:71-146 | blank text changes nothing. Otherwise the old transcript is kept and exactly the user message and then one bot reply, for some random advice pick, are appended, and typing ends cleared, also when the assembly throws |
| HealthAI.HealthChat.Reply | src/useHealthAI.ts:84-142 | the imperative reply equals the specified bot reply |
| HealthAI.HealthChat.GetHealthInsights | src/useHealthAI.ts:148-171 | exactly one bot message is appended: a bare card with the record, or the apology when the assembly throws; typing ends cleared |

## Left out

- **Network and parsing.** `fetch`, `encodeURIComponent` and JSON parsing are not modelled. The replies are the `Responses` parameter and the requests are recorded as values.
- **The search response.** It is reduced to "threw" or "the title of the top hit, if any", so a non-ok search status is not told apart from an empty result.
- **Page titles.** A page's `title` is modelled as always present. The `undefined` title of a malformed page is not modelled.
- **Randomness.** `Math.random` is a nondeterministic choice of an advice index below the list's length (`:|` in `SendMessage`). The reply's contract therefore holds for some valid index.
- **Unicode in the filters.** Strings are sequences of Unicode scalar values. `Utf16Length` counts a character outside the Basic Multilingual Plane twice, as JavaScript's `length` does, so the `> 5` filter agrees with the source. Other operations are not modelled at the UTF-16 level, where such a character is two code units.
- **Lower-casing.** `toLowerCase` is modelled on the ASCII letters only. Unicode case mapping is not modelled.
- **Timing, ids and logging.** The 800 ms delay, the `Date.now()` ids, the timestamps and `console.error` carry no logic and are left out of `Message`.
- **React machinery.** Hooks, `useCallback`, asynchronous interleaving of concurrent `sendMessage` calls and rendering are not modelled. Each turn runs to completion, as one method call.
- **Constants from `./types`.** `WELLNESS_ADVICE`, `EMERGENCY_KEYWORDS`, `EMERGENCY_MESSAGE` and `DEFAULT_RESPONSE` come from the `./types` module, which is not part of this model. They are the `Config` parameter, with at least six advice entries because index 5 is used.
- **Other files.** `src/components/HealthDashboard.tsx` (the UI) and `src/services/healthPlanService.ts` (floating-point calorie arithmetic and an unseen tracking service) are not part of this model.
- **The card test.** It compares the summary against "Fetching global health overview...", while the service writes "Fetching global overview...". Both are modelled as written, so a curated match without encyclopedia text still gets a card (`CuratedMatchOfflineGetsCard`).
- **Scenario lemmas.** `DietQuestion`, `ChillsGetGreeting` and `MigraineChat` assume that no emergency keyword occurs in the message, since the keyword list is a parameter.
