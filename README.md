# Soften support assistant: summaries, similar cases, tips and documentation loading

This project models the core of the `gemini_resumo` support assistant. The assistant helps a support team with customer calls.

- A generative model summarises a call transcript into a block of marked fields. `SummaryService` is the part that cuts those fields out, classifies the customer's mood, and maps the module label to the closed `ModulesCalled` taxonomy through `ModuleMapper`.
- `CalledService.processFullTip` takes the summary and fetches the historical calls of that module and of `GENERIC`. It asks `SuggestionService` to have the model pick the similar ones. It asks the model for resolution tips built from their solutions, with deterministic fallbacks. It then assembles a `TipResponseDto` through its mutable builder, with status `NO_HISTORY`, `NO_SIMILARITY`, `SUCESS` (spelled as in the code) or `ERROR: <message>`.
- `DocumentationLoader` reads the official documentation files line by line. Each content line becomes one document, tagged with the section header above it.

The Dafny modules follow the Java classes:

| Dafny module | file | Java |
|---|---|---|
| `Text` | `text.dfy` | the `java.lang.String` operations the core relies on: `trim`, `toUpperCase`/`toLowerCase`, `contains`/`indexOf`, `split` (trailing empty strings dropped), `String.join`, `replaceAll("\\s+","")`, and the two list-item regexes |
| `Numbers` | `numbers.dfy` | `Long.parseLong` and the decimal rendering of `int`/`long` in concatenation |
| `Entities` | `entities.dfy` | `ModulesCalled`, `MoodClient`, `CalledEntity`, `FormatSummary`, `SummaryDto`, and the `Outcome` of an external call |
| `ModuleMapper` | `module_mapper.dfy` | `utils/ModuleMapper` |
| `SummaryService` | `summary_service.dfy` | `service/SummaryService` |
| `SuggestionService` | `suggestion_service.dfy` | `service/SuggestionService` |
| `TipResponse` | `tip_response.dfy` | `models/dtos/TipResponseDto` and its `TipResponseDTOBuilder` class |
| `CalledService` | `called_service.dfy` | `service/CalledService` |
| `DocumentationLoader` | `documentation_loader.dfy` | the line loop of `bootstrap/DocumentationLoader.run` |

Everything that happens outside the core is a function-typed parameter returning `Outcome<T>`, which is `Ok(value)` or `Fail(message)`. A failure stands for an exception. These parameters are:

- the model (`ask`),
- the summary generator (`generate`),
- the repository lookup (`find`),
- the repository `save`.

Pure Java code becomes functions. Where the source keeps a loop over a mutable list, the model keeps a method with that loop, proved equal to the function. This covers:

- the prompt builders,
- `extractSimilarIds`,
- `extractCuesFromTheAnswer`,
- the fallback loop of `generateResolutionTipsList`,
- the documentation line loop.

The builder is a class whose setters update its fields in place.

Some behaviour of the code is easy to misread, and the model keeps it as written:

- The model's answer is parsed into `Long`s (`SuggestionService.java:161`) and looked up among `UUID` ids (line 33), so no case ever matches. A successful similarity answer always yields an empty list (`SuggestionService.FilterAnsweredIsEmpty`).
- When the model call fails, the filter fails open: it returns the first three cases of the full list (`SuggestionService.java:36-39`, `SuggestionService.FilterFailOpen`). A `SUCESS` response therefore arises only on that path (`CalledService.SuccessOnlyWhenSimilarityFails`).
- The fallback tip list is a header plus at most three numbered solutions (`SuggestionService.java:57-62`, `SuggestionService.TipsListFallback`).
- Solutions beyond the tenth are left out of the tips prompt, with no mention of how many were dropped (`SuggestionService.java:103`, `SuggestionService.TipsPromptBounded`).
- `SUCESS` is reported with whatever list of solutions remains after the `hasText` filter (`CalledService.java:72-88`, `CalledService.Success`). That list may be empty, and then the tip list is the single "no solutions" sentence (`SuggestionService.TipsListWithoutSolutions`).

## Model

Source paths are abbreviated from `src/main/java/com/soften/support/gemini_resumo/`; each cell gives the path in full.

| member | source | states |
|---|---|---|
| ModuleMapper.Map | src/main/java/com/soften/support/gemini_resumo/utils/ModuleMapper.java:7-8 | A `null` label maps to `GENERIC`. |
| ModuleMapper.MapIsTableScan | src/main/java/com/soften/support/gemini_resumo/utils/ModuleMapper.java:12-27 | The chain of fourteen `contains` tests is a scan of the phrase table in order, ending in `GENERIC`. |
| ModuleMapper.MapFirstMatch | src/main/java/com/soften/support/gemini_resumo/utils/ModuleMapper.java:10-25 | If phrase `i` is the first one the upper-cased label contains, the result is phrase `i`'s module. |
| ModuleMapper.MapGenericExactly | src/main/java/com/soften/support/gemini_resumo/utils/ModuleMapper.java:10-27 | The result is `GENERIC` if and only if the upper-cased label contains none of the fourteen phrases. |
| ModuleMapper.MapEarlierPhraseWins | src/main/java/com/soften/support/gemini_resumo/utils/ModuleMapper.java:12-25 | When the label contains phrase `i`, the result is the module of some phrase at or before `i` that it also contains. |
| ModuleMapper.MapIgnoresCase | src/main/java/com/soften/support/gemini_resumo/utils/ModuleMapper.java:10 | Upper-casing first makes the mapping blind to the label's case. |
| ModuleMapper.MapGenerico | src/main/java/com/soften/support/gemini_resumo/utils/ModuleMapper.java:27 | The label "Genérico" matches no phrase and falls to the default. |
| ModuleMapper.NoPhraseWithoutLetters | src/main/java/com/soften/support/gemini_resumo/utils/ModuleMapper.java:12-27 | An upper-cased label without any of F, M, T, S, B, L can match no phrase. |
| ModuleMapper.MapBareNfe | src/main/java/com/soften/support/gemini_resumo/utils/ModuleMapper.java:12 | A bare "nf-e" without the parenthesised long name is not recognised as NFE. |
| ModuleMapper.ShortLabelGeneric | src/main/java/com/soften/support/gemini_resumo/utils/ModuleMapper.java:12-27 | A label of at most four characters without a T maps to `GENERIC`, because all the other phrases are longer. |
| SummaryService.ExtractField | src/main/java/com/soften/support/gemini_resumo/service/SummaryService.java:62-67 | The extracted field is trimmed and never contains `**`; a missing marker gives "". |
| SummaryService.ExtractFieldRoundTrip | src/main/java/com/soften/support/gemini_resumo/service/SummaryService.java:28-33 | Round trip: a marker, regex spaces, a trimmed star-free value, trailing padding, then the end or the next `**`: extraction gives back exactly the value. |
| SummaryService.ExtractFieldAt | src/main/java/com/soften/support/gemini_resumo/service/SummaryService.java:63-65 | When the marker first occurs at `i`, the field is what the lazy group reads after position `i` plus the marker's length. |
| SummaryService.FieldAfterReadsValue | src/main/java/com/soften/support/gemini_resumo/service/SummaryService.java:28 | Leading regex spaces, then the lazy group up to the next `**` or the end, then `trim`: this reads exactly the trimmed, star-free value. |
| SummaryService.MapMood | src/main/java/com/soften/support/gemini_resumo/service/SummaryService.java:69-75 | NEUTRAL if and only if the upper-cased text has "NEUTRO" but not "BOM"; IRRITATED if and only if it has "IRRITADO" and neither of those; GOOD otherwise, always when "BOM" appears. |
| SummaryService.MapMoodIgnoresCase | src/main/java/com/soften/support/gemini_resumo/service/SummaryService.java:70 | Lower-casing the text first changes nothing. |
| SummaryService.ExtractFieldsFromSummary | src/main/java/com/soften/support/gemini_resumo/service/SummaryService.java:27-47 | Each field of the record is the extraction under its own marker, trimmed. The prints flag holds if and only if the lower-cased prints field starts with "sim". The mood and the module come from `mapMood` and `ModuleMapper.map`. |
| SummaryService.ExtractFieldsWithoutMarkers | src/main/java/com/soften/support/gemini_resumo/service/SummaryService.java:27-47 | A summary without any `*` yields empty texts, no prints, GOOD and GENERIC. |
| SummaryService.CreateDtoSummary | src/main/java/com/soften/support/gemini_resumo/service/SummaryService.java:49-60 | A failing generator propagates its failure. Otherwise the record holds the full summary, its extracted fields, and their module, problem and solution. |
| SuggestionService.TruncateText | src/main/java/com/soften/support/gemini_resumo/service/SuggestionService.java:170-175 | `null` gives "". A short text is returned unchanged; a long one becomes its first `maxLength` characters plus "...", so the result has at most `maxLength + 3` characters. |
| SuggestionService.TruncateTextIdempotent | src/main/java/com/soften/support/gemini_resumo/service/SuggestionService.java:170-175 | Truncating an already truncated text changes nothing. |
| SuggestionService.CreatePromptComparisonProblems | src/main/java/com/soften/support/gemini_resumo/service/SuggestionService.java:73-94 | The loop over the cases builds the comparison prompt's entries. |
| SuggestionService.ComparisonPromptBounded | src/main/java/com/soften/support/gemini_resumo/service/SuggestionService.java:80-84 | One prompt entry per case, carrying its id and a problem cut to at most 153 characters. |
| SuggestionService.CreatePromptGenerationTips | src/main/java/com/soften/support/gemini_resumo/service/SuggestionService.java:96-118 | The loop over the first ten solutions builds the tips prompt. |
| SuggestionService.TipsPromptBounded | src/main/java/com/soften/support/gemini_resumo/service/SuggestionService.java:103-107 | The prompt holds min(n, 10) solutions, the first ones, each at most 303 characters, and short ones unchanged. |
| SuggestionService.SimilarIds | src/main/java/com/soften/support/gemini_resumo/service/SuggestionService.java:147-168 | A `null`, blank, "NENHUM" or "nenhum" answer gives no ids; every id returned is in the `long` range. |
| SuggestionService.ExtractSimilarIds | src/main/java/com/soften/support/gemini_resumo/service/SuggestionService.java:147-168 | The loop over the comma-separated parts computes the id list, skipping parts that fail to parse. |
| SuggestionService.ParsedIdsAppend | src/main/java/com/soften/support/gemini_resumo/service/SuggestionService.java:159-165 | Parsing parts one by one distributes over concatenation. |
| SuggestionService.SimilarIdsRoundTrip | src/main/java/com/soften/support/gemini_resumo/service/SuggestionService.java:147-168 | Round trip: a list of `long`s written as "a,b,c" is read back exactly; the empty list is written as "", a blank answer, and reads back as no ids. |
| SuggestionService.SelectSimilarMembers | src/main/java/com/soften/support/gemini_resumo/service/SuggestionService.java:32-34 | A case is kept if and only if it is among the analysed cases and its id is in the answer's id list. |
| SuggestionService.SelectSimilarIsEmpty | src/main/java/com/soften/support/gemini_resumo/service/SuggestionService.java:30-34 | `List<Long>.contains` on a `UUID` is never true, so the selection is always empty. |
| SuggestionService.CandidatesForAnalysis | src/main/java/com/soften/support/gemini_resumo/service/SuggestionService.java:24-25 | The analysed cases are the first min(n, 50). |
| SuggestionService.FilterCallsBySimilarity | src/main/java/com/soften/support/gemini_resumo/service/SuggestionService.java:18-21 | A `null` or empty list, or a `null` or blank problem, gives the empty list. |
| SuggestionService.FilterPromptBounded | src/main/java/com/soften/support/gemini_resumo/service/SuggestionService.java:24-27 | The filter's prompt carries at most 50 entries, the first cases, each problem at most 153 characters. |
| SuggestionService.FilterGuardIgnoresModel | src/main/java/com/soften/support/gemini_resumo/service/SuggestionService.java:19-21 | Under the guard the model is not consulted: any two models give the same empty result. |
| SuggestionService.FilterAnsweredIsEmpty | src/main/java/com/soften/support/gemini_resumo/service/SuggestionService.java:27-34 | When the model answers, every case kept is an analysed case, and in fact none is kept. |
| SuggestionService.FilterFailOpen | src/main/java/com/soften/support/gemini_resumo/service/SuggestionService.java:36-39 | When the model call fails, the result is the first min(n, 3) cases of the untruncated list, at least one. |
| SuggestionService.CueLinesMembers | src/main/java/com/soften/support/gemini_resumo/service/SuggestionService.java:123-132 | A string is a cue line if and only if it is the trim of some line of the answer that starts with `•`, `-`, `N. ` or `N) `. Cue lines keep their order and are trimmed. |
| SuggestionService.CuesShape | src/main/java/com/soften/support/gemini_resumo/service/SuggestionService.java:120-145 | Cue lines, if there are any or the answer has at most 100 characters. Otherwise at most five trimmed paragraphs of more than 30 characters, taken from the start of the list of paragraphs that qualify. |
| SuggestionService.KeptSound | src/main/java/com/soften/support/gemini_resumo/service/SuggestionService.java:124-131 | Every kept item passes the test and is the cleaned form of some input item. |
| SuggestionService.KeptComplete | src/main/java/com/soften/support/gemini_resumo/service/SuggestionService.java:124-131 | Every input item whose cleaned form passes the test is kept. |
| SuggestionService.ExtractCuesFromTheAnswer | src/main/java/com/soften/support/gemini_resumo/service/SuggestionService.java:120-145 | The two loops compute exactly `Cues(answer)`. |
| SuggestionService.FallbackTips | src/main/java/com/soften/support/gemini_resumo/service/SuggestionService.java:58-61 | The fallback is the header followed by one line "i. <solution cut to 200>" for each of the first min(n, 3) solutions. |
| SuggestionService.TipsList | src/main/java/com/soften/support/gemini_resumo/service/SuggestionService.java:43-71 | Without solutions, the single "no solutions" sentence. The list is never empty. |
| SuggestionService.TipsListWithoutSolutions | src/main/java/com/soften/support/gemini_resumo/service/SuggestionService.java:46-49 | Without solutions the model is not consulted and the list is the single sentence. |
| SuggestionService.TipsListOnFailure | src/main/java/com/soften/support/gemini_resumo/service/SuggestionService.java:66-70 | A failing model gives exactly the error tip and "Soluções encontradas no histórico: n". |
| SuggestionService.TipsListFromAnswer | src/main/java/com/soften/support/gemini_resumo/service/SuggestionService.java:52-57 | Cues found in the answer are the tip list. |
| SuggestionService.TipsListFallback | src/main/java/com/soften/support/gemini_resumo/service/SuggestionService.java:57-62 | An answer without cues gives the fallback list of 1 + min(n, 3) tips. |
| SuggestionService.GenerateResolutionTipsList | src/main/java/com/soften/support/gemini_resumo/service/SuggestionService.java:43-71 | The method with its fallback loop computes exactly `TipsList`. |
| SuggestionService.AddFallbackTips | src/main/java/com/soften/support/gemini_resumo/service/SuggestionService.java:57-62 | The loop appends exactly the fallback tips to the current list. |
| SuggestionService.GenerateResolutionTips | src/main/java/com/soften/support/gemini_resumo/service/SuggestionService.java:177-180 | The tip list is joined with blank lines. |
| SuggestionService.ResolutionTipsText | src/main/java/com/soften/support/gemini_resumo/service/SuggestionService.java:177-180 | The joined text is the single sentence without solutions, and the two error tips separated by a blank line on failure. |
| TipResponse.TipResponseDTOBuilder.constructor | src/main/java/com/soften/support/gemini_resumo/models/dtos/TipResponseDto.java:25-27 | A fresh builder has an empty tip list and every other field `null`. |
| TipResponse.TipResponseDTOBuilder.Summary | src/main/java/com/soften/support/gemini_resumo/models/dtos/TipResponseDto.java:29-32 | Sets `summary` alone and returns the same builder. |
| TipResponse.TipResponseDTOBuilder.ProblemDetected | src/main/java/com/soften/support/gemini_resumo/models/dtos/TipResponseDto.java:34-37 | Sets `problemDetected` alone and returns the same builder. |
| TipResponse.TipResponseDTOBuilder.ModuleDetected | src/main/java/com/soften/support/gemini_resumo/models/dtos/TipResponseDto.java:39-42 | Sets `moduleDetected` alone and returns the same builder. |
| TipResponse.TipResponseDTOBuilder.SimilarTagsFound | src/main/java/com/soften/support/gemini_resumo/models/dtos/TipResponseDto.java:44-47 | Sets `similarTagsFound` alone and returns the same builder. |
| TipResponse.TipResponseDTOBuilder.SolutionsAnalyzed | src/main/java/com/soften/support/gemini_resumo/models/dtos/TipResponseDto.java:49-52 | Sets `solutionsAnalyzed` alone and returns the same builder. |
| TipResponse.TipResponseDTOBuilder.Tips | src/main/java/com/soften/support/gemini_resumo/models/dtos/TipResponseDto.java:54-57 | Replaces the tips with the list, or with an empty list for `null`. |
| TipResponse.TipResponseDTOBuilder.AddTips | src/main/java/com/soften/support/gemini_resumo/models/dtos/TipResponseDto.java:59-65 | Appends one tip at the end, leaving every other field as it was. |
| TipResponse.TipResponseDTOBuilder.Status | src/main/java/com/soften/support/gemini_resumo/models/dtos/TipResponseDto.java:67-70 | Sets `status` alone and returns the same builder. |
| TipResponse.TipResponseDTOBuilder.Build | src/main/java/com/soften/support/gemini_resumo/models/dtos/TipResponseDto.java:72-82 | The record holds exactly the builder's seven current fields. |
| CalledService.EntityToSave | src/main/java/com/soften/support/gemini_resumo/service/CalledService.java:31-37 | The new entity has no id and carries the record's problem, solution, upsell, prints flag, mood and module. |
| CalledService.SaveCall | src/main/java/com/soften/support/gemini_resumo/service/CalledService.java:28-40 | The repository saves the entity built from the extracted fields, and its answer is returned. |
| CalledService.SavedEntityHoldsSummary | src/main/java/com/soften/support/gemini_resumo/service/CalledService.java:28-38 | The saved texts are the trimmed extractions under their markers, the mood is `mapMood` of the humour field, and the module is `ModuleMapper.map` of the module field. |
| CalledService.ModuleDetected | src/main/java/com/soften/support/gemini_resumo/service/CalledService.java:82-83 | The module's name, or "GENERIC" for `null`. |
| CalledService.CreateResponseWithoutHistory | src/main/java/com/soften/support/gemini_resumo/service/CalledService.java:95-110 | The builder chain yields the `NO_HISTORY` response: counts 0, three fixed tips. |
| CalledService.CreateResponseWithHistoryWithoutSimilarity | src/main/java/com/soften/support/gemini_resumo/service/CalledService.java:112-127 | The builder chain yields the `NO_SIMILARITY` response: the total count, 0 solutions, three tips naming the count. |
| CalledService.CreateErrorResponse | src/main/java/com/soften/support/gemini_resumo/service/CalledService.java:129-134 | The builder chain yields only the status "ERROR: " + message (or "null") and one tip. |
| CalledService.BuildSearchModules | src/main/java/com/soften/support/gemini_resumo/service/CalledService.java:51-55 | The search list is the detected module then `GENERIC`, or `GENERIC` alone. |
| CalledService.SolutionsOf | src/main/java/com/soften/support/gemini_resumo/service/CalledService.java:72-75 | There are at most as many solutions as cases. |
| CalledService.SolutionsOfMembers | src/main/java/com/soften/support/gemini_resumo/service/CalledService.java:72-75 | A string is among the solutions if and only if some case has it as a solution with text. |
| CalledService.ProcessFullTip | src/main/java/com/soften/support/gemini_resumo/service/CalledService.java:46-93 | The method, stepping through the pipeline and the builder, computes exactly `FullTip`. |
| CalledService.CreateSuccessResponse | src/main/java/com/soften/support/gemini_resumo/service/CalledService.java:79-88 | The builder chain yields the `SUCESS` response with the counts and the tips. |
| CalledService.FullTipSummaryFails | src/main/java/com/soften/support/gemini_resumo/service/CalledService.java:90-92 | A failing summary gives the error response: status "ERROR: " + message, one tip, every other field `null`. |
| CalledService.FullTipSummarised | src/main/java/com/soften/support/gemini_resumo/service/CalledService.java:48-49 | Otherwise the pipeline continues with the record built from the summary. |
| CalledService.LookupFails | src/main/java/com/soften/support/gemini_resumo/service/CalledService.java:57 | A failing repository lookup gives the error response with its message. |
| CalledService.NoHistory | src/main/java/com/soften/support/gemini_resumo/service/CalledService.java:59-61 | No related cases: `NO_HISTORY`, counts 0, the three fixed tips, and no model consulted. |
| CalledService.NoSimilarity | src/main/java/com/soften/support/gemini_resumo/service/CalledService.java:68-70 | Related cases but an empty filter: `NO_SIMILARITY` with the related count. |
| CalledService.Success | src/main/java/com/soften/support/gemini_resumo/service/CalledService.java:72-88 | A non-empty filter: `SUCESS`, the related count, the solution count, and the non-empty tip list for those solutions. |
| CalledService.Statuses | src/main/java/com/soften/support/gemini_resumo/service/CalledService.java:59-134 | The status is always one of the three outcome tags, or starts with "ERROR: ". |
| CalledService.SuccessOnlyWhenSimilarityFails | src/main/java/com/soften/support/gemini_resumo/service/CalledService.java:63-88 | `SUCESS` implies related cases, a non-blank problem, and a failed similarity call; the solutions counted are those of the first min(n, 3) cases. |
| DocumentationLoader.StripNumber | src/main/java/com/soften/support/gemini_resumo/bootstrap/DocumentationLoader.java:84 | `replaceFirst("^\\d+\\.\\s", "")` drops the digits, the dot and the one space. |
| DocumentationLoader.ClassifyShape | src/main/java/com/soften/support/gemini_resumo/bootstrap/DocumentationLoader.java:62-85 | A blank line is skipped. A line is a header if and only if its trim starts and ends with "===", and it then names a section that is trimmed and has no "=". A line becomes a document if and only if it is non-blank, not a header and not an instruction. Its text is non-empty and trimmed, and equals the trimmed line when it is not a numbered item. |
| DocumentationLoader.RemoveCharKeeps | src/main/java/com/soften/support/gemini_resumo/bootstrap/DocumentationLoader.java:68 | A section name has no "=" left after `replace("=", "").trim()`. |
| DocumentationLoader.NumberedRestHasText | src/main/java/com/soften/support/gemini_resumo/bootstrap/DocumentationLoader.java:83-85 | Stripping the number of a trimmed numbered line leaves text. |
| DocumentationLoader.LoadFile | src/main/java/com/soften/support/gemini_resumo/bootstrap/DocumentationLoader.java:60-93 | The line loop with its `continue`s computes exactly `RunLines` from the current documents and section. |
| DocumentationLoader.LoadDocuments | src/main/java/com/soften/support/gemini_resumo/bootstrap/DocumentationLoader.java:30-31 | Starting from no documents and section "GERAL", the file loop of lines 56-95 computes `RunFiles`. |
| DocumentationLoader.RunLinesAppend | src/main/java/com/soften/support/gemini_resumo/bootstrap/DocumentationLoader.java:61-93 | Reading `a + b` is reading `a`, then `b` from the state `a` left. |
| DocumentationLoader.FilesAreConcatenatedLines | src/main/java/com/soften/support/gemini_resumo/bootstrap/DocumentationLoader.java:56-95 | The section carries over between files: loading the files is loading their concatenated lines. |
| DocumentationLoader.ApplyKeepsGood | src/main/java/com/soften/support/gemini_resumo/bootstrap/DocumentationLoader.java:67-92 | Applying a well-formed action keeps the section a proper name and every document well-formed. |
| DocumentationLoader.ApplyGrows | src/main/java/com/soften/support/gemini_resumo/bootstrap/DocumentationLoader.java:92 | One line adds at most one document and never changes the earlier ones. |
| DocumentationLoader.StepKeepsGood | src/main/java/com/soften/support/gemini_resumo/bootstrap/DocumentationLoader.java:61-93 | One line keeps the section a proper name and every document well-formed. |
| DocumentationLoader.RunLinesKeepsGood | src/main/java/com/soften/support/gemini_resumo/bootstrap/DocumentationLoader.java:61-93 | So does any sequence of lines. |
| DocumentationLoader.LoadedDocumentsWellFormed | src/main/java/com/soften/support/gemini_resumo/bootstrap/DocumentationLoader.java:56-95 | Loading gives at most one document per line, each with non-empty trimmed content equal to its title, type "documentacao_oficial", and a section name. |
| DocumentationLoader.RunLinesCount | src/main/java/com/soften/support/gemini_resumo/bootstrap/DocumentationLoader.java:61-93 | The list only grows, by at most one document per line, and keeps its prefix. |
| DocumentationLoader.HeaderTagsFollowingLine | src/main/java/com/soften/support/gemini_resumo/bootstrap/DocumentationLoader.java:67-92 | A header followed by a content line adds one document whose category is the header's section name. |
| Numbers.ParseLongOfDecimal | src/main/java/com/soften/support/gemini_resumo/service/SuggestionService.java:161 | `Long.parseLong` reads back every `long` from its decimal rendering. |
| Numbers.ParseLong | src/main/java/com/soften/support/gemini_resumo/service/SuggestionService.java:161 | A parsed value is in the `long` range and its text starts with a digit or a sign. |
| Text.Trim | src/main/java/com/soften/support/gemini_resumo/bootstrap/DocumentationLoader.java:62 | `trim` leaves no character up to U+0020 at either end and never lengthens. |
| Text.TrimOfTrimmed | src/main/java/com/soften/support/gemini_resumo/service/SummaryService.java:39-41 | Trimming a trimmed text changes nothing, so the second `trim` of an extracted field is harmless. |
| Text.SplitJoin | src/main/java/com/soften/support/gemini_resumo/service/SuggestionService.java:157 | `split` on a one-character separator undoes `join` when no part contains the separator and the last part is non-empty. |
| Text.UpperOfLower | src/main/java/com/soften/support/gemini_resumo/utils/ModuleMapper.java:10 | Upper-casing after lower-casing is upper-casing. |

## Left out

- The generative model, the HTTP client and the wording of the prompts are left out. A prompt is modelled as the data it carries: the current problem, the ids, the truncated problems and the truncated solutions.
- `ask`, `generate` and `find` are modelled as deterministic functions of their input. On the success path `ask` is called twice, by the similarity filter and by the tip list, but with two distinct prompts, so a function of the prompt constrains nothing beyond what two independent calls would.
- A `null` answer from the model is folded into the two outcomes. In the similarity filter it behaves like a successful answer, giving an empty id list and an empty result. In the tip list it throws, as a failure does, and takes the catch branch.
- `generateSummaryWithoutSaving` is `CreateDtoSummary`; it is not modelled separately.
- `CalledEntity` is modelled as a value, not a JPA entity. Its setters are left out, and the null checks on `formatSummary.modules()` and `summaryDto.module()` are dead code, because `ModuleMapper.map` never returns `null`.
- Java's Unicode case mapping is left out. `toUpperCase`/`toLowerCase` map ASCII letters and the five accented letters the core compares (ô, ç, ã, ó, é); other characters are unchanged.
- UTF-16 lengths are left out. `length()`, `substring` and the "more than 100 characters" test count Dafny characters, which differ for supplementary characters.
- Regex `\d` is ASCII digits only, as in Java's default mode.
- ParseLong: accepts only the ASCII digits `0`-`9`. `Long.parseLong` reads digits with `Character.digit`, which also accepts other Unicode decimal digits (Arabic-Indic, fullwidth and so on); the model rejects those. No parsed id can match a case anyway (`SuggestionService.FilterAnsweredIsEmpty`).
- AddTips: always appends. Java's `addTips` calls `add` on the current list, which throws `UnsupportedOperationException` when that list came from `tips(List.of(...))`; the throw is not modelled. No path of the core calls `addTips`.
- Aliasing of the mutable tips list is left out: lists are values.
- `DocumentationLoader.LoadDocuments`: the random id that Spring AI generates for each `Document` is not part of `Document` here. File reading (`readLine`), the classpath resource lookup and its empty case (lines 33-38), the existence check against the vector store (lines 41-54), and the final `vectorStore.add` (lines 97-109) are left out. Each file is given as its sequence of lines, and the document list is a sequence rather than an `ArrayList`.
- The console output of every class is left out.
