/**
 * `CalledService`: storing a summarised support case, and the full-tip
 * pipeline that summarises a case, looks up earlier cases of the same
 * module, filters them by similarity and turns their solutions into tips.
 * The pipeline ends in one of four outcomes: `NO_HISTORY`,
 * `NO_SIMILARITY`, `SUCESS` (the code's spelling) or `ERROR: ` and the
 * exception's message.
 */
module CalledService {
  import opened Text
  import opened Numbers
  import opened Entities
  import opened SummaryService
  import opened SuggestionService
  import opened TipResponse

  // ----- SaveCall ------------------------------------------------------------

  /** The entity `SaveCall` hands to the repository: a new entity with the six extracted fields copied in. */
  function EntityToSave(format: FormatSummary): (e: CalledEntity)
    ensures e.id.None?
    ensures e.problem == Some(format.problem) && e.solution == Some(format.solution) && e.upsell == Some(format.upsell)
    ensures e.prints == format.prints
    ensures e.moodClient == Some(format.mood) && e.modulesCalled == Some(format.modules)
  {
    NewCalledEntity().(problem := Some(format.problem), solution := Some(format.solution),
                       upsell := Some(format.upsell), prints := format.prints,
                       moodClient := Some(format.mood), modulesCalled := Some(format.modules))
  }

  /**
   * `SaveCall`: extract the fields of the summary, set them one by one on a
   * new entity, and return what the repository's `save` returns for it.
   */
  method SaveCall(summary: string, save: CalledEntity -> Outcome<CalledEntity>) returns (r: Outcome<CalledEntity>)
    ensures r == save(EntityToSave(ExtractFieldsFromSummary(summary)))
  {
    var format := ExtractFieldsFromSummary(summary);
    var entity := NewCalledEntity();
    entity := entity.(problem := Some(format.problem));
    entity := entity.(solution := Some(format.solution));
    entity := entity.(upsell := Some(format.upsell));
    entity := entity.(prints := format.prints);
    entity := entity.(moodClient := Some(format.mood));
    entity := entity.(modulesCalled := Some(format.modules));
    r := save(entity);
  }

  /** The stored case carries the summary's fields as extracted, with the problem, solution and upsell trimmed. */
  lemma SavedEntityHoldsSummary(summary: string)
    ensures var e := EntityToSave(ExtractFieldsFromSummary(summary));
            && e.problem == Some(ExtractField(summary, ProblemMarker))
            && e.solution == Some(ExtractField(summary, SolutionMarker))
            && e.upsell == Some(ExtractField(summary, UpsellMarker))
            && e.moodClient == Some(MapMood(ExtractField(summary, HumorMarker)))
            && e.modulesCalled == Some(ModuleMapper.Map(Some(ExtractField(summary, ModuleMarker))))
            && IsTrimmed(e.problem.value) && IsTrimmed(e.solution.value) && IsTrimmed(e.upsell.value)
  {
  }

  // ----- the fixed responses -------------------------------------------------

  const NoHistoryStatus: string := "NO_HISTORY"
  const NoSimilarityStatus: string := "NO_SIMILARITY"
  const SuccessStatus: string := "SUCESS"
  const ErrorStatusPrefix: string := "ERROR: "

  const NoHistoryTip: string := "Não foram encontrados chamados históricos relacionados a este módulo."
  const CategorizedTip: string := "O problema foi analisado e categorizado automaticamente."
  const SeeSummaryTip: string := "Consulte a solução apresentada no resumo para verificar os passos recomendados."
  const UniqueProblemTip: string := "O problema parece ser específico ou com características únicas."
  const ErrorTip: string := "Não foi possível processar as dicas no momento."

  /** The first tip when earlier cases exist but none is similar; it reports their number. */
  function NoSimilarityTip(totalCalls: int): string {
    "Foram encontrados " + IntToDecimal(totalCalls) + " chamados no módulo, mas nenhum com problema similar."
  }

  /** `module != null ? module.name() : "GENERIC"`. */
  function ModuleDetected(m: Option<ModulesCalled>): (r: string)
    ensures r == (if m.Some? then m.value else GENERIC).Name()
  {
    if m.Some? then m.value.Name() else "GENERIC"
  }

  /** What Java's string concatenation prints for a message that may be `null`. */
  function MessageText(message: Option<string>): string {
    if message.Some? then message.value else "null"
  }

  /** The response `createResponseWithoutHistory` builds. */
  function WithoutHistoryResponse(dto: SummaryDto): TipResponseDto {
    TipResponseDto(Some(dto), Some(dto.problem), Some(ModuleDetected(Some(dto.moduleCalled))), Some(0), Some(0),
                   [NoHistoryTip, CategorizedTip, SeeSummaryTip], Some(NoHistoryStatus))
  }

  /** The response `createResponseWithHistoryWithoutSimilarity` builds. */
  function WithoutSimilarityResponse(dto: SummaryDto, totalCalls: int): TipResponseDto {
    TipResponseDto(Some(dto), Some(dto.problem), Some(ModuleDetected(Some(dto.moduleCalled))), Some(totalCalls), Some(0),
                   [NoSimilarityTip(totalCalls), UniqueProblemTip, SeeSummaryTip], Some(NoSimilarityStatus))
  }

  /** The response `createErrorResponse` builds: only a status and one tip. */
  function ErrorResponse(message: Option<string>): TipResponseDto {
    EmptyResponse.(tips := [ErrorTip], status := Some(ErrorStatusPrefix + MessageText(message)))
  }

  /** The response at the end of the main path of `processFullTip`. */
  function SuccessResponse(dto: SummaryDto, totalCalls: int, solutions: seq<string>, tips: seq<string>): TipResponseDto {
    var format := dto.formatSummary;
    TipResponseDto(Some(dto), Some(format.problem), Some(ModuleDetected(Some(format.modules))), Some(totalCalls),
                   Some(|solutions|), tips, Some(SuccessStatus))
  }

  /** `createResponseWithoutHistory`, through the builder. */
  method CreateResponseWithoutHistory(dto: SummaryDto) returns (r: TipResponseDto)
    ensures r == WithoutHistoryResponse(dto)
  {
    var b := new TipResponseDTOBuilder();
    b := b.Summary(Some(dto));
    b := b.ProblemDetected(Some(dto.problem));
    b := b.ModuleDetected(Some(ModuleDetected(Some(dto.moduleCalled))));
    b := b.SimilarTagsFound(Some(0));
    b := b.SolutionsAnalyzed(Some(0));
    b := b.Tips(Some([NoHistoryTip, CategorizedTip, SeeSummaryTip]));
    b := b.Status(Some(NoHistoryStatus));
    r := b.Build();
  }

  /** `createResponseWithHistoryWithoutSimilarity`, through the builder. */
  method CreateResponseWithHistoryWithoutSimilarity(dto: SummaryDto, totalCalls: int) returns (r: TipResponseDto)
    ensures r == WithoutSimilarityResponse(dto, totalCalls)
  {
    var b := new TipResponseDTOBuilder();
    b := b.Summary(Some(dto));
    b := b.ProblemDetected(Some(dto.problem));
    b := b.ModuleDetected(Some(ModuleDetected(Some(dto.moduleCalled))));
    b := b.SimilarTagsFound(Some(totalCalls));
    b := b.SolutionsAnalyzed(Some(0));
    b := b.Tips(Some([NoSimilarityTip(totalCalls), UniqueProblemTip, SeeSummaryTip]));
    b := b.Status(Some(NoSimilarityStatus));
    r := b.Build();
  }

  /** `createErrorResponse`, through the builder: the status is set before the tips, and nothing else is. */
  method CreateErrorResponse(message: Option<string>) returns (r: TipResponseDto)
    ensures r == ErrorResponse(message)
  {
    var b := new TipResponseDTOBuilder();
    b := b.Status(Some(ErrorStatusPrefix + MessageText(message)));
    b := b.Tips(Some([ErrorTip]));
    r := b.Build();
  }

  // ----- processFullTip -------------------------------------------------------

  /** The `SearchModules` list: the detected module when there is one, then `GENERIC`. */
  method BuildSearchModules(detected: Option<ModulesCalled>) returns (r: seq<ModulesCalled>)
    ensures detected.Some? ==> r == [detected.value, GENERIC]
    ensures detected.None? ==> r == [GENERIC]
  {
    r := [];
    if detected.Some? {
      r := r + [detected.value];
    }
    r := r + [GENERIC];
  }

  /** The solutions of the filtered cases that have text, in order (`map(getSolution).filter(hasText)`). */
  function SolutionsOf(calls: seq<CalledEntity>): (r: seq<string>)
    decreases |calls|
    ensures |r| <= |calls|
  {
    if calls == [] then []
    else
      var c := calls[|calls| - 1];
      SolutionsOf(calls[..|calls| - 1]) + (if HasText(c.solution) then [c.solution.value] else [])
  }

  /** Exactly the solutions that have text are kept, each as written. */
  lemma {:induction false} SolutionsOfMembers(calls: seq<CalledEntity>)
    ensures forall s :: s in SolutionsOf(calls) <==> exists i :: 0 <= i < |calls| && calls[i].solution == Some(s) && !IsBlank(s)
    decreases |calls|
  {
    if calls != [] {
      var n := |calls| - 1;
      var init := calls[..n];
      SolutionsOfMembers(init);
      assert SolutionsOf(calls) == SolutionsOf(init) + (if HasText(calls[n].solution) then [calls[n].solution.value] else []);
      forall s | s in SolutionsOf(calls)
        ensures exists i :: 0 <= i < |calls| && calls[i].solution == Some(s) && !IsBlank(s)
      {
        if s in SolutionsOf(init) {
          var i :| 0 <= i < n && init[i].solution == Some(s) && !IsBlank(s);
          assert calls[i] == init[i];
        } else {
          assert calls[n].solution == Some(s) && !IsBlank(s);
        }
      }
      forall s | exists i :: 0 <= i < |calls| && calls[i].solution == Some(s) && !IsBlank(s)
        ensures s in SolutionsOf(calls)
      {
        var i :| 0 <= i < |calls| && calls[i].solution == Some(s) && !IsBlank(s);
        if i < n {
          assert init[i] == calls[i];
          assert s in SolutionsOf(init);
        }
      }
    }
  }

  /**
   * `processFullTip`: the summary, then the rest of the pipeline on it; a
   * failure of the summary model gives the error response.
   */
  function FullTip(textCalled: string, generate: string -> Outcome<string>,
                   find: seq<ModulesCalled> -> Outcome<seq<CalledEntity>>,
                   ask: Prompt -> Outcome<string>): TipResponseDto
  {
    match CreateDtoSummary(textCalled, generate)
    case Fail(m) => ErrorResponse(m)
    case Ok(dto) => TipForSummary(dto, find, ask)
  }

  /** The earlier cases of the summary's module or generic ones; a failed lookup gives the error response. */
  function TipForSummary(dto: SummaryDto, find: seq<ModulesCalled> -> Outcome<seq<CalledEntity>>,
                         ask: Prompt -> Outcome<string>): TipResponseDto
  {
    match find([dto.formatSummary.modules, GENERIC])
    case Fail(m) => ErrorResponse(m)
    case Ok(related) => TipForCases(dto, related, ask)
  }

  /**
   * No earlier case gives `NO_HISTORY`; no similar case gives
   * `NO_SIMILARITY`; otherwise the tips drawn from the similar cases'
   * solutions, with status `SUCESS`.
   */
  function TipForCases(dto: SummaryDto, related: seq<CalledEntity>, ask: Prompt -> Outcome<string>): TipResponseDto {
    var format := dto.formatSummary;
    if related == [] then WithoutHistoryResponse(dto)
    else
      var filtered := FilterCallsBySimilarity(Some(related), Some(format.problem), ask);
      if filtered == [] then WithoutSimilarityResponse(dto, |related|)
      else
        var solutions := SolutionsOf(filtered);
        SuccessResponse(dto, |related|, solutions, TipsList(Some(solutions), format.problem, ask))
  }

  /** `processFullTip` as written: each step in turn, the responses assembled through the builder. */
  method ProcessFullTip(textCalled: string, generate: string -> Outcome<string>,
                        find: seq<ModulesCalled> -> Outcome<seq<CalledEntity>>,
                        ask: Prompt -> Outcome<string>) returns (r: TipResponseDto)
    ensures r == FullTip(textCalled, generate, find, ask)
  {
    var summary := CreateDtoSummary(textCalled, generate);
    if summary.Fail? {
      r := CreateErrorResponse(summary.message);
      return;
    }
    var dto := summary.value;
    var format := dto.formatSummary;
    var searchModules := BuildSearchModules(Some(format.modules));
    var relatedCalls := find(searchModules);
    if relatedCalls.Fail? {
      r := CreateErrorResponse(relatedCalls.message);
      return;
    }
    var related := relatedCalls.value;
    if |related| == 0 {
      r := CreateResponseWithoutHistory(dto);
      return;
    }
    var filtered := FilterCallsBySimilarity(Some(related), Some(format.problem), ask);
    if |filtered| == 0 {
      r := CreateResponseWithHistoryWithoutSimilarity(dto, |related|);
      return;
    }
    var solutions := SolutionsOf(filtered);
    var tips := GenerateResolutionTipsList(Some(solutions), format.problem, ask);
    r := CreateSuccessResponse(dto, |related|, solutions, tips);
  }

  /** The success response of `processFullTip`, through the builder. */
  method CreateSuccessResponse(dto: SummaryDto, totalCalls: int, solutions: seq<string>, tips: seq<string>)
    returns (r: TipResponseDto)
    ensures r == SuccessResponse(dto, totalCalls, solutions, tips)
  {
    var format := dto.formatSummary;
    var b := new TipResponseDTOBuilder();
    b := b.Summary(Some(dto));
    b := b.ProblemDetected(Some(format.problem));
    b := b.ModuleDetected(Some(ModuleDetected(Some(format.modules))));
    b := b.SimilarTagsFound(Some(totalCalls));
    b := b.SolutionsAnalyzed(Some(|solutions|));
    b := b.Tips(Some(tips));
    b := b.Status(Some(SuccessStatus));
    r := b.Build();
  }

  // ----- the four outcomes ------------------------------------------------------

  /** A failing summary model gives the error response: its message in the status, one tip, nothing else. */
  lemma FullTipSummaryFails(textCalled: string, generate: string -> Outcome<string>,
                            find: seq<ModulesCalled> -> Outcome<seq<CalledEntity>>, ask: Prompt -> Outcome<string>)
    requires generate(textCalled).Fail?
    ensures var r := FullTip(textCalled, generate, find, ask);
            && r.status == Some("ERROR: " + MessageText(generate(textCalled).message))
            && r.tips == [ErrorTip]
            && r.summary.None? && r.problemDetected.None? && r.moduleDetected.None?
            && r.similarTagsFound.None? && r.solutionsAnalyzed.None?
  {
  }

  /**
   * When the summary model answers, the rest of the pipeline works on the
   * summary of its text, whose module and problem are those extracted
   * from it.
   */
  lemma FullTipSummarised(textCalled: string, generate: string -> Outcome<string>,
                          find: seq<ModulesCalled> -> Outcome<seq<CalledEntity>>, ask: Prompt -> Outcome<string>)
    requires generate(textCalled).Ok?
    ensures var summary := generate(textCalled).value;
            var dto := CreateDtoSummary(textCalled, generate).value;
            && FullTip(textCalled, generate, find, ask) == TipForSummary(dto, find, ask)
            && dto.fullSummary == summary
            && dto.formatSummary == ExtractFieldsFromSummary(summary)
            && dto.moduleCalled == dto.formatSummary.modules && dto.problem == dto.formatSummary.problem
  {
  }

  /** The lookup is asked for the summary's module and `GENERIC`; if it fails, the error response carries its message. */
  lemma LookupFails(dto: SummaryDto, find: seq<ModulesCalled> -> Outcome<seq<CalledEntity>>, ask: Prompt -> Outcome<string>)
    requires find([dto.formatSummary.modules, GENERIC]).Fail?
    ensures var r := TipForSummary(dto, find, ask);
            && r.status == Some("ERROR: " + MessageText(find([dto.formatSummary.modules, GENERIC]).message))
            && r.tips == [ErrorTip]
            && r.summary.None? && r.problemDetected.None? && r.moduleDetected.None?
            && r.similarTagsFound.None? && r.solutionsAnalyzed.None?
  {
  }

  /**
   * No earlier case gives `NO_HISTORY` with zero counts, the three fixed
   * tips and the summary's problem and module; neither the similarity
   * filter nor the tip generator is consulted, so the model makes no
   * difference.
   */
  lemma NoHistory(dto: SummaryDto, ask1: Prompt -> Outcome<string>, ask2: Prompt -> Outcome<string>)
    ensures var r := TipForCases(dto, [], ask1);
            && r == TipForCases(dto, [], ask2)
            && r.status == Some(NoHistoryStatus)
            && r.similarTagsFound == Some(0) && r.solutionsAnalyzed == Some(0)
            && r.tips == [NoHistoryTip, CategorizedTip, SeeSummaryTip]
            && r.summary == Some(dto) && r.problemDetected == Some(dto.problem)
            && r.moduleDetected == Some(dto.moduleCalled.Name())
  {
  }

  /**
   * Earlier cases but no similar one gives `NO_SIMILARITY`: their number
   * is reported as found and in the first of three tips, and no solution
   * is analysed.
   */
  lemma NoSimilarity(dto: SummaryDto, related: seq<CalledEntity>, ask: Prompt -> Outcome<string>)
    requires related != []
    requires FilterCallsBySimilarity(Some(related), Some(dto.formatSummary.problem), ask) == []
    ensures var r := TipForCases(dto, related, ask);
            && r.status == Some(NoSimilarityStatus)
            && r.similarTagsFound == Some(|related|) && r.solutionsAnalyzed == Some(0)
            && |r.tips| == 3
            && r.tips[0] == "Foram encontrados " + IntToDecimal(|related|) + " chamados no módulo, mas nenhum com problema similar."
            && r.summary == Some(dto) && r.problemDetected == Some(dto.problem)
  {
  }

  /**
   * Similar cases give `SUCESS`: the number of earlier cases is reported
   * as found, the number of similar cases with solution text as analysed,
   * and the tips are the generator's on exactly those solutions; the list
   * is never empty.
   */
  lemma Success(dto: SummaryDto, related: seq<CalledEntity>, ask: Prompt -> Outcome<string>)
    requires related != []
    requires FilterCallsBySimilarity(Some(related), Some(dto.formatSummary.problem), ask) != []
    ensures var r := TipForCases(dto, related, ask);
            var problem := dto.formatSummary.problem;
            var solutions := SolutionsOf(FilterCallsBySimilarity(Some(related), Some(problem), ask));
            && r.status == Some(SuccessStatus)
            && r.similarTagsFound == Some(|related|)
            && r.solutionsAnalyzed == Some(|solutions|)
            && r.tips == TipsList(Some(solutions), problem, ask)
            && r.tips != []
            && r.problemDetected == Some(problem)
            && r.moduleDetected == Some(dto.formatSummary.modules.Name())
  {
  }

  /** Every response carries one of the four statuses. */
  lemma Statuses(dto: SummaryDto, related: seq<CalledEntity>, message: Option<string>, ask: Prompt -> Outcome<string>)
    ensures var s := TipForCases(dto, related, ask).status;
            s.Some? && (s.value == NoHistoryStatus || s.value == NoSimilarityStatus || s.value == SuccessStatus)
    ensures StartsWith(ErrorResponse(message).status.value, ErrorStatusPrefix)
  {
    var e := ErrorResponse(message).status.value;
    assert e[..|ErrorStatusPrefix|] == ErrorStatusPrefix;
  }

  /**
   * Because the filter compares `Long` ids with `UUID` ids, a model that
   * answers never selects a case; `SUCESS` therefore happens only when the
   * similarity call fails and the filter falls back to the first three
   * earlier cases, whatever they are.
   */
  lemma SuccessOnlyWhenSimilarityFails(dto: SummaryDto, related: seq<CalledEntity>, ask: Prompt -> Outcome<string>)
    requires TipForCases(dto, related, ask).status == Some(SuccessStatus)
    ensures var problem := dto.formatSummary.problem;
            && related != [] && !IsBlank(problem)
            && ask(ComparisonPromptOf(CandidatesForAnalysis(related), problem)).Fail?
            && TipForCases(dto, related, ask).solutionsAnalyzed == Some(|SolutionsOf(related[..Min(|related|, 3)])|)
  {
    var problem := dto.formatSummary.problem;
    if ask(ComparisonPromptOf(CandidatesForAnalysis(related), problem)).Ok? {
      FilterAnsweredIsEmpty(related, problem, ask);
    }
  }
}
