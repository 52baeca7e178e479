/**
 * The answer of the full-tip pipeline, `TipResponseDto`, and the mutable
 * builder every response is assembled with.
 */
module TipResponse {
  import opened Text
  import opened Entities

  /**
   * The response record. Every field but the tip list may be `null`; the
   * builder never leaves `tips` null, so it is a plain sequence here.
   */
  datatype TipResponseDto = TipResponseDto(
    summary: Option<SummaryDto>,
    problemDetected: Option<string>,
    moduleDetected: Option<string>,
    similarTagsFound: Option<int>,
    solutionsAnalyzed: Option<int>,
    tips: seq<string>,
    status: Option<string>)

  /** What a fresh builder holds: no tips and `null` everywhere else. */
  const EmptyResponse: TipResponseDto := TipResponseDto(None, None, None, None, None, [], None)

  /** `TipResponseDto.TipResponseDTOBuilder`: seven fields set one call at a time, then copied out by `Build`. */
  class TipResponseDTOBuilder {
    var summary: Option<SummaryDto>
    var problemDetected: Option<string>
    var moduleDetected: Option<string>
    var similarTagsFound: Option<int>
    var solutionsAnalyzed: Option<int>
    var tips: seq<string>
    var status: Option<string>

    /** The builder's current fields, as the record `Build` would make of them. */
    function Fields(): TipResponseDto
      reads this
    {
      TipResponseDto(summary, problemDetected, moduleDetected, similarTagsFound, solutionsAnalyzed, tips, status)
    }

    /** `new TipResponseDTOBuilder()` (also `TipResponseDto.builder()`): an empty tip list, every other field `null`. */
    constructor()
      ensures Fields() == EmptyResponse
    {
      summary := None;
      problemDetected := None;
      moduleDetected := None;
      similarTagsFound := None;
      solutionsAnalyzed := None;
      tips := [];
      status := None;
    }

    method Summary(s: Option<SummaryDto>) returns (b: TipResponseDTOBuilder)
      modifies this
      ensures b == this && Fields() == old(Fields()).(summary := s)
    {
      summary := s;
      b := this;
    }

    method ProblemDetected(p: Option<string>) returns (b: TipResponseDTOBuilder)
      modifies this
      ensures b == this && Fields() == old(Fields()).(problemDetected := p)
    {
      problemDetected := p;
      b := this;
    }

    method ModuleDetected(m: Option<string>) returns (b: TipResponseDTOBuilder)
      modifies this
      ensures b == this && Fields() == old(Fields()).(moduleDetected := m)
    {
      moduleDetected := m;
      b := this;
    }

    method SimilarTagsFound(n: Option<int>) returns (b: TipResponseDTOBuilder)
      modifies this
      ensures b == this && Fields() == old(Fields()).(similarTagsFound := n)
    {
      similarTagsFound := n;
      b := this;
    }

    method SolutionsAnalyzed(n: Option<int>) returns (b: TipResponseDTOBuilder)
      modifies this
      ensures b == this && Fields() == old(Fields()).(solutionsAnalyzed := n)
    {
      solutionsAnalyzed := n;
      b := this;
    }

    /** `tips(list)`: the list replaces the current tips; `null` stores an empty list. */
    method Tips(list: Option<seq<string>>) returns (b: TipResponseDTOBuilder)
      modifies this
      ensures b == this && Fields() == old(Fields()).(tips := if list.Some? then list.value else [])
    {
      tips := if list.Some? then list.value else [];
      b := this;
    }

    /** `addTips(tip)`: the tip goes at the end of the current tips. */
    method AddTips(tip: string) returns (b: TipResponseDTOBuilder)
      modifies this
      ensures b == this && Fields() == old(Fields()).(tips := old(tips) + [tip])
    {
      tips := tips + [tip];
      b := this;
    }

    method Status(s: Option<string>) returns (b: TipResponseDTOBuilder)
      modifies this
      ensures b == this && Fields() == old(Fields()).(status := s)
    {
      status := s;
      b := this;
    }

    /** `build()`: a record whose seven fields are the builder's current ones. */
    method Build() returns (r: TipResponseDto)
      ensures r == Fields()
    {
      r := TipResponseDto(summary, problemDetected, moduleDetected, similarTagsFound, solutionsAnalyzed, tips, status);
    }
  }
}
