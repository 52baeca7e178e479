/**
 * `SuggestionService`: the two uses of the language model in the tip
 * pipeline. `filterCallsBySimilarity` asks the model which stored cases
 * resemble the current problem and keeps those; `generateResolutionTipsList`
 * asks it for tips from the stored solutions and falls back to a fixed list
 * when the answer holds none. The model is the parameter `ask`: it receives
 * the data a prompt carries (the wording is not modelled) and answers a
 * text, or fails.
 */
module SuggestionService {
  import opened Text
  import opened Numbers
  import opened Entities

  // ----- truncateText -----------------------------------------------------------

  /** `truncateText`: null reads as `""`; text longer than `maxLength` keeps its first `maxLength` characters and gains "...". */
  function TruncateText(text: Option<string>, maxLength: nat): (r: string)
    ensures text.None? ==> r == ""
    ensures text.Some? && |text.value| <= maxLength ==> r == text.value
    ensures text.Some? && |text.value| > maxLength ==>
              |r| == maxLength + 3 && r[..maxLength] == text.value[..maxLength] && r[maxLength..] == "..."
    ensures |r| <= maxLength + 3
  {
    if text.None? then ""
    else if |text.value| <= maxLength then text.value
    else text.value[..maxLength] + "..."
  }

  /** Truncating twice to the same length changes nothing more. */
  lemma TruncateTextIdempotent(text: Option<string>, maxLength: nat)
    ensures TruncateText(Some(TruncateText(text, maxLength)), maxLength) == TruncateText(text, maxLength)
  {
    var t := TruncateText(text, maxLength);
    if |t| > maxLength {
      assert t[..maxLength] + "..." == t;
    }
  }

  // ----- what the model is given --------------------------------------------

  /** One line of the comparison prompt: a stored case's identifier and its truncated problem. */
  datatype PromptEntry = PromptEntry(id: Option<Uuid>, problem: string)

  /** The data each prompt builder puts into its prompt, around fixed wording. */
  datatype Prompt =
    | Comparison(currentProblem: string, entries: seq<PromptEntry>)
    | TipsRequest(currentProblem: string, solutions: seq<string>)

  const MaxCandidates: nat := 50
  const CandidateProblemLength: nat := 150
  const MaxPromptSolutions: nat := 10
  const PromptSolutionLength: nat := 300

  /** The comparison prompt for a list of cases: each case's identifier and its problem cut to 150 characters, in list order. */
  function ComparisonPromptOf(called: seq<CalledEntity>, currentProblem: string): Prompt {
    Comparison(currentProblem, seq(|called|, i requires 0 <= i < |called| =>
      PromptEntry(called[i].id, TruncateText(called[i].problem, CandidateProblemLength))))
  }

  /** `createPromptComparisonProblems`: one entry appended per case. */
  method CreatePromptComparisonProblems(called: seq<CalledEntity>, currentProblem: string) returns (p: Prompt)
    ensures p == ComparisonPromptOf(called, currentProblem)
  {
    var entries: seq<PromptEntry> := [];
    for i := 0 to |called|
      invariant |entries| == i
      invariant forall j :: 0 <= j < i ==>
                  entries[j] == PromptEntry(called[j].id, TruncateText(called[j].problem, CandidateProblemLength))
    {
      entries := entries + [PromptEntry(called[i].id, TruncateText(called[i].problem, CandidateProblemLength))];
    }
    p := Comparison(currentProblem, entries);
  }

  /** The tips prompt: the first ten solutions, each cut to 300 characters, in order. */
  function TipsPromptOf(solutions: seq<string>, currentProblem: string): Prompt {
    var n := Min(|solutions|, MaxPromptSolutions);
    TipsRequest(currentProblem, seq(n, i requires 0 <= i < n => TruncateText(Some(solutions[i]), PromptSolutionLength)))
  }

  /** `createPromptGenerationTips`: one block appended per solution, for at most ten of them. */
  method CreatePromptGenerationTips(solutions: seq<string>, currentProblem: string) returns (p: Prompt)
    ensures p == TipsPromptOf(solutions, currentProblem)
  {
    var blocks: seq<string> := [];
    var n := Min(|solutions|, MaxPromptSolutions);
    for i := 0 to n
      invariant |blocks| == i
      invariant forall j :: 0 <= j < i ==> blocks[j] == TruncateText(Some(solutions[j]), PromptSolutionLength)
    {
      blocks := blocks + [TruncateText(Some(solutions[i]), PromptSolutionLength)];
    }
    p := TipsRequest(currentProblem, blocks);
  }

  /** A comparison prompt has one entry per case, with the case's identifier and at most 153 characters of its problem. */
  lemma ComparisonPromptBounded(called: seq<CalledEntity>, currentProblem: string)
    ensures var p := ComparisonPromptOf(called, currentProblem);
            && |p.entries| == |called|
            && forall i :: 0 <= i < |called| ==>
                 p.entries[i].id == called[i].id && |p.entries[i].problem| <= CandidateProblemLength + 3
  {
  }

  /** A tips prompt carries at most ten solutions of at most 303 characters each, the first ones of the list. */
  lemma TipsPromptBounded(solutions: seq<string>, currentProblem: string)
    ensures var p := TipsPromptOf(solutions, currentProblem);
            && |p.solutions| <= MaxPromptSolutions
            && |p.solutions| == Min(|solutions|, MaxPromptSolutions)
            && forall i :: 0 <= i < |p.solutions| ==>
                 |p.solutions[i]| <= PromptSolutionLength + 3
                 && (|solutions[i]| <= PromptSolutionLength ==> p.solutions[i] == solutions[i])
  {
  }

  // ----- extractSimilarIds ----------------------------------------------------------

  /** `String.equalsIgnoreCase` over the modelled case mapping. */
  predicate EqualsIgnoreCase(a: string, b: string) {
    ToUpperCase(a) == ToUpperCase(b)
  }

  /** The answer says that no case is similar (or says nothing). */
  predicate SaysNoneSimilar(response: Option<string>) {
    response.None? || IsBlank(response.value) || EqualsIgnoreCase(response.value, "NENHUM")
    || Contains(response.value, "nenhum")
  }

  /** The ids of the parts that `Long.parseLong` accepts after `trim`, in order; the others dropped. */
  function ParsedIds(parts: seq<string>): (r: seq<int>)
    decreases |parts|
    ensures |r| <= |parts|
    ensures forall i :: 0 <= i < |r| ==> InLongRange(r[i])
  {
    if parts == [] then []
    else
      var last := ParseLong(Trim(parts[|parts| - 1]));
      ParsedIds(parts[..|parts| - 1]) + (if last.Some? then [last.value] else [])
  }

  /** Each part is read on its own: the ids of two lists of parts are the ids of each, one after the other. */
  lemma {:induction false} ParsedIdsAppend(a: seq<string>, b: seq<string>)
    ensures ParsedIds(a + b) == ParsedIds(a) + ParsedIds(b)
    decreases |b|
  {
    if b == [] {
      assert a + b == a;
    } else {
      var b' := b[..|b| - 1];
      assert (a + b)[..|a + b| - 1] == a + b';
      assert (a + b)[|a + b| - 1] == b[|b| - 1];
      ParsedIdsAppend(a, b');
    }
  }

  /**
   * `extractSimilarIds`: nothing for a null, blank or "NENHUM" answer or one
   * containing "nenhum"; otherwise every white-space character removed, the
   * text split on commas, and each part read as a `long`.
   */
  function SimilarIds(response: Option<string>): (r: seq<int>)
    ensures SaysNoneSimilar(response) ==> r == []
    ensures forall i :: 0 <= i < |r| ==> InLongRange(r[i])
  {
    if SaysNoneSimilar(response) then []
    else ParsedIds(Split(RemoveRegexSpaces(response.value), ","))
  }

  /** `extractSimilarIds` as written: a loop over the comma-separated parts. */
  method ExtractSimilarIds(response: Option<string>) returns (ids: seq<int>)
    ensures ids == SimilarIds(response)
  {
    ids := [];
    if response.None? || IsBlank(response.value) || EqualsIgnoreCase(response.value, "NENHUM")
       || Contains(response.value, "nenhum")
    {
      return;
    }
    var clean := RemoveRegexSpaces(response.value);
    var parts := Split(clean, ",");
    for i := 0 to |parts|
      invariant ids == ParsedIds(parts[..i])
    {
      assert parts[..i + 1][..i] == parts[..i];
      var id := ParseLong(Trim(parts[i]));
      if id.Some? {
        ids := ids + [id.value];
      }
    }
    assert parts[..|parts|] == parts;
  }

  /** The decimal renderings of a list of ids. */
  function Renderings(xs: seq<int>): (r: seq<string>)
    ensures |r| == |xs|
  {
    seq(|xs|, i requires 0 <= i < |xs| => IntToDecimal(xs[i]))
  }

  lemma {:induction false} ParsedIdsOfRenderings(xs: seq<int>)
    requires forall i :: 0 <= i < |xs| ==> InLongRange(xs[i])
    ensures ParsedIds(Renderings(xs)) == xs
    decreases |xs|
  {
    if xs != [] {
      var n := |xs| - 1;
      assert xs[..n] + [xs[n]] == xs;
      var r := Renderings(xs);
      assert r[..n] == Renderings(xs[..n]);
      ParsedIdsOfRenderings(xs[..n]);
      ParseRendering(xs[n]);
    }
  }

  /** One rendered id reads back as itself. */
  lemma ParseRendering(x: int)
    requires InLongRange(x)
    ensures ParseLong(Trim(IntToDecimal(x))) == Some(x)
  {
    var d := IntToDecimal(x);
    TrimOfTrimmed(d);
    ParseLongOfDecimal(x);
  }

  /**
   * The id list is read back from an answer in the format the prompt asks
   * for: the ids written in decimal and separated by commas.
   */
  lemma SimilarIdsRoundTrip(xs: seq<int>)
    requires forall i :: 0 <= i < |xs| ==> InLongRange(xs[i])
    ensures SimilarIds(Some(Join(Renderings(xs), ","))) == xs
  {
    if xs == [] {
      // no ids give the empty answer, which is blank
      assert Join(Renderings(xs), ",") == "";
      return;
    }
    var parts := Renderings(xs);
    var s := Join(parts, ",");
    JoinCharacters(parts, ',');
    // the answer is none of the "no similar case" forms
    assert s[0] == '-' || IsDigit(s[0]);
    assert !IsBlank(s);
    assert ToUpperCase(s)[0] != 'N';
    assert !EqualsIgnoreCase(s, "NENHUM");
    MissingCharNotContained(s, "nenhum", 0);
    // no white space to remove, and the commas split it back into the renderings
    assert RemoveRegexSpaces(s) == s;
    forall i | 0 <= i < |parts| ensures ',' !in parts[i] {
      assert forall j :: 0 <= j < |parts[i]| ==> parts[i][j] != ',';
    }
    SplitJoin(parts, ',');
    ParsedIdsOfRenderings(xs);
  }

  /** The characters of the joined renderings: digits, '-' and the separator, starting with a digit or '-'. */
  lemma {:induction false} JoinCharacters(parts: seq<string>, c: char)
    requires |parts| >= 1
    requires forall i :: 0 <= i < |parts| ==> parts[i] != [] && parts[i][0] != c
    requires forall i, j :: 0 <= i < |parts| && 0 <= j < |parts[i]| ==> IsDigit(parts[i][j]) || parts[i][j] == '-'
    ensures var s := Join(parts, [c]);
            |s| >= 1 && s[0] == parts[0][0]
            && forall k :: 0 <= k < |s| ==> IsDigit(s[k]) || s[k] == '-' || s[k] == c
    decreases |parts|
  {
    if |parts| > 1 {
      JoinCharacters(parts[1..], c);
      var s := Join(parts, [c]);
      var rest := Join(parts[1..], [c]);
      assert s == parts[0] + [c] + rest;
      forall k | 0 <= k < |s| ensures IsDigit(s[k]) || s[k] == '-' || s[k] == c {
        if k < |parts[0]| {
          assert s[k] == parts[0][k];
        } else if k > |parts[0]| {
          assert s[k] == rest[k - |parts[0]| - 1];
        }
      }
    }
  }

  // ----- filterCallsBySimilarity ------------------------------------------------------

  /** A Java object as `equals` sees it: a boxed `Long` never equals a `UUID`. */
  datatype JavaObject = JLong(longValue: int) | JUuid(uuidValue: Uuid)

  /** The parsed ids as the `List<Long>` holds them. */
  function Boxed(ids: seq<int>): (r: seq<JavaObject>)
    ensures |r| == |ids| && forall i :: 0 <= i < |r| ==> r[i].JLong?
  {
    seq(|ids|, i requires 0 <= i < |ids| => JLong(ids[i]))
  }

  /** The stream filter's test: `c.getId() != null && idsSimilar.contains(c.getId())`. */
  predicate IsSimilar(c: CalledEntity, ids: seq<int>) {
    c.id.Some? && JUuid(c.id.value) in Boxed(ids)
  }

  /** The cases that pass the filter, in their order. */
  function SelectSimilar(cs: seq<CalledEntity>, ids: seq<int>): (r: seq<CalledEntity>)
    decreases |cs|
    ensures |r| <= |cs|
  {
    if cs == [] then []
    else SelectSimilar(cs[..|cs| - 1], ids) + (if IsSimilar(cs[|cs| - 1], ids) then [cs[|cs| - 1]] else [])
  }

  /** The filter keeps exactly the similar cases of the list. */
  lemma {:induction false} SelectSimilarMembers(cs: seq<CalledEntity>, ids: seq<int>)
    ensures forall c :: c in SelectSimilar(cs, ids) <==> c in cs && IsSimilar(c, ids)
    decreases |cs|
  {
    if cs != [] {
      SelectSimilarMembers(cs[..|cs| - 1], ids);
      assert cs == cs[..|cs| - 1] + [cs[|cs| - 1]];
    }
  }

  /** A case's `UUID` identifier is never among the `Long` ids, so nothing passes the filter. */
  lemma {:induction false} SelectSimilarIsEmpty(cs: seq<CalledEntity>, ids: seq<int>)
    ensures SelectSimilar(cs, ids) == []
    decreases |cs|
  {
    if cs != [] {
      SelectSimilarIsEmpty(cs[..|cs| - 1], ids);
      var c := cs[|cs| - 1];
      if c.id.Some? {
        assert forall i :: 0 <= i < |ids| ==> Boxed(ids)[i] != JUuid(c.id.value);
      }
    }
  }

  /** The first fifty cases, which the comparison prompt is built from. */
  function CandidatesForAnalysis(called: seq<CalledEntity>): (r: seq<CalledEntity>)
    ensures |r| == Min(|called|, MaxCandidates) && r == called[..|r|]
  {
    if |called| > MaxCandidates then called[..MaxCandidates] else called
  }

  /** The guard of `filterCallsBySimilarity`: no list, an empty list, no problem or a blank problem. */
  predicate NothingToCompare(called: Option<seq<CalledEntity>>, currentProblem: Option<string>) {
    called.None? || |called.value| == 0 || currentProblem.None? || IsBlank(currentProblem.value)
  }

  /**
   * `filterCallsBySimilarity`: nothing when the guard holds; otherwise the
   * model compares the first fifty cases with the problem and the cases
   * whose ids it names are kept; if the call fails, the first three cases
   * of the whole list are returned instead.
   */
  function FilterCallsBySimilarity(called: Option<seq<CalledEntity>>, currentProblem: Option<string>,
                                   ask: Prompt -> Outcome<string>): (r: seq<CalledEntity>)
    ensures NothingToCompare(called, currentProblem) ==> r == []
  {
    if NothingToCompare(called, currentProblem) then []
    else
      var analysed := CandidatesForAnalysis(called.value);
      match ask(ComparisonPromptOf(analysed, currentProblem.value))
      case Fail(_) => called.value[..Min(|called.value|, 3)]
      case Ok(response) => SelectSimilar(analysed, SimilarIds(Some(response)))
  }

  /** The prompt the filter sends: the first min(50, n) cases, each problem cut to 153 characters at most. */
  lemma FilterPromptBounded(called: seq<CalledEntity>, currentProblem: string)
    ensures var p := ComparisonPromptOf(CandidatesForAnalysis(called), currentProblem);
            && |p.entries| == Min(|called|, MaxCandidates) <= MaxCandidates
            && forall i :: 0 <= i < |p.entries| ==>
                 p.entries[i].id == called[i].id && |p.entries[i].problem| <= CandidateProblemLength + 3
  {
    ComparisonPromptBounded(CandidatesForAnalysis(called), currentProblem);
  }

  /** When the guard holds the model is not consulted: any two models give the same (empty) result. */
  lemma FilterGuardIgnoresModel(called: Option<seq<CalledEntity>>, currentProblem: Option<string>,
                                ask1: Prompt -> Outcome<string>, ask2: Prompt -> Outcome<string>)
    requires NothingToCompare(called, currentProblem)
    ensures FilterCallsBySimilarity(called, currentProblem, ask1) == []
    ensures FilterCallsBySimilarity(called, currentProblem, ask1) == FilterCallsBySimilarity(called, currentProblem, ask2)
  {
  }

  /** When the model answers, the filter is an order-keeping selection of the analysed cases, and in fact empty. */
  lemma FilterAnsweredIsEmpty(called: seq<CalledEntity>, currentProblem: string, ask: Prompt -> Outcome<string>)
    requires called != [] && !IsBlank(currentProblem)
    requires ask(ComparisonPromptOf(CandidatesForAnalysis(called), currentProblem)).Ok?
    ensures forall c :: c in FilterCallsBySimilarity(Some(called), Some(currentProblem), ask) ==>
              c in CandidatesForAnalysis(called)
    ensures FilterCallsBySimilarity(Some(called), Some(currentProblem), ask) == []
  {
    var ids := SimilarIds(Some(ask(ComparisonPromptOf(CandidatesForAnalysis(called), currentProblem)).value));
    SelectSimilarMembers(CandidatesForAnalysis(called), ids);
    SelectSimilarIsEmpty(CandidatesForAnalysis(called), ids);
  }

  /** When the model fails, the filter fails open: the first min(3, n) cases of the untruncated list. */
  lemma FilterFailOpen(called: seq<CalledEntity>, currentProblem: string, ask: Prompt -> Outcome<string>)
    requires called != [] && !IsBlank(currentProblem)
    requires ask(ComparisonPromptOf(CandidatesForAnalysis(called), currentProblem)).Fail?
    ensures var r := FilterCallsBySimilarity(Some(called), Some(currentProblem), ask);
            |r| == Min(|called|, 3) && r == called[..|r|] && |r| >= 1
  {
  }

  // ----- extractCuesFromTheAnswer and the tip list ------------------------------------

  /** A trimmed line that reads as a tip: a bullet, a dash, or "N. " / "N) " numbering. */
  predicate IsCueLine(s: string) {
    StartsWith(s, "•") || StartsWith(s, "-") || IsNumberedItem(s, '.') || IsNumberedItem(s, ')')
  }

  /** A trimmed paragraph long enough to be a tip. */
  predicate IsLongParagraph(s: string) { |s| > 30 }

  /** The items, each passed through `clean`, that then pass `keep`, in order. */
  function Kept(items: seq<string>, clean: string -> string, keep: string -> bool): (r: seq<string>)
    decreases |items|
    ensures |r| <= |items|
  {
    if items == [] then []
    else
      var t := clean(items[|items| - 1]);
      Kept(items[..|items| - 1], clean, keep) + (if keep(t) then [t] else [])
  }

  /** The trimmed lines that read as tips, in order. */
  function CueLines(lines: seq<string>): seq<string> {
    Kept(lines, Trim, IsCueLine)
  }

  /** The trimmed paragraphs longer than 30 characters, in order. */
  function LongParagraphs(paragraphs: seq<string>): seq<string> {
    Kept(paragraphs, Trim, IsLongParagraph)
  }

  /** `stream().limit(n)`. */
  function Take<T>(s: seq<T>, n: nat): (r: seq<T>)
    ensures |r| == Min(|s|, n) && r == s[..|r|]
  {
    if |s| <= n then s else s[..n]
  }

  const MinAnswerForParagraphs: nat := 100
  const MaxParagraphTips: nat := 5

  /**
   * `extractCuesFromTheAnswer`: the tip-like lines of the answer; when there
   * are none and the answer is longer than 100 characters, its first five
   * long paragraphs instead.
   */
  function Cues(answer: string): seq<string> {
    var tips := CueLines(Split(answer, "\n"));
    if tips == [] && |answer| > MinAnswerForParagraphs then Take(LongParagraphs(Split(answer, "\n\n")), MaxParagraphTips)
    else tips
  }

  /** Every kept item is the cleaned form of some item, and passes the test. */
  lemma {:induction false} KeptSound(items: seq<string>, clean: string -> string, keep: string -> bool)
    ensures forall k :: 0 <= k < |Kept(items, clean, keep)| ==>
              keep(Kept(items, clean, keep)[k])
              && exists i :: 0 <= i < |items| && Kept(items, clean, keep)[k] == clean(items[i])
    decreases |items|
  {
    if items != [] {
      var n := |items| - 1;
      var init := items[..n];
      var t := clean(items[n]);
      KeptSound(init, clean, keep);
      var r := Kept(items, clean, keep);
      assert r == Kept(init, clean, keep) + (if keep(t) then [t] else []);
      forall k | 0 <= k < |r|
        ensures keep(r[k]) && exists i :: 0 <= i < |items| && r[k] == clean(items[i])
      {
        if k < |Kept(init, clean, keep)| {
          assert r[k] == Kept(init, clean, keep)[k];
          var i :| 0 <= i < |init| && r[k] == clean(init[i]);
          assert init[i] == items[i];
        } else {
          assert r[k] == clean(items[n]);
        }
      }
    }
  }

  /** Every item whose cleaned form passes the test is kept, cleaned. */
  lemma {:induction false} KeptComplete(items: seq<string>, clean: string -> string, keep: string -> bool)
    ensures forall i :: 0 <= i < |items| && keep(clean(items[i])) ==> clean(items[i]) in Kept(items, clean, keep)
    decreases |items|
  {
    if items != [] {
      var n := |items| - 1;
      var init := items[..n];
      var t := clean(items[n]);
      KeptComplete(init, clean, keep);
      var before := Kept(init, clean, keep);
      var r := Kept(items, clean, keep);
      assert r == before + (if keep(t) then [t] else []);
      forall i | 0 <= i < |items| && keep(clean(items[i]))
        ensures clean(items[i]) in r
      {
        if i < n {
          assert init[i] == items[i];
          assert clean(items[i]) in before;
        } else {
          assert r[|r| - 1] == t;
        }
      }
    }
  }

  /** Extending the items by one extends the kept items by that item's cleaned form, if it passes. */
  lemma KeptStep(items: seq<string>, clean: string -> string, keep: string -> bool, i: nat)
    requires i < |items|
    ensures Kept(items[..i + 1], clean, keep)
            == Kept(items[..i], clean, keep) + (if keep(clean(items[i])) then [clean(items[i])] else [])
  {
    assert items[..i + 1][..i] == items[..i];
  }

  /** The tip lines are exactly the lines that, once trimmed, read as tips; each is trimmed. */
  lemma CueLinesMembers(lines: seq<string>)
    ensures forall x :: x in CueLines(lines) <==> exists i :: 0 <= i < |lines| && x == Trim(lines[i]) && IsCueLine(x)
    ensures forall k :: 0 <= k < |CueLines(lines)| ==> IsCueLine(CueLines(lines)[k]) && IsTrimmed(CueLines(lines)[k])
  {
    KeptSound(lines, Trim, IsCueLine);
    KeptComplete(lines, Trim, IsCueLine);
  }

  /**
   * The answer's tips are its tip lines, unless it has none and is longer
   * than 100 characters; then they are at most five trimmed paragraphs of
   * more than 30 characters, taken from its start.
   */
  lemma CuesShape(answer: string)
    ensures var lines := CueLines(Split(answer, "\n"));
            if lines != [] || |answer| <= MinAnswerForParagraphs then Cues(answer) == lines
            else
              && |Cues(answer)| <= MaxParagraphTips
              && Cues(answer) == LongParagraphs(Split(answer, "\n\n"))[..|Cues(answer)|]
              && forall i :: 0 <= i < |Cues(answer)| ==> |Cues(answer)[i]| > 30 && IsTrimmed(Cues(answer)[i])
  {
    KeptSound(Split(answer, "\n\n"), Trim, IsLongParagraph);
  }

  /** `extractCuesFromTheAnswer` as written: a loop over the lines, then, if needed, one over the paragraphs. */
  method ExtractCuesFromTheAnswer(answer: string) returns (tips: seq<string>)
    ensures tips == Cues(answer)
  {
    tips := [];
    var lines := Split(answer, "\n");
    for i := 0 to |lines|
      invariant tips == Kept(lines[..i], Trim, IsCueLine)
    {
      KeptStep(lines, Trim, IsCueLine, i);
      var cleanline := Trim(lines[i]);
      if IsCueLine(cleanline) {
        tips := tips + [cleanline];
      }
    }
    assert lines[..|lines|] == lines;
    if tips == [] && |answer| > MinAnswerForParagraphs {
      var paragraphs := Split(answer, "\n\n");
      for i := 0 to |paragraphs|
        invariant tips == Kept(paragraphs[..i], Trim, IsLongParagraph)
      {
        KeptStep(paragraphs, Trim, IsLongParagraph, i);
        var t := Trim(paragraphs[i]);
        if |t| > 30 {
          tips := tips + [t];
        }
      }
      assert paragraphs[..|paragraphs|] == paragraphs;
      tips := Take(tips, MaxParagraphTips);
    }
  }

  const NoSolutionsTip: string := "Não foram encontradas soluções históricas para análise."
  const FallbackHeader: string := "**Análise de Soluções Históricas:**"
  const TipsErrorTip: string := "Erro ao processar tips automaticamente."
  const MaxFallbackSolutions: nat := 3
  const FallbackSolutionLength: nat := 200

  /** One numbered line of the fallback list: "(i+1). " and the solution cut to 200 characters. */
  function FallbackLine(solutions: seq<string>, i: nat): string
    requires i < |solutions|
  {
    IntToDecimal(i + 1) + ". " + TruncateText(Some(solutions[i]), FallbackSolutionLength)
  }

  /** The numbered lines of the first `n` solutions. */
  function FallbackLines(solutions: seq<string>, n: nat): (r: seq<string>)
    requires n <= |solutions|
    ensures |r| == n && forall i :: 0 <= i < n ==> r[i] == FallbackLine(solutions, i)
  {
    if n == 0 then [] else FallbackLines(solutions, n - 1) + [FallbackLine(solutions, n - 1)]
  }

  /** The fallback list: the header and the first three solutions, numbered from 1. */
  function FallbackTips(solutions: seq<string>): (r: seq<string>)
    ensures |r| == 1 + Min(|solutions|, MaxFallbackSolutions) && r[0] == FallbackHeader
    ensures forall i :: 1 <= i < |r| ==> r[i] == FallbackLine(solutions, i - 1)
  {
    [FallbackHeader] + FallbackLines(solutions, Min(|solutions|, MaxFallbackSolutions))
  }

  /** The two tips given when the model fails: an error line and the number of solutions. */
  function ErrorTips(count: nat): seq<string> {
    [TipsErrorTip, "Soluções encontradas no histórico: " + IntToDecimal(count)]
  }

  /**
   * `generateResolutionTipsList`: one fixed tip when there are no solutions;
   * the two error tips when the model fails; otherwise the tips read from
   * its answer, or the fallback list when it holds none.
   */
  function TipsList(solutions: Option<seq<string>>, currentProblem: string, ask: Prompt -> Outcome<string>): (r: seq<string>)
    ensures solutions.None? || solutions.value == [] ==> r == [NoSolutionsTip]
    ensures r != []
  {
    if solutions.None? || |solutions.value| == 0 then [NoSolutionsTip]
    else
      match ask(TipsPromptOf(solutions.value, currentProblem))
      case Fail(_) => ErrorTips(|solutions.value|)
      case Ok(response) =>
        var cues := Cues(response);
        if cues == [] then FallbackTips(solutions.value) else cues
  }

  /** Without solutions the model is not consulted: any two models give the same single tip. */
  lemma TipsListWithoutSolutions(solutions: Option<seq<string>>, currentProblem: string,
                                 ask1: Prompt -> Outcome<string>, ask2: Prompt -> Outcome<string>)
    requires solutions.None? || solutions.value == []
    ensures TipsList(solutions, currentProblem, ask1) == TipsList(solutions, currentProblem, ask2) == [NoSolutionsTip]
  {
  }

  /** When the model fails, exactly two tips: the error line and "Soluções encontradas no histórico: " with the count. */
  lemma TipsListOnFailure(solutions: seq<string>, currentProblem: string, ask: Prompt -> Outcome<string>)
    requires solutions != []
    requires ask(TipsPromptOf(solutions, currentProblem)).Fail?
    ensures var r := TipsList(Some(solutions), currentProblem, ask);
            |r| == 2 && r[0] == TipsErrorTip && r[1] == "Soluções encontradas no histórico: " + IntToDecimal(|solutions|)
  {
  }

  /** When the model answers with tips, those are the tip list. */
  lemma TipsListFromAnswer(solutions: seq<string>, currentProblem: string, ask: Prompt -> Outcome<string>)
    requires solutions != []
    requires ask(TipsPromptOf(solutions, currentProblem)).Ok?
    ensures var cues := Cues(ask(TipsPromptOf(solutions, currentProblem)).value);
            cues != [] ==> TipsList(Some(solutions), currentProblem, ask) == cues
  {
  }

  /** When the model's answer holds no tips, the list is the header and up to three numbered solutions. */
  lemma TipsListFallback(solutions: seq<string>, currentProblem: string, ask: Prompt -> Outcome<string>)
    requires solutions != []
    requires ask(TipsPromptOf(solutions, currentProblem)).Ok?
    ensures var cues := Cues(ask(TipsPromptOf(solutions, currentProblem)).value);
            var r := TipsList(Some(solutions), currentProblem, ask);
            cues == [] ==>
              r == FallbackTips(solutions) && |r| == 1 + Min(|solutions|, MaxFallbackSolutions) && r[0] == FallbackHeader
  {
  }

  /** `generateResolutionTipsList` as written: the prompt, the model call, the cue extraction and the fallback loop. */
  method GenerateResolutionTipsList(solutions: Option<seq<string>>, currentProblem: string, ask: Prompt -> Outcome<string>)
    returns (tips: seq<string>)
    ensures tips == TipsList(solutions, currentProblem, ask)
  {
    tips := [];
    if solutions.None? || |solutions.value| == 0 {
      tips := tips + [NoSolutionsTip];
      return;
    }
    var sols := solutions.value;
    var prompt := CreatePromptGenerationTips(sols, currentProblem);
    var response := ask(prompt);
    if response.Fail? {
      tips := tips + [TipsErrorTip];
      tips := tips + ["Soluções encontradas no histórico: " + IntToDecimal(|sols|)];
      return;
    }
    tips := ExtractCuesFromTheAnswer(response.value);
    if tips == [] {
      tips := AddFallbackTips(tips, sols);
      TipsListFallback(sols, currentProblem, ask);
    } else {
      TipsListFromAnswer(sols, currentProblem, ask);
    }
  }

  /** The fallback branch of `generateResolutionTipsList`: the header, then a numbered line for each of the first three solutions. */
  method AddFallbackTips(tips0: seq<string>, sols: seq<string>) returns (tips: seq<string>)
    ensures tips == tips0 + FallbackTips(sols)
  {
    tips := tips0 + [FallbackHeader];
    var n := Min(|sols|, MaxFallbackSolutions);
    for i := 0 to n
      invariant tips == tips0 + [FallbackHeader] + FallbackLines(sols, i)
    {
      var line := FallbackLine(sols, i);
      tips := tips + [line];
    }
  }

  /** `generateResolutionTips`: the tip list joined with blank lines. */
  method GenerateResolutionTips(solutions: Option<seq<string>>, currentProblem: string, ask: Prompt -> Outcome<string>)
    returns (text: string)
    ensures text == Join(TipsList(solutions, currentProblem, ask), "\n\n")
  {
    var tips := GenerateResolutionTipsList(solutions, currentProblem, ask);
    text := Join(tips, "\n\n");
  }

  /** Without solutions the joined text is the single fixed sentence; on failure it is the two error tips around a blank line. */
  lemma ResolutionTipsText(solutions: seq<string>, currentProblem: string, ask: Prompt -> Outcome<string>)
    ensures solutions == [] ==> Join(TipsList(Some(solutions), currentProblem, ask), "\n\n") == NoSolutionsTip
    ensures solutions != [] && ask(TipsPromptOf(solutions, currentProblem)).Fail? ==>
              Join(TipsList(Some(solutions), currentProblem, ask), "\n\n")
              == TipsErrorTip + "\n\n" + "Soluções encontradas no histórico: " + IntToDecimal(|solutions|)
  {
    if solutions != [] && ask(TipsPromptOf(solutions, currentProblem)).Fail? {
      var r := TipsList(Some(solutions), currentProblem, ask);
      assert r[1..] == [r[1]];
    }
  }
}
