/**
 * `SummaryService`: the model's marker-delimited summary is taken apart into
 * a `FormatSummary`. Each field follows its bold marker, e.g.
 * `**PROBLEMA / DÚVIDA:**`, and runs up to the next `**` or the end of the
 * text (the regex `MARKER\s*([\s\S]*?)(?=\*\*|$)` applied with `find`).
 */
module SummaryService {
  import opened Text
  import opened Entities
  import ModuleMapper

  const ProblemMarker: string := "**PROBLEMA / DÚVIDA:**"
  const SolutionMarker: string := "**SOLUÇÃO APRESENTADA:**"
  const UpsellMarker: string := "**OPORTUNIDADE DE UPSELL:**"
  const PrintsMarker: string := "**PRINTS DE ERRO OU DE MENSAGENS RELEVANTES:**"
  const HumorMarker: string := "**HUMOR DO CLIENTE:**"
  const ModuleMarker: string := "**MÓDULO:**"

  // ----- the pieces of the field regex ------------------------------------------

  /** The end of the maximal run of `\s` characters in `s` that starts at `k` (the greedy `\s*`). */
  function SkipSpaces(s: string, k: nat): (r: nat)
    requires k <= |s|
    decreases |s| - k
    ensures k <= r <= |s|
    ensures forall i :: k <= i < r ==> IsRegexSpace(s[i])
    ensures r == |s| || !IsRegexSpace(s[r])
  {
    if k < |s| && IsRegexSpace(s[k]) then SkipSpaces(s, k + 1) else k
  }

  /**
   * Java's `$` without the MULTILINE flag matches at position `p`: at the end
   * of the input, before a line terminator that ends the input (but not
   * between `\r` and `\n`), or before a final `\r\n`.
   */
  predicate DollarAt(s: string, p: nat) {
    p == |s|
    || (p + 1 == |s| && IsLineTerminator(s[p]) && !(s[p] == '\n' && p > 0 && s[p - 1] == '\r'))
    || (p + 2 == |s| && s[p] == '\r' && s[p + 1] == '\n')
  }

  /** The look-ahead `(?=\*\*|$)` succeeds at position `p`. */
  predicate FieldStop(s: string, p: nat) {
    OccursAt(s, "**", p) || DollarAt(s, p)
  }

  /** Where the lazy group `([\s\S]*?)` that starts at `k` ends: the first position from `k` on where the look-ahead succeeds. */
  function FieldEnd(s: string, k: nat): (r: nat)
    requires k <= |s|
    decreases |s| - k
    ensures k <= r <= |s| && FieldStop(s, r)
    ensures forall q :: k <= q < r ==> !FieldStop(s, q)
  {
    if FieldStop(s, k) then k else FieldEnd(s, k + 1)
  }

  /**
   * `extractField`: find the first occurrence of the marker, skip the white
   * space after it, take the text up to the first `**` or end of input, and
   * trim it; `""` when the marker does not occur.
   */
  function ExtractField(text: string, marker: string): (r: string)
    ensures IsTrimmed(r)
    ensures NoStarPair(r)
    ensures IndexOf(text, marker).None? ==> r == ""
  {
    FieldOrEmpty(text, IndexOf(text, marker), |marker|)
  }

  /** The field after a marker of length `len` found at `found`, or `""` when it was not found. */
  function FieldOrEmpty(text: string, found: Option<nat>, len: nat): (r: string)
    requires found.Some? ==> found.value + len <= |text|
    ensures IsTrimmed(r) && NoStarPair(r)
    ensures found.None? ==> r == ""
  {
    match found
    case None => ""
    case Some(i) => FieldAfterHasNoStars(text, i + len); FieldAfter(text, i + len)
  }

  /** `s` holds no `**`: no two adjacent asterisks. */
  predicate NoStarPair(s: string) {
    forall j :: 0 <= j < |s| - 1 ==> !(s[j] == '*' && s[j + 1] == '*')
  }

  /** The trimmed group of the field regex once its marker has matched, ending at `start`. */
  function FieldAfter(text: string, start: nat): (r: string)
    requires start <= |text|
    ensures IsTrimmed(r)
  {
    var k := SkipSpaces(text, start);
    Trim(text[k..FieldEnd(text, k)])
  }

  /** A field never runs into the next marker: it holds no `**`. */
  lemma FieldAfterHasNoStars(text: string, start: nat)
    requires start <= |text|
    ensures NoStarPair(FieldAfter(text, start))
  {
    var k := SkipSpaces(text, start);
    var e := FieldEnd(text, k);
    var x := text[k..e];
    forall j | 0 <= j < |x| - 1 ensures !(x[j] == '*' && x[j + 1] == '*') {
      assert !FieldStop(text, k + j);
      assert text[k + j..k + j + 2] != "**";
      assert text[k + j..k + j + 2] == [text[k + j], text[k + j + 1]];
      assert x[j] == text[k + j] && x[j + 1] == text[k + j + 1];
    }
    var a, b := TrimInfix(x);
    NoStarPairInSlice(x, a, b);
  }

  /** A slice of a text with no two adjacent `*` has none either. */
  lemma NoStarPairInSlice(x: string, a: nat, b: nat)
    requires a <= b <= |x|
    requires NoStarPair(x)
    ensures NoStarPair(x[a..b])
  {
    var y := x[a..b];
    forall j | 0 <= j < |y| - 1 ensures !(y[j] == '*' && y[j + 1] == '*') {
      assert y[j] == x[a + j] && y[j + 1] == x[a + j + 1];
    }
  }

  /**
   * The field is read back from a summary that writes it after its marker:
   * whatever precedes the marker (holding no earlier occurrence of it),
   * `\s` characters after the marker, a trimmed value free of `*`, padding,
   * and then the next marker or the end of the text.
   */
  lemma ExtractFieldRoundTrip(summary: string, prefix: string, marker: string, gap: string, v: string, pad: string, rest: string)
    requires summary == prefix + marker + gap + v + pad + rest
    requires forall j :: 0 <= j < |prefix| ==> !OccursAt(prefix + marker, marker, j)
    requires forall i :: 0 <= i < |gap| ==> IsRegexSpace(gap[i])
    requires IsTrimmed(v) && '*' !in v && (v == [] || !IsLineTerminator(v[|v| - 1]))
    requires AllTrimmable(pad)
    requires rest == [] || StartsWith(rest, "**")
    ensures ExtractField(summary, marker) == v
  {
    var head := prefix + marker;
    var tail := gap + v + pad + rest;
    assert summary == head + tail;
    IndexOfInExtension(prefix, marker, tail);
    ExtractFieldAt(summary, marker, |prefix|);
    FieldAfterMarker(head, gap, v, pad, rest);
  }

  /** After the marker, the field regex reads the value back. */
  lemma FieldAfterMarker(head: string, gap: string, v: string, pad: string, rest: string)
    requires forall i :: 0 <= i < |gap| ==> IsRegexSpace(gap[i])
    requires IsTrimmed(v) && '*' !in v && (v == [] || !IsLineTerminator(v[|v| - 1]))
    requires AllTrimmable(pad)
    requires rest == [] || StartsWith(rest, "**")
    ensures FieldAfter(head + (gap + v + pad + rest), |head|) == v
  {
    var t := head + (gap + v + pad + rest);
    var a := |head|;
    var b := a + |gap|;
    var c := b + |v|;
    var d := c + |pad|;
    assert t[b..c] == v;
    forall q | a <= q < b ensures IsRegexSpace(t[q]) {
      assert t[q] == gap[q - a];
    }
    forall q | c <= q < d ensures IsTrimmable(t[q]) {
      assert t[q] == pad[q - c];
    }
    assert d < |t| ==> t[d..d + 2] == rest[..2];
    FieldAfterReadsValue(t, a, b, c, d);
  }

  /** Once the marker is found at `i`, the field is what the regex reads after it. */
  lemma ExtractFieldAt(t: string, marker: string, i: nat)
    requires IndexOf(t, marker) == Some(i)
    ensures i + |marker| <= |t|
    ensures ExtractField(t, marker) == FieldAfter(t, i + |marker|)
  {
    FoundField(t, i, |marker|);
  }

  /** A found marker's field is the regex read after it. */
  lemma FoundField(t: string, i: nat, len: nat)
    requires i + len <= |t|
    ensures FieldOrEmpty(t, Some(i), len) == FieldAfter(t, i + len)
  {
  }

  /** Text appended after a first occurrence does not move it. */
  lemma IndexOfInExtension(prefix: string, marker: string, tail: string)
    requires forall j :: 0 <= j < |prefix| ==> !OccursAt(prefix + marker, marker, j)
    ensures IndexOf(prefix + marker + tail, marker) == Some(|prefix|)
  {
    var head := prefix + marker;
    var t := head + tail;
    assert t[..|head|] == head;
    forall j | 0 <= j < |prefix| ensures !OccursAt(t, marker, j) {
      assert !OccursAt(head, marker, j);
      assert t[j..j + |marker|] == t[..|head|][j..j + |marker|];
    }
    assert t[|prefix|..|head|] == marker;
    IndexOfFirst(t, marker, |prefix|);
  }

  /**
   * The field regex, started at `a`, reads `t[b..c]` when `t[a..b]` is `\s`
   * characters, `t[b..c]` a trimmed value with no `*` that does not end in a
   * line terminator, `t[c..d]` strippable padding, and at `d` the text ends or
   * `**` follows.
   */
  lemma FieldAfterReadsValue(t: string, a: nat, b: nat, c: nat, d: nat)
    requires a <= b <= c <= d <= |t|
    requires forall q :: a <= q < b ==> IsRegexSpace(t[q])
    requires IsTrimmed(t[b..c]) && forall q :: b <= q < c ==> t[q] != '*'
    requires b < c ==> !IsLineTerminator(t[c - 1])
    requires forall q :: c <= q < d ==> IsTrimmable(t[q])
    requires d == |t| || OccursAt(t, "**", d)
    ensures FieldAfter(t, a) == t[b..c]
  {
    var k, e := FieldSpan(t, a, b, c, d);
    TrimValueAndPadding(t, b, c, d, k, e);
  }

  /** Where the greedy `\s*` and the lazy group end, for a text laid out as in `FieldAfterReadsValue`. */
  lemma FieldSpan(t: string, a: nat, b: nat, c: nat, d: nat) returns (k: nat, e: nat)
    requires a <= b <= c <= d <= |t|
    requires forall q :: a <= q < b ==> IsRegexSpace(t[q])
    requires IsTrimmed(t[b..c]) && forall q :: b <= q < c ==> t[q] != '*'
    requires b < c ==> !IsLineTerminator(t[c - 1])
    requires forall q :: c <= q < d ==> IsTrimmable(t[q])
    requires d == |t| || OccursAt(t, "**", d)
    ensures k == SkipSpaces(t, a) && k <= |t| && e == FieldEnd(t, k)
    ensures b <= k <= e <= d && (b < c ==> k == b && c <= e)
  {
    assert d < |t| ==> t[d] == t[d..d + 2][0];
    SkipSpacesWithin(t, a, b, d);
    k := SkipSpaces(t, a);
    if b < c {
      assert t[b] == t[b..c][0];
      assert k == b;
      NoStopInValue(t, b, c);
    }
    FieldEndWithin(t, k, if b < c then c else k, d);
    e := FieldEnd(t, k);
  }

  /** Trimming the value followed by strippable padding gives the value; padding alone gives the empty value. */
  lemma TrimValueAndPadding(t: string, b: nat, c: nat, d: nat, k: nat, e: nat)
    requires b <= c <= d <= |t| && b <= k <= e <= d
    requires b < c ==> k == b && c <= e
    requires IsTrimmed(t[b..c])
    requires forall q :: c <= q < d ==> IsTrimmable(t[q])
    ensures Trim(t[k..e]) == t[b..c]
  {
    if b < c {
      var y := t[c..e];
      forall i | 0 <= i < |y| ensures IsTrimmable(y[i]) {
        assert y[i] == t[c + i];
      }
      assert t[k..e] == t[b..c] + y;
      TrimPadded([], t[b..c], y);
      assert [] + t[b..c] + y == t[b..c] + y;
    } else {
      var x := t[k..e];
      forall i | 0 <= i < |x| ensures IsTrimmable(x[i]) {
        assert x[i] == t[k + i];
      }
      TrimPadded(x, [], []);
      assert x + [] + [] == x;
    }
  }

  /** No look-ahead succeeds inside a trimmed value with no `*` that does not end in a line terminator. */
  lemma NoStopInValue(t: string, b: nat, c: nat)
    requires b < c <= |t|
    requires IsTrimmed(t[b..c]) && forall q :: b <= q < c ==> t[q] != '*'
    requires !IsLineTerminator(t[c - 1])
    ensures forall q :: b <= q < c ==> !FieldStop(t, q)
  {
    assert t[c - 1] == t[b..c][c - 1 - b];
    assert !IsTrimmable(t[c - 1]);
    forall q | b <= q < c ensures !FieldStop(t, q) {
      assert q + 2 <= |t| ==> t[q..q + 2][0] == t[q];
      assert q + 1 == |t| ==> q == c - 1;
      assert q + 2 == |t| && q + 1 < c ==> q + 1 == c - 1;
    }
  }

  /** The greedy `\s*` from `a` ends at or after `b` when `t[a..b]` is all `\s`, and by `d` when `d` is not `\s`. */
  lemma SkipSpacesWithin(t: string, a: nat, b: nat, d: nat)
    requires a <= b <= d <= |t|
    requires forall q :: a <= q < b ==> IsRegexSpace(t[q])
    requires d == |t| || !IsRegexSpace(t[d])
    ensures b <= SkipSpaces(t, a) <= d
    ensures b < |t| && !IsRegexSpace(t[b]) ==> SkipSpaces(t, a) == b
  {
  }

  /** The lazy group from `k` ends between `c`, when nothing before `c` stops it, and a stop at `d`. */
  lemma FieldEndWithin(t: string, k: nat, c: nat, d: nat)
    requires k <= d <= |t| && c <= d
    requires forall q :: k <= q < c ==> !FieldStop(t, q)
    requires FieldStop(t, d)
    ensures c <= FieldEnd(t, k) <= d
  {
  }

  // ----- mood and the whole record --------------------------------------------------

  /** `mapMood`: "BOM" wins over "NEUTRO", which wins over "IRRITADO"; anything else is taken as a good mood. */
  function MapMood(humor: string): (r: MoodClient)
    ensures r == NEUTRAL <==> !Contains(ToUpperCase(humor), "BOM") && Contains(ToUpperCase(humor), "NEUTRO")
    ensures r == IRRITATED <==>
              !Contains(ToUpperCase(humor), "BOM") && !Contains(ToUpperCase(humor), "NEUTRO")
              && Contains(ToUpperCase(humor), "IRRITADO")
    ensures Contains(ToUpperCase(humor), "BOM") ==> r == GOOD
  {
    var h := ToUpperCase(humor);
    if Contains(h, "BOM") then GOOD
    else if Contains(h, "NEUTRO") then NEUTRAL
    else if Contains(h, "IRRITADO") then IRRITATED
    else GOOD
  }

  /** The mood depends on the upper-cased text only, so letter case does not matter. */
  lemma MapMoodIgnoresCase(humor: string)
    ensures MapMood(ToLowerCase(humor)) == MapMood(humor)
  {
    UpperOfLower(humor);
  }

  /** The prints flag: the trimmed, lower-cased field starts with "sim". */
  predicate PrintsFlag(prints: string) {
    StartsWith(ToLowerCase(Trim(prints)), "sim")
  }

  /**
   * `extractFieldsFromSummary`: the six fields, each the trimmed text after
   * its marker; the prints field read as a yes/no answer, the mood through
   * `mapMood` and the module through `ModuleMapper.map`.
   */
  function ExtractFieldsFromSummary(summary: string): (r: FormatSummary)
    ensures r.problem == ExtractField(summary, ProblemMarker)
    ensures r.solution == ExtractField(summary, SolutionMarker)
    ensures r.upsell == ExtractField(summary, UpsellMarker)
    ensures r.prints <==> StartsWith(ToLowerCase(ExtractField(summary, PrintsMarker)), "sim")
    ensures r.mood == MapMood(ExtractField(summary, HumorMarker))
    ensures r.modules == ModuleMapper.Map(Some(ExtractField(summary, ModuleMarker)))
    ensures IsTrimmed(r.problem) && IsTrimmed(r.solution) && IsTrimmed(r.upsell)
  {
    var problem := ExtractField(summary, ProblemMarker);
    var solution := ExtractField(summary, SolutionMarker);
    var upsell := ExtractField(summary, UpsellMarker);
    var prints := ExtractField(summary, PrintsMarker);
    var humor := ExtractField(summary, HumorMarker);
    var moduleName := ExtractField(summary, ModuleMarker);
    TrimOfTrimmed(problem);
    TrimOfTrimmed(solution);
    TrimOfTrimmed(upsell);
    TrimOfTrimmed(prints);
    FormatSummary(Trim(problem), Trim(solution), Trim(upsell), PrintsFlag(prints),
                  MapMood(humor), ModuleMapper.Map(Some(moduleName)))
  }

  /** A text with none of the markers gives empty fields, no prints, a good mood and the generic module. */
  lemma ExtractFieldsWithoutMarkers(summary: string)
    requires '*' !in summary
    ensures ExtractFieldsFromSummary(summary) == FormatSummary("", "", "", false, GOOD, GENERIC)
  {
    MissingCharNotContained(summary, ProblemMarker, 0);
    MissingCharNotContained(summary, SolutionMarker, 0);
    MissingCharNotContained(summary, UpsellMarker, 0);
    MissingCharNotContained(summary, PrintsMarker, 0);
    MissingCharNotContained(summary, HumorMarker, 0);
    MissingCharNotContained(summary, ModuleMarker, 0);
    MissingCharNotContained(ToUpperCase(""), "BOM", 0);
    MissingCharNotContained(ToUpperCase(""), "NEUTRO", 0);
    MissingCharNotContained(ToUpperCase(""), "IRRITADO", 0);
    ModuleMapper.NoPhraseWithoutLetters(ToUpperCase(""));
  }

  /**
   * `createDtoSummary`: the summary text comes from the model (`generate`,
   * which may fail); the DTO carries that raw text and copies the module,
   * problem and solution of the record extracted from it.
   */
  function CreateDtoSummary(textCall: string, generate: string -> Outcome<string>): (r: Outcome<SummaryDto>)
    ensures generate(textCall).Fail? ==> r == Fail(generate(textCall).message)
    ensures generate(textCall).Ok? ==>
              && r.Ok?
              && r.value.fullSummary == generate(textCall).value
              && r.value.formatSummary == ExtractFieldsFromSummary(generate(textCall).value)
              && r.value.moduleCalled == r.value.formatSummary.modules
              && r.value.problem == r.value.formatSummary.problem
              && r.value.solution == r.value.formatSummary.solution
  {
    match generate(textCall)
    case Fail(m) => Fail(m)
    case Ok(summary) =>
      var formatSummary := ExtractFieldsFromSummary(summary);
      Ok(SummaryDto(summary, formatSummary.modules, formatSummary.problem, formatSummary.solution, formatSummary))
  }
}
