/**
 * The line loop of the start-up documentation loader: every line of every
 * documentation file is trimmed; blank lines are dropped; a line framed by
 * `===` opens a new section; instructional lines ("Aqui está ...") are
 * dropped; a leading "N. " is stripped; every other line becomes a document
 * tagged with the section in force. The section starts as "GERAL" and is
 * carried from one file into the next.
 */
module DocumentationLoader {
  import opened Text

  /** A Spring AI `Document`: its text and its metadata map. */
  datatype Document = Document(content: string, metadata: map<string, string>)

  const InitialSection: string := "GERAL"
  const DocumentType: string := "documentacao_oficial"
  const HeaderFence: string := "==="
  const InstructionPrefix: string := "aqui est"

  /** The document made of a processed line under a section. */
  function MakeDocument(line: string, section: string): Document {
    Document(line, map["tipo" := DocumentType, "categoria" := section, "titulo" := line])
  }

  /** What the loop does with one line: nothing, switch section, or emit a document with this text. */
  datatype LineAction = Skip | NewSection(name: string) | Emit(text: string)

  /** A trimmed line that is a section header. */
  predicate IsHeader(line: string) { StartsWith(line, HeaderFence) && EndsWith(line, HeaderFence) }

  /** `line.replaceFirst("^\\d+\\.\\s", "")`, for a line that `matches("^\\d+\\.\\s.*")`. */
  function StripNumber(line: string): (r: string)
    requires IsNumberedItem(line, '.')
    ensures |r| + LeadingDigits(line) + 2 == |line| && r == line[LeadingDigits(line) + 2..]
  {
    line[LeadingDigits(line) + 2..]
  }

  /** The rules of the loop body, in their order: blank, header, instruction, numbering. */
  function Classify(raw: string): LineAction {
    var line := Trim(raw);
    if |line| == 0 then Skip
    else if IsHeader(line) then NewSection(Trim(RemoveChar(line, '=')))
    else if StartsWith(ToLowerCase(line), InstructionPrefix) then Skip
    else if IsNumberedItem(line, '.') then Emit(Trim(StripNumber(line)))
    else Emit(line)
  }

  /** The state the loop carries: the documents so far and the current section. */
  datatype LoaderState = LoaderState(documents: seq<Document>, section: string)

  const InitialState: LoaderState := LoaderState([], InitialSection)

  /** What one action does to the state. */
  function Apply(st: LoaderState, a: LineAction): LoaderState {
    match a
    case Skip => st
    case NewSection(name) => st.(section := name)
    case Emit(text) => st.(documents := st.documents + [MakeDocument(text, st.section)])
  }

  /** One iteration of the loop body on a line. */
  function Step(st: LoaderState, raw: string): LoaderState {
    Apply(st, Classify(raw))
  }

  /** The loop over the lines of one file, from state `st`. */
  function RunLines(st: LoaderState, lines: seq<string>): LoaderState
    decreases |lines|
  {
    if lines == [] then st else Step(RunLines(st, lines[..|lines| - 1]), lines[|lines| - 1])
  }

  /** The outer loop over the files, from state `st`. */
  function RunFiles(st: LoaderState, files: seq<seq<string>>): LoaderState
    decreases |files|
  {
    if files == [] then st else RunLines(RunFiles(st, files[..|files| - 1]), files[|files| - 1])
  }

  /** All the lines of all the files, in file order. */
  function Concat(files: seq<seq<string>>): seq<string>
    decreases |files|
  {
    if files == [] then [] else Concat(files[..|files| - 1]) + files[|files| - 1]
  }

  /**
   * Lines 56-95 of `run`: the loop over the documentation files; the
   * current section survives from one file into the next.
   */
  method LoadDocuments(files: seq<seq<string>>) returns (documents: seq<Document>)
    ensures documents == RunFiles(InitialState, files).documents
  {
    documents := [];
    var currentSection := InitialSection;
    for f := 0 to |files|
      invariant LoaderState(documents, currentSection) == RunFiles(InitialState, files[..f])
    {
      assert files[..f + 1][..f] == files[..f];
      documents, currentSection := LoadFile(documents, currentSection, files[f]);
    }
    assert files[..|files|] == files;
  }

  /** The inner loop of `run` over one file's lines, as `readLine` returns them. */
  method LoadFile(documents0: seq<Document>, section0: string, lines: seq<string>)
    returns (documents: seq<Document>, currentSection: string)
    ensures LoaderState(documents, currentSection) == RunLines(LoaderState(documents0, section0), lines)
  {
    documents, currentSection := documents0, section0;
    for i := 0 to |lines|
      invariant LoaderState(documents, currentSection) == RunLines(LoaderState(documents0, section0), lines[..i])
    {
      assert lines[..i + 1][..i] == lines[..i];
      var line := Trim(lines[i]);
      if |line| == 0 {
        continue;
      }
      if StartsWith(line, HeaderFence) && EndsWith(line, HeaderFence) {
        currentSection := Trim(RemoveChar(line, '='));
        continue;
      }
      if StartsWith(ToLowerCase(line), InstructionPrefix) {
        continue;
      }
      if IsNumberedItem(line, '.') {
        line := Trim(line[LeadingDigits(line) + 2..]);
      }
      documents := documents + [MakeDocument(line, currentSection)];
    }
    assert lines[..|lines|] == lines;
  }

  // ----- properties ------------------------------------------------------------

  /** Running two pieces of input one after the other is running them together. */
  lemma {:induction false} RunLinesAppend(st: LoaderState, a: seq<string>, b: seq<string>)
    ensures RunLines(st, a + b) == RunLines(RunLines(st, a), b)
    decreases |b|
  {
    if b == [] {
      assert a + b == a;
    } else {
      var n := |b| - 1;
      assert (a + b)[..|a + b| - 1] == a + b[..n];
      assert (a + b)[|a + b| - 1] == b[n];
      RunLinesAppend(st, a, b[..n]);
    }
  }

  /**
   * Files do not reset the section: loading the files one after another
   * is loading all their lines as one file.
   */
  lemma {:induction false} FilesAreConcatenatedLines(st: LoaderState, files: seq<seq<string>>)
    ensures RunFiles(st, files) == RunLines(st, Concat(files))
    decreases |files|
  {
    if files != [] {
      var n := |files| - 1;
      FilesAreConcatenatedLines(st, files[..n]);
      RunLinesAppend(st, Concat(files[..n]), files[n]);
    }
  }

  /** A section name as headers produce it: trimmed and free of '='. */
  predicate IsSectionName(s: string) { IsTrimmed(s) && '=' !in s }

  /**
   * A processed document: the text is non-empty and trimmed and is also
   * its title, the type is the official-documentation tag, and the
   * category is a section name.
   */
  predicate WellFormed(d: Document) {
    && d.metadata.Keys == {"tipo", "categoria", "titulo"}
    && d.metadata["tipo"] == DocumentType
    && d.metadata["titulo"] == d.content
    && d.content != [] && IsTrimmed(d.content)
    && IsSectionName(d.metadata["categoria"])
  }

  /** What the loop keeps true: every document is well formed and the section is a section name. */
  predicate GoodState(st: LoaderState) {
    IsSectionName(st.section) && AllWellFormed(st.documents)
  }

  predicate AllWellFormed(docs: seq<Document>) {
    forall k :: 0 <= k < |docs| ==> WellFormed(docs[k])
  }

  /**
   * Blank lines are skipped; exactly the framed lines open a section, whose
   * name is trimmed and free of '='; exactly the remaining lines that are
   * not instructions emit a document, with non-empty trimmed text, which
   * is the trimmed line itself unless the line is numbered.
   */
  lemma ClassifyShape(raw: string)
    ensures Trim(raw) == [] ==> Classify(raw) == Skip
    ensures Classify(raw).NewSection? <==> Trim(raw) != [] && IsHeader(Trim(raw))
    ensures Classify(raw).NewSection? ==> IsSectionName(Classify(raw).name)
    ensures Classify(raw).Emit? <==>
              Trim(raw) != [] && !IsHeader(Trim(raw)) && !StartsWith(ToLowerCase(Trim(raw)), InstructionPrefix)
    ensures Classify(raw).Emit? ==> Classify(raw).text != [] && IsTrimmed(Classify(raw).text)
    ensures Classify(raw).Emit? && !IsNumberedItem(Trim(raw), '.') ==> Classify(raw).text == Trim(raw)
  {
    var line := Trim(raw);
    if line != [] && IsHeader(line) {
      RemoveCharKeeps(line, '=');
    } else if line != [] && IsNumberedItem(line, '.') {
      NumberedRestHasText(line);
    }
  }

  /** Removing a character can only remove it: what is left has none, and trimming adds none back. */
  lemma RemoveCharKeeps(s: string, c: char)
    ensures c !in Trim(RemoveChar(s, c))
  {
    var r := RemoveChar(s, c);
    var a, b := TrimInfix(r);
    assert forall k :: 0 <= k < b - a ==> r[a..b][k] == r[a + k];
  }

  /** Stripping the number of a trimmed "N. text" line leaves some text. */
  lemma NumberedRestHasText(line: string)
    requires line != [] && IsTrimmed(line) && IsNumberedItem(line, '.')
    ensures Trim(StripNumber(line)) != []
  {
    var n := LeadingDigits(line);
    var rest := StripNumber(line);
    assert IsTrimmable(line[n + 1]);
    assert !IsTrimmable(line[|line| - 1]);
    assert rest[|rest| - 1] == line[|line| - 1];
    TrimKeepsProperChar(rest, |rest| - 1);
  }

  /** The actions `Classify` can produce: section names and non-empty trimmed texts. */
  predicate GoodAction(a: LineAction) {
    match a
    case Skip => true
    case NewSection(name) => IsSectionName(name)
    case Emit(text) => text != [] && IsTrimmed(text)
  }

  /** A good action keeps a good state good. */
  lemma ApplyKeepsGood(st: LoaderState, a: LineAction)
    requires GoodState(st) && GoodAction(a)
    ensures GoodState(Apply(st, a))
  {
    if a.Emit? {
      var d := MakeDocument(a.text, st.section);
      assert d.metadata.Keys == {"tipo", "categoria", "titulo"};
      assert WellFormed(d);
    }
  }

  /** An action adds at most one document and keeps the ones already there in front. */
  lemma ApplyGrows(st: LoaderState, a: LineAction)
    ensures |st.documents| <= |Apply(st, a).documents| <= |st.documents| + 1
    ensures Apply(st, a).documents[..|st.documents|] == st.documents
  {
  }

  /** Loading starts from a good state: no documents, and "GERAL" is a section name. */
  lemma InitialStateGood()
    ensures GoodState(InitialState)
  {
    assert InitialSection == ['G', 'E', 'R', 'A', 'L'];
  }

  /** One iteration keeps the loop's invariant. */
  lemma StepKeepsGood(st: LoaderState, raw: string)
    requires GoodState(st)
    ensures GoodState(Step(st, raw))
  {
    ClassifyShape(raw);
    assert GoodAction(Classify(raw));
    ApplyKeepsGood(st, Classify(raw));
  }

  /** The whole loop keeps it: from the start every document is well formed. */
  lemma {:induction false} RunLinesKeepsGood(st: LoaderState, lines: seq<string>)
    requires GoodState(st)
    ensures GoodState(RunLines(st, lines))
    decreases |lines|
  {
    if lines != [] {
      RunLinesKeepsGood(st, lines[..|lines| - 1]);
      StepKeepsGood(RunLines(st, lines[..|lines| - 1]), lines[|lines| - 1]);
    }
  }

  /**
   * Every loaded document is well formed, and there are no more documents
   * than lines; the documents come in file order, then line order.
   */
  lemma LoadedDocumentsWellFormed(files: seq<seq<string>>)
    ensures |RunFiles(InitialState, files).documents| <= |Concat(files)|
    ensures AllWellFormed(RunFiles(InitialState, files).documents)
  {
    var lines := Concat(files);
    FilesAreConcatenatedLines(InitialState, files);
    InitialStateGood();
    RunLinesKeepsGood(InitialState, lines);
    RunLinesCount(InitialState, lines);
  }

  /** Each line adds at most one document, and the documents already there stay in front. */
  lemma {:induction false} RunLinesCount(st: LoaderState, lines: seq<string>)
    ensures |st.documents| <= |RunLines(st, lines).documents| <= |st.documents| + |lines|
    ensures RunLines(st, lines).documents[..|st.documents|] == st.documents
    decreases |lines|
  {
    if lines != [] {
      var n := |lines| - 1;
      RunLinesCount(st, lines[..n]);
      var mid := RunLines(st, lines[..n]);
      ApplyGrows(mid, Classify(lines[n]));
    }
  }

  /** A header line followed by a text line: the document is filed under that header's section. */
  lemma HeaderTagsFollowingLine(st: LoaderState, header: string, raw: string)
    requires Classify(header).NewSection? && Classify(raw).Emit?
    ensures RunLines(st, [header, raw]).documents
            == st.documents + [MakeDocument(Classify(raw).text, Classify(header).name)]
    ensures RunLines(st, [header, raw]).section == Classify(header).name
  {
    var mid := Step(st, header);
    assert [header][..0] == [];
    assert RunLines(st, [header]) == mid;
    assert [header, raw][..1] == [header];
    assert RunLines(st, [header, raw]) == Step(mid, raw);
  }
}
