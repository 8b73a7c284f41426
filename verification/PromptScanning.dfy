/** The line scanners with which the offline mock answerer reads a grounded prompt back (packages/evals/run.py). */
module PromptScanning {
  import opened Text

  predicate StartsWith(line: string, prefix: string) { prefix <= line }

  // ---------------------------------------------------------------- _collapse_context_section

  /** The stripped, non-blank lines. */
  function Trimmed(lines: seq<string>): seq<string> {
    if lines == [] then []
    else
      var n := |lines| - 1;
      Trimmed(lines[..n]) + (if Strip(lines[n]) == "" then [] else [Strip(lines[n])])
  }

  /** `_collapse_context_section` */
  function Collapse(lines: seq<string>): string { Join(Trimmed(lines), " ") }

  function NonEmpty(parts: seq<string>): seq<string> {
    if parts == [] then []
    else NonEmpty(parts[..|parts| - 1]) + (if parts[|parts| - 1] == "" then [] else [parts[|parts| - 1]])
  }

  /** Non-empty text without whitespace at either end. */
  ghost predicate Inked(s: string) { s != "" && !IsSpace(s[0]) && !IsSpace(s[|s| - 1]) }

  lemma {:induction false} JoinInked(parts: seq<string>, separator: string)
    requires forall k :: 0 <= k < |parts| ==> Inked(parts[k])
    ensures parts != [] ==> Inked(Join(parts, separator))
  {
    if |parts| > 1 {
      JoinInked(parts[1..], separator);
    }
  }

  lemma {:induction false} TrimmedInked(lines: seq<string>)
    ensures forall k :: 0 <= k < |Trimmed(lines)| ==> Inked(Trimmed(lines)[k])
  {
    if lines != [] {
      TrimmedInked(lines[..|lines| - 1]);
      StripEdges(lines[|lines| - 1]);
    }
  }

  lemma CollapseInked(lines: seq<string>)
    ensures Collapse(lines) != "" ==> Inked(Collapse(lines))
  {
    TrimmedInked(lines);
    JoinInked(Trimmed(lines), " ");
  }

  lemma {:induction false} TrimmedBlankTail(lines: seq<string>, blanks: seq<string>)
    requires forall k :: 0 <= k < |blanks| ==> blanks[k] == ""
    ensures Trimmed(lines + blanks) == Trimmed(lines)
  {
    if blanks == [] {
      assert lines + blanks == lines;
    } else {
      var n := |blanks| - 1;
      TrimmedBlankTail(lines, blanks[..n]);
      assert (lines + blanks)[..|lines| + n] == lines + blanks[..n];
      StripEdges(blanks[n]);
    }
  }

  // ---------------------------------------------------------------- _extract_prompt_context

  datatype ScanState = ScanState(collecting: bool, current: seq<string>, sections: seq<string>, stopped: bool)

  const SCAN_START := ScanState(false, [], [], false)

  function Flush(s: ScanState): seq<string> {
    if s.collecting && s.current != [] then s.sections + [Collapse(s.current)] else s.sections
  }

  /** One turn of the line loop of `_extract_prompt_context`. */
  function ScanLine(s: ScanState, line: string): ScanState {
    if s.stopped then s
    else if StartsWith(line, "Text:") then ScanState(true, [], Flush(s), false)
    else if s.collecting && (StartsWith(line, "Chunk ") || StartsWith(line, "Answer using")) then
      ScanState(false, [], Flush(s), StartsWith(line, "Answer using"))
    else if s.collecting then s.(current := s.current + [line])
    else s
  }

  function Scan(s: ScanState, lines: seq<string>): ScanState {
    if lines == [] then s else ScanLine(Scan(s, lines[..|lines| - 1]), lines[|lines| - 1])
  }

  /** The context of a prompt given by its lines. */
  function ContextOfLines(lines: seq<string>): string {
    Strip(Join(NonEmpty(Flush(Scan(SCAN_START, lines))), "\n"))
  }

  lemma {:induction false} ScanConcat(s: ScanState, a: seq<string>, b: seq<string>)
    ensures Scan(s, a + b) == Scan(Scan(s, a), b)
  {
    if b == [] {
      assert a + b == a;
    } else {
      var n := |b| - 1;
      assert (a + b)[..|a| + n] == a + b[..n];
      ScanConcat(s, a, b[..n]);
    }
  }

  lemma {:induction false} ScanStopped(s: ScanState, lines: seq<string>)
    requires s.stopped
    ensures Scan(s, lines) == s
  {
    if lines != [] {
      ScanStopped(s, lines[..|lines| - 1]);
    }
  }

  lemma ScanNothing(s: ScanState)
    ensures Scan(s, []) == s
  {
  }

  lemma ScanStep(s: ScanState, lines: seq<string>, i: nat)
    requires i < |lines|
    ensures Scan(s, lines[..i + 1]) == ScanLine(Scan(s, lines[..i]), lines[i])
  {
    hide ScanLine;
    assert lines[..i + 1][..i] == lines[..i];
  }

  /** `_extract_prompt_context` */
  method ExtractPromptContext(prompt: string) returns (context: string)
    ensures context == ContextOfLines(SplitLines(prompt))
  {
    hide SplitLines, Collapse, Strip, Join, NonEmpty, StartsWith, Scan;
    var lines := SplitLines(prompt);
    ScanNothing(SCAN_START);
    var textSections: seq<string> := [];
    var currentSection: seq<string> := [];
    var collectingText := false;
    var i := 0;
    while i < |lines|
      invariant 0 <= i <= |lines|
      invariant Scan(SCAN_START, lines[..i]) == ScanState(collectingText, currentSection, textSections, false)
      decreases |lines| - i
    {
      var line := lines[i];
      ScanStep(SCAN_START, lines, i);
      i := i + 1;
      if StartsWith(line, "Text:") {
        if collectingText && currentSection != [] {
          textSections := textSections + [Collapse(currentSection)];
        }
        currentSection, collectingText := [], true;
        continue;
      }
      if collectingText && (StartsWith(line, "Chunk ") || StartsWith(line, "Answer using")) {
        if currentSection != [] {
          textSections := textSections + [Collapse(currentSection)];
        }
        currentSection, collectingText := [], false;
        if StartsWith(line, "Answer using") {
          ScanStopped(ScanState(false, [], textSections, true), lines[i..]);
          ScanConcat(SCAN_START, lines[..i], lines[i..]);
          assert lines == lines[..i] + lines[i..];
          return Strip(Join(NonEmpty(textSections), "\n"));
        }
        continue;
      }
      if collectingText {
        currentSection := currentSection + [line];
      }
    }
    assert lines[..|lines|] == lines;
    if collectingText && currentSection != [] {
      textSections := textSections + [Collapse(currentSection)];
    }
    return Strip(Join(NonEmpty(textSections), "\n"));
  }

  // ---------------------------------------------------------------- _extract_document_names

  /** The stripped names on the `Document:` lines, in order. */
  function NamesOnLines(lines: seq<string>): seq<string> {
    if lines == [] then []
    else
      var n := |lines| - 1;
      NamesOnLines(lines[..n]) + (if StartsWith(lines[n], "Document:") then [Strip(lines[n][9..])] else [])
  }

  lemma {:induction false} NamesConcat(a: seq<string>, b: seq<string>)
    ensures NamesOnLines(a + b) == NamesOnLines(a) + NamesOnLines(b)
  {
    if b == [] {
      assert a + b == a;
    } else {
      var n := |b| - 1;
      assert (a + b)[..|a| + n] == a + b[..n];
      NamesConcat(a, b[..n]);
    }
  }

  lemma {:induction false} NoNames(lines: seq<string>)
    requires forall k :: 0 <= k < |lines| ==> !StartsWith(lines[k], "Document:")
    ensures NamesOnLines(lines) == []
  {
    if lines != [] {
      NoNames(lines[..|lines| - 1]);
    }
  }

  /** `_extract_document_names` */
  method ExtractDocumentNames(prompt: string) returns (names: seq<string>)
    ensures names == FirstOccurrences(NamesOnLines(SplitLines(prompt)))
  {
    var lines := SplitLines(prompt);
    names := [];
    for i := 0 to |lines|
      invariant names == FirstOccurrences(NamesOnLines(lines[..i]))
    {
      assert lines[..i + 1][..i] == lines[..i];
      ghost var before := NamesOnLines(lines[..i]);
      if !StartsWith(lines[i], "Document:") {
        assert NamesOnLines(lines[..i + 1]) == before;
        continue;
      }
      var name := Strip(lines[i][9..]);
      assert NamesOnLines(lines[..i + 1]) == before + [name];
      assert (before + [name])[..|before|] == before;
      if name != "" && name !in names {
        names := names + [name];
      }
    }
    assert lines[..|lines|] == lines;
  }

  // ---------------------------------------------------------------- _extract_prompt_block

  ghost predicate FirstLineWith(lines: seq<string>, prefix: string, k: int) {
    0 <= k < |lines| && StartsWith(lines[k], prefix) && forall j :: 0 <= j < k ==> !StartsWith(lines[j], prefix)
  }

  /** `_extract_prompt_block`: the rest of the first line with the prefix, or nothing. */
  method ExtractPromptBlock(prompt: string, prefix: string) returns (block: string)
    ensures forall k :: FirstLineWith(SplitLines(prompt), prefix, k) ==> block == Strip(SplitLines(prompt)[k][|prefix|..])
    ensures (forall k :: !FirstLineWith(SplitLines(prompt), prefix, k)) ==> block == ""
  {
    var lines := SplitLines(prompt);
    for i := 0 to |lines|
      invariant forall j :: 0 <= j < i ==> !StartsWith(lines[j], prefix)
    {
      if StartsWith(lines[i], prefix) {
        assert FirstLineWith(lines, prefix, i);
        return Strip(lines[i][|prefix|..]);
      }
    }
    return "";
  }
}
