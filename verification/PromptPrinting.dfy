/** Printing retrieved chunks into a grounded prompt (packages/llm/prompts.py), and the proof that the scanners read it back. */
module PromptPrinting {
  import opened Text
  import opened Counting
  import opened PromptScanning
  import opened PromptTemplates
  import opened PromptRegistries

  /** A retrieved chunk; `similarity` and `metadata` are already in printed form. */
  datatype RetrievedChunk = RetrievedChunk(
    experimentId: string, experimentName: string, documentName: string,
    similarity: string, metadata: string, chunkText: string)

  /** The six header lines of a chunk block. */
  function HeaderLines(index: nat, chunk: RetrievedChunk): seq<string> {
    [ "Chunk " + Decimal(index),
      "Experiment ID: " + chunk.experimentId,
      "Experiment: " + chunk.experimentName,
      "Document: " + chunk.documentName,
      "Similarity: " + chunk.similarity,
      "Metadata: " + chunk.metadata ]
  }

  /** The rest of the first line that starts with the tag. */
  function Labelled(lines: seq<string>, tag: string): Option<string> {
    if lines == [] then None
    else if tag <= lines[0] then Some(lines[0][|tag|..])
    else Labelled(lines[1..], tag)
  }

  /** Every field of a chunk is read back from the header line with its own tag. */
  lemma HeaderRoundTrip(index: nat, chunk: RetrievedChunk)
    ensures var lines := HeaderLines(index, chunk);
            && Labelled(lines, "Chunk ") == Some(Decimal(index))
            && Labelled(lines, "Experiment ID: ") == Some(chunk.experimentId)
            && Labelled(lines, "Experiment: ") == Some(chunk.experimentName)
            && Labelled(lines, "Document: ") == Some(chunk.documentName)
            && Labelled(lines, "Similarity: ") == Some(chunk.similarity)
            && Labelled(lines, "Metadata: ") == Some(chunk.metadata)
            && |lines| == 6
  {
    var lines := HeaderLines(index, chunk);
    var tags := ["Chunk ", "Experiment ID: ", "Experiment: ", "Document: ", "Similarity: ", "Metadata: "];
    var fields := [Decimal(index), chunk.experimentId, chunk.experimentName, chunk.documentName, chunk.similarity, chunk.metadata];
    assert tags[0][0] == 'C' && tags[1][0] == 'E' && tags[2][0] == 'E' && tags[3][0] == 'D' && tags[4][0] == 'S'
      && tags[5][0] == 'M' && tags[1][10] == ' ' && tags[2][10] == ':';
    forall k | 0 <= k < 6 ensures lines[k] == tags[k] + fields[k] {}
    hide HeaderLines, Decimal;
    forall j | 0 <= j < 6 ensures lines[j][0] == tags[j][0] {}
    assert lines[1][10] == tags[1][10] == ' ' && tags[2][10] == ':';
    forall j, k | 0 <= j < k < 6 ensures !(tags[k] <= lines[j]) {}
    forall k | 0 <= k < 6 ensures Labelled(lines, tags[k]) == Some(fields[k]) {
      LabelledAt(lines, tags[k], k);
      assert lines[k][|tags[k]|..] == fields[k];
    }
    assert Labelled(lines, tags[0]) == Some(fields[0]) && Labelled(lines, tags[1]) == Some(fields[1])
      && Labelled(lines, tags[2]) == Some(fields[2]) && Labelled(lines, tags[3]) == Some(fields[3])
      && Labelled(lines, tags[4]) == Some(fields[4]) && Labelled(lines, tags[5]) == Some(fields[5]);
  }

  lemma {:induction false} LabelledAt(lines: seq<string>, tag: string, k: nat)
    requires k < |lines| && tag <= lines[k] && forall j :: 0 <= j < k ==> !(tag <= lines[j])
    ensures Labelled(lines, tag) == Some(lines[k][|tag|..])
  {
    if k > 0 {
      LabelledAt(lines[1..], tag, k - 1);
    }
  }

  function Block(index: nat, chunk: RetrievedChunk): string {
    Join(HeaderLines(index, chunk) + ["Text:", chunk.chunkText], "\n")
  }

  /** The numbered blocks of `chunks`, counting from `first`. */
  function Blocks(chunks: seq<RetrievedChunk>, first: nat): seq<string> {
    if chunks == [] then [] else [Block(first, chunks[0])] + Blocks(chunks[1..], first + 1)
  }

  function ContextText(chunks: seq<RetrievedChunk>): string { Join(Blocks(chunks, 1), "\n\n") }

  function PromptValues(question: string, context: string): map<string, string> {
    map["question" := question, "context" := context]
  }

  /** `build_grounded_prompt` for a definition that the registry has resolved. */
  function BuildGroundedPrompt(rules: Rules, d: PromptDefinition, question: string, chunks: seq<RetrievedChunk>)
    : Result<RenderedPrompt, RegistryError>
  {
    RenderDefinition(rules, d, TextValues(PromptValues(Strip(question), ContextText(chunks))))
  }

  // ---------------------------------------------------------------- the rag.answer template

  const QUESTION_PREFIX := "User Question: "
  const HEADING := "\nRetrieved Context:\n\n"
  const BETWEEN := "\n" + HEADING
  const HEADING_LINES := ["", "Retrieved Context:", ""]

  /** The user template of rag.answer; the versions differ in their closing instruction. */
  function RagAnswerTemplate(closing: string): string {
    QUESTION_PREFIX + ("{question}" + (BETWEEN + ("{context}" + ("\n\n" + closing))))
  }

  /** A closing instruction as both registered versions have it. */
  ghost predicate Closing(closing: string) {
    "Answer using" <= closing && NoBreak(closing) && NoBraces(closing)
  }

  const CLOSING_START := "Answer using only"
  const RETRIEVED_CONTEXT := " the retrieved context"
  const CITE_V1 := " and cite the"
  const SUPPORTING_V1 := " supporting documents."
  const CITE_V2 := ", cite the supporting"
  const STATE_V2 := " documents, and state"
  const EVIDENCE_V2 := " clearly when evidence"
  const INSUFFICIENT_V2 := " is insufficient."
  const CLOSING_V1 := CLOSING_START + RETRIEVED_CONTEXT + CITE_V1 + SUPPORTING_V1
  const CLOSING_V2 := CLOSING_START + RETRIEVED_CONTEXT + CITE_V2 + STATE_V2 + EVIDENCE_V2 + INSUFFICIENT_V2

  ghost predicate PlainText(s: string) { NoBreak(s) && NoBraces(s) }

  lemma ClosingGoesOn(closing: string, more: string)
    requires Closing(closing) && PlainText(more)
    ensures Closing(closing + more)
  {
  }

  lemma ClosingStarts()
    ensures Closing(CLOSING_START) && PlainText(RETRIEVED_CONTEXT)
  {
  }

  lemma PartsOfV1()
    ensures PlainText(CITE_V1) && PlainText(SUPPORTING_V1)
  {
  }

  lemma PartsOfV2()
    ensures PlainText(CITE_V2) && PlainText(STATE_V2)
  {
  }

  lemma LastPartsOfV2()
    ensures PlainText(EVIDENCE_V2) && PlainText(INSUFFICIENT_V2)
  {
  }

  /** The closing instructions of both registered versions are as the printer needs them. */
  lemma RegisteredClosings()
    ensures Closing(CLOSING_V1) && Closing(CLOSING_V2)
  {
    ClosingStarts();
    PartsOfV1();
    PartsOfV2();
    LastPartsOfV2();
    hide Closing, PlainText, CLOSING_START, RETRIEVED_CONTEXT, CITE_V1, SUPPORTING_V1, CITE_V2, STATE_V2, EVIDENCE_V2,
      INSUFFICIENT_V2;
    ClosingGoesOn(CLOSING_START, RETRIEVED_CONTEXT);
    ClosingGoesOn(CLOSING_START + RETRIEVED_CONTEXT, CITE_V1);
    ClosingGoesOn(CLOSING_START + RETRIEVED_CONTEXT + CITE_V1, SUPPORTING_V1);
    ClosingGoesOn(CLOSING_START + RETRIEVED_CONTEXT, CITE_V2);
    ClosingGoesOn(CLOSING_START + RETRIEVED_CONTEXT + CITE_V2, STATE_V2);
    ClosingGoesOn(CLOSING_START + RETRIEVED_CONTEXT + CITE_V2 + STATE_V2, EVIDENCE_V2);
    ClosingGoesOn(CLOSING_START + RETRIEVED_CONTEXT + CITE_V2 + STATE_V2 + EVIDENCE_V2, INSUFFICIENT_V2);
  }

  predicate NoBraces(s: string) {
    forall i :: 0 <= i < |s| ==> s[i] != '{' && s[i] != '}'
  }

  lemma {:induction false} NoBracesFormat(rules: Rules, s: string, variables: map<string, Value>)
    requires NoBraces(s)
    ensures Format(rules, s, variables) == Ok(s)
  {
    hide ReadFieldFrom;
    if s != "" {
      NoBracesFormat(rules, s[1..], variables);
      assert s == [s[0]] + s[1..];
      var segments := Parse(s[1..]).value;
      assert ([Char(s[0])] + segments)[1..] == segments;
    }
  }

  function PromptText(question: string, context: string, closing: string): string {
    QUESTION_PREFIX + (question + (BETWEEN + (context + ("\n\n" + closing))))
  }

  /** Formatting a text with one plain field between two others. */
  lemma FormatsField(rules: Rules, before: string, name: string, after: string, text: string,
                     variables: map<string, Value>, left: string, right: string)
    requires Faithful(rules) && name in variables && variables[name] == Str(text)
    requires name != "" && rules.digit(name[0]) == None
    requires forall i :: 0 <= i < |name| ==> !EndsName(name[i]) && name[i] !in {'.', '['}
    requires Format(rules, before, variables) == Ok(left) && Format(rules, after, variables) == Ok(right)
    ensures Format(rules, before + ("{" + (name + "}") + after), variables) == Ok(left + (text + right))
  {
    hide *;
    PlainName(rules, name, text, variables);
    FormatIsOnePass(rules, before, Field(name, None, None), after, variables);
  }

  /** The two names of the template are plain words. */
  lemma Words(rules: Rules)
    requires Faithful(rules)
    ensures rules.digit("question"[0]) == None && rules.digit("context"[0]) == None
    ensures forall i :: 0 <= i < |"question"| ==> !EndsName("question"[i]) && "question"[i] !in {'.', '['}
    ensures forall i :: 0 <= i < |"context"| ==> !EndsName("context"[i]) && "context"[i] !in {'.', '['}
    ensures "{" + ("context" + "}") == "{context}" && "{" + ("question" + "}") == "{question}"
  {
    assert "context"[0] == 'c' && "question"[0] == 'q';
  }

  lemma RagAnswerFormat(rules: Rules, question: string, context: string, closing: string)
    requires Faithful(rules) && NoBraces(closing)
    ensures Format(rules, RagAnswerTemplate(closing), TextValues(PromptValues(question, context)))
         == Ok(PromptText(question, context, closing))
  {
    var variables := TextValues(PromptValues(question, context));
    Words(rules);
    assert variables["question"] == Str(question) && variables["context"] == Str(context);
    var tail := BETWEEN + ("{context}" + ("\n\n" + closing));
    assert RagAnswerTemplate(closing) == QUESTION_PREFIX + ("{question}" + tail);
    assert PromptText(question, context, closing)
        == QUESTION_PREFIX + (question + (BETWEEN + (context + ("\n\n" + closing))));
    hide *;
    NoBracesFormat(rules, "\n\n" + closing, variables);
    NoBracesFormat(rules, BETWEEN, variables);
    NoBracesFormat(rules, QUESTION_PREFIX, variables);
    FormatsField(rules, BETWEEN, "context", "\n\n" + closing, context, variables, BETWEEN, "\n\n" + closing);
    FormatsField(rules, QUESTION_PREFIX, "question", tail, question, variables, QUESTION_PREFIX,
                 BETWEEN + (context + ("\n\n" + closing)));
  }

  // ---------------------------------------------------------------- the lines of a prompt

  /** The context followed by the closing instruction, block by block. */
  function Body(chunks: seq<RetrievedChunk>, first: nat, closing: string): string {
    if chunks == [] then closing
    else Block(first, chunks[0]) + "\n" + ("\n" + Body(chunks[1..], first + 1, closing))
  }

  lemma {:induction false} ContextThenClosing(chunks: seq<RetrievedChunk>, first: nat, closing: string)
    requires chunks != []
    ensures Join(Blocks(chunks, first), "\n\n") + ("\n\n" + closing) == Body(chunks, first, closing)
  {
    hide Block;
    var block := Block(first, chunks[0]);
    if |chunks| == 1 {
      assert Blocks(chunks[1..], first + 1) == [];
      assert block + ("\n\n" + closing) == block + "\n" + ("\n" + closing);
    } else {
      ContextThenClosing(chunks[1..], first + 1, closing);
      var rest := Join(Blocks(chunks[1..], first + 1), "\n\n");
      assert Blocks(chunks, first)[1..] == Blocks(chunks[1..], first + 1);
      assert block + "\n\n" + rest + ("\n\n" + closing) == block + "\n" + ("\n" + (rest + ("\n\n" + closing)));
    }
  }

  lemma {:induction false} SplitHeaders(headers: seq<string>, text: string, rest: string)
    requires forall k :: 0 <= k < |headers| ==> NoBreak(headers[k])
    ensures SplitLines(Join(headers + [text], "\n") + "\n" + rest) == headers + SplitLines(text + "\n" + rest)
  {
    hide SplitLines, NoBreak;
    if headers == [] {
      assert headers + [text] == [text];
    } else {
      var tail := Join(headers[1..] + [text], "\n") + "\n" + rest;
      assert (headers + [text])[1..] == headers[1..] + [text];
      SplitHeaders(headers[1..], text, rest);
      SplitFirstLine(headers[0], tail);
      assert Join(headers + [text], "\n") + "\n" + rest == headers[0] + "\n" + tail;
      assert headers == [headers[0]] + headers[1..];
    }
  }

  /** Header fields fill one line each. */
  ghost predicate SingleLineHeader(chunk: RetrievedChunk) {
    && NoBreak(chunk.experimentId) && NoBreak(chunk.experimentName) && NoBreak(chunk.documentName)
    && NoBreak(chunk.similarity) && NoBreak(chunk.metadata)
  }

  lemma NoBreakConcat(a: string, b: string)
    requires NoBreak(a) && NoBreak(b)
    ensures NoBreak(a + b)
  {
  }

  lemma HeadersAreLines(index: nat, chunk: RetrievedChunk)
    requires SingleLineHeader(chunk)
    ensures forall k :: 0 <= k < |HeaderLines(index, chunk)| ==> NoBreak(HeaderLines(index, chunk)[k])
  {
    assert NoBreak(Decimal(index));
    NoBreakConcat("Chunk ", Decimal(index));
    NoBreakConcat("Experiment ID: ", chunk.experimentId);
    NoBreakConcat("Experiment: ", chunk.experimentName);
    NoBreakConcat("Document: ", chunk.documentName);
    NoBreakConcat("Similarity: ", chunk.similarity);
    NoBreakConcat("Metadata: ", chunk.metadata);
  }

  /** The lines of a block: its headers, `Text:`, the text's lines and one or two empty lines. */
  lemma BlockLines(index: nat, chunk: RetrievedChunk, rest: string) returns (blanks: seq<string>)
    requires SingleLineHeader(chunk)
    ensures blanks == [""] || blanks == ["", ""]
    ensures SplitLines(Block(index, chunk) + "\n" + ("\n" + rest))
         == (HeaderLines(index, chunk) + ["Text:"]) + ((SplitLines(chunk.chunkText) + blanks) + SplitLines(rest))
  {
    var headers := HeaderLines(index, chunk) + ["Text:"];
    HeadersAreLines(index, chunk);
    assert NoBreak("Text:");
    assert headers + [chunk.chunkText] == HeaderLines(index, chunk) + ["Text:", chunk.chunkText];
    hide HeaderLines, SplitLines, Join;
    SplitHeaders(headers, chunk.chunkText, "\n" + rest);
    var extra := SplitTextThenNewline(chunk.chunkText, "\n" + rest);
    SplitFirstLine("", rest);
    assert "" + "\n" + rest == "\n" + rest;
    blanks := extra + [""];
    Regroup(SplitLines(chunk.chunkText), extra, [""], SplitLines(rest));
  }

  lemma Regroup(a: seq<string>, b: seq<string>, c: seq<string>, d: seq<string>)
    ensures a + b + (c + d) == (a + (b + c)) + d
  {
  }

  /** A break-free prefix only extends the first line. */
  lemma PrefixedLines(prefix: string, s: string)
    requires NoBreak(prefix) && prefix != ""
    ensures SplitLines(prefix + s) != [] && prefix <= SplitLines(prefix + s)[0]
    ensures s != "" ==> SplitLines(prefix + s)[0] == prefix + SplitLines(s)[0]
    ensures s == "" ==> SplitLines(prefix + s) == [prefix]
    ensures s != "" ==> SplitLines(prefix + s)[1..] == SplitLines(s)[1..]
  {
    hide SplitLines, BreakAt;
    var i := BreakAt(s);
    if s == "" {
      assert prefix + s == prefix;
      NoBreakIsLine(prefix);
    } else if i == |s| {
      NoBreakIsLine(prefix + s);
      NoBreakIsLine(s);
    } else {
      var t := prefix + s;
      SplitAt(s, i);
      SplitAt(t, |prefix| + i);
      assert t[..|prefix| + i] == prefix + s[..i];
      assert AfterBreak(t, |prefix| + i) == AfterBreak(s, i);
    }
  }

  // ---------------------------------------------------------------- scanning a prompt

  ghost predicate NoLineStarts(lines: seq<string>, prefix: string) {
    forall k :: 0 <= k < |lines| ==> !StartsWith(lines[k], prefix)
  }

  /** No line of the chunk's text reads as a scanner keyword. */
  ghost predicate KeywordFree(chunk: RetrievedChunk) {
    var lines := SplitLines(chunk.chunkText);
    NoLineStarts(lines, "Text:") && NoLineStarts(lines, "Chunk ") && NoLineStarts(lines, "Answer using")
  }

  lemma {:induction false} ScanIdle(s: ScanState, lines: seq<string>)
    requires !s.collecting && NoLineStarts(lines, "Text:")
    ensures Scan(s, lines) == s
  {
    if lines != [] {
      ScanIdle(s, lines[..|lines| - 1]);
    }
  }

  lemma {:induction false} ScanCollects(s: ScanState, lines: seq<string>)
    requires s.collecting && !s.stopped
    requires NoLineStarts(lines, "Text:") && NoLineStarts(lines, "Chunk ") && NoLineStarts(lines, "Answer using")
    ensures Scan(s, lines) == s.(current := s.current + lines)
  {
    if lines != [] {
      var n := |lines| - 1;
      ScanCollects(s, lines[..n]);
      assert lines == lines[..n] + [lines[n]];
    } else {
      assert s.current + lines == s.current;
    }
  }

  lemma ScanOne(s: ScanState, line: string)
    ensures Scan(s, [line]) == ScanLine(s, line)
  {
    assert [line][..0] == [];
  }

  /** The header lines close the previous text, and `Text:` opens the next one. */
  lemma ScanHeaders(s: ScanState, index: nat, chunk: RetrievedChunk)
    requires !s.stopped
    ensures Scan(s, HeaderLines(index, chunk) + ["Text:"]) == ScanState(true, [], Flush(s), false)
  {
    var headers := HeaderLines(index, chunk);
    var closed := ScanLine(s, headers[0]);
    assert headers[0][0] == 'C' && StartsWith(headers[0], "Chunk ");
    assert !StartsWith(headers[0], "Answer using");
    assert !closed.collecting && !closed.stopped && Flush(closed) == Flush(s);
    assert headers[1][0] == 'E' && headers[2][0] == 'E' && headers[3][0] == 'D' && headers[4][0] == 'S' && headers[5][0] == 'M';
    assert NoLineStarts(headers[1..], "Text:");
    ScanOne(s, headers[0]);
    ScanIdle(closed, headers[1..]);
    ScanOne(closed, "Text:");
    ScanConcat(s, [headers[0]], headers[1..]);
    assert headers == [headers[0]] + headers[1..];
    ScanConcat(s, headers, ["Text:"]);
  }

  lemma NoKeywordInBlanks(lines: seq<string>, blanks: seq<string>)
    requires NoLineStarts(lines, "Text:") && NoLineStarts(lines, "Chunk ") && NoLineStarts(lines, "Answer using")
    requires blanks == [""] || blanks == ["", ""]
    ensures var all := lines + blanks;
            NoLineStarts(all, "Text:") && NoLineStarts(all, "Chunk ") && NoLineStarts(all, "Answer using")
  {
  }

  lemma ScanText(s: ScanState, chunk: RetrievedChunk, blanks: seq<string>)
    requires s.collecting && !s.stopped && s.current == []
    requires KeywordFree(chunk) && (blanks == [""] || blanks == ["", ""])
    ensures var after := Scan(s, SplitLines(chunk.chunkText) + blanks);
            !after.stopped && Flush(after) == s.sections + [Collapse(SplitLines(chunk.chunkText))]
  {
    hide SplitLines, Scan, Join, Trimmed, StartsWith;
    var lines := SplitLines(chunk.chunkText);
    NoKeywordInBlanks(lines, blanks);
    hide KeywordFree, NoLineStarts;
    ScanCollects(s, lines + blanks);
    TrimmedBlankTail(lines, blanks);
    assert [] + (lines + blanks) == lines + blanks;
  }

  /** The collapsed texts of the chunks. */
  function CollapsedTexts(chunks: seq<RetrievedChunk>): seq<string> {
    if chunks == [] then [] else [Collapse(SplitLines(chunks[0].chunkText))] + CollapsedTexts(chunks[1..])
  }

  lemma ScanClosing(s: ScanState, closing: string)
    requires !s.stopped && "Answer using" <= closing && NoBreak(closing)
    ensures Flush(Scan(s, SplitLines(closing))) == Flush(s)
  {
    NoBreakIsLine(closing);
    ScanOne(s, closing);
    assert closing[0] == 'A';
  }

  lemma {:induction false} ScanBody(s: ScanState, chunks: seq<RetrievedChunk>, first: nat, closing: string)
    requires !s.stopped && "Answer using" <= closing && NoBreak(closing)
    requires forall k :: 0 <= k < |chunks| ==> SingleLineHeader(chunks[k]) && KeywordFree(chunks[k])
    ensures Flush(Scan(s, SplitLines(Body(chunks, first, closing)))) == Flush(s) + CollapsedTexts(chunks)
    decreases |chunks|
  {
    hide Block, HeaderLines, ScanLine, SplitLines, Flush, Collapse, KeywordFree, SingleLineHeader;
    if chunks == [] {
      ScanClosing(s, closing);
    } else {
      var chunk, rest := chunks[0], Body(chunks[1..], first + 1, closing);
      var blanks := BlockLines(first, chunk, rest);
      var headers, text := HeaderLines(first, chunk) + ["Text:"], SplitLines(chunk.chunkText) + blanks;
      ScanHeaders(s, first, chunk);
      var ready := ScanState(true, [], Flush(s), false);
      ScanText(ready, chunk, blanks);
      ScanConcat(s, headers, text + SplitLines(rest));
      ScanConcat(ready, text, SplitLines(rest));
      ScanBody(Scan(ready, text), chunks[1..], first + 1, closing);
      assert Flush(s) + [Collapse(SplitLines(chunk.chunkText))] + CollapsedTexts(chunks[1..])
          == Flush(s) + ([Collapse(SplitLines(chunk.chunkText))] + CollapsedTexts(chunks[1..]));
    }
  }

  /** Every line of a text but the first. */
  function LaterLines(text: string): seq<string> {
    var lines := SplitLines(text);
    if lines == [] then [] else lines[1..]
  }

  lemma SameFirst(line: string, prefix: string)
    requires prefix != ""
    ensures StartsWith(line, prefix) ==> line != "" && line[0] == prefix[0]
  {
  }

  lemma FirstLineOnly(question: string, first: seq<string>, blanks: seq<string>)
    requires first != [] && QUESTION_PREFIX <= first[0] && first[1..] == LaterLines(question)
    requires blanks == [] || blanks == [""]
    ensures NoLineStarts(LaterLines(question), "Text:") ==> NoLineStarts(first + (blanks + HEADING_LINES), "Text:")
    ensures NoLineStarts(LaterLines(question), "Document:") ==> NoLineStarts(first + (blanks + HEADING_LINES), "Document:")
  {
    hide LaterLines;
    assert first[0][0] == 'U';
    KeepPrefixFree(first, blanks, "Text:");
    KeepPrefixFree(first, blanks, "Document:");
  }

  lemma KeepPrefixFree(first: seq<string>, blanks: seq<string>, prefix: string)
    requires first != [] && first[0] != "" && prefix != "" && first[0][0] != prefix[0] && prefix[0] != 'R'
    requires blanks == [] || blanks == [""]
    ensures NoLineStarts(first[1..], prefix) ==> NoLineStarts(first + (blanks + HEADING_LINES), prefix)
  {
    if NoLineStarts(first[1..], prefix) {
      var all := first + (blanks + HEADING_LINES);
      forall k | 0 <= k < |all| ensures !StartsWith(all[k], prefix) {
        SameFirst(all[k], prefix);
        if 0 < k < |first| {
          assert all[k] == first[1..][k - 1];
        }
      }
    }
  }

  /** The lines before the first block: the question's lines and the context heading. */
  lemma QuestionLines(question: string, rest: string) returns (lines: seq<string>)
    ensures SplitLines(QUESTION_PREFIX + (question + (BETWEEN + rest))) == lines + SplitLines(rest)
    ensures lines != [] && QUESTION_PREFIX <= lines[0]
    ensures NoBreak(question) ==> lines[0] == QUESTION_PREFIX + question
    ensures NoLineStarts(LaterLines(question), "Text:") ==> NoLineStarts(lines, "Text:")
    ensures NoLineStarts(LaterLines(question), "Document:") ==> NoLineStarts(lines, "Document:")
  {
    assert NoBreak(QUESTION_PREFIX) && QUESTION_PREFIX != "";
    hide *;
    var first := QUESTION_PREFIX + question;
    PromptShape(question, rest);
    PrefixedLines(QUESTION_PREFIX, question);
    LaterOfPrefixed(QUESTION_PREFIX, question);
    var blanks := SplitTextThenNewline(first, HEADING + rest);
    HeadingLines(rest);
    var heading := blanks + HEADING_LINES;
    lines := SplitLines(first) + heading;
    Regroup(SplitLines(first), blanks, HEADING_LINES, SplitLines(rest));
    if NoBreak(question) {
      SingleLineQuestion(question);
    }
    FirstLineOnly(question, SplitLines(first), blanks);
  }

  lemma SingleLineQuestion(question: string)
    requires NoBreak(question)
    ensures SplitLines(QUESTION_PREFIX + question) == [QUESTION_PREFIX + question]
  {
    hide SplitLines;
    assert NoBreak(QUESTION_PREFIX);
    NoBreakConcat(QUESTION_PREFIX, question);
    NoBreakIsLine(QUESTION_PREFIX + question);
  }

  lemma LaterOfPrefixed(prefix: string, s: string)
    requires NoBreak(prefix) && prefix != ""
    ensures SplitLines(prefix + s) != [] && SplitLines(prefix + s)[1..] == LaterLines(s)
  {
    hide SplitLines;
    PrefixedLines(prefix, s);
    SplitEmpty();
    if s != "" {
      SplitNonEmpty(s);
    }
  }

  lemma SplitNonEmpty(s: string)
    requires s != ""
    ensures SplitLines(s) != []
  {
  }

  lemma PromptShape(question: string, rest: string)
    ensures QUESTION_PREFIX + (question + (BETWEEN + rest)) == (QUESTION_PREFIX + question) + "\n" + (HEADING + rest)
  {
    hide QUESTION_PREFIX, HEADING;
  }

  lemma HeadingLines(rest: string)
    ensures SplitLines(HEADING + rest) == HEADING_LINES + SplitLines(rest)
  {
    hide SplitLines;
    var third := "\n" + rest;
    var second := "Retrieved Context:" + "\n" + third;
    SplitFirstLine("", rest);
    SplitFirstLine("Retrieved Context:", third);
    SplitFirstLine("", second);
    assert "" + "\n" + rest == third && "" + "\n" + second == "\n" + second;
    assert HEADING + rest == "\n" + second;
  }

  // ---------------------------------------------------------------- round trips

  /** What the printer needs of its input for the scanners to read the context back. */
  ghost predicate Readable(question: string, chunks: seq<RetrievedChunk>) {
    && NoLineStarts(LaterLines(question), "Text:")
    && forall k :: 0 <= k < |chunks| ==> SingleLineHeader(chunks[k]) && KeywordFree(chunks[k])
  }

  lemma {:induction false} CollapsedInked(chunks: seq<RetrievedChunk>)
    ensures forall k :: 0 <= k < |CollapsedTexts(chunks)| && CollapsedTexts(chunks)[k] != "" ==> Inked(CollapsedTexts(chunks)[k])
  {
    hide Collapse, SplitLines;
    if chunks != [] {
      CollapseInked(SplitLines(chunks[0].chunkText));
      CollapsedInked(chunks[1..]);
    }
  }

  lemma {:induction false} NonEmptyInked(parts: seq<string>)
    requires forall k :: 0 <= k < |parts| && parts[k] != "" ==> Inked(parts[k])
    ensures forall k :: 0 <= k < |NonEmpty(parts)| ==> Inked(NonEmpty(parts)[k])
  {
    if parts != [] {
      NonEmptyInked(parts[..|parts| - 1]);
    }
  }

  lemma PromptIsBody(question: string, chunks: seq<RetrievedChunk>, closing: string)
    requires chunks != []
    ensures PromptText(question, ContextText(chunks), closing)
         == QUESTION_PREFIX + (question + (BETWEEN + Body(chunks, 1, closing)))
  {
    ContextThenClosing(chunks, 1, closing);
    hide QUESTION_PREFIX, BETWEEN, Join, Blocks, Body;
  }

  /**
   Scanning the printed prompt yields the collapsed texts of the chunks that have any text, one
   per line, in order.
   */
  lemma ContextRoundTrip(question: string, chunks: seq<RetrievedChunk>, closing: string)
    requires chunks != [] && Closing(closing) && Readable(question, chunks)
    ensures ContextOfLines(SplitLines(PromptText(question, ContextText(chunks), closing)))
         == Join(NonEmpty(CollapsedTexts(chunks)), "\n")
  {
    assert Flush(SCAN_START) == [];
    StripInked(Join(NonEmpty(CollapsedTexts(chunks)), "\n"));
    JoinOfNothing("\n");
    hide PromptText, SplitLines, Scan, Flush, Body, CollapsedTexts, Join, Strip, NonEmpty, ScanLine, QUESTION_PREFIX,
      BETWEEN, Inked, KeywordFree, SingleLineHeader, LaterLines, NoLineStarts, ContextText, NoBreak, NoBraces;
    var body := Body(chunks, 1, closing);
    PromptIsBody(question, chunks, closing);
    var lines := QuestionLines(question, body);
    ScanIdle(SCAN_START, lines);
    ScanConcat(SCAN_START, lines, SplitLines(body));
    ScanBody(SCAN_START, chunks, 1, closing);
    assert [] + CollapsedTexts(chunks) == CollapsedTexts(chunks);
    CollapsedInked(chunks);
    NonEmptyInked(CollapsedTexts(chunks));
    JoinInked(NonEmpty(CollapsedTexts(chunks)), "\n");
  }

  lemma StripInked(s: string)
    ensures s == "" || Inked(s) ==> Strip(s) == s
  {
    hide Strip;
    if s == "" || Inked(s) {
      StripFixed(s);
    }
  }

  lemma JoinOfNothing(separator: string)
    ensures Join([], separator) == ""
  {
  }

  /** A single-line question is the first line, behind its prefix. */
  lemma QuestionRoundTrip(question: string, chunks: seq<RetrievedChunk>, closing: string)
    requires chunks != [] && NoBreak(question) && Strip(question) == question
    ensures var lines := SplitLines(PromptText(question, ContextText(chunks), closing));
            FirstLineWith(lines, "User Question:", 0) && Strip(lines[0][|"User Question:"|..]) == question
  {
    hide SplitLines, PromptText, Body, BETWEEN, Strip;
    PromptIsBody(question, chunks, closing);
    var lines := QuestionLines(question, Body(chunks, 1, closing));
    assert "User Question:" <= QUESTION_PREFIX && QUESTION_PREFIX[14..] == " ";
    assert lines[0][14..] == " " + question;
    StripLeadingSpace(question);
  }

  lemma StripLeadingSpace(s: string)
    ensures Strip(" " + s) == Strip(s)
  {
    hide SkipSpace, DropSpace;
    var lo := SkipSpace(s, 0, |s|);
    var hi := DropSpace(s, lo, |s|);
    StripIs(" " + s, lo + 1, hi + 1);
    assert (" " + s)[lo + 1..hi + 1] == s[lo..hi];
  }

  function DocumentNames(chunks: seq<RetrievedChunk>): seq<string> {
    if chunks == [] then [] else [Strip(chunks[0].documentName)] + DocumentNames(chunks[1..])
  }

  lemma HeaderNames(index: nat, chunk: RetrievedChunk)
    ensures NamesOnLines(HeaderLines(index, chunk) + ["Text:"]) == [Strip(chunk.documentName)]
  {
    hide Strip;
    var headers := HeaderLines(index, chunk);
    var line: string := headers[3];
    assert headers[0][0] == 'C' && headers[1][0] == 'E' && headers[2][0] == 'E' && headers[4][0] == 'S' && headers[5][0] == 'M';
    NoNames(headers[..3]);
    NoNames(headers[4..] + ["Text:"]);
    var none: seq<string> := [];
    assert [line][..0] == none;
    assert line[9..] == " " + chunk.documentName;
    StripLeadingSpace(chunk.documentName);
    assert NamesOnLines([line]) == [Strip(chunk.documentName)];
    NamesConcat(headers[..3], [line]);
    NamesConcat(headers[..3] + [line], headers[4..] + ["Text:"]);
    assert headers + ["Text:"] == headers[..3] + [line] + (headers[4..] + ["Text:"]);
  }

  lemma {:induction false} BodyNames(chunks: seq<RetrievedChunk>, first: nat, closing: string)
    requires "Answer using" <= closing && NoBreak(closing)
    requires forall k :: 0 <= k < |chunks| ==>
               SingleLineHeader(chunks[k]) && NoLineStarts(SplitLines(chunks[k].chunkText), "Document:")
    ensures NamesOnLines(SplitLines(Body(chunks, first, closing))) == DocumentNames(chunks)
    decreases |chunks|
  {
    hide Block, HeaderLines, SplitLines, NamesOnLines, SingleLineHeader, Strip, NoBreak;
    if chunks == [] {
      NoBreakIsLine(closing);
      assert closing[0] == 'A';
      NoNames([closing]);
    } else {
      var chunk, rest := chunks[0], Body(chunks[1..], first + 1, closing);
      var blanks := BlockLines(first, chunk, rest);
      var headers, text := HeaderLines(first, chunk) + ["Text:"], SplitLines(chunk.chunkText) + blanks;
      HeaderNames(first, chunk);
      NoNames(text);
      NamesConcat(headers, text + SplitLines(rest));
      NamesConcat(text, SplitLines(rest));
      BodyNames(chunks[1..], first + 1, closing);
    }
  }

  /** No line of a text or of the question passes for a document name. */
  ghost predicate NamesReadable(question: string, chunks: seq<RetrievedChunk>) {
    && NoLineStarts(LaterLines(question), "Document:")
    && forall k :: 0 <= k < |chunks| ==>
         SingleLineHeader(chunks[k]) && NoLineStarts(SplitLines(chunks[k].chunkText), "Document:")
  }

  /** The document names come back in order of first occurrence, without blanks or duplicates. */
  lemma DocumentNamesRoundTrip(question: string, chunks: seq<RetrievedChunk>, closing: string)
    requires chunks != [] && Closing(closing) && NamesReadable(question, chunks)
    ensures FirstOccurrences(NamesOnLines(SplitLines(PromptText(question, ContextText(chunks), closing))))
         == FirstOccurrences(DocumentNames(chunks))
  {
    hide PromptText, SplitLines, Body, NamesOnLines, DocumentNames, QUESTION_PREFIX, BETWEEN, FirstOccurrences,
      LaterLines;
    var body := Body(chunks, 1, closing);
    PromptIsBody(question, chunks, closing);
    var lines := QuestionLines(question, body);
    NoNames(lines);
    NamesConcat(lines, SplitLines(body));
    BodyNames(chunks, 1, closing);
    assert [] + DocumentNames(chunks) == DocumentNames(chunks);
  }

  /** The definition has the registered user template, a system template without fields and these two variables. */
  ghost predicate RagAnswerDefinition(d: PromptDefinition, closing: string) {
    && d.userTemplate == RagAnswerTemplate(closing) && Closing(closing)
    && NoBraces(d.systemTemplate) && AsSet(d.inputVariables) == {"question", "context"}
  }

  /** The printed prompt is the filled template, and blank input is an error, not a prompt. */
  lemma PrintedPrompt(rules: Rules, d: PromptDefinition, question: string, chunks: seq<RetrievedChunk>, closing: string)
    requires Faithful(rules) && RagAnswerDefinition(d, closing)
    ensures var built := BuildGroundedPrompt(rules, d, question, chunks);
            if Blank(question) || chunks == [] then built == Err(UnusableValue)
            else
              && built.Ok? && built.value.systemPrompt == d.systemTemplate
              && built.value.userPrompt == PromptText(Strip(question), ContextText(chunks), closing)
  {
    assert NoBraces(closing);
    hide RagAnswerTemplate, PromptText, Format, RenderedText, Faithful, NoBraces, Closing, ContextText;
    var variables := TextValues(PromptValues(Strip(question), ContextText(chunks)));
    StripEdges(question);
    StripIdempotent(question);
    ContextBlank(chunks);
    StripEdges(ContextText(chunks));
    hide Strip;
    assert variables.Keys == {"question", "context"};
    assert variables["question"] == Str(Strip(question)) && variables["context"] == Str(ContextText(chunks));
    assert AllUsable(variables) <==> !Blank(question) && chunks != [];
    NoBracesFormat(rules, d.systemTemplate, variables);
    RagAnswerFormat(rules, Strip(question), ContextText(chunks), closing);
  }

  lemma ContextBlank(chunks: seq<RetrievedChunk>)
    ensures Blank(ContextText(chunks)) <==> chunks == []
  {
    if chunks != [] {
      var block := Block(1, chunks[0]);
      assert (HeaderLines(1, chunks[0]) + ["Text:", chunks[0].chunkText])[0][0] == 'C';
      assert block[0] == 'C';
      assert ContextText(chunks)[0] == 'C';
    }
  }

  /**
   Whenever a grounded prompt is built, scanning it gives back what went into it: the collapsed texts of
   the chunks, the stripped question if it is one line, and the document names.
   */
  lemma GroundedPromptIsReadBack(rules: Rules, d: PromptDefinition, question: string, chunks: seq<RetrievedChunk>,
                                 closing: string)
    requires Faithful(rules) && RagAnswerDefinition(d, closing)
    requires BuildGroundedPrompt(rules, d, question, chunks).Ok?
    ensures var lines := SplitLines(BuildGroundedPrompt(rules, d, question, chunks).value.userPrompt);
            && (Readable(Strip(question), chunks) ==>
                  ContextOfLines(lines) == Join(NonEmpty(CollapsedTexts(chunks)), "\n"))
            && (NoBreak(Strip(question)) ==>
                  FirstLineWith(lines, "User Question:", 0) && Strip(lines[0][|"User Question:"|..]) == Strip(question))
            && (NamesReadable(Strip(question), chunks) ==>
                  FirstOccurrences(NamesOnLines(lines)) == FirstOccurrences(DocumentNames(chunks)))
  {
    assert Closing(closing);
    hide *;
    PrintedPrompt(rules, d, question, chunks, closing);
    StripIdempotent(question);
    if Readable(Strip(question), chunks) {
      ContextRoundTrip(Strip(question), chunks, closing);
    }
    if NoBreak(Strip(question)) {
      QuestionRoundTrip(Strip(question), chunks, closing);
    }
    if NamesReadable(Strip(question), chunks) {
      DocumentNamesRoundTrip(Strip(question), chunks, closing);
    }
  }
}
