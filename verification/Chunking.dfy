/**
 The Markdown chunker (packages/ingestion/chunking.py): reports are cut into sections at level
 two and three headings, and each section is cut into overlapping windows that prefer to end at
 a paragraph or word break.
 */
module Chunking {
  import opened Text

  // ---------------------------------------------------------------- headings and sections

  /**
   `^(#{2,3})\s+(.+?)\s*$`: two or three hash signs, a whitespace character, and at least one
   more character, which may itself be whitespace.
   */
  function HashCount(line: string): nat {
    if |line| > 2 && line[2] == '#' then 3 else 2
  }

  predicate IsHeading(line: string) {
    && "##" <= line
    && HashCount(line) + 2 <= |line|
    && IsSpace(line[HashCount(line)])
  }

  function HeadingTitle(line: string): string
    requires IsHeading(line)
  {
    Strip(line[HashCount(line)..])
  }

  datatype MarkdownSection = MarkdownSection(title: Option<string>, text: string)

  /** A heading starts a group; any other line joins the last group. */
  function AddLine(groups: seq<seq<string>>, line: string): seq<seq<string>> {
    if groups == [] || IsHeading(line) then groups + [[line]]
    else groups[..|groups| - 1] + [groups[|groups| - 1] + [line]]
  }

  /** The report's lines in groups. */
  function GroupLines(lines: seq<string>): seq<seq<string>> {
    if lines == [] then []
    else AddLine(GroupLines(lines[..|lines| - 1]), lines[|lines| - 1])
  }

  function GroupTitle(group: seq<string>): Option<string> {
    if group != [] && IsHeading(group[0]) then Some(HeadingTitle(group[0])) else None
  }

  function SectionOf(group: seq<string>): MarkdownSection {
    MarkdownSection(GroupTitle(group), Strip(Join(group, "\n")))
  }

  /** The sections with text, in order. */
  function SectionsOf(groups: seq<seq<string>>): seq<MarkdownSection> {
    if groups == [] then []
    else
      var section := SectionOf(groups[|groups| - 1]);
      SectionsOf(groups[..|groups| - 1]) + (if section.text == "" then [] else [section])
  }

  function Flatten<T>(groups: seq<seq<T>>): seq<T> {
    if groups == [] then [] else groups[0] + Flatten(groups[1..])
  }

  lemma {:induction false} FlattenSnoc<T>(groups: seq<seq<T>>, last: seq<T>)
    ensures Flatten(groups + [last]) == Flatten(groups) + last
  {
    if groups == [] {
      assert groups + [last] == [last];
      assert Flatten([last][1..]) == [];
    } else {
      assert (groups + [last])[1..] == groups[1..] + [last];
      FlattenSnoc(groups[1..], last);
    }
  }

  /** Headings occur only as first lines, and every group but the first starts with one. */
  ghost predicate WellGrouped(groups: seq<seq<string>>) {
    && (forall g :: 0 <= g < |groups| ==> groups[g] != [])
    && (forall g :: 0 < g < |groups| ==> IsHeading(groups[g][0]))
    && (forall g, k :: 0 <= g < |groups| && 0 < k < |groups[g]| ==> !IsHeading(groups[g][k]))
  }

  lemma AddLineKeepsLines(groups: seq<seq<string>>, line: string)
    ensures Flatten(AddLine(groups, line)) == Flatten(groups) + [line]
  {
    hide IsHeading, Flatten;
    if groups == [] || IsHeading(line) {
      FlattenSnoc(groups, [line]);
    } else {
      var m := |groups| - 1;
      FlattenSnoc(groups[..m], groups[m]);
      FlattenSnoc(groups[..m], groups[m] + [line]);
      assert groups == groups[..m] + [groups[m]];
    }
  }

  lemma AddLineKeepsShape(groups: seq<seq<string>>, line: string)
    requires WellGrouped(groups)
    ensures WellGrouped(AddLine(groups, line))
  {
    hide IsHeading;
  }

  lemma NoGroups()
    ensures GroupLines([]) == [] && Flatten(GroupLines([])) == [] && WellGrouped(GroupLines([]))
  {
  }

  lemma GroupLinesLast(lines: seq<string>)
    requires lines != []
    ensures GroupLines(lines) == AddLine(GroupLines(lines[..|lines| - 1]), lines[|lines| - 1])
  {
    hide AddLine;
  }

  /** The groups are exactly the report's lines, in order. */
  lemma {:induction false} GroupsPartitionLines(lines: seq<string>)
    ensures Flatten(GroupLines(lines)) == lines
    ensures WellGrouped(GroupLines(lines))
  {
    NoGroups();
    hide AddLine, WellGrouped, Flatten, GroupLines;
    if lines != [] {
      var n := |lines| - 1;
      GroupLinesLast(lines);
      GroupsPartitionLines(lines[..n]);
      AddLineKeepsLines(GroupLines(lines[..n]), lines[n]);
      AddLineKeepsShape(GroupLines(lines[..n]), lines[n]);
      assert lines == lines[..n] + [lines[n]];
    }
  }

  /** The groups that the scan has closed, then the one it is filling. */
  function WithOpen(closed: seq<seq<string>>, open: seq<string>): seq<seq<string>> {
    if open == [] then closed else closed + [open]
  }

  lemma ScanOneLine(closed: seq<seq<string>>, open: seq<string>, line: string)
    requires open == [] ==> closed == []
    ensures AddLine(WithOpen(closed, open), line)
         == if IsHeading(line) then WithOpen(WithOpen(closed, open), [line])
            else WithOpen(closed, open + [line])
  {
    if open != [] {
      assert (closed + [open])[..|closed|] == closed;
    } else {
      assert open + [line] == [line];
    }
  }


  lemma GroupLinesStep(lines: seq<string>, i: nat)
    requires i < |lines|
    ensures GroupLines(lines[..i + 1]) == AddLine(GroupLines(lines[..i]), lines[i])
  {
    hide AddLine;
    assert lines[..i + 1][..i] == lines[..i];
  }

  /** The scan of `_sections_from_markdown`, before blank sections are filtered out. */
  method ScanSections(markdown: string) returns (sections: seq<MarkdownSection>)
    ensures |sections| == |GroupLines(SplitLines(markdown))|
    ensures forall k :: 0 <= k < |sections| ==> sections[k] == SectionOf(GroupLines(SplitLines(markdown))[k])
  {
    hide SplitLines, HeadingTitle, Strip, Join, GroupLines, AddLine, IsSpace;
    var lines := SplitLines(markdown);
    NoGroups();
    var currentTitle: Option<string> := None;
    var currentLines: seq<string> := [];
    sections := [];
    ghost var closed: seq<seq<string>> := [];
    for i := 0 to |lines|
      invariant GroupLines(lines[..i]) == WithOpen(closed, currentLines)
      invariant currentLines == [] ==> closed == []
      invariant currentTitle == GroupTitle(currentLines)
      invariant |sections| == |closed| && forall k :: 0 <= k < |closed| ==> sections[k] == SectionOf(closed[k])
    {
      var line := lines[i];
      ScanOneLine(closed, currentLines, line);
      GroupLinesStep(lines, i);
      if IsHeading(line) {
        if currentLines != [] {
          sections := sections + [MarkdownSection(currentTitle, Strip(Join(currentLines, "\n")))];
          closed := closed + [currentLines];
        }
        currentTitle := Some(HeadingTitle(line));
        currentLines := [line];
        continue;
      }
      currentLines := currentLines + [line];
    }
    if currentLines != [] {
      sections := sections + [MarkdownSection(currentTitle, Strip(Join(currentLines, "\n")))];
    }
    assert lines[..|lines|] == lines;
  }

  /** The filter of `_sections_from_markdown`: `[section for section in sections if section.text]`. */
  method KeepNonBlank(scanned: seq<MarkdownSection>, ghost groups: seq<seq<string>>)
    returns (sections: seq<MarkdownSection>)
    requires |scanned| == |groups| && forall k :: 0 <= k < |groups| ==> scanned[k] == SectionOf(groups[k])
    ensures sections == SectionsOf(groups)
  {
    sections := [];
    for i := 0 to |scanned|
      invariant sections == SectionsOf(groups[..i])
    {
      assert groups[..i + 1][..i] == groups[..i];
      if scanned[i].text != "" {
        sections := sections + [scanned[i]];
      }
    }
    assert groups[..|groups|] == groups;
  }

  /** `_sections_from_markdown` */
  method SectionsFromMarkdown(markdown: string) returns (sections: seq<MarkdownSection>)
    ensures sections == SectionsOf(GroupLines(SplitLines(markdown)))
  {
    var scanned := ScanSections(markdown);
    sections := KeepNonBlank(scanned, GroupLines(SplitLines(markdown)));
  }

  /** The ink of a list of sections, in order. */
  function SectionsInk(sections: seq<MarkdownSection>): string {
    if sections == [] then ""
    else SectionsInk(sections[..|sections| - 1]) + Ink(sections[|sections| - 1].text)
  }

  lemma SectionsInkSnoc(sections: seq<MarkdownSection>, last: MarkdownSection)
    ensures SectionsInk(sections + [last]) == SectionsInk(sections) + Ink(last.text)
  {
    hide Ink;
    assert (sections + [last])[..|sections|] == sections;
  }

  lemma SectionInk(group: seq<string>)
    ensures Ink(SectionOf(group).text) == LinesInk(group)
  {
    hide Ink, LinesInk, Join, Strip, GroupTitle;
    InkOfJoin(group);
    InkStrip(Join(group, "\n"));
  }

  lemma InkOfNothing()
    ensures Ink("") == ""
  {
  }

  lemma SectionsOfLast(groups: seq<seq<string>>, last: seq<string>)
    ensures SectionsOf(groups + [last])
         == if SectionOf(last).text == "" then SectionsOf(groups) else SectionsOf(groups) + [SectionOf(last)]
  {
    hide SectionOf;
    assert (groups + [last])[..|groups|] == groups;
  }

  lemma {:induction false} SectionsKeepInk(groups: seq<seq<string>>)
    ensures SectionsInk(SectionsOf(groups)) == LinesInk(Flatten(groups))
  {
    if groups != [] {
      hide SectionsOf, SectionsInk, LinesInk, Flatten, Ink, SectionOf;
      var before, last := groups[..|groups| - 1], groups[|groups| - 1];
      assert groups == before + [last];
      SectionsKeepInk(before);
      SectionsOfLast(before, last);
      SectionInk(last);
      InkOfNothing();
      SectionsInkSnoc(SectionsOf(before), SectionOf(last));
      FlattenSnoc(before, last);
      LinesInkConcat(Flatten(before), last);
    }
  }

  lemma HeadingIsKept(group: seq<string>)
    requires group != [] && IsHeading(group[0])
    ensures SectionOf(group).text != ""
  {
    StripEdges(Join(group, "\n"));
    assert Join(group, "\n")[0] == group[0][0] == '#';
  }

  /** Only a blank block before the first heading can be dropped from the section list. */
  lemma DroppedSectionIsBlankPreamble(lines: seq<string>, g: nat)
    requires g < |GroupLines(lines)|
    ensures SectionOf(GroupLines(lines)[g]).text == ""
      ==> g == 0 && Blank(Join(GroupLines(lines)[0], "\n")) && GroupTitle(GroupLines(lines)[0]) == None
  {
    GroupsPartitionLines(lines);
    StripEdges(Join(GroupLines(lines)[g], "\n"));
    if IsHeading(GroupLines(lines)[g][0]) {
      HeadingIsKept(GroupLines(lines)[g]);
    }
  }

  // ---------------------------------------------------------------- windows

  /** The end of the window that starts at `start` (the body of the loop up to the slice). */
  function WindowEnd(text: string, target: nat, start: nat): (end: nat)
    requires start < |text| && target > 0
    ensures start < end <= |text| && end <= start + target
  {
    var end := if start + target <= |text| then start + target else |text|;
    if end < |text| then
      var best := BestBreak(text, start, end);
      if best > start + target / 2 then best + 1 else end
    else end
  }

  function Max(a: int, b: int): int { if a < b then b else a }

  /** `max(paragraph_break, sentence_break, word_break)` */
  function BestBreak(text: string, start: nat, end: nat): (best: int)
    requires start <= end <= |text|
    ensures best < end
  {
    Max(RFind(text, "\n\n", start, end), Max(RFind(text, ". ", start, end), RFind(text, " ", start, end)))
  }

  /** A sentence break never decides the window: its space is a later word break. */
  lemma SentenceBreakNeverWins(text: string, start: nat, end: nat)
    requires start <= end <= |text|
    ensures RFind(text, ". ", start, end) != -1 ==> RFind(text, ". ", start, end) < RFind(text, " ", start, end)
    ensures BestBreak(text, start, end) == Max(RFind(text, "\n\n", start, end), RFind(text, " ", start, end))
  {
    var sentence := RFind(text, ". ", start, end);
    if sentence != -1 {
      assert text[sentence + 1] == text[sentence..sentence + 2][1] == ' ';
      assert text[sentence + 1..sentence + 2] == [text[sentence + 1]];
      assert OccursAt(text, " ", sentence + 1);
    }
  }

  /** A space or an empty line that lies inside the window from `start` on and past its middle. */
  predicate BreaksAt(text: string, target: nat, start: nat, i: int)
    requires start + target <= |text|
  {
    && start + target / 2 < i < start + target
    && (text[i] == ' ' || (i + 1 < start + target && text[i] == text[i + 1] == '\n'))
  }

  /** Where a window ends: at the end of the text, just past its last break, or after `target` characters. */
  ghost predicate EndsWindow(text: string, target: nat, start: nat, end: nat)
    requires start < |text|
  {
    if start + target >= |text| then end == |text|
    else if exists i :: BreaksAt(text, target, start, i) then
      BreaksAt(text, target, start, end - 1) && forall i :: end <= i ==> !BreaksAt(text, target, start, i)
    else end == start + target
  }

  lemma LastSpace(text: string, lo: nat, hi: nat)
    requires lo <= hi <= |text|
    ensures var r := RFind(text, " ", lo, hi);
            (r == -1 || (lo <= r < hi && text[r] == ' ')) && forall i :: lo <= i < hi && r < i ==> text[i] != ' '
  {
    var r := RFind(text, " ", lo, hi);
    assert r != -1 ==> text[r] == text[r..r + 1][0];
    forall i | lo <= i < hi && r < i ensures text[i] != ' ' {
      assert !OccursAt(text, " ", i) && text[i..i + 1] == [text[i]];
    }
  }

  lemma LastEmptyLine(text: string, lo: nat, hi: nat)
    requires lo <= hi <= |text|
    ensures var r := RFind(text, "\n\n", lo, hi);
            && (r == -1 || (lo <= r < r + 1 < hi && text[r] == text[r + 1] == '\n'))
            && forall i :: lo <= i && i + 1 < hi && r < i ==> !(text[i] == text[i + 1] == '\n')
  {
    var r := RFind(text, "\n\n", lo, hi);
    assert r != -1 ==> text[r] == text[r..r + 2][0] && text[r + 1] == text[r..r + 2][1];
    forall i | lo <= i && i + 1 < hi && r < i ensures !(text[i] == text[i + 1] == '\n') {
      assert !OccursAt(text, "\n\n", i) && text[i..i + 2] == [text[i], text[i + 1]];
    }
  }

  /** The search finds the last break, if there is one past the middle of the window. */
  lemma LastBreak(text: string, target: nat, start: nat)
    requires start + target < |text|
    ensures var best := BestBreak(text, start, start + target);
            && (best > start + target / 2 ==> BreaksAt(text, target, start, best))
            && forall i :: best < i ==> !BreaksAt(text, target, start, i)
  {
    hide RFind, BestBreak, OccursAt;
    SentenceBreakNeverWins(text, start, start + target);
    LastSpace(text, start, start + target);
    LastEmptyLine(text, start, start + target);
  }

  lemma WindowEndMeaning(text: string, target: nat, start: nat, end: nat)
    requires start < |text| && target > 0
    ensures EndsWindow(text, target, start, end) <==> end == WindowEnd(text, target, start)
  {
    hide BestBreak;
    if start + target < |text| {
      assert forall i :: BreaksAt(text, target, start, i) ==> i > start + target / 2;
      hide BreaksAt;
      LastBreak(text, target, start);
    }
  }

  /** One turn of the loop: the next start, or `None` when the loop is left. */
  function NextStart(text: string, target: nat, overlap: nat, start: nat): Option<nat>
    requires target > 0
  {
    if start >= |text| then None
    else
      var end := WindowEnd(text, target, start);
      if end >= |text| then None
      else Some(if end < overlap then 0 else end - overlap)
  }

  /** The loop state after `n` turns. */
  function StartAfter(text: string, target: nat, overlap: nat, n: nat): Option<nat>
    requires target > 0
  {
    if n == 0 then Some(0)
    else match StartAfter(text, target, overlap, n - 1)
      case None => None
      case Some(start) => NextStart(text, target, overlap, start)
  }

  ghost predicate Halts(text: string, target: nat, overlap: nat)
    requires target > 0
  {
    exists n: nat :: StartAfter(text, target, overlap, n) == None
  }

  /** The overlaps for which every turn moves forward. */
  predicate Progressive(target: nat, overlap: nat) {
    overlap < target && overlap <= target / 2 + 1
  }

  /** The least distance between two window starts. */
  function Stride(target: nat, overlap: nat): (p: nat)
    requires Progressive(target, overlap)
    ensures p > 0
  {
    if target - overlap < target / 2 + 2 - overlap then target - overlap else target / 2 + 2 - overlap
  }

  lemma StepMovesForward(text: string, target: nat, overlap: nat, start: nat)
    requires Progressive(target, overlap)
    requires NextStart(text, target, overlap, start).Some?
    ensures NextStart(text, target, overlap, start).value >= start + Stride(target, overlap)
    ensures NextStart(text, target, overlap, start).value < |text|
  {
  }

  /** From `start` on, every turn of the loop moves forward. */
  predicate Advances(text: string, target: nat, overlap: nat, start: nat)
    requires target > 0
    decreases |text| - start
  {
    match NextStart(text, target, overlap, start)
    case None => true
    case Some(next) => start < next && Advances(text, target, overlap, next)
  }

  /** A turn that does not move forward reaches a start that the loop never leaves again. */
  lemma StandstillRepeats(text: string, target: nat, overlap: nat, start: nat)
    requires overlap < target
    requires NextStart(text, target, overlap, start).Some? && NextStart(text, target, overlap, start).value <= start
    ensures var next := NextStart(text, target, overlap, start).value; NextStart(text, target, overlap, next) == Some(next)
  {
    hide WindowEnd;
    var end := WindowEnd(text, target, start);
    var next := NextStart(text, target, overlap, start).value;
    WindowEndMeaning(text, target, start, end);
    WindowEndMeaning(text, target, next, end);
    assert BreaksAt(text, target, start, end - 1);
    assert BreaksAt(text, target, next, end - 1);
    forall i: int | end <= i ensures !BreaksAt(text, target, next, i) {
      assert !BreaksAt(text, target, start, i);
    }
  }

  lemma {:induction false} StandstillStays(text: string, target: nat, overlap: nat, n: nat)
    requires overlap < target && !Advances(text, target, overlap, 0)
    ensures StartAfter(text, target, overlap, n).Some?
    ensures !Advances(text, target, overlap, StartAfter(text, target, overlap, n).value)
  {
    hide NextStart;
    if n > 0 {
      StandstillStays(text, target, overlap, n - 1);
      var start := StartAfter(text, target, overlap, n - 1).value;
      if NextStart(text, target, overlap, start).value <= start {
        StandstillRepeats(text, target, overlap, start);
      }
    }
  }

  lemma {:induction false} AdvancesHalts(text: string, target: nat, overlap: nat, n: nat, start: nat)
    requires overlap < target && StartAfter(text, target, overlap, n) == Some(start)
    requires Advances(text, target, overlap, start)
    ensures Halts(text, target, overlap)
    decreases |text| - start
  {
    hide WindowEnd;
    var next := StartAfter(text, target, overlap, n + 1);
    assert next == NextStart(text, target, overlap, start);
    if next.Some? {
      hide NextStart, StartAfter;
      AdvancesHalts(text, target, overlap, n + 1, next.value);
    }
  }

  /** On one text the loop ends if and only if every turn moves forward. */
  lemma HaltsExactly(text: string, target: nat, overlap: nat)
    requires overlap < target
    ensures Halts(text, target, overlap) <==> Advances(text, target, overlap, 0)
  {
    if Advances(text, target, overlap, 0) {
      AdvancesHalts(text, target, overlap, 0, 0);
    } else {
      forall n: nat ensures StartAfter(text, target, overlap, n) != None {
        StandstillStays(text, target, overlap, n);
      }
    }
  }

  /** A text on which the loop repeats its first window when the overlap is too large. */
  function StuckText(target: nat): string {
    seq(target / 2 + 1, i => 'a') + " " + seq(target, i => 'a')
  }

  lemma StuckTextRepeats(target: nat, overlap: nat)
    requires overlap < target && overlap > target / 2 + 1
    ensures NextStart(StuckText(target), target, overlap, 0) == Some(0)
  {
    hide BestBreak, StuckText;
    StuckTextBreak(target);
  }

  lemma StuckTextBreak(target: nat)
    requires target > target / 2 + 1
    ensures |StuckText(target)| > target && BestBreak(StuckText(target), 0, target) == target / 2 + 1
  {
    var text := StuckText(target);
    var space := target / 2 + 1;
    assert text[space] == ' ' && forall i :: 0 <= i < |text| && i != space ==> text[i] == 'a';
    hide StuckText, RFind;
    assert text[space..space + 1] == [text[space]];
    assert OccursAt(text, " ", space);
    forall i: int
      ensures OccursAt(text, " ", i) ==> i == space
      ensures !OccursAt(text, "\n\n", i) && !OccursAt(text, ". ", i)
    {
      OccurrenceStart(text, " ", i);
      OccurrenceStart(text, "\n\n", i);
      OccurrenceStart(text, ". ", i);
    }
  }

  lemma {:induction false} StaysAtStart(text: string, target: nat, overlap: nat, n: nat)
    requires target > 0 && NextStart(text, target, overlap, 0) == Some(0)
    ensures StartAfter(text, target, overlap, n) == Some(0)
  {
    hide NextStart;
    if n > 0 {
      StaysAtStart(text, target, overlap, n - 1);
    }
  }

  lemma {:induction false} StartsAdvance(text: string, target: nat, overlap: nat, n: nat)
    requires Progressive(target, overlap)
    ensures match StartAfter(text, target, overlap, n)
            case None => true
            case Some(start) => n <= start && (n > 0 ==> start < |text|)
  {
    if n > 0 {
      StartsAdvance(text, target, overlap, n - 1);
      var before := StartAfter(text, target, overlap, n - 1);
      if before.Some? && NextStart(text, target, overlap, before.value).Some? {
        StepMovesForward(text, target, overlap, before.value);
      }
    }
  }

  /**
   The exact condition for termination. The code accepts every overlap below the target; its
   loop ends on every text only when the overlap is at most half the target plus one.
   */
  lemma HaltsOnEveryTextExactly(target: nat, overlap: nat)
    requires overlap < target
    ensures (forall text: string :: Halts(text, target, overlap)) <==> overlap <= target / 2 + 1
  {
    if overlap <= target / 2 + 1 {
      forall text: string ensures Halts(text, target, overlap) {
        StartsAdvance(text, target, overlap, |text| + 1);
        assert StartAfter(text, target, overlap, |text| + 1) == None;
      }
    } else {
      var text := StuckText(target);
      StuckTextRepeats(target, overlap);
      forall n: nat ensures StartAfter(text, target, overlap, n) != None {
        StaysAtStart(text, target, overlap, n);
      }
      assert !Halts(text, target, overlap);
    }
  }

  datatype Window = Window(lo: nat, hi: nat)

  /** The windows examined from `start` on, as long as the loop moves forward. */
  function Windows(text: string, target: nat, overlap: nat, start: nat): seq<Window>
    requires target > 0
    decreases |text| - start
  {
    if start >= |text| then []
    else
      [Window(start, WindowEnd(text, target, start))]
      + match NextStart(text, target, overlap, start)
        case None => []
        case Some(next) => if start < next then Windows(text, target, overlap, next) else []
  }

  /** At most `(len - 1) / stride + 1` windows are examined. */
  lemma {:induction false} WindowBound(text: string, target: nat, overlap: nat, start: nat)
    requires Progressive(target, overlap) && start < |text|
    ensures (|Windows(text, target, overlap, start)| - 1) * Stride(target, overlap) <= |text| - 1 - start
    decreases |text| - start
  {
    var next := NextStart(text, target, overlap, start);
    if next.Some? {
      StepMovesForward(text, target, overlap, start);
      WindowBound(text, target, overlap, next.value);
      OneMoreStride(|Windows(text, target, overlap, next.value)|, Stride(target, overlap),
                    next.value - start, |text| - 1 - start);
    }
  }

  lemma OneMoreStride(n: nat, p: nat, step: int, total: int)
    requires p <= step && (n - 1) * p <= total - step
    ensures n * p <= total
  {
    assert n * p == (n - 1) * p + p;
  }

  lemma WindowCount(text: string, target: nat, overlap: nat)
    requires Progressive(target, overlap) && text != ""
    ensures |Windows(text, target, overlap, 0)| <= (|text| - 1) / Stride(target, overlap) + 1
  {
    hide Windows, Stride;
    WindowBound(text, target, overlap, 0);
    AtMostQuotient(|Windows(text, target, overlap, 0)| - 1, Stride(target, overlap), |text| - 1);
  }

  lemma AtMostQuotient(n: int, p: nat, total: nat)
    requires p > 0 && n * p <= total
    ensures n <= total / p
  {
    if n > total / p {
      ScaleMonotone(total / p + 1, n, p);
      assert false;
    }
  }

  lemma ScaleMonotone(a: int, b: int, p: nat)
    requires a <= b
    ensures a * p <= b * p
  {
  }

  /** Windows overlap by at most `overlap`, leave no gap after `seen` and reach the end of the text. */
  ghost predicate Covering(text: string, windows: seq<Window>, seen: nat, overlap: nat) {
    if windows == [] then seen == |text|
    else
      && windows[0].lo <= seen <= windows[0].hi <= |text|
      && seen - windows[0].lo <= overlap
      && Covering(text, windows[1..], windows[0].hi, overlap)
  }

  lemma {:induction false} WindowsCover(text: string, target: nat, overlap: nat, start: nat, seen: nat)
    requires target > 0 && Advances(text, target, overlap, start)
    requires start <= seen < |text| && seen - start <= overlap && seen < WindowEnd(text, target, start)
    ensures Covering(text, Windows(text, target, overlap, start), seen, overlap)
    decreases |text| - start
  {
    var next := NextStart(text, target, overlap, start);
    if next.Some? {
      assert Advances(text, target, overlap, next.value);
      WindowsCover(text, target, overlap, next.value, WindowEnd(text, target, start));
    }
  }

  // ---------------------------------------------------------------- pieces and coverage

  /** The stripped, non-blank texts of the windows. */
  function WindowTexts(text: string, windows: seq<Window>): seq<string>
    requires forall k :: 0 <= k < |windows| ==> windows[k].lo <= windows[k].hi <= |text|
  {
    if windows == [] then []
    else
      var chunk := Strip(text[windows[0].lo..windows[0].hi]);
      (if chunk == "" then [] else [chunk]) + WindowTexts(text, windows[1..])
  }

  lemma {:induction false} WindowsInBounds(text: string, target: nat, overlap: nat, start: nat)
    requires target > 0
    ensures forall w :: w in Windows(text, target, overlap, start) ==> w.lo < w.hi <= |text| && w.hi - w.lo <= target
    decreases |text| - start
  {
    var next := NextStart(text, target, overlap, start);
    if next.Some? && start < next.value {
      WindowsInBounds(text, target, overlap, next.value);
    }
  }

  /** The call returns: the section fits one chunk, or the window loop ends on it. */
  ghost predicate SectionReturns(text: string, target: nat, overlap: nat)
    requires target > 0
  {
    |text| <= target || Halts(text, target, overlap)
  }

  /** With a progressive overlap every section is split. */
  lemma ProgressiveReturns(text: string, target: nat, overlap: nat)
    requires Progressive(target, overlap)
    ensures SectionReturns(text, target, overlap)
  {
    HaltsOnEveryTextExactly(target, overlap);
  }

  /** What `_split_section_text` returns, if it does. */
  function SectionTexts(text: string, target: nat, overlap: nat): seq<string>
    requires target > 0
  {
    if |text| <= target then [text]
    else
      WindowsInBounds(text, target, overlap, 0);
      WindowTexts(text, Windows(text, target, overlap, 0))
  }

  /** The loop body of `_split_section_text` up to the slice. */
  method FindWindowEnd(text: string, target: nat, start: nat) returns (end: nat)
    requires start < |text| && target > 0
    ensures start < end <= |text| && EndsWindow(text, target, start, end)
  {
    WindowEndMeaning(text, target, start, WindowEnd(text, target, start));
    end := if start + target < |text| then start + target else |text|;
    if end < |text| {
      var paragraphBreak := RFind(text, "\n\n", start, end);
      var sentenceBreak := RFind(text, ". ", start, end);
      var wordBreak := RFind(text, " ", start, end);
      var bestBreak := Max(paragraphBreak, Max(sentenceBreak, wordBreak));
      if bestBreak > start + target / 2 {
        end := bestBreak + 1;
      }
    }
  }

  /** The first of the remaining windows, and where the loop goes on. */
  lemma FirstWindow(text: string, target: nat, overlap: nat, start: nat)
    requires target > 0 && start < |text| && Advances(text, target, overlap, start)
    ensures var windows, end := Windows(text, target, overlap, start), WindowEnd(text, target, start);
            && windows != [] && windows[0] == Window(start, end)
            && (end >= |text| ==> windows[1..] == [])
            && (end < |text| ==> start < Max(end - overlap, 0) < |text|)
            && (end < |text| ==> windows[1..] == Windows(text, target, overlap, Max(end - overlap, 0)))
            && (end < |text| ==> Advances(text, target, overlap, Max(end - overlap, 0)))
  {
    hide WindowEnd;
  }

  lemma TakeWindow(text: string, windows: seq<Window>, chunks: seq<string>)
    requires windows != [] && forall k :: 0 <= k < |windows| ==> windows[k].lo <= windows[k].hi <= |text|
    ensures var chunk := Strip(text[windows[0].lo..windows[0].hi]);
            chunks + WindowTexts(text, windows)
            == (if chunk == "" then chunks else chunks + [chunk]) + WindowTexts(text, windows[1..])
  {
    hide Strip;
  }

  lemma SectionTextsCases(text: string, target: nat, overlap: nat)
    requires target > 0
    ensures |text| <= target ==> SectionTexts(text, target, overlap) == [text]
    ensures var windows := Windows(text, target, overlap, 0);
            && (forall k :: 0 <= k < |windows| ==> windows[k].lo <= windows[k].hi <= |text|)
            && (|text| > target ==> SectionTexts(text, target, overlap) == WindowTexts(text, windows))
    ensures WindowTexts(text, []) == []
  {
    WindowsInBounds(text, target, overlap, 0);
    hide Windows;
  }

  /** `_split_section_text`, on the texts for which it returns. */
  method SplitSectionText(text: string, target: nat, overlap: nat) returns (chunks: seq<string>)
    requires overlap < target && SectionReturns(text, target, overlap)
    ensures chunks == SectionTexts(text, target, overlap)
  {
    hide Windows, WindowTexts, SectionTexts, Strip, WindowEnd, NextStart, Advances, Halts, EndsWindow;
    SectionTextsCases(text, target, overlap);
    HaltsExactly(text, target, overlap);
    if |text| <= target {
      return [text];
    }
    chunks := [];
    var start := 0;
    ghost var windows := Windows(text, target, overlap, 0);
    ghost var all := WindowTexts(text, windows);
    while start < |text|
      invariant start < |text| && Advances(text, target, overlap, start)
      invariant windows == Windows(text, target, overlap, start)
      invariant forall k :: 0 <= k < |windows| ==> windows[k].lo <= windows[k].hi <= |text|
      invariant all == chunks + WindowTexts(text, windows)
      decreases |text| - start
    {
      var end := FindWindowEnd(text, target, start);
      WindowEndMeaning(text, target, start, end);
      var chunk := Strip(text[start..end]);
      FirstWindow(text, target, overlap, start);
      TakeWindow(text, windows, chunks);
      if chunk != "" {
        chunks := chunks + [chunk];
      }
      windows := windows[1..];
      if end >= |text| {
        break;
      }
      start := Max(end - overlap, 0);
    }
  }

  /** A chunk text, with the number of leading characters that repeat the previous windows. */
  datatype Piece = Piece(text: string, repeated: nat)

  ghost predicate HaveTexts(pieces: seq<Piece>, texts: seq<string>) {
    |pieces| == |texts| && forall k :: 0 <= k < |pieces| ==> pieces[k].text == texts[k]
  }

  function PieceInk(piece: Piece): string {
    if piece.repeated <= |piece.text| then Ink(piece.text[piece.repeated..]) else ""
  }

  /** The ink that the pieces add, in order. */
  function FreshInk(pieces: seq<Piece>): string {
    if pieces == [] then "" else PieceInk(pieces[0]) + FreshInk(pieces[1..])
  }

  predicate Sized(pieces: seq<Piece>, target: nat, overlap: nat) {
    forall k :: 0 <= k < |pieces| ==> pieces[k].repeated <= overlap && pieces[k].repeated <= |pieces[k].text| <= target
  }

  lemma {:induction false} FreshInkConcat(a: seq<Piece>, b: seq<Piece>)
    ensures FreshInk(a + b) == FreshInk(a) + FreshInk(b)
  {
    if a == [] {
      assert a + b == b;
    } else {
      assert (a + b)[1..] == a[1..] + b;
      FreshInkConcat(a[1..], b);
    }
  }

  /** One window adds the ink between the previous end `seen` and its own end. */
  lemma WindowPiece(text: string, w: Window, seen: nat, target: nat, overlap: nat) returns (piece: seq<Piece>)
    requires w.lo <= seen <= w.hi <= |text| && w.hi - w.lo <= target && seen - w.lo <= overlap
    ensures HaveTexts(piece, var chunk := Strip(text[w.lo..w.hi]); if chunk == "" then [] else [chunk])
    ensures FreshInk(piece) == Ink(text[seen..w.hi])
    ensures Sized(piece, target, overlap)
  {
    hide Ink, FreshInk, StripPrefix, SkipSpace, DropSpace;
    var slice := text[w.lo..w.hi];
    InkStripSuffix(slice, seen - w.lo);
    assert slice[seen - w.lo..] == text[seen..w.hi];
    var p := Piece(Strip(slice), StripPrefix(slice, seen - w.lo));
    FreshInkOne(p);
    piece := if p.text == "" then [] else [p];
  }

  lemma FreshInkOne(p: Piece)
    ensures FreshInk([p]) == PieceInk(p)
    ensures p.text == "" ==> FreshInk([]) == PieceInk(p)
  {
    assert [p][1..] == [];
    if p.text == "" && p.repeated == 0 {
      assert p.text[0..] == "";
    }
  }

  lemma InkSplit(text: string, lo: nat, hi: nat)
    requires lo <= hi <= |text|
    ensures Ink(text[lo..]) == Ink(text[lo..hi]) + Ink(text[hi..])
  {
    InkConcat(text[lo..hi], text[hi..]);
    assert text[lo..] == text[lo..hi] + text[hi..];
  }

  /** The windows of a section lose no ink, repeat at most `overlap` characters and reorder nothing. */
  lemma {:induction false} WindowsKeepInk(text: string, windows: seq<Window>, seen: nat, target: nat, overlap: nat)
    returns (pieces: seq<Piece>)
    requires seen <= |text| && Covering(text, windows, seen, overlap)
    requires forall k :: 0 <= k < |windows| ==> windows[k].lo <= windows[k].hi <= |text| && windows[k].hi - windows[k].lo <= target
    ensures HaveTexts(pieces, WindowTexts(text, windows))
    ensures FreshInk(pieces) == Ink(text[seen..])
    ensures Sized(pieces, target, overlap)
  {
    if windows == [] {
      pieces := [];
    } else {
      hide FreshInk, Ink, Strip, HaveTexts, Sized;
      var first := WindowPiece(text, windows[0], seen, target, overlap);
      var rest := WindowsKeepInk(text, windows[1..], windows[0].hi, target, overlap);
      pieces := first + rest;
      FreshInkConcat(first, rest);
      SizedConcat(first, rest, target, overlap);
      HaveTextsConcat(first, var chunk := Strip(text[windows[0].lo..windows[0].hi]); if chunk == "" then [] else [chunk],
                      rest, WindowTexts(text, windows[1..]));
      InkSplit(text, seen, windows[0].hi);
    }
  }

  lemma SectionKeepsInk(text: string, target: nat, overlap: nat) returns (pieces: seq<Piece>)
    requires overlap < target && SectionReturns(text, target, overlap)
    ensures HaveTexts(pieces, SectionTexts(text, target, overlap))
    ensures FreshInk(pieces) == Ink(text)
    ensures Sized(pieces, target, overlap)
  {
    if |text| <= target {
      pieces := [Piece(text, 0)];
      assert pieces[1..] == [] && text[0..] == text;
    } else {
      var windows := Windows(text, target, overlap, 0);
      HaltsExactly(text, target, overlap);
      WindowsInBounds(text, target, overlap, 0);
      WindowsCover(text, target, overlap, 0, 0);
      pieces := WindowsKeepInk(text, windows, 0, target, overlap);
      assert text[0..] == text;
    }
  }

  // ---------------------------------------------------------------- chunks of a report

  datatype MarkdownChunk = MarkdownChunk(
    text: string, tokenCount: nat, section: Option<string>, sectionChunkIndex: nat, chunkIndex: nat)

  datatype ChunkingError = TargetNotPositive | OverlapNegative | OverlapNotSmaller

  /** `len(re.findall(r"\S+", text))` */
  function TokenCount(text: string): nat {
    if text == "" then 0
    else
      var n := |text| - 1;
      TokenCount(text[..n]) + if !IsSpace(text[n]) && (n == 0 || IsSpace(text[n - 1])) then 1 else 0
  }

  function SectionChunks(section: MarkdownSection, texts: seq<string>, base: nat): seq<MarkdownChunk> {
    seq(|texts|, j requires 0 <= j < |texts| => MarkdownChunk(texts[j], TokenCount(texts[j]), section.title, j, base + j))
  }

  /** The chunks of a list of sections, numbered through. */
  function ReportChunks(sections: seq<MarkdownSection>, target: nat, overlap: nat): seq<MarkdownChunk>
    requires target > 0
  {
    if sections == [] then []
    else
      var n := |sections| - 1;
      var before := ReportChunks(sections[..n], target, overlap);
      before + SectionChunks(sections[n], SectionTexts(sections[n].text, target, overlap), |before|)
  }

  /** The report is chunked at all: the window loop ends on each of its longer sections. */
  ghost predicate ReportReturns(markdown: string, target: nat, overlap: nat)
    requires target > 0
  {
    forall section :: section in SectionsOf(GroupLines(SplitLines(markdown)))
      ==> SectionReturns(section.text, target, overlap)
  }

  lemma ProgressiveReportReturns(markdown: string, target: nat, overlap: nat)
    requires Progressive(target, overlap)
    ensures ReportReturns(markdown, target, overlap)
  {
    hide SectionReturns, SectionsOf, GroupLines, SplitLines;
    forall section | section in SectionsOf(GroupLines(SplitLines(markdown)))
      ensures SectionReturns(section.text, target, overlap)
    {
      ProgressiveReturns(section.text, target, overlap);
    }
  }

  /** `chunk_markdown_report`, on the reports for which it returns. */
  method ChunkMarkdownReport(markdown: string, target: int, overlap: int)
    returns (result: Result<seq<MarkdownChunk>, ChunkingError>)
    requires 0 <= overlap < target ==> ReportReturns(markdown, target, overlap)
    ensures target <= 0 ==> result == Err(TargetNotPositive)
    ensures target > 0 && overlap < 0 ==> result == Err(OverlapNegative)
    ensures 0 < target <= overlap ==> result == Err(OverlapNotSmaller)
    ensures 0 <= overlap < target
      ==> result == Ok(ReportChunks(SectionsOf(GroupLines(SplitLines(markdown))), target, overlap))
  {
    if target <= 0 {
      return Err(TargetNotPositive);
    }
    if overlap < 0 {
      return Err(OverlapNegative);
    }
    if overlap >= target {
      return Err(OverlapNotSmaller);
    }
    hide SectionsOf, GroupLines, SplitLines, SectionTexts, SectionChunks, SectionReturns;
    var chunks: seq<MarkdownChunk> := [];
    var sections := SectionsFromMarkdown(markdown);
    for i := 0 to |sections|
      invariant chunks == ReportChunks(sections[..i], target, overlap)
    {
      var texts := SplitSectionText(sections[i].text, target, overlap);
      chunks := AppendSection(chunks, sections[i], texts);
      assert sections[..i + 1][..i] == sections[..i];
    }
    assert sections[..|sections|] == sections;
    return Ok(chunks);
  }

  /** The inner loop of `chunk_markdown_report`. */
  method AppendSection(before: seq<MarkdownChunk>, section: MarkdownSection, texts: seq<string>)
    returns (chunks: seq<MarkdownChunk>)
    ensures chunks == before + SectionChunks(section, texts, |before|)
  {
    chunks := before;
    for j := 0 to |texts|
      invariant chunks == before + SectionChunks(section, texts, |before|)[..j]
    {
      chunks := chunks + [MarkdownChunk(texts[j], TokenCount(texts[j]), section.title, j, |chunks|)];
    }
  }

  /** Chunk indices count up from zero; section indices restart at zero with each section. */
  ghost predicate Numbered(chunks: seq<MarkdownChunk>) {
    forall k :: 0 <= k < |chunks| ==>
      && chunks[k].chunkIndex == k
      && (chunks[k].sectionChunkIndex == 0
          || (k > 0 && chunks[k - 1].section == chunks[k].section
              && chunks[k].sectionChunkIndex == chunks[k - 1].sectionChunkIndex + 1))
  }

  function ChunkTexts(chunks: seq<MarkdownChunk>): seq<string> {
    seq(|chunks|, k requires 0 <= k < |chunks| => chunks[k].text)
  }

  lemma {:induction false} SectionsAreCovered(sections: seq<MarkdownSection>, target: nat, overlap: nat)
    returns (pieces: seq<Piece>)
    requires overlap < target && forall section :: section in sections ==> SectionReturns(section.text, target, overlap)
    ensures HaveTexts(pieces, ChunkTexts(ReportChunks(sections, target, overlap)))
    ensures Numbered(ReportChunks(sections, target, overlap))
    ensures Sized(pieces, target, overlap)
    ensures FreshInk(pieces) == SectionsInk(sections)
  {
    if sections == [] {
      pieces := [];
    } else {
      var n := |sections| - 1;
      var before := SectionsAreCovered(sections[..n], target, overlap);
      var last := SectionKeepsInk(sections[n].text, target, overlap);
      pieces := AppendCovered(ReportChunks(sections[..n], target, overlap), before, sections[n],
                              SectionTexts(sections[n].text, target, overlap), last, target, overlap);
    }
  }

  lemma AppendCovered(chunks: seq<MarkdownChunk>, before: seq<Piece>, section: MarkdownSection,
                      texts: seq<string>, last: seq<Piece>, target: nat, overlap: nat)
    returns (pieces: seq<Piece>)
    requires Numbered(chunks) && HaveTexts(before, ChunkTexts(chunks)) && HaveTexts(last, texts)
    requires Sized(before, target, overlap) && Sized(last, target, overlap)
    ensures Numbered(chunks + SectionChunks(section, texts, |chunks|))
    ensures HaveTexts(pieces, ChunkTexts(chunks + SectionChunks(section, texts, |chunks|)))
    ensures Sized(pieces, target, overlap)
    ensures FreshInk(pieces) == FreshInk(before) + FreshInk(last)
  {
    pieces := before + last;
    FreshInkConcat(before, last);
    AppendKeepsNumbers(chunks, section, texts);
    HaveTextsConcat(before, ChunkTexts(chunks), last, texts);
  }

  lemma SizedConcat(a: seq<Piece>, b: seq<Piece>, target: nat, overlap: nat)
    requires Sized(a, target, overlap) && Sized(b, target, overlap)
    ensures Sized(a + b, target, overlap)
  {
  }

  lemma HaveTextsConcat(a: seq<Piece>, s: seq<string>, b: seq<Piece>, t: seq<string>)
    requires HaveTexts(a, s) && HaveTexts(b, t)
    ensures HaveTexts(a + b, s + t)
  {
  }

  lemma AppendKeepsNumbers(chunks: seq<MarkdownChunk>, section: MarkdownSection, texts: seq<string>)
    requires Numbered(chunks)
    ensures Numbered(chunks + SectionChunks(section, texts, |chunks|))
    ensures ChunkTexts(chunks + SectionChunks(section, texts, |chunks|)) == ChunkTexts(chunks) + texts
  {
  }

  /**
   The chunks of a report, each without the characters it repeats, spell out the report's
   non-whitespace characters in order. No chunk is longer than the target, at most `overlap`
   characters are repeated, and the indices are 0, 1, 2, ...
   */
  lemma ReportIsCovered(markdown: string, target: nat, overlap: nat) returns (pieces: seq<Piece>)
    requires overlap < target && ReportReturns(markdown, target, overlap)
    ensures var chunks := ReportChunks(SectionsOf(GroupLines(SplitLines(markdown))), target, overlap);
            HaveTexts(pieces, ChunkTexts(chunks)) && Numbered(chunks)
    ensures Sized(pieces, target, overlap)
    ensures FreshInk(pieces) == Ink(markdown)
  {
    var groups := GroupLines(SplitLines(markdown));
    pieces := SectionsAreCovered(SectionsOf(groups), target, overlap);
    SectionsKeepInk(groups);
    GroupsPartitionLines(SplitLines(markdown));
    InkOfLines(markdown);
  }
}
