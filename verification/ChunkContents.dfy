/** What a chunked report's sections, titles, windows and counts are, said without the functions that compute them. */
module ChunkContents {
  import opened Text
  import opened Chunking

  // ---------------------------------------------------------------- headings

  /** `^(#{2,3})\s+(.+?)\s*$` on a line: `n` hashes, whitespace up to `lo`, something up to `hi`, whitespace to the end. */
  ghost predicate Matches(line: string, n: nat, lo: nat, hi: nat) {
    && 2 <= n <= 3 && n < lo < hi <= |line|
    && (forall i :: 0 <= i < n ==> line[i] == '#') && (forall i :: n <= i < lo ==> IsSpace(line[i]))
    && forall i :: hi <= i < |line| ==> IsSpace(line[i])
  }

  /** However the pattern matches, cutting whitespace off what it matched gives one text. */
  lemma StripWithin(s: string, lo: nat, hi: nat)
    requires lo <= hi <= |s|
    requires forall i :: 0 <= i < lo || hi <= i < |s| ==> IsSpace(s[i])
    ensures Strip(s[lo..hi]) == Strip(s)
  {
    hide IsSpace, Strip;
    var part := s[lo..hi];
    StripEdges(part);
    StripEdges(s);
    if Blank(part) {
      forall i | 0 <= i < |s| ensures IsSpace(s[i]) {
        if lo <= i < hi {
          assert s[i] == part[i - lo];
        }
      }
    } else {
      var a, b := StripBounds(part);
      StripIs(part, a, b);
      forall i | 0 <= i < lo + a || lo + b <= i < |s| ensures IsSpace(s[i]) {
        if lo <= i < hi {
          assert s[i] == part[i - lo];
        }
      }
      assert s[lo + a] == part[a] && s[lo + b - 1] == part[b - 1];
      StripIs(s, lo + a, lo + b);
      SubSlice(s, lo, hi, a, b);
    }
  }

  lemma SubSlice(s: string, lo: nat, hi: nat, a: nat, b: nat)
    requires lo <= hi <= |s| && a <= b <= hi - lo
    ensures s[lo..hi][a..b] == s[lo + a..lo + b]
  {
    var inner, outer := s[lo..hi][a..b], s[lo + a..lo + b];
    assert |inner| == |outer| == b - a;
    forall k | 0 <= k < b - a ensures inner[k] == outer[k] {
      assert inner[k] == s[lo..hi][a + k];
    }
  }

  lemma StripBounds(s: string) returns (a: nat, b: nat)
    requires !Blank(s)
    ensures a < b <= |s| && !IsSpace(s[a]) && !IsSpace(s[b - 1])
    ensures forall i :: 0 <= i < a || b <= i < |s| ==> IsSpace(s[i])
  {
    a := SkipSpace(s, 0, |s|);
    b := DropSpace(s, a, |s|);
  }

  /** A line is a heading exactly if the pattern matches it, and then its title is the stripped match of the second group. */
  lemma HeadingMatches(line: string)
    ensures IsHeading(line) <==> exists n: nat, lo: nat, hi: nat :: Matches(line, n, lo, hi)
    ensures forall n: nat, lo: nat, hi: nat :: Matches(line, n, lo, hi) ==> IsHeading(line) && HeadingTitle(line) == Strip(line[lo..hi])
  {
    hide Strip;
    if IsHeading(line) {
      var n := HashCount(line);
      assert line[0] == "##"[0] && line[1] == "##"[1];
      assert Matches(line, n, n + 1, |line|);
    }
    forall n: nat, lo: nat, hi: nat | Matches(line, n, lo, hi) ensures IsHeading(line) && HeadingTitle(line) == Strip(line[lo..hi]) {
      assert !IsSpace('#');
      assert line[..2] == "##" && HashCount(line) == n;
      var rest := line[n..];
      assert rest[lo - n..hi - n] == line[lo..hi];
      forall i | 0 <= i < lo - n || hi - n <= i < |rest| ensures IsSpace(rest[i]) { assert rest[i] == line[n + i]; }
      StripWithin(rest, lo - n, hi - n);
    }
  }

  /** The title of the last heading among the lines. */
  function LastTitle(lines: seq<string>): Option<string> {
    if lines == [] then None
    else
      var last := lines[|lines| - 1];
      if IsHeading(last) then Some(HeadingTitle(last)) else LastTitle(lines[..|lines| - 1])
  }

  /** A line belongs to the section that the last heading at or before it has opened. */
  lemma {:induction false} TitleIsLastHeading(lines: seq<string>)
    requires lines != []
    ensures var groups := GroupLines(lines);
            groups != [] && GroupTitle(groups[|groups| - 1]) == LastTitle(lines)
  {
    hide IsHeading, HeadingTitle;
    var n := |lines| - 1;
    if n > 0 {
      TitleIsLastHeading(lines[..n]);
    } else {
      assert lines[..0] == [];
      assert GroupLines(lines[..0]) == [] && LastTitle(lines[..0]) == None;
    }
  }

  // ---------------------------------------------------------------- section texts

  lemma {:induction false} LinesHaveNoBreak(s: string)
    ensures forall line :: line in SplitLines(s) ==> NoBreak(line)
    decreases |s|
  {
    if s != "" {
      var i := BreakAt(s);
      if i < |s| {
        LinesHaveNoBreak(AfterBreak(s, i));
      }
    }
  }

  /** Joined lines are separated by newlines and nothing else. */
  lemma {:induction false} JoinedLines(lines: seq<string>)
    requires lines != [] && forall line :: line in lines ==> NoBreak(line)
    ensures SplitLines(Join(lines, "\n") + "\n") == lines
  {
    hide SplitLines, NoBreak;
    assert lines[0] in lines;
    if |lines| == 1 {
      SplitFirstLine(lines[0], "");
      SplitEmpty();
      assert lines[0] + "\n" + "" == Join(lines, "\n") + "\n" && lines == [lines[0]];
    } else {
      var rest := Join(lines[1..], "\n") + "\n";
      JoinedLines(lines[1..]);
      SplitFirstLine(lines[0], rest);
      assert Join(lines, "\n") + "\n" == lines[0] + "\n" + rest;
      assert lines == [lines[0]] + lines[1..];
    }
  }

  lemma {:induction false} InFlat(groups: seq<seq<string>>, g: nat, line: string)
    requires g < |groups| && line in groups[g]
    ensures line in Flatten(groups)
  {
    if g > 0 {
      InFlat(groups[1..], g - 1, line);
    }
  }

  /** A section's text is its group's lines, one per line, without the whitespace around them. */
  lemma SectionLines(markdown: string, g: nat) returns (text: string)
    requires g < |GroupLines(SplitLines(markdown))|
    ensures var group := GroupLines(SplitLines(markdown))[g];
            SectionOf(group).text == Strip(text) && SplitLines(text + "\n") == group
  {
    var groups := GroupLines(SplitLines(markdown));
    GroupsPartitionLines(SplitLines(markdown));
    LinesHaveNoBreak(markdown);
    hide Strip, SplitLines, GroupLines, IsHeading, NoBreak, Flatten;
    text := Join(groups[g], "\n");
    assert groups[g] != [];
    forall line | line in groups[g] ensures NoBreak(line) {
      InFlat(groups, g, line);
    }
    JoinedLines(groups[g]);
  }

  // ---------------------------------------------------------------- windows

  /**
   The windows of a text: the first starts at its start, each ends where a window ends, the next starts `overlap`
   characters before that, and the last reaches the end.
   */
  ghost predicate Windowing(text: string, target: nat, overlap: nat, windows: seq<Window>) {
    WindowingFrom(text, target, overlap, 0, windows)
  }

  /** The same from any start on. */
  ghost predicate WindowingFrom(text: string, target: nat, overlap: nat, start: nat, windows: seq<Window>) {
    && windows != [] && windows[0].lo == start && windows[|windows| - 1].hi == |text|
    && (forall k :: 0 <= k < |windows| ==>
         windows[k].lo < windows[k].hi <= |text| && EndsWindow(text, target, windows[k].lo, windows[k].hi))
    && forall k :: 0 < k < |windows| ==> windows[k].lo == Max(windows[k - 1].hi - overlap, 0)
  }

  lemma {:induction false} WindowsAreWindowing(text: string, target: nat, overlap: nat, start: nat)
    requires target > 0 && start < |text| && Advances(text, target, overlap, start)
    ensures WindowingFrom(text, target, overlap, start, Windows(text, target, overlap, start))
    decreases |text| - start
  {
    hide Windows, WindowEnd, Advances, EndsWindow, WindowingFrom;
    FirstWindow(text, target, overlap, start);
    var windows, end := Windows(text, target, overlap, start), WindowEnd(text, target, start);
    WindowEndMeaning(text, target, start, end);
    assert windows == [windows[0]] + windows[1..];
    if end < |text| {
      WindowsAreWindowing(text, target, overlap, Max(end - overlap, 0));
    }
    OneMoreWindow(text, target, overlap, windows[0], windows[1..]);
  }

  lemma OneMoreWindow(text: string, target: nat, overlap: nat, first: Window, rest: seq<Window>)
    requires first.lo < first.hi <= |text| && EndsWindow(text, target, first.lo, first.hi)
    requires if first.hi < |text| then WindowingFrom(text, target, overlap, Max(first.hi - overlap, 0), rest) else rest == []
    ensures WindowingFrom(text, target, overlap, first.lo, [first] + rest)
  {
    hide EndsWindow;
    var windows := [first] + rest;
    forall k | 0 < k < |windows|
      ensures windows[k].lo < windows[k].hi <= |text| && EndsWindow(text, target, windows[k].lo, windows[k].hi)
      ensures windows[k].lo == Max(windows[k - 1].hi - overlap, 0)
    {
      assert windows[k] == rest[k - 1];
      if k > 1 {
        assert windows[k - 1] == rest[k - 2];
      }
    }
  }

  /** A long section is cut into the stripped texts of such windows, blank ones left out; a short one is kept whole. */
  lemma SectionIsWindowed(text: string, target: nat, overlap: nat) returns (windows: seq<Window>)
    requires overlap < target && SectionReturns(text, target, overlap)
    ensures |text| <= target ==> SectionTexts(text, target, overlap) == [text]
    ensures |text| > target ==>
              Windowing(text, target, overlap, windows) && SectionTexts(text, target, overlap) == WindowTexts(text, windows)
  {
    SectionTextsCases(text, target, overlap);
    windows := Windows(text, target, overlap, 0);
    if |text| > target {
      HaltsExactly(text, target, overlap);
      WindowsAreWindowing(text, target, overlap, 0);
    }
    hide Windows, SectionTexts, WindowTexts, EndsWindow;
  }

  // ---------------------------------------------------------------- counts and fields

  predicate Word(s: string) { s != "" && forall i :: 0 <= i < |s| ==> !IsSpace(s[i]) }

  /** Tokens are words: a word is one, whitespace is none, and texts with whitespace between them add up. */
  lemma {:induction false} TokensAreWords(s: string)
    ensures Blank(s) ==> TokenCount(s) == 0
    ensures Word(s) ==> TokenCount(s) == 1
  {
    hide IsSpace;
    if s != "" {
      var n := |s| - 1;
      TokensAreWords(s[..n]);
    }
  }

  lemma {:induction false} TokensAdd(a: string, gap: string, b: string)
    requires gap != "" && Blank(gap)
    ensures TokenCount(a + gap + b) == TokenCount(a) + TokenCount(b)
  {
    hide IsSpace;
    if b == "" {
      assert a + gap + b == a + gap;
      TokensBeforeGap(a, gap);
    } else {
      var n := |b| - 1;
      assert (a + gap + b)[..|a + gap| + n] == a + gap + b[..n];
      TokensAdd(a, gap, b[..n]);
      if n == 0 {
        assert (a + gap + b)[|a + gap| - 1] == gap[|gap| - 1];
      }
    }
  }

  lemma {:induction false} TokensBeforeGap(a: string, gap: string)
    requires Blank(gap)
    ensures TokenCount(a + gap) == TokenCount(a)
  {
    hide IsSpace;
    if gap == "" {
      assert a + gap == a;
    } else {
      var n := |gap| - 1;
      assert (a + gap)[..|a| + n] == a + gap[..n];
      TokensBeforeGap(a, gap[..n]);
    }
  }

  /** Every chunk carries the title of a section of the report, its place among that section's texts, and that text's count. */
  lemma {:induction false} ChunksSayTheirSection(sections: seq<MarkdownSection>, target: nat, overlap: nat)
    requires target > 0
    ensures forall c :: c in ReportChunks(sections, target, overlap) ==>
              exists section :: section in sections && c.section == section.title
                && c.sectionChunkIndex < |SectionTexts(section.text, target, overlap)|
                && c.text == SectionTexts(section.text, target, overlap)[c.sectionChunkIndex] && c.tokenCount == TokenCount(c.text)
  {
    hide SectionTexts, TokenCount;
    if sections != [] {
      var n := |sections| - 1;
      ChunksSayTheirSection(sections[..n], target, overlap);
      assert sections == sections[..n] + [sections[n]];
      forall c | c in SectionChunks(sections[n], SectionTexts(sections[n].text, target, overlap), |ReportChunks(sections[..n], target, overlap)|)
        ensures c.section == sections[n].title && c.sectionChunkIndex < |SectionTexts(sections[n].text, target, overlap)|
                && c.text == SectionTexts(sections[n].text, target, overlap)[c.sectionChunkIndex] && c.tokenCount == TokenCount(c.text) {}
    }
  }
}
