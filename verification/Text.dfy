/**
 Python text operations used across the model: whitespace, `str.strip`, `str.splitlines`,
 `str.rfind`, `str.join` and the decimal form of an index. A string is a sequence of
 Unicode scalar values.
 */
module Text {

  datatype Option<+T> = None | Some(value: T)

  datatype Result<+T, +E> = Ok(value: T) | Err(error: E)

  /** `str.isspace`, which is also the class `\s` of the `re` module. */
  predicate IsSpace(c: char) {
    || '\U{0009}' <= c <= '\U{000D}' || '\U{001C}' <= c <= ' ' || c == '\U{0085}' || c == '\U{00A0}'
    || c == '\U{1680}' || '\U{2000}' <= c <= '\U{200A}' || c == '\U{2028}' || c == '\U{2029}'
    || c == '\U{202F}' || c == '\U{205F}' || c == '\U{3000}'
  }

  /** The characters at which `str.splitlines` breaks. */
  predicate IsLineBreak(c: char) {
    || '\U{000A}' <= c <= '\U{000D}' || '\U{001C}' <= c <= '\U{001E}' || c == '\U{0085}'
    || c == '\U{2028}' || c == '\U{2029}'
  }

  predicate NoBreak(s: string) {
    forall i :: 0 <= i < |s| ==> !IsLineBreak(s[i])
  }

  predicate Blank(s: string) {
    forall i :: 0 <= i < |s| ==> IsSpace(s[i])
  }

  // ---------------------------------------------------------------- strip

  /** The first position in `[lo, hi)` that is not whitespace, or `hi`. */
  function SkipSpace(s: string, lo: nat, hi: nat): (r: nat)
    requires lo <= hi <= |s|
    ensures lo <= r <= hi
    ensures forall i :: lo <= i < r ==> IsSpace(s[i])
    ensures r < hi ==> !IsSpace(s[r])
    decreases hi - lo
  {
    if lo < hi && IsSpace(s[lo]) then SkipSpace(s, lo + 1, hi) else lo
  }

  /** The end of `[lo, hi)` once its trailing whitespace is dropped. */
  function DropSpace(s: string, lo: nat, hi: nat): (r: nat)
    requires lo <= hi <= |s|
    ensures lo <= r <= hi
    ensures forall i :: r <= i < hi ==> IsSpace(s[i])
    ensures lo < r ==> !IsSpace(s[r - 1])
    decreases hi
  {
    if lo < hi && IsSpace(s[hi - 1]) then DropSpace(s, lo, hi - 1) else hi
  }

  /** `str.strip` */
  function Strip(s: string): string {
    var lo := SkipSpace(s, 0, |s|);
    s[lo..DropSpace(s, lo, |s|)]
  }

  /** The stripped text is the slice between its first and last ink. */
  lemma StripIs(s: string, lo: nat, hi: nat)
    requires lo <= hi <= |s|
    requires forall i :: 0 <= i < lo || hi <= i < |s| ==> IsSpace(s[i])
    requires lo < hi ==> !IsSpace(s[lo]) && !IsSpace(s[hi - 1])
    ensures Strip(s) == s[lo..hi]
  {
    hide SkipSpace, DropSpace;
  }

  /** What `strip` leaves starts and ends with ink, and is empty exactly for blank text. */
  lemma StripEdges(s: string)
    ensures Strip(s) == "" <==> Blank(s)
    ensures Strip(s) != "" ==> !IsSpace(Strip(s)[0]) && !IsSpace(Strip(s)[|Strip(s)| - 1])
  {
    var lo := SkipSpace(s, 0, |s|);
    var hi := DropSpace(s, lo, |s|);
    if lo < |s| {
      assert !IsSpace(s[lo]);
    }
  }

  lemma StripFixed(s: string)
    requires s == "" || (!IsSpace(s[0]) && !IsSpace(s[|s| - 1]))
    ensures Strip(s) == s
  {
    assert SkipSpace(s, 0, |s|) == 0;
    assert DropSpace(s, 0, |s|) == |s|;
  }

  lemma StripIdempotent(s: string)
    ensures Strip(Strip(s)) == Strip(s)
  {
    StripEdges(s);
    StripFixed(Strip(s));
  }

  // ---------------------------------------------------------------- ink

  /** The non-whitespace characters of a text, in order. */
  function Ink(s: string): string {
    if s == "" then "" else (if IsSpace(s[0]) then "" else [s[0]]) + Ink(s[1..])
  }

  lemma {:induction false} InkConcat(a: string, b: string)
    ensures Ink(a + b) == Ink(a) + Ink(b)
  {
    if a == "" {
      assert a + b == b;
    } else {
      assert (a + b)[1..] == a[1..] + b;
      InkConcat(a[1..], b);
    }
  }

  lemma {:induction false} InkBlank(s: string)
    ensures Ink(s) == "" <==> Blank(s)
  {
    if s != "" {
      InkBlank(s[1..]);
      assert Blank(s) <==> IsSpace(s[0]) && Blank(s[1..]) by {
        if IsSpace(s[0]) && Blank(s[1..]) {
          forall i | 0 <= i < |s| ensures IsSpace(s[i]) {
            if i > 0 { assert s[i] == s[1..][i - 1]; }
          }
        }
      }
    }
  }

  lemma CutTwice(s: string, lo: nat, hi: nat)
    requires lo <= hi <= |s|
    ensures s == s[..lo] + (s[lo..hi] + s[hi..])
  {
  }

  /** Cutting whitespace off both ends loses no ink. */
  lemma InkTrim(s: string, lo: nat, hi: nat)
    requires lo <= hi <= |s|
    requires Blank(s[..lo]) && Blank(s[hi..])
    ensures Ink(s) == Ink(s[lo..hi])
  {
    CutTwice(s, lo, hi);
    hide IsSpace, Blank, Ink;
    InkConcat(s[..lo], s[lo..hi] + s[hi..]);
    InkConcat(s[lo..hi], s[hi..]);
    InkBlank(s[..lo]);
    InkBlank(s[hi..]);
  }

  lemma InkStrip(s: string)
    ensures Ink(Strip(s)) == Ink(s)
  {
    var lo := SkipSpace(s, 0, |s|);
    InkTrim(s, lo, DropSpace(s, lo, |s|));
  }

  /** How many characters of `Strip(s)` come from the first `n` characters of `s`. */
  function StripPrefix(s: string, n: nat): (m: nat)
    requires n <= |s|
    ensures m <= |Strip(s)| && m <= n
  {
    var lead := SkipSpace(s, 0, |s|);
    if n <= lead then 0 else if n - lead <= |Strip(s)| then n - lead else |Strip(s)|
  }

  /** Dropping a prefix and stripping commute on ink. */
  lemma InkStripSuffix(s: string, n: nat)
    requires n <= |s|
    ensures Ink(s[n..]) == Ink(Strip(s)[StripPrefix(s, n)..])
  {
    var lo := SkipSpace(s, 0, |s|);
    var hi := DropSpace(s, lo, |s|);
    var from := if n <= lo then lo else if n <= hi then n else hi;
    assert Strip(s)[StripPrefix(s, n)..] == s[from..hi];
    if n <= hi {
      InkTail(s, n, from, hi);
    } else {
      InkBlank(s[n..]);
    }
  }

  lemma InkTail(s: string, n: nat, lo: nat, hi: nat)
    requires n <= lo <= hi <= |s|
    requires forall i :: n <= i < lo || hi <= i < |s| ==> IsSpace(s[i])
    ensures Ink(s[n..]) == Ink(s[lo..hi])
  {
    var tail := s[n..];
    InkTrim(tail, lo - n, hi - n);
    SliceOfTail(s, n, lo, hi);
  }

  lemma SliceOfTail(s: string, n: nat, lo: nat, hi: nat)
    requires n <= lo <= hi <= |s|
    ensures s[n..][lo - n..hi - n] == s[lo..hi]
  {
  }

  // ---------------------------------------------------------------- lines

  /** The position of the first line break, or the length. */
  function BreakAt(s: string): (i: nat)
    ensures i <= |s| && forall k :: 0 <= k < i ==> !IsLineBreak(s[k])
    ensures i < |s| ==> IsLineBreak(s[i])
  {
    if s == "" || IsLineBreak(s[0]) then 0 else 1 + BreakAt(s[1..])
  }

  /** How many characters the break at `i` takes: two for CR LF. */
  function BreakWidth(s: string, i: nat): (w: nat)
    requires i < |s|
    ensures 1 <= w <= |s| - i
  {
    if s[i] == '\r' && i + 1 < |s| && s[i + 1] == '\n' then 2 else 1
  }

  /** What follows the break at `i`. */
  function AfterBreak(s: string, i: nat): (rest: string)
    requires i < |s|
    ensures |rest| < |s|
  {
    s[i + BreakWidth(s, i)..]
  }

  /** `str.splitlines` */
  function SplitLines(s: string): seq<string>
    decreases |s|
  {
    if s == "" then []
    else
      var i := BreakAt(s);
      if i == |s| then [s] else [s[..i]] + SplitLines(AfterBreak(s, i))
  }

  /** The break position is determined by what `BreakAt` promises. */
  lemma BreakAtIs(s: string, i: nat)
    requires i < |s| && IsLineBreak(s[i]) && forall k :: 0 <= k < i ==> !IsLineBreak(s[k])
    ensures BreakAt(s) == i
  {
    hide BreakAt;
  }

  lemma SplitAt(s: string, i: nat)
    requires i < |s| && IsLineBreak(s[i]) && forall k :: 0 <= k < i ==> !IsLineBreak(s[k])
    ensures SplitLines(s) == [s[..i]] + SplitLines(AfterBreak(s, i))
  {
    BreakAtIs(s, i);
    hide BreakAt, AfterBreak, IsLineBreak;
  }

  /** `separator.join(parts)` */
  function Join(parts: seq<string>, separator: string): string {
    if parts == [] then ""
    else if |parts| == 1 then parts[0]
    else parts[0] + separator + Join(parts[1..], separator)
  }

  lemma NoBreakIsLine(line: string)
    requires NoBreak(line) && line != ""
    ensures SplitLines(line) == [line]
  {
    assert BreakAt(line) == |line| by {
      hide BreakAt;
    }
  }

  /** A break-free prefix ended by a newline is a line of its own. */
  lemma SplitFirstLine(line: string, rest: string)
    requires NoBreak(line)
    ensures SplitLines(line + "\n" + rest) == [line] + SplitLines(rest)
  {
    hide SplitLines;
    var s := line + "\n" + rest;
    SplitAt(s, |line|);
    assert s[..|line|] == line && AfterBreak(s, |line|) == rest;
  }

  lemma AppendOne(x: string, a: seq<string>, b: seq<string>, c: seq<string>)
    ensures [x] + (a + b + c) == ([x] + a) + b + c
  {
  }

  /**
   Splitting a text that a newline ends gives the lines of the text, perhaps an empty line
   (none when the newline completes a CR LF or ends the last line), then the remaining lines.
   */
  lemma {:induction false} SplitTextThenNewline(t: string, rest: string) returns (blanks: seq<string>)
    ensures blanks == [] || blanks == [""]
    ensures SplitLines(t + "\n" + rest) == SplitLines(t) + blanks + SplitLines(rest)
    decreases |t|
  {
    hide SplitLines, BreakAt;
    var i := BreakAt(t);
    if i == |t| {
      SplitFirstLine(t, rest);
      if t == "" {
        blanks := [""];
        SplitEmpty();
      } else {
        blanks := [];
        NoBreakIsLine(t);
      }
    } else {
      var s := t + "\n" + rest;
      assert s[..i] == t[..i];
      SplitAt(t, i);
      SplitAt(s, i);
      if i + 1 == |t| && t[i] == '\r' {
        assert AfterBreak(s, i) == rest && AfterBreak(t, i) == "";
        SplitEmpty();
        blanks := [];
      } else {
        assert AfterBreak(s, i) == AfterBreak(t, i) + "\n" + rest;
        blanks := SplitTextThenNewline(AfterBreak(t, i), rest);
        AppendOne(t[..i], SplitLines(AfterBreak(t, i)), blanks, SplitLines(rest));
      }
    }
  }

  lemma SplitEmpty()
    ensures SplitLines("") == []
  {
  }

  /** The ink of a list of lines, in order. */
  function LinesInk(lines: seq<string>): string {
    if lines == [] then "" else Ink(lines[0]) + LinesInk(lines[1..])
  }

  lemma {:induction false} LinesInkConcat(a: seq<string>, b: seq<string>)
    ensures LinesInk(a + b) == LinesInk(a) + LinesInk(b)
  {
    if a == [] {
      assert a + b == b;
    } else {
      assert (a + b)[1..] == a[1..] + b;
      LinesInkConcat(a[1..], b);
    }
  }

  lemma InkWithout(a: string, blank: string, b: string)
    requires Blank(blank)
    ensures Ink(a + (blank + b)) == Ink(a) + Ink(b)
  {
    InkConcat(a, blank + b);
    InkConcat(blank, b);
    InkBlank(blank);
  }

  lemma {:induction false} InkOfJoin(lines: seq<string>)
    ensures Ink(Join(lines, "\n")) == LinesInk(lines)
  {
    if |lines| == 1 {
      assert LinesInk(lines[1..]) == "";
    } else if lines != [] {
      InkOfJoin(lines[1..]);
      var rest := Join(lines[1..], "\n");
      InkWithout(lines[0], "\n", rest);
      assert Join(lines, "\n") == lines[0] + ("\n" + rest);
    }
  }

  /** Splitting a text into lines loses none of its ink. */
  lemma {:induction false} InkOfLines(s: string)
    ensures LinesInk(SplitLines(s)) == Ink(s)
    decreases |s|
  {
    var i := BreakAt(s);
    hide SplitLines, BreakAt;
    if s == "" {
      SplitEmpty();
    } else if i == |s| {
      NoBreakIsLine(s);
      LinesInkOne(s);
    } else {
      var next := i + BreakWidth(s, i);
      SplitAt(s, i);
      InkOfLines(s[next..]);
      LinesInkOne(s[..i]);
      LinesInkConcat([s[..i]], SplitLines(s[next..]));
      InkWithout(s[..i], s[i..next], s[next..]);
      assert s == s[..i] + (s[i..next] + s[next..]);
    }
  }

  lemma LinesInkOne(line: string)
    ensures LinesInk([line]) == Ink(line)
  {
    assert [line][1..] == [];
  }

  // ---------------------------------------------------------------- search

  predicate OccursAt(s: string, pattern: string, i: int) {
    0 <= i && i + |pattern| <= |s| && s[i..i + |pattern|] == pattern
  }

  /** An occurrence starts with the pattern's first character. */
  lemma OccurrenceStart(s: string, pattern: string, i: int)
    requires pattern != ""
    ensures OccursAt(s, pattern, i) ==> s[i] == pattern[0]
  {
    if OccursAt(s, pattern, i) {
      assert s[i] == s[i..i + |pattern|][0];
    }
  }

  /** `s.rfind(pattern, lo, hi)`: the last occurrence inside `[lo, hi)`, or -1. */
  function RFind(s: string, pattern: string, lo: nat, hi: nat): (r: int)
    requires lo <= hi <= |s|
    ensures r == -1 || (lo <= r <= hi - |pattern| && OccursAt(s, pattern, r))
    ensures forall i :: lo <= i <= hi - |pattern| && r < i ==> !OccursAt(s, pattern, i)
    decreases hi
  {
    if hi < lo + |pattern| then -1
    else if OccursAt(s, pattern, hi - |pattern|) then hi - |pattern|
    else if hi == lo then -1
    else RFind(s, pattern, lo, hi - 1)
  }

  /** `pattern in s` */
  predicate Contains(s: string, pattern: string) {
    exists i :: 0 <= i <= |s| && OccursAt(s, pattern, i)
  }

  /** `any(term in text for term in terms)` */
  predicate ContainsAny(text: string, terms: seq<string>) {
    exists k :: 0 <= k < |terms| && Contains(text, terms[k])
  }

  /** `str.lower` on ASCII letters */
  function Lower(s: string): string {
    seq(|s|, i requires 0 <= i < |s| => if 'A' <= s[i] <= 'Z' then s[i] - 'A' + 'a' else s[i])
  }

  // ---------------------------------------------------------------- order-preserving deduplication

  /** The non-empty values in order of first occurrence. */
  function FirstOccurrences(values: seq<string>): seq<string> {
    if values == [] then []
    else
      var n := |values| - 1;
      var before := FirstOccurrences(values[..n]);
      if values[n] == "" || values[n] in before then before else before + [values[n]]
  }

  /** A duplicate-free list of exactly the non-empty values, ordered by first occurrence. */
  lemma {:induction false} FirstOccurrencesMeaning(values: seq<string>)
    ensures forall v :: v in FirstOccurrences(values) <==> v in values && v != ""
    ensures forall i, j :: 0 <= i < j < |FirstOccurrences(values)| ==> FirstOccurrences(values)[i] != FirstOccurrences(values)[j]
    ensures forall k :: 0 <= k <= |values| ==> FirstOccurrences(values[..k]) <= FirstOccurrences(values)
  {
    if values != [] {
      var n := |values| - 1;
      FirstOccurrencesMeaning(values[..n]);
      assert values == values[..n] + [values[n]];
      forall k | 0 <= k <= |values| ensures FirstOccurrences(values[..k]) <= FirstOccurrences(values) {
        if k <= n {
          assert values[..n][..k] == values[..k];
        } else {
          assert values[..k] == values;
        }
      }
    }
  }

  /** Deduplicating again, with more of the same values appended, changes nothing. */
  lemma {:induction false} FirstOccurrencesIdempotent(values: seq<string>, more: seq<string>)
    requires forall k :: 0 <= k < |more| ==> more[k] in values || more[k] == ""
    ensures FirstOccurrences(FirstOccurrences(values) + more) == FirstOccurrences(values)
  {
    hide FirstOccurrences;
    FirstOccurrencesMeaning(values);
    var firsts := FirstOccurrences(values);
    if more == [] {
      DistinctIsFixed(firsts);
      assert firsts + more == firsts;
    } else {
      var n := |more| - 1;
      FirstOccurrencesIdempotent(values, more[..n]);
      FirstOccurrencesSnoc(firsts + more[..n], more[n]);
      assert firsts + more == (firsts + more[..n]) + [more[n]];
    }
  }

  lemma FirstOccurrencesSnoc(values: seq<string>, last: string)
    ensures FirstOccurrences(values + [last])
         == var before := FirstOccurrences(values); if last == "" || last in before then before else before + [last]
  {
    assert (values + [last])[..|values|] == values;
  }

  lemma {:induction false} DistinctIsFixed(values: seq<string>)
    requires forall i, j :: 0 <= i < j < |values| ==> values[i] != values[j]
    requires "" !in values
    ensures FirstOccurrences(values) == values
  {
    if values != [] {
      var n := |values| - 1;
      DistinctIsFixed(values[..n]);
      assert values == values[..n] + [values[n]];
    }
  }

  /** `_unique`, as the risk, decision and summary agents each define it. */
  method Unique(values: seq<string>) returns (deduped: seq<string>)
    ensures deduped == FirstOccurrences(values)
  {
    deduped := [];
    var seen: set<string> := {};
    for i := 0 to |values|
      invariant deduped == FirstOccurrences(values[..i])
      invariant forall v :: v in seen <==> v in deduped
    {
      assert values[..i + 1][..i] == values[..i];
      if values[i] == "" || values[i] in seen {
        continue;
      }
      seen := seen + {values[i]};
      deduped := deduped + [values[i]];
    }
    assert values[..|values|] == values;
  }

  // ---------------------------------------------------------------- decimal numbers

  predicate IsDigit(c: char) { '0' <= c <= '9' }

  /**
   The decimal digits of some version of Unicode, with their values: among the ASCII characters
   these are the ten digits; which others there are is left open.
   */
  ghost predicate DecimalDigits(digit: char -> Option<nat>) {
    && (forall c :: digit(c).Some? ==> digit(c).value < 10)
    && (forall c :: c < '\U{0080}' ==> digit(c) == if IsDigit(c) then Some((c as int) - ('0' as int)) else None)
  }

  /** `str(n)` of a non-negative number */
  function Decimal(n: nat): (s: string)
    ensures s != "" && forall i :: 0 <= i < |s| ==> IsDigit(s[i])
  {
    if n < 10 then ['0' + n as char] else Decimal(n / 10) + ['0' + (n % 10) as char]
  }
}
