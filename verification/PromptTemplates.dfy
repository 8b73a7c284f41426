/**
 Prompt templates (packages/llm/prompt_registry.py), read and filled as `string.Formatter().parse` and
 `str.format` do it: a replacement field has a name with an access path, a conversion and a specification.
 */
module PromptTemplates {
  import opened Text

  /** `{name!conversion:spec}`; the name runs up to the first `!`, `:` or `}` outside brackets. */
  datatype Field = Field(name: string, conversion: Option<char>, spec: Option<string>)

  datatype Segment = Char(c: char) | Replacement(field: Field)

  datatype TemplateError =
    | SingleOpenBrace | SingleCloseBrace
    | BraceInFieldName | UnclosedField
    | NoConversion | NoSpecAfterConversion | UnclosedSpec

  predicate EndsName(c: char) { c in {'{', '}', ':', '!'} }

  /** Where a field name ends: a bracket hides everything up to the next closing bracket. */
  function NameEnd(s: string, inBrackets: bool): (n: nat)
    ensures n <= |s| && (n < |s| ==> EndsName(s[n]))
  {
    if s == "" || (!inBrackets && EndsName(s[0])) then 0
    else 1 + NameEnd(s[1..], if inBrackets then s[0] != ']' else s[0] == '[')
  }

  /** Where a specification ends: at the brace that closes the field, after any nested ones. */
  function SpecEnd(s: string, depth: nat): (n: nat)
    ensures n <= |s| && (n < |s| ==> s[n] == '}')
  {
    if s == "" || (s[0] == '}' && depth == 0) then 0
    else 1 + SpecEnd(s[1..], if s[0] == '{' then depth + 1 else if s[0] == '}' then depth - 1 else depth)
  }

  /** A field and the text after its closing brace. */
  datatype ReadField = ReadField(field: Field, rest: string)

  function ReadSpec(name: string, conversion: Option<char>, s: string): Result<ReadField, TemplateError> {
    var n := SpecEnd(s, 0);
    if n == |s| then Err(UnclosedSpec) else Ok(ReadField(Field(name, conversion, Some(s[..n])), s[n + 1..]))
  }

  /** Reads a field from the text after its opening brace. */
  function ReadFieldFrom(s: string): (result: Result<ReadField, TemplateError>)
    ensures result.Ok? ==> |result.value.rest| < |s|
  {
    var n := NameEnd(s, false);
    var name := s[..n];
    if n == |s| then Err(UnclosedField)
    else if s[n] == '{' then Err(BraceInFieldName)
    else if s[n] == '}' then Ok(ReadField(Field(name, None, None), s[n + 1..]))
    else if s[n] == ':' then ReadSpec(name, None, s[n + 1..])
    else if n + 1 == |s| then Err(NoConversion)
    else if n + 2 == |s| then Err(UnclosedSpec)
    else if s[n + 2] == '}' then Ok(ReadField(Field(name, Some(s[n + 1]), None), s[n + 3..]))
    else if s[n + 2] == ':' then ReadSpec(name, Some(s[n + 1]), s[n + 3..])
    else Err(NoSpecAfterConversion)
  }

  /** Doubled braces are literal; any other opening brace opens a field. */
  function Parse(template: string): Result<seq<Segment>, TemplateError>
    decreases |template|
  {
    if template == "" then Ok([])
    else if template[0] == '{' then
      if |template| == 1 then Err(SingleOpenBrace)
      else if template[1] == '{' then Prepend(Char('{'), Parse(template[2..]))
      else
        match ReadFieldFrom(template[1..])
        case Err(error) => Err(error)
        case Ok(read) => Prepend(Replacement(read.field), Parse(read.rest))
    else if template[0] == '}' then
      if |template| > 1 && template[1] == '}' then Prepend(Char('}'), Parse(template[2..])) else Err(SingleCloseBrace)
    else Prepend(Char(template[0]), Parse(template[1..]))
  }

  function Prepend(segment: Segment, rest: Result<seq<Segment>, TemplateError>): Result<seq<Segment>, TemplateError> {
    match rest
    case Ok(segments) => Ok([segment] + segments)
    case Err(error) => Err(error)
  }

  lemma OneLetterName(tail: string)
    requires tail == "" || EndsName(tail[0])
    ensures NameEnd("a" + tail, false) == 1
  {
    assert ("a" + tail)[1..] == tail;
  }

  /** What each error is about: a template for each. */
  lemma BadTemplates()
    ensures Parse("{") == Err(SingleOpenBrace) && Parse("}") == Err(SingleCloseBrace)
    ensures Parse("{a") == Err(UnclosedField) && Parse("{a{") == Err(BraceInFieldName)
    ensures Parse("{a!") == Err(NoConversion) && Parse("{a!rx") == Err(NoSpecAfterConversion)
    ensures Parse("{a!r") == Err(UnclosedSpec) && Parse("{a:b") == Err(UnclosedSpec)
  {
    OneLetterName("");
    OneLetterName("{");
    OneLetterName("!");
    OneLetterName("!rx");
    OneLetterName("!r");
    OneLetterName(":b");
    assert "a" + "" == "a" && "a" + "{" == "a{" && "a" + "!" == "a!" && "a" + "!rx" == "a!rx" && "a" + "!r" == "a!r"
      && "a" + ":b" == "a:b";
    assert "{a"[1..] == "a" && "{a{"[1..] == "a{" && "{a!"[1..] == "a!" && "{a!rx"[1..] == "a!rx" && "{a!r"[1..] == "a!r"
      && "{a:b"[1..] == "a:b";
    hide NameEnd;
    assert "a:b"[2..] == "b" && "b"[1..] == "";
    assert SpecEnd("b", 0) == 1;
  }

  // ---------------------------------------------------------------- printing

  /** What follows the name of a field, with the closing brace. */
  function FieldTail(field: Field): string {
    (if field.conversion.Some? then ['!', field.conversion.value] else "")
    + (if field.spec.Some? then [':'] + field.spec.value else "") + "}"
  }

  function PrintSegment(segment: Segment): string {
    match segment
    case Char(c) => if c == '{' || c == '}' then [c, c] else [c]
    case Replacement(field) => "{" + field.name + FieldTail(field)
  }

  function Print(segments: seq<Segment>): string {
    if segments == [] then "" else PrintSegment(segments[0]) + Print(segments[1..])
  }

  /** Names that end where they are meant to: every bracket closed, no delimiter outside brackets. */
  predicate ClosedName(name: string, inBrackets: bool) {
    if name == "" then !inBrackets
    else if inBrackets then ClosedName(name[1..], name[0] != ']')
    else !EndsName(name[0]) && ClosedName(name[1..], name[0] == '[')
  }

  /** Specifications with matching braces. */
  predicate Balanced(spec: string, depth: nat) {
    if spec == "" then depth == 0
    else if spec[0] == '{' then Balanced(spec[1..], depth + 1)
    else if spec[0] == '}' then depth > 0 && Balanced(spec[1..], depth - 1)
    else Balanced(spec[1..], depth)
  }

  ghost predicate WellFormedField(field: Field) {
    ClosedName(field.name, false) && (field.spec.Some? ==> Balanced(field.spec.value, 0))
  }

  ghost predicate WellFormed(segments: seq<Segment>) {
    forall k :: 0 <= k < |segments| && segments[k].Replacement? ==> WellFormedField(segments[k].field)
  }

  lemma {:induction false} BracketFreeIsClosed(name: string)
    requires forall i :: 0 <= i < |name| ==> !EndsName(name[i]) && name[i] != '['
    ensures ClosedName(name, false)
  {
    if name != "" {
      BracketFreeIsClosed(name[1..]);
    }
  }

  lemma {:induction false} NameEndsAt(name: string, rest: string, inBrackets: bool)
    requires rest != "" && EndsName(rest[0]) && ClosedName(name, inBrackets)
    ensures NameEnd(name + rest, inBrackets) == |name|
  {
    if name == "" {
      assert name + rest == rest;
    } else {
      assert (name + rest)[1..] == name[1..] + rest;
      NameEndsAt(name[1..], rest, if inBrackets then name[0] != ']' else name[0] == '[');
    }
  }

  lemma {:induction false} NameIsClosed(s: string, inBrackets: bool)
    requires NameEnd(s, inBrackets) < |s|
    ensures ClosedName(s[..NameEnd(s, inBrackets)], inBrackets)
  {
    var n := NameEnd(s, inBrackets);
    if n > 0 {
      NameIsClosed(s[1..], if inBrackets then s[0] != ']' else s[0] == '[');
      assert s[..n][1..] == s[1..][..n - 1];
    }
  }

  lemma {:induction false} SpecEndsAt(spec: string, rest: string, depth: nat)
    requires rest != "" && rest[0] == '}' && Balanced(spec, depth)
    ensures SpecEnd(spec + rest, depth) == |spec|
  {
    if spec == "" {
      assert spec + rest == rest;
    } else {
      assert (spec + rest)[1..] == spec[1..] + rest;
      SpecEndsAt(spec[1..], rest, if spec[0] == '{' then depth + 1 else if spec[0] == '}' then depth - 1 else depth);
    }
  }

  lemma {:induction false} SpecIsBalanced(s: string, depth: nat)
    requires SpecEnd(s, depth) < |s|
    ensures Balanced(s[..SpecEnd(s, depth)], depth)
  {
    var n := SpecEnd(s, depth);
    if n > 0 {
      SpecIsBalanced(s[1..], if s[0] == '{' then depth + 1 else if s[0] == '}' then depth - 1 else depth);
      assert s[..n][1..] == s[1..][..n - 1];
    }
  }

  lemma ReadsSpec(name: string, conversion: Option<char>, spec: string, rest: string)
    requires Balanced(spec, 0)
    ensures ReadSpec(name, conversion, spec + ("}" + rest)) == Ok(ReadField(Field(name, conversion, Some(spec)), rest))
  {
    SpecEndsAt(spec, "}" + rest, 0);
    hide SpecEnd;
    var s := spec + ("}" + rest);
    assert s[..|spec|] == spec && s[|spec| + 1..] == rest;
  }

  lemma ReadsSpecBack(name: string, conversion: Option<char>, s: string)
    requires ReadSpec(name, conversion, s).Ok?
    ensures var read := ReadSpec(name, conversion, s).value;
            && read.field.name == name && read.field.conversion == conversion && read.field.spec.Some?
            && Balanced(read.field.spec.value, 0) && s == read.field.spec.value + ("}" + read.rest)
  {
    SpecIsBalanced(s, 0);
    hide SpecEnd, Balanced;
    var n := SpecEnd(s, 0);
    assert s == s[..n] + ([s[n]] + s[n + 1..]);
  }

  /** The name and the tail as slices of the text. */
  lemma Slices(name: string, tail: string, k: nat)
    requires k <= |tail|
    ensures var s := name + tail;
            && s[..|name|] == name && s[|name| + k..] == tail[k..]
            && forall j :: 0 <= j < k ==> s[|name| + j] == tail[j]
  {
  }

  /** Where the parts of a field are read from, once its name is found. */
  lemma ReadPlaces(s: string, n: nat)
    requires n == NameEnd(s, false) < |s|
    ensures s[n] == '}' ==> ReadFieldFrom(s) == Ok(ReadField(Field(s[..n], None, None), s[n + 1..]))
    ensures s[n] == ':' ==> ReadFieldFrom(s) == ReadSpec(s[..n], None, s[n + 1..])
    ensures s[n] == '!' && n + 2 < |s| && s[n + 2] == '}'
        ==> ReadFieldFrom(s) == Ok(ReadField(Field(s[..n], Some(s[n + 1]), None), s[n + 3..]))
    ensures s[n] == '!' && n + 2 < |s| && s[n + 2] == ':' ==> ReadFieldFrom(s) == ReadSpec(s[..n], Some(s[n + 1]), s[n + 3..])
  {
    hide NameEnd, ReadSpec, EndsName;
  }

  lemma ReadsClosed(name: string, rest: string)
    requires ClosedName(name, false)
    ensures ReadFieldFrom(name + ("}" + rest)) == Ok(ReadField(Field(name, None, None), rest))
  {
    var tail := "}" + rest;
    NameEndsAt(name, tail, false);
    hide *;
    ReadPlaces(name + tail, |name|);
    Slices(name, tail, 1);
    assert tail[0] == '}' && tail[1..] == rest;
  }

  lemma ReadsColon(name: string, spec: string, rest: string)
    requires ClosedName(name, false) && Balanced(spec, 0)
    ensures ReadFieldFrom(name + ([':'] + (spec + ("}" + rest)))) == Ok(ReadField(Field(name, None, Some(spec)), rest))
  {
    var body := spec + ("}" + rest);
    var tail := [':'] + body;
    NameEndsAt(name, tail, false);
    hide *;
    ReadPlaces(name + tail, |name|);
    Slices(name, tail, 1);
    assert tail[0] == ':' && tail[1..] == body;
    ReadsSpec(name, None, spec, rest);
  }

  lemma ReadsConversion(name: string, c: char, rest: string)
    requires ClosedName(name, false)
    ensures ReadFieldFrom(name + (['!', c, '}'] + rest)) == Ok(ReadField(Field(name, Some(c), None), rest))
  {
    var tail := ['!', c, '}'] + rest;
    NameEndsAt(name, tail, false);
    hide *;
    ReadPlaces(name + tail, |name|);
    Slices(name, tail, 3);
    assert tail[0] == '!' && tail[1] == c && tail[2] == '}' && tail[3..] == rest;
  }

  lemma ReadsConversionColon(name: string, c: char, spec: string, rest: string)
    requires ClosedName(name, false) && Balanced(spec, 0)
    ensures ReadFieldFrom(name + (['!', c, ':'] + (spec + ("}" + rest)))) == Ok(ReadField(Field(name, Some(c), Some(spec)), rest))
  {
    var body := spec + ("}" + rest);
    var tail := ['!', c, ':'] + body;
    NameEndsAt(name, tail, false);
    hide *;
    ReadPlaces(name + tail, |name|);
    Slices(name, tail, 3);
    assert tail[0] == '!' && tail[1] == c && tail[2] == ':' && tail[3..] == body;
    ReadsSpec(name, Some(c), spec, rest);
  }

  /** The tail of a field, followed by more text. */
  lemma TailForms(name: string, c: char, spec: string, rest: string)
    ensures FieldTail(Field(name, None, None)) + rest == "}" + rest
    ensures FieldTail(Field(name, None, Some(spec))) + rest == [':'] + (spec + ("}" + rest))
    ensures FieldTail(Field(name, Some(c), None)) + rest == ['!', c, '}'] + rest
    ensures FieldTail(Field(name, Some(c), Some(spec))) + rest == ['!', c, ':'] + (spec + ("}" + rest))
  {
  }

  /** Reading a printed field returns it and what comes after it. */
  lemma ReadsField(field: Field, rest: string)
    requires WellFormedField(field)
    ensures ReadFieldFrom(field.name + FieldTail(field) + rest) == Ok(ReadField(field, rest))
  {
    assert field.name + FieldTail(field) + rest == field.name + (FieldTail(field) + rest);
    assert ClosedName(field.name, false) && (field.spec.Some? ==> Balanced(field.spec.value, 0));
    hide *;
    match field
    case Field(name, None, None) =>
      TailForms(name, ' ', "", rest);
      ReadsClosed(name, rest);
    case Field(name, None, Some(spec)) =>
      TailForms(name, ' ', spec, rest);
      ReadsColon(name, spec, rest);
    case Field(name, Some(c), None) =>
      TailForms(name, c, "", rest);
      ReadsConversion(name, c, rest);
    case Field(name, Some(c), Some(spec)) =>
      TailForms(name, c, spec, rest);
      ReadsConversionColon(name, c, spec, rest);
  }

  lemma CutOne(s: string, n: nat)
    requires n < |s|
    ensures s == s[..n] + ([s[n]] + s[n + 1..])
  {
  }

  lemma CutThree(s: string, n: nat)
    requires n + 2 < |s|
    ensures s == s[..n] + ([s[n], s[n + 1], s[n + 2]] + s[n + 3..])
  {
  }

  /** The places that a field was read from. */
  lemma PlacesRead(s: string, n: nat)
    requires ReadFieldFrom(s).Ok? && n == NameEnd(s, false)
    ensures n < |s| && s[n] in {'}', ':', '!'} && (s[n] == '!' ==> n + 2 < |s| && s[n + 2] in {'}', ':'})
  {
    hide NameEnd, ReadSpec;
  }

  /** What is read is well formed and prints as the text it was read from. */
  lemma ReadsBack(s: string)
    requires ReadFieldFrom(s).Ok?
    ensures var read := ReadFieldFrom(s).value;
            WellFormedField(read.field) && s == read.field.name + (FieldTail(read.field) + read.rest)
  {
    hide NameEnd, ReadFieldFrom, ReadSpec, FieldTail, ClosedName, Balanced, EndsName;
    var n := NameEnd(s, false);
    PlacesRead(s, n);
    NameIsClosed(s, false);
    ReadPlaces(s, n);
    if s[n] == '}' {
      CutOne(s, n);
      TailForms(s[..n], ' ', "", s[n + 1..]);
    } else if s[n] == ':' {
      CutOne(s, n);
      ReadsBackSpec(s[..n], None, s[n + 1..]);
    } else if s[n + 2] == '}' {
      CutThree(s, n);
      TailForms(s[..n], s[n + 1], "", s[n + 3..]);
    } else {
      CutThree(s, n);
      ReadsBackSpec(s[..n], Some(s[n + 1]), s[n + 3..]);
    }
  }

  lemma ReadsBackSpec(name: string, conversion: Option<char>, more: string)
    requires ReadSpec(name, conversion, more).Ok?
    ensures var read := ReadSpec(name, conversion, more).value;
            && read.field.name == name && read.field.spec.Some? && Balanced(read.field.spec.value, 0)
            && FieldTail(read.field) + read.rest
               == (if conversion.Some? then ['!', conversion.value, ':'] else [':']) + more
  {
    hide *;
    ReadsSpecBack(name, conversion, more);
    var read := ReadSpec(name, conversion, more).value;
    TailForms(name, if conversion.Some? then conversion.value else ' ', read.field.spec.value, read.rest);
  }

  lemma ParseChar(c: char, rest: string)
    ensures Parse(PrintSegment(Char(c)) + rest) == Prepend(Char(c), Parse(rest))
  {
    hide ReadFieldFrom;
    var template := PrintSegment(Char(c)) + rest;
    if c == '{' || c == '}' {
      assert template[2..] == rest;
    } else {
      assert template[1..] == rest;
    }
  }

  lemma ParseField(field: Field, rest: string)
    requires WellFormedField(field)
    ensures Parse(PrintSegment(Replacement(field)) + rest) == Prepend(Replacement(field), Parse(rest))
  {
    var template := PrintSegment(Replacement(field)) + rest;
    assert template[1..] == field.name + FieldTail(field) + rest;
    assert template[0] == '{' && |template| > 1 && template[1] != '{';
    hide FieldTail, ClosedName, Balanced, PrintSegment, WellFormedField;
    ReadsField(field, rest);
    hide ReadFieldFrom;
  }

  lemma ParseFirst(segment: Segment, rest: string)
    requires segment.Replacement? ==> WellFormedField(segment.field)
    ensures Parse(PrintSegment(segment) + rest) == Prepend(segment, Parse(rest))
  {
    hide *;
    match segment
    case Char(c) => ParseChar(c, rest);
    case Replacement(field) => ParseField(field, rest);
  }

  function PrependAll(segments: seq<Segment>,
                      rest: Result<seq<Segment>, TemplateError>): Result<seq<Segment>, TemplateError> {
    match rest
    case Ok(more) => Ok(segments + more)
    case Err(error) => Err(error)
  }

  lemma PrependOne(segment: Segment, segments: seq<Segment>, rest: Result<seq<Segment>, TemplateError>)
    ensures Prepend(segment, PrependAll(segments, rest)) == PrependAll([segment] + segments, rest)
  {
    if rest.Ok? {
      assert [segment] + (segments + rest.value) == [segment] + segments + rest.value;
    }
  }

  lemma PrintFirst(segments: seq<Segment>, rest: string)
    requires segments != []
    ensures Print(segments) + rest == PrintSegment(segments[0]) + (Print(segments[1..]) + rest)
  {
    hide PrintSegment;
    assert Print(segments) == PrintSegment(segments[0]) + Print(segments[1..]);
  }

  /** Printing segments and parsing the template returns the same segments. */
  lemma {:induction false} ParsePrint(segments: seq<Segment>, rest: string)
    requires WellFormed(segments)
    ensures Parse(Print(segments) + rest) == PrependAll(segments, Parse(rest))
  {
    if segments == [] {
      assert Print(segments) + rest == rest;
      if Parse(rest).Ok? {
        assert [] + Parse(rest).value == Parse(rest).value;
      }
    } else {
      PrintFirst(segments, rest);
      assert WellFormed(segments[1..]) && (segments[0].Replacement? ==> WellFormedField(segments[0].field));
      hide *;
      ParsePrint(segments[1..], rest);
      PrependOne(segments[0], segments[1..], Parse(rest));
      assert segments == [segments[0]] + segments[1..];
      ParseFirst(segments[0], Print(segments[1..]) + rest);
    }
  }

  lemma ParseFieldStep(template: string) returns (segment: Segment, rest: string)
    requires |template| > 1 && template[0] == '{' && template[1] != '{' && Parse(template).Ok?
    ensures segment.Replacement? && WellFormedField(segment.field)
    ensures template == PrintSegment(segment) + rest && |rest| < |template|
    ensures Parse(rest).Ok? && Parse(template).value == [segment] + Parse(rest).value
  {
    hide ReadFieldFrom, FieldTail, WellFormedField;
    var read := ReadFieldFrom(template[1..]).value;
    segment, rest := Replacement(read.field), read.rest;
    assert Parse(template) == Prepend(segment, Parse(rest));
    hide Parse;
    ReadsBack(template[1..]);
    assert template == "{" + template[1..];
    assert PrintSegment(segment) + rest == "{" + (read.field.name + (FieldTail(read.field) + rest));
  }

  /** What parsing a non-empty template takes off its front. */
  lemma ParseStep(template: string) returns (segment: Segment, rest: string)
    requires template != "" && Parse(template).Ok?
    ensures template == PrintSegment(segment) + rest && |rest| < |template|
    ensures segment.Replacement? ==> WellFormedField(segment.field)
    ensures Parse(rest).Ok? && Parse(template).value == [segment] + Parse(rest).value
  {
    hide ReadFieldFrom, FieldTail, WellFormedField;
    if template[0] == '{' && template[1] != '{' {
      segment, rest := ParseFieldStep(template);
    } else if template[0] == '{' || template[0] == '}' {
      segment, rest := Char(template[0]), template[2..];
    } else {
      segment, rest := Char(template[0]), template[1..];
    }
  }

  /** Every accepted template is the printed form of its segments: nothing is lost in parsing. */
  lemma {:induction false} PrintParse(template: string)
    requires Parse(template).Ok?
    ensures Print(Parse(template).value) == template && WellFormed(Parse(template).value)
    decreases |template|
  {
    if template != "" {
      var segment, rest := ParseStep(template);
      hide Parse, PrintSegment, WellFormedField;
      PrintParse(rest);
      assert ([segment] + Parse(rest).value)[1..] == Parse(rest).value;
    }
  }

  // ---------------------------------------------------------------- formatting

  /** A value given to `format`: `None`, a string, or any other object. */
  datatype Value = Nothing | Str(text: string) | Object(identity: nat)

  /**
   What formatting takes from the interpreter: the value of a decimal digit, and what following a
   field's access path, conversion and specification makes of a value (which may use other variables).
   */
  datatype Rules = Rules(
    digit: char -> Option<nat>,
    convert: (Field, Value, map<string, Value>) -> Result<string, string>)

  /** A field that is a name and nothing else. */
  predicate Plain(field: Field) {
    field.conversion == None && field.spec in {None, Some("")} && FirstName(field.name) == field.name
  }

  /** A field that is a name and the specification `d`. */
  predicate IntegerField(field: Field) {
    field.conversion == None && field.spec == Some("d") && FirstName(field.name) == field.name
  }

  /**
   The interpreter's rules: its decimal digits include the ASCII ones, a plain field prints a string as
   it is, and a string has no integer format.
   */
  ghost predicate Faithful(rules: Rules) {
    && DecimalDigits(rules.digit)
    && (forall field, text, variables :: Plain(field) ==> rules.convert(field, Str(text), variables) == Ok(text))
    && (forall field, text, variables :: IntegerField(field) ==> rules.convert(field, Str(text), variables).Err?)
  }

  /** Such rules exist. */
  lemma FaithfulRulesExist() returns (rules: Rules)
    ensures Faithful(rules)
  {
    rules := Rules(
      c => if IsDigit(c) then Some((c as int) - ('0' as int)) else None,
      (field: Field, value: Value, variables: map<string, Value>) =>
        if Plain(field) && value.Str? then Ok(value.text) else Err(""));
  }

  datatype FormatError =
    | BadTemplate(error: TemplateError) | PositionalField | MissingKey(name: string) | NotFormatted(message: string)

  /** The part of a field name up to its access path. */
  function FirstName(name: string): (first: string)
    ensures first <= name && (first == name || name[|first|] in {'.', '['})
    ensures forall i :: 0 <= i < |first| ==> first[i] !in {'.', '['}
  {
    if name == "" || name[0] in {'.', '['} then "" else [name[0]] + FirstName(name[1..])
  }

  /** Empty and numeric first names are positional, and `format(**variables)` has no positions. */
  predicate Positional(rules: Rules, first: string) {
    forall i :: 0 <= i < |first| ==> rules.digit(first[i]).Some?
  }

  /** `template.format(**variables)` on the parsed template. */
  function Fill(rules: Rules, segments: seq<Segment>, variables: map<string, Value>): Result<string, FormatError> {
    if segments == [] then Ok("")
    else
      match FillOne(rules, segments[0], variables)
      case Err(error) => Err(error)
      case Ok(text) =>
        match Fill(rules, segments[1..], variables)
        case Err(error) => Err(error)
        case Ok(rest) => Ok(text + rest)
  }

  function FillOne(rules: Rules, segment: Segment, variables: map<string, Value>): Result<string, FormatError> {
    match segment
    case Char(c) => Ok([c])
    case Replacement(field) =>
      var first := FirstName(field.name);
      if Positional(rules, first) then Err(PositionalField)
      else if first !in variables then Err(MissingKey(first))
      else match rules.convert(field, variables[first], variables)
        case Err(message) => Err(NotFormatted(message))
        case Ok(text) => Ok(text)
  }

  function Format(rules: Rules, template: string, variables: map<string, Value>): Result<string, FormatError> {
    match Parse(template)
    case Err(error) => Err(BadTemplate(error))
    case Ok(segments) => Fill(rules, segments, variables)
  }

  /** The names that `_extract_template_variables` collects: every non-empty field name, access path included. */
  function FieldNames(segments: seq<Segment>): set<string> {
    set k | 0 <= k < |segments| && segments[k].Replacement? && segments[k].field.name != "" :: segments[k].field.name
  }

  /** `_extract_template_variables` */
  method ExtractTemplateVariables(template: string) returns (variables: Result<set<string>, TemplateError>)
    ensures match Parse(template)
            case Err(error) => variables == Err(error)
            case Ok(segments) => variables == Ok(FieldNames(segments))
  {
    match Parse(template)
    case Err(error) => return Err(error);
    case Ok(segments) =>
      var names: set<string> := {};
      for k := 0 to |segments|
        invariant names == FieldNames(segments[..k])
      {
        assert segments[..k + 1] == segments[..k] + [segments[k]];
        if segments[k].Replacement? && segments[k].field.name != "" {
          names := names + {segments[k].field.name};
        }
      }
      assert segments[..|segments|] == segments;
      return Ok(names);
  }

  lemma {:induction false} FillConcat(rules: Rules, a: seq<Segment>, b: seq<Segment>, variables: map<string, Value>)
    ensures Fill(rules, a + b, variables) == match Fill(rules, a, variables)
                                             case Err(error) => Err(error)
                                             case Ok(left) => (match Fill(rules, b, variables)
                                                               case Err(error) => Err(error)
                                                               case Ok(right) => Ok(left + right))
  {
    hide FillOne;
    if a == [] {
      assert a + b == b;
      if Fill(rules, b, variables).Ok? {
        assert "" + Fill(rules, b, variables).value == Fill(rules, b, variables).value;
      }
    } else {
      assert (a + b)[1..] == a[1..] + b;
      FillConcat(rules, a[1..], b, variables);
      if FillOne(rules, a[0], variables).Ok? && Fill(rules, a[1..], variables).Ok? && Fill(rules, b, variables).Ok? {
        var text, left, right :=
          FillOne(rules, a[0], variables).value, Fill(rules, a[1..], variables).value, Fill(rules, b, variables).value;
        assert text + (left + right) == (text + left) + right;
      }
    }
  }

  /** The field is filled: its first name is a variable, and the rest of it is possible for the variable's value. */
  predicate Fillable(rules: Rules, field: Field, variables: map<string, Value>) {
    var first := FirstName(field.name);
    !Positional(rules, first) && first in variables && rules.convert(field, variables[first], variables).Ok?
  }

  /**
   Formatting is one substitution pass: a field between two templates is replaced by what its value
   converts to, braces in that included, and the templates on either side are formatted on their own.
   */
  lemma FormatIsOnePass(rules: Rules, before: string, field: Field, after: string, variables: map<string, Value>)
    requires WellFormedField(field) && Fillable(rules, field, variables)
    requires Format(rules, before, variables).Ok? && Format(rules, after, variables).Ok?
    ensures Format(rules, before + (PrintSegment(Replacement(field)) + after), variables)
         == Ok(Format(rules, before, variables).value
               + (rules.convert(field, variables[FirstName(field.name)], variables).value
                  + Format(rules, after, variables).value))
  {
    hide WellFormedField, Parse, PrintSegment, FirstName, Positional;
    var left, right := Parse(before).value, Parse(after).value;
    PrintParse(before);
    ParsePrint(left, PrintSegment(Replacement(field)) + after);
    ParseFirst(Replacement(field), after);
    assert [Replacement(field)][1..] == [];
    FillConcat(rules, [Replacement(field)], right, variables);
    FillConcat(rules, left, [Replacement(field)] + right, variables);
  }

  /** A name without delimiters that does not start with a digit is filled with the text of its variable. */
  lemma PlainName(rules: Rules, name: string, text: string, variables: map<string, Value>)
    requires Faithful(rules) && name in variables && variables[name] == Str(text)
    requires name != "" && rules.digit(name[0]) == None
    requires forall i :: 0 <= i < |name| ==> !EndsName(name[i]) && name[i] !in {'.', '['}
    ensures var field := Field(name, None, None);
            && WellFormedField(field) && FirstName(name) == name && Fillable(rules, field, variables)
            && rules.convert(field, variables[FirstName(name)], variables) == Ok(text)
            && PrintSegment(Replacement(field)) == "{" + (name + "}")
  {
    var field := Field(name, None, None);
    BracketFreeIsClosed(name);
    assert FirstName(name) == name && !Positional(rules, name);
    assert WellFormedField(field) && Plain(field);
    hide *;
    PlainConverts(rules, field, text, variables);
    PrintsPlain(name);
    FillableBy(rules, field, variables);
  }

  lemma FillableBy(rules: Rules, field: Field, variables: map<string, Value>)
    requires FirstName(field.name) in variables && !Positional(rules, FirstName(field.name))
    requires rules.convert(field, variables[FirstName(field.name)], variables).Ok?
    ensures Fillable(rules, field, variables)
  {
    hide FirstName, Positional;
  }

  lemma PlainConverts(rules: Rules, field: Field, text: string, variables: map<string, Value>)
    requires Faithful(rules) && Plain(field)
    ensures rules.convert(field, Str(text), variables) == Ok(text)
  {
    hide Plain, DecimalDigits;
  }

  lemma PrintsPlain(name: string)
    ensures PrintSegment(Replacement(Field(name, None, None))) == "{" + (name + "}")
  {
  }

  /** Formatting succeeds exactly when every field can be filled. */
  lemma {:induction false} FillSucceeds(rules: Rules, segments: seq<Segment>, variables: map<string, Value>)
    ensures Fill(rules, segments, variables).Ok? <==>
            forall k :: 0 <= k < |segments| && segments[k].Replacement? ==> Fillable(rules, segments[k].field, variables)
  {
    hide Positional, FirstName;
    if segments != [] {
      FillSucceeds(rules, segments[1..], variables);
      assert forall k :: 0 < k < |segments| ==> segments[k] == segments[1..][k - 1];
    }
  }
}
