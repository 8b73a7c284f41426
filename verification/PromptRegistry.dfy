/**
 The versioned prompt registry (packages/llm/prompt_registry.py): definitions by prompt and version,
 and the active version of each prompt.
 */
module PromptRegistries {
  import opened Text
  import opened Counting
  import opened PromptTemplates

  datatype PromptDefinition = PromptDefinition(
    promptId: string, name: string, version: string, description: string,
    systemTemplate: string, userTemplate: string, inputVariables: seq<string>,
    outputContract: string, createdAt: string)

  datatype RegistryError =
    | EmptyField
    | NoInputVariables | RepeatedInputVariables | BlankInputVariable
    | UnreadableTemplate(template: TemplateError)
    | VariableMismatch
    | DuplicateRegistration
    | UnknownPrompt | UnknownVersion
    | NoVersions | NoActiveVersion | ActiveVersionMissing
    | MissingVariables | UnexpectedVariables | UnusableValue
    | FormatFailed(format: FormatError)

  /** `PromptDefinition.__post_init__`, in the order of its checks. */
  function CheckDefinition(d: PromptDefinition): Option<RegistryError> {
    if || Strip(d.promptId) == "" || Strip(d.name) == "" || Strip(d.version) == ""
       || Strip(d.description) == "" || Strip(d.outputContract) == "" || Strip(d.createdAt) == ""
    then Some(EmptyField)
    else if d.inputVariables == [] then Some(NoInputVariables)
    else if !Distinct(d.inputVariables) then Some(RepeatedInputVariables)
    else if exists k :: 0 <= k < |d.inputVariables| && Strip(d.inputVariables[k]) == "" then Some(BlankInputVariable)
    else match (Parse(d.systemTemplate), Parse(d.userTemplate))
      case (Err(error), _) => Some(UnreadableTemplate(error))
      case (_, Err(error)) => Some(UnreadableTemplate(error))
      case (Ok(system), Ok(user)) =>
        if FieldNames(system) + FieldNames(user) != AsSet(d.inputVariables) then Some(VariableMismatch) else None
  }

  predicate ValidDefinition(d: PromptDefinition) { CheckDefinition(d) == None }

  datatype RenderedPrompt = RenderedPrompt(
    promptId: string, version: string, systemPrompt: string, userPrompt: string, renderedText: string)

  /** `"\n\n".join(part for part in (system_prompt, user_prompt) if part.strip())` */
  function RenderedText(system: string, user: string): string {
    Join((if Strip(system) == "" then [] else [system]) + (if Strip(user) == "" then [] else [user]), "\n\n")
  }

  /** The rendered text: the parts with text, an empty line between two of them. */
  lemma RenderedTextIs(system: string, user: string)
    ensures RenderedText(system, user) ==
              if Blank(system) && Blank(user) then "" else if Blank(system) then user else if Blank(user) then system
              else system + "\n\n" + user
  {
    StripEdges(system);
    StripEdges(user);
    hide Strip, Blank;
    var none: seq<string> := [];
    assert none + none == none && none + [user] == [user] && [system] + none == [system] && [system] + [user] == [system, user];
    assert [system, user][1..] == [user];
    assert Join([system, user], "\n\n") == system + "\n\n" + user;
  }

  /** A value that `render` accepts: no `None` and no blank string. */
  predicate Usable(value: Value) {
    match value
    case Nothing => false
    case Str(text) => Strip(text) != ""
    case Object(_) => true
  }

  predicate AllUsable(variables: map<string, Value>) {
    forall name :: name in variables ==> Usable(variables[name])
  }

  /** The body of `render` once the definition is found. */
  function RenderDefinition(rules: Rules, d: PromptDefinition,
                            variables: map<string, Value>): Result<RenderedPrompt, RegistryError> {
    if AsSet(d.inputVariables) - variables.Keys != {} then Err(MissingVariables)
    else if variables.Keys - AsSet(d.inputVariables) != {} then Err(UnexpectedVariables)
    else if !AllUsable(variables) then Err(UnusableValue)
    else
      match Format(rules, d.systemTemplate, variables)
      case Err(error) => Err(FormatFailed(error))
      case Ok(system) =>
        match Format(rules, d.userTemplate, variables)
        case Err(error) => Err(FormatFailed(error))
        case Ok(user) => Ok(RenderedPrompt(d.promptId, d.version, system, user, RenderedText(system, user)))
  }

  // ---------------------------------------------------------------- when rendering succeeds

  /** Every field of the template can be filled: it names a variable and its value can be converted as asked. */
  ghost predicate Fills(rules: Rules, template: string, variables: map<string, Value>) {
    match Parse(template)
    case Err(_) => false
    case Ok(segments) =>
      forall k :: 0 <= k < |segments| && segments[k].Replacement? ==> Fillable(rules, segments[k].field, variables)
  }

  ghost predicate Renders(rules: Rules, d: PromptDefinition, variables: map<string, Value>) {
    && variables.Keys == AsSet(d.inputVariables) && AllUsable(variables)
    && Fills(rules, d.systemTemplate, variables) && Fills(rules, d.userTemplate, variables)
  }

  lemma FormatSucceeds(rules: Rules, template: string, variables: map<string, Value>)
    ensures Format(rules, template, variables).Ok? <==> Fills(rules, template, variables)
  {
    hide Fillable, Parse, Fill;
    if Parse(template).Ok? {
      FillSucceeds(rules, Parse(template).value, variables);
    }
  }

  /**
   Rendering succeeds exactly when the variables are the declared ones with usable values, no field
   of the templates is positional, the part of each field's name before its access path is declared,
   and path, conversion and specification are possible for the value. Construction checks none of
   the last three: it skips empty names, and otherwise compares whole names.
   */
  lemma RenderSucceedsExactly(rules: Rules, d: PromptDefinition, variables: map<string, Value>)
    ensures RenderDefinition(rules, d, variables).Ok? <==> Renders(rules, d, variables)
    ensures RenderDefinition(rules, d, variables) == Err(MissingVariables)
       <==> !(AsSet(d.inputVariables) <= variables.Keys)
    ensures RenderDefinition(rules, d, variables) == Err(UnexpectedVariables)
       <==> variables.Keys > AsSet(d.inputVariables)
    ensures RenderDefinition(rules, d, variables).Ok? ==>
              var rendered := RenderDefinition(rules, d, variables).value;
              && rendered.promptId == d.promptId && rendered.version == d.version
              && Format(rules, d.systemTemplate, variables) == Ok(rendered.systemPrompt)
              && Format(rules, d.userTemplate, variables) == Ok(rendered.userPrompt)
              && rendered.renderedText == RenderedText(rendered.systemPrompt, rendered.userPrompt)
  {
    hide Fills, Format, RenderedText, AllUsable;
    FormatSucceeds(rules, d.systemTemplate, variables);
    FormatSucceeds(rules, d.userTemplate, variables);
    NoneLeft(AsSet(d.inputVariables), variables.Keys);
    NoneLeft(variables.Keys, AsSet(d.inputVariables));
  }

  lemma NoneLeft(a: set<string>, b: set<string>)
    ensures a - b == {} <==> a <= b
  {
    if a - b == {} {
      forall name | name in a ensures name in b {
        assert name !in a - b;
      }
    }
  }

  /** Fields that are names and nothing else, as all registered templates have them. */
  ghost predicate PlainTemplate(template: string) {
    match Parse(template)
    case Err(_) => false
    case Ok(segments) => forall k :: 0 <= k < |segments| && segments[k].Replacement? ==> Plain(segments[k].field)
  }

  predicate HasPositionalField(rules: Rules, template: string) {
    match Parse(template)
    case Err(_) => false
    case Ok(segments) => exists k ::
      0 <= k < |segments| && segments[k].Replacement? && Positional(rules, segments[k].field.name)
  }

  function TextValues(values: map<string, string>): map<string, Value> {
    map name | name in values :: Str(values[name])
  }

  lemma PlainFills(rules: Rules, template: string, values: map<string, string>)
    requires Faithful(rules) && PlainTemplate(template) && FieldNames(Parse(template).value) <= values.Keys
    ensures Fills(rules, template, TextValues(values)) <==> !HasPositionalField(rules, template)
  {
    assert Positional(rules, "");
    hide Parse, FirstName, Positional, DecimalDigits;
    var segments := Parse(template).value;
    forall k | 0 <= k < |segments| && segments[k].Replacement?
      ensures Fillable(rules, segments[k].field, TextValues(values)) <==> !Positional(rules, segments[k].field.name)
    {
      var field := segments[k].field;
      assert field.name == "" ==> Positional(rules, field.name);
      assert field.name != "" ==> field.name in FieldNames(segments);
    }
  }

  /** With plain fields and texts that are not blank, a valid definition renders exactly without positional fields. */
  lemma PlainRendersExactly(rules: Rules, d: PromptDefinition, values: map<string, string>)
    requires Faithful(rules) && ValidDefinition(d) && PlainTemplate(d.systemTemplate) && PlainTemplate(d.userTemplate)
    requires values.Keys == AsSet(d.inputVariables) && forall name :: name in values ==> !Blank(values[name])
    ensures RenderDefinition(rules, d, TextValues(values)).Ok?
       <==> !HasPositionalField(rules, d.systemTemplate) && !HasPositionalField(rules, d.userTemplate)
  {
    ValidTemplates(d);
    TextsAreUsable(values);
    hide RenderDefinition, Fills, HasPositionalField, Faithful, ValidDefinition, PlainTemplate, TextValues, AllUsable, AsSet,
      Parse, FieldNames, Format, Blank;
    RenderSucceedsExactly(rules, d, TextValues(values));
    PlainFills(rules, d.systemTemplate, values);
    PlainFills(rules, d.userTemplate, values);
  }

  lemma TextsAreUsable(values: map<string, string>)
    requires forall name :: name in values ==> !Blank(values[name])
    ensures TextValues(values).Keys == values.Keys && AllUsable(TextValues(values))
  {
    hide Strip, Blank;
    forall name | name in values ensures Strip(values[name]) != "" {
      StripEdges(values[name]);
    }
  }

  lemma ValidTemplates(d: PromptDefinition)
    requires ValidDefinition(d)
    ensures Parse(d.systemTemplate).Ok? && Parse(d.userTemplate).Ok?
    ensures FieldNames(Parse(d.systemTemplate).value) + FieldNames(Parse(d.userTemplate).value) == AsSet(d.inputVariables)
  {
    hide Parse;
  }

  // ---------------------------------------------------------------- valid definitions that do not render

  /** A definition whose user template is the text of these segments; everything else is in order. */
  function Example(segments: seq<Segment>, names: seq<string>): PromptDefinition {
    PromptDefinition("p", "n", "1", "d", "", Print(segments), names, "o", "t")
  }

  lemma ExampleIsValid(segments: seq<Segment>, names: seq<string>)
    requires WellFormed(segments) && FieldNames(segments) == AsSet(names)
    requires names != [] && Distinct(names) && forall k :: 0 <= k < |names| ==> Strip(names[k]) != ""
    ensures ValidDefinition(Example(segments, names)) && Parse(Print(segments)) == Ok(segments)
  {
    ParsePrint(segments, "");
    assert Print(segments) + "" == Print(segments) && segments + [] == segments;
    assert Parse("") == Ok([]) && FieldNames([]) == {};
    StripFixed("p"); StripFixed("n"); StripFixed("1"); StripFixed("d"); StripFixed("o"); StripFixed("t");
    hide Parse, Strip, FieldNames, WellFormed, Print, Distinct;
  }

  lemma ExampleFails(rules: Rules, segments: seq<Segment>, names: seq<string>, variables: map<string, Value>, k: nat)
    requires Parse(Print(segments)) == Ok(segments)
    requires k < |segments| && segments[k].Replacement?
    requires variables.Keys == AsSet(names) ==> !Fillable(rules, segments[k].field, variables)
    ensures !RenderDefinition(rules, Example(segments, names), variables).Ok?
  {
    hide Parse, Print, Fillable;
    RenderSucceedsExactly(rules, Example(segments, names), variables);
  }

  /** The segment of `{name}` */
  function Named(name: string): Segment { Replacement(Field(name, None, None)) }

  /** `{}{q}` declared with `q`: an anonymous field is skipped when names are collected. */
  lemma AnonymousFieldNeverRenders(rules: Rules, variables: map<string, Value>)
    ensures ValidDefinition(Example([Named(""), Named("q")], ["q"]))
    ensures !RenderDefinition(rules, Example([Named(""), Named("q")], ["q"]), variables).Ok?
  {
    var segments := [Named(""), Named("q")];
    assert FieldNames(segments) == {"q"} by { assert segments[1].field.name == "q"; }
    StripFixed("q");
    BracketFreeIsClosed("q");
    assert WellFormed(segments);
    hide ValidDefinition, Parse, Print, Strip, FieldNames, WellFormed, RenderDefinition;
    ExampleIsValid(segments, ["q"]);
    assert Positional(rules, FirstName(""));
    ExampleFails(rules, segments, ["q"], variables, 0);
  }

  const FULLWIDTH_ONE := '\U{FF11}'

  /** `{1}` or `{１}` declared with that name: a numeric field is a declared name, but a position to `format`. */
  lemma NumericFieldNeverRenders(rules: Rules, digit: char, variables: map<string, Value>)
    requires rules.digit(digit).Some? && (IsDigit(digit) || digit == FULLWIDTH_ONE)
    ensures ValidDefinition(Example([Named([digit])], [[digit]]))
    ensures !RenderDefinition(rules, Example([Named([digit])], [[digit]]), variables).Ok?
  {
    var name: string := [digit];
    var segments := [Named(name)];
    assert FieldNames(segments) == {name} by { assert segments[0].field.name == name; }
    StripFixed(name);
    BracketFreeIsClosed(name);
    assert WellFormed(segments);
    hide ValidDefinition, Parse, Print, Strip, FieldNames, WellFormed, RenderDefinition;
    ExampleIsValid(segments, [name]);
    assert name[1..] == "" && FirstName(name) == name;
    assert Positional(rules, FirstName(name));
    ExampleFails(rules, segments, [name], variables, 0);
  }

  lemma {:induction false} FirstNameBeforeDot(first: string, path: string)
    requires forall i :: 0 <= i < |first| ==> first[i] !in {'.', '['}
    ensures FirstName(first + "." + path) == first
  {
    if first != "" {
      FirstNameBeforeDot(first[1..], path);
      assert (first + "." + path)[1..] == first[1..] + "." + path;
    }
  }

  /** `{q.x}` declared with `q.x`: construction compares the whole name, `format` looks up the part before the dot. */
  lemma AttributeFieldNeverRenders(rules: Rules, variables: map<string, Value>)
    ensures ValidDefinition(Example([Named("q.x")], ["q.x"]))
    ensures !RenderDefinition(rules, Example([Named("q.x")], ["q.x"]), variables).Ok?
  {
    var segments := [Named("q.x")];
    assert FieldNames(segments) == {"q.x"} by { assert segments[0].field.name == "q.x"; }
    StripFixed("q.x");
    BracketFreeIsClosed("q.x");
    assert WellFormed(segments);
    FirstNameBeforeDot("q", "x");
    assert "q" + "." + "x" == "q.x";
    assert AsSet(["q.x"]) == {"q.x"};
    hide ValidDefinition, Parse, Print, Strip, FieldNames, WellFormed, RenderDefinition, FirstName, Positional, Example;
    ExampleIsValid(segments, ["q.x"]);
    ExampleFails(rules, segments, ["q.x"], variables, 0);
  }

  /**
   `{q:d}` declared with `q`: no text whatever is rendered, only an object other than a string can be,
   and that exactly if it has this integer format.
   */
  lemma SpecFieldRendersExactly(rules: Rules, value: Value)
    requires Faithful(rules)
    ensures var segments := [Replacement(Field("q", None, Some("d")))];
            && ValidDefinition(Example(segments, ["q"]))
            && (RenderDefinition(rules, Example(segments, ["q"]), map["q" := value]).Ok?
                <==> value.Object? && rules.convert(Field("q", None, Some("d")), value, map["q" := value]).Ok?)
  {
    var field := Field("q", None, Some("d"));
    var segments := [Replacement(field)];
    assert FieldNames(segments) == {"q"} by { assert segments[0].field.name == "q"; }
    StripFixed("q");
    BracketFreeIsClosed("q");
    assert WellFormed(segments) by { assert Balanced("d"[1..], 0); }
    assert "q"[1..] == "" && FirstName("q") == "q" && !Positional(rules, "q");
    assert Parse("") == Ok([]);
    assert IntegerField(field);
    assert value.Str? ==> rules.convert(field, value, map["q" := value]).Err?;
    assert value.Nothing? ==> !Usable(value);
    assert value.Object? ==> Usable(value);
    hide DecimalDigits, Faithful;
    hide ValidDefinition, Parse, Print, Strip, FieldNames, WellFormed, RenderDefinition, Usable, FirstName, Positional;
    ExampleIsValid(segments, ["q"]);
    RenderSucceedsExactly(rules, Example(segments, ["q"]), map["q" := value]);
    assert AsSet(["q"]) == {"q"};
    assert Fillable(rules, field, map["q" := value]) <==> rules.convert(field, value, map["q" := value]).Ok?;
    assert segments[0].field == field;
  }

  /** It is a valid definition that renders for no texts, under whatever names they are given. */
  lemma SpecFieldNeverRendersTexts(rules: Rules, values: map<string, string>)
    requires Faithful(rules)
    ensures var d := Example([Replacement(Field("q", None, Some("d")))], ["q"]);
            ValidDefinition(d) && !RenderDefinition(rules, d, TextValues(values)).Ok?
  {
    var d := Example([Replacement(Field("q", None, Some("d")))], ["q"]);
    assert AsSet(d.inputVariables) == {"q"};
    hide Faithful, ValidDefinition, RenderDefinition, Example, Renders, AsSet;
    RenderSucceedsExactly(rules, d, TextValues(values));
    SpecFieldRendersExactly(rules, Str(if "q" in values then values["q"] else ""));
    if TextValues(values).Keys == {"q"} {
      assert TextValues(values) == map["q" := Str(values["q"])];
    }
  }

  // ---------------------------------------------------------------- registry state

  datatype Registry = Registry(
    definitions: map<string, map<string, PromptDefinition>>,
    activeVersions: map<string, string>)

  const EMPTY_REGISTRY := Registry(map[], map[])

  predicate Registered(r: Registry, promptId: string, version: string) {
    promptId in r.definitions && version in r.definitions[promptId]
  }

  /** The reachable registries: active versions are registered, entries are filed under their own names. */
  ghost predicate ValidRegistry(r: Registry) {
    && (forall id :: id in r.activeVersions ==> Registered(r, id, r.activeVersions[id]))
    && (forall id :: id in r.definitions ==> r.definitions[id] != map[])
    && (forall id, v :: Registered(r, id, v) ==>
         r.definitions[id][v].promptId == id && r.definitions[id][v].version == v && ValidDefinition(r.definitions[id][v]))
  }

  /** The registry after `register`. */
  function AfterRegister(r: Registry, d: PromptDefinition, active: bool): Registry {
    if Registered(r, d.promptId, d.version) then r
    else
      var versions := if d.promptId in r.definitions then r.definitions[d.promptId] else map[];
      Registry(r.definitions[d.promptId := versions[d.version := d]],
               if active then r.activeVersions[d.promptId := d.version] else r.activeVersions)
  }

  /** Nothing registered is ever changed or removed. */
  ghost predicate Extends(before: Registry, after: Registry) {
    && (forall id, v :: Registered(before, id, v) ==>
          Registered(after, id, v) && after.definitions[id][v] == before.definitions[id][v])
    && before.activeVersions.Keys <= after.activeVersions.Keys
  }

  /** Exactly one entry is added, or none; the other entries keep their definitions. */
  lemma RegisterAddsOne(r: Registry, d: PromptDefinition, active: bool)
    ensures var after := AfterRegister(r, d, active);
            && (forall id, v :: Registered(after, id, v) <==> Registered(r, id, v) || (id == d.promptId && v == d.version))
            && (forall id, v :: Registered(r, id, v) ==> after.definitions[id][v] == r.definitions[id][v])
            && (!Registered(r, d.promptId, d.version) ==> after.definitions[d.promptId][d.version] == d)
  {
    hide CheckDefinition;
    var after := AfterRegister(r, d, active);
    forall id, v ensures Registered(after, id, v) <==> Registered(r, id, v) || (id == d.promptId && v == d.version) {}
    forall id, v | Registered(r, id, v) ensures after.definitions[id][v] == r.definitions[id][v] {}
  }

  lemma RegisterKeepsValid(r: Registry, d: PromptDefinition, active: bool)
    requires ValidRegistry(r) && ValidDefinition(d)
    ensures ValidRegistry(AfterRegister(r, d, active)) && Extends(r, AfterRegister(r, d, active))
  {
    hide CheckDefinition;
    var after := AfterRegister(r, d, active);
    RegisterAddsOne(r, d, active);
    assert after.activeVersions == (if active && !Registered(r, d.promptId, d.version)
                                    then r.activeVersions[d.promptId := d.version] else r.activeVersions);
    RegisterFills(r, d, active);
    hide AfterRegister;
    forall id | id in after.activeVersions ensures Registered(after, id, after.activeVersions[id]) {
      assert Registered(r, id, after.activeVersions[id]) || (id == d.promptId && after.activeVersions[id] == d.version);
    }
  }

  lemma RegisterFills(r: Registry, d: PromptDefinition, active: bool)
    requires forall id :: id in r.definitions ==> r.definitions[id] != map[]
    ensures forall id :: id in AfterRegister(r, d, active).definitions ==> AfterRegister(r, d, active).definitions[id] != map[]
  {
    var after := AfterRegister(r, d, active);
    if !Registered(r, d.promptId, d.version) {
      assert d.version in after.definitions[d.promptId];
    }
  }

  datatype Registration = Registration(definition: PromptDefinition, active: bool)

  function RegisterAll(r: Registry, calls: seq<Registration>): Registry {
    if calls == [] then r
    else
      var before := RegisterAll(r, calls[..|calls| - 1]);
      var last := calls[|calls| - 1];
      AfterRegister(before, last.definition, last.active)
  }

  /** What `validate` decides on an arbitrary registry. */
  function Validate(r: Registry): Option<RegistryError> {
    if exists id :: id in r.definitions && r.definitions[id] == map[] then Some(NoVersions)
    else if exists id :: id in r.definitions && id !in r.activeVersions then Some(NoActiveVersion)
    else if exists id :: id in r.definitions && r.activeVersions[id] !in r.definitions[id] then Some(ActiveVersionMissing)
    else None
  }

  /** `id` was registered by some call with `active=True` that was not a duplicate of an earlier call. */
  ghost predicate Activated(calls: seq<Registration>, id: string) {
    exists k :: 0 <= k < |calls| && calls[k].active && calls[k].definition.promptId == id
      && !Registered(RegisterAll(EMPTY_REGISTRY, calls[..k]), id, calls[k].definition.version)
  }

  ghost predicate Offered(calls: seq<Registration>, id: string, v: string) {
    exists k :: 0 <= k < |calls| && calls[k].definition.promptId == id && calls[k].definition.version == v
  }

  /**
   Over any run of registrations: the registry stays valid, holds exactly the definitions
   offered, and a prompt is active exactly if some accepted call activated it.
   */
  lemma {:induction false} RegistryRuns(calls: seq<Registration>)
    requires forall k :: 0 <= k < |calls| ==> ValidDefinition(calls[k].definition)
    ensures ValidRegistry(RegisterAll(EMPTY_REGISTRY, calls))
    ensures forall id, v :: Registered(RegisterAll(EMPTY_REGISTRY, calls), id, v) <==> Offered(calls, id, v)
    ensures forall id :: id in RegisterAll(EMPTY_REGISTRY, calls).activeVersions <==> Activated(calls, id)
  {
    hide CheckDefinition;
    if calls != [] {
      var n := |calls| - 1;
      var before := RegisterAll(EMPTY_REGISTRY, calls[..n]);
      RegistryRuns(calls[..n]);
      RegisterKeepsValid(before, calls[n].definition, calls[n].active);
      RegisterAddsOne(before, calls[n].definition, calls[n].active);
      ActivatedSnoc(calls);
      OfferedSnoc(calls);
    }
  }

  lemma OfferedSnoc(calls: seq<Registration>)
    requires calls != []
    ensures forall id, v :: Offered(calls, id, v) <==>
              || Offered(calls[..|calls| - 1], id, v)
              || (calls[|calls| - 1].definition.promptId == id && calls[|calls| - 1].definition.version == v)
  {
  }

  /** The registry only grows: each registry of a run is extended by every later one. */
  lemma {:induction false} RegistryGrows(calls: seq<Registration>, k: nat)
    requires k <= |calls|
    requires forall i :: 0 <= i < |calls| ==> ValidDefinition(calls[i].definition)
    ensures Extends(RegisterAll(EMPTY_REGISTRY, calls[..k]), RegisterAll(EMPTY_REGISTRY, calls))
  {
    hide CheckDefinition;
    if k < |calls| {
      var n := |calls| - 1;
      RegistryGrows(calls[..n], k);
      assert calls[..n][..k] == calls[..k];
      RegistryRuns(calls[..n]);
      RegisterKeepsValid(RegisterAll(EMPTY_REGISTRY, calls[..n]), calls[n].definition, calls[n].active);
    } else {
      assert calls[..k] == calls;
    }
  }

  /** After a run `validate` passes exactly if every prompt offered was activated by an accepted call. */
  lemma ValidateAfterRun(calls: seq<Registration>)
    requires forall k :: 0 <= k < |calls| ==> ValidDefinition(calls[k].definition)
    ensures Validate(RegisterAll(EMPTY_REGISTRY, calls)) == None
       <==> forall k :: 0 <= k < |calls| ==> Activated(calls, calls[k].definition.promptId)
  {
    hide CheckDefinition, RegisterAll, Activated, ValidDefinition, AfterRegister;
    RegistryRuns(calls);
    OfferedPrompts(RegisterAll(EMPTY_REGISTRY, calls), calls);
    ValidateValid(RegisterAll(EMPTY_REGISTRY, calls));
    hide ValidRegistry, Registered, Offered, Validate;
  }

  /** On a valid registry `validate` looks for one thing: a prompt without an active version. */
  lemma ValidateValid(r: Registry)
    requires ValidRegistry(r)
    ensures Validate(r) == None <==> forall id :: id in r.definitions ==> id in r.activeVersions
  {
    hide ValidDefinition;
  }

  lemma OfferedPrompts(r: Registry, calls: seq<Registration>)
    requires ValidRegistry(r)
    requires forall id, v :: Registered(r, id, v) <==> Offered(calls, id, v)
    ensures forall id :: id in r.definitions <==> exists k :: 0 <= k < |calls| && calls[k].definition.promptId == id
  {
    hide ValidDefinition;
    forall k | 0 <= k < |calls| ensures calls[k].definition.promptId in r.definitions {
      assert Offered(calls, calls[k].definition.promptId, calls[k].definition.version);
    }
    forall id | id in r.definitions
      ensures exists k :: 0 <= k < |calls| && calls[k].definition.promptId == id
    {
      var v :| v in r.definitions[id];
      assert Registered(r, id, v);
    }
  }

  lemma ActivatedSnoc(calls: seq<Registration>)
    requires calls != []
    ensures forall id :: Activated(calls, id) <==>
              || Activated(calls[..|calls| - 1], id)
              || (calls[|calls| - 1].active && calls[|calls| - 1].definition.promptId == id
                  && !Registered(RegisterAll(EMPTY_REGISTRY, calls[..|calls| - 1]), id, calls[|calls| - 1].definition.version))
  {
    var n := |calls| - 1;
    forall k | 0 <= k < n ensures calls[..n][..k] == calls[..k] {}
  }

  // ---------------------------------------------------------------- the class

  class PromptRegistry {
    var definitions: map<string, map<string, PromptDefinition>>
    var activeVersions: map<string, string>

    ghost function State(): Registry
      reads this
    {
      Registry(definitions, activeVersions)
    }

    constructor ()
      ensures State() == EMPTY_REGISTRY
    {
      definitions, activeVersions := map[], map[];
    }

    /** `register`: a duplicate is rejected and leaves the registry as it was. */
    method Register(definition: PromptDefinition, active: bool)
      returns (result: Result<PromptDefinition, RegistryError>)
      modifies this
      ensures State() == AfterRegister(old(State()), definition, active)
      ensures if Registered(old(State()), definition.promptId, definition.version)
              then result == Err(DuplicateRegistration) && State() == old(State())
              else result == Ok(definition)
    {
      hide ValidDefinition, ValidRegistry, CheckDefinition;
      if definition.promptId !in definitions {
        definitions := definitions[definition.promptId := map[]];
      }
      var versions := definitions[definition.promptId];
      if definition.version in versions {
        return Err(DuplicateRegistration);
      }
      definitions := definitions[definition.promptId := versions[definition.version := definition]];
      if active {
        activeVersions := activeVersions[definition.promptId := definition.version];
      }
      return Ok(definition);
    }

    /** `get` */
    function Get(promptId: string, version: string): (result: Result<PromptDefinition, RegistryError>)
      reads this
      ensures result.Ok? <==> Registered(State(), promptId, version)
      ensures ValidRegistry(State()) && result.Ok?
        ==> result.value.promptId == promptId && result.value.version == version && ValidDefinition(result.value)
      ensures result.Err? ==> result.error == if promptId in definitions then UnknownVersion else UnknownPrompt
    {
      if promptId !in definitions then Err(UnknownPrompt)
      else if version !in definitions[promptId] then Err(UnknownVersion)
      else assert Registered(State(), promptId, version); Ok(definitions[promptId][version])
    }

    /** `get_active`: on a valid registry it fails only for prompts without an active version. */
    function GetActive(promptId: string): (result: Result<PromptDefinition, RegistryError>)
      reads this
      ensures ValidRegistry(State()) ==> (result.Ok? <==> promptId in activeVersions)
      ensures ValidRegistry(State()) && result.Ok?
        ==> result.value.promptId == promptId && result.value.version == activeVersions[promptId]
      ensures promptId !in activeVersions ==> result == Err(UnknownPrompt)
    {
      if promptId !in activeVersions then Err(UnknownPrompt) else Get(promptId, activeVersions[promptId])
    }

    /** The version that a call of `render` is about: the given one, or the prompt's active one. */
    ghost function Requested(promptId: string, version: Option<string>): Option<string>
      reads this
    {
      if version.Some? then version
      else if promptId in activeVersions then Some(activeVersions[promptId]) else None
    }

    /**
     `render`: it succeeds exactly when the requested version is registered and its templates can be
     filled with the variables; the result is filed under the names it was asked for.
     */
    method Render(rules: Rules, promptId: string, variables: map<string, Value>, version: Option<string>)
      returns (result: Result<RenderedPrompt, RegistryError>)
      ensures var v := Requested(promptId, version);
              && (v == None ==> result == Err(UnknownPrompt))
              && (v.Some? && promptId !in definitions ==> result == Err(UnknownPrompt))
              && (v.Some? && promptId in definitions && v.value !in definitions[promptId] ==> result == Err(UnknownVersion))
              && (v.Some? && Registered(State(), promptId, v.value)
                  ==> var d := definitions[promptId][v.value];
                      && (result.Ok? <==> Renders(rules, d, variables))
                      && (result == Err(MissingVariables) <==> !(AsSet(d.inputVariables) <= variables.Keys))
                      && (result == Err(UnexpectedVariables) <==> variables.Keys > AsSet(d.inputVariables)))
      ensures result.Ok? ==>
                var d := definitions[promptId][Requested(promptId, version).value];
                && Format(rules, d.systemTemplate, variables) == Ok(result.value.systemPrompt)
                && Format(rules, d.userTemplate, variables) == Ok(result.value.userPrompt)
      ensures ValidRegistry(State()) && result.Ok? ==>
                && result.value.promptId == promptId
                && Some(result.value.version) == Requested(promptId, version)
                && (version.Some? ==> result.value.version == version.value)
                && (version.None? ==> promptId in activeVersions && result.value.version == activeVersions[promptId])
    {
      hide ValidDefinition, RenderDefinition, Renders, Format;
      var definition := if version.Some? then Get(promptId, version.value) else GetActive(promptId);
      match definition
      case Err(error) => return Err(error);
      case Ok(d) =>
        RenderSucceedsExactly(rules, d, variables);
        return RenderDefinition(rules, d, variables);
    }

    /** `validate`: one pass over the prompts; on a valid registry only a missing active version fails. */
    method ValidateAll() returns (error: Option<RegistryError>)
      ensures error == None <==> Validate(State()) == None
      ensures ValidRegistry(State()) ==>
                (error == None <==> forall id :: id in definitions ==> id in activeVersions)
      ensures ValidRegistry(State()) && error != None ==> error == Some(NoActiveVersion)
    {
      var remaining := definitions.Keys;
      while remaining != {}
        invariant remaining <= definitions.Keys
        invariant forall id :: id in definitions && id !in remaining ==>
          definitions[id] != map[] && id in activeVersions && activeVersions[id] in definitions[id]
        decreases remaining
      {
        var id :| id in remaining;
        remaining := remaining - {id};
        if definitions[id] == map[] {
          return Some(NoVersions);
        }
        if id !in activeVersions {
          return Some(NoActiveVersion);
        }
        if activeVersions[id] !in definitions[id] {
          return Some(ActiveVersionMissing);
        }
      }
      return None;
    }
  }
}
