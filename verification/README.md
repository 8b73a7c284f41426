# ExperimentOS: a verified model

ExperimentOS ingests product experiments, answers questions about them with retrieval-augmented prompts and a
fixed workflow of agents, and gates its own releases on evaluation reports. This project models the parts of it
that carry state, branch a lot or have to agree with each other, and proves what they promise. Nothing of the
original was executed.

Python's `float` is modelled by `real`, `dict` by `map` (or by the sequence of its keys where iteration order is
visible), exceptions by `Result` values or by an outcome parameter, and services that the code only calls by
arbitrary answers.

## What is modelled

- **Text** (`Text.dfy`): `str.strip`, `str.splitlines`, `rfind`, substring tests and order-keeping deduplication,
  with the notion of the *ink* of a text, its non-whitespace characters in order. **Counting** (`Counting.dfy`):
  grouping with `defaultdict(list)`, counting, means and `sorted` over names.
- **The Markdown chunker** (`Chunking.dfy`, `ChunkContents.dfy`): the section scan, the sliding window with its break
  points, the numbering of chunks, and what sections, windows and chunks are in terms of the report.
- **Prompts** (`PromptTemplates.dfy`, `PromptRegistry.dfy`, `PromptPrinting.dfy`, `PromptScanning.dfy`): parsing and
  formatting of templates as `string.Formatter` and `str.format` do it, the prompt registry, the grounded-prompt
  printer, and the line scanners of the offline evaluator that read a prompt back.
- **Ingestion** (`ExperimentInput.dfy`, `Database.dfy`, `MetricStore.dfy`): checking an experiment directory, the
  replace-style transaction over four tables, and reading metrics back through their storage names.
- **Observability** (`Spans.dfy`, `Providers.dfy`): span records on the heap, the current-span variable, sampling
  and the composite provider's failure counts.
- **The agent workflow** (`AgentState.dfy`, `ExperimentAnalysis.dfy`, `BusinessImpact.dfy`, `RiskAssessment.dfy`,
  `Guardrail.dfy`, `Decision.dfy`, `HumanApproval.dfy`, `ExecutiveSummary.dfy`, `Workflow.dfy`): the shared state and
  its reducers, the agents with the tools they call, the node wrappers, the planner's schedules and the graph.
  `WorkflowRuns.dfy` proves what any run of well-behaved agents keeps, `WorkflowOutcomes.dfy` what the repository's own
  agents recommend and approve, `RolloutConditions.dfy` and `Recommendations.dfy` on exactly which stored evidence they
  give each recommendation, `RiskLevels.dfy` which risk they report, `RunRecords.dfy` what a run plans, logs, lists and
  summarizes, and `WorkflowObservation.dfy` what monitoring reads off it.
  `EndToEnd.dfy` joins ingestion and workflow: recommendations in terms of the ingested directory.
- **Structured requests** (`AnalysisIntegrity.dfy`, `IntegrityRuns.dfy`): the request-scoped service that holds the
  authoritative results, the protection of every node's update and of the response, and what a protected run
  publishes whatever agents are injected.
- **Evaluation** (`JsonPointer.dfy`, `PointerAgreement.dfy`, `PromptRegression.dfy`, `DeepEvalReport.dfy`,
  `AgentMetrics.dfy`, `QualityGate.dfy`): the JSON Pointer resolver (sections 3 and 4 of RFC 6901) and the readiness
  verdict, replayed retrievals and version comparison, the double counting of metric results, agent summaries and the
  command gate.

A run of the workflow is the sequence of its eight states: `IsRun(q, agents, states)` says that `states[k]` is what
node `k` of the order left behind. It is stated for arbitrary agents, as the graph builder accepts them; results
about the repository's own agents are stated for `DefaultRun`. `WorkflowRuns.RunsFollowTheGraph` shows that the runs
are what invoking the built graph leaves, and `WorkflowRuns.RunsAreExecutions` that every query has exactly one.
Tools are functions that may fail; `RegisteredLifts` and `RegisteredValidation` say that they are the registered ones.
A protected run is the sequence of its eight worlds, a state and the service's results each: `IsProtectedRun`. The
service puts structured requests on the protected graph and all other questions on the unprotected one.

What depends on the interpreter is a parameter: which non-ASCII characters are decimal digits, and what a format
specification, a conversion or an attribute access makes of a value.

## What turned out

- The chunker's guard, an overlap below the target, is too weak: its window loop ends on every text exactly when
  the overlap is at most half the target plus one (`Chunking.HaltsOnEveryTextExactly`), and on one text exactly
  when every turn moves forward (`Chunking.HaltsExactly`). A sentence break never decides where a window ends
  (`Chunking.SentenceBreakNeverWins`).
- A prompt definition can pass every construction check and never render. Construction compares whole field names
  and skips empty ones, formatting looks up the part before the first dot or bracket and has no positions:
  `{}` (`PromptRegistries.AnonymousFieldNeverRenders`), `{1}` and its non-ASCII forms (`NumericFieldNeverRenders`),
  `{q.x}` (`AttributeFieldNeverRenders`) and, for texts, `{q:d}` (`SpecFieldNeverRendersTexts`), which only values
  with an integer format fill (`SpecFieldRendersExactly`). `PromptRegistries.RenderSucceedsExactly` gives the
  condition for all definitions and values.
- A metric is read back exactly when its own name has no colon (`MetricStore.StorageNameRoundTrip`,
  `Database.IngestedMetricsAreReadBack`), and ingestion accepts colons. So a worsened metric whose name has one never
  leads to a rollback, and a primary metric with one neither to a rollback nor to a rollout
  (`EndToEnd.RollbackFromIngestedMetrics`, `EndToEnd.RolloutFromIngestedMetrics`, `EndToEnd.ColonHidesWorsening`).
- The JSON Pointer resolver accepts what RFC 6901 refuses: array keys that only `int` reads, such as `-1` or a
  fullwidth digit, and escapes such as `~2`. Everything an interpreter can hold is resolved as the standard says
  exactly if the pointer has neither (`PointerAgreement.AgreesOnListsExactly`). Over arrays of any length the
  indices that are too long for `int` come in addition (`PointerAgreement.AgreesEverywhereExactly`,
  `JsonPointer.ResolverAgreesExactly`); they lie beyond the end of every list that an interpreter can hold, where both
  refuse them (`PointerAgreement.NeverOverlong`).
- The protection of structured requests does what it is for: injected agents change nothing in the outcome
  (`IntegrityRuns.InjectedAgentsDoNotInterfere`), every rejected proposal and nothing else is named in the result
  (`IntegrityRuns.FindingsAreRejections`), and the repository's own agents are never flagged
  (`IntegrityRuns.OwnAgentsAreNotFlagged`).
- If the absolute-lift call failed, the business-impact agent would fail as a whole, because its summary formats a
  missing number, and the decision would be blocked (`WorkflowOutcomes.FailedLiftBlocks`). That needs another tool
  registered under the name (`WorkflowOutcomes.ReplacedLiftToolBlocks`): the registered one never fails on the
  numbers it is given, so no run logs such an error (`WorkflowOutcomes.NoImpactErrors`).
- When every evaluated agent run raised, the summary reports no samples and no failures
  (`AgentMetrics.SummaryAddsUp`, `AgentMetrics.FailuresCanVanish`).
- The gate's exit code 1 does not by itself mean a quality failure. On the gate's own commands it is an
  infrastructure failure exactly when one of the first eleven ends with 1 after only successes while all required
  reports are already there, from an earlier run (`QualityGate.GateExitCodeOneExactly`,
  `QualityGate.ExitCodeOneIsAmbiguous`); on a fresh artifact directory the missing reports make the exit code 2.
- Observed per-node counts of calls, failures and errors add up to the totals exactly when no such record was logged
  under a name outside the eight nodes (`WorkflowObservation.CountsAddUp`); runs of well-behaved agents log nothing else
  (`WorkflowObservation.RunCountsAddUp`).

## Model

| member | source | states |
|---|---|---|
| Chunking.ScanSections | packages/ingestion/chunking.py:34-47 | The scan over the report's lines yields the sections of its line groups, a new group at each level 2 or 3 heading. |
| Chunking.KeepNonBlank | packages/ingestion/chunking.py:49 | The filter keeps exactly the sections with text, in order. |
| Chunking.SectionsFromMarkdown | packages/ingestion/chunking.py:29-49 | The whole section split equals the sections of the line groups with the blank ones dropped. |
| Chunking.GroupsPartitionLines | packages/ingestion/chunking.py:34-47 | Section groups concatenated are the report's lines, in order: no line is lost, repeated or moved. |
| Chunking.SectionsKeepInk | packages/ingestion/chunking.py:29-49 | Dropping blank sections and stripping loses no non-whitespace character. |
| ChunkContents.HeadingMatches | packages/ingestion/chunking.py:10 | A line is a heading exactly if the pattern matches it, and its title is the stripped match. |
| ChunkContents.TitleIsLastHeading | packages/ingestion/chunking.py:38-46 | A line belongs to the section that the last heading at or before it has opened, under that heading's title. |
| ChunkContents.SectionLines | packages/ingestion/chunking.py:34-47 | A section's text is its lines joined by newlines, without the whitespace around them. |
| Chunking.DroppedSectionIsBlankPreamble | packages/ingestion/chunking.py:29-49 | Only a blank block before the first heading can be missing from the section list. |
| Chunking.FindWindowEnd | packages/ingestion/chunking.py:59-66 | A window ends at the end of the text, just past its last space or empty line beyond its middle, or else after the target size. |
| Chunking.SentenceBreakNeverWins | packages/ingestion/chunking.py:61-64 | The three-way choice of break points equals the two-way choice between paragraph and word breaks. |
| Chunking.StuckTextRepeats | packages/ingestion/chunking.py:58-73 | For every overlap above half the target plus one there is a text whose window start repeats. |
| Chunking.HaltsExactly | packages/ingestion/chunking.py:57-73 | On any one text the window loop ends if and only if every turn moves forward. |
| Chunking.HaltsOnEveryTextExactly | packages/ingestion/chunking.py:57-73 | The window loop ends on every text if and only if the overlap is at most half the target plus one. |
| Chunking.WindowBound | packages/ingestion/chunking.py:57-73 | From any start, the windows times the least stride fit in the rest of the text. |
| Chunking.WindowCount | packages/ingestion/chunking.py:57-73 | At most (length - 1) divided by the stride, plus one, windows are examined. |
| Chunking.WindowsCover | packages/ingestion/chunking.py:57-73 | Windows leave no gap and repeat at most `overlap` characters. |
| Chunking.SplitSectionText | packages/ingestion/chunking.py:52-75 | On every text and overlap for which it ends, the loop returns the stripped non-blank windows. |
| ChunkContents.SectionIsWindowed | packages/ingestion/chunking.py:52-75 | The windows start at the beginning, each ends where a window ends, the next starts exactly `overlap` characters before that, and the last reaches the end. |
| ChunkContents.TokensAreWords | packages/ingestion/chunking.py:26-27 | A word is one token, and whitespace is none. |
| Chunking.SectionKeepsInk | packages/ingestion/chunking.py:52-75 | Whenever the call returns, the pieces of a section, each without what it repeats, spell out the section's non-whitespace characters in order. |
| Chunking.ChunkMarkdownReport | packages/ingestion/chunking.py:78-108 | Bad sizes are rejected in the program's order; otherwise, whenever the call returns, it returns the chunks of all sections, numbered through. |
| Chunking.ReportIsCovered | packages/ingestion/chunking.py:29-108 | Whenever the call returns, chunks without repeats spell out every non-whitespace character of the report in order; none is longer than the target; indices are 0, 1, 2, ... in section order. |
| ChunkContents.TokensAdd | packages/ingestion/chunking.py:26-27 | Token counts of texts with whitespace between them add up; with `TokensAreWords`, they number the words. |
| ChunkContents.ChunksSayTheirSection | packages/ingestion/chunking.py:90-106 | Every chunk carries the title of its section, its place among that section's texts, and the text's token count. |
| PromptTemplates.ParsePrint | packages/llm/prompt_registry.py:316-321 | Printing literal text and fields with access paths, conversions and nested specifications and parsing the result gives them back. |
| PromptTemplates.PrintParse | packages/llm/prompt_registry.py:316-321 | Every accepted template is the printed form of its segments. |
| PromptTemplates.BadTemplates | packages/llm/prompt_registry.py:316-321 | A rejected template for each of the errors. |
| PromptTemplates.ExtractTemplateVariables | packages/llm/prompt_registry.py:316-321 | The collected set is that of the non-empty field names, access paths included, of any template that `string.Formatter` reads. |
| PromptTemplates.FormatIsOnePass | packages/llm/prompt_registry.py:157-158 | Formatting substitutes what the value converts to, braces included, and formats the text around it on its own. |
| PromptTemplates.FillSucceeds | packages/llm/prompt_registry.py:157-158 | Formatting succeeds exactly if every field's first name is not positional and has a value on which its path, conversion and specification work. |
| PromptRegistries.RenderSucceedsExactly | packages/llm/prompt_registry.py:128-158 | Any definition renders if and only if exactly its declared variables are given with usable values, and in both templates every first name is a variable, none is positional, and every path, conversion and specification works on its value. |
| PromptRegistries.RenderedTextIs | packages/llm/prompt_registry.py:172-174 | The rendered text is the parts with text, an empty line between two. |
| PromptRegistries.PlainRendersExactly | packages/llm/prompt_registry.py:66-74 | With plain fields and non-blank texts, a valid definition renders if and only if no template has a positional field, in any Unicode version's digits. |
| PromptRegistries.AnonymousFieldNeverRenders | packages/llm/prompt_registry.py:316-321 | `{}{q}` declared with `q` passes construction and renders for no variables. |
| PromptRegistries.NumericFieldNeverRenders | packages/llm/prompt_registry.py:66-74 | A field that is a digit, ASCII or not, declared under that name passes construction and renders for no variables. |
| PromptRegistries.AttributeFieldNeverRenders | packages/llm/prompt_registry.py:66-74 | `{q.x}` declared with `q.x` passes construction and renders for no variables. |
| PromptRegistries.SpecFieldRendersExactly | packages/llm/prompt_registry.py:157-158 | `{q:d}` declared with `q` passes construction and is rendered for a value if and only if the value is no text and no `None` and has this format. |
| PromptRegistries.SpecFieldNeverRendersTexts | packages/llm/prompt_registry.py:66-74 | `{q:d}` declared with `q` passes construction and renders for no texts, since a string has no `d` format. |
| PromptRegistries.RegisterKeepsValid | packages/llm/prompt_registry.py:93-102 | A registration keeps the registry valid and extends it; every active version stays registered. |
| PromptRegistries.RegistryRuns | packages/llm/prompt_registry.py:88-102 | Over any run of registrations exactly the offered definitions are registered, and a prompt is active exactly if an accepted call activated it. |
| PromptRegistries.RegistryGrows | packages/llm/prompt_registry.py:93-102 | Definitions are append-only: each registry of a run is extended by every later one. |
| PromptRegistries.ValidateValid | packages/llm/prompt_registry.py:179-189 | On a valid registry `validate` succeeds exactly when every prompt has an active version. |
| PromptRegistries.ValidateAfterRun | packages/llm/prompt_registry.py:179-189 | After a run `validate` succeeds exactly when every offered prompt was activated by an accepted call. |
| PromptRegistries.PromptRegistry.Register | packages/llm/prompt_registry.py:93-102 | A duplicate is rejected and changes nothing; otherwise one definition is added and possibly made active. |
| PromptRegistries.PromptRegistry.GetActive | packages/llm/prompt_registry.py:113-117 | On a valid registry the lookup fails only for prompts without an active version. |
| PromptRegistries.PromptRegistry.Render | packages/llm/prompt_registry.py:128-177 | Fails as documented for unknown prompts and versions; otherwise renders the requested or active version, succeeding exactly when its templates can be filled, and is filed under the names asked for. |
| PromptRegistries.PromptRegistry.ValidateAll | packages/llm/prompt_registry.py:179-189 | One pass over the prompts finds a prompt without an active version if there is one. |
| PromptScanning.ExtractPromptContext | packages/evals/run.py:341-366 | The flag-driven scan with its early exit computes the context of the prompt's lines. |
| PromptScanning.ExtractDocumentNames | packages/evals/run.py:369-377 | The names on `Document:` lines, stripped, without blanks or repeats, in order. |
| PromptScanning.ExtractPromptBlock | packages/evals/run.py:334-338 | The stripped rest of the first line with the prefix, or nothing. |
| PromptPrinting.RegisteredClosings | packages/llm/prompt_registry.py:210-251 | Both registered answer templates end in an instruction that the scanner recognizes. |
| PromptPrinting.RagAnswerFormat | packages/llm/prompts.py:71-78 | Rendering the registered template prints question, context and closing in one pass, whatever braces they hold. |
| PromptPrinting.ContextRoundTrip | packages/evals/run.py:341-366 | Scanning a printed prompt yields the collapsed non-blank chunk texts, one per line and in order. |
| PromptPrinting.QuestionRoundTrip | packages/evals/run.py:334-338 | A stripped single-line question is read back from the first line of the printed prompt. |
| PromptPrinting.DocumentNamesRoundTrip | packages/evals/run.py:369-377 | The document names are read back in order of first occurrence, without blanks or duplicates. |
| PromptPrinting.HeaderRoundTrip | packages/llm/prompts.py:51-66 | Every field of a chunk is read back from the header line with its own label. |
| PromptPrinting.PrintedPrompt | packages/llm/prompts.py:45-78 | A grounded prompt is built exactly for a question with text and at least one chunk, and is the filled template. |
| PromptPrinting.GroundedPromptIsReadBack | packages/evals/run.py:334-377 | Whenever a grounded prompt is built, scanning it gives back the collapsed chunk texts, the question and the document names. |
| ExperimentInputs.ReadMetrics | packages/ingestion/load_experiment.py:109-165 | Succeeds exactly when all required columns are there, every row is of the experiment, named, with a variant and a number, and the names are distinct; then there is one metric per row with that row's name, variant, number, lift and p-value; otherwise the first failing demand is reported, with the line. |
| ExperimentInputs.LoadExperiment | packages/ingestion/load_experiment.py:180-203 | An input is loaded exactly when the directory has three readable files with valid metadata, accepted metrics and a report with text, and then holds their contents cell by cell; every failure has the stated error, in the program's order. |
| ExperimentInputs.DocumentTitle | packages/ingestion/load_experiment.py:206-211 | The loop returns the text of the first level-one heading, or the fallback. |
| ExperimentInputs.TitleExactly | packages/ingestion/load_experiment.py:206-211 | The title is what the first line that starts with a hash and a space says after it, or the fallback if it says nothing or there is no such line. |
| ExperimentInputs.TitleIsClean | packages/ingestion/load_experiment.py:206-211 | A title that is not the fallback is neither blank nor surrounded by whitespace. |
| MetricStore.StorageNameRoundTrip | packages/agents/experiment_analysis_agent.py:623-625 | Splitting a storage name gives name and variant back if and only if the name has no colon. |
| MetricStore.ColonMovesTheBoundary | packages/ingestion/load_experiment.py:72-74 | Two different pairs can share a storage name when a metric name has a colon. |
| MetricStore.GroupMetrics | packages/agents/experiment_analysis_agent.py:482-488 | The nested dictionary answers every lookup as a last-match scan of the list would, and holds nothing else. |
| MetricStore.NamesGrow | packages/agents/experiment_analysis_agent.py:482-488 | More metrics only append names: the index keeps the order of first occurrence. |
| MetricStore.MetricValuesFromStateMetrics | packages/agents/business_impact_agent.py:323-336 | The linear scan finds the last control and treatment values of the metric. |
| MetricStore.ReadBack | packages/agents/experiment_analysis_agent.py:104-126 | For any accepted metrics, stored and loaded in any row order, looking a pair up finds the one metric ingested under its storage name if the name has no colon, and nothing otherwise. |
| MetricStore.ReadBackValue | packages/agents/experiment_analysis_agent.py:104-126 | Looking an ingested pair up after storing and loading returns the ingested metric if and only if its own name has no colon, whatever the other names are. |
| MetricStore.LoadedAnswers | packages/agents/experiment_analysis_agent.py:104-126 | For variants without a colon, as `control` and `treatment`, loaded metrics answer as the ingested list for colon-free names and never for others. |
| Database.DeletionKeeps | packages/ingestion/load_experiment.py:251-256 | Deleting documents and metrics removes all evidence of the experiment, chunks by cascade, and no other row. |
| Database.AddMetricsKeeps | packages/ingestion/load_experiment.py:258-266 | Inserting distinct metrics violates no unique key and leaves exactly those rows for the experiment. |
| Database.AddDocumentKeeps | packages/ingestion/load_experiment.py:268-287 | The new document is the experiment's only one; deleting its chunks changes nothing. |
| Database.AddChunksKeeps | packages/ingestion/load_experiment.py:289-299 | Inserting the numbered chunks violates no unique key and leaves exactly those rows for the document. |
| Database.IngestionReplaces | packages/ingestion/load_experiment.py:231-299 | One ingestion into any valid tables keeps all constraints, leaves exactly what the input says, keeps an existing id and touches no other row. |
| Database.IngestionSetsOneName | packages/ingestion/load_experiment.py:231-299 | Seen by name, an ingestion sets the contents of one experiment and nothing else. |
| Database.AnySequenceOfIngestions | packages/db/models.py:40-118 | Over any sequence of ingestions no unique or foreign key is violated, the database shows the replayed inputs, and no id changes. |
| Database.LastInputWins | packages/ingestion/load_experiment.py:233-256 | What is shown under a name is the last input ingested under it. |
| Database.LastInputIsHeld | packages/ingestion/load_experiment.py:214-300 | After any sequence of ingestions some experiment holds exactly the contents of the last input under its name. |
| Database.IngestionIsIdempotent | packages/ingestion/load_experiment.py:236-256 | Ingesting the same input again shows the same contents. |
| Database.ExactlyOneDocument | packages/db/models.py:40-60 | An ingested experiment has exactly one document row, the input's. |
| Database.IngestedRows | packages/ingestion/load_experiment.py:236-285 | The stored rows hold the metadata, report, title and metric values under their own columns. |
| Database.IngestedMetricsAreReadBack | packages/agents/experiment_analysis_agent.py:104-126 | End to end: a metric of an ingested experiment is found again with its values if and only if its own name has no colon, whatever the other names are and in whatever order rows come back. |
| Database.CsvRowIsReadBack | packages/ingestion/load_experiment.py:137-155 | From the file to the lookup: a row of an accepted file is found under its name and variant with its own number, lift and p-value if and only if its name has no colon. |
| Database.IngestedReportIsCovered | packages/ingestion/load_experiment.py:223-299 | End to end: the chunk rows in index order spell out the report's non-whitespace characters. |
| Database.Session.InsertMetrics | packages/ingestion/load_experiment.py:258-266 | The insertion loop meets the unique constraint at every row. |
| Database.Session.InsertChunks | packages/ingestion/load_experiment.py:289-299 | The insertion loop meets the unique constraint at every row. |
| Database.Session.DeleteEvidence | packages/ingestion/load_experiment.py:251-256 | The two deletes with the cascade to chunks. |
| Database.Session.IngestExperiment | packages/ingestion/load_experiment.py:231-314 | The transaction ends in the replaced state, with all constraints kept, and reports counts and whether it replaced. |
| Spans.ExactlyOneParent | packages/observability/base.py:170-171 | A record occurs once among its parent's children and among no one else's. |
| Spans.EveryRecordHasARoot | packages/observability/base.py:158-171 | Following parents ends at a parentless record of the same trace. |
| Spans.TreesPartition | packages/observability/base.py:158-171 | The records below a root are exactly those whose parents lead to it, so every record is in one tree. |
| Spans.NoCycles | packages/observability/base.py:158-171 | A descendant was created later than its ancestor and shares its trace id; no record is its own ancestor. |
| Spans.Tracer.StartRootSpan | packages/observability/base.py:126-146 | A new parentless record of the given trace, with the trace id added to its metadata unless it is there. |
| Spans.Tracer.StartSpan | packages/observability/base.py:148-172 | A record under the given or current span, appended to that parent's children, with its trace id. |
| Spans.Tracer.Activate | packages/observability/base.py:43-49 | The span becomes current and the token holds the previous one. |
| Spans.Tracer.Reset | packages/observability/base.py:43-49 | The span of the token is current again. |
| Spans.Tracer.RecordError | packages/observability/base.py:82-95 | The error is stored and the status becomes error. |
| Spans.Tracer.Finish | packages/observability/base.py:97-108 | An error status stays, a pending span completes, only a parentless span is handed to the provider, and what that raises is raised after the changes. |
| Spans.Execute | packages/observability/base.py:38-108 | Any program of starts, errors, finishes and nested activations, also one that raises, keeps the forest, undoes nothing and restores the current span. |
| Providers.SamplingIsMonotone | packages/observability/base.py:207-235 | Raising the rate never loses a trace; the extreme rates emit everything, or only traced errors. |
| Providers.SamplingExactly | packages/observability/base.py:227-235 | A trace without error is emitted exactly if its fraction is within the rate. |
| Providers.Provider.FinishRoot | packages/observability/base.py:197-205 | A failed emission of a trace that should be emitted is counted, and raised only if strict. |
| Providers.TakenUpToFirstStrictFailure | packages/observability/composite.py:12-25 | Only the last provider asked can have failed strictly, and providers are left out only after such a failure. |
| Providers.Composite.FinishRoot | packages/observability/composite.py:12-25 | The composite counts each failure among the providers asked once, each provider its own, and it raises exactly on a strict failure. |
| Providers.FailuresAddUp | packages/observability/composite.py:12-25 | The composite's increase is the sum of its distinct providers' increases, also if one is listed twice. |
| Providers.LenientNeverStops | packages/observability/composite.py:12-25 | Without a strict provider every provider is asked and nothing is raised. |
| Providers.Composite.RunLifecycleHook | packages/observability/composite.py:48-59 | Every provider's hook runs; the result is success exactly if all returned true, and each exception is counted by its provider and by the composite. |
| ExperimentAnalysisAgent.BuildAnalysis | packages/agents/experiment_analysis_agent.py:300-414 | The analysis built over the nested index is the one stated over the plain metric list. |
| ExperimentAnalysisAgent.CollectGuardrails | packages/agents/experiment_analysis_agent.py:300-414 | Guardrail comparisons collected from the index are those of all other complete metrics, in index order. |
| ExperimentAnalysisAgent.AnalysisNames | packages/agents/experiment_analysis_agent.py:395 | The analysis names the experiment by its external identifier, or by its own where there is none. |
| ExperimentAnalysisAgent.Round6Exactly | packages/agents/experiment_analysis_agent.py:512-543 | Rounding gives the nearest millionth, and of two the even one. |
| ExperimentAnalysisAgent.MatchingCitationsMeaning | packages/agents/experiment_analysis_agent.py:583-592 | The matching citations are those that name one of the experiment's two identifiers. |
| ExperimentAnalysisAgent.ConfidenceExactly | packages/agents/experiment_analysis_agent.py:570-580 | Confidence is high exactly with significance, a citation and a guardrail, and low exactly without significance and guardrail. |
| BusinessImpactAgent.ReadValues | packages/agents/business_impact_agent.py:138-144 | The values come from the analysis, or else from the scan of the stored metrics. |
| RiskAssessmentAgent.FactorLists.Add | packages/agents/risk_assessment_agent.py:233-267 | A factor is appended, and each concern list stays the details of its category in factor order. |
| RiskAssessmentAgent.DataQualityNotes | packages/agents/risk_assessment_agent.py:630-637 | The notes that mention a data-quality term, each once, in order. |
| RiskAssessmentAgent.BuildRiskAssessment | packages/agents/risk_assessment_agent.py:225-471 | The seven lists filled by `add_factor` give the assessment, whose level, status, confidence, factors and lists the rows below describe; a failed scoring call changes nothing. |
| RiskAssessmentAgent.GuardrailConcerns | packages/agents/risk_assessment_agent.py:355-367 | The guardrail concerns are exactly the details of the deteriorated guardrails, in order. |
| RiskAssessmentAgent.ManageableRisk | packages/agents/risk_assessment_agent.py:539-544 | The level is below high if and only if at most one factor was found and it is a medium one. |
| RiskAssessmentAgent.LevelExactly | packages/agents/risk_assessment_agent.py:539-544 | With context the level is low if and only if there is no factor, medium if and only if there is exactly one and it is medium, and high otherwise; medium factors score 2 and high ones 3. |
| RiskAssessmentAgent.FactorsTell | packages/agents/risk_assessment_agent.py:268-448 | In any state each of the agent's findings is a factor exactly if it applies, with the severity and category of its kind. |
| RiskAssessmentAgent.ConcernLists | packages/agents/risk_assessment_agent.py:256-267 | Each of the five lists holds the details of the factors of its own category, each once. |
| RiskAssessmentAgent.StatusExactly | packages/agents/risk_assessment_agent.py:531-536 | An assessment is partial or insufficient exactly under the stated conditions. |
| RiskAssessmentAgent.ConfidenceExactly | packages/agents/risk_assessment_agent.py:547-568 | Confidence is high exactly without factors, with two confident reports, significance and a citation, and otherwise low exactly for partial or missing assessments. |
| RiskAssessmentAgent.StructuredRiskExactly | packages/agents/risk_assessment_agent.py:132-171 | For a structured request each diagnostic is one factor, in order; errors and fatal ones are the data-quality concerns, warnings the statistical ones, and neither level nor score is assessed. |
| RiskAssessmentAgent.LiftSignalExactly | packages/agents/risk_assessment_agent.py:592-606 | The lift is unclear exactly if nothing is known of it, and otherwise the first known one gives its sign, zero counting as positive. |
| DecisionAgent.DecisionCitations | packages/agents/decision_agent.py:490-509 | The citations of all sources, each once, in order of first occurrence. |
| DecisionAgent.HarmfulGuardrailIssues | packages/agents/decision_agent.py:617-631 | The three loops collect concerns, guardrail factors and deteriorated guardrails, each text once. |
| DecisionAgent.HarmfulIssuesMeaning | packages/agents/decision_agent.py:617-644 | On an assessed state the three sources agree: the issues are the deteriorated guardrails' details, each once. |
| DecisionAgent.BuildDecision | packages/agents/decision_agent.py:121-456 | The branch chain returns the decision and the tool calls made on the way to it. |
| HumanApprovalAgent.VerdictIsTheCallers | packages/agents/human_approval_agent.py:84-106 | The record is approved, rejected or sent back if and only if approval is required and the caller's status, stripped and with ASCII case ignored, spells that word, pending if it spells none of the three, skipped if none is required; feedback and actor are the caller's. |
| HumanApprovalAgent.BadInputIsReported | packages/agents/human_approval_agent.py:145-178 | An error is logged exactly if the input is no mapping or its status is neither blank nor one of the words. |
| Workflow.BuildAgentWorkflow | packages/agents/workflow.py:62-150 | Every node is registered, following the edges from the start visits each node once in order and ends, and invoking the graph performs a run. |
| Workflow.InvokeIsRun | packages/agents/workflow.py:141-150 | Invoking a graph with these edges on the initial state leaves exactly the states of the run. |
| WorkflowRuns.DefaultAgentsBehave | packages/agents/nodes.py:114-307 | The repository's agents write only their own fields, log only under their own names and set only their own metrics key. |
| WorkflowRuns.NodeBehaves | packages/agents/nodes.py:114-307 | The wrapper keeps that, skips or runs, and always leaves a trace; merged metrics extend the state's. |
| WorkflowRuns.RunsAreExecutions | packages/agents/workflow.py:141-150 | A state sequence is a run of the workflow if and only if it is the one executed. |
| WorkflowRuns.RunsFollowTheGraph | packages/agents/workflow.py:141-150 | A state sequence is a run if and only if it is what invoking the built graph leaves. |
| WorkflowRuns.RunsOnlyGrow | packages/agents/state.py:332-367 | Between any two states of a run, logs grow at the end, metrics entries are kept and no field is written by two nodes. |
| WorkflowRuns.TraceFollowsTheEdges | packages/agents/workflow.py:141-149 | After node k the trace visits the first k nodes, each in one contiguous non-empty segment, in edge order. |
| WorkflowRuns.TraceFollowsTheGraph | packages/agents/workflow.py:141-149 | The trace left by invoking the built graph visits exactly the nodes on the path of its edges. |
| WorkflowOutcomes.RequiredAgentsFollowTheOrder | packages/agents/planner.py:89-121 | For every query the required agents are a subsequence of the node order, without the planner. |
| WorkflowOutcomes.StructuredAgentsFollowTheOrder | packages/agents/planner.py:156-178 | The same for every structured request. |
| RunRecords.PlanExactly | packages/agents/planner.py:156-203 | Which agents a plan schedules, agent by agent, for every intent and structured request. |
| WorkflowOutcomes.ValuesNeedThePair | packages/agents/business_impact_agent.py:138-144 | Control and treatment values are at hand exactly when the analysis found the primary pair. |
| WorkflowOutcomes.GuardrailsMeaning | packages/agents/experiment_analysis_agent.py:300-414 | The guardrails are the comparisons of every other metric stored for both variants, and nothing else. |
| WorkflowOutcomes.DefaultRunsExist | packages/agents/workflow.py:141-150 | Every query has a run of the repository's own agents, so the results about such runs are about something. |
| WorkflowOutcomes.EvidenceOfRun | packages/agents/business_impact_agent.py:147-186 | In every full run, when the analysis completes, when the impact is estimated and when the decision sees no errors, in terms of what the services and the lift tool answered. |
| WorkflowOutcomes.NoImpactErrors | packages/agents/tools/business.py:21-57 | With the registered lift tools no run, whatever its plan, logs an error of the impact agent. |
| WorkflowOutcomes.FailedLiftBlocks | packages/agents/business_impact_agent.py:273-287 | If the absolute-lift call on the stored pair fails, a full run logs exactly that error of the impact agent and its decision is blocked. |
| WorkflowOutcomes.ReplacedLiftToolBlocks | packages/agents/tools/registry.py:21-74 | A concrete run with a failing tool registered in place of the lift tools fails so. |
| WorkflowOutcomes.RollbackExactly | packages/agents/decision_agent.py:213-287 | A run recommends rollback if and only if it is a full run without earlier errors and some guardrail deteriorated; the issues are those guardrails. |
| WorkflowOutcomes.RollbackFromStoredMetrics | packages/agents/decision_agent.py:213-287 | The same in terms of the services' answers and the stored control and treatment values only. |
| WorkflowOutcomes.RollbackWithRegisteredTools | packages/agents/decision_agent.py:213-287 | With the registered lift tools a full run recommends rollback if and only if retrieval answered, the repository holds the primary pair and some other stored metric got worse. |
| WorkflowOutcomes.RolloutExactly | packages/agents/decision_agent.py:410-438 | A run recommends rollout if and only if it is a full run without errors with complete positive evidence, at most one medium non-guardrail risk factor and no failed validation; approval is then required. |
| WorkflowOutcomes.RolloutFromStoredMetrics | packages/agents/decision_agent.py:410-438 | A rollout implies that the sources answered, the stored primary pair did not fall and has a p-value, and no other stored metric got worse. |
| RolloutConditions.RolloutWithRegisteredToolsExactly | packages/agents/decision_agent.py:410-438 | With the registered lift and validation tools a run recommends rollout if and only if it answers a deciding question and the stored metrics, chunks, citations and notes support it: a named, significant primary metric whose analyzed and computed lifts are positive, no worsened guardrail, a citation, and at most one concern. |
| RolloutConditions.FactorCount | packages/agents/risk_assessment_agent.py:225-471 | On such evidence the risk factors are all medium and number the concerns about identifier, chunks, quality notes and rollout. |
| RolloutConditions.QualityNoteCount | packages/agents/risk_assessment_agent.py:630-637 | The quality notes number the distinct limitations that mention a data-quality term. |
| RolloutConditions.ValidationOfEvidence | packages/agents/tools/decision.py:23-42 | The registered validation lets complete evidence pass exactly if retrieval gave a citation. |
| RolloutConditions.GoodEvidenceSupportsRollout | packages/agents/decision_agent.py:410-438 | Concrete evidence meets all the conditions. |
| Recommendations.DoNotRolloutExactly | packages/agents/decision_agent.py:316-345 | A full run advises against a rollout if and only if its services answered, the primary pair is stored, no other stored metric got worse, and the treatment is below the control or the stored or computed lift is negative; then it is decided and awaits approval. |
| Recommendations.ContinueExactly | packages/agents/decision_agent.py:347-409 | A full run says to continue if and only if services answered, no other stored metric got worse, the primary pair did not fall, stored and computed lifts are positive, and a p-value or every citation is missing. |
| Recommendations.RecommendationsExactly | packages/agents/decision_agent.py:121-456 | With the registered tools every recommendation of a full run is characterized by what is stored and answered - more data is what the other four leave - and so are its status, approval and confidence. |
| RiskLevels.RiskLevelExactly | packages/agents/risk_assessment_agent.py:539-544 | A full run with its primary pair reports low, medium or high risk exactly by the sign of the lift and the number of concerns about the stored evidence, each worsened metric counted. |
| RiskLevels.NoPairIsRisky | packages/agents/risk_assessment_agent.py:539-544 | Without a stored primary pair no full run reports low or medium risk. |
| RunRecords.ErrorsOfRun | packages/agents/workflow.py:141-150 | A full run logs exactly the failed retrieval, repository and lift call and the bad approval input, in order and under the agent's name. |
| RunRecords.TraceOfRun | packages/agents/workflow.py:141-150 | The whole trace of a full run: planned, then every node started and completed, or failed where its service did. |
| RunRecords.ToolCallsOfRun | packages/agents/workflow.py:141-150 | The tools a full run calls, in order: both lift tools exactly with the stored pair, risk scoring exactly with some context, validation unless something went wrong before, confidence exactly for a decision that is made. |
| RunRecords.ImpactOfRun | packages/agents/business_impact_agent.py:98-260 | The reported impact is about the stored values of the primary metric, each as far as it is stored, and an estimate exactly with both. |
| RunRecords.DecisionCites | packages/agents/decision_agent.py:459-509 | Every decision cites all sources and states all limitations, each once. |
| RunRecords.MissingParts | packages/agents/tools/decision.py:22-43 | The registered validation names exactly the missing parts of the evidence and passes if there are none. |
| RunRecords.GapsAre | packages/agents/decision_agent.py:589-614 | The gaps are the stated notes whose condition holds and the concerns of the risk assessment, each once. |
| RunRecords.IssuesOfDecision | packages/agents/decision_agent.py:157-456 | What a decision lists as issues, status by status: error texts, the two texts of missing evidence, the gaps, or the missing parts and the gaps. |
| RunRecords.BlockedRunSaysWhy | packages/agents/decision_agent.py:157-184 | A blocked full run lists exactly what went wrong before the decision. |
| RunRecords.InsufficientExactly | packages/agents/decision_agent.py:533-545 | Too little evidence is reported exactly if everything answered, but with no primary pair, no citation and no stated impact. |
| RunRecords.SummaryOfFullRun | packages/agents/executive_summary_agent.py:193-253 | The headline follows the caller's verdict and the recommendation, recommendation and confidence are the decision's, and the summary is complete exactly if analysis, estimate, assessment and decision are and nothing was logged. |
| WorkflowOutcomes.OtherPlansDecideNothing | packages/agents/decision_agent.py:121-145 | Structured and partial runs never recommend a rollout or rollback and never require approval. |
| WorkflowOutcomes.ValidatedRolloutIsCited | packages/agents/decision_agent.py:197-211 | With the registered validation tool, a rollout has an assessed risk and at least one citation. |
| WorkflowOutcomes.ApprovalIsTheCallers | packages/agents/human_approval_agent.py:84-106 | Over runs: approval is required exactly if the decision says so, and the final record is approved, rejected, sent back or pending exactly by what the caller's status spells. |
| WorkflowOutcomes.HeadlineIsHonest | packages/agents/executive_summary_agent.py:225-253 | The headline of an approved rollout appears if and only if the decision is a rollout and it was approved. |
| WorkflowObservation.TraceCompleteness | packages/agents/observability.py:63-69 | The share of workflow nodes seen in the trace. |
| WorkflowObservation.ObserveNodes | packages/agents/observability.py:72-99 | Per-node execution status, result status and counts are those of the node's own records. |
| WorkflowObservation.ExtractObservation | packages/agents/observability.py:72-132 | Totals, distinct citations, statuses, error texts, completeness, success and the final recommendation of a state. |
| WorkflowObservation.ObservedExactly | packages/agents/observability.py:103-124 | The citations counted are those of the six records, each once, and each error is reported by its code and message. |
| WorkflowObservation.CountsAddUp | packages/agents/observability.py:87-112 | For any state, per-node counts of calls, failures and errors plus the records logged under other names are the totals; each column adds up on its own exactly if there are no such records of its kind. |
| WorkflowObservation.RunCountsAddUp | packages/agents/observability.py:87-112 | In every run of well-behaved agents the per-node call, failure and error counts add up to the totals. |
| WorkflowObservation.RunsAreComplete | packages/agents/observability.py:63-69 | Every run of well-behaved agents is observed with completeness 1. |
| WorkflowObservation.UnrequiredNodesAreSkipped | packages/agents/nodes.py:114-139 | In every run of well-behaved agents a node that is not required is observed as skipped. |
| WorkflowObservation.RequiredNodesRun | packages/agents/observability.py:135-141 | A required node is observed as completed or failed, except the impact node of a structured run, which may skip; a failure comes with a logged error. |
| WorkflowObservation.RetrievalObserved | packages/agents/observability.py:147-151 | In a full run retrieval is observed as completed exactly if it answered, and as unknown otherwise. |
| WorkflowObservation.SuccessIsNoErrors | packages/agents/observability.py:109-112 | A run is observed as successful exactly when it logged no error. |
| WorkflowObservation.ReportedRecommendation | packages/agents/observability.py:129-131 | The recommendation reported for an unstructured run is the one its decision made. |
| EndToEnd.LoadedAnswersAsIngested | packages/agents/experiment_analysis_agent.py:104-126 | What the workflow is answered about an ingested experiment is its metadata, and for control and treatment its metrics as far as their names have no colon. |
| EndToEnd.RollbackFromIngestedMetrics | packages/agents/decision_agent.py:213-287 | With the registered lift tools, a deciding question about an ingested directory ends in a rollback if and only if retrieval worked, the directory has the pair of the primary metric its metadata names, and some other of its metrics got worse, both under colon-free names. |
| EndToEnd.ColonHidesWorsening | packages/agents/experiment_analysis_agent.py:623-625 | Where no name has a colon every worsened metric counts; a concrete accepted list has a worsened metric with a colon that does not. |
| EndToEnd.RolloutFromIngestedMetrics | packages/agents/decision_agent.py:410-438 | It ends in a rollout only if the primary metric that the metadata names has no colon and did not fall in the directory, and no other metric with a colon-free name got worse. |
| EndToEnd.RolloutFromIngestedMetricsExactly | packages/agents/decision_agent.py:410-438 | With the registered tools it ends in a rollout if and only if retrieval worked and the directory - metadata and metrics with colon-free names - with what was retrieved and noted supports one. |
| AnalysisIntegrity.AnalysisService.RecordIntegrity | packages/experiments/analysis/orchestration/service.py:168-174 | A finding is appended once to the result held under the id; nothing else of the service changes. |
| AnalysisIntegrity.FindingRecorded | packages/experiments/analysis/orchestration/service.py:168-174 | A recorded finding is in the result once, after the earlier ones, which stay. |
| AnalysisIntegrity.OneBusinessArtifact | packages/experiments/analysis/orchestration/service.py:188-209 | After the business analysis there is exactly one business artifact, named after the result, and the other artifacts are as before. |
| AnalysisIntegrity.ArtifactsAreCited | packages/experiments/analysis/orchestration/integrity.py:14-29 | One citation per artifact, each under the experiment of the request. |
| AnalysisIntegrity.ProtectUpdate | packages/experiments/analysis/orchestration/integrity.py:32-94 | The update that is published and the results the service then holds, for every proposal, node and state; an unknown result raises. |
| IntegrityRuns.LateStep | packages/agents/workflow.py:64-74 | Once there is a result, a protected node publishes what the repository's own agent writes for the authoritative result and nothing of the proposal. |
| IntegrityRuns.ProtectedRunsExist | packages/agents/workflow.py:64-74 | Whatever is injected, no protection of a structured run raises: the run goes through. |
| IntegrityRuns.InvokeProtectedIsRun | packages/agents/workflow.py:76-150 | Invoking the built graph with protected nodes on a structured request leaves exactly the worlds of the protected run. |
| IntegrityRuns.InjectedAgentsDoNotInterfere | packages/experiments/analysis/orchestration/integrity.py:57-93 | Non-interference: two runs of a request with different injected agents agree after every node in everything but the findings. |
| IntegrityRuns.FindingsAreRejections | packages/experiments/analysis/orchestration/integrity.py:68-76 | After every node the published result names exactly the nodes whose injected agent proposed something otherwise than the repository's own. |
| IntegrityRuns.OwnAgentsAreNotFlagged | packages/experiments/analysis/orchestration/integrity.py:68-76 | A run of the repository's own agents is published without findings. |
| IntegrityRuns.StructuredOutcome | packages/experiments/analysis/orchestration/integrity.py:77-94 | The final evidence is the service's, risk, decision, approval and summary are those of the repository's agents on it, no rollout is recommended and no approval required, whatever is injected. |
| IntegrityRuns.ProtectedTrace | packages/experiments/analysis/orchestration/integrity.py:77-94 | Whatever is injected, retrieval is traced as skipped and every other node as started and then completed or, if it is not planned, skipped. |
| IntegrityRuns.ResponseIsPublished | packages/experiments/analysis/orchestration/integrity.py:97-108 | After a protected run the response check changes nothing and records nothing. |
| JsonPointer.ResolvePointer | packages/evals/phase4_review.py:47-56 | The loop over the parts resolves the pointer or raises where the code does, for any Unicode version's decimal digits. |
| JsonPointer.SpaceAround | packages/evals/phase4_review.py:55 | Whitespace around a number makes no difference. |
| JsonPointer.Signs | packages/evals/phase4_review.py:55 | A sign before the digits is read as such. |
| JsonPointer.Underscores | packages/evals/phase4_review.py:55 | A single underscore between digits is skipped. |
| JsonPointer.NotAnInt | packages/evals/phase4_review.py:55 | A text with any other character, or without a digit, is no number. |
| JsonPointer.ListPositions | packages/evals/phase4_review.py:55 | What `int` reads selects from the front, or if negative from the end, as far as the list goes. |
| JsonPointer.UnescapeEscape | packages/evals/phase4_review.py:54 | Undoing the two replacements in the code's order inverts the escaping of section 3 of RFC 6901. |
| JsonPointer.PointerRoundTrip | packages/evals/phase4_review.py:47-56 | Printing a valid path and resolving the pointer returns exactly the subtree at the path, unless an index has more digits than `int` reads. |
| JsonPointer.PointersAreDistinct | packages/evals/phase4_review.py:47-56 | Distinct valid paths of one tree print to distinct pointers. |
| JsonPointer.DecodeIsUnescape | packages/evals/phase4_review.py:54 | On valid escapes the two replacements are the left-to-right decoding of section 4 of RFC 6901. |
| JsonPointer.StepsCompared | packages/evals/phase4_review.py:53-55 | Where both succeed a step gives what section 4 of RFC 6901 gives; it accepts more exactly for array keys that are no indices, and less exactly for indices that are too long for `int`. |
| JsonPointer.ResolverAgreesExactly | packages/evals/phase4_review.py:47-56 | On whole pointers the resolver agrees with RFC 6901 if and only if it does not resolve one with a bad escape or a non-index at an array, and does not refuse one for the length of an index. |
| PointerAgreement.AgreesEverywhereExactly | packages/evals/phase4_review.py:47-56 | A pointer is resolved as in RFC 6901 on every payload, arrays of any length included, if and only if it is empty, has no leading slash, or its escapes are well-formed and its parts are indices for `int` exactly when they are for the standard; then the errors agree too. |
| PointerAgreement.AgreesOnListsExactly | packages/evals/phase4_review.py:47-56 | A pointer is resolved as in RFC 6901 on everything an interpreter can hold if and only if its escapes are well-formed and the parts that `int` reads as positions are indices by the standard. |
| PointerAgreement.NeverOverlong | packages/evals/phase4_review.py:47-56 | On payloads without lists longer than an interpreter's, the resolver never refuses what the standard resolves; it agrees exactly unless it accepts what the standard refuses. |
| JsonPointer.OtherDigitsAreAccepted | packages/evals/phase4_review.py:55 | A fullwidth digit is accepted as an array index, which the standard refuses. |
| JsonPointer.BadEscapeIsAccepted | packages/evals/phase4_review.py:54 | `/~2` resolves to the key `~2`, which section 3 of RFC 6901 refuses. |
| JsonPointer.NegativeIndexIsAccepted | packages/evals/phase4_review.py:55 | The pointer `/-1` resolves to the last element, which the standard refuses. |
| JsonPointer.ReadinessOfMerge | packages/evals/phase4_review.py:59-74 | The verdict on two reviews taken together is the worse of their verdicts. |
| JsonPointer.ReadinessOfOne | packages/evals/phase4_review.py:59-74 | What each single finding, command and capability means for the verdict; with `ReadinessOfMerge` this determines it on every review. |
| PromptRegression.RecordingService.Search | packages/evals/prompt_regression.py:101-118 | The response passes through and is recorded under the stripped query. |
| PromptRegression.RecordingService.SearchAll | packages/evals/prompt_regression.py:95-118 | After a run the recording holds, per key, the last answer given. |
| PromptRegression.ReplayService.Search | packages/evals/prompt_regression.py:126-139 | A recorded key returns its response and metrics; any other raises and changes nothing. |
| PromptRegression.ReplayableExactly | packages/evals/prompt_regression.py:133-137 | A request can be replayed exactly if one with its key was recorded. |
| PromptRegression.LastAnswerIsKept | packages/evals/prompt_regression.py:114-117 | For each key the last answer is kept. |
| PromptRegression.ReplayIsFaithfulExactly | packages/evals/prompt_regression.py:95-139 | Replaying a recorded sequence reproduces all responses and metrics if and only if same-key requests were answered alike. |
| PromptRegression.DeterministicServicesReplay | packages/evals/prompt_regression.py:95-139 | A deterministic service that ignores outer whitespace of the query always replays faithfully. |
| PromptRegression.CompareScores | packages/evals/prompt_regression.py:724-745 | Every baseline metric is scored with both values, their difference and its sign; the comparison regresses if and only if some value fell and improves if and only if some rose; a missing candidate score raises. |
| PromptRegression.SwappingSwaps | packages/evals/prompt_regression.py:731-744 | Comparing the versions the other way round swaps every score and both flags and negates every delta. |
| PromptRegression.CompareCase | packages/evals/prompt_regression.py:375-397 | A case is built from the comparison of its scores and from whether a version failed on it. |
| PromptRegression.SummarizeCaseMetrics | packages/evals/prompt_regression.py:748-795 | One row for every metric of some case, by name, each the metric's summary. |
| PromptRegression.DeltaIsMeanOfDeltas | packages/evals/prompt_regression.py:768-774 | A summary's delta, a difference of means, is the mean of the cases' deltas, and is there for every metric of some case. |
| PromptRegression.RowSays | packages/evals/prompt_regression.py:748-795 | A metric's row counts the cases in which its value fell and rose, and says what every case says where they all say the same. |
| PromptRegression.Summarize | packages/evals/prompt_regression.py:203-219 | The counts of the summary; it passes exactly without regressions and failures. |
| PromptRegression.PassesExactly | packages/evals/prompt_regression.py:203-219 | From the scores to the verdict: the summary passes if and only if no version failed and no candidate value fell in any case; its counts are those of the cases in which a value fell, a value rose, and a version failed. |
| PromptRegression.FindingsPartition | packages/evals/prompt_regression.py:207-216 | Unchanged cases and cases with a finding partition the run. |
| PromptRegression.SwappedSummary | packages/evals/prompt_regression.py:203-219 | The run with the versions swapped has regressions and improvements swapped in its summary and all other counts the same. |
| PromptRegression.SwappedRow | packages/evals/prompt_regression.py:748-795 | And in every metric row the means and counts are swapped and the delta is negated. |
| DeepEvalReport.BuildMetricResult | packages/evals/run_deepeval.py:908-955 | The verdict is the given one, a failure for an error, or the score held against its threshold; a skipped result has none. |
| DeepEvalReport.VerdictlessExactly | packages/evals/run_deepeval.py:924-935 | An unskipped result lacks a verdict exactly without given verdict and error and without score or threshold. |
| DeepEvalReport.CallSitesGiveVerdicts | packages/evals/run_deepeval.py:588-741 | A result has a verdict exactly when it is not skipped; this holds by construction of `Outcome`, whose constructors are the argument shapes of the call sites, and is what `ThreeWaysAgree` needs of them. |
| DeepEvalReport.AggregateScores | packages/evals/deepeval_report.py:142-169 | One row per metric that occurs, by name, whose mean and counts are those of the metric's results among all results. |
| DeepEvalReport.CategorySummary | packages/evals/deepeval_report.py:172-185 | One row per category, by name; an unskipped result without verdict counts as failed. |
| DeepEvalReport.CategoryReports | packages/evals/deepeval_report.py:178-184 | A category's counters count the category's results among all results, each in exactly one of them. |
| DeepEvalReport.FailingCases | packages/evals/deepeval_report.py:188-197 | One row per case with a failure, by id, with the reasons in order. |
| DeepEvalReport.ListedExactly | packages/evals/deepeval_report.py:188-197 | A reason is listed under a case exactly if an unskipped result of the case failed for it. |
| DeepEvalReport.AggregateTotals | packages/evals/deepeval_report.py:157-166 | For any results, the metric rows' totals plus verdictless results are all results plus those both skipped and passed. |
| DeepEvalReport.CategoryTotals | packages/evals/deepeval_report.py:178-184 | For any results, the category rows count every result once. |
| DeepEvalReport.ReasonTotals | packages/evals/deepeval_report.py:191-197 | The reasons of the failing cases number exactly the failures. |
| DeepEvalReport.ThreeWaysAgree | packages/evals/deepeval_report.py:142-197 | When every result has a verdict, metric totals, category totals and failing reasons agree with the results. |
| AgentMetrics.RoutingIsOverlap | packages/evals/agent_metrics.py:225-237 | Routing accuracy is symmetric, between 0 and 1, 1 exactly for equal agent sets and 0 exactly for disjoint ones. |
| AgentMetrics.RoutingIsShare | packages/evals/agent_metrics.py:225-237 | Routing accuracy is the number of agents in both plans over the number in either. |
| AgentMetrics.FullCoverage | packages/evals/agent_metrics.py:240-247 | Citation coverage is at most 1, and 1 exactly when nothing was demanded or enough was cited. |
| AgentMetrics.CoverageIsShare | packages/evals/agent_metrics.py:240-247 | Below the demanded number, citation coverage is the share of it. |
| AgentMetrics.SampleMetricsOf | packages/evals/agent_metrics.py:139-222 | A sample passes if and only if every expectation of its case is met, and each reason is given exactly if its expectation is missed; the scores are 1 or 0 where stated. |
| AgentMetrics.Distribution | packages/evals/agent_metrics.py:89-98 | For each status that occurs, how often it does. |
| AgentMetrics.FromSamples | packages/evals/agent_metrics.py:48-136 | The summary's counts, rate, averages, distributions and failure list; empty when no sample has metrics. |
| AgentMetrics.TotalsAdd | packages/evals/agent_metrics.py:105-132 | Tool-call totals are those of the samples with metrics, and totals of parts add up. |
| AgentMetrics.CallAverage | packages/evals/agent_metrics.py:105-132 | The average number of tool calls times the samples with metrics is their total. |
| AgentMetrics.AverageExactly | packages/evals/agent_metrics.py:105-132 | An average is over the samples that have the figure, and 0 without any; a constant figure is its own average. |
| AgentMetrics.FailuresAreNamed | packages/evals/agent_metrics.py:100-104 | The failure list names exactly the cases without metrics and those that did not pass. |
| AgentMetrics.AverageIsShare | packages/evals/agent_metrics.py:110-132 | The average of a figure that is a share in every sample is a share. |
| AgentMetrics.SummaryAddsUp | packages/evals/agent_metrics.py:100-136 | Passes and failures add up to the sample count, one failure id per failure; the count is the input's length exactly when it is empty or some sample has metrics. |
| AgentMetrics.FailuresCanVanish | packages/evals/agent_metrics.py:70-74 | A single raised run is summarized as no sample and no failure. |
| AgentMetrics.DistributionsAddUp | packages/evals/agent_metrics.py:89-98 | The distribution of any status accounts for every sample that has one. |
| QualityGate.RunCommands | scripts/run_ai_quality_gate.py:206-233 | Commands run in order up to the first that ends the run; an exception loses the results. |
| QualityGate.RunGate | scripts/run_ai_quality_gate.py:100-192 | The gate's verdict: that of the commands, unless setup raised or a required report is missing. |
| QualityGate.PassExactly | scripts/run_ai_quality_gate.py:112-192 | The exit code is 0 if and only if the status is pass, and that if and only if setup did not raise, every command returned 0 and every required report is there. |
| QualityGate.ResultsArePrefix | scripts/run_ai_quality_gate.py:206-233 | The results are the leading commands with their exit codes; all but the last were tolerated. |
| QualityGate.QualityFailureExactly | scripts/run_ai_quality_gate.py:471-486 | A quality failure exits with 1, and is reported if and only if setup did not raise, no report is missing, and the policy command ended the run with 1 or the baseline reported 1 with nothing failing after it. |
| QualityGate.NothingMissing | scripts/run_ai_quality_gate.py:501-504 | No report is missing exactly when every required one is present. |
| QualityGate.ExitCodeOneExactly | scripts/run_ai_quality_gate.py:206-233 | Over all runs, exit code 1 is an infrastructure failure if and only if no report is missing and a command other than the baseline and the policy ended the run with 1. |
| QualityGate.GateExitCodeOneExactly | scripts/run_ai_quality_gate.py:236-468 | For the gate's own thirteen commands and twenty-three required reports: exactly when all reports are already there and one of the first eleven commands ends with 1 after only successes. |
| QualityGate.ExitCodeOneIsAmbiguous | scripts/run_ai_quality_gate.py:36-61 | With all reports present, a run in which `ragas_offline` exits with 1 is such an infrastructure failure. |

## Left out

- Chunking.ChunkMarkdownReport: requires that the call returns, that is, that the window loop ends on each section longer than the target; `Chunking.HaltsExactly` says when, and for every overlap of at most half the target plus one it does.
- PromptPrinting.ContextRoundTrip: is stated for non-empty chunk lists with single-line headers and texts without lines that look like prompt structure; for an empty list the original's rendering raises because the context is blank.
- AnalysisIntegrity.ProtectUpdate: fields outside the modelled ones are a single flag of a proposal; injected agents are functions of the deep copy they are given, so changing that copy in place is not represented.
- WorkflowOutcomes.RollbackExactly: tools are arbitrary functions of what they are given, repository and retrieval are arbitrary answers; the scoring tool, when it answers, answers as the agent's own fallback does, which is what the registered one computes.
- WorkflowObservation.ObserveNodes: the latency of a node is left out, with all timestamps.
- WorkflowObservation.ExtractObservation: latencies, the run identifier, the question and the retrieval timings are left out; trace entries under names outside the workflow, which every reader ignores, are not represented.
- RiskAssessmentAgent.StructuredRiskExactly: the diagnostics of a result, of its evidence with the deviations, and of its business impact are one list of the result.
- AgentMetrics.FromSamples: the averages of latencies are left out.
- Spans.Tracer.Finish: handing a root span to the provider is recorded as a list of records, and what the provider raises is a parameter; `Providers` models when it raises.
- Providers.Composite.FinishRoot: the providers are not themselves composites.
- The planner's keyword tables and text normalization: the intent and the hints are inputs of a query, so every outcome of the classification is covered.
- The prose of findings, rationales, mitigations, next actions and summaries, titles of risk factors, and citation metadata.
- Timestamps, latencies, run identifiers and averages of latencies.
- The structured analyzer itself: what its estimators and the business analysis answer is an arbitrary input; the identifiers of cited artifacts.
- Missing or malformed decision records in the approval agent, which the workflow never produces.
- How annualized amounts and segments are found in sources: what was found is an input of the impact agent.
- Experiment resolution by identifier or hint: the repository's answer is an input.
- `list_prompts` and `list_versions`, which only sort keys.
- Embeddings, vector search, HTTP routes, file reading and writing, and the rendering of reports as Markdown or JSON.
- IEEE rounding, NaN and infinities; string length limits of columns; non-ASCII letters in case folding.
- OpenTelemetry and LangSmith exporters: an emission either succeeds or raises.
- Framework comparisons (Ragas, DeepEval) of the prompt regression report.
- The review validator around `json_pointer` and `readiness`, the gate's policy evaluation, and exceptions while the gate writes its own result files.
- Undecodable bytes in input files, which raise another exception than an unreadable file.
