/** The fail-closed command gate (scripts/run_ai_quality_gate.py). */
module QualityGate {
  import opened Text

  const FAILURE_EXIT_CODE := 1
  const INFRASTRUCTURE_EXIT_CODE := 2
  const PHASE4 := "phase4_statistical_baseline"
  const POLICY := "quality_policy"

  datatype CommandResult = CommandResult(name: string, exitCode: int)

  /** How starting and running a command ends: an exit code, or an exception such as a timeout. */
  datatype Outcome = Exit(code: int) | Raised(message: string)

  datatype Command = Command(name: string, outcome: Outcome)

  // ---------------------------------------------------------------- running the commands

  /** Only the statistical baseline may report a quality failure and let the later commands run. */
  predicate Tolerated(r: CommandResult) { r.exitCode == 0 || (r.name == PHASE4 && r.exitCode == 1) }

  /** A command after which the gate runs no further command. */
  predicate Ends(c: Command) { c.outcome.Raised? || !Tolerated(CommandResult(c.name, c.outcome.code)) }

  function ResultsOf(commands: seq<Command>): seq<CommandResult>
    requires forall c :: c in commands ==> c.outcome.Exit?
  {
    seq(|commands|, i requires 0 <= i < |commands| => CommandResult(commands[i].name, commands[i].outcome.code))
  }

  /** The number of commands that run: up to and including the first one that ends the run. */
  function RunLength(commands: seq<Command>): (n: nat)
    ensures n <= |commands|
    ensures forall i :: 0 <= i < n - 1 ==> !Ends(commands[i])
    ensures n < |commands| ==> n > 0 && Ends(commands[n - 1])
  {
    if commands == [] then 0
    else if Ends(commands[0]) then 1
    else 1 + RunLength(commands[1..])
  }

  datatype RunResult = RunResult(failed: Option<string>, exitCode: int, results: seq<CommandResult>)

  /** What `_run_commands` reports when these are the results of the commands that ran. */
  function ReportOf(results: seq<CommandResult>): RunResult {
    if results != [] && !Tolerated(results[|results| - 1]) then
      RunResult(Some(results[|results| - 1].name), results[|results| - 1].exitCode, results)
    else if exists r :: r in results && r.exitCode != 0 then RunResult(Some(PHASE4), 1, results)
    else RunResult(None, 0, results)
  }

  /** `_run_commands`: an exception propagates, and the results collected so far are lost. */
  method RunCommands(commands: seq<Command>) returns (result: Result<RunResult, string>)
    ensures var n := RunLength(commands);
            if n > 0 && commands[n - 1].outcome.Raised? then result == Err(commands[n - 1].outcome.message)
            else (forall c :: c in commands[..n] ==> c.outcome.Exit?) && result == Ok(ReportOf(ResultsOf(commands[..n])))
  {
    hide Tolerated, RunLength, Ends;
    var results: seq<CommandResult>, phase4Failed := [], false;
    for i := 0 to |commands|
      invariant forall k :: 0 <= k < i ==> commands[k].outcome.Exit? && !Ends(commands[k])
      invariant |results| == i && forall k :: 0 <= k < i ==> results[k] == CommandResult(commands[k].name, commands[k].outcome.code)
      invariant phase4Failed <==> exists k :: 0 <= k < i && results[k].exitCode != 0
    {
      var command := commands[i];
      WhenEnds(command);
      if command.outcome.Raised? {
        StopsAt(commands, i);
        return Err(command.outcome.message);
      }
      var code := command.outcome.code;
      results := results + [CommandResult(command.name, code)];
      if code != 0 {
        if command.name == PHASE4 && code == 1 {
          phase4Failed := true;
          continue;
        }
        StopsAt(commands, i);
        ResultsSoFar(commands, results, i + 1);
        return Ok(RunResult(Some(command.name), code, results));
      }
    }
    RunsThrough(commands);
    ResultsSoFar(commands, results, |commands|);
    if phase4Failed {
      return Ok(RunResult(Some(PHASE4), 1, results));
    }
    return Ok(RunResult(None, 0, results));
  }

  lemma WhenEnds(c: Command)
    ensures Ends(c) <==> c.outcome.Raised? || (c.outcome.code != 0 && !(c.name == PHASE4 && c.outcome.code == 1))
    ensures c.outcome.Exit? ==> (Ends(c) <==> !Tolerated(CommandResult(c.name, c.outcome.code)))
  {
  }

  lemma {:induction false} StopsAt(commands: seq<Command>, i: nat)
    requires i < |commands| && Ends(commands[i]) && forall k :: 0 <= k < i ==> !Ends(commands[k])
    ensures RunLength(commands) == i + 1
  {
    hide Ends;
    if i > 0 {
      StopsAt(commands[1..], i - 1);
    }
  }

  lemma {:induction false} RunsThrough(commands: seq<Command>)
    requires forall k :: 0 <= k < |commands| ==> !Ends(commands[k])
    ensures RunLength(commands) == |commands|
  {
    hide Ends;
    if commands != [] {
      RunsThrough(commands[1..]);
    }
  }

  /** What the loop collected is the results of the commands so far, and how it ended decides the report. */
  lemma ResultsSoFar(commands: seq<Command>, results: seq<CommandResult>, n: nat)
    requires |results| == n <= |commands|
    requires forall k :: 0 <= k < n ==>
               commands[k].outcome.Exit? && results[k] == CommandResult(commands[k].name, commands[k].outcome.code)
    requires n == |commands| || (n > 0 && Ends(commands[n - 1]))
    requires forall k :: 0 <= k < n && k + 1 < n ==> !Ends(commands[k])
    ensures forall c :: c in commands[..n] ==> c.outcome.Exit?
    ensures results == ResultsOf(commands[..n])
    ensures ReportOf(results) ==
              if n > 0 && Ends(commands[n - 1]) then RunResult(Some(commands[n - 1].name), commands[n - 1].outcome.code, results)
              else if exists k :: 0 <= k < n && results[k].exitCode != 0 then RunResult(Some(PHASE4), 1, results)
              else RunResult(None, 0, results)
  {
    if n > 0 {
      WhenEnds(commands[n - 1]);
    }
    hide Ends, Tolerated;
    if k :| 0 <= k < n && results[k].exitCode != 0 {
      assert results[k] in results;
    }
  }

  // ---------------------------------------------------------------- the verdict

  datatype Status = Pass | QualityFail | InfrastructureFail

  /** `_status_from_result` */
  function StatusFromResult(failed: Option<string>, exitCode: int): Status {
    if exitCode == 0 then Pass
    else if failed.Some? && failed.value in {POLICY, PHASE4} && exitCode == FAILURE_EXIT_CODE then QualityFail
    else InfrastructureFail
  }

  datatype Verdict = Verdict(status: Status, exitCode: int, results: seq<CommandResult>)

  /** `_missing_required_reports` */
  function Missing(required: seq<string>, present: set<string>): seq<string> {
    if required == [] then []
    else
      var last := required[|required| - 1];
      Missing(required[..|required| - 1], present) + (if last in present then [] else [last])
  }

  lemma {:induction false} NothingMissing(required: seq<string>, present: set<string>)
    ensures Missing(required, present) == [] <==> forall path :: path in required ==> path in present
  {
    if required != [] {
      var n := |required| - 1;
      NothingMissing(required[..n], present);
      assert required == required[..n] + [required[n]];
    }
  }

  /** What the gate decides before it looks for missing reports. */
  function Provisional(setupError: Option<string>, commands: seq<Command>): Verdict {
    var n := RunLength(commands);
    if setupError.Some? || (n > 0 && commands[n - 1].outcome.Raised?) then Verdict(InfrastructureFail, INFRASTRUCTURE_EXIT_CODE, [])
    else
      var report := ReportOf(ResultsOf(commands[..n]));
      Verdict(StatusFromResult(report.failed, report.exitCode), report.exitCode, report.results)
  }

  /** The gate's verdict: the provisional one, unless a required report is missing. */
  ghost predicate Decides(setupError: Option<string>, commands: seq<Command>, required: seq<string>,
                          present: set<string>, v: Verdict) {
    v == var provisional := Provisional(setupError, commands);
         if Missing(required, present) == [] then provisional
         else provisional.(status := InfrastructureFail, exitCode := INFRASTRUCTURE_EXIT_CODE)
  }

  /** The status and exit code of `main`; `setupError` is an exception before the first command. */
  method RunGate(setupError: Option<string>, commands: seq<Command>, required: seq<string>, present: set<string>)
    returns (verdict: Verdict)
    ensures Decides(setupError, commands, required, present, verdict)
  {
    hide ReportOf, StatusFromResult;
    var status, exitCode := InfrastructureFail, INFRASTRUCTURE_EXIT_CODE;
    var results: seq<CommandResult> := [];
    if setupError == None {
      var run := RunCommands(commands);
      match run {
        case Err(_) =>
        case Ok(report) =>
          results := report.results;
          exitCode := report.exitCode;
          status := StatusFromResult(report.failed, report.exitCode);
      }
    }
    var missing := Missing(required, present);
    if missing != [] {
      status, exitCode := InfrastructureFail, INFRASTRUCTURE_EXIT_CODE;
    }
    verdict := Verdict(status, exitCode, results);
  }

  /** All commands ran and returned zero. */
  ghost predicate AllSucceeded(commands: seq<Command>) { forall c :: c in commands ==> c.outcome == Exit(0) }

  lemma {:induction false} SuccessRunsEverything(commands: seq<Command>)
    requires AllSucceeded(commands)
    ensures RunLength(commands) == |commands|
  {
    if commands != [] {
      assert commands[0].outcome == Exit(0);
      forall c | c in commands[1..] ensures c.outcome == Exit(0) { assert c in commands; }
      SuccessRunsEverything(commands[1..]);
    }
  }

  lemma ZeroReport(commands: seq<Command>)
    requires var n := RunLength(commands); !(n > 0 && commands[n - 1].outcome.Raised?)
    ensures var report := ReportOf(ResultsOf(commands[..RunLength(commands)]));
            report.exitCode == 0 <==> AllSucceeded(commands)
  {
    var n := RunLength(commands);
    var results := ResultsOf(commands[..n]);
    var report := ReportOf(results);
    if AllSucceeded(commands) {
      SuccessRunsEverything(commands);
      forall r | r in results ensures r.exitCode == 0 {
        var i :| 0 <= i < |results| && results[i] == r;
        assert commands[i] in commands;
      }
    }
    if report.exitCode == 0 {
      assert results != [] ==> results[|results| - 1] in results;
      assert n == |commands|;
      forall c | c in commands ensures c.outcome == Exit(0) {
        var i :| 0 <= i < |commands| && commands[i] == c;
        assert results[i] in results;
      }
    }
  }

  /**
   Fail closed: the gate exits with zero exactly when its status is pass, and both exactly when the
   setup did not raise, every command ran and returned zero, and every required report is there.
   */
  lemma PassExactly(setupError: Option<string>, commands: seq<Command>, required: seq<string>, present: set<string>,
                    v: Verdict)
    requires Decides(setupError, commands, required, present, v)
    ensures v.exitCode == 0 <==> v.status == Pass
    ensures v.status == Pass <==>
              setupError == None && AllSucceeded(commands) && forall path :: path in required ==> path in present
  {
    NothingMissing(required, present);
    hide Missing, ReportOf, RunLength;
    var n := RunLength(commands);
    if n > 0 && commands[n - 1].outcome.Raised? {
      assert commands[n - 1] in commands;
    } else {
      ZeroReport(commands);
    }
  }

  /**
   The recorded results are the leading commands in order, each with its own exit code; only the
   last can have failed otherwise than by a tolerated quality failure. After an exception there are none.
   */
  lemma ResultsArePrefix(setupError: Option<string>, commands: seq<Command>, required: seq<string>,
                         present: set<string>, v: Verdict)
    requires Decides(setupError, commands, required, present, v)
    ensures |v.results| <= |commands|
    ensures forall i :: 0 <= i < |v.results| ==> commands[i] == Command(v.results[i].name, Exit(v.results[i].exitCode))
    ensures forall i :: 0 <= i < |v.results| - 1 ==> Tolerated(v.results[i])
    ensures |v.results| < |commands| ==>
              setupError.Some? || (v.results != [] && !Tolerated(v.results[|v.results| - 1]))
              || (v.results == [] && exists c :: c in commands && c.outcome.Raised?)
  {
    hide Missing, StatusFromResult, Tolerated;
    var n := RunLength(commands);
    if setupError == None {
      if n > 0 && commands[n - 1].outcome.Raised? {
        assert commands[n - 1] in commands;
      } else {
        var results := ResultsOf(commands[..n]);
        assert ReportOf(results).results == results;
        forall i: int | 0 <= i && i + 1 < n ensures Tolerated(results[i]) { assert !Ends(commands[i]); }
      }
    }
  }

  /** The baseline or the policy command, as the last one to count, reported a quality failure. */
  ghost predicate ReportsQualityFailure(commands: seq<Command>) {
    var n := RunLength(commands);
    && n > 0
    && (commands[n - 1] == Command(POLICY, Exit(1)) || (!Ends(commands[n - 1]) && Command(PHASE4, Exit(1)) in commands[..n]))
  }

  /** What the commands that ran report, by how the last of them ended. */
  lemma ReportByLastCommand(commands: seq<Command>)
    requires var n := RunLength(commands); n > 0 && commands[n - 1].outcome.Exit?
    ensures var n := RunLength(commands); forall c :: c in commands[..n] ==> c.outcome.Exit?
    ensures var n := RunLength(commands); var report := ReportOf(ResultsOf(commands[..n]));
            if Ends(commands[n - 1]) then
              report.failed == Some(commands[n - 1].name) && report.exitCode == commands[n - 1].outcome.code != 0
            else if Command(PHASE4, Exit(1)) in commands[..n] then report.failed == Some(PHASE4) && report.exitCode == 1
            else report.failed == None && report.exitCode == 0
  {
    var n := RunLength(commands);
    var run := commands[..n];
    forall c | c in run ensures c.outcome.Exit? {
      var i :| 0 <= i < n && run[i] == c;
      assert i < n - 1 ==> !Ends(commands[i]);
    }
    var results := ResultsOf(run);
    assert results[n - 1] == CommandResult(commands[n - 1].name, commands[n - 1].outcome.code);
    if !Ends(commands[n - 1]) {
      forall i: nat | i < n ensures results[i].exitCode != 0 <==> run[i] == Command(PHASE4, Exit(1)) {
        assert !Ends(commands[i]);
        assert results[i] == CommandResult(commands[i].name, commands[i].outcome.code);
      }
      if Command(PHASE4, Exit(1)) in run {
        var i :| 0 <= i < n && run[i] == Command(PHASE4, Exit(1));
        assert results[i] in results;
      }
    }
  }

  /** A quality failure exits with 1, and is the verdict exactly when one was reported and nothing else went wrong. */
  lemma QualityFailureExactly(setupError: Option<string>, commands: seq<Command>, required: seq<string>,
                              present: set<string>, v: Verdict)
    requires Decides(setupError, commands, required, present, v)
    ensures v.status == QualityFail ==> v.exitCode == FAILURE_EXIT_CODE
    ensures v.status == QualityFail <==>
              setupError == None && (forall path :: path in required ==> path in present) && ReportsQualityFailure(commands)
  {
    NothingMissing(required, present);
    assert ReportOf([]) == RunResult(None, 0, []);
    hide Missing, RunLength, ReportOf;
    var n := RunLength(commands);
    if n > 0 && commands[n - 1].outcome.Exit? {
      ReportByLastCommand(commands);
    } else if n == 0 {
      assert ResultsOf(commands[..n]) == [];
    }
  }

  /**
   The exit code 1 alone does not separate the two kinds of failure: it is an infrastructure failure exactly
   when another command than the baseline and the policy itself ended with 1 and no required report is missing.
   */
  lemma ExitCodeOneExactly(setupError: Option<string>, commands: seq<Command>, required: seq<string>,
                           present: set<string>, v: Verdict)
    requires Decides(setupError, commands, required, present, v)
    ensures v.exitCode == FAILURE_EXIT_CODE && v.status == InfrastructureFail <==>
              var n := RunLength(commands);
              && setupError == None && (forall path :: path in required ==> path in present)
              && n > 0 && commands[n - 1].outcome == Exit(1) && commands[n - 1].name !in {POLICY, PHASE4}
  {
    NothingMissing(required, present);
    assert ReportOf([]) == RunResult(None, 0, []);
    hide Missing, RunLength, ReportOf;
    var n := RunLength(commands);
    if n > 0 && commands[n - 1].outcome.Exit? {
      ReportByLastCommand(commands);
    } else if n == 0 {
      assert ResultsOf(commands[..n]) == [];
    }
  }

  /** The names of `_build_commands`, in order. */
  const COMMAND_NAMES: seq<string> := [
    "seed_integration_fixture", "validate_prompt_registry", "validate_prompt_experiment", "custom_rag_evaluation",
    "custom_agent_evaluation", "end_to_end_evaluation", "prompt_regression", "factuality", "prompt_experiment_sample",
    "ragas_offline", "deepeval_offline", PHASE4, POLICY
  ]

  const REQUIRED_REPORT_PATHS: seq<string> := [
    "phase4/statistical_baseline.json", "phase4/statistical_baseline.md", "phase4/quality_policy.json",
    "phase4/github_summary.md", "evaluation.md", "evaluation.json", "agent_evaluation.md", "agent_evaluation.json",
    "agent_e2e_evaluation.md", "agent_e2e_evaluation.json", "phase3/prompt_regression.md",
    "phase3/prompt_regression.json", "phase3/factuality_report.md", "phase3/factuality_report.json",
    "phase3/ragas_report.md", "phase3/ragas_report.json", "phase3/deepeval_report.md", "phase3/deepeval_report.json",
    "phase3/quality_policy.md", "phase3/quality_policy.json", "phase3/ci_environment.json",
    "phase3/ai_quality_gate.json", "phase3/github_summary.md"
  ]

  /** The gate's own commands, ended by these outcomes. */
  function GateCommands(outcomes: seq<Outcome>): (commands: seq<Command>)
    requires |outcomes| == |COMMAND_NAMES|
    ensures |commands| == |COMMAND_NAMES|
    ensures forall i :: 0 <= i < |commands| ==> commands[i] == Command(COMMAND_NAMES[i], outcomes[i])
  {
    seq(|COMMAND_NAMES|, i requires 0 <= i < |COMMAND_NAMES| => Command(COMMAND_NAMES[i], outcomes[i]))
  }

  /**
   On the gate's own commands exit code 1 is ambiguous exactly when one of the first eleven commands ends
   with 1 after only successes, and the reports of an earlier run are still there.
   */
  lemma GateExitCodeOneExactly(setupError: Option<string>, outcomes: seq<Outcome>, present: set<string>, v: Verdict)
    requires |outcomes| == |COMMAND_NAMES|
    requires Decides(setupError, GateCommands(outcomes), REQUIRED_REPORT_PATHS, present, v)
    ensures v.exitCode == FAILURE_EXIT_CODE && v.status == InfrastructureFail <==>
              && setupError == None && (forall path :: path in REQUIRED_REPORT_PATHS ==> path in present)
              && exists i :: 0 <= i < 11 && outcomes[i] == Exit(1) && forall k :: 0 <= k < i ==> outcomes[k] == Exit(0)
  {
    hide Decides, Missing, RunLength, REQUIRED_REPORT_PATHS;
    var commands := GateCommands(outcomes);
    ExitCodeOneExactly(setupError, commands, REQUIRED_REPORT_PATHS, present, v);
    var n := RunLength(commands);
    assert forall i :: 0 <= i < 11 ==> COMMAND_NAMES[i] !in {POLICY, PHASE4};
    if n > 0 && commands[n - 1].outcome == Exit(1) && commands[n - 1].name !in {POLICY, PHASE4} {
      assert n - 1 < 11;
      forall k | 0 <= k < n - 1 ensures outcomes[k] == Exit(0) { assert !Ends(commands[k]); }
    }
    if i :| 0 <= i < 11 && outcomes[i] == Exit(1) && forall k :: 0 <= k < i ==> outcomes[k] == Exit(0) {
      assert commands[i].name == COMMAND_NAMES[i];
      forall k | 0 <= k < i ensures !Ends(commands[k]) { assert commands[k].outcome == Exit(0); }
      StopsAt(commands, i);
    }
  }

  /** A run that shows it: everything up to the RAGAS evaluation succeeds, that ends with 1, and all reports are there. */
  lemma ExitCodeOneIsAmbiguous(outcomes: seq<Outcome>, v: Verdict)
    requires outcomes == seq(9, _ => Exit(0)) + seq(4, _ => Exit(1))
    requires Decides(None, GateCommands(outcomes), REQUIRED_REPORT_PATHS, (set path | path in REQUIRED_REPORT_PATHS), v)
    ensures COMMAND_NAMES[9] == "ragas_offline" && v.exitCode == FAILURE_EXIT_CODE && v.status == InfrastructureFail
  {
    hide Decides, REQUIRED_REPORT_PATHS;
    assert outcomes[9] == Exit(1);
    GateExitCodeOneExactly(None, outcomes, (set path | path in REQUIRED_REPORT_PATHS), v);
  }
}
