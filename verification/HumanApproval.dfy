/** The human-approval agent (packages/agents/human_approval_agent.py). */
module HumanApprovalAgent {
  import opened Text
  import opened AgentStates

  /** `str(status).strip().lower()`, empty when missing or when the input is not a mapping. */
  function NormalizedStatus(input: ApprovalInput): string {
    match input
    case NotAMapping => ""
    case Mapping(None, _, _) => ""
    case Mapping(Some(status), _, _) => Lower(Strip(status))
  }

  /** The status names a caller may give. */
  function StatusNamed(name: string): Option<ApprovalStatus> {
    if name == "approved" then Some(Approved)
    else if name == "rejected" then Some(Rejected)
    else if name == "revision_requested" then Some(RevisionRequested)
    else None
  }

  function Feedback(input: ApprovalInput): string {
    if input.Mapping? && input.feedback.Some? then Strip(input.feedback.value) else ""
  }

  function Actor(input: ApprovalInput): Option<string> {
    if input.Mapping? && input.actor.Some? && Strip(input.actor.value) != "" then Some(Strip(input.actor.value)) else None
  }

  /** An input that is not a mapping, or that names an unknown status, is reported. */
  function InputErrors(input: ApprovalInput): seq<ErrorRecord> {
    if input.NotAMapping? || (NormalizedStatus(input) != "" && StatusNamed(NormalizedStatus(input)) == None)
    then [ErrorRecord("human_approval_invalid_input", "Human approval input could not be normalized safely.", Known(HumanApproval))]
    else []
  }

  /** `_build_human_approval` */
  function Build(s: AgentState): Approval {
    if !s.decision.approvalRequired then Approval(SkippedApproval, false, "", None)
    else match StatusNamed(NormalizedStatus(s.approvalInput))
      case None => Approval(Pending, true, Feedback(s.approvalInput), Actor(s.approvalInput))
      case Some(status) => Approval(status, true, Feedback(s.approvalInput), Actor(s.approvalInput))
  }

  /** `HumanApprovalAgent.run` */
  function Run(s: AgentState): Update {
    NO_UPDATE.(approval := Some(Build(s)), errors := InputErrors(s.approvalInput),
               metrics := Some(s.metrics[NodeKey(HumanApproval) := NodeEntry(false, 0)]),
               trace := [TraceEntry(HumanApproval, StartedEvent), TraceEntry(HumanApproval, CompletedEvent)])
  }

  // ---------------------------------------------------------------- what the caller says

  /** The words a caller can give. */
  const WORDS := ["approved", "rejected", "revision_requested"]

  /** The same letters, a capital ASCII letter standing for the small one. */
  predicate SpellsIgnoringCase(text: string, word: string) {
    |text| == |word| && forall i :: 0 <= i < |text| ==>
      if 'A' <= text[i] <= 'Z' then word[i] == text[i] - 'A' + 'a' else word[i] == text[i]
  }

  /** The status text without outer whitespace. */
  function StatusText(input: ApprovalInput): string {
    if input.Mapping? && input.status.Some? then Strip(input.status.value) else ""
  }

  /** The caller's status is this word. */
  predicate Says(input: ApprovalInput, word: string) { SpellsIgnoringCase(StatusText(input), word) }

  lemma LowerSpells(text: string, word: string)
    ensures Lower(text) == word <==> SpellsIgnoringCase(text, word)
  {
    if Lower(text) == word {
      forall i | 0 <= i < |text|
        ensures word[i] == if 'A' <= text[i] <= 'Z' then text[i] - 'A' + 'a' else text[i] { assert Lower(text)[i] == word[i]; }
    }
    if SpellsIgnoringCase(text, word) {
      forall i | 0 <= i < |text| ensures Lower(text)[i] == word[i] {}
    }
  }

  lemma SaysExactly(input: ApprovalInput)
    ensures StatusNamed(NormalizedStatus(input)) == Some(Approved) <==> Says(input, "approved")
    ensures StatusNamed(NormalizedStatus(input)) == Some(Rejected) <==> Says(input, "rejected")
    ensures StatusNamed(NormalizedStatus(input)) == Some(RevisionRequested) <==> Says(input, "revision_requested")
    ensures StatusNamed(NormalizedStatus(input)) in {None, Some(Approved), Some(Rejected), Some(RevisionRequested)}
    ensures NormalizedStatus(input) == "" <==> StatusText(input) == ""
  {
    assert NormalizedStatus(input) == Lower(StatusText(input)) by { assert Lower("") == ""; }
    hide Strip, Lower, SpellsIgnoringCase, StatusText, NormalizedStatus;
    LowerSpells(StatusText(input), "approved");
    LowerSpells(StatusText(input), "rejected");
    LowerSpells(StatusText(input), "revision_requested");
    LowerBlank(StatusText(input));
  }

  lemma LowerBlank(text: string)
    ensures Lower(text) == "" <==> text == ""
  {
    assert |Lower(text)| == |text|;
  }

  /**
   Approval is required exactly if the decision says so; then the record is approved, rejected or sent back if and only if
   the caller's status is that word, and pending if it is none of them, with the caller's feedback and name.
   */
  lemma VerdictIsTheCallers(s: AgentState)
    ensures var a, input := Build(s), s.approvalInput;
            && a.required == s.decision.approvalRequired
            && (a.status == Approved <==> a.required && Says(input, "approved"))
            && (a.status == Rejected <==> a.required && Says(input, "rejected"))
            && (a.status == RevisionRequested <==> a.required && Says(input, "revision_requested"))
            && (a.status == Pending <==> a.required && forall word :: word in WORDS ==> !Says(input, word))
            && (a.status == SkippedApproval <==> !a.required)
            && a.feedback == (if a.required && input.Mapping? && input.feedback.Some? then Strip(input.feedback.value) else "")
            && a.actor == (if a.required && input.Mapping? && input.actor.Some? && !Blank(input.actor.value)
                           then Some(Strip(input.actor.value)) else None)
  {
    SaysExactly(s.approvalInput);
    if s.approvalInput.Mapping? && s.approvalInput.actor.Some? {
      StripEdges(s.approvalInput.actor.value);
    }
    hide Lower, Strip, Blank, StatusNamed, NormalizedStatus, Says;
    assert WORDS[0] == "approved" && WORDS[1] == "rejected" && WORDS[2] == "revision_requested";
  }

  /** An error is reported exactly if the input is no mapping or its status is neither blank nor one of the words. */
  lemma BadInputIsReported(input: ApprovalInput)
    ensures InputErrors(input) == [] <==>
              input.Mapping? && (StatusText(input) == "" || exists word :: word in WORDS && Says(input, word))
    ensures forall error :: error in InputErrors(input) ==>
              error.code == "human_approval_invalid_input" && error.author == Known(HumanApproval)
    ensures |InputErrors(input)| <= 1
  {
    SaysExactly(input);
    hide Lower, Strip, StatusNamed, NormalizedStatus, Says, StatusText;
    assert WORDS[0] == "approved" && WORDS[1] == "rejected" && WORDS[2] == "revision_requested";
  }
}
