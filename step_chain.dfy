/** The pure parts of the step-chain runner (backend/runner.py): the working state
    passed between graph nodes, the routing guard after verification, the extraction
    of the plan text from a fenced model reply, and the prompts sent to the model. */
module StepChain {
  import opened Wrappers
  import opened Text
  import opened Protocol

  /** `StepChainState`. The message history is left out: the scripted model of
      the runner answers without looking at it. */
  datatype StepChainState = StepChainState(
    runId: string,
    problem: string,
    plan: seq<Step>,
    currentStep: nat,
    stepOutputs: seq<string>,
    verificationResults: seq<bool>,
    finalOutput: Option<string>,
    error: Option<string>)

  /** The state `run` hands to the graph. */
  function InitialState(runId: string, problem: string): (s: StepChainState)
    ensures s.plan == [] && s.currentStep == 0 && s.stepOutputs == [] && s.verificationResults == []
    ensures s.finalOutput.None? && s.error.None? && s.runId == runId && s.problem == problem
  {
    StepChainState(runId, problem, [], 0, [], [], None, None)
  }

  /** `state.get("error")` is truthy: present and not the empty string. */
  predicate HasError(s: StepChainState)
  {
    s.error.Some? && s.error.value != ""
  }

  /** The labels of the conditional edges leaving `verify_step`. */
  datatype Route = Continue | Finish | ErrorRoute

  /** `should_continue`. */
  function ShouldContinue(s: StepChainState): (r: Route)
    ensures r == ErrorRoute <==> HasError(s)
    ensures r == Continue ==> s.currentStep < |s.plan|
    ensures r == Finish ==> s.currentStep >= |s.plan|
  {
    if HasError(s) then ErrorRoute
    else if s.currentStep >= |s.plan| then Finish
    else Continue
  }

  // ---------------------------------------------------------------------------
  // Plan text extraction (the fence stripping in `create_plan`)
  // ---------------------------------------------------------------------------

  /** The part of `s` before the first occurrence of `sep`, or all of `s`. */
  function UpTo(s: string, sep: string): string
  {
    match FindFrom(s, sep, 0)
    case None => s
    case Some(i) => s[..i]
  }

  /** `s.split(sep)[1]` when `s` starts with `sep`: the text after the leading
      separator, up to the next occurrence. */
  lemma SplitAfterLeading(s: string, sep: string)
    requires |sep| > 0 && StartsWith(s, sep)
    ensures |Split(s, sep)| >= 2 && Split(s, sep)[1] == UpTo(s[|sep|..], sep)
  {
    assert FindFrom(s, sep, 0) == Some(0);
    assert Split(s, sep) == [s[..0]] + Split(s[|sep|..], sep);
  }

  /** An occurrence inside a prefix is an occurrence in the whole string. */
  lemma AtOfPrefix(s: string, p: string, n: nat, m: nat)
    requires n <= |s|
    ensures At(s[..n], p, m) <==> (At(s, p, m) && m + |p| <= n)
  {
    if m + |p| <= n {
      assert s[..n][m..m + |p|] == s[m..m + |p|];
    }
  }

  /** The first occurrence found in a prefix `s[..n]`: the first occurrence in
      `s` when it ends inside the prefix, otherwise none. */
  lemma FindInPrefix(s: string, p: string, n: nat)
    requires n <= |s|
    ensures FindFrom(s[..n], p, 0) ==
      match FindFrom(s, p, 0)
      case Some(j) => if j + |p| <= n then Some(j) else None
      case None => None
  {
    var t := s[..n];
    FindFromSpec(s, p, 0);
    FindFromSpec(t, p, 0);
    var f := FindFrom(s, p, 0);
    if f.Some? && f.value + |p| <= n {
      var j := f.value;
      AtOfPrefix(s, p, n, j);
      forall m | 0 <= m < j
        ensures !At(t, p, m)
      {
        AtOfPrefix(s, p, n, m);
      }
      FindFromFirst(t, p, 0, j);
    } else if FindFrom(t, p, 0).Some? {
      AtOfPrefix(s, p, n, FindFrom(t, p, 0).value);
    }
  }

  /** `UpTo` never leaves an occurrence of its separator. */
  lemma UpToAvoidsSep(s: string, sep: string)
    requires |sep| > 0
    ensures FindFrom(UpTo(s, sep), sep, 0).None?
  {
    match FindFrom(s, sep, 0)
    case None =>
    case Some(i) => FindInPrefix(s, sep, i);
  }

  /** `plan_text` computed from the model's reply in `create_plan`. */
  function PlanText(content: string): string
  {
    var t := Strip(content);
    if StartsWith(t, "```json") then
      SplitAfterLeading(t, "```json");
      Strip(Split(Split(t, "```json")[1], "```")[0])
    else if StartsWith(t, "```") then
      SplitAfterLeading(t, "```");
      Strip(Split(Split(t, "```")[1], "```")[0])
    else t
  }

  /** A reply that does not start with a fence is only stripped. */
  lemma PlanTextUnfenced(content: string)
    requires !StartsWith(Strip(content), "```")
    ensures PlanText(content) == Strip(content)
  {
    assert !StartsWith(Strip(content), "```json");
  }

  /** A reply fenced with a bare "```": the stripped text between the opening
      fence and the next one (or the end). */
  lemma PlanTextBareFence(content: string)
    requires StartsWith(Strip(content), "```") && !StartsWith(Strip(content), "```json")
    ensures PlanText(content) == Strip(UpTo(Strip(content)[3..], "```"))
  {
    var t := Strip(content);
    SplitAfterLeading(t, "```");
    var a := UpTo(t[3..], "```");
    UpToAvoidsSep(t[3..], "```");
    assert Split(a, "```") == [a];
  }

  /** Where the body of a "```json" fence ends, `u` being the text after the
      opening "```json": at the first "```", except when the next "```json"
      starts one or two characters after it (the two overlap in a run of four
      or five backticks), in which case the body runs up to that "```json". */
  function JsonBodyEnd(u: string): nat
  {
    match FindFrom(u, "```", 0)
    case None => |u|
    case Some(j) =>
      match FindFrom(u, "```json", 0)
      case None => j
      case Some(n) => if n == j + 1 || n == j + 2 then n else j
  }

  /** Cutting at the next "```json" and then at the first "```" ends the body
      at `JsonBodyEnd`. */
  lemma JsonBodyCut(u: string)
    ensures JsonBodyEnd(u) <= |u| && UpTo(UpTo(u, "```json"), "```") == u[..JsonBodyEnd(u)]
  {
    FindFromSpec(u, "```json", 0);
    FindFromSpec(u, "```", 0);
    match FindFrom(u, "```json", 0)
    case None =>
      assert UpTo(u, "```json") == u;
    case Some(n) =>
      assert u[n..n + 3] == u[n..n + 7][..3];
      assert At(u, "```", n);
      var a := u[..n];
      assert UpTo(u, "```json") == a;
      FindInPrefix(u, "```", n);
      var j := FindFrom(u, "```", 0).value;
      if j + 3 <= n {
        assert UpTo(a, "```") == a[..j];
        assert a[..j] == u[..j];
      } else {
        assert UpTo(a, "```") == a;
      }
  }

  /** A reply fenced with "```json": `split("```json")[1].split("```")[0]`,
      stripped, is the body up to `JsonBodyEnd`. */
  lemma PlanTextJsonFence(content: string)
    requires StartsWith(Strip(content), "```json")
    ensures var u := Strip(content)[7..];
            JsonBodyEnd(u) <= |u| && PlanText(content) == Strip(u[..JsonBodyEnd(u)])
  {
    var t := Strip(content);
    var u := t[7..];
    SplitAfterLeading(t, "```json");
    var a := UpTo(u, "```json");
    assert Split(a, "```")[0] == UpTo(a, "```");
    JsonBodyCut(u);
  }

  /** The common case: with no second "```json", the plan text is the stripped
      text between the opening "```json" and the next "```" (or the end). */
  lemma PlanTextJsonFenceSimple(content: string)
    requires StartsWith(Strip(content), "```json")
    requires !Contains(Strip(content)[7..], "```json")
    ensures PlanText(content) == Strip(UpTo(Strip(content)[7..], "```"))
  {
    PlanTextJsonFence(content);
    var u := Strip(content)[7..];
    assert FindFrom(u, "```json", 0).None?;
    assert u[..|u|] == u;
  }

  // ---------------------------------------------------------------------------
  // Prompts
  // ---------------------------------------------------------------------------

  /** The prompt of `create_plan`. */
  function PlanPrompt(problem: string): string
  {
    "You are a problem-solving assistant. Break down the following problem into 3-5 clear, actionable steps.\n\nProblem: "
    + problem
    + "\n\nFor each step, provide:\n1. A clear description of what needs to be done\n"
    + "2. A verification checklist (2-3 items) to confirm the step is complete\n\n"
    + "Return ONLY a JSON array of steps in this exact format:\n[\n  {\n    \"step_number\": 1,\n"
    + "    \"description\": \"Step description\",\n"
    + "    \"verification_checklist\": [\"Check item 1\", \"Check item 2\"]\n  }\n]\n\n"
    + "Do not include any other text, just the JSON array."
  }

  /** The context line for the prior output with 0-based index `i`. */
  function Entry(i: nat, output: string): string
  {
    "Step " + NatToString(i + 1) + ": " + output + "\n"
  }

  /** The context lines for `outputs`, in order. */
  function Entries(outputs: seq<string>): string
  {
    if outputs == [] then ""
    else Entries(outputs[..|outputs| - 1]) + Entry(|outputs| - 1, outputs[|outputs| - 1])
  }

  const ContextHeader: string := "\n\nPrevious steps completed:\n"

  /** The `context` built in `execute_step` from the outputs so far. */
  function StepContext(outputs: seq<string>): string
  {
    if outputs == [] then "" else ContextHeader + Entries(outputs)
  }

  /** The prompt of `execute_step`. */
  function StepPrompt(problem: string, description: string, context: string): string
  {
    "Execute the following step to solve the problem.\n\nOriginal Problem: " + problem
    + "\n\nCurrent Step: " + description + "\n" + context
    + "\n\nProvide a detailed response for completing this step. Be specific and thorough."
  }

  predicate IsPrefix(a: string, b: string)
  {
    |a| <= |b| && b[..|a|] == a
  }

  /** The context lines of the first `k` outputs begin the context lines of all of them. */
  lemma {:induction false} EntriesPrefix(outputs: seq<string>, k: nat)
    requires k <= |outputs|
    decreases |outputs| - k
    ensures IsPrefix(Entries(outputs[..k]), Entries(outputs))
  {
    if k < |outputs| {
      EntriesPrefix(outputs, k + 1);
      var o := outputs[..k + 1];
      assert o[..|o| - 1] == outputs[..k];
      assert Entries(o) == Entries(outputs[..k]) + Entry(k, outputs[k]);
    } else {
      assert outputs[..k] == outputs;
    }
  }

  /** Output `i` appears in the context as "Step i+1: output\n", at a known place. */
  lemma EntryInEntries(outputs: seq<string>, i: nat)
    requires i < |outputs|
    ensures At(Entries(outputs), Entry(i, outputs[i]), |Entries(outputs[..i])|)
  {
    EntriesPrefix(outputs, i + 1);
    var o := outputs[..i + 1];
    assert o[..|o| - 1] == outputs[..i];
    var whole := Entries(outputs);
    var pre := Entries(o);
    assert pre == Entries(outputs[..i]) + Entry(i, outputs[i]);
    assert whole[..|pre|] == pre;
    var p := |Entries(outputs[..i])|;
    assert whole[p..p + |Entry(i, outputs[i])|] == pre[p..];
  }

  /** The step prompt carries every prior output, each on its own numbered line. */
  lemma StepPromptHasEveryPriorOutput(problem: string, description: string, outputs: seq<string>, i: nat)
    requires i < |outputs|
    ensures Contains(StepPrompt(problem, description, StepContext(outputs)), Entry(i, outputs[i]))
  {
    EntryInEntries(outputs, i);
    var e := Entry(i, outputs[i]);
    var prefix := "Execute the following step to solve the problem.\n\nOriginal Problem: " + problem
      + "\n\nCurrent Step: " + description + "\n" + ContextHeader;
    var suffix := "\n\nProvide a detailed response for completing this step. Be specific and thorough.";
    var prompt := StepPrompt(problem, description, StepContext(outputs));
    assert prompt == prefix + Entries(outputs) + suffix;
    AtInside(prefix, Entries(outputs), suffix, e, |Entries(outputs[..i])|);
    ContainsSpec(prompt, e);
  }

  /** The checklist as "- item" lines joined by newlines. */
  function Bullets(checklist: seq<string>): string
  {
    Join("\n", seq(|checklist|, k requires 0 <= k < |checklist| => "- " + checklist[k]))
  }

  /** The prompt of `verify_step`. */
  function VerifyPrompt(description: string, output: string, checklist: seq<string>): string
  {
    "Verify if the following step output satisfies all checklist items.\n\nStep: " + description
    + "\nStep Output: " + output + "\n\nVerification Checklist:\n" + Bullets(checklist)
    + "\n\nRespond with ONLY \"PASS\" if all checklist items are satisfied, or \"FAIL\" followed by what's missing."
  }

  /** The outputs as "Step i: output" lines joined by newlines. */
  function Summary(outputs: seq<string>): string
  {
    Join("\n", seq(|outputs|, k requires 0 <= k < |outputs| => "Step " + NatToString(k + 1) + ": " + outputs[k]))
  }

  /** The prompt of `generate_final_output`. */
  function FinalPrompt(problem: string, outputs: seq<string>): string
  {
    "Summarize the solution to the original problem based on all completed steps.\n\nOriginal Problem: "
    + problem + "\n\nSteps Completed:\n" + Summary(outputs)
    + "\n\nProvide a clear, concise final answer to the original problem."
  }

  /** Which prompt a node sends to the model, with its arguments. */
  datatype Prompt =
    | PlanRequest(problem: string)
    | StepRequest(problem: string, description: string, context: string)
    | VerifyRequest(description: string, output: string, checklist: seq<string>)
    | FinalRequest(problem: string, outputs: seq<string>)

  /** The text the model receives for a prompt. */
  function Render(p: Prompt): string
  {
    match p
    case PlanRequest(problem) => PlanPrompt(problem)
    case StepRequest(problem, description, context) => StepPrompt(problem, description, context)
    case VerifyRequest(description, output, checklist) => VerifyPrompt(description, output, checklist)
    case FinalRequest(problem, outputs) => FinalPrompt(problem, outputs)
  }

  /** The loop of `execute_step` that builds the context from the prior outputs. */
  method BuildContext(outputs: seq<string>) returns (context: string)
    ensures context == StepContext(outputs)
  {
    context := "";
    if outputs != [] {
      context := ContextHeader;
      var i := 0;
      while i < |outputs|
        invariant 0 <= i <= |outputs|
        invariant context == ContextHeader + Entries(outputs[..i])
      {
        assert outputs[..i + 1][..i] == outputs[..i];
        context := context + Entry(i, outputs[i]);
        i := i + 1;
      }
      assert outputs[..i] == outputs;
    }
  }
}
