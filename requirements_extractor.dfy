/** Requirements extraction: turning a user's free-text request into a structured
    project request. Only the offline, keyword-based extraction exists; asking for
    the language-model extraction fails with `NotImplementedError`. */
module RequirementsExtractor {
  import opened Wrappers
  import opened Text

  /** A project request as `model_dump` returns it after validation. */
  datatype ProjectRequest = ProjectRequest(
    name: string,
    goal: string,
    inputs: seq<string>,
    outputs: seq<string>,
    integrations: seq<string>,
    deterministicRules: seq<string>,
    llmTasks: seq<string>,
    humanReviewRequirements: Option<string>,
    storageRequirements: seq<string>,
    errorHandlingRequirements: seq<string>,
    tokenOutputConstraints: Option<string>,
    deliverables: seq<string>)

  /** The exception `extract_project_request` raises. */
  datatype ExtractError = NotImplementedError(message: string)

  const DefaultName := "extracted-project"
  const DefaultGoal := "Extracted from user request"
  const DefaultErrorHandling: seq<string> := ["Never drop data", "Store raw payload always"]
  const DefaultDeliverables: seq<string> := ["Runnable FastAPI app", "Tests", "README"]

  const WebhookInput := "Webhook endpoint"
  const SheetsOutput := "Google Sheets"
  const SheetsIntegration := "Google Drive/Sheets"
  const ComparisonRule := "Field comparison with tolerance"

  /** The three things a line of the request is scanned for. */
  datatype Topic = Webhook | Sheets | Comparison

  /** Whether a lower-cased line mentions the topic. */
  predicate Mentions(line: string, t: Topic)
  {
    match t
    case Webhook => Contains(line, "webhook")
    case Sheets => Contains(line, "google sheet") || Contains(line, "sheets")
    case Comparison => Contains(line, "compare") || Contains(line, "validation")
  }

  /** The number of lines mentioning the topic. */
  function Count(lines: seq<string>, t: Topic): nat
  {
    if lines == [] then 0
    else Count(lines[..|lines| - 1], t) + (if Mentions(lines[|lines| - 1], t) then 1 else 0)
  }

  /** `n` copies of `x`. */
  function Repeat(x: string, n: nat): seq<string>
  {
    if n == 0 then [] else Repeat(x, n - 1) + [x]
  }

  /** The request extracted from the lower-cased lines: the fixed defaults, one
      input per line mentioning a webhook, one output and one integration per line
      mentioning sheets, one rule per line mentioning comparison or validation. */
  function Template(lines: seq<string>): ProjectRequest
  {
    var sheets := Count(lines, Sheets);
    ProjectRequest(
      DefaultName, DefaultGoal,
      Repeat(WebhookInput, Count(lines, Webhook)),
      Repeat(SheetsOutput, sheets),
      Repeat(SheetsIntegration, sheets),
      Repeat(ComparisonRule, Count(lines, Comparison)),
      [], None, [], DefaultErrorHandling, None, DefaultDeliverables)
  }

  /** `extract_project_request`: the language-model path is not implemented and
      always fails; otherwise the keyword extraction runs. */
  method ExtractProjectRequest(userText: string, useLlm: bool := false) returns (r: Result<ProjectRequest, ExtractError>)
    ensures useLlm ==> r == Err(NotImplementedError("LLM extraction requires API setup"))
    ensures !useLlm ==> r == Ok(Template(Lines(Lower(userText))))
  {
    if useLlm {
      return Err(NotImplementedError("LLM extraction requires API setup"));
    }
    var request := TemplateExtract(userText);
    return Ok(request);
  }

  /** `_template_extract`: scans the lower-cased request line by line. */
  method TemplateExtract(userText: string) returns (r: ProjectRequest)
    ensures r == Template(Lines(Lower(userText)))
  {
    var lines := Lines(Lower(userText));
    var inputs: seq<string> := [];
    var outputs: seq<string> := [];
    var integrations: seq<string> := [];
    var rules: seq<string> := [];
    for i := 0 to |lines|
      invariant inputs == Repeat(WebhookInput, Count(lines[..i], Webhook))
      invariant outputs == Repeat(SheetsOutput, Count(lines[..i], Sheets))
      invariant integrations == Repeat(SheetsIntegration, Count(lines[..i], Sheets))
      invariant rules == Repeat(ComparisonRule, Count(lines[..i], Comparison))
    {
      var line := lines[i];
      assert lines[..i + 1][..i] == lines[..i];
      if Contains(line, "webhook") {
        inputs := inputs + [WebhookInput];
      }
      if Contains(line, "google sheet") || Contains(line, "sheets") {
        outputs := outputs + [SheetsOutput];
        integrations := integrations + [SheetsIntegration];
      }
      if Contains(line, "compare") || Contains(line, "validation") {
        rules := rules + [ComparisonRule];
      }
    }
    assert lines[..|lines|] == lines;
    r := ProjectRequest(DefaultName, DefaultGoal, inputs, outputs, integrations, rules,
                        [], None, [], DefaultErrorHandling, None, DefaultDeliverables);
  }

  lemma {:induction false} RepeatSpec(x: string, n: nat)
    ensures |Repeat(x, n)| == n
    ensures forall k :: 0 <= k < n ==> Repeat(x, n)[k] == x
  {
    if n > 0 {
      RepeatSpec(x, n - 1);
    }
  }

  /** Counting is done line by line: the count over two runs of lines is the sum. */
  lemma {:induction false} CountAppend(a: seq<string>, b: seq<string>, t: Topic)
    decreases |b|
    ensures Count(a + b, t) == Count(a, t) + Count(b, t)
  {
    if b == [] {
      assert a + b == a;
    } else {
      CountAppend(a, b[..|b| - 1], t);
      assert (a + b)[..|a + b| - 1] == a + b[..|b| - 1];
    }
  }

  /** The extracted request keeps every default, lists one input per webhook line
      (duplicates included), the same number of outputs as integrations, and never
      more entries of a kind than there are lines. */
  lemma TemplateSpec(lines: seq<string>)
    ensures var r := Template(lines);
      && r.name == DefaultName && r.goal == DefaultGoal
      && r.errorHandlingRequirements == DefaultErrorHandling && r.deliverables == DefaultDeliverables
      && r.llmTasks == [] && r.storageRequirements == []
      && |r.inputs| == Count(lines, Webhook) <= |lines|
      && (forall k :: 0 <= k < |r.inputs| ==> r.inputs[k] == WebhookInput)
      && |r.outputs| == |r.integrations| == Count(lines, Sheets) <= |lines|
      && |r.deterministicRules| == Count(lines, Comparison) <= |lines|
  {
    RepeatSpec(WebhookInput, Count(lines, Webhook));
    RepeatSpec(SheetsOutput, Count(lines, Sheets));
    RepeatSpec(SheetsIntegration, Count(lines, Sheets));
    RepeatSpec(ComparisonRule, Count(lines, Comparison));
    CountBound(lines, Webhook);
    CountBound(lines, Sheets);
    CountBound(lines, Comparison);
  }

  lemma {:induction false} CountBound(lines: seq<string>, t: Topic)
    ensures Count(lines, t) <= |lines|
  {
    if lines != [] {
      CountBound(lines[..|lines| - 1], t);
    }
  }

  /** Each further line mentioning a webhook adds one more input, even when it
      repeats an earlier line. */
  lemma WebhookDuplicatesKept(lines: seq<string>, line: string)
    requires Mentions(line, Webhook)
    ensures Template(lines + [line]).inputs == Template(lines).inputs + [WebhookInput]
  {
    CountAppend(lines, [line], Webhook);
    assert [line][..0] == [];
  }

  /** Lower-casing twice is lower-casing once. */
  lemma LowerIdempotent(s: string)
    ensures Lower(Lower(s)) == Lower(s)
  {
  }

  /** The extraction ignores letter case: two requests that differ only in the case
      of their ASCII letters extract the same project request. */
  lemma ExtractionIgnoresCase(a: string, b: string)
    requires Lower(a) == Lower(b)
    ensures Template(Lines(Lower(a))) == Template(Lines(Lower(b)))
  {
  }

  /** A request and its lower-cased form extract the same project request. */
  lemma LoweredRequestSame(userText: string)
    ensures Template(Lines(Lower(Lower(userText)))) == Template(Lines(Lower(userText)))
  {
    LowerIdempotent(userText);
    ExtractionIgnoresCase(Lower(userText), userText);
  }
}
