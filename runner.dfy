/** The step-chain runner of backend/runner.py: a class holding the run's database
    row, the events it has emitted, and a scripted language model that answers one
    reply per call. Each graph node is a method; `Run` drives the graph's edges as
    an explicit loop and turns an escaping exception into a failed run. */
module Runner {
  import opened Wrappers
  import opened Text
  import opened Protocol
  import opened StepChain

  /** One scripted model reply: the text of the response, or the message of the
      exception the client raised. */
  type Reply = Result<string, string>

  /** The exceptions that can escape a node. Plan-decoding errors are caught
      inside `create_plan` and never escape. */
  datatype Exception =
    | ModelError(message: string)  // the model call raised
    | IndexError                    // `plan[i]` or `step_outputs[-1]` out of range
    | KeyError(key: string)         // a plan step lacks a key

  const IndexErrorText: string := "list index out of range"

  /** `str(e)`. */
  function ExceptionText(e: Exception): string
  {
    match e
    case ModelError(m) => m
    case IndexError => IndexErrorText
    case KeyError(k) => "'" + k + "'"
  }

  /** The error `create_plan` stores when the plan cannot be decoded. */
  function PlanFailureMessage(m: string): string
  {
    "Failed to create plan: " + m
  }

  /** What a node returns: the next state, or the exception it raised. */
  datatype NodeResult = Next(state: StepChainState) | Raised(exception: Exception)

  /** The message `json.loads` raises on text that does not start a JSON value. */
  const NotJsonText: string := "Expecting value: line 1 column 1 (char 0)"

  /** `json.loads(text)` given the table of what it makes of each text; a text
      the table leaves out is not JSON. */
  function Decode(decoding: imap<string, Result<seq<Step>, string>>, text: string): Result<seq<Step>, string>
  {
    if text in decoding then decoding[text] else Err(NotJsonText)
  }

  /** What the scripted model answers once its replies are used up. */
  const NoReplyText: string := "no scripted reply"

  /** A step whose number and description can both be read. */
  predicate Announceable(step: Step)
  {
    step.stepNumber.Some? && step.description.Some?
  }

  /** The verdict event `verify_step` emits for a stripped response. */
  function VerdictEvent(stepNumber: int, verification: string): EventData
  {
    if StartsWith(verification, "PASS") then VerifyPass(stepNumber) else VerifyFail(stepNumber, verification)
  }

  /** The three events of one executed and verified step. */
  predicate StepLogged(triple: seq<EventData>, step: Step, output: string, passed: bool)
  {
    && |triple| == 3 && Announceable(step)
    && triple[0] == StepStarted(step.stepNumber.value, step.description.value)
    && triple[1] == StepOutput(step.stepNumber.value, output)
    && (if passed then triple[2] == VerifyPass(step.stepNumber.value)
        else triple[2].VerifyFail? && triple[2].stepNumber == step.stepNumber.value
             && !StartsWith(triple[2].reason, "PASS"))
  }

  /** `evs` are the events of the first `|outputs|` steps of `plan`, executed with
      those outputs and verified with those results. */
  ghost predicate StepsLogged(evs: seq<EventData>, plan: seq<Step>, outputs: seq<string>, results: seq<bool>)
    decreases |outputs|
  {
    if outputs == [] then evs == [] && results == []
    else
      && |results| == |outputs| && |outputs| <= |plan| && |evs| >= 3
      && StepsLogged(evs[..|evs| - 3], plan, outputs[..|outputs| - 1], results[..|results| - 1])
      && StepLogged(evs[|evs| - 3..], plan[|outputs| - 1], outputs[|outputs| - 1], results[|results| - 1])
  }

  /** Logging one more step extends the log. */
  lemma StepsLoggedExtend(evs: seq<EventData>, plan: seq<Step>, outputs: seq<string>, results: seq<bool>,
                          triple: seq<EventData>, output: string, passed: bool)
    requires StepsLogged(evs, plan, outputs, results)
    requires |outputs| < |plan| && |results| == |outputs|
    requires StepLogged(triple, plan[|outputs|], output, passed)
    ensures StepsLogged(evs + triple, plan, outputs + [output], results + [passed])
  {
    var e, o, r := evs + triple, outputs + [output], results + [passed];
    assert e[..|e| - 3] == evs && e[|e| - 3..] == triple;
    assert o[..|o| - 1] == outputs && o[|o| - 1] == output;
    assert r[..|r| - 1] == results && r[|r| - 1] == passed;
    assert o != [] && |r| == |o| && |o| <= |plan| && |e| >= 3;
    assert StepsLogged(e[..|e| - 3], plan, o[..|o| - 1], r[..|r| - 1]);
  }

  /** A step log holds no `run_completed` event. */
  lemma {:induction false} StepsLoggedNoCompletion(evs: seq<EventData>, plan: seq<Step>, outputs: seq<string>, results: seq<bool>)
    requires StepsLogged(evs, plan, outputs, results)
    decreases |outputs|
    ensures |evs| == 3 * |outputs| && |results| == |outputs|
    ensures forall k :: 0 <= k < |evs| ==> !evs[k].RunCompleted? && !evs[k].RunFailed?
  {
    if outputs != [] {
      StepsLoggedNoCompletion(evs[..|evs| - 3], plan, outputs[..|outputs| - 1], results[..|results| - 1]);
      assert forall k :: |evs| - 3 <= k < |evs| ==> evs[k] == evs[|evs| - 3..][k - (|evs| - 3)];
    }
  }

  /** No `run_completed` event among `evs`. */
  predicate NoCompletion(evs: seq<EventData>)
  {
    forall k :: 0 <= k < |evs| ==> !evs[k].RunCompleted?
  }

  /** The events of a completed run: the plan, one logged triple per step, and
      the final output. */
  ghost predicate CompletedLog(evs: seq<EventData>, snap: Snapshot, finalOutput: string)
  {
    && 1 <= |snap.plan| && |snap.stepOutputs| == |snap.plan| && |snap.verificationResults| == |snap.plan|
    && |evs| == 2 + 3 * |snap.plan|
    && evs[0] == PlanCreated(snap.plan, |snap.plan|)
    && StepsLogged(evs[1..|evs| - 1], snap.plan, snap.stepOutputs, snap.verificationResults)
    && evs[|evs| - 1] == RunCompleted(finalOutput)
  }

  /** A run whose plan was announced and whose every step was logged, followed by
      its final output, has a completed log. */
  lemma CompletedFromLog(plan: seq<Step>, steps: seq<EventData>, outputs: seq<string>, results: seq<bool>, finalOutput: string)
    requires 1 <= |plan| && |outputs| == |plan|
    requires StepsLogged(steps, plan, outputs, results)
    ensures CompletedLog([PlanCreated(plan, |plan|)] + steps + [RunCompleted(finalOutput)],
                         Snapshot(plan, outputs, results), finalOutput)
  {
    StepsLoggedNoCompletion(steps, plan, outputs, results);
    var evs := [PlanCreated(plan, |plan|)] + steps + [RunCompleted(finalOutput)];
    assert evs[1..|evs| - 1] == steps;
  }

  /** The loop invariant of the step loop started from `st0`: only the step
      cursor, the outputs and the verification results have moved, one output
      per step passed, and `steps` logs every passed step. */
  ghost predicate Progress(st0: StepChainState, st: StepChainState, steps: seq<EventData>)
  {
    && st == st0.(currentStep := st.currentStep, stepOutputs := st.stepOutputs,
                  verificationResults := st.verificationResults)
    && st.currentStep <= |st.plan| && |st.stepOutputs| == st.currentStep
    && StepsLogged(steps, st.plan, st.stepOutputs, st.verificationResults)
  }

  /** Two logs without a completion concatenate to one without. */
  lemma NoCompletionConcat(a: seq<EventData>, b: seq<EventData>)
    requires NoCompletion(a) && NoCompletion(b)
    ensures NoCompletion(a + b)
  {
    forall k | 0 <= k < |a + b|
      ensures !(a + b)[k].RunCompleted?
    {
      if k >= |a| {
        assert (a + b)[k] == b[k - |a|];
      }
    }
  }

  class StepChainRunner {
    /** The run's row in the `runs` table. */
    var run: RunRecord
    /** The events this runner has committed, in order. */
    var events: seq<EventData>
    /** The scripted model: reply `i` answers the `i`-th call. */
    const script: seq<Reply>
    /** How many model calls have been made. */
    var used: nat
    /** The prompts sent to the model, in order; `Render` gives their text. */
    var prompts: seq<Prompt>
    /** The next reading of `datetime.utcnow()`. */
    var clock: nat
    /** What `json.loads` makes of each plan text it may be given: the decoded
        steps, or the message of the decoding error it raises. */
    const decoding: imap<string, Result<seq<Step>, string>>

    constructor (run0: RunRecord, script: seq<Reply>, decoding: imap<string, Result<seq<Step>, string>>, clock0: nat)
      ensures run == run0 && events == [] && this.script == script && used == 0 && prompts == []
      ensures this.decoding == decoding && clock == clock0
    {
      run := run0;
      events := [];
      this.script := script;
      used := 0;
      prompts := [];
      this.decoding := decoding;
      clock := clock0;
    }

    /** The reply the model gives to call number `i`. */
    function ReplyAt(i: nat): Reply
    {
      if i < |script| then script[i] else Err(NoReplyText)
    }

    /** `datetime.utcnow()`. */
    method Now() returns (t: nat)
      modifies this`clock
      ensures t == old(clock) && clock == old(clock) + 1
    {
      t := clock;
      clock := clock + 1;
    }

    /** `emit_event`: commit one event. */
    method EmitEvent(e: EventData)
      modifies this`events
      ensures events == old(events) + [e]
    {
      events := events + [e];
    }

    /** `update_run`: `setattr` each keyword in turn, then refresh `updated_at`. */
    method UpdateRun(kwargs: seq<Assignment>)
      requires AllWellTyped(kwargs)
      modifies this`run, this`clock
      ensures run == ApplyAll(old(run), kwargs).(updatedAt := old(clock))
      ensures clock == old(clock) + 1
    {
      var i := 0;
      while i < |kwargs|
        invariant 0 <= i <= |kwargs|
        invariant run == ApplyAll(old(run), kwargs[..i])
        invariant clock == old(clock)
      {
        assert kwargs[..i + 1][..i] == kwargs[..i];
        run := Set(run, kwargs[i]);
        i := i + 1;
      }
      assert kwargs[..i] == kwargs;
      var now := Now();
      run := run.(updatedAt := now);
    }

    /** `self.model.ainvoke(...)`: send a prompt, take the next scripted reply. */
    method Invoke(prompt: Prompt) returns (reply: Reply)
      modifies this`used, this`prompts
      ensures reply == ReplyAt(old(used)) && used == old(used) + 1
      ensures prompts == old(prompts) + [prompt]
    {
      reply := ReplyAt(used);
      used := used + 1;
      prompts := prompts + [prompt];
    }

    /** `create_plan`: mark the run running, ask for a plan, decode it. Only the
        decoding is inside the `try`; a failing model call escapes. */
    method CreatePlan(s: StepChainState) returns (res: NodeResult, ghost decoded: Result<seq<Step>, string>)
      modifies this`run, this`events, this`used, this`prompts, this`clock
      ensures used == old(used) + 1 && prompts == old(prompts) + [PlanRequest(s.problem)]
      ensures run.runId == old(run.runId) && run.problem == old(run.problem)
      ensures ReplyAt(old(used)).Ok? ==> decoded == Decode(decoding, PlanText(ReplyAt(old(used)).value))
      ensures ReplyAt(old(used)).Err? ==>
                && res == Raised(ModelError(ReplyAt(old(used)).error)) && events == old(events)
                && run == old(run).(status := Running, startedAt := Some(old(clock)), updatedAt := old(clock) + 1)
                && clock == old(clock) + 2
      ensures ReplyAt(old(used)).Ok? && decoded.Ok? ==>
                && res == Next(s.(plan := decoded.value, currentStep := 0, stepOutputs := [], verificationResults := []))
                && events == old(events) + [PlanCreated(decoded.value, |decoded.value|)]
                && run == old(run).(status := Running, startedAt := Some(old(clock)), totalSteps := |decoded.value|,
                                    updatedAt := old(clock) + 2)
                && clock == old(clock) + 3
      ensures ReplyAt(old(used)).Ok? && decoded.Err? ==>
                && res == Next(s.(error := Some(decoded.error)))
                && events == old(events) + [RunFailed(decoded.error)]
                && run == old(run).(status := Failed, startedAt := Some(old(clock)),
                                    error := Some(PlanFailureMessage(decoded.error)), updatedAt := old(clock) + 2)
                && clock == old(clock) + 3
    {
      ghost var r0, c0 := run, clock;
      var started := Now();
      var assignments := [Assignment(StatusField, StatusValue(Running)), Assignment(StartedAtField, TimeValue(started))];
      ApplyTwo(run, assignments[0], assignments[1]);
      UpdateRun(assignments);
      assert run == r0.(status := Running, startedAt := Some(c0), updatedAt := c0 + 1);
      var reply := Invoke(PlanRequest(s.problem));
      if reply.Err? {
        return Raised(ModelError(reply.error)), Err("");
      }
      ghost var r1 := run;
      var parsed := Decode(decoding, PlanText(reply.value));
      decoded := parsed;
      if parsed.Ok? {
        var plan := parsed.value;
        EmitEvent(PlanCreated(plan, |plan|));
        ApplyOne(run, Assignment(TotalStepsField, IntValue(|plan|)));
        UpdateRun([Assignment(TotalStepsField, IntValue(|plan|))]);
        assert run == r1.(totalSteps := |plan|, updatedAt := c0 + 2);
        res := Next(s.(plan := plan, currentStep := 0, stepOutputs := [], verificationResults := []));
      } else {
        var m := parsed.error;
        EmitEvent(RunFailed(m));
        var failure := [Assignment(StatusField, StatusValue(Failed)), Assignment(ErrorField, TextValue(PlanFailureMessage(m)))];
        ApplyTwo(run, failure[0], failure[1]);
        UpdateRun(failure);
        assert run == r1.(status := Failed, error := Some(PlanFailureMessage(m)), updatedAt := c0 + 2);
        res := Next(s.(error := Some(m)));
      }
    }

    /** `execute_step`: a no-op past the end of the plan; otherwise announce the
        step, record its index, and ask the model with every prior output in the
        prompt. The step stays current until it is verified. */
    method ExecuteStep(s: StepChainState) returns (res: NodeResult)
      modifies this`run, this`events, this`used, this`prompts, this`clock
      ensures s.currentStep >= |s.plan| ==> res == Next(s) && unchanged(this)
      ensures s.currentStep < |s.plan| && s.plan[s.currentStep].stepNumber.None? ==>
                res == Raised(KeyError("step_number")) && unchanged(this)
      ensures s.currentStep < |s.plan| && s.plan[s.currentStep].stepNumber.Some?
              && s.plan[s.currentStep].description.None? ==>
                res == Raised(KeyError("description")) && unchanged(this)
      ensures s.currentStep < |s.plan| && Announceable(s.plan[s.currentStep]) ==>
                var step := s.plan[s.currentStep];
                var num, desc := step.stepNumber.value, step.description.value;
                && run == old(run).(currentStepIndex := s.currentStep, updatedAt := old(clock))
                && clock == old(clock) + 1
                && used == old(used) + 1
                && prompts == old(prompts) + [StepRequest(s.problem, desc, StepContext(s.stepOutputs))]
                && match ReplyAt(old(used))
                   case Err(m) =>
                     res == Raised(ModelError(m)) && events == old(events) + [StepStarted(num, desc)]
                   case Ok(out) =>
                     && res == Next(s.(stepOutputs := s.stepOutputs + [out]))
                     && events == old(events) + [StepStarted(num, desc), StepOutput(num, out)]
    {
      if s.currentStep >= |s.plan| {
        return Next(s);
      }
      var step := s.plan[s.currentStep];
      if step.stepNumber.None? {
        return Raised(KeyError("step_number"));
      }
      if step.description.None? {
        return Raised(KeyError("description"));
      }
      EmitEvent(StepStarted(step.stepNumber.value, step.description.value));
      ApplyOne(run, Assignment(CurrentStepIndexField, IntValue(s.currentStep)));
      UpdateRun([Assignment(CurrentStepIndexField, IntValue(s.currentStep))]);
      var context := BuildContext(s.stepOutputs);
      var reply := Invoke(StepRequest(s.problem, step.description.value, context));
      if reply.Err? {
        return Raised(ModelError(reply.error));
      }
      EmitEvent(StepOutput(step.stepNumber.value, reply.value));
      res := Next(s.(stepOutputs := s.stepOutputs + [reply.value]));
    }

    /** `verify_step`: ask the model to check the last output against the current
        step's checklist. The step passes iff the stripped reply starts with "PASS";
        pass or fail, the result is recorded and the step cursor advances. */
    method VerifyStep(s: StepChainState) returns (res: NodeResult)
      modifies this`events, this`used, this`prompts
      ensures (s.currentStep >= |s.plan| || s.stepOutputs == []) ==> res == Raised(IndexError) && unchanged(this)
      ensures s.currentStep < |s.plan| && s.stepOutputs != [] && s.plan[s.currentStep].checklist.None? ==>
                res == Raised(KeyError("verification_checklist")) && unchanged(this)
      ensures s.currentStep < |s.plan| && s.stepOutputs != [] && s.plan[s.currentStep].checklist.Some?
              && s.plan[s.currentStep].description.None? ==>
                res == Raised(KeyError("description")) && unchanged(this)
      ensures s.currentStep < |s.plan| && s.stepOutputs != [] && s.plan[s.currentStep].checklist.Some?
              && s.plan[s.currentStep].description.Some? ==>
                var step := s.plan[s.currentStep];
                && used == old(used) + 1
                && prompts == old(prompts) + [VerifyRequest(step.description.value, s.stepOutputs[|s.stepOutputs| - 1],
                                                           step.checklist.value)]
                && match ReplyAt(old(used))
                   case Err(m) => res == Raised(ModelError(m)) && events == old(events)
                   case Ok(text) =>
                     if step.stepNumber.None? then res == Raised(KeyError("step_number")) && events == old(events)
                     else
                       var verdict := Strip(text);
                       var passed := StartsWith(verdict, "PASS");
                       && events == old(events) + [VerdictEvent(step.stepNumber.value, verdict)]
                       && res == Next(s.(verificationResults := s.verificationResults + [passed],
                                         currentStep := s.currentStep + 1))
    {
      if s.currentStep >= |s.plan| || s.stepOutputs == [] {
        return Raised(IndexError);
      }
      var step := s.plan[s.currentStep];
      var output := s.stepOutputs[|s.stepOutputs| - 1];
      if step.checklist.None? {
        return Raised(KeyError("verification_checklist"));
      }
      if step.description.None? {
        return Raised(KeyError("description"));
      }
      var reply := Invoke(VerifyRequest(step.description.value, output, step.checklist.value));
      if reply.Err? {
        return Raised(ModelError(reply.error));
      }
      var verification := Strip(reply.value);
      var passed := StartsWith(verification, "PASS");
      if step.stepNumber.None? {
        return Raised(KeyError("step_number"));
      }
      if passed {
        EmitEvent(VerifyPass(step.stepNumber.value));
      } else {
        EmitEvent(VerifyFail(step.stepNumber.value, verification));
      }
      res := Next(s.(verificationResults := s.verificationResults + [passed], currentStep := s.currentStep + 1));
    }

    /** `generate_final_output`: ask for a summary, emit `run_completed`, then
        store the completed status and the final output. */
    method GenerateFinalOutput(s: StepChainState) returns (res: NodeResult)
      modifies this`run, this`events, this`used, this`prompts, this`clock
      ensures used == old(used) + 1 && prompts == old(prompts) + [FinalRequest(s.problem, s.stepOutputs)]
      ensures run.runId == old(run.runId) && run.problem == old(run.problem)
      ensures |events| >= |old(events)| && events[..|old(events)|] == old(events)
      ensures match ReplyAt(old(used))
        case Err(m) =>
          res == Raised(ModelError(m)) && events == old(events) && run == old(run) && clock == old(clock)
        case Ok(out) =>
          && res == Next(s.(finalOutput := Some(out)))
          && events == old(events) + [RunCompleted(out)]
          && run == old(run).(status := Completed, finalOutput := Some(out), updatedAt := old(clock))
          && clock == old(clock) + 1
    {
      var reply := Invoke(FinalRequest(s.problem, s.stepOutputs));
      if reply.Err? {
        return Raised(ModelError(reply.error));
      }
      EmitEvent(RunCompleted(reply.value));
      ApplyTwo(run, Assignment(StatusField, StatusValue(Completed)), Assignment(FinalOutputField, TextValue(reply.value)));
      UpdateRun([Assignment(StatusField, StatusValue(Completed)), Assignment(FinalOutputField, TextValue(reply.value))]);
      res := Next(s.(finalOutput := Some(reply.value)));
    }

    /** The fixed edge execute_step -> verify_step: one step executed and checked.
        Past the end of the plan nothing happens and `verify_step` raises. */
    method ExecuteAndVerify(st: StepChainState) returns (res: NodeResult)
      modifies this`run, this`events, this`used, this`prompts, this`clock
      ensures run.runId == old(run.runId) && run.problem == old(run.problem)
      ensures run.status == old(run.status) && run.totalSteps == old(run.totalSteps)
      ensures |events| >= |old(events)| && events[..|old(events)|] == old(events)
      ensures NoCompletion(events[|old(events)|..])
      ensures st.currentStep >= |st.plan| ==> res == Raised(IndexError) && events == old(events)
      ensures res.Next? ==>
                && st.currentStep < |st.plan|
                && |res.state.stepOutputs| == |st.stepOutputs| + 1
                && |res.state.verificationResults| == |st.verificationResults| + 1
                && res.state == st.(stepOutputs := st.stepOutputs + [res.state.stepOutputs[|st.stepOutputs|]],
                                    verificationResults := st.verificationResults
                                                           + [res.state.verificationResults[|st.verificationResults|]],
                                    currentStep := st.currentStep + 1)
                && StepLogged(events[|old(events)|..], st.plan[st.currentStep],
                              res.state.stepOutputs[|st.stepOutputs|], res.state.verificationResults[|st.verificationResults|])
                && used == old(used) + 2
    {
      var executed := ExecuteStep(st);
      if executed.Raised? {
        return executed;
      }
      res := VerifyStep(executed.state);
      if res.Next? {
        assert res.state.stepOutputs == st.stepOutputs + [res.state.stepOutputs[|st.stepOutputs|]];
      }
    }

    /** One pass of the loop: execute and verify the current step, and log it
        after the steps logged so far. */
    method StepPass(ghost st0: StepChainState, st: StepChainState, ghost steps: seq<EventData>)
      returns (res: NodeResult, ghost steps': seq<EventData>)
      requires Progress(st0, st, steps)
      modifies this`run, this`events, this`used, this`prompts, this`clock
      ensures run.runId == old(run.runId) && run.problem == old(run.problem)
      ensures run.status == old(run.status) && run.totalSteps == old(run.totalSteps)
      ensures |events| >= |old(events)| && events[..|old(events)|] == old(events)
      ensures NoCompletion(events[|old(events)|..])
      ensures st.currentStep >= |st.plan| ==> res == Raised(IndexError) && events == old(events)
      ensures res.Next? ==>
                && Progress(st0, res.state, steps') && res.state.currentStep == st.currentStep + 1
                && steps' == steps + events[|old(events)|..] && used == old(used) + 2
    {
      ghost var mark := events;
      res := ExecuteAndVerify(st);
      if res.Next? {
        ghost var triple := events[|mark|..];
        StepsLoggedExtend(steps, st.plan, st.stepOutputs, st.verificationResults, triple,
                          res.state.stepOutputs[|st.stepOutputs|], res.state.verificationResults[|st.verificationResults|]);
        steps' := steps + triple;
      } else {
        steps' := steps;
      }
    }

    /** The execute_step -> verify_step loop with the conditional edges after
        `verify_step`: `continue` runs the next step, `finish` goes on to
        generate_final, `error` ends the graph. Every pass either raises or
        advances the step cursor, so the loop ends within `len(plan)` passes.
        `steps` are the events of the executed and verified steps. */
    method StepLoop(st0: StepChainState) returns (outcome: NodeResult, ghost steps: seq<EventData>)
      requires st0.currentStep == 0 && st0.stepOutputs == [] && st0.verificationResults == []
      requires st0.finalOutput.None?
      modifies this`run, this`events, this`used, this`prompts, this`clock
      ensures run.runId == old(run.runId) && run.problem == old(run.problem)
      ensures |events| >= |old(events)| && events[..|old(events)|] == old(events)
      ensures st0.plan == [] ==> outcome == Raised(IndexError) && events == old(events)
      ensures outcome.Raised? ==> NoCompletion(events[|old(events)|..])
      ensures outcome.Next? && HasError(st0) ==>
                outcome.state.finalOutput.None? && NoCompletion(events[|old(events)|..])
      ensures outcome.Next? && !HasError(st0) ==>
                && outcome.state.plan == st0.plan && outcome.state.finalOutput.Some?
                && 1 <= |st0.plan| && |outcome.state.stepOutputs| == |st0.plan|
                && run.status == Completed && run.finalOutput == outcome.state.finalOutput
                && run.totalSteps == old(run.totalSteps)
                && events == old(events) + steps + [RunCompleted(outcome.state.finalOutput.value)]
                && StepsLogged(steps, st0.plan, outcome.state.stepOutputs, outcome.state.verificationResults)
                && used == old(used) + 1 + 2 * |st0.plan|
    {
      ghost var e0, u0 := events, used;
      var st := st0;
      var route := Continue;
      steps := [];
      outcome := Next(st0);
      while route == Continue
        invariant run.runId == old(run.runId) && run.problem == old(run.problem)
        invariant run.status == old(run.status) && run.totalSteps == old(run.totalSteps)
        invariant events == e0 + steps
        invariant Progress(st0, st, steps)
        invariant used == u0 + 2 * st.currentStep
        invariant outcome == Next(st) && (route == Continue || (route == ShouldContinue(st) && 1 <= st.currentStep))
        decreases |st.plan| - st.currentStep, if route == Continue then 1 else 0
      {
        var passed;
        ghost var logged;
        passed, logged := StepPass(st0, st, steps);
        if passed.Raised? {
          outcome := passed;
          break;
        }
        st, steps, outcome := passed.state, logged, passed;
        route := ShouldContinue(st);
      }
      StepsLoggedNoCompletion(steps, st.plan, st.stepOutputs, st.verificationResults);
      if outcome.Raised? {
        assert st0.plan == [] ==> st.stepOutputs == [] && steps == [];
        NoCompletionConcat(steps, events[|e0| + |steps|..]);
        assert events[|e0|..] == steps + events[|e0| + |steps|..];
      } else if route == Finish {
        outcome := GenerateFinalOutput(st);
        if outcome.Raised? {
          assert events[|e0|..] == steps;
        }
      } else {
        assert events[|e0|..] == steps;
      }
    }

    /** The graph after create_plan, whose one event `events[|e0|]` is already
        logged: the step loop, with the whole log of a completed run stated. */
    method AfterPlan(st: StepChainState, ghost e0: seq<EventData>) returns (outcome: NodeResult)
      requires st.currentStep == 0 && st.stepOutputs == [] && st.verificationResults == []
      requires st.finalOutput.None? && (st.error.None? || st.plan == [])
      requires |events| == |e0| + 1 && events[..|e0|] == e0 && !events[|e0|].RunCompleted?
      requires st.error.None? ==> events[|e0|] == PlanCreated(st.plan, |st.plan|)
      modifies this`run, this`events, this`used, this`prompts, this`clock
      ensures run.runId == old(run.runId) && run.problem == old(run.problem)
      ensures |events| >= |old(events)| && events[..|old(events)|] == old(events)
      ensures st.plan == [] ==> outcome == Raised(IndexError) && events == old(events)
      ensures outcome.Next? ==>
                && st.error.None? && outcome.state.plan == st.plan && outcome.state.finalOutput.Some?
                && run.status == Completed && run.finalOutput == outcome.state.finalOutput
                && run.totalSteps == old(run.totalSteps)
                && CompletedLog(events[|e0|..], Snapshot(st.plan, outcome.state.stepOutputs,
                                outcome.state.verificationResults), outcome.state.finalOutput.value)
                && used == old(used) + 1 + 2 * |st.plan|
      ensures outcome.Raised? ==> NoCompletion(events[|e0|..])
    {
      ghost var e1 := events;
      ghost var head := events[|e0|..];
      assert e1 == e0 + head;
      ghost var steps;
      outcome, steps := StepLoop(st);
      ghost var tail := events[|e1|..];
      assert events == e0 + head + tail;
      assert events[|e0|..] == head + tail;
      if outcome.Next? {
        assert st.error.None?;
        var fin := outcome.state;
        CompletedFromLog(fin.plan, steps, fin.stepOutputs, fin.verificationResults, fin.finalOutput.value);
        assert tail == steps + [RunCompleted(fin.finalOutput.value)];
        assert events[|e0|..] == [PlanCreated(fin.plan, |fin.plan|)] + steps + [RunCompleted(fin.finalOutput.value)];
      } else {
        NoCompletionConcat(head, tail);
      }
    }

    /** `graph.ainvoke`: create_plan, then the step loop. After a plan that
        could not be decoded the fixed edge still enters execute_step, which
        does nothing on the empty plan, and verify_step raises on `plan[0]`. */
    method Graph(problem: string) returns (outcome: NodeResult, ghost decoded: Result<seq<Step>, string>)
      modifies this`run, this`events, this`used, this`prompts, this`clock
      ensures run.runId == old(run.runId) && run.problem == old(run.problem)
      ensures |events| >= |old(events)| && events[..|old(events)|] == old(events)
      ensures ReplyAt(old(used)).Ok? ==> decoded == Decode(decoding, PlanText(ReplyAt(old(used)).value))
      ensures outcome.Next? ==>
                && ReplyAt(old(used)).Ok? && decoded == Ok(outcome.state.plan)
                && outcome.state.finalOutput.Some? && run.status == Completed
                && run.finalOutput == outcome.state.finalOutput && run.totalSteps == |outcome.state.plan|
                && CompletedLog(events[|old(events)|..], Snapshot(outcome.state.plan, outcome.state.stepOutputs,
                                outcome.state.verificationResults), outcome.state.finalOutput.value)
                && used == old(used) + 2 + 2 * |outcome.state.plan|
      ensures outcome.Raised? ==> NoCompletion(events[|old(events)|..])
      ensures ReplyAt(old(used)).Err? ==>
                outcome == Raised(ModelError(ReplyAt(old(used)).error)) && events == old(events)
      ensures ReplyAt(old(used)).Ok? && decoded.Err? ==>
                outcome == Raised(IndexError) && events == old(events) + [RunFailed(decoded.error)]
      ensures ReplyAt(old(used)).Ok? && decoded == Ok([]) ==>
                outcome == Raised(IndexError) && events == old(events) + [PlanCreated([], 0)]
    {
      ghost var e0 := events;
      var st := InitialState(run.runId, problem);
      outcome, decoded := CreatePlan(st);
      if outcome.Raised? {
        return;
      }
      outcome := AfterPlan(outcome.state, e0);
    }

    /** The `state_data` write after the graph has finished. */
    method SaveState(snapshot: Snapshot)
      modifies this`run, this`clock
      ensures run == old(run).(stateData := Some(snapshot), updatedAt := old(clock)) && clock == old(clock) + 1
    {
      ApplyOne(run, Assignment(StateDataField, SnapshotValue(snapshot)));
      UpdateRun([Assignment(StateDataField, SnapshotValue(snapshot))]);
    }

    /** The handler of `run`: report the exception as a `run_failed` event and
        store it as the run's error. */
    method ReportFailure(text: string)
      modifies this`run, this`events, this`clock
      ensures events == old(events) + [RunFailed(text)]
      ensures run == old(run).(status := Failed, error := Some(text), updatedAt := old(clock)) && clock == old(clock) + 1
    {
      EmitEvent(RunFailed(text));
      ApplyTwo(run, Assignment(StatusField, StatusValue(Failed)), Assignment(ErrorField, TextValue(text)));
      UpdateRun([Assignment(StatusField, StatusValue(Failed)), Assignment(ErrorField, TextValue(text))]);
    }

    /** `run`: invoke the graph, then store the plan, outputs and verification
        results of the final state; an exception escaping any node is reported
        as a `run_failed` event and stored as the run's error. */
    method Run(problem: string) returns (ghost decoded: Result<seq<Step>, string>)
      modifies this`run, this`events, this`used, this`prompts, this`clock
      ensures run.runId == old(run.runId) && run.problem == old(run.problem)
      ensures |events| > |old(events)| && events[..|old(events)|] == old(events)
      ensures run.status == Completed || run.status == Failed
      // `decoded` is what `json.loads` made of the plan text of the first reply.
      ensures ReplyAt(old(used)).Ok? ==> decoded == Decode(decoding, PlanText(ReplyAt(old(used)).value))
      // A completed run executed and verified every step of the decoded plan, in order.
      ensures run.status == Completed ==>
                && run.stateData.Some? && run.finalOutput.Some?
                && ReplyAt(old(used)).Ok? && decoded == Ok(run.stateData.value.plan)
                && run.totalSteps == |run.stateData.value.plan|
                && CompletedLog(events[|old(events)|..], run.stateData.value, run.finalOutput.value)
                && used == old(used) + 2 + 2 * |run.stateData.value.plan|
      // A failed run ends with the event reporting the stored error and never completed.
      ensures run.status == Failed ==>
                && run.error.Some? && events[|events| - 1] == RunFailed(run.error.value)
                && NoCompletion(events[|old(events)|..])
      // The planning call itself failed: one failure event.
      ensures ReplyAt(old(used)).Err? ==>
                && events == old(events) + [RunFailed(ReplyAt(old(used)).error)]
                && run.status == Failed && run.error == Some(ReplyAt(old(used)).error)
      // The plan could not be decoded: `create_plan` reports it, then `verify_step`
      // indexes the empty plan and the handler reports the IndexError as well.
      ensures ReplyAt(old(used)).Ok? && decoded.Err? ==>
                && events == old(events) + [RunFailed(decoded.error), RunFailed(IndexErrorText)]
                && run.status == Failed && run.error == Some(IndexErrorText)
      // An empty plan is announced, then fails the same way.
      ensures ReplyAt(old(used)).Ok? && decoded == Ok([]) ==>
                && events == old(events) + [PlanCreated([], 0), RunFailed(IndexErrorText)]
                && run.status == Failed && run.error == Some(IndexErrorText)
    {
      var outcome;
      outcome, decoded := Graph(problem);
      ghost var e1 := events;
      match outcome
      case Next(final) =>
        var snap := Snapshot(final.plan, final.stepOutputs, final.verificationResults);
        SaveState(snap);
        assert run.stateData == Some(snap) && run.status == Completed;
        assert events == e1;
      case Raised(e) =>
        ReportFailure(ExceptionText(e));
        assert run.status == Failed && run.error == Some(ExceptionText(e));
        assert events == e1 + [RunFailed(ExceptionText(e))];
        NoCompletionConcat(e1[|old(events)|..], [RunFailed(ExceptionText(e))]);
        assert events[|old(events)|..] == e1[|old(events)|..] + [RunFailed(ExceptionText(e))];
    }
  }
}
