/** The web client's view of a run: the handler that folds each streamed event into
    the page state (`runStatus`, `currentStep`, `plan`, `finalOutput`, `error`,
    `isRunning` and the event list), and the label and icon shown for an event type.
    JavaScript values the handler reads from an event are modelled by `JsValue`;
    reading a missing key gives `undefined`, and spreading `null` gives an object
    with no keys. */
module Client {
  import opened Wrappers
  import opened Protocol
  import opened Runner

  /** The JavaScript values that appear in the page state. */
  datatype JsValue = Undefined | Null | Number(n: int) | Text(s: string) | Steps(steps: seq<Step>)

  /** The event types the handler's `switch` distinguishes; any other type string
      falls to its `default` branch. */
  datatype Kind = PlanCreatedKind | StepStartedKind | StepOutputKind | VerifyPassKind
                | VerifyFailKind | RunCompletedKind | RunFailedKind | OtherKind(name: string)

  /** The `switch (eventData.type)` comparison of a type string with each case label. */
  function KindOf(t: string): (k: Kind)
    ensures k.OtherKind? <==> t !in KnownTypes()
    ensures k.OtherKind? ==> k.name == t
  {
    if t == "plan_created" then PlanCreatedKind
    else if t == "step_started" then StepStartedKind
    else if t == "step_output" then StepOutputKind
    else if t == "verify_pass" then VerifyPassKind
    else if t == "verify_fail" then VerifyFailKind
    else if t == "run_completed" then RunCompletedKind
    else if t == "run_failed" then RunFailedKind
    else OtherKind(t)
  }

  /** The keys of `eventData.data` the handler reads; any other key is `OtherKey`. */
  datatype Key = PlanKey | TotalStepsKey | StepNumberKey | DescriptionKey | OutputKey
               | ReasonKey | FinalOutputKey | ErrorKey | OtherKey(name: string)

  /** A parsed event: `{ts, type, data}` with `data` an object, its type already
      compared with the case labels. */
  datatype Payload = Payload(ts: nat, kind: Kind, data: map<Key, JsValue>)

  /** `obj.key`: `undefined` when the key is missing. */
  function Prop(data: map<Key, JsValue>, key: Key): JsValue
  {
    if key in data then data[key] else Undefined
  }

  /** The `data` object the runner stores for each event type. */
  function Fields(e: EventData): map<Key, JsValue>
  {
    match e
    case PlanCreated(plan, n) => map[PlanKey := Steps(plan), TotalStepsKey := Number(n)]
    case StepStarted(k, d) => map[StepNumberKey := Number(k), DescriptionKey := Text(d)]
    case StepOutput(k, o) => map[StepNumberKey := Number(k), OutputKey := Text(o)]
    case VerifyPass(k) => map[StepNumberKey := Number(k)]
    case VerifyFail(k, r) => map[StepNumberKey := Number(k), ReasonKey := Text(r)]
    case RunCompleted(f) => map[FinalOutputKey := Text(f)]
    case RunFailed(m) => map[ErrorKey := Text(m)]
  }

  /** The case label an event's stored type matches. */
  function KindOfEvent(e: EventData): Kind
  {
    match e
    case PlanCreated(_, _) => PlanCreatedKind
    case StepStarted(_, _) => StepStartedKind
    case StepOutput(_, _) => StepOutputKind
    case VerifyPass(_) => VerifyPassKind
    case VerifyFail(_, _) => VerifyFailKind
    case RunCompleted(_) => RunCompletedKind
    case RunFailed(_) => RunFailedKind
  }

  /** The stored type string of an event matches the case label of its kind. */
  lemma KindOfEventMatches(e: EventData)
    ensures KindOfEvent(e) == KindOf(TypeName(e))
  {
  }

  /** The event as the client parses it from the stream. */
  function Wire(ts: nat, e: EventData): Payload
  {
    Payload(ts, KindOfEvent(e), Fields(e))
  }

  /** `runStatus`: each key may be absent (a spread of `null` has none). */
  datatype StatusView = StatusView(status: Option<string>, currentStepIndex: Option<int>, totalSteps: JsValue)

  /** `currentStep`: each key may be absent. */
  datatype StepView = StepView(stepNumber: JsValue, description: JsValue, output: JsValue,
                               verification: JsValue, verificationReason: JsValue)

  /** `{...prev}` for the current step. */
  function SpreadStep(prev: Option<StepView>): StepView
  {
    match prev
    case None => StepView(Undefined, Undefined, Undefined, Undefined, Undefined)
    case Some(v) => v
  }

  /** `{...prev}` for the run status. */
  function SpreadStatus(prev: Option<StatusView>): StatusView
  {
    match prev
    case None => StatusView(None, None, Undefined)
    case Some(v) => v
  }

  /** `(prev?.current_step_index || 0) + 1`: a missing index (or 0) counts as 0. */
  function NextIndex(prev: Option<StatusView>): (n: int)
    ensures prev.None? || prev.value.currentStepIndex.None? ==> n == 1
    ensures prev.Some? && prev.value.currentStepIndex.Some? ==> n == prev.value.currentStepIndex.value + 1
  {
    var current := if prev.Some? && prev.value.currentStepIndex.Some? then prev.value.currentStepIndex.value else 0;
    (if current != 0 then current else 0) + 1
  }

  /** The page state, and whether the event stream is still open. */
  datatype AppState = AppState(
    isRunning: bool,
    runStatus: Option<StatusView>,
    events: seq<Payload>,
    currentStep: Option<StepView>,
    plan: JsValue,
    finalOutput: JsValue,
    error: JsValue,
    streamOpen: bool)

  /** The state `handleRun` resets to before the stream is opened. */
  function Reset(): AppState
  {
    AppState(true, None, [], None, Steps([]), Null, Null, true)
  }

  predicate IsTerminalKind(kind: Kind)
  {
    kind == RunCompletedKind || kind == RunFailedKind
  }

  /** What one parsed event does to the page state. */
  function Handle(s: AppState, p: Payload): AppState
  {
    var s := s.(events := s.events + [p]);
    var d := p.data;
    match p.kind
    case PlanCreatedKind =>
      s.(plan := Prop(d, PlanKey), runStatus := Some(StatusView(Some("running"), Some(0), Prop(d, TotalStepsKey))))
    case StepStartedKind =>
      s.(currentStep := Some(StepView(Prop(d, StepNumberKey), Prop(d, DescriptionKey), Null, Null, Undefined)))
    case StepOutputKind =>
      s.(currentStep := Some(SpreadStep(s.currentStep).(output := Prop(d, OutputKey))))
    case VerifyPassKind =>
      s.(currentStep := Some(SpreadStep(s.currentStep).(verification := Text("pass"))),
         runStatus := Some(SpreadStatus(s.runStatus).(currentStepIndex := Some(NextIndex(s.runStatus)))))
    case VerifyFailKind =>
      s.(currentStep := Some(SpreadStep(s.currentStep).(verification := Text("fail"), verificationReason := Prop(d, ReasonKey))))
    case RunCompletedKind =>
      s.(finalOutput := Prop(d, FinalOutputKey), runStatus := Some(SpreadStatus(s.runStatus).(status := Some("completed"))),
         isRunning := false, streamOpen := false)
    case RunFailedKind =>
      s.(error := Prop(d, ErrorKey), runStatus := Some(SpreadStatus(s.runStatus).(status := Some("failed"))),
         isRunning := false, streamOpen := false)
    case OtherKind(_) =>
      s
  }

  /** Every event is appended to the list; an unknown type changes nothing else;
      only the two terminal types stop the run and close the stream; the plan, the
      final output and the error each change only on their own event type. */
  lemma HandleFrame(s: AppState, p: Payload)
    ensures Handle(s, p).events == s.events + [p]
    ensures p.kind.OtherKind? ==> Handle(s, p) == s.(events := s.events + [p])
    ensures Handle(s, p).isRunning == (s.isRunning && !IsTerminalKind(p.kind))
    ensures Handle(s, p).streamOpen == (s.streamOpen && !IsTerminalKind(p.kind))
    ensures p.kind != PlanCreatedKind ==> Handle(s, p).plan == s.plan
    ensures p.kind != RunCompletedKind ==> Handle(s, p).finalOutput == s.finalOutput
    ensures p.kind != RunFailedKind ==> Handle(s, p).error == s.error
  {
  }

  /** The step events. `plan_created` shows the plan and a running status at step 0
      of the announced total. `step_started` replaces the current step with the new
      number and description and no output or verification. `step_output`,
      `verify_pass` and `verify_fail` each set their own keys of the current step and
      keep its other keys as they were (absent when there was no current step). Only
      `verify_pass` moves the step index, by one from the previous index or from 0
      when there is none, keeping the status and the total; no other event touches
      the current step. */
  lemma HandleSteps(s: AppState, p: Payload)
    ensures p.kind == PlanCreatedKind ==>
              Handle(s, p).plan == Prop(p.data, PlanKey)
              && Handle(s, p).runStatus == Some(StatusView(Some("running"), Some(0), Prop(p.data, TotalStepsKey)))
    ensures p.kind == StepStartedKind ==>
              var c := Handle(s, p).currentStep.value;
              && c.stepNumber == Prop(p.data, StepNumberKey) && c.description == Prop(p.data, DescriptionKey)
              && c.output == Null && c.verification == Null && c.verificationReason == Undefined
    ensures p.kind == StepOutputKind ==>
              var c, v := Handle(s, p).currentStep.value, SpreadStep(s.currentStep);
              && c.output == Prop(p.data, OutputKey)
              && c.stepNumber == v.stepNumber && c.description == v.description
              && c.verification == v.verification && c.verificationReason == v.verificationReason
    ensures p.kind == VerifyPassKind ==>
              var c, v := Handle(s, p).currentStep.value, SpreadStep(s.currentStep);
              && c.verification == Text("pass")
              && c.stepNumber == v.stepNumber && c.description == v.description
              && c.output == v.output && c.verificationReason == v.verificationReason
    ensures p.kind == VerifyFailKind ==>
              var c, v := Handle(s, p).currentStep.value, SpreadStep(s.currentStep);
              && c.verification == Text("fail") && c.verificationReason == Prop(p.data, ReasonKey)
              && c.stepNumber == v.stepNumber && c.description == v.description && c.output == v.output
    ensures p.kind == VerifyPassKind ==>
              var r, v := Handle(s, p).runStatus.value, SpreadStatus(s.runStatus);
              && r.currentStepIndex == Some(NextIndex(s.runStatus))
              && r.status == v.status && r.totalSteps == v.totalSteps
    ensures IsStepKind(p.kind) && p.kind != VerifyPassKind ==> Handle(s, p).runStatus == s.runStatus
    ensures !IsStepKind(p.kind) ==> Handle(s, p).currentStep == s.currentStep
  {
  }

  /** The events the browser hands to the handler, one after another, until the
      handler closes the stream; later events are not delivered. */
  function Deliver(s: AppState, ps: seq<Payload>): AppState
    decreases |ps|
  {
    if ps == [] || !s.streamOpen then s else Deliver(Handle(s, ps[0]), ps[1..])
  }

  /** The state of the `App` component that the stream handler updates. */
  class App {
    var isRunning: bool
    var runStatus: Option<StatusView>
    var events: seq<Payload>
    var currentStep: Option<StepView>
    var plan: JsValue
    var finalOutput: JsValue
    var error: JsValue
    var streamOpen: bool

    function State(): AppState
      reads this
    {
      AppState(isRunning, runStatus, events, currentStep, plan, finalOutput, error, streamOpen)
    }

    /** `handleRun`'s reset, followed by opening the stream. */
    constructor ()
      ensures State() == Reset()
    {
      isRunning := true;
      runStatus := None;
      events := [];
      currentStep := None;
      plan := Steps([]);
      finalOutput := Null;
      error := Null;
      streamOpen := true;
    }

    /** `eventSource.onmessage`. `raw` is the parsed `event.data`, `None` when
        `JSON.parse` throws; the error is logged and nothing changes. */
    method OnMessage(raw: Option<Payload>)
      requires streamOpen
      modifies this
      ensures raw.None? ==> State() == old(State())
      ensures raw.Some? ==> State() == Handle(old(State()), raw.value)
    {
      if raw.None? {
        return;
      }
      var p := raw.value;
      var d := p.data;
      events := events + [p];
      match p.kind {
        case PlanCreatedKind =>
          plan := Prop(d, PlanKey);
          runStatus := Some(StatusView(Some("running"), Some(0), Prop(d, TotalStepsKey)));
        case StepStartedKind =>
          currentStep := Some(StepView(Prop(d, StepNumberKey), Prop(d, DescriptionKey), Null, Null, Undefined));
        case StepOutputKind =>
          currentStep := Some(SpreadStep(currentStep).(output := Prop(d, OutputKey)));
        case VerifyPassKind =>
          currentStep := Some(SpreadStep(currentStep).(verification := Text("pass")));
          var index := if runStatus.Some? && runStatus.value.currentStepIndex.Some? then runStatus.value.currentStepIndex.value else 0;
          runStatus := Some(SpreadStatus(runStatus).(currentStepIndex := Some((if index != 0 then index else 0) + 1)));
        case VerifyFailKind =>
          currentStep := Some(SpreadStep(currentStep).(verification := Text("fail"), verificationReason := Prop(d, ReasonKey)));
        case RunCompletedKind =>
          finalOutput := Prop(d, FinalOutputKey);
          runStatus := Some(SpreadStatus(runStatus).(status := Some("completed")));
          isRunning := false;
          streamOpen := false;
        case RunFailedKind =>
          error := Prop(d, ErrorKey);
          runStatus := Some(SpreadStatus(runStatus).(status := Some("failed")));
          isRunning := false;
          streamOpen := false;
        case OtherKind(_) =>
      }
    }
  }

  lemma {:induction false} DeliverAppend(s: AppState, a: seq<Payload>, b: seq<Payload>)
    ensures Deliver(s, a + b) == Deliver(Deliver(s, a), b)
    decreases |a|
  {
    if a == [] {
      assert a + b == b;
    } else if s.streamOpen {
      assert (a + b)[0] == a[0] && (a + b)[1..] == a[1..] + b;
      DeliverAppend(Handle(s, a[0]), a[1..], b);
    } else {
      if b != [] {
        assert Deliver(s, b) == s;
      }
    }
  }

  /** `ps` are the wire forms of `evs`, with whatever timestamps. */
  predicate WireOf(ps: seq<Payload>, evs: seq<EventData>)
  {
    |ps| == |evs| && forall k :: 0 <= k < |ps| ==> ps[k] == Wire(ps[k].ts, evs[k])
  }

  /** The number of verified steps. */
  function Passes(results: seq<bool>): nat
  {
    if results == [] then 0 else Passes(results[..|results| - 1]) + (if results[|results| - 1] then 1 else 0)
  }

  /** The event kinds a step produces. */
  predicate IsStepKind(k: Kind)
  {
    k == StepStartedKind || k == StepOutputKind || k == VerifyPassKind || k == VerifyFailKind
  }

  /** The number of `verify_pass` events. */
  function PassEvents(ps: seq<Payload>): nat
  {
    if ps == [] then 0 else (if ps[0].kind == VerifyPassKind then 1 else 0) + PassEvents(ps[1..])
  }

  lemma {:induction false} PassEventsAppend(a: seq<Payload>, b: seq<Payload>)
    ensures PassEvents(a + b) == PassEvents(a) + PassEvents(b)
    decreases |a|
  {
    if a == [] {
      assert a + b == b;
    } else {
      assert (a + b)[1..] == a[1..] + b;
      PassEventsAppend(a[1..], b);
    }
  }

  /** Step events keep the run `running` and move the step index on once per
      `verify_pass`, leaving the plan, the final output and the error alone. */
  lemma {:induction false} StepEventsFold(s: AppState, ps: seq<Payload>, index: int, total: JsValue)
    requires s.streamOpen && s.runStatus == Some(StatusView(Some("running"), Some(index), total))
    requires forall k :: 0 <= k < |ps| ==> IsStepKind(ps[k].kind)
    ensures var r := Deliver(s, ps);
      && r.streamOpen && r.isRunning == s.isRunning
      && r.runStatus == Some(StatusView(Some("running"), Some(index + PassEvents(ps)), total))
      && r.events == s.events + ps
      && r.plan == s.plan && r.finalOutput == s.finalOutput && r.error == s.error
    decreases |ps|
  {
    if ps != [] {
      var s1 := Handle(s, ps[0]);
      var step := if ps[0].kind == VerifyPassKind then 1 else 0;
      assert s1.runStatus == Some(StatusView(Some("running"), Some(index + step), total));
      StepEventsFold(s1, ps[1..], index + step, total);
      assert s.events + [ps[0]] + ps[1..] == s.events + ps;
    }
  }

  /** A run's step log is made of step events, with one `verify_pass` per verified step. */
  lemma {:induction false} StepLogPasses(ps: seq<Payload>, evs: seq<EventData>, plan: seq<Step>,
                                         outputs: seq<string>, results: seq<bool>)
    requires StepsLogged(evs, plan, outputs, results) && WireOf(ps, evs)
    ensures forall k :: 0 <= k < |ps| ==> IsStepKind(ps[k].kind)
    ensures PassEvents(ps) == Passes(results)
    decreases |outputs|
  {
    if outputs == [] {
      assert ps == [];
    } else {
      var n := |ps| - 3;
      WireOfSplit(ps, evs, n);
      StepLogPasses(ps[..n], evs[..n], plan, outputs[..|outputs| - 1], results[..|results| - 1]);
      var t := ps[n..];
      var passed := results[|results| - 1];
      assert evs[n..] == evs[|evs| - 3..];
      assert StepLogged(evs[n..], plan[|outputs| - 1], outputs[|outputs| - 1], passed);
      assert t[0].kind == StepStartedKind && t[1].kind == StepOutputKind;
      assert t[2].kind == if passed then VerifyPassKind else VerifyFailKind;
      assert t[1..][1..][1..] == [];
      assert PassEvents(t[1..][1..]) == if passed then 1 else 0;
      assert PassEvents(t) == if passed then 1 else 0;
      PassEventsAppend(ps[..n], t);
      assert ps[..n] + t == ps;
      forall k | 0 <= k < |ps|
        ensures IsStepKind(ps[k].kind)
      {
        if k >= n {
          assert ps[k] == t[k - n];
        }
      }
    }
  }

  lemma WireOfSplit(ps: seq<Payload>, evs: seq<EventData>, n: nat)
    requires WireOf(ps, evs) && n <= |ps|
    ensures WireOf(ps[..n], evs[..n]) && WireOf(ps[n..], evs[n..])
  {
    assert forall k :: 0 <= k < n ==> ps[..n][k] == ps[k];
    assert forall k :: 0 <= k < |ps| - n ==> ps[n..][k] == ps[n + k];
  }

  /** A completed run, streamed to a freshly reset page: the page shows the plan, the
      run `completed` with as many steps counted as were verified, out of the plan's
      length, and the final output; it is no longer running, and it has listed every
      event of the run. Whatever the stream sends after `run_completed` (the runner
      can still emit `run_failed` if saving the snapshot fails) is not delivered. */
  lemma ClientSeesCompletedRun(ps: seq<Payload>, evs: seq<EventData>, snap: Snapshot, finalOutput: string,
                               later: seq<Payload>)
    requires CompletedLog(evs, snap, finalOutput) && WireOf(ps, evs)
    ensures var r := Deliver(Reset(), ps + later);
      && !r.isRunning && !r.streamOpen
      && r.runStatus == Some(StatusView(Some("completed"), Some(Passes(snap.verificationResults)), Number(|snap.plan|)))
      && r.plan == Steps(snap.plan)
      && r.finalOutput == Text(finalOutput)
      && r.error == Null
      && r.events == ps
  {
    var n := |ps|;
    var first, steps, last := ps[0], ps[1..n - 1], ps[n - 1];
    CompletedSteps(ps, evs, snap, finalOutput);
    var s1 := Handle(Reset(), first);
    var s2 := Deliver(s1, steps);
    CompletionEndsRun(s2, last.ts, finalOutput, later);
    SplitEnds(ps, later);
    calc {
      Deliver(Reset(), ps + later);
      { DeliverOne(Reset(), first, steps + ([last] + later)); }
      Deliver(s1, steps + ([last] + later));
      { DeliverAppend(s1, steps, [last] + later); }
      Deliver(s2, [last] + later);
    }
  }

  /** The part of a completed run before `run_completed`: the page is still open,
      shows the plan and counts one step per `verify_pass`. */
  lemma CompletedSteps(ps: seq<Payload>, evs: seq<EventData>, snap: Snapshot, finalOutput: string)
    requires CompletedLog(evs, snap, finalOutput) && WireOf(ps, evs)
    ensures |ps| >= 2
    ensures ps[|ps| - 1] == Wire(ps[|ps| - 1].ts, RunCompleted(finalOutput))
    ensures var r := Deliver(Handle(Reset(), ps[0]), ps[1..|ps| - 1]);
      && r.streamOpen && r.isRunning
      && r.runStatus == Some(StatusView(Some("running"), Some(Passes(snap.verificationResults)), Number(|snap.plan|)))
      && r.plan == Steps(snap.plan)
      && r.finalOutput == Null && r.error == Null
      && r.events == ps[..|ps| - 1]
  {
    var n := |ps|;
    var first, steps := ps[0], ps[1..n - 1];
    assert first == Wire(first.ts, PlanCreated(snap.plan, |snap.plan|));
    var s1 := Handle(Reset(), first);
    assert s1 == Reset().(events := [first], plan := Steps(snap.plan),
                          runStatus := Some(StatusView(Some("running"), Some(0), Number(|snap.plan|))));
    assert WireOf(steps, evs[1..|evs| - 1]);
    StepLogPasses(steps, evs[1..|evs| - 1], snap.plan, snap.stepOutputs, snap.verificationResults);
    StepEventsFold(s1, steps, 0, Number(|snap.plan|));
    assert [first] + steps == ps[..n - 1];
  }

  lemma SplitEnds(ps: seq<Payload>, later: seq<Payload>)
    requires |ps| >= 2
    ensures ps + later == [ps[0]] + (ps[1..|ps| - 1] + ([ps[|ps| - 1]] + later))
    ensures ps == [ps[0]] + ps[1..|ps| - 1] + [ps[|ps| - 1]]
  {
  }

  /** `run_completed` on an open stream: the page shows the run completed with the
      final output, stops running and takes no further events. */
  lemma CompletionEndsRun(s: AppState, ts: nat, finalOutput: string, later: seq<Payload>)
    requires s.streamOpen
    ensures var last := Wire(ts, RunCompleted(finalOutput));
      var r := Deliver(s, [last] + later);
      && !r.isRunning && !r.streamOpen
      && r.runStatus == Some(SpreadStatus(s.runStatus).(status := Some("completed")))
      && r.finalOutput == Text(finalOutput)
      && r.plan == s.plan && r.error == s.error
      && r.events == s.events + [last]
  {
    var last := Wire(ts, RunCompleted(finalOutput));
    DeliverOne(s, last, later);
    ClosedIgnores(Handle(s, last), later);
  }

  /** An open stream hands the next event to the handler. */
  lemma DeliverOne(s: AppState, p: Payload, rest: seq<Payload>)
    requires s.streamOpen
    ensures Deliver(s, [p] + rest) == Deliver(Handle(s, p), rest)
  {
    assert ([p] + rest)[1..] == rest;
  }

  /** A closed stream delivers nothing more. */
  lemma ClosedIgnores(s: AppState, rest: seq<Payload>)
    requires !s.streamOpen
    ensures Deliver(s, rest) == s
  {
  }

  /** Any stream of non-terminal events followed by `run_failed`: the page shows the
      run `failed` with the error, stops running, and takes no further events. */
  lemma ClientSeesFailure(s: AppState, ps: seq<Payload>, ts: nat, message: string, later: seq<Payload>)
    requires s.streamOpen
    requires forall k :: 0 <= k < |ps| ==> !IsTerminalKind(ps[k].kind)
    ensures var r := Deliver(s, ps + [Wire(ts, RunFailed(message))] + later);
      && !r.isRunning && !r.streamOpen
      && r.runStatus.Some? && r.runStatus.value.status == Some("failed")
      && r.error == Text(message)
      && r.events == s.events + ps + [Wire(ts, RunFailed(message))]
  {
    DeliverOpen(s, ps);
    var s1 := Deliver(s, ps);
    var f := Wire(ts, RunFailed(message));
    var s2 := Handle(s1, f);
    assert Deliver(s1, [f]) == s2 by {
      assert [f][1..] == [];
    }
    DeliverAppend(s, ps, [f]);
    DeliverAppend(s, ps + [f], later);
    if later != [] {
      assert Deliver(s2, later) == s2;
    }
  }

  /** Non-terminal events keep the stream open and are all listed. */
  lemma {:induction false} DeliverOpen(s: AppState, ps: seq<Payload>)
    requires s.streamOpen
    requires forall k :: 0 <= k < |ps| ==> !IsTerminalKind(ps[k].kind)
    ensures Deliver(s, ps).streamOpen && Deliver(s, ps).events == s.events + ps
    decreases |ps|
  {
    if ps != [] {
      DeliverOpen(Handle(s, ps[0]), ps[1..]);
      assert s.events + [ps[0]] + ps[1..] == s.events + ps;
    }
  }

  /** `getEventLabel`: the display name of a known type, the type itself otherwise. */
  function Label(kind: string): (shown: string)
    ensures kind !in KnownTypes() ==> shown == kind
    ensures kind in KnownTypes() ==> shown != kind && shown != ""
  {
    if kind == "plan_created" then "Chain Forged"
    else if kind == "step_started" then "Link Activated"
    else if kind == "step_output" then "Data Flowing"
    else if kind == "verify_pass" then "Link Verified"
    else if kind == "verify_fail" then "Link Broken"
    else if kind == "run_completed" then "Chain Complete"
    else if kind == "run_failed" then "Chain Failed"
    else kind
  }

  /** Different known types get different labels. */
  lemma LabelsDistinct(a: string, b: string)
    requires a in KnownTypes() && b in KnownTypes() && a != b
    ensures Label(a) != Label(b)
  {
  }

  /** The chain icon of `plan_created`, also shown for unknown types. */
  const ChainIcon: string := "\U{1F517}"

  /** `getEventIcon`: one icon per known type; unknown types share the plan's chain icon. */
  function Icon(kind: string): (icon: string)
    ensures kind !in KnownTypes() || kind == "plan_created" <==> icon == ChainIcon
  {
    if kind == "plan_created" then ChainIcon
    else if kind == "step_started" then "\U{26D3}\U{FE0F}"
    else if kind == "step_output" then "\U{1F4AB}"
    else if kind == "verify_pass" then "\U{2728}"
    else if kind == "verify_fail" then "\U{1F4A5}"
    else if kind == "run_completed" then "\U{1F3AF}"
    else if kind == "run_failed" then "\U{26A0}\U{FE0F}"
    else ChainIcon
  }
}
