/**
 Why a run of the main agent ends as it does (backend/src/core/main_agent_react.py): every delivery,
 failure and cancellation told from the last visit, the model's last decision, the registry, the
 frozen texts and the numbers of the budget, over every run.
 */
module KernelEndings {
  import opened Wrappers
  import TC = TextCompare
  import MI = MainInput
  import opened Capabilities
  import opened MainDelivery
  import opened AgentBudget
  import opened ReactKernel

  /** What a run is set up from, and its world: what the outside answers at each visit. */
  datatype Setting = Setting(runId: Id, snapshot: MI.Snapshot, definitions: map<Key, Definition>, bindings: set<string>,
                             limits: Limits, deadline: real, world: nat -> Visit)
  {
    ghost predicate Valid() { MI.ValidSnapshot(snapshot) && WellKeyed(definitions) }
    ghost function Kernel(): Kernel { KernelFor(runId, snapshot, definitions, bindings) }
    ghost function Whole(): Trace { WholeRun(Kernel(), Materials(snapshot), limits, deadline, world) }
    ghost function At(j: nat): (c: Config)
      ensures Entered(c.n, c.s)
    {
      ConfigAt(Kernel(), Materials(snapshot), limits, deadline, world, j)
    }
    ghost function Turn(c: Config, v: Visit): Update
      requires c.n != End && Entered(c.n, c.s)
    {
      StepAt(Kernel(), Materials(snapshot), c.n, c.s, c.b, v)
    }
  }

  // ----- the conditions, in the terms of the request

  /** The decision is paid for: there is one left, and time. */
  predicate Paid(x: Setting, c: Config, v: Visit) {
    !v.cancelBefore && c.s.step < x.limits.decisions && v.now < x.deadline
  }

  /** The model was asked and nothing was cancelled meanwhile. */
  predicate Heard(x: Setting, c: Config, v: Visit) {
    Paid(x, c, v) && !v.cancelGranted && !v.cancelAfter
  }

  /** `id` is registered with this version, as its highest one, and is of this kind. */
  ghost predicate InUse(x: Setting, id: string, version: int, kind: CapabilityKind) {
    && (id, version) in x.definitions && x.definitions[(id, version)].kind == kind
    && forall w | (id, w) in x.definitions :: w <= version
  }

  ghost predicate Teaches(x: Setting, id: string, version: int) {
    InUse(x, id, version, Knowledge) && x.definitions[(id, version)].skill.Some?
  }

  predicate RoomToLoad(x: Setting, c: Config, v: Visit) {
    |c.s.loaded| < x.limits.knowledgeLoads && v.now < x.deadline && |c.s.observations| < 6
  }

  predicate RoomToCall(x: Setting, v: Visit) { x.limits.toolCalls > 0 && v.now < x.deadline }

  /** The question names the open sides, no other and none left out, and there is one. */
  ghost predicate AsksForTheOpen(x: Setting, names: seq<string>) {
    && (x.snapshot.textA.None? || x.snapshot.textB.None?)
    && forall name :: name in names <==> (name == "text_a" && x.snapshot.textA.None?) || (name == "text_b" && x.snapshot.textB.None?)
  }

  /** The arguments are given for exactly the declared slots, each a material id. */
  ghost predicate WellFormed(d: Definition, inputs: map<string, Option<Id>>) {
    (forall slot :: slot in inputs <==> slot in d.slots) && forall slot | slot in inputs :: inputs[slot].Some?
  }

  /** The arguments are the run's own two texts. */
  ghost predicate OwnTexts(x: Setting, inputs: map<string, Option<Id>>) {
    && x.snapshot.textA.Some? && x.snapshot.textB.Some?
    && inputs == map["text_a" := Some(x.snapshot.textA.value.id), "text_b" := Some(x.snapshot.textB.value.id)]
  }

  predicate Bound(x: Setting, d: Definition) {
    d.toolBindings != [] && d.comparisonDelivery && d.toolBindings[0] in x.bindings
  }

  /** The capability may be called, and the call is made of declared arguments. */
  ghost predicate CallAllowed(x: Setting, v: Visit, id: string, version: int, inputs: map<string, Option<Id>>) {
    InUse(x, id, version, Execution) && RoomToCall(x, v) && WellFormed(x.definitions[(id, version)], inputs)
  }

  /** The tool was called on the run's texts, returned, and the run was not cancelled meanwhile. */
  ghost predicate Called(x: Setting, v: Visit, id: string, version: int, inputs: map<string, Option<Id>>) {
    && CallAllowed(x, v, id, version, inputs) && OwnTexts(x, inputs) && Bound(x, x.definitions[(id, version)])
    && !v.tool.Raised? && !v.cancelAfter
  }

  /** What the gateway reported for the call: the comparison tool compares, another reports what it likes. */
  ghost function Report(x: Setting, v: Visit): (ToolStatus, Option<TC.Comparison>)
    requires x.snapshot.textA.Some? && x.snapshot.textB.Some?
  {
    match v.tool
    case Reported(status, output) => (status, output)
    case _ =>
      match TC.Compare(x.runId, x.snapshot.textA.value, x.snapshot.textB.value)
      case Ok(c) => (ToolOk, Some(c))
      case Err(_) => (ToolUnavailable, None)
  }

  /** The output is a valid comparison of this run's texts by this capability. */
  ghost predicate Parses(x: Setting, id: string, version: int, c: TC.Comparison)
    requires x.snapshot.textA.Some? && x.snapshot.textB.Some?
  {
    && TC.ValidComparison(c) && c.runId == x.runId && c.capabilityId == id && c.capabilityVersion == version
    && c.aMaterialId == x.snapshot.textA.value.id && c.bMaterialId == x.snapshot.textB.value.id
  }

  ghost predicate Late(x: Setting, v: Visit)
    requires x.snapshot.textA.Some? && x.snapshot.textB.Some?
  {
    Report(x, v).0 == ToolTimeout && x.deadline < v.now + 3.0
  }

  // ----- the endings

  ghost predicate EndsCanceled(x: Setting, c: Config, v: Visit) {
    || (c.n == DecideNode && (v.cancelBefore || (Paid(x, c, v) && (v.cancelGranted || v.cancelAfter))))
    || (c.n == Invoke && c.s.decision.Some? && c.s.decision.value.InvokeDecision?
        && var d := c.s.decision.value;
        CallAllowed(x, v, d.id, d.version, d.inputs) && OwnTexts(x, d.inputs)
        && Bound(x, x.definitions[(d.id, d.version)]) && !v.tool.Raised? && v.cancelAfter)
  }

  ghost predicate EndsModelUnavailable(x: Setting, c: Config, v: Visit) {
    c.n == DecideNode && Heard(x, c, v) && v.model == ModelGaveUp(true) && v.now + 30.0 <= x.deadline
  }

  ghost predicate EndsDecisionInvalid(x: Setting, c: Config, v: Visit)
    requires Entered(c.n, c.s)
  {
    match c.n
    case DecideNode => Heard(x, c, v) && v.model == ModelGaveUp(false)
    case FinalizeNeedsInput => !AsksForTheOpen(x, c.s.decision.value.slots)
    case Invoke =>
      var d := c.s.decision.value;
      InUse(x, d.id, d.version, Execution) && RoomToCall(x, v) && !WellFormed(x.definitions[(d.id, d.version)], d.inputs)
    case _ => false
  }

  ghost predicate EndsBudgetExhausted(x: Setting, c: Config, v: Visit)
    requires Entered(c.n, c.s)
  {
    match c.n
    case DecideNode =>
      || (!v.cancelBefore && !Paid(x, c, v))
      || (Heard(x, c, v) && v.model == ModelGaveUp(true) && x.deadline < v.now + 30.0)
    case LoadSkill => var d := c.s.decision.value; Teaches(x, d.id, d.version) && !RoomToLoad(x, c, v)
    case Invoke =>
      var d := c.s.decision.value;
      || (InUse(x, d.id, d.version, Execution) && !RoomToCall(x, v))
      || (Called(x, v, d.id, d.version, d.inputs) && Late(x, v))
    case _ => false
  }

  ghost predicate EndsCapabilityUnavailable(x: Setting, c: Config, v: Visit)
    requires Entered(c.n, c.s)
  {
    match c.n
    case LoadSkill =>
      var d := c.s.decision.value;
      !Teaches(x, d.id, d.version) || (RoomToLoad(x, c, v) && (d.id, d.version) in c.s.degraded)
    case Invoke =>
      var d := c.s.decision.value;
      || !InUse(x, d.id, d.version, Execution)
      || (CallAllowed(x, v, d.id, d.version, d.inputs)
          && (!OwnTexts(x, d.inputs) || !Bound(x, x.definitions[(d.id, d.version)]) || v.tool.Raised?))
    case _ => false
  }

  ghost predicate EndsToolFailed(x: Setting, c: Config, v: Visit)
    requires Entered(c.n, c.s)
  {
    && c.n == Invoke
    && var d := c.s.decision.value;
    Called(x, v, d.id, d.version, d.inputs) && Report(x, v).0 != ToolOk && !Late(x, v)
  }

  ghost predicate EndsDeliveryInvalid(x: Setting, c: Config, v: Visit)
    requires Entered(c.n, c.s)
  {
    match c.n
    case FinalizeAnswer => !v.representable
    case FinalizeNeedsInput => AsksForTheOpen(x, c.s.decision.value.slots) && !v.representable
    case Invoke =>
      var d := c.s.decision.value;
      && Called(x, v, d.id, d.version, d.inputs) && Report(x, v).0 == ToolOk
      && (Report(x, v).1.None? || !Parses(x, d.id, d.version, Report(x, v).1.value))
    case _ => false
  }

  /** An answer is the decided text, grounded in the skill loaded last, if any. */
  ghost predicate EndsWithAnswer(c: Config, v: Visit, text: string, grounding: Option<Grounding>)
    requires Entered(c.n, c.s)
  {
    && c.n == FinalizeAnswer && v.representable && text == c.s.decision.value.text
    && grounding == if c.s.loaded == [] then None
                    else
                      var last := c.s.loaded[|c.s.loaded| - 1];
                      Some(Grounding(last.id, last.version, last.skill.skillId, last.skill.skillVersion))
  }

  /** A question names the open sides, A before B. */
  ghost predicate EndsWithQuestion(x: Setting, c: Config, v: Visit, missing: seq<MI.Slot>)
    requires Entered(c.n, c.s)
  {
    && c.n == FinalizeNeedsInput && v.representable && AsksForTheOpen(x, c.s.decision.value.slots)
    && missing == if x.snapshot.textA.None? then if x.snapshot.textB.None? then [MI.TextA, MI.TextB] else [MI.TextA] else [MI.TextB]
  }

  ghost predicate EndsWithComparison(x: Setting, c: Config, v: Visit, comparison: TC.Comparison)
    requires Entered(c.n, c.s)
  {
    && c.n == Invoke
    && var d := c.s.decision.value;
    Called(x, v, d.id, d.version, d.inputs) && Report(x, v) == (ToolOk, Some(comparison)) && Parses(x, d.id, d.version, comparison)
  }

  /** After this visit the state says what happened in it. */
  ghost predicate Told(x: Setting, c: Config, v: Visit, s: State)
    requires Entered(c.n, c.s)
  {
    && (s.canceled <==> EndsCanceled(x, c, v))
    && (s.failure == Some(ModelUnavailable) <==> EndsModelUnavailable(x, c, v))
    && (s.failure == Some(ModelDecisionInvalid) <==> EndsDecisionInvalid(x, c, v))
    && (s.failure == Some(BudgetExhausted) <==> EndsBudgetExhausted(x, c, v))
    && (s.failure == Some(CapabilityUnavailable) <==> EndsCapabilityUnavailable(x, c, v))
    && (s.failure == Some(ToolFailed) <==> EndsToolFailed(x, c, v))
    && (s.failure == Some(DeliveryInvalid) <==> EndsDeliveryInvalid(x, c, v))
    && (forall text, g :: s.delivery == Some(Answer(text, g)) <==> EndsWithAnswer(c, v, text, g))
    && (forall missing :: s.delivery == Some(NeedsInput(missing)) <==> EndsWithQuestion(x, c, v, missing))
    && (forall k :: s.delivery == Some(ComparisonDelivery(k)) <==> EndsWithComparison(x, c, v, k))
  }

  // ----- one visit

  /** Before a visit nothing has ended the run, and the budget shows what was done. */
  ghost predicate Open(x: Setting, c: Config) {
    && c.n != End && Entered(c.n, c.s)
    && c.b == Budget(x.limits, x.deadline, c.s.step, |c.s.loaded|, 0)
    && c.s.delivery.None? && c.s.failure.None? && !c.s.canceled
  }

  lemma {:induction false} DecideIsTold(x: Setting, c: Config, v: Visit)
    requires x.Valid() && Open(x, c) && c.n == DecideNode
    ensures Told(x, c, v, x.Turn(c, v).s)
  {
    hide MI.ValidSnapshot, WellKeyed, InUse, OwnTexts, Materials, KernelFor;
  }

  lemma {:induction false} AnswerIsTold(x: Setting, c: Config, v: Visit)
    requires x.Valid() && Open(x, c) && c.n == FinalizeAnswer
    ensures Told(x, c, v, x.Turn(c, v).s)
  {
    hide MI.ValidSnapshot, WellKeyed, InUse, OwnTexts, Materials, KernelFor;
  }

  lemma {:induction false} AskingTheOpen(x: Setting, names: seq<string>)
    ensures var k := x.Kernel();
            k.missing != [] && ToSet(names) == SlotNames(k.missing) <==> AsksForTheOpen(x, names)
  {
    var missing := x.Kernel().missing;
    assert forall name :: name in ToSet(names) <==> name in names;
    assert MI.TextA in missing <==> x.snapshot.textA.None?;
    assert MI.TextB in missing <==> x.snapshot.textB.None?;
    forall name
      ensures name in SlotNames(missing) <==> (name == "text_a" && MI.TextA in missing) || (name == "text_b" && MI.TextB in missing)
    {
      if name == "text_a" && MI.TextA in missing { assert SlotName(MI.TextA) in SlotNames(missing); }
      if name == "text_b" && MI.TextB in missing { assert SlotName(MI.TextB) in SlotNames(missing); }
    }
  }

  lemma OpenSidesInOrder(x: Setting)
    ensures x.Kernel().missing
            == if x.snapshot.textA.None? then if x.snapshot.textB.None? then [MI.TextA, MI.TextB] else [MI.TextA]
               else if x.snapshot.textB.None? then [MI.TextB] else []
  {
  }

  lemma {:induction false} QuestionIsTold(x: Setting, c: Config, v: Visit)
    requires x.Valid() && Open(x, c) && c.n == FinalizeNeedsInput
    ensures Told(x, c, v, x.Turn(c, v).s)
  {
    AskingTheOpen(x, c.s.decision.value.slots);
    OpenSidesInOrder(x);
    hide MI.ValidSnapshot, WellKeyed, InUse, OwnTexts, Materials, ToSet, SlotNames, AsksForTheOpen, MissingSides;
  }

  lemma {:induction false} ResolvedIffInUse(x: Setting, id: string, version: int, kind: CapabilityKind)
    requires WellKeyed(x.definitions)
    ensures var r := Resolve(x.definitions, id, version, Some(kind));
            && (r.Resolved? <==> InUse(x, id, version, kind))
            && (r.Resolved? ==> r.definition == x.definitions[(id, version)])
            && r.ActualKind(kind) == if (id, version) in x.definitions then x.definitions[(id, version)].kind else kind
  {
    if (id, version) in x.definitions {
      if InUse(x, id, version, kind) {
        forall k | k in x.definitions && k.0 == id ensures k.1 <= version { assert (id, k.1) in x.definitions; }
      } else if Active(x.definitions, id, version) {
        forall w | (id, w) in x.definitions ensures w <= version { assert (id, w).1 <= version; }
      }
    }
  }

  lemma {:induction false} LoadIsTold(x: Setting, c: Config, v: Visit)
    requires x.Valid() && Open(x, c) && c.n == LoadSkill
    ensures Told(x, c, v, x.Turn(c, v).s)
  {
    var d := c.s.decision.value;
    ResolvedIffInUse(x, d.id, d.version, Knowledge);
    hide MI.ValidSnapshot, WellKeyed, InUse, OwnTexts, Materials, Resolve;
    var s := x.Turn(c, v).s;
    assert s.delivery.None?;
    assert !s.canceled && !EndsCanceled(x, c, v);
    assert s.failure == Some(BudgetExhausted) <==> EndsBudgetExhausted(x, c, v);
    assert s.failure == Some(CapabilityUnavailable) <==> EndsCapabilityUnavailable(x, c, v);
    assert s.failure.None? || s.failure == Some(BudgetExhausted) || s.failure == Some(CapabilityUnavailable);
  }

  // ----- a call

  lemma {:induction false} OwnTextsMatch(x: Setting, d: Definition, inputs: map<string, Option<Id>>)
    requires forall slot | slot in inputs :: inputs[slot].Some?
    ensures InputsMatch(x.Kernel(), inputs) && Callable(x.Kernel(), d, inputs) <==> OwnTexts(x, inputs) && Bound(x, d)
  {
    var k := x.Kernel();
    if InputsMatch(k, inputs) && Callable(k, d, inputs) {
      assert Reference(k, "text_a") == inputs["text_a"] && Reference(k, "text_b") == inputs["text_b"];
      forall slot | slot in inputs
        ensures slot == "text_a" || slot == "text_b"
      {
        assert Reference(k, slot).Some?;
      }
      assert inputs == map["text_a" := inputs["text_a"], "text_b" := inputs["text_b"]];
    }
  }

  lemma {:induction false} GatewayReports(x: Setting, d: Definition, v: Visit)
    requires x.Valid() && x.snapshot.textA.Some? && x.snapshot.textB.Some? && !v.tool.Raised?
    ensures ToolOutcome(x.Kernel(), Materials(x.snapshot), d, x.snapshot.textA.value.id, x.snapshot.textB.value.id, v.tool) == Report(x, v)
  {
    assert RuleFor(x.Kernel(), d) == Some(TC.RULE_VERSION);
    ExecutesOwnTexts(x.runId, x.snapshot, x.definitions, x.bindings);
    hide Execute, TC.Compare, Materials, MI.ValidSnapshot;
  }

  lemma {:induction false} ParsesIffParses(x: Setting, d: Definition, output: Option<TC.Comparison>)
    requires x.Valid() && x.snapshot.textA.Some? && x.snapshot.textB.Some?
    ensures ParseResult(x.Kernel(), d, output, x.snapshot.textA.value.id, x.snapshot.textB.value.id)
            == if output.Some? && Parses(x, d.id, d.version, output.value) then output else None
  {
    assert RuleFor(x.Kernel(), d) == Some(TC.RULE_VERSION);
    assert output.Some? && TC.ValidComparison(output.value) ==> output.value.ruleVersion == TC.RULE_VERSION;
    hide TC.ValidComparison, MI.ValidSnapshot;
  }

  lemma {:induction false} SameSlots(d: Definition, inputs: map<string, Option<Id>>)
    ensures inputs.Keys == ToSet(d.slots) && !(exists slot | slot in inputs :: inputs[slot].None?) <==> WellFormed(d, inputs)
  {
    assert forall slot :: slot in ToSet(d.slots) <==> slot in d.slots;
    assert forall slot :: slot in inputs.Keys <==> slot in inputs;
  }

  /** How a call ends the run, condition by condition. */
  ghost function CallEnding(x: Setting, s: State, v: Visit, id: string, version: int, inputs: map<string, Option<Id>>): State {
    if !InUse(x, id, version, Execution) then s.(failure := Some(CapabilityUnavailable))
    else if !RoomToCall(x, v) then s.(failure := Some(BudgetExhausted))
    else
      var d := x.definitions[(id, version)];
      if !WellFormed(d, inputs) then s.(failure := Some(ModelDecisionInvalid))
      else if !OwnTexts(x, inputs) || !Bound(x, d) || v.tool.Raised? then s.(failure := Some(CapabilityUnavailable))
      else if v.cancelAfter then s.(canceled := true)
      else
        var (status, output) := Report(x, v);
        if status == ToolTimeout && x.deadline < v.now + 3.0 then s.(failure := Some(BudgetExhausted))
        else if status != ToolOk then s.(failure := Some(ToolFailed))
        else if output.None? || !Parses(x, id, version, output.value) then s.(failure := Some(DeliveryInvalid))
        else s.(delivery := Some(ComparisonDelivery(output.value)), used := s.used + [Use(id, version, Execution, UseOk)])
  }

  lemma {:induction false} AfterToolEnds(x: Setting, s: State, b: Budget, v: Visit, d: Definition, clipped: bool)
    requires x.Valid() && x.snapshot.textA.Some? && x.snapshot.textB.Some?
    ensures var (status, output) := Report(x, v);
            AfterTool(x.Kernel(), s, b, d, x.snapshot.textA.value.id, x.snapshot.textB.value.id, status, output, clipped).s
            == if status == ToolTimeout && clipped then s.(failure := Some(BudgetExhausted))
               else if status != ToolOk then s.(failure := Some(ToolFailed))
               else if output.None? || !Parses(x, d.id, d.version, output.value) then s.(failure := Some(DeliveryInvalid))
               else s.(delivery := Some(ComparisonDelivery(output.value)), used := s.used + [Use(d.id, d.version, d.kind, UseOk)])
  {
    ParsesIffParses(x, d, Report(x, v).1);
    hide MI.ValidSnapshot, WellKeyed, Report, ParseResult, Parses, KernelFor;
  }

  lemma {:induction false} CallEnds(x: Setting, s: State, b: Budget, v: Visit, d: Definition, inputs: map<string, Option<Id>>, clipped: bool)
    requires x.Valid() && (d.id, d.version) in x.definitions && x.definitions[(d.id, d.version)] == d && d.kind == Execution
    requires InUse(x, d.id, d.version, Execution) && RoomToCall(x, v) && (clipped <==> x.deadline < v.now + 3.0)
    ensures CallStep(x.Kernel(), Materials(x.snapshot), s, b, v, d, inputs, clipped).s == CallEnding(x, s, v, d.id, d.version, inputs)
  {
    SameSlots(d, inputs);
    if WellFormed(d, inputs) {
      assert forall slot | slot in inputs :: inputs[slot].Some?;
      OwnTextsMatch(x, d, inputs);
      if OwnTexts(x, inputs) && !v.tool.Raised? {
        GatewayReports(x, d, v);
        AfterToolEnds(x, s, b, v, d, clipped);
      }
    }
    hide MI.ValidSnapshot, WellKeyed, InUse, WellFormed, ToSet, InputsMatch, Callable, Bound, Materials, ToolOutcome, Report, Parses, AfterTool, KernelFor;
  }

  lemma {:induction false} InvokeEnds(x: Setting, c: Config, v: Visit)
    requires x.Valid() && Open(x, c) && c.n == Invoke
    ensures var call := c.s.decision.value; x.Turn(c, v).s == CallEnding(x, c.s, v, call.id, call.version, call.inputs)
  {
    var call := c.s.decision.value;
    ResolvedIffInUse(x, call.id, call.version, Execution);
    var spent := StartToolCall(c.b, v.now);
    GrantsEndByTheDeadline(c.b, v.now);
    if InUse(x, call.id, call.version, Execution) {
      var d := x.definitions[(call.id, call.version)];
      assert d.id == call.id && d.version == call.version && d.kind == Execution;
      if spent.0.Some? { CallEnds(x, c.s, spent.1, v, d, call.inputs, spent.0.value.clipped); }
    }
    hide MI.ValidSnapshot, WellKeyed, InUse, WellFormed, Bound, Materials, Resolve, Report, Parses, CallStep, StartToolCall, KernelFor;
  }

  /** What the chain of conditions comes to, verdict by verdict. */
  lemma {:induction false} CallEndingIs(x: Setting, s: State, v: Visit, id: string, version: int, inputs: map<string, Option<Id>>)
    requires s.failure.None? && s.delivery.None? && !s.canceled
    ensures var e := CallEnding(x, s, v, id, version, inputs);
            var allowed := CallAllowed(x, v, id, version, inputs);
            var bound := allowed && OwnTexts(x, inputs) && Bound(x, x.definitions[(id, version)]) && !v.tool.Raised?;
            && Called(x, v, id, version, inputs) == (bound && !v.cancelAfter)
            && e.canceled == (bound && v.cancelAfter)
            && (e.failure == Some(CapabilityUnavailable) <==> !InUse(x, id, version, Execution) || (allowed && !bound))
            && (e.failure == Some(ModelDecisionInvalid)
                <==> InUse(x, id, version, Execution) && RoomToCall(x, v) && !WellFormed(x.definitions[(id, version)], inputs))
            && (e.failure == Some(BudgetExhausted)
                <==> (InUse(x, id, version, Execution) && !RoomToCall(x, v)) || (Called(x, v, id, version, inputs) && Late(x, v)))
            && (e.failure == Some(ToolFailed) <==> Called(x, v, id, version, inputs) && Report(x, v).0 != ToolOk && !Late(x, v))
            && (e.failure == Some(DeliveryInvalid)
                <==> Called(x, v, id, version, inputs) && Report(x, v).0 == ToolOk
                     && (Report(x, v).1.None? || !Parses(x, id, version, Report(x, v).1.value)))
            && e.failure != Some(ModelUnavailable)
            && e.delivery == (if Called(x, v, id, version, inputs) && Report(x, v).0 == ToolOk && Report(x, v).1.Some?
                                 && Parses(x, id, version, Report(x, v).1.value)
                              then Some(ComparisonDelivery(Report(x, v).1.value)) else None)
  {
    assert OwnTexts(x, inputs) ==> x.snapshot.textA.Some? && x.snapshot.textB.Some?;
    hide InUse, WellFormed, OwnTexts, Bound, RoomToCall, Report, Parses;
  }

  lemma {:induction false} CallIsTold(x: Setting, c: Config, v: Visit)
    requires x.Valid() && Open(x, c) && c.n == Invoke
    ensures Told(x, c, v, x.Turn(c, v).s)
  {
    var d := c.s.decision.value;
    InvokeEnds(x, c, v);
    CallEndingIs(x, c.s, v, d.id, d.version, d.inputs);
    hide MI.ValidSnapshot, WellKeyed, InUse, WellFormed, OwnTexts, Bound, RoomToCall, Report, Parses, Setting.Turn, CallEnding, Called, Late, CallAllowed;
  }

  // ----- the whole run

  lemma {:induction false} TurnIsTold(x: Setting, c: Config, v: Visit)
    requires x.Valid() && Open(x, c)
    ensures Told(x, c, v, x.Turn(c, v).s)
  {
    hide *;
    match c.n
    case DecideNode => DecideIsTold(x, c, v);
    case FinalizeAnswer => AnswerIsTold(x, c, v);
    case FinalizeNeedsInput => QuestionIsTold(x, c, v);
    case LoadSkill => LoadIsTold(x, c, v);
    case Invoke => CallIsTold(x, c, v);
    case End => OpenIsNotEnd(x, c);
  }

  lemma OpenIsNotEnd(x: Setting, c: Config)
    requires Open(x, c)
    ensures c.n != End
  {
  }

  lemma {:induction false} DeadlineStays(k: Kernel, materials: map<Id, TC.Material>, n: Node, s: State, b: Budget, v: Visit)
    requires n != End && Entered(n, s)
    ensures StepAt(k, materials, n, s, b, v).b.deadline == b.deadline
  {
    hide Resolve, ToolOutcome, ParseResult, ToSet, InputsMatch, Callable, TC.Compare;
  }

  lemma {:induction false} DeadlineIs(x: Setting, j: nat)
    ensures x.At(j).b.deadline == x.deadline
  {
    hide StepAt, RouteFrom;
    if j > 0 {
      DeadlineIs(x, j - 1);
      var c := x.At(j - 1);
      if c.n != End { DeadlineStays(x.Kernel(), Materials(x.snapshot), c.n, c.s, c.b, x.world(j - 1)); }
    }
  }

  lemma {:induction false} VisitIsOpen(x: Setting, j: nat)
    requires x.Valid() && x.At(j).n != End
    ensures Open(x, x.At(j))
  {
    EveryVisitIsOk(x.Kernel(), Materials(x.snapshot), x.limits, x.deadline, x.world, j);
    DeadlineIs(x, j);
    hide ConfigAt, Distinct, LoadedUses, MI.ValidSnapshot;
  }

  lemma {:induction false} TurnIsNext(x: Setting, j: nat)
    requires x.At(j).n != End
    ensures var u := x.Turn(x.At(j), x.world(j)); x.At(j + 1).s == u.s && x.At(j + 1).n == RouteFrom(x.At(j).n, u.s)
  {
    hide StepAt, RouteFrom;
  }

  lemma {:induction false} EndStays(x: Setting, j: nat)
    requires x.At(j).n == End
    ensures x.At(j + 1) == x.At(j)
  {
    hide StepAt, RouteFrom;
  }

  lemma {:induction false} VisitsFrom(x: Setting, j: nat)
    ensures var c := x.At(j); var t := Run(x.Kernel(), Materials(x.snapshot), c.n, c.s, c.b, x.world, j);
            && x.At(j + t.visits).n == End && x.At(j + t.visits).s == t.s
            && forall i | j <= i < j + t.visits :: x.At(i).n != End
    decreases Rank(x.At(j).n, x.At(j).b)
  {
    hide StepAt, RouteFrom, Rank;
    var c := x.At(j);
    if c.n != End {
      RankDecreases(x.Kernel(), Materials(x.snapshot), c.n, c.s, c.b, x.world(j));
      VisitsFrom(x, j + 1);
    }
  }

  /** The run is over after `visits` visits, and not before. */
  lemma {:induction false} VisitsCount(x: Setting)
    ensures var t := x.Whole();
            && t.visits > 0 && x.At(t.visits).n == End && x.At(t.visits).s == t.s
            && forall i | 0 <= i < t.visits :: x.At(i).n != End
  {
    VisitsFrom(x, 0);
    assert x.At(0).n == DecideNode && x.At(0).s == START;
    hide Run;
  }

  /**
   Every ending of every run, told from its last visit: cancelled, each of the six failures, an answer with
   its text and grounding, a question, a comparison.
   */
  lemma {:induction false} EndingsTellWhy(x: Setting)
    requires x.Valid()
    ensures var t := x.Whole();
            t.visits > 0 && x.At(t.visits - 1).n != End && Told(x, x.At(t.visits - 1), x.world(t.visits - 1), t.s)
  {
    hide ConfigAt, Told, Open, Run, MI.ValidSnapshot, WellKeyed, StepAt, RouteFrom;
    VisitsCount(x);
    var last := x.Whole().visits - 1;
    VisitIsOpen(x, last);
    TurnIsNext(x, last);
    TurnIsTold(x, x.At(last), x.world(last));
  }

  /** The node that carries a decision out. */
  function NodeFor(d: Decision): Node {
    match d
    case AnswerDecision(_) => FinalizeAnswer
    case NeedsInputDecision(_) => FinalizeNeedsInput
    case LoadSkillDecision(_, _) => LoadSkill
    case InvokeDecision(_, _, _) => Invoke
  }

  lemma {:induction false} DecideGoesOn(x: Setting, c: Config, v: Visit)
    requires Open(x, c) && c.n == DecideNode
    ensures var u := x.Turn(c, v);
            if Heard(x, c, v) && v.model.Decided?
            then u.s == c.s.(step := c.s.step + 1, decision := Some(v.model.decision)) && RouteFrom(c.n, u.s) == NodeFor(v.model.decision)
            else RouteFrom(c.n, u.s) == End
  {
    hide Materials, KernelFor;
  }

  /** A decision the model was heard with is carried out by its node, with the decision as it was given. */
  lemma {:induction false} DecisionIsCarriedOut(x: Setting, j: nat)
    requires x.Valid() && x.At(j).n == DecideNode
    ensures var c, v, next := x.At(j), x.world(j), x.At(j + 1);
            if Heard(x, c, v) && v.model.Decided?
            then next.s == c.s.(step := c.s.step + 1, decision := Some(v.model.decision)) && next.n == NodeFor(v.model.decision)
            else next.n == End
  {
    hide ConfigAt, StepAt, RouteFrom, MI.ValidSnapshot, WellKeyed, Open;
    VisitIsOpen(x, j);
    TurnIsNext(x, j);
    DecideGoesOn(x, x.At(j), x.world(j));
  }

  lemma {:induction false} NextOf(x: Setting, j: nat)
    ensures x.At(j).n == End ==> x.At(j + 1).n == End
    ensures x.At(j).n == LoadSkill ==> x.At(j + 1).n == End || x.At(j + 1).n == DecideNode
    ensures x.At(j).n != LoadSkill && x.At(j).n != DecideNode ==> x.At(j + 1).n == End
  {
    hide StepAt;
  }

  /** What stands in a node's place was decided one visit earlier. */
  lemma {:induction false} NodeWasDecided(x: Setting, j: nat)
    requires x.Valid() && x.At(j).n != End && x.At(j).n != DecideNode
    ensures j > 0 && x.At(j - 1).n == DecideNode && Heard(x, x.At(j - 1), x.world(j - 1)) && x.world(j - 1).model.Decided?
    ensures x.At(j).s == x.At(j - 1).s.(step := x.At(j - 1).s.step + 1, decision := Some(x.world(j - 1).model.decision))
    ensures x.At(j).n == NodeFor(x.world(j - 1).model.decision)
  {
    assert x.At(0).n == DecideNode;
    hide ConfigAt, StepAt, MI.ValidSnapshot, WellKeyed, NodeFor, Heard;
    NextOf(x, j - 1);
    if x.At(j - 1).n == DecideNode { DecisionIsCarriedOut(x, j - 1); }
  }

  /**
   An answer is delivered exactly when the model decided on it at the last decision, was heard, and the text
   can be represented; it is the model's own text, grounded in the skill loaded last.
   */
  lemma {:induction false} AnswerIsTheModels(x: Setting, text: string, grounding: Option<Grounding>)
    requires x.Valid()
    ensures var t := x.Whole();
            t.s.delivery == Some(Answer(text, grounding))
            <==> && t.visits > 1
                 && var c, v := x.At(t.visits - 2), x.world(t.visits - 2);
                 && c.n == DecideNode && Heard(x, c, v) && v.model == Decided(AnswerDecision(text)) && x.world(t.visits - 1).representable
                 && grounding == if c.s.loaded == [] then None
                                 else
                                   var last := c.s.loaded[|c.s.loaded| - 1];
                                   Some(Grounding(last.id, last.version, last.skill.skillId, last.skill.skillVersion))
  {
    hide *;
    var n := x.Whole().visits;
    AnswerAtTheEnd(x, text, grounding);
    if n > 1 { AnswerNodeIsDecided(x, n - 2, text, grounding); }
    FirstIsDecide(x);
  }

  lemma {:induction false} FirstIsDecide(x: Setting)
    ensures x.At(0).n == DecideNode
  {
  }

  lemma {:induction false} AnswerAtTheEnd(x: Setting, text: string, grounding: Option<Grounding>)
    requires x.Valid()
    ensures var t := x.Whole();
            && t.visits > 0
            && (t.s.delivery == Some(Answer(text, grounding))
                <==> EndsWithAnswer(x.At(t.visits - 1), x.world(t.visits - 1), text, grounding))
            && (EndsWithAnswer(x.At(t.visits - 1), x.world(t.visits - 1), text, grounding) ==> x.At(t.visits - 1).n == FinalizeAnswer)
  {
    EndingsTellWhy(x);
    hide Setting.At, Setting.Whole, EndsCanceled, EndsModelUnavailable, EndsDecisionInvalid, EndsBudgetExhausted;
    hide EndsCapabilityUnavailable, EndsToolFailed, EndsDeliveryInvalid, EndsWithQuestion, EndsWithComparison;
  }

  lemma {:induction false} AnswerNodeIsDecided(x: Setting, j: nat, text: string, grounding: Option<Grounding>)
    requires x.Valid()
    ensures EndsWithAnswer(x.At(j + 1), x.world(j + 1), text, grounding)
            <==> && var c, v := x.At(j), x.world(j);
                 && c.n == DecideNode && Heard(x, c, v) && v.model == Decided(AnswerDecision(text)) && x.world(j + 1).representable
                 && grounding == if c.s.loaded == [] then None
                                 else
                                   var last := c.s.loaded[|c.s.loaded| - 1];
                                   Some(Grounding(last.id, last.version, last.skill.skillId, last.skill.skillVersion))
  {
    if x.At(j + 1).n == FinalizeAnswer { NodeWasDecided(x, j + 1); }
    if x.At(j).n == DecideNode { DecisionIsCarriedOut(x, j); }
    hide Setting.At, Setting.Valid, Heard;
  }

  /** Whenever the model is heard with an answer that can be represented, the run delivers it and ends. */
  lemma {:induction false} AnswerIsDelivered(x: Setting, j: nat, text: string)
    requires x.Valid() && x.At(j).n == DecideNode && Heard(x, x.At(j), x.world(j))
    requires x.world(j).model == Decided(AnswerDecision(text)) && x.world(j + 1).representable
    ensures x.Whole().visits == j + 2 && x.Whole().s.delivery.Some?
    ensures var d := x.Whole().s.delivery.value; d.Answer? && d.text == text
  {
    hide StepAt, Run, MI.ValidSnapshot, WellKeyed, Heard, Told;
    DecisionIsCarriedOut(x, j);
    TurnIsNext(x, j + 1);
    assert x.At(j + 2).n == End;
    OverOnce(x, j + 1);
    EndingsTellWhy(x);
    AnswerNodeAnswers(x, x.At(j + 1), x.world(j + 1), x.Whole().s);
  }

  lemma {:induction false} AnswerNodeAnswers(x: Setting, c: Config, v: Visit, s: State)
    requires Entered(c.n, c.s) && c.n == FinalizeAnswer && v.representable && Told(x, c, v, s)
    ensures s.delivery.Some? && s.delivery.value.Answer? && s.delivery.value.text == c.s.decision.value.text
  {
    var g := GroundingFor(c.s.loaded);
    assert EndsWithAnswer(c, v, c.s.decision.value.text, g);
  }

  lemma {:induction false} EndsForGood(x: Setting, i: nat, j: nat)
    requires i <= j && x.At(i).n == End
    ensures x.At(j).n == End
    decreases j - i
  {
    hide ConfigAt;
    if i < j {
      EndStays(x, i);
      EndsForGood(x, i + 1, j);
    }
  }

  lemma {:induction false} OverOnce(x: Setting, last: nat)
    requires x.At(last).n != End && x.At(last + 1).n == End
    ensures x.Whole().visits == last + 1
  {
    hide ConfigAt, Run;
    VisitsCount(x);
    var n := x.Whole().visits;
    if n <= last { EndsForGood(x, n, last); }
  }

  // ----- loads

  lemma {:induction false} LoadGoesOn(x: Setting, c: Config, v: Visit)
    requires x.Valid() && Open(x, c) && c.n == LoadSkill
    ensures var d, u := c.s.decision.value, x.Turn(c, v);
            if Teaches(x, d.id, d.version) && RoomToLoad(x, c, v) && (d.id, d.version) !in c.s.degraded
            then
              && RouteFrom(c.n, u.s) == DecideNode
              && u.s == match v.skill
                        case SkillUnavailable =>
                          c.s.(degraded := c.s.degraded + [(d.id, d.version)],
                               observations := c.s.observations + [Observation(d.id, d.version, c.s.step, false)])
                        case _ =>
                          var skill := if v.skill.LoadsOther? then v.skill.skill else x.definitions[(d.id, d.version)].skill.value;
                          c.s.(loaded := c.s.loaded + [Loaded(d.id, d.version, skill)],
                               observations := c.s.observations + [Observation(d.id, d.version, c.s.step, true)],
                               used := c.s.used + [Use(d.id, d.version, Knowledge, UseLoaded)])
            else RouteFrom(c.n, u.s) == End
  {
    var d := c.s.decision.value;
    ResolvedIffInUse(x, d.id, d.version, Knowledge);
    assert InUse(x, d.id, d.version, Knowledge) ==>
             x.definitions[(d.id, d.version)].id == d.id && x.definitions[(d.id, d.version)].version == d.version
             && x.definitions[(d.id, d.version)].kind == Knowledge;
    hide MI.ValidSnapshot, WellKeyed, InUse, Materials, Resolve;
  }

  /**
   A skill is loaded, or noted as unavailable, exactly when its capability is in use, there is room and time,
   and it was not found unavailable before; the next decision then sees it. Else the run ends.
   */
  lemma {:induction false} LoadIsSeen(x: Setting, j: nat)
    requires x.Valid() && x.At(j).n == LoadSkill
    ensures var c, v, next := x.At(j), x.world(j), x.At(j + 1); var d := c.s.decision.value;
            if Teaches(x, d.id, d.version) && RoomToLoad(x, c, v) && (d.id, d.version) !in c.s.degraded
            then
              && next.n == DecideNode
              && next.s == match v.skill
                           case SkillUnavailable =>
                             c.s.(degraded := c.s.degraded + [(d.id, d.version)],
                                  observations := c.s.observations + [Observation(d.id, d.version, c.s.step, false)])
                           case _ =>
                             var skill := if v.skill.LoadsOther? then v.skill.skill else x.definitions[(d.id, d.version)].skill.value;
                             c.s.(loaded := c.s.loaded + [Loaded(d.id, d.version, skill)],
                                  observations := c.s.observations + [Observation(d.id, d.version, c.s.step, true)],
                                  used := c.s.used + [Use(d.id, d.version, Knowledge, UseLoaded)])
            else next.n == End
  {
    hide ConfigAt, StepAt, RouteFrom, Teaches, RoomToLoad, Open, MI.ValidSnapshot, WellKeyed;
    VisitIsOpen(x, j);
    TurnIsNext(x, j);
    LoadGoesOn(x, x.At(j), x.world(j));
  }

  // ----- signals

  /** The signals of the first `j` visits. */
  ghost function SignalsBefore(x: Setting, j: nat): seq<Signal> {
    if j == 0 then []
    else SignalsBefore(x, j - 1) + if x.At(j - 1).n == End then [] else x.Turn(x.At(j - 1), x.world(j - 1)).signals
  }

  lemma {:induction false} SignalsSplit(x: Setting, j: nat)
    ensures var c := x.At(j);
            x.Whole().signals == SignalsBefore(x, j) + Run(x.Kernel(), Materials(x.snapshot), c.n, c.s, c.b, x.world, j).signals
  {
    hide StepAt, RouteFrom;
    if j > 0 {
      SignalsSplit(x, j - 1);
      var c := x.At(j - 1);
      hide Setting.Whole;
      if c.n == End {
        assert Run(x.Kernel(), Materials(x.snapshot), c.n, c.s, c.b, x.world, j).signals == [];
      }
    }
  }

  /** The kind of signal a visit of node `c.n` that came to state `s` reports. */
  function LabelFor(c: Config, s: State): Label {
    if s.failure == Some(BudgetExhausted) then LabelBudgetExhausted
    else
      match c.n
      case FinalizeAnswer => if s.delivery.Some? then LabelAnswer else LabelFailed
      case FinalizeNeedsInput => if s.delivery.Some? then LabelNeedsInput else LabelFailed
      case LoadSkill => LabelLoadSkill
      case Invoke => if s.failure == Some(ModelDecisionInvalid) then LabelFailed else LabelInvoke
      case _ => LabelFailed
  }

  /** The capability a signal names: the one decided on, with the kind it is registered with. */
  function CapabilityFor(x: Setting, c: Config): Option<CapabilityRef>
    requires Entered(c.n, c.s)
  {
    match c.n
    case LoadSkill =>
      var d := c.s.decision.value;
      Some(CapabilityRef(d.id, d.version, if (d.id, d.version) in x.definitions then x.definitions[(d.id, d.version)].kind else Knowledge))
    case Invoke =>
      var d := c.s.decision.value;
      Some(CapabilityRef(d.id, d.version, if (d.id, d.version) in x.definitions then x.definitions[(d.id, d.version)].kind else Execution))
    case _ => None
  }

  /** One visit's signals: how it went, on which capability, and what a called tool reported. */
  ghost predicate Signalled(x: Setting, c: Config, v: Visit, s: State, signals: seq<Signal>)
    requires Entered(c.n, c.s)
  {
    if s.canceled || (c.n == DecideNode && s.failure.None?) then signals == []
    else
      var step := if c.n == DecideNode && Paid(x, c, v) then c.s.step + 1
                  else if c.n == DecideNode then if c.s.step < 6 then c.s.step + 1 else 6
                  else c.s.step;
      var ok := s.delivery.Some? || |s.loaded| > |c.s.loaded|;
      var told := RouteSignal(step, LabelFor(c, s), CapabilityFor(x, c), ok);
      if c.n == Invoke && Called(x, v, c.s.decision.value.id, c.s.decision.value.version, c.s.decision.value.inputs)
      then signals == [told, ToolSignal(step, c.s.decision.value.id, c.s.decision.value.version, Report(x, v).0)]
      else signals == [told]
  }

  lemma {:induction false} QuietNodesSignal(x: Setting, c: Config, v: Visit)
    requires x.Valid() && Open(x, c) && c.n != LoadSkill && c.n != Invoke
    ensures Signalled(x, c, v, x.Turn(c, v).s, x.Turn(c, v).signals)
  {
    hide MI.ValidSnapshot, WellKeyed, Materials, KernelFor, ToSet, SlotNames;
  }

  lemma {:induction false} LoadSignals(x: Setting, c: Config, v: Visit)
    requires x.Valid() && Open(x, c) && c.n == LoadSkill
    ensures Signalled(x, c, v, x.Turn(c, v).s, x.Turn(c, v).signals)
  {
    var d := c.s.decision.value;
    ResolvedIffInUse(x, d.id, d.version, Knowledge);
    assert InUse(x, d.id, d.version, Knowledge) ==>
             x.definitions[(d.id, d.version)].id == d.id && x.definitions[(d.id, d.version)].version == d.version
             && x.definitions[(d.id, d.version)].kind == Knowledge;
    hide MI.ValidSnapshot, WellKeyed, InUse, Materials, Resolve;
  }

  lemma {:induction false} AfterToolSignals(x: Setting, s: State, b: Budget, v: Visit, d: Definition, clipped: bool)
    requires x.Valid() && x.snapshot.textA.Some? && x.snapshot.textB.Some? && s.delivery.None? && s.failure.None?
    ensures var (status, output) := Report(x, v);
            var u := AfterTool(x.Kernel(), s, b, d, x.snapshot.textA.value.id, x.snapshot.textB.value.id, status, output, clipped);
            u.signals == [RouteSignal(s.step, if u.s.failure == Some(BudgetExhausted) then LabelBudgetExhausted else LabelInvoke,
                                      Some(RefOf(d)), u.s.delivery.Some?),
                          ToolSignal(s.step, d.id, d.version, status)]
  {
    hide MI.ValidSnapshot, WellKeyed, Report, ParseResult, KernelFor;
  }

  lemma {:induction false} CallSignals(x: Setting, s: State, b: Budget, v: Visit, d: Definition, inputs: map<string, Option<Id>>, clipped: bool)
    requires x.Valid() && s.delivery.None? && s.failure.None? && !s.canceled
    ensures var u := CallStep(x.Kernel(), Materials(x.snapshot), s, b, v, d, inputs, clipped);
            var reached := WellFormed(d, inputs) && OwnTexts(x, inputs) && Bound(x, d) && !v.tool.Raised?;
            u.signals
            == if !WellFormed(d, inputs) then [RouteSignal(s.step, LabelFailed, Some(RefOf(d)), false)]
               else if !reached then [RouteSignal(s.step, LabelInvoke, Some(RefOf(d)), false)]
               else if v.cancelAfter then []
               else [RouteSignal(s.step, if u.s.failure == Some(BudgetExhausted) then LabelBudgetExhausted else LabelInvoke,
                                 Some(RefOf(d)), u.s.delivery.Some?),
                     ToolSignal(s.step, d.id, d.version, Report(x, v).0)]
  {
    SameSlots(d, inputs);
    if WellFormed(d, inputs) {
      assert forall slot | slot in inputs :: inputs[slot].Some?;
      OwnTextsMatch(x, d, inputs);
      if OwnTexts(x, inputs) && !v.tool.Raised? {
        GatewayReports(x, d, v);
        AfterToolSignals(x, s, b, v, d, clipped);
      }
    }
    hide MI.ValidSnapshot, WellKeyed, WellFormed, ToSet, InputsMatch, Callable, Bound, Materials, ToolOutcome, Report, AfterTool, KernelFor, RefOf;
  }

  lemma {:induction false} InvokeSignals(x: Setting, c: Config, v: Visit)
    requires x.Valid() && Open(x, c) && c.n == Invoke
    ensures var call, u := c.s.decision.value, x.Turn(c, v);
            var about := CapabilityFor(x, c);
            var late := u.s.failure == Some(BudgetExhausted);
            u.signals
            == if !InUse(x, call.id, call.version, Execution) then [RouteSignal(c.s.step, LabelInvoke, about, false)]
               else if !RoomToCall(x, v) then [RouteSignal(c.s.step, LabelBudgetExhausted, about, false)]
               else if !CallAllowed(x, v, call.id, call.version, call.inputs) then [RouteSignal(c.s.step, LabelFailed, about, false)]
               else if !OwnTexts(x, call.inputs) || !Bound(x, x.definitions[(call.id, call.version)]) || v.tool.Raised?
               then [RouteSignal(c.s.step, LabelInvoke, about, false)]
               else if v.cancelAfter then []
               else [RouteSignal(c.s.step, if late then LabelBudgetExhausted else LabelInvoke, about, u.s.delivery.Some?),
                     ToolSignal(c.s.step, call.id, call.version, Report(x, v).0)]
  {
    var call := c.s.decision.value;
    ResolvedIffInUse(x, call.id, call.version, Execution);
    var spent := StartToolCall(c.b, v.now);
    GrantsEndByTheDeadline(c.b, v.now);
    if InUse(x, call.id, call.version, Execution) {
      var d := x.definitions[(call.id, call.version)];
      assert d.id == call.id && d.version == call.version && d.kind == Execution;
      if spent.0.Some? { CallSignals(x, c.s, spent.1, v, d, call.inputs, spent.0.value.clipped); }
    }
    hide MI.ValidSnapshot, WellKeyed, InUse, WellFormed, Bound, Materials, Resolve, Report, CallStep, StartToolCall, KernelFor, OwnTexts;
  }

  lemma {:induction false} InvokeSignalled(x: Setting, c: Config, v: Visit)
    requires x.Valid() && Open(x, c) && c.n == Invoke
    ensures Signalled(x, c, v, x.Turn(c, v).s, x.Turn(c, v).signals)
  {
    var d := c.s.decision.value;
    InvokeEnds(x, c, v);
    InvokeSignals(x, c, v);
    CallEndingIs(x, c.s, v, d.id, d.version, d.inputs);
    SameLoads(x, c.s, v, d.id, d.version, d.inputs);
    hide MI.ValidSnapshot, WellKeyed, InUse, WellFormed, OwnTexts, Bound, RoomToCall, Report, Parses, Setting.Turn, CallEnding, CapabilityFor;
  }

  lemma {:induction false} SameLoads(x: Setting, s: State, v: Visit, id: string, version: int, inputs: map<string, Option<Id>>)
    ensures CallEnding(x, s, v, id, version, inputs).loaded == s.loaded
  {
    hide InUse, WellFormed, Bound, RoomToCall, Report, Parses;
  }

  /**
   The run's signals are those of its visits in order, and each visit signals the step, what became of it,
   the capability decided on and, when a tool was called, what the gateway reported.
   */
  lemma {:induction false} SignalsSayWhatHappened(x: Setting, j: nat)
    requires x.Valid() && j < x.Whole().visits
    ensures x.Whole().signals == SignalsBefore(x, x.Whole().visits)
    ensures x.At(j).n != End
    ensures var c, u := x.At(j), x.Turn(x.At(j), x.world(j));
            && SignalsBefore(x, j + 1) == SignalsBefore(x, j) + u.signals
            && u.s == x.At(j + 1).s && Signalled(x, c, x.world(j), u.s, u.signals)
  {
    AllSignals(x);
    VisitsCount(x);
    hide Run, ConfigAt, StepAt, Signalled, Open, MI.ValidSnapshot, WellKeyed, RouteFrom;
    VisitIsOpen(x, j);
    TurnIsNext(x, j);
    var c, v := x.At(j), x.world(j);
    match c.n
    case LoadSkill => LoadSignals(x, c, v);
    case Invoke => InvokeSignalled(x, c, v);
    case _ => QuietNodesSignal(x, c, v);
  }

  lemma {:induction false} AllSignals(x: Setting)
    ensures x.Whole().signals == SignalsBefore(x, x.Whole().visits)
  {
    VisitsCount(x);
    var n := x.Whole().visits;
    SignalsSplit(x, n);
    hide ConfigAt, Setting.Whole, SignalsBefore;
    var c := x.At(n);
    assert Run(x.Kernel(), Materials(x.snapshot), c.n, c.s, c.b, x.world, n).signals == [];
  }
}
