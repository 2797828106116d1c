/**
 The bounded ReAct loop of the main agent (backend/src/core/main_agent_react.py) against an
 arbitrary model, skill source, tool, canceller and clock. Prompt texts are left out.
 */
module ReactKernel {
  import opened Wrappers
  import TC = TextCompare
  import MI = MainInput
  import opened Capabilities
  import opened MainDelivery
  import opened AgentBudget

  type Id = nat

  const MAX_OBSERVATION_MESSAGES_IN_PROMPT := 6

  datatype Failure = ModelUnavailable | ModelDecisionInvalid | CapabilityUnavailable | ToolFailed | DeliveryInvalid | BudgetExhausted

  datatype Decision =
    | AnswerDecision(text: string)
    | NeedsInputDecision(slots: seq<string>)
    | LoadSkillDecision(id: string, version: int)
    | InvokeDecision(id: string, version: int, inputs: map<string, Option<Id>>)  // None: not a UUID

  datatype Label = LabelAnswer | LabelNeedsInput | LabelLoadSkill | LabelInvoke | LabelBudgetExhausted | LabelFailed

  datatype CapabilityRef = CapabilityRef(id: string, version: int, kind: CapabilityKind)

  datatype ToolStatus = ToolOk | ToolUnavailable | ToolRejected | ToolTimeout | ToolError

  datatype Signal =
    | RouteSignal(step: nat, route: Label, capability: Option<CapabilityRef>, ok: bool)
    | ToolSignal(step: nat, id: string, version: int, status: ToolStatus)

  datatype Observation = Observation(id: string, version: int, step: nat, loaded: bool)

  datatype Loaded = Loaded(id: string, version: int, skill: SkillDeclaration)

  datatype UseStatus = UseLoaded | UseOk | UseUnavailable

  datatype Use = Use(id: string, version: int, kind: CapabilityKind, status: UseStatus)

  datatype State = State(
    step: nat, observations: seq<Observation>, loaded: seq<Loaded>, degraded: seq<Key>, used: seq<Use>,
    delivery: Option<Delivery>, failure: Option<Failure>, canceled: bool, decision: Option<Decision>)

  const START := State(0, [], [], [], [], None, None, false, None)

  /** What one run is given: its registry, tool bindings, material references and rule version. */
  datatype Kernel = Kernel(
    runId: Id, definitions: map<Key, Definition>, bindings: set<string>, refA: Option<Id>, refB: Option<Id>,
    missing: seq<MI.Slot>, ruleVersion: string)

  datatype ModelReply = Decided(decision: Decision) | ModelGaveUp(unavailable: bool)

  /** A source may load what was declared, something else, or nothing. */
  datatype SkillReply = LoadsDeclared | LoadsOther(skill: SkillDeclaration) | SkillUnavailable

  /** `Executed`: the gateway ran the comparison tool; else it reports or raises what it likes. */
  datatype ToolReply = Executed | Reported(status: ToolStatus, output: Option<TC.Comparison>) | Raised

  /** Everything the outside world answers during one visit of a node. */
  datatype Visit = Visit(
    cancelBefore: bool, cancelGranted: bool, cancelAfter: bool, now: real, model: ModelReply,
    skill: SkillReply, tool: ToolReply, representable: bool)

  datatype Node = DecideNode | FinalizeAnswer | FinalizeNeedsInput | LoadSkill | Invoke | End

  datatype Update = Update(s: State, signals: seq<Signal>, b: Budget)

  // ----- helpers of the nodes

  function Fail(s: State, b: Budget, failure: Failure, route: Label, capability: Option<CapabilityRef>): Update {
    Update(s.(failure := Some(failure)), [RouteSignal(s.step, route, capability, false)], b)
  }

  function CapabilityFailure(s: State, b: Budget, route: Label, c: CapabilityRef): Update {
    Fail(s, b, CapabilityUnavailable, route, Some(c))
  }

  function RefOf(d: Definition): CapabilityRef { CapabilityRef(d.id, d.version, d.kind) }

  function GroundingFor(loaded: seq<Loaded>): Option<Grounding> {
    if loaded == [] then None
    else
      var last := loaded[|loaded| - 1];
      Some(Grounding(last.id, last.version, last.skill.skillId, last.skill.skillVersion))
  }

  function SlotName(slot: MI.Slot): string { match slot case TextA => "text_a" case TextB => "text_b" }

  function SlotNames(slots: seq<MI.Slot>): set<string> { set slot | slot in slots :: SlotName(slot) }

  function ToSet(names: seq<string>): set<string> { set name | name in names }

  function Reference(k: Kernel, slot: string): Option<Id> {
    if slot == "text_a" then k.refA else if slot == "text_b" then k.refB else None
  }

  // ----- the nodes

  function DecideStep(k: Kernel, s: State, b: Budget, v: Visit): Update {
    if v.cancelBefore then Update(s.(canceled := true), [], b)
    else
      var (grant, spent) := StartDecision(b, v.now);
      if grant.None? then
        var next := if s.step + 1 <= MAX_MAIN_DECISIONS then s.step + 1 else MAX_MAIN_DECISIONS;
        Update(s.(failure := Some(BudgetExhausted)), [RouteSignal(next, LabelBudgetExhausted, None, false)], spent)
      else
        var stepped := s.(step := s.step + 1);
        if v.cancelGranted || v.cancelAfter then Update(stepped.(canceled := true), [], spent)
        else
          match v.model
          case Decided(decision) => Update(stepped.(decision := Some(decision)), [], spent)
          case ModelGaveUp(unavailable) =>
            if !unavailable then Fail(stepped, spent, ModelDecisionInvalid, LabelFailed, None)
            else if grant.value.clipped then Fail(stepped, spent, BudgetExhausted, LabelBudgetExhausted, None)
            else Fail(stepped, spent, ModelUnavailable, LabelFailed, None)
  }

  function FinalizeAnswerStep(k: Kernel, s: State, b: Budget, v: Visit): Update
    requires s.decision.Some? && s.decision.value.AnswerDecision?
  {
    if !v.representable then Fail(s, b, DeliveryInvalid, LabelFailed, None)
    else
      Update(s.(delivery := Some(Answer(s.decision.value.text, GroundingFor(s.loaded)))),
             [RouteSignal(s.step, LabelAnswer, None, true)], b)
  }

  function FinalizeNeedsInputStep(k: Kernel, s: State, b: Budget, v: Visit): Update
    requires s.decision.Some? && s.decision.value.NeedsInputDecision?
  {
    if k.missing == [] || ToSet(s.decision.value.slots) != SlotNames(k.missing)
    then Fail(s, b, ModelDecisionInvalid, LabelFailed, None)
    else if !v.representable then Fail(s, b, DeliveryInvalid, LabelFailed, None)
    else Update(s.(delivery := Some(NeedsInput(k.missing))), [RouteSignal(s.step, LabelNeedsInput, None, true)], b)
  }

  /** `_degrade`: an observation, no skill, and the loop goes on. */
  function Degrade(s: State, b: Budget, d: Definition): Update {
    Update(s.(degraded := s.degraded + [(d.id, d.version)],
              observations := s.observations + [Observation(d.id, d.version, s.step, false)]),
           [RouteSignal(s.step, LabelLoadSkill, Some(RefOf(d)), false)], b)
  }

  function Load(s: State, b: Budget, d: Definition, skill: SkillDeclaration): Update {
    Update(s.(loaded := s.loaded + [Loaded(d.id, d.version, skill)],
              observations := s.observations + [Observation(d.id, d.version, s.step, true)],
              used := s.used + [Use(d.id, d.version, d.kind, UseLoaded)]),
           [RouteSignal(s.step, LabelLoadSkill, Some(RefOf(d)), true)],
           b.(knowledgeLoads := b.knowledgeLoads + 1))
  }

  function LoadSkillStep(k: Kernel, s: State, b: Budget, v: Visit): Update
    requires s.decision.Some? && s.decision.value.LoadSkillDecision?
  {
    var id, version := s.decision.value.id, s.decision.value.version;
    var resolution := Resolve(k.definitions, id, version, Some(Knowledge));
    var asked := CapabilityRef(id, version, resolution.ActualKind(Knowledge));
    if !resolution.Resolved? || resolution.definition.skill.None? then CapabilityFailure(s, b, LabelLoadSkill, asked)
    else if !CanLoadKnowledge(b, v.now) || |s.observations| >= MAX_OBSERVATION_MESSAGES_IN_PROMPT then
      Fail(s, b, BudgetExhausted, LabelBudgetExhausted, Some(asked))
    else if (id, version) in s.degraded then CapabilityFailure(s, b, LabelLoadSkill, asked)
    else
      var d := resolution.definition;
      match v.skill
      case SkillUnavailable => Degrade(s, b, d)
      case LoadsDeclared => Load(s, b, d, d.skill.value)
      case LoadsOther(skill) => Load(s, b, d, skill)
  }

  /** `TextCompareTool.execute` on this run's materials. */
  function Execute(k: Kernel, materials: map<Id, TC.Material>, a: Id, b: Id, ruleVersion: string): (ToolStatus, Option<TC.Comparison>) {
    if ruleVersion != TC.RULE_VERSION || a !in materials || b !in materials then (ToolUnavailable, None)
    else if materials[a].id == materials[b].id then (ToolUnavailable, None)
    else
      match TC.Compare(k.runId, materials[a], materials[b])
      case Ok(c) => (ToolOk, Some(c))
      case Err(LimitExceeded) => (ToolUnavailable, None)
      case Err(_) => (ToolError, None)
  }

  /** `build_tool`: text A, then text B over it. */
  function Materials(s: MI.Snapshot): map<Id, TC.Material> {
    var a := if s.textA.Some? then map[s.textA.value.id := s.textA.value] else map[];
    if s.textB.Some? then a[s.textB.value.id := s.textB.value] else a
  }

  /** `rule_version or definition.rule_version` */
  function RuleFor(k: Kernel, d: Definition): Option<string> {
    if k.ruleVersion != "" then Some(k.ruleVersion) else d.ruleVersion
  }

  /** `parse_result`: the output must be a valid comparison of exactly this call. */
  function ParseResult(k: Kernel, d: Definition, output: Option<TC.Comparison>, a: Id, b: Id): Option<TC.Comparison> {
    if output.None? || !TC.ValidComparison(output.value) then None
    else
      var c := output.value;
      if c.runId == k.runId && c.capabilityId == d.id && c.capabilityVersion == d.version
         && c.aMaterialId == a && c.bMaterialId == b && Some(c.ruleVersion) == RuleFor(k, d)
      then output else None
  }

  function AfterTool(k: Kernel, s: State, b: Budget, d: Definition, a: Id, bb: Id, status: ToolStatus,
                     output: Option<TC.Comparison>, clipped: bool): Update {
    var tool := ToolSignal(s.step, d.id, d.version, status);
    if status != ToolOk then
      var late := clipped && status == ToolTimeout;
      var failed := Fail(s, b, if late then BudgetExhausted else ToolFailed,
                         if late then LabelBudgetExhausted else LabelInvoke, Some(RefOf(d)));
      failed.(signals := failed.signals + [tool])
    else
      match ParseResult(k, d, output, a, bb)
      case None =>
        var failed := Fail(s, b, DeliveryInvalid, LabelInvoke, Some(RefOf(d)));
        failed.(signals := failed.signals + [tool])
      case Some(c) =>
        Update(s.(delivery := Some(ComparisonDelivery(c)), used := s.used + [Use(d.id, d.version, d.kind, UseOk)]),
               [RouteSignal(s.step, LabelInvoke, Some(RefOf(d)), true), tool], b)
  }

  /** What the gateway reports for one call of the comparison tool. */
  function ToolOutcome(k: Kernel, materials: map<Id, TC.Material>, d: Definition, a: Id, b: Id, reply: ToolReply): (ToolStatus, Option<TC.Comparison>) {
    match reply
    case Reported(status, output) => (status, output)
    case _ => if RuleFor(k, d).None? then (ToolRejected, None) else Execute(k, materials, a, b, RuleFor(k, d).value)
  }

  predicate InputsMatch(k: Kernel, inputs: map<string, Option<Id>>) {
    forall slot | slot in inputs :: Reference(k, slot).Some? && Reference(k, slot) == inputs[slot]
  }

  /** The bound tool can be called with these inputs. */
  predicate Callable(k: Kernel, d: Definition, inputs: map<string, Option<Id>>) {
    && d.toolBindings != [] && d.comparisonDelivery && d.toolBindings[0] in k.bindings
    && "text_a" in inputs && "text_b" in inputs
  }

  function CallStep(k: Kernel, materials: map<Id, TC.Material>, s: State, b: Budget, v: Visit, d: Definition,
                    inputs: map<string, Option<Id>>, clipped: bool): Update {
    if inputs.Keys != ToSet(d.slots) || (exists slot | slot in inputs :: inputs[slot].None?) then
      Fail(s, b, ModelDecisionInvalid, LabelFailed, Some(RefOf(d)))
    else if !InputsMatch(k, inputs) || !Callable(k, d, inputs) || v.tool.Raised? then
      CapabilityFailure(s, b, LabelInvoke, RefOf(d))
    else if v.cancelAfter then Update(s.(canceled := true), [], b)
    else
      var a, bb := inputs["text_a"].value, inputs["text_b"].value;
      var reported := ToolOutcome(k, materials, d, a, bb, v.tool);
      AfterTool(k, s, b, d, a, bb, reported.0, reported.1, clipped)
  }

  function InvokeStep(k: Kernel, materials: map<Id, TC.Material>, s: State, b: Budget, v: Visit): Update
    requires s.decision.Some? && s.decision.value.InvokeDecision?
  {
    var id, version := s.decision.value.id, s.decision.value.version;
    var resolution := Resolve(k.definitions, id, version, Some(Execution));
    if !resolution.Resolved? then
      CapabilityFailure(s, b, LabelInvoke, CapabilityRef(id, version, resolution.ActualKind(Execution)))
    else
      var (grant, spent) := StartToolCall(b, v.now);
      if grant.None? then Fail(s, spent, BudgetExhausted, LabelBudgetExhausted, Some(RefOf(resolution.definition)))
      else CallStep(k, materials, s, spent, v, resolution.definition, s.decision.value.inputs, grant.value.clipped)
  }

  // ----- routing and the run

  function RouteAfterDecide(s: State): Node {
    if s.failure.Some? || s.canceled then End
    else
      match s.decision
      case None => End
      case Some(AnswerDecision(_)) => FinalizeAnswer
      case Some(NeedsInputDecision(_)) => FinalizeNeedsInput
      case Some(LoadSkillDecision(_, _)) => LoadSkill
      case Some(InvokeDecision(_, _, _)) => Invoke
  }

  function RouteAfterStep(s: State): Node { if s.failure.Some? || s.canceled then End else DecideNode }

  /** A node is entered with the kind of decision it was routed for. */
  predicate Entered(n: Node, s: State) {
    match n
    case FinalizeAnswer => s.decision.Some? && s.decision.value.AnswerDecision?
    case FinalizeNeedsInput => s.decision.Some? && s.decision.value.NeedsInputDecision?
    case LoadSkill => s.decision.Some? && s.decision.value.LoadSkillDecision?
    case Invoke => s.decision.Some? && s.decision.value.InvokeDecision?
    case _ => true
  }

  function StepAt(k: Kernel, materials: map<Id, TC.Material>, n: Node, s: State, b: Budget, v: Visit): Update
    requires n != End && Entered(n, s)
  {
    match n
    case DecideNode => DecideStep(k, s, b, v)
    case FinalizeAnswer => FinalizeAnswerStep(k, s, b, v)
    case FinalizeNeedsInput => FinalizeNeedsInputStep(k, s, b, v)
    case LoadSkill => LoadSkillStep(k, s, b, v)
    case Invoke => InvokeStep(k, materials, s, b, v)
  }

  function RouteFrom(n: Node, s: State): Node {
    match n
    case DecideNode => RouteAfterDecide(s)
    case LoadSkill => RouteAfterStep(s)
    case _ => End
  }

  /** Visits that can still follow. */
  function Rank(n: Node, b: Budget): nat {
    var left := if b.decisions < b.limits.decisions then b.limits.decisions - b.decisions else 0;
    match n
    case End => 0
    case DecideNode => 2 * left + 1
    case LoadSkill => 2 * left + 2
    case _ => 1
  }

  lemma RankDecreases(k: Kernel, materials: map<Id, TC.Material>, n: Node, s: State, b: Budget, v: Visit)
    requires n != End && Entered(n, s)
    ensures var u := StepAt(k, materials, n, s, b, v);
            && Entered(RouteFrom(n, u.s), u.s)
            && Rank(RouteFrom(n, u.s), u.b) < Rank(n, b)
            && u.b.limits == b.limits
  {
  }

  datatype Trace = Trace(s: State, signals: seq<Signal>, b: Budget, visits: nat)

  /** The whole run; `world(i)` answers the i-th visit. */
  function Run(k: Kernel, materials: map<Id, TC.Material>, n: Node, s: State, b: Budget, world: nat -> Visit, i: nat): Trace
    requires Entered(n, s)
    decreases Rank(n, b)
  {
    if n == End then Trace(s, [], b, 0)
    else
      var u := StepAt(k, materials, n, s, b, world(i));
      RankDecreases(k, materials, n, s, b, world(i));
      var rest := Run(k, materials, RouteFrom(n, u.s), u.s, u.b, world, i + 1);
      rest.(signals := u.signals + rest.signals, visits := rest.visits + 1)
  }

  /** `MainReactOutcome` */
  datatype Outcome = Outcome(
    delivery: Option<Delivery>, failure: Option<Failure>, steps: nat, used: seq<Use>, degraded: seq<Use>, canceled: bool)

  function DegradedUses(keys: seq<Key>): seq<Use> {
    if keys == [] then [] else [Use(keys[0].0, keys[0].1, Knowledge, UseUnavailable)] + DegradedUses(keys[1..])
  }

  function OutcomeOf(s: State): Outcome {
    var failure := if s.delivery.None? && s.failure.None? && !s.canceled then Some(DeliveryInvalid) else s.failure;
    Outcome(s.delivery, failure, s.step, s.used, DegradedUses(s.degraded), s.canceled)
  }

  // ----- what every visit keeps

  function LoadedUses(loaded: seq<Loaded>): seq<Use> {
    if loaded == [] then []
    else
      var n := |loaded| - 1;
      LoadedUses(loaded[..n]) + [Use(loaded[n].id, loaded[n].version, Knowledge, UseLoaded)]
  }

  function Verdicts(s: State): nat {
    (if s.delivery.Some? then 1 else 0) + (if s.failure.Some? then 1 else 0) + (if s.canceled then 1 else 0)
  }

  ghost predicate Distinct(keys: seq<Key>) { forall i, j | 0 <= i < j < |keys| :: keys[i] != keys[j] }

  /** The state on entering node `n`, after `emitted` signals. */
  ghost predicate StateOk(n: Node, s: State, b: Budget, emitted: nat) {
    && Entered(n, s)
    && s.step == b.decisions && b.WithinLimits()
    && |s.loaded| == b.knowledgeLoads
    && |s.observations| == |s.loaded| + |s.degraded|
    && Distinct(s.degraded)
    && b.toolCalls <= (if n == End then 1 else 0)
    && (n == DecideNode ==> |s.observations| <= s.step && emitted <= s.step)
    && (n != DecideNode && n != End ==> |s.observations| < s.step && emitted < s.step)
    && (n == End ==> |s.observations| <= s.step && emitted <= s.step + 1)
    && Verdicts(s) == (if n == End then 1 else 0)
    && (if s.delivery.Some? && s.delivery.value.ComparisonDelivery?
        then s.used != [] && s.used[..|s.used| - 1] == LoadedUses(s.loaded) && s.used[|s.used| - 1].status == UseOk
        else s.used == LoadedUses(s.loaded))
  }

  lemma StateEntered(n: Node, s: State, b: Budget, emitted: nat)
    requires StateOk(n, s, b, emitted)
    ensures Entered(n, s) && (n != End ==> s.delivery.None?)
  {
  }

  lemma DecideKeeps(k: Kernel, s: State, b: Budget, v: Visit, emitted: nat)
    requires StateOk(DecideNode, s, b, emitted)
    ensures var u := DecideStep(k, s, b, v); StateOk(RouteAfterDecide(u.s), u.s, u.b, emitted + |u.signals|)
  {
  }

  lemma FinalizeKeeps(k: Kernel, n: Node, materials: map<Id, TC.Material>, s: State, b: Budget, v: Visit, emitted: nat)
    requires n == FinalizeAnswer || n == FinalizeNeedsInput
    requires StateOk(n, s, b, emitted)
    ensures var u := StepAt(k, materials, n, s, b, v); StateOk(End, u.s, u.b, emitted + |u.signals|)
  {
  }

  lemma DistinctGrows(keys: seq<Key>, key: Key)
    requires Distinct(keys) && key !in keys
    ensures Distinct(keys + [key])
  {
  }

  lemma LoadKeeps(k: Kernel, s: State, b: Budget, v: Visit, emitted: nat)
    requires WellKeyed(k.definitions) && StateOk(LoadSkill, s, b, emitted)
    ensures var u := LoadSkillStep(k, s, b, v); StateOk(RouteAfterStep(u.s), u.s, u.b, emitted + |u.signals|)
  {
    var id, version := s.decision.value.id, s.decision.value.version;
    var resolution := Resolve(k.definitions, id, version, Some(Knowledge));
    if resolution.Resolved? && resolution.definition.skill.Some? && (id, version) !in s.degraded {
      var d := resolution.definition;
      assert d.id == id && d.version == version && d.kind == Knowledge;
      hide Resolve;
      DistinctGrows(s.degraded, (d.id, d.version));
      forall skill
        ensures LoadedUses(s.loaded + [Loaded(d.id, d.version, skill)]) == LoadedUses(s.loaded) + [Use(d.id, d.version, Knowledge, UseLoaded)]
      {
        assert (s.loaded + [Loaded(d.id, d.version, skill)])[..|s.loaded|] == s.loaded;
      }
    }
  }

  lemma AfterToolKeeps(k: Kernel, s: State, b: Budget, d: Definition, a: Id, bb: Id, status: ToolStatus,
                       output: Option<TC.Comparison>, clipped: bool)
    requires s.failure.None?
    ensures var u := AfterTool(k, s, b, d, a, bb, status, output, clipped);
            && u.b == b && |u.signals| == 2
            && u.s == s.(delivery := u.s.delivery, failure := u.s.failure, used := u.s.used)
            && (u.s.failure.Some? ==> u.s.delivery == s.delivery && u.s.used == s.used)
            && (u.s.failure.None? ==>
                  u.s.delivery.Some? && u.s.delivery.value.ComparisonDelivery?
                  && u.s.used == s.used + [Use(d.id, d.version, d.kind, UseOk)])
  {
  }

  lemma CallKeeps(k: Kernel, materials: map<Id, TC.Material>, s: State, b: Budget, v: Visit, d: Definition,
                  inputs: map<string, Option<Id>>, clipped: bool)
    requires s.failure.None? && !s.canceled
    ensures var u := CallStep(k, materials, s, b, v, d, inputs, clipped);
            && u.b == b && |u.signals| <= 2
            && u.s == s.(delivery := u.s.delivery, failure := u.s.failure, used := u.s.used, canceled := u.s.canceled)
            && (u.s.failure.Some? ==> u.s.delivery == s.delivery && u.s.used == s.used && !u.s.canceled)
            && (u.s.canceled ==> u.s.delivery == s.delivery && u.s.used == s.used)
            && (u.s.failure.None? && !u.s.canceled ==>
                  u.s.delivery.Some? && u.s.delivery.value.ComparisonDelivery?
                  && u.s.used == s.used + [Use(d.id, d.version, d.kind, UseOk)])
  {
    hide AfterTool, ToolOutcome, ToSet, InputsMatch;
    if Callable(k, d, inputs) && inputs["text_a"].Some? && inputs["text_b"].Some? {
      var a, bb := inputs["text_a"].value, inputs["text_b"].value;
      var reported := ToolOutcome(k, materials, d, a, bb, v.tool);
      AfterToolKeeps(k, s, b, d, a, bb, reported.0, reported.1, clipped);
    }
  }

  lemma InvokeKeeps(k: Kernel, materials: map<Id, TC.Material>, s: State, b: Budget, v: Visit, emitted: nat)
    requires StateOk(Invoke, s, b, emitted)
    ensures var u := InvokeStep(k, materials, s, b, v); StateOk(End, u.s, u.b, emitted + |u.signals|)
  {
    hide CallStep, Resolve, LoadedUses, Distinct;
    var spent := StartToolCall(b, v.now);
    var resolution := Resolve(k.definitions, s.decision.value.id, s.decision.value.version, Some(Execution));
    if resolution.Resolved? && spent.0.Some? {
      CallKeeps(k, materials, s, spent.1, v, resolution.definition, s.decision.value.inputs, spent.0.value.clipped);
    }
  }

  lemma StepKeeps(k: Kernel, materials: map<Id, TC.Material>, n: Node, s: State, b: Budget, v: Visit, emitted: nat)
    requires WellKeyed(k.definitions) && n != End && StateOk(n, s, b, emitted)
    ensures var u := StepAt(k, materials, n, s, b, v);
            StateOk(RouteFrom(n, u.s), u.s, u.b, emitted + |u.signals|) && u.b.limits == b.limits
  {
    RankDecreases(k, materials, n, s, b, v);
    hide StateOk, DecideStep, LoadSkillStep, InvokeStep, FinalizeAnswerStep, FinalizeNeedsInputStep, RouteAfterDecide, RouteAfterStep;
    StateEntered(n, s, b, emitted);
    match n
    case DecideNode => DecideKeeps(k, s, b, v, emitted);
    case LoadSkill => LoadKeeps(k, s, b, v, emitted);
    case Invoke => InvokeKeeps(k, materials, s, b, v, emitted);
    case _ => FinalizeKeeps(k, n, materials, s, b, v, emitted);
  }

  lemma {:induction false} RunKeeps(k: Kernel, materials: map<Id, TC.Material>, n: Node, s: State, b: Budget, world: nat -> Visit, i: nat, emitted: nat)
    requires WellKeyed(k.definitions) && StateOk(n, s, b, emitted)
    ensures var t := Run(k, materials, n, s, b, world, i);
            && StateOk(End, t.s, t.b, emitted + |t.signals|) && t.b.limits == b.limits && t.visits <= Rank(n, b)
    decreases Rank(n, b)
  {
    hide StateOk, StepAt, RouteFrom, Rank;
    StateEntered(n, s, b, emitted);
    if n == End {
      assert Run(k, materials, n, s, b, world, i) == Trace(s, [], b, 0);
      assert emitted + |Run(k, materials, n, s, b, world, i).signals| == emitted;
    } else {
      var u := StepAt(k, materials, n, s, b, world(i));
      RankDecreases(k, materials, n, s, b, world(i));
      StepKeeps(k, materials, n, s, b, world(i), emitted);
      RunKeeps(k, materials, RouteFrom(n, u.s), u.s, u.b, world, i + 1, emitted + |u.signals|);
    }
  }

  function WholeRun(k: Kernel, materials: map<Id, TC.Material>, limits: Limits, deadline: real, world: nat -> Visit): Trace {
    Run(k, materials, DecideNode, START, Budget(limits, deadline, 0, 0, 0), world, 0)
  }

  /**
   Whatever the model, the skills, the tool, the canceller and the clock do, a run ends after at
   most 2 * decisions + 1 node visits with exactly one of delivery, failure and cancellation, and
   its steps, loads, tool calls, observations and signals are what the budget accounts for.
   */
  lemma EveryRunEnds(k: Kernel, materials: map<Id, TC.Material>, limits: Limits, deadline: real, world: nat -> Visit)
    requires WellKeyed(k.definitions)
    ensures var t := WholeRun(k, materials, limits, deadline, world);
            && t.visits <= 2 * limits.decisions + 1
            && Verdicts(t.s) == 1
            && t.s.step == t.b.decisions <= limits.decisions
            && |t.s.loaded| == t.b.knowledgeLoads <= limits.knowledgeLoads
            && t.b.toolCalls <= 1
            && |t.s.observations| == |t.s.loaded| + |t.s.degraded| <= limits.decisions
            && Distinct(t.s.degraded)
            && |t.signals| <= limits.decisions + 1
            && (limits == DEFAULT_LIMITS ==> t.visits <= 13 && |t.signals| <= 7)
  {
    RunKeeps(k, materials, DecideNode, START, Budget(limits, deadline, 0, 0, 0), world, 0, 0);
    hide Run;
  }

  /** The outcome the caller reads off: one verdict, and `used` lists loads first, then the call. */
  lemma OutcomeIsOneThing(k: Kernel, materials: map<Id, TC.Material>, limits: Limits, deadline: real, world: nat -> Visit)
    requires WellKeyed(k.definitions)
    ensures var t := WholeRun(k, materials, limits, deadline, world); var o := OutcomeOf(t.s);
            && (o.delivery.Some? ==> o.failure.None? && !o.canceled)
            && (o.failure.Some? ==> o.delivery.None? && !o.canceled)
            && (o.canceled <==> o.delivery.None? && o.failure.None?)
            && (o.delivery.Some? && o.delivery.value.ComparisonDelivery?
                <==> o.used != [] && o.used[|o.used| - 1].status == UseOk)
            && |o.used| == t.b.knowledgeLoads + (if o.delivery.Some? && o.delivery.value.ComparisonDelivery? then 1 else 0)
            && |o.degraded| == |t.s.degraded|
  {
    RunKeeps(k, materials, DecideNode, START, Budget(limits, deadline, 0, 0, 0), world, 0, 0);
    var t := WholeRun(k, materials, limits, deadline, world);
    hide Run, WholeRun, Distinct;
    LoadedUsesLength(t.s.loaded);
    DegradedUsesLength(t.s.degraded);
  }

  lemma {:induction false} LoadedUsesLength(loaded: seq<Loaded>)
    ensures |LoadedUses(loaded)| == |loaded| && forall i | 0 <= i < |loaded| :: LoadedUses(loaded)[i].status == UseLoaded
    decreases |loaded|
  {
    if loaded != [] { LoadedUsesLength(loaded[..|loaded| - 1]); }
  }

  lemma {:induction false} DegradedUsesLength(keys: seq<Key>)
    ensures |DegradedUses(keys)| == |keys|
  {
    if keys != [] { DegradedUsesLength(keys[1..]); }
  }

  // ----- every visited state

  datatype Config = Config(n: Node, s: State, b: Budget, emitted: nat)

  /** Where the run stands after `j` visits. */
  function ConfigAt(k: Kernel, materials: map<Id, TC.Material>, limits: Limits, deadline: real, world: nat -> Visit, j: nat): (c: Config)
    ensures Entered(c.n, c.s)
  {
    if j == 0 then Config(DecideNode, START, Budget(limits, deadline, 0, 0, 0), 0)
    else
      var c := ConfigAt(k, materials, limits, deadline, world, j - 1);
      if c.n == End then c
      else
        var u := StepAt(k, materials, c.n, c.s, c.b, world(j - 1));
        RankDecreases(k, materials, c.n, c.s, c.b, world(j - 1));
        Config(RouteFrom(c.n, u.s), u.s, u.b, c.emitted + |u.signals|)
  }

  lemma StartIsOk(limits: Limits, deadline: real)
    ensures StateOk(DecideNode, START, Budget(limits, deadline, 0, 0, 0), 0)
  {
  }

  lemma {:induction false} EveryVisitIsOk(k: Kernel, materials: map<Id, TC.Material>, limits: Limits, deadline: real, world: nat -> Visit, j: nat)
    requires WellKeyed(k.definitions)
    ensures var c := ConfigAt(k, materials, limits, deadline, world, j); StateOk(c.n, c.s, c.b, c.emitted) && c.b.limits == limits
  {
    hide StateOk, StepAt, RouteFrom, Entered;
    if j == 0 {
      StartIsOk(limits, deadline);
    } else {
      EveryVisitIsOk(k, materials, limits, deadline, world, j - 1);
      var c := ConfigAt(k, materials, limits, deadline, world, j - 1);
      if c.n != End { StepKeeps(k, materials, c.n, c.s, c.b, world(j - 1), c.emitted); }
    }
  }

  /**
   With at most six decisions a load never sees six observations: the second budget check of the
   load node cannot fire, and no load is tried without a decision paid for.
   */
  lemma ObservationCapIsUnreachable(k: Kernel, materials: map<Id, TC.Material>, limits: Limits, deadline: real, world: nat -> Visit, j: nat)
    requires WellKeyed(k.definitions) && limits.decisions <= MAX_MAIN_DECISIONS
    requires ConfigAt(k, materials, limits, deadline, world, j).n == LoadSkill
    ensures var s := ConfigAt(k, materials, limits, deadline, world, j).s;
            |s.observations| < s.step <= limits.decisions && |s.observations| < MAX_OBSERVATION_MESSAGES_IN_PROMPT
  {
    EveryVisitIsOk(k, materials, limits, deadline, world, j);
    hide ConfigAt;
  }

  /** The recursive run is the run that is stepped through visit by visit. */
  lemma {:induction false} RunIsStepped(k: Kernel, materials: map<Id, TC.Material>, limits: Limits, deadline: real, world: nat -> Visit, j: nat)
    ensures var c := ConfigAt(k, materials, limits, deadline, world, j);
            var t := Run(k, materials, c.n, c.s, c.b, world, j);
            && WholeRun(k, materials, limits, deadline, world).s == t.s
            && WholeRun(k, materials, limits, deadline, world).b == t.b
            && |WholeRun(k, materials, limits, deadline, world).signals| == c.emitted + |t.signals|
  {
    hide StepAt, RouteFrom;
    if j > 0 {
      RunIsStepped(k, materials, limits, deadline, world, j - 1);
      var c := ConfigAt(k, materials, limits, deadline, world, j - 1);
      hide WholeRun;
      if c.n == End {
        assert Run(k, materials, c.n, c.s, c.b, world, j) == Run(k, materials, c.n, c.s, c.b, world, j - 1);
      }
    }
  }

  // ----- deliveries

  /** The kernel of a run is set up from the run's frozen snapshot. */
  function KernelFor(runId: Id, snapshot: MI.Snapshot, definitions: map<Key, Definition>, bindings: set<string>): Kernel {
    Kernel(runId, definitions, bindings,
           if snapshot.textA.Some? then Some(snapshot.textA.value.id) else None,
           if snapshot.textB.Some? then Some(snapshot.textB.value.id) else None,
           MissingSides(snapshot), snapshot.ruleVersion)
  }

  /** A loaded entry names a registered knowledge capability that declares some skill. */
  predicate KnownLoad(k: Kernel, l: Loaded) {
    var key := (l.id, l.version);
    key in k.definitions && k.definitions[key].kind == Knowledge && k.definitions[key].skill.Some?
  }

  /** The skill that was loaded is the one the capability declares. */
  predicate DeclaredLoad(k: Kernel, l: Loaded) {
    KnownLoad(k, l) && k.definitions[(l.id, l.version)].skill == Some(l.skill)
  }

  /** What a delivery may say, given the skills loaded so far. */
  ghost predicate DeliveryShape(k: Kernel, s: State) {
    && (forall i | 0 <= i < |s.loaded| :: KnownLoad(k, s.loaded[i]))
    && match s.delivery
       case None => true
       case Some(Answer(_, grounding)) => grounding == GroundingFor(s.loaded)
       case Some(NeedsInput(missing)) => missing == k.missing && missing != []
       case Some(ComparisonDelivery(c)) =>
         TC.ValidComparison(c) && c.runId == k.runId && Some(c.aMaterialId) == k.refA && Some(c.bMaterialId) == k.refB
  }

  /** The skill source loads what was declared, and only the real tool reports success. */
  predicate HonestVisit(v: Visit) {
    !v.skill.LoadsOther? && (v.tool.Reported? ==> v.tool.status != ToolOk)
  }

  ghost predicate HonestDelivery(k: Kernel, snapshot: MI.Snapshot, s: State) {
    && (forall i | 0 <= i < |s.loaded| :: DeclaredLoad(k, s.loaded[i]))
    && (s.delivery.Some? ==> DeliveryAccepted(s.delivery.value, k.runId, snapshot, Some(k.definitions)))
  }

  lemma LoadShapes(k: Kernel, s: State, b: Budget, v: Visit)
    requires WellKeyed(k.definitions) && Entered(LoadSkill, s) && DeliveryShape(k, s) && s.delivery.None?
    ensures DeliveryShape(k, LoadSkillStep(k, s, b, v).s)
    ensures HonestVisit(v) && (forall i | 0 <= i < |s.loaded| :: DeclaredLoad(k, s.loaded[i])) ==>
              forall i | 0 <= i < |LoadSkillStep(k, s, b, v).s.loaded| :: DeclaredLoad(k, LoadSkillStep(k, s, b, v).s.loaded[i])
  {
    var id, version := s.decision.value.id, s.decision.value.version;
    var resolution := Resolve(k.definitions, id, version, Some(Knowledge));
    if resolution.Resolved? {
      assert resolution.definition == k.definitions[(id, version)];
      assert resolution.definition.id == id && resolution.definition.version == version && resolution.definition.kind == Knowledge;
    }
    hide Resolve, CanLoadKnowledge;
  }

  lemma CallShapes(k: Kernel, materials: map<Id, TC.Material>, s: State, b: Budget, v: Visit, d: Definition,
                   inputs: map<string, Option<Id>>, clipped: bool)
    requires DeliveryShape(k, s) && s.delivery.None?
    ensures DeliveryShape(k, CallStep(k, materials, s, b, v, d, inputs, clipped).s)
  {
    hide TC.ValidComparison, ToolOutcome, ToSet, KnownLoad;
    if Callable(k, d, inputs) && InputsMatch(k, inputs) {
      assert Reference(k, "text_a") == inputs["text_a"] && Reference(k, "text_b") == inputs["text_b"];
    }
  }

  lemma StepShapes(k: Kernel, materials: map<Id, TC.Material>, n: Node, s: State, b: Budget, v: Visit)
    requires WellKeyed(k.definitions) && n != End && Entered(n, s) && DeliveryShape(k, s) && s.delivery.None?
    ensures DeliveryShape(k, StepAt(k, materials, n, s, b, v).s)
  {
    hide CallStep, Resolve, LoadSkillStep, TC.ValidComparison, KnownLoad, ToSet, SlotNames;
    match n
    case LoadSkill => LoadShapes(k, s, b, v);
    case Invoke =>
      var spent := StartToolCall(b, v.now);
      var resolution := Resolve(k.definitions, s.decision.value.id, s.decision.value.version, Some(Execution));
      if resolution.Resolved? && spent.0.Some? {
        CallShapes(k, materials, s, spent.1, v, resolution.definition, s.decision.value.inputs, spent.0.value.clipped);
      }
    case _ =>
  }

  lemma {:induction false} RunShapes(k: Kernel, materials: map<Id, TC.Material>, n: Node, s: State, b: Budget, world: nat -> Visit, i: nat, emitted: nat)
    requires WellKeyed(k.definitions) && StateOk(n, s, b, emitted) && DeliveryShape(k, s)
    ensures DeliveryShape(k, Run(k, materials, n, s, b, world, i).s)
    decreases Rank(n, b)
  {
    hide StateOk, StepAt, RouteFrom, Rank, DeliveryShape;
    StateEntered(n, s, b, emitted);
    if n != End {
      var u := StepAt(k, materials, n, s, b, world(i));
      RankDecreases(k, materials, n, s, b, world(i));
      StepKeeps(k, materials, n, s, b, world(i), emitted);
      StepShapes(k, materials, n, s, b, world(i));
      RunShapes(k, materials, RouteFrom(n, u.s), u.s, u.b, world, i + 1, emitted + |u.signals|);
    }
  }

  /**
   With any skill source and tool: an answer is grounded exactly when a skill was loaded and names
   the last one, and it passes the re-validation exactly when that skill is the declared one; a
   request for input names the missing sides; a comparison is valid and of this run's materials.
   */
  lemma DeliveriesSayWhatHappened(k: Kernel, materials: map<Id, TC.Material>, limits: Limits, deadline: real, world: nat -> Visit, snapshot: MI.Snapshot)
    requires WellKeyed(k.definitions)
    requires WholeRun(k, materials, limits, deadline, world).s.delivery.Some?
    ensures var s := WholeRun(k, materials, limits, deadline, world).s; var d := s.delivery.value;
            && (d.Answer? ==>
                  && d.grounding == GroundingFor(s.loaded) && (d.grounding.Some? <==> s.loaded != [])
                  && (DeliveryAccepted(d, k.runId, snapshot, Some(k.definitions))
                      <==> s.loaded == [] || DeclaredLoad(k, s.loaded[|s.loaded| - 1])))
            && (d.NeedsInput? ==> d.missing == k.missing && d.missing != [])
            && (d.ComparisonDelivery? ==>
                  TC.ValidComparison(d.comparison) && d.comparison.runId == k.runId
                  && Some(d.comparison.aMaterialId) == k.refA && Some(d.comparison.bMaterialId) == k.refB)
  {
    RunShapes(k, materials, DecideNode, START, Budget(limits, deadline, 0, 0, 0), world, 0, 0);
    hide Run, TC.ValidComparison;
  }

  // ----- with an honest skill source and tool

  lemma ExecutedIsCompare(runId: Id, snapshot: MI.Snapshot, definitions: map<Key, Definition>, bindings: set<string>, a: Id, b: Id, rule: string)
    requires MI.ValidSnapshot(snapshot)
    requires var k := KernelFor(runId, snapshot, definitions, bindings);
             k.refA == Some(a) && k.refB == Some(b) && Execute(k, Materials(snapshot), a, b, rule).0 == ToolOk
    ensures snapshot.textA.Some? && snapshot.textB.Some?
    ensures var k := KernelFor(runId, snapshot, definitions, bindings);
            Execute(k, Materials(snapshot), a, b, rule).1.Some?
            && TC.Compare(runId, snapshot.textA.value, snapshot.textB.value) == Ok(Execute(k, Materials(snapshot), a, b, rule).1.value)
  {
    hide TC.Compare;
  }

  lemma HonestCall(runId: Id, snapshot: MI.Snapshot, definitions: map<Key, Definition>, bindings: set<string>,
                   s: State, b: Budget, v: Visit, d: Definition, inputs: map<string, Option<Id>>, clipped: bool)
    requires MI.ValidSnapshot(snapshot) && HonestVisit(v)
    requires var k := KernelFor(runId, snapshot, definitions, bindings);
             HonestDelivery(k, snapshot, s) && s.delivery.None?
    ensures var k := KernelFor(runId, snapshot, definitions, bindings);
            HonestDelivery(k, snapshot, CallStep(k, Materials(snapshot), s, b, v, d, inputs, clipped).s)
  {
    hide TC.Compare, TC.ValidComparison, ToSet, DeclaredLoad, Execute, MI.ValidSnapshot, Materials;
    var k := KernelFor(runId, snapshot, definitions, bindings);
    if Callable(k, d, inputs) && InputsMatch(k, inputs) && v.tool.Executed? && RuleFor(k, d).Some? {
      assert Reference(k, "text_a") == inputs["text_a"] && Reference(k, "text_b") == inputs["text_b"];
      var a, bb, rule := inputs["text_a"].value, inputs["text_b"].value, RuleFor(k, d).value;
      if Execute(k, Materials(snapshot), a, bb, rule).0 == ToolOk {
        ExecutedIsCompare(runId, snapshot, definitions, bindings, a, bb, rule);
      }
    }
  }

  /** The arguments that name a run's two texts. */
  function OwnInputs(snapshot: MI.Snapshot): map<string, Option<Id>>
    requires snapshot.textA.Some? && snapshot.textB.Some?
  {
    map["text_a" := Some(snapshot.textA.value.id), "text_b" := Some(snapshot.textB.value.id)]
  }

  lemma ExecutesOwnTexts(runId: Id, snapshot: MI.Snapshot, definitions: map<Key, Definition>, bindings: set<string>)
    requires MI.ValidSnapshot(snapshot) && snapshot.textA.Some? && snapshot.textB.Some?
    ensures var a, b := snapshot.textA.value, snapshot.textB.value;
            Execute(KernelFor(runId, snapshot, definitions, bindings), Materials(snapshot), a.id, b.id, TC.RULE_VERSION)
            == match TC.Compare(runId, a, b) case Ok(c) => (ToolOk, Some(c)) case Err(_) => (ToolUnavailable, None)
  {
    TC.CompareAlwaysValidates(runId, snapshot.textA.value, snapshot.textB.value);
    hide TC.DiffBlocks, TC.ValidComparison;
  }

  lemma ParsesOwnComparison(runId: Id, snapshot: MI.Snapshot, definitions: map<Key, Definition>, bindings: set<string>, d: Definition)
    requires MI.ValidSnapshot(snapshot) && snapshot.textA.Some? && snapshot.textB.Some?
    requires TC.Compare(runId, snapshot.textA.value, snapshot.textB.value).Ok?
    ensures var a, b := snapshot.textA.value, snapshot.textB.value; var c := TC.Compare(runId, a, b).value;
            ParseResult(KernelFor(runId, snapshot, definitions, bindings), d, Some(c), a.id, b.id)
            == if c.capabilityId == d.id && c.capabilityVersion == d.version then Some(c) else None
  {
    TC.CompareAlwaysValidates(runId, snapshot.textA.value, snapshot.textB.value);
    hide TC.DiffBlocks, TC.ValidComparison;
  }

  lemma CallReachesTheTool(runId: Id, snapshot: MI.Snapshot, definitions: map<Key, Definition>, bindings: set<string>,
                           s: State, b: Budget, v: Visit, d: Definition, clipped: bool)
    requires MI.ValidSnapshot(snapshot) && snapshot.textA.Some? && snapshot.textB.Some?
    requires v.tool.Executed? && !v.cancelAfter
    requires var k := KernelFor(runId, snapshot, definitions, bindings);
             OwnInputs(snapshot).Keys == ToSet(d.slots) && Callable(k, d, OwnInputs(snapshot))
    ensures var k, a, bb := KernelFor(runId, snapshot, definitions, bindings), snapshot.textA.value, snapshot.textB.value;
            var executed := Execute(k, Materials(snapshot), a.id, bb.id, TC.RULE_VERSION);
            CallStep(k, Materials(snapshot), s, b, v, d, OwnInputs(snapshot), clipped)
            == AfterTool(k, s, b, d, a.id, bb.id, executed.0, executed.1, clipped)
  {
    hide ToSet, Execute, AfterTool, TC.Compare, Materials, Callable;
    assert InputsMatch(KernelFor(runId, snapshot, definitions, bindings), OwnInputs(snapshot));
  }

  /**
   A call of the bound comparison tool on the run's own texts delivers their comparison when it
   carries the capability's id and version, and fails as an unavailable tool exactly when the
   comparison cannot be made.
   */
  lemma CallDeliversTheComparison(runId: Id, snapshot: MI.Snapshot, definitions: map<Key, Definition>, bindings: set<string>,
                                  s: State, b: Budget, v: Visit, d: Definition, clipped: bool)
    requires MI.ValidSnapshot(snapshot) && snapshot.textA.Some? && snapshot.textB.Some?
    requires v.tool.Executed? && !v.cancelAfter
    requires var k := KernelFor(runId, snapshot, definitions, bindings);
             OwnInputs(snapshot).Keys == ToSet(d.slots) && Callable(k, d, OwnInputs(snapshot))
    ensures var k := KernelFor(runId, snapshot, definitions, bindings);
            var u := CallStep(k, Materials(snapshot), s, b, v, d, OwnInputs(snapshot), clipped);
            var compared := TC.Compare(runId, snapshot.textA.value, snapshot.textB.value);
            var delivers := compared.Ok? && compared.value.capabilityId == d.id && compared.value.capabilityVersion == d.version;
            && u.b == b
            && u.signals == [RouteSignal(s.step, LabelInvoke, Some(RefOf(d)), delivers),
                             ToolSignal(s.step, d.id, d.version, if compared.Ok? then ToolOk else ToolUnavailable)]
            && u.s == if delivers
                      then s.(delivery := Some(ComparisonDelivery(compared.value)), used := s.used + [Use(d.id, d.version, d.kind, UseOk)])
                      else s.(failure := Some(if compared.Ok? then DeliveryInvalid else ToolFailed))
  {
    var k, a, bb := KernelFor(runId, snapshot, definitions, bindings), snapshot.textA.value, snapshot.textB.value;
    hide MI.ValidSnapshot, TC.Compare;
    CallReachesTheTool(runId, snapshot, definitions, bindings, s, b, v, d, clipped);
    ExecutesOwnTexts(runId, snapshot, definitions, bindings);
    if TC.Compare(runId, a, bb).Ok? { ParsesOwnComparison(runId, snapshot, definitions, bindings, d); }
    hide ToSet, Execute, ParseResult, Materials, CallStep, Callable, KernelFor;
  }

  lemma GroundingOfDeclared(k: Kernel, snapshot: MI.Snapshot, s: State, text: string)
    requires forall i | 0 <= i < |s.loaded| :: DeclaredLoad(k, s.loaded[i])
    ensures DeliveryAccepted(Answer(text, GroundingFor(s.loaded)), k.runId, snapshot, Some(k.definitions))
  {
    hide TC.Compare;
  }

  lemma HonestStep(runId: Id, snapshot: MI.Snapshot, definitions: map<Key, Definition>, bindings: set<string>,
                   n: Node, s: State, b: Budget, v: Visit)
    requires MI.ValidSnapshot(snapshot) && WellKeyed(definitions) && HonestVisit(v) && n != End && Entered(n, s)
    requires var k := KernelFor(runId, snapshot, definitions, bindings);
             HonestDelivery(k, snapshot, s) && DeliveryShape(k, s) && s.delivery.None?
    ensures var k := KernelFor(runId, snapshot, definitions, bindings);
            HonestDelivery(k, snapshot, StepAt(k, Materials(snapshot), n, s, b, v).s)
  {
    hide CallStep, Resolve, TC.Compare, DeclaredLoad, ToSet, SlotNames, Materials, MI.ValidSnapshot, TC.ValidComparison, KnownLoad, Execute;
    var k := KernelFor(runId, snapshot, definitions, bindings);
    match n
    case LoadSkill => LoadShapes(k, s, b, v);
    case FinalizeAnswer => GroundingOfDeclared(k, snapshot, s, s.decision.value.text);
    case Invoke =>
      var spent := StartToolCall(b, v.now);
      var resolution := Resolve(k.definitions, s.decision.value.id, s.decision.value.version, Some(Execution));
      if resolution.Resolved? && spent.0.Some? {
        HonestCall(runId, snapshot, definitions, bindings, s, spent.1, v, resolution.definition, s.decision.value.inputs, spent.0.value.clipped);
      }
    case _ =>
  }

  lemma {:induction false} HonestRun(runId: Id, snapshot: MI.Snapshot, definitions: map<Key, Definition>, bindings: set<string>,
                                     n: Node, s: State, b: Budget, world: nat -> Visit, i: nat, emitted: nat)
    requires MI.ValidSnapshot(snapshot) && WellKeyed(definitions) && forall j :: HonestVisit(world(j))
    requires var k := KernelFor(runId, snapshot, definitions, bindings);
             StateOk(n, s, b, emitted) && DeliveryShape(k, s) && HonestDelivery(k, snapshot, s)
    ensures var k := KernelFor(runId, snapshot, definitions, bindings);
            HonestDelivery(k, snapshot, Run(k, Materials(snapshot), n, s, b, world, i).s)
    decreases Rank(n, b)
  {
    hide StateOk, StepAt, RouteFrom, Rank, DeliveryShape, HonestDelivery, MI.ValidSnapshot, HonestVisit;
    StateEntered(n, s, b, emitted);
    var k := KernelFor(runId, snapshot, definitions, bindings);
    if n != End {
      var u := StepAt(k, Materials(snapshot), n, s, b, world(i));
      RankDecreases(k, Materials(snapshot), n, s, b, world(i));
      StepKeeps(k, Materials(snapshot), n, s, b, world(i), emitted);
      StepShapes(k, Materials(snapshot), n, s, b, world(i));
      HonestStep(runId, snapshot, definitions, bindings, n, s, b, world(i));
      HonestRun(runId, snapshot, definitions, bindings, RouteFrom(n, u.s), u.s, u.b, world, i + 1, emitted + |u.signals|);
    }
  }

  /**
   Whatever the model decides, and whenever the run is cancelled or runs out of budget: if the
   skill source loads what was declared and success is only reported by the comparison tool, every
   delivery passes `validate_main_delivery` for the same snapshot and registry.
   */
  lemma EveryDeliveryIsAccepted(runId: Id, snapshot: MI.Snapshot, definitions: map<Key, Definition>, bindings: set<string>,
                                limits: Limits, deadline: real, world: nat -> Visit)
    requires MI.ValidSnapshot(snapshot) && WellKeyed(definitions) && forall j :: HonestVisit(world(j))
    ensures var k := KernelFor(runId, snapshot, definitions, bindings);
            var o := OutcomeOf(WholeRun(k, Materials(snapshot), limits, deadline, world).s);
            o.delivery.Some? ==> DeliveryAccepted(o.delivery.value, runId, snapshot, Some(definitions))
  {
    hide DeliveryAccepted, MI.ValidSnapshot;
    HonestRun(runId, snapshot, definitions, bindings, DecideNode, START, Budget(limits, deadline, 0, 0, 0), world, 0, 0);
    hide Run;
  }
}
