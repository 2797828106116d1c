/**
 The kernel as the source runs it: nodes that charge a shared, mutable budget and return updates,
 and a loop that folds the updates until the graph ends (backend/src/core/main_agent_react.py).
 */
module ReactKernelLoop {
  import opened Wrappers
  import TC = TextCompare
  import opened Capabilities
  import opened AgentBudget
  import opened ReactKernel

  class MainReactKernel {
    const k: Kernel
    const materials: map<Id, TC.Material>
    const budget: MainAgentBudget
    var outcome: Option<Outcome>

    constructor (k: Kernel, materials: map<Id, TC.Material>, budget: MainAgentBudget)
      ensures this.k == k && this.materials == materials && this.budget == budget && outcome == None
    {
      this.k := k;
      this.materials := materials;
      this.budget := budget;
      outcome := None;
    }

    method RunDecideNode(s: State, v: Visit) returns (next: State, signals: seq<Signal>)
      modifies budget
      ensures Update(next, signals, budget.Value()) == DecideStep(k, s, old(budget.Value()), v)
    {
      if v.cancelBefore { return s.(canceled := true), []; }
      var grant := budget.StartModelDecision(v.now);
      if grant.None? {
        var position := if s.step + 1 <= MAX_MAIN_DECISIONS then s.step + 1 else MAX_MAIN_DECISIONS;
        return s.(failure := Some(BudgetExhausted)), [RouteSignal(position, LabelBudgetExhausted, None, false)];
      }
      next := s.(step := s.step + 1);
      if v.cancelGranted { return next.(canceled := true), []; }
      var result := v.model;
      if v.cancelAfter { return next.(canceled := true), []; }
      if result.ModelGaveUp? {
        var clippedAway := grant.value.clipped && result.unavailable;
        var failure := if clippedAway then BudgetExhausted
                       else if result.unavailable then ModelUnavailable else ModelDecisionInvalid;
        signals := [RouteSignal(next.step, if clippedAway then LabelBudgetExhausted else LabelFailed, None, false)];
        return next.(failure := Some(failure)), signals;
      }
      return next.(decision := Some(result.decision)), [];
    }

    method RunLoadSkillNode(s: State, v: Visit) returns (next: State, signals: seq<Signal>)
      requires Entered(LoadSkill, s)
      modifies budget
      ensures Update(next, signals, budget.Value()) == LoadSkillStep(k, s, old(budget.Value()), v)
    {
      hide Resolve;
      var id, version := s.decision.value.id, s.decision.value.version;
      var resolution := Resolve(k.definitions, id, version, Some(Knowledge));
      var asked := CapabilityRef(id, version, resolution.ActualKind(Knowledge));
      if !resolution.Resolved? || resolution.definition.skill.None? {
        next := s.(failure := Some(CapabilityUnavailable));
        signals := [RouteSignal(s.step, LabelLoadSkill, Some(asked), false)];
        return;
      }
      var d := resolution.definition;
      if !CanLoadKnowledge(budget.Value(), v.now) || |s.observations| >= MAX_OBSERVATION_MESSAGES_IN_PROMPT {
        next := s.(failure := Some(BudgetExhausted));
        signals := [RouteSignal(s.step, LabelBudgetExhausted, Some(asked), false)];
        return;
      }
      var repeated := false;
      for i := 0 to |s.degraded|
        invariant repeated <==> (id, version) in s.degraded[..i]
      {
        if s.degraded[i] == (id, version) { repeated := true; }
        assert s.degraded[..i + 1] == s.degraded[..i] + [s.degraded[i]];
      }
      assert s.degraded[..|s.degraded|] == s.degraded;
      if repeated {
        next := s.(failure := Some(CapabilityUnavailable));
        signals := [RouteSignal(s.step, LabelLoadSkill, Some(asked), false)];
        return;
      }
      if v.skill.SkillUnavailable? {
        next := s.(degraded := s.degraded + [(d.id, d.version)],
                   observations := s.observations + [Observation(d.id, d.version, s.step, false)]);
        signals := [RouteSignal(s.step, LabelLoadSkill, Some(RefOf(d)), false)];
        return;
      }
      var skill := if v.skill.LoadsDeclared? then d.skill.value else v.skill.skill;
      var recorded := budget.RecordKnowledgeLoad();
      next := s.(loaded := s.loaded + [Loaded(d.id, d.version, skill)],
                 observations := s.observations + [Observation(d.id, d.version, s.step, true)],
                 used := s.used + [Use(d.id, d.version, d.kind, UseLoaded)]);
      signals := [RouteSignal(s.step, LabelLoadSkill, Some(RefOf(d)), true)];
    }

    method RunInvokeNode(s: State, v: Visit) returns (next: State, signals: seq<Signal>)
      requires Entered(Invoke, s)
      modifies budget
      ensures Update(next, signals, budget.Value()) == InvokeStep(k, materials, s, old(budget.Value()), v)
    {
      hide Resolve;
      var id, version := s.decision.value.id, s.decision.value.version;
      var resolution := Resolve(k.definitions, id, version, Some(Execution));
      if !resolution.Resolved? {
        next := s.(failure := Some(CapabilityUnavailable));
        signals := [RouteSignal(s.step, LabelInvoke, Some(CapabilityRef(id, version, resolution.ActualKind(Execution))), false)];
        return;
      }
      var d := resolution.definition;
      var grant := budget.StartCall(v.now);
      if grant.None? {
        next := s.(failure := Some(BudgetExhausted));
        signals := [RouteSignal(s.step, LabelBudgetExhausted, Some(RefOf(d)), false)];
        return;
      }
      var called := CallStep(k, materials, s, budget.Value(), v, d, s.decision.value.inputs, grant.value.clipped);
      assert called.b == budget.Value();
      hide CallStep;
      return called.s, called.signals;
    }

    /** `stream`: visit nodes until END, folding updates and passing signals on; then set the outcome. */
    method Stream(world: nat -> Visit) returns (signals: seq<Signal>)
      modifies this, budget
      ensures var t := Run(k, materials, DecideNode, START, old(budget.Value()), world, 0);
              signals == t.signals && outcome == Some(OutcomeOf(t.s)) && budget.Value() == t.b
    {
      hide StepAt, RouteFrom, Rank;
      var node, final := DecideNode, START;
      var i := 0;
      signals := [];
      ghost var t := Run(k, materials, DecideNode, START, budget.Value(), world, 0);
      while node != End
        invariant Entered(node, final)
        invariant var rest := Run(k, materials, node, final, budget.Value(), world, i);
                  t.signals == signals + rest.signals && t.s == rest.s && t.b == rest.b
        decreases Rank(node, budget.Value())
      {
        ghost var before := budget.Value();
        RankDecreases(k, materials, node, final, before, world(i));
        ghost var u := StepAt(k, materials, node, final, before, world(i));
        ghost var rest := Run(k, materials, RouteFrom(node, u.s), u.s, u.b, world, i + 1);
        assert signals + (u.signals + rest.signals) == signals + u.signals + rest.signals;
        var next, emitted := Visited(node, final, world(i));
        signals := signals + emitted;
        final := next;
        node := RouteFrom(node, final);
        i := i + 1;
      }
      outcome := Some(OutcomeOf(final));
    }

    /** One visit: the graph calls the node it stands on. */
    method Visited(node: Node, s: State, v: Visit) returns (next: State, signals: seq<Signal>)
      requires node != End && Entered(node, s)
      modifies budget
      ensures Update(next, signals, budget.Value()) == StepAt(k, materials, node, s, old(budget.Value()), v)
    {
      hide DecideStep, LoadSkillStep, InvokeStep;
      match node {
        case DecideNode => next, signals := RunDecideNode(s, v);
        case LoadSkill => next, signals := RunLoadSkillNode(s, v);
        case Invoke => next, signals := RunInvokeNode(s, v);
        case FinalizeAnswer =>
          var update := FinalizeAnswerStep(k, s, budget.Value(), v);
          next, signals := update.s, update.signals;
        case FinalizeNeedsInput =>
          var update := FinalizeNeedsInputStep(k, s, budget.Value(), v);
          next, signals := update.s, update.signals;
      }
    }
  }
}
