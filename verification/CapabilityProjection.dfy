/**
 From kernel signals to stored events to the public capability summary: the executor's event fields
 (infrastructure/agent_runtime/run_executor.py), the whitelist every stored event passes
 (application/services.py) and the fold over stored events (api/v1/resources.py).
 */
module CapabilityProjection {
  import opened Wrappers
  import TC = TextCompare
  import opened Capabilities
  import MD = MainDelivery
  import AB = AgentBudget
  import RK = ReactKernel
  import RL = RunLifecycle

  /** The keys event data may use; an executor may add any others. */
  datatype Field =
    | NodeName | Summary | Role | Status | DurationMs | Mode | ServiceId | CapabilityId | CapabilityVersion
    | CapabilityKindOf | DecisionOf | OutcomeOf | Step | Steps | Unlisted(name: string)

  type Data = map<Field, Json>

  datatype Json = JNull | JBool(b: bool) | JInt(n: int) | JString(s: string) | JOther

  /** Stored event data; a damaged row need not hold an object. */
  datatype Payload = Fields(data: Data) | Damaged

  datatype RawEvent = RawEvent(kind: RL.EventType, node: string, data: Data)

  datatype StoredEvent = StoredEvent(kind: RL.EventType, payload: Payload)

  const MAX_CAPABILITY_VERSION := 1_000_000
  const TRACE_FIELDS := [Summary, Role, Status, DurationMs, Mode, ServiceId]
  const CAPABILITY_FIELDS := [CapabilityId, CapabilityVersion, CapabilityKindOf]
  const RUN_FIELDS := [DecisionOf, OutcomeOf, Step, Steps]

  function Get(data: Data, field: Field): Json { if field in data then data[field] else JNull }

  predicate OneOf(v: Json, values: set<string>) { v.JString? && v.s in values }

  predicate IsRole(v: Json) { OneOf(v, {"db", "log", "server", "knowledge"}) }

  predicate IsMode(v: Json) { OneOf(v, {"mock", "target"}) }

  predicate IsKind(v: Json) { OneOf(v, {"knowledge", "execution"}) }

  predicate IsTraceStatus(v: Json) {
    OneOf(v, {"running", "completed", "failed", "skipped", "ok", "attention", "unavailable", "rejected", "timeout", "error"})
  }

  predicate IsDecision(v: Json) {
    OneOf(v, {"answer", "needs_input", "load_skill", "invoke_capability", "budget_exhausted", "failed"})
  }

  predicate IsOutcome(v: Json) {
    OneOf(v, {"answer", "answer_with_knowledge", "needs_input", "comparison", "failed", "budget_exhausted", "canceled"})
  }

  predicate Between(v: Json, lo: int, hi: int) { v.JInt? && lo <= v.n <= hi }

  // ----- the whitelist

  /** Whether a stored event keeps the executor's value of `field`. */
  predicate Keeps(e: RawEvent, services: set<string>, capabilities: set<string>, field: Field) {
    var v := Get(e.data, field);
    var accepted := OneOf(Get(e.data, CapabilityId), capabilities);
    match field
    case Summary => e.kind != RL.ToolInvoked && v.JString? && 0 < |v.s| <= 280
    case Role => IsRole(v)
    case Status => IsTraceStatus(v)
    case DurationMs => Between(v, 0, 60_000)
    case Mode => IsMode(v)
    case ServiceId => OneOf(v, services)
    case CapabilityId => accepted
    case CapabilityVersion => accepted && Between(v, 1, MAX_CAPABILITY_VERSION)
    case CapabilityKindOf => accepted && IsKind(v)
    case DecisionOf => IsDecision(v)
    case OutcomeOf => IsOutcome(v)
    case Step => Between(v, 1, AB.MAX_MAIN_DECISIONS)
    case Steps => e.kind == RL.AgentDone && Between(v, 1, AB.MAX_MAIN_DECISIONS)
    case _ => false
  }

  /** The neutral text a tool event gets instead of its own summary. */
  function ToolSummary(status: Json): string {
    if status == JString("running") then "工具调用中"
    else if status == JString("completed") then "工具调用完成"
    else if status == JString("failed") then "工具调用失败"
    else if status == JString("skipped") then "工具调用已跳过"
    else if status == JString("ok") then "工具调用成功"
    else if status == JString("attention") then "工具调用需要关注"
    else if status == JString("unavailable") then "工具调用不可用"
    else if status == JString("rejected") then "工具调用已拒绝"
    else if status == JString("timeout") then "工具调用超时"
    else if status == JString("error") then "工具调用失败"
    else "工具调用状态已更新"
  }

  /** The executor's values that survive, among the given fields. */
  function Kept(e: RawEvent, services: set<string>, capabilities: set<string>, fields: seq<Field>): Data {
    map field | field in fields && Keeps(e, services, capabilities, field) :: Get(e.data, field)
  }

  /** What the service writes itself. */
  function Own(e: RawEvent): Data {
    if e.kind == RL.ToolInvoked
    then map[NodeName := JString(e.node), Summary := JString(ToolSummary(Get(e.data, Status)))]
    else map[NodeName := JString(e.node)]
  }

  /** What is stored of an event, field by field. */
  function SafeData(e: RawEvent, services: set<string>, capabilities: set<string>): Data {
    Own(e) + Kept(e, services, capabilities, TRACE_FIELDS + CAPABILITY_FIELDS + RUN_FIELDS)
  }

  lemma KeptGrows(e: RawEvent, services: set<string>, capabilities: set<string>, fields: seq<Field>, n: nat)
    requires n < |fields|
    ensures Kept(e, services, capabilities, fields[..n + 1])
            == if Keeps(e, services, capabilities, fields[n])
               then Kept(e, services, capabilities, fields[..n])[fields[n] := Get(e.data, fields[n])]
               else Kept(e, services, capabilities, fields[..n])
    ensures n == 0 ==> Kept(e, services, capabilities, fields[..n]) == map[]
    ensures n + 1 == |fields| ==> fields[..n + 1] == fields
  {
    hide Keeps;
    assert fields[..n + 1] == fields[..n] + [fields[n]];
  }

  method TraceFields(e: RawEvent, services: set<string>, capabilities: set<string>) returns (data: Data)
    ensures data == Kept(e, services, capabilities, TRACE_FIELDS)
  {
    hide Kept, OneOf, Between, IsRole, IsMode, IsTraceStatus;
    data := map[];
    var summary := Get(e.data, Summary);
    if e.kind != RL.ToolInvoked && summary.JString? && 0 < |summary.s| <= 280 { data := data[Summary := summary]; }
    KeptGrows(e, services, capabilities, TRACE_FIELDS, 0);
    if IsRole(Get(e.data, Role)) { data := data[Role := Get(e.data, Role)]; }
    KeptGrows(e, services, capabilities, TRACE_FIELDS, 1);
    if IsTraceStatus(Get(e.data, Status)) { data := data[Status := Get(e.data, Status)]; }
    KeptGrows(e, services, capabilities, TRACE_FIELDS, 2);
    if Between(Get(e.data, DurationMs), 0, 60_000) { data := data[DurationMs := Get(e.data, DurationMs)]; }
    KeptGrows(e, services, capabilities, TRACE_FIELDS, 3);
    if IsMode(Get(e.data, Mode)) { data := data[Mode := Get(e.data, Mode)]; }
    KeptGrows(e, services, capabilities, TRACE_FIELDS, 4);
    if OneOf(Get(e.data, ServiceId), services) { data := data[ServiceId := Get(e.data, ServiceId)]; }
    KeptGrows(e, services, capabilities, TRACE_FIELDS, 5);
  }

  method CapabilityFields(e: RawEvent, services: set<string>, capabilities: set<string>) returns (data: Data)
    ensures data == Kept(e, services, capabilities, CAPABILITY_FIELDS)
  {
    hide Kept, OneOf, Between, IsKind;
    data := map[];
    KeptGrows(e, services, capabilities, CAPABILITY_FIELDS, 0);
    KeptGrows(e, services, capabilities, CAPABILITY_FIELDS, 1);
    KeptGrows(e, services, capabilities, CAPABILITY_FIELDS, 2);
    var capability, version, kind := Get(e.data, CapabilityId), Get(e.data, CapabilityVersion), Get(e.data, CapabilityKindOf);
    if OneOf(capability, capabilities) {
      data := data[CapabilityId := capability];
      if Between(version, 1, MAX_CAPABILITY_VERSION) { data := data[CapabilityVersion := version]; }
      if IsKind(kind) { data := data[CapabilityKindOf := kind]; }
    }
  }

  method RunFields(e: RawEvent, services: set<string>, capabilities: set<string>) returns (data: Data)
    ensures data == Kept(e, services, capabilities, RUN_FIELDS)
  {
    hide Kept, Between, IsDecision, IsOutcome;
    data := map[];
    if IsDecision(Get(e.data, DecisionOf)) { data := data[DecisionOf := Get(e.data, DecisionOf)]; }
    KeptGrows(e, services, capabilities, RUN_FIELDS, 0);
    if IsOutcome(Get(e.data, OutcomeOf)) { data := data[OutcomeOf := Get(e.data, OutcomeOf)]; }
    KeptGrows(e, services, capabilities, RUN_FIELDS, 1);
    if Between(Get(e.data, Step), 1, AB.MAX_MAIN_DECISIONS) { data := data[Step := Get(e.data, Step)]; }
    KeptGrows(e, services, capabilities, RUN_FIELDS, 2);
    var steps := Get(e.data, Steps);
    if e.kind == RL.AgentDone && Between(steps, 1, AB.MAX_MAIN_DECISIONS) { data := data[Steps := steps]; }
    KeptGrows(e, services, capabilities, RUN_FIELDS, 3);
  }

  lemma KeptJoins(e: RawEvent, services: set<string>, capabilities: set<string>, front: seq<Field>, back: seq<Field>)
    ensures Kept(e, services, capabilities, front) + Kept(e, services, capabilities, back)
            == Kept(e, services, capabilities, front + back)
  {
    hide Keeps;
  }

  /** `_safe_event_data`: the service's own fields, then each group of the executor's. */
  method SafeEventData(e: RawEvent, services: set<string>, capabilities: set<string>) returns (data: Data)
    ensures data == SafeData(e, services, capabilities)
  {
    hide Kept, ToolSummary;
    data := map[NodeName := JString(e.node)];
    if e.kind == RL.ToolInvoked { data := data[Summary := JString(ToolSummary(Get(e.data, Status)))]; }
    assert data == Own(e);
    hide Own;
    var trace := TraceFields(e, services, capabilities);
    var capability := CapabilityFields(e, services, capabilities);
    var run := RunFields(e, services, capabilities);
    KeptJoins(e, services, capabilities, TRACE_FIELDS, CAPABILITY_FIELDS);
    KeptJoins(e, services, capabilities, TRACE_FIELDS + CAPABILITY_FIELDS, RUN_FIELDS);
    data := data + trace + capability + run;
    assert data == Own(e) + (trace + capability + run);
  }

  // ----- what is stored, in the terms of the event

  /**
   What the service is willing to store in a field: a role, status or mode of the closed lists, a duration up
   to a minute, a service of the session's, a capability that is known, with a version in range and its kind,
   a decision, an outcome, a step number; nothing under any other name.
   */
  ghost predicate Fit(e: RawEvent, services: set<string>, capabilities: set<string>, field: Field)
    requires field in e.data
  {
    var v := e.data[field];
    var known := CapabilityId in e.data && e.data[CapabilityId].JString? && e.data[CapabilityId].s in capabilities;
    match field
    case Summary => e.kind != RL.ToolInvoked && v.JString? && 1 <= |v.s| <= 280
    case Role => v.JString? && v.s in {"db", "log", "server", "knowledge"}
    case Status => v.JString? && v.s in {"running", "completed", "failed", "skipped", "ok", "attention", "unavailable", "rejected",
                                         "timeout", "error"}
    case DurationMs => v.JInt? && 0 <= v.n <= 60_000
    case Mode => v.JString? && v.s in {"mock", "target"}
    case ServiceId => v.JString? && v.s in services
    case CapabilityId => known
    case CapabilityVersion => known && v.JInt? && 1 <= v.n <= 1_000_000
    case CapabilityKindOf => known && v.JString? && v.s in {"knowledge", "execution"}
    case DecisionOf => v.JString? && v.s in {"answer", "needs_input", "load_skill", "invoke_capability", "budget_exhausted", "failed"}
    case OutcomeOf => v.JString? && v.s in {"answer", "answer_with_knowledge", "needs_input", "comparison", "failed",
                                            "budget_exhausted", "canceled"}
    case Step => v.JInt? && 1 <= v.n <= 6
    case Steps => e.kind == RL.AgentDone && v.JInt? && 1 <= v.n <= 6
    case _ => false
  }

  /** The stored data has the executor's value of the field, unchanged, exactly when there is one and it is fit to store. */
  ghost predicate Copied(data: Data, e: RawEvent, services: set<string>, capabilities: set<string>, field: Field) {
    && (field in data <==> field in e.data && Fit(e, services, capabilities, field))
    && (field in data ==> data[field] == e.data[field])
  }

  const TOOL_SUMMARIES := map[
    "running" := "工具调用中", "completed" := "工具调用完成", "failed" := "工具调用失败", "skipped" := "工具调用已跳过",
    "ok" := "工具调用成功", "attention" := "工具调用需要关注", "unavailable" := "工具调用不可用", "rejected" := "工具调用已拒绝",
    "timeout" := "工具调用超时", "error" := "工具调用失败"]

  lemma {:induction false} SummaryOfStatus(status: Json)
    ensures ToolSummary(status)
            == if status.JString? && status.s in TOOL_SUMMARIES then TOOL_SUMMARIES[status.s] else "工具调用状态已更新"
  {
  }

  predicate Listed(field: Field) { field in TRACE_FIELDS + CAPABILITY_FIELDS + RUN_FIELDS }

  lemma {:induction false} StoredIs(e: RawEvent, services: set<string>, capabilities: set<string>, field: Field)
    ensures var data := SafeData(e, services, capabilities);
            if Listed(field) && Keeps(e, services, capabilities, field) then field in data && data[field] == Get(e.data, field)
            else if field in Own(e) then field in data && data[field] == Own(e)[field]
            else field !in data
  {
    hide Keeps, Own;
  }

  /**
   A tool event never stores the executor's own summary, but the fixed text of its status. Any other event
   stores its summary when it is a text of 1 to 280 characters. The node is always stored.
   */
  lemma {:induction false} ToolSummariesAreNeutral(e: RawEvent, services: set<string>, capabilities: set<string>)
    ensures var data := SafeData(e, services, capabilities);
            && NodeName in data && data[NodeName] == JString(e.node)
            && (e.kind == RL.ToolInvoked ==>
                  && Summary in data
                  && data[Summary] == JString(if Status in e.data && e.data[Status].JString? && e.data[Status].s in TOOL_SUMMARIES
                                              then TOOL_SUMMARIES[e.data[Status].s] else "工具调用状态已更新"))
            && (e.kind != RL.ToolInvoked ==> Copied(data, e, services, capabilities, Summary))
  {
    StoredIs(e, services, capabilities, Summary);
    StoredIs(e, services, capabilities, NodeName);
    KeepsIffFit(e, services, capabilities, Summary);
    SummaryOfStatus(Get(e.data, Status));
    hide SafeData, Fit, ToolSummary;
  }

  lemma {:induction false} KeepsIffFit(e: RawEvent, services: set<string>, capabilities: set<string>, field: Field)
    ensures Listed(field) && Keeps(e, services, capabilities, field) <==> field in e.data && Fit(e, services, capabilities, field)
  {
  }

  /** Every other stored value is the executor's own and fit, and every fit one is stored. */
  lemma {:induction false} StoredValuesAreFit(e: RawEvent, services: set<string>, capabilities: set<string>, field: Field)
    requires field != NodeName && field != Summary
    ensures Copied(SafeData(e, services, capabilities), e, services, capabilities, field)
  {
    StoredIs(e, services, capabilities, field);
    KeepsIffFit(e, services, capabilities, field);
    hide SafeData, Listed, Keeps, Fit;
  }

  // ----- the fold over stored events

  datatype UseItem = UseItem(kind: CapabilityKind, status: RK.UseStatus)

  datatype Fold = Fold(used: map<Key, UseItem>, degraded: map<Key, UseItem>, steps: Option<int>, maxStep: Option<int>)

  const NOTHING := Fold(map[], map[], None, None)

  datatype ProjectionStatus = Available | Unavailable | Absent

  datatype Summarised = Summarised(used: map<Key, UseItem>, degraded: map<Key, UseItem>, steps: Option<int>)

  datatype Projection = Projection(capabilities: Option<Summarised>, status: Option<ProjectionStatus>, knowledge: Option<MD.Grounding>)

  predicate IsAction(decision: Json) { decision == JString("load_skill") || decision == JString("invoke_capability") }

  predicate IsRouteStatus(v: Json) { v == JString("ok") || v == JString("unavailable") }

  function KindFrom(v: Json): CapabilityKind { if v == JString("knowledge") then Knowledge else Execution }

  function Highest(most: Option<int>, step: int): Option<int> {
    if most.Some? && most.value > step then most else Some(step)
  }

  function ItemStatus(decision: Json, ok: bool): RK.UseStatus {
    if !ok then RK.UseUnavailable else if decision == JString("load_skill") then RK.UseLoaded else RK.UseOk
  }

  /** One route event; None when it is malformed. */
  function FoldRoute(f: Fold, data: Data): Option<Fold> {
    var decision, step, status := Get(data, DecisionOf), Get(data, Step), Get(data, Status);
    var id, version, kind := Get(data, CapabilityId), Get(data, CapabilityVersion), Get(data, CapabilityKindOf);
    if !IsDecision(decision) || !Between(step, 1, AB.MAX_MAIN_DECISIONS) || !(status.JNull? || IsRouteStatus(status)) then None
    else
      var g := f.(maxStep := Highest(f.maxStep, step.n));
      if id.JNull? then if version.JNull? && kind.JNull? then Some(g) else None
      else if !id.JString? || id.s == "" || !version.JInt? || version.n < 1 || !IsKind(kind) || status.JNull? then None
      else
        var ok := status == JString("ok");
        var item := UseItem(KindFrom(kind), ItemStatus(decision, ok));
        if ok && !IsAction(decision) then None
        else if ok then Some(g.(used := g.used[(id.s, version.n) := item]))
        else Some(g.(degraded := g.degraded[(id.s, version.n) := item]))
  }

  function FoldDone(f: Fold, data: Data): Option<Fold> {
    if Between(Get(data, Steps), 1, AB.MAX_MAIN_DECISIONS) && IsOutcome(Get(data, OutcomeOf))
    then Some(f.(steps := Some(Get(data, Steps).n))) else None
  }

  function FoldEvent(f: Fold, e: StoredEvent): Option<Fold> {
    if e.payload.Damaged? then None
    else if e.kind == RL.RouteDecided then FoldRoute(f, e.payload.data)
    else if e.kind == RL.AgentDone then FoldDone(f, e.payload.data)
    else Some(f)
  }

  function FoldEvents(f: Fold, events: seq<StoredEvent>): Option<Fold>
    decreases |events|
  {
    if events == [] then Some(f)
    else match FoldEvent(f, events[0]) case None => None case Some(g) => FoldEvents(g, events[1..])
  }

  function KnowledgeOf(delivery: Option<MD.Delivery>): Option<MD.Grounding> {
    if delivery.Some? && delivery.value.Answer? then delivery.value.grounding else None
  }

  /** The delivery vouches for what it used. */
  function Vouched(used: map<Key, UseItem>, delivery: Option<MD.Delivery>): map<Key, UseItem> {
    match delivery
    case Some(ComparisonDelivery(c)) => used[(c.capabilityId, c.capabilityVersion) := UseItem(Execution, RK.UseOk)]
    case Some(Answer(_, Some(g))) => used[(g.capabilityId, g.capabilityVersion) := UseItem(Knowledge, RK.UseLoaded)]
    case _ => used
  }

  function Summarise(f: Fold, delivery: Option<MD.Delivery>): Projection {
    var used := Vouched(f.used, delivery);
    var degraded := f.degraded - used.Keys;
    if used == map[] && degraded == map[] then Projection(None, Some(Absent), KnowledgeOf(delivery))
    else
      Projection(Some(Summarised(used, degraded, if f.steps.Some? then f.steps else f.maxStep)), Some(Available), KnowledgeOf(delivery))
  }

  function Unreadable(delivery: Option<MD.Delivery>): Projection {
    Projection(Some(Summarised(map[], map[], None)), Some(Unavailable), KnowledgeOf(delivery))
  }

  function Project(delivery: Option<MD.Delivery>, events: seq<StoredEvent>, unavailable: bool, terminal: bool): Projection {
    if !terminal then Projection(None, None, None)
    else if unavailable then Unreadable(delivery)
    else match FoldEvents(NOTHING, events) case None => Unreadable(delivery) case Some(f) => Summarise(f, delivery)
  }

  /** `main_capability_projection` */
  method MainCapabilityProjection(delivery: Option<MD.Delivery>, events: seq<StoredEvent>, unavailable: bool, terminal: bool)
    returns (p: Projection)
    ensures p == Project(delivery, events, unavailable, terminal)
  {
    if !terminal { return Projection(None, None, None); }
    if unavailable { return Unreadable(delivery); }
    var f := NOTHING;
    var i := 0;
    while i < |events|
      invariant 0 <= i <= |events|
      invariant FoldEvents(NOTHING, events) == FoldEvents(f, events[i..])
    {
      hide FoldEvent;
      assert events[i..][0] == events[i] && events[i..][1..] == events[i + 1..];
      var folded := FoldEvent(f, events[i]);
      if folded.None? { return Unreadable(delivery); }
      f := folded.value;
      i := i + 1;
    }
    var used := Vouched(f.used, delivery);
    var degraded, rest := f.degraded, used.Keys;
    while rest != {}
      invariant rest <= used.Keys
      invariant degraded == f.degraded - (used.Keys - rest)
      decreases rest
    {
      var key :| key in rest;
      degraded := degraded - {key};
      rest := rest - {key};
    }
    assert degraded == f.degraded - used.Keys;
    if used == map[] && degraded == map[] { return Projection(None, Some(Absent), KnowledgeOf(delivery)); }
    return Projection(Some(Summarised(used, degraded, if f.steps.Some? then f.steps else f.maxStep)), Some(Available), KnowledgeOf(delivery));
  }

  // ----- the kernel's signals as events

  function Word(route: RK.Label): string {
    match route
    case LabelAnswer => "answer"
    case LabelNeedsInput => "needs_input"
    case LabelLoadSkill => "load_skill"
    case LabelInvoke => "invoke_capability"
    case LabelBudgetExhausted => "budget_exhausted"
    case LabelFailed => "failed"
  }

  function KindWord(kind: CapabilityKind): string { match kind case Knowledge => "knowledge" case Execution => "execution" }

  function ToolWord(status: RK.ToolStatus): string {
    match status
    case ToolOk => "ok"
    case ToolUnavailable => "unavailable"
    case ToolRejected => "rejected"
    case ToolTimeout => "timeout"
    case ToolError => "error"
  }

  /** `_signal_event`, its fixed summary texts left out. */
  function EventOf(signal: RK.Signal, mode: string): RawEvent {
    match signal
    case RouteSignal(step, route, capability, ok) =>
      var base := map[Mode := JString(mode), Step := JInt(step), DecisionOf := JString(Word(route)),
                      Status := JString(if ok then "ok" else "unavailable")];
      RawEvent(RL.RouteDecided, "main_agent",
               match capability
               case None => base
               case Some(c) => base[CapabilityId := JString(c.id)][CapabilityVersion := JInt(c.version)][CapabilityKindOf := JString(KindWord(c.kind))])
    case ToolSignal(step, id, version, status) =>
      RawEvent(RL.ToolInvoked, "main_agent",
               map[Mode := JString(mode), Step := JInt(step), CapabilityId := JString(id), CapabilityVersion := JInt(version),
                   Status := JString(ToolWord(status))])
  }

  /** `_agent_outcome` */
  function OutcomeWord(o: RK.Outcome): string {
    if o.failure == Some(RK.BudgetExhausted) then "budget_exhausted"
    else if o.failure.Some? || o.delivery.None? then "failed"
    else
      match o.delivery.value
      case Answer(_, g) => if g.Some? then "answer_with_knowledge" else "answer"
      case NeedsInput(_) => "needs_input"
      case ComparisonDelivery(_) => "comparison"
  }

  /** The reported outcome of a run that was not cancelled is what the kernel did. */
  lemma OutcomeWordTells(k: RK.Kernel, materials: map<RK.Id, TC.Material>, limits: AB.Limits, deadline: real, world: nat -> RK.Visit)
    requires WellKeyed(k.definitions)
    ensures var s := RK.WholeRun(k, materials, limits, deadline, world).s; var word := OutcomeWord(RK.OutcomeOf(s));
            && (word == "budget_exhausted" <==> s.failure == Some(RK.BudgetExhausted))
            && (word == "comparison" <==> s.used != [] && s.used[|s.used| - 1].status == RK.UseOk)
            && (word == "answer_with_knowledge" <==> s.delivery.Some? && s.delivery.value.Answer? && s.loaded != [])
            && (word == "answer" <==> s.delivery.Some? && s.delivery.value.Answer? && s.loaded == [])
            && (word == "needs_input" <==> s.delivery.Some? && s.delivery.value.NeedsInput?)
  {
    RK.OutcomeIsOneThing(k, materials, limits, deadline, world);
    var s := RK.WholeRun(k, materials, limits, deadline, world).s;
    if s.delivery.Some? {
      RK.RunShapes(k, materials, RK.DecideNode, RK.START, AB.Budget(limits, deadline, 0, 0, 0), world, 0, 0);
      assert RK.DeliveryShape(k, s);
    }
    hide RK.Run, RK.WholeRun;
  }

  function DoneEvent(o: RK.Outcome, mode: string): RawEvent {
    RawEvent(RL.AgentDone, "main_agent", map[Mode := JString(mode), Steps := JInt(o.steps), OutcomeOf := JString(OutcomeWord(o))])
  }

  function StoredAs(e: RawEvent, services: set<string>, capabilities: set<string>): StoredEvent {
    StoredEvent(e.kind, Fields(SafeData(e, services, capabilities)))
  }

  function StoredSignals(signals: seq<RK.Signal>, mode: string, services: set<string>, capabilities: set<string>): seq<StoredEvent> {
    if signals == [] then []
    else [StoredAs(EventOf(signals[0], mode), services, capabilities)] + StoredSignals(signals[1..], mode, services, capabilities)
  }

  // ----- what the fold makes of the kernel's signals

  /** Every signal the kernel emits has this shape. */
  predicate SignalOk(signal: RK.Signal) {
    signal.RouteSignal? ==>
      && 1 <= signal.step <= AB.MAX_MAIN_DECISIONS
      && (signal.capability.Some? && signal.ok ==> signal.route in {RK.LabelLoadSkill, RK.LabelInvoke})
  }

  /** A route signal of a registered capability whose version the whitelist drops. */
  predicate VersionDropped(signal: RK.Signal, capabilities: set<string>) {
    && signal.RouteSignal? && signal.capability.Some? && signal.capability.value.id in capabilities
    && !(1 <= signal.capability.value.version <= MAX_CAPABILITY_VERSION)
  }

  lemma SafeGet(e: RawEvent, services: set<string>, capabilities: set<string>, field: Field)
    requires e.kind == RL.RouteDecided || e.kind == RL.AgentDone
    requires !field.NodeName? && !field.Unlisted?
    ensures Get(SafeData(e, services, capabilities), field)
            == if Keeps(e, services, capabilities, field) then Get(e.data, field) else JNull
  {
    hide Keeps;
    var fields := TRACE_FIELDS + CAPABILITY_FIELDS + RUN_FIELDS;
    assert fields == [Summary, Role, Status, DurationMs, Mode, ServiceId, CapabilityId, CapabilityVersion,
                      CapabilityKindOf, DecisionOf, OutcomeOf, Step, Steps];
    assert field in fields;
    assert field !in Own(e);
  }

  /** A signal's effect on the fold, in the kernel's own terms. */
  function FoldSignal(f: Fold, signal: RK.Signal, capabilities: set<string>): Option<Fold> {
    match signal
    case ToolSignal(_, _, _, _) => Some(f)
    case RouteSignal(step, route, capability, ok) =>
      var g := f.(maxStep := Highest(f.maxStep, step));
      if capability.None? || capability.value.id !in capabilities then Some(g)
      else if VersionDropped(signal, capabilities) then None
      else
        var c := capability.value;
        var status := if !ok then RK.UseUnavailable else if route == RK.LabelLoadSkill then RK.UseLoaded else RK.UseOk;
        var item := UseItem(c.kind, status);
        if ok then Some(g.(used := g.used[(c.id, c.version) := item])) else Some(g.(degraded := g.degraded[(c.id, c.version) := item]))
  }

  lemma WordsAreDecisions(route: RK.Label)
    ensures IsDecision(JString(Word(route)))
    ensures IsAction(JString(Word(route))) <==> route in {RK.LabelLoadSkill, RK.LabelInvoke}
    ensures JString(Word(route)) == JString("load_skill") <==> route == RK.LabelLoadSkill
  {
  }

  lemma KindWords(kind: CapabilityKind)
    ensures IsKind(JString(KindWord(kind))) && KindFrom(JString(KindWord(kind))) == kind
  {
  }

  lemma StatusWords()
    ensures IsTraceStatus(JString("ok")) && IsTraceStatus(JString("unavailable"))
    ensures IsRouteStatus(JString("ok")) && IsRouteStatus(JString("unavailable"))
    ensures JString("ok") != JString("unavailable")
  {
  }

  /** The fields of a route event before the whitelist. */
  lemma RawRouteFields(signal: RK.Signal, mode: string)
    requires signal.RouteSignal?
    ensures var data := EventOf(signal, mode).data;
            && Get(data, DecisionOf) == JString(Word(signal.route)) && Get(data, Step) == JInt(signal.step)
            && Get(data, Status) == JString(if signal.ok then "ok" else "unavailable")
            && Get(data, CapabilityId) == (if signal.capability.Some? then JString(signal.capability.value.id) else JNull)
            && Get(data, CapabilityVersion) == (if signal.capability.Some? then JInt(signal.capability.value.version) else JNull)
            && Get(data, CapabilityKindOf) == (if signal.capability.Some? then JString(KindWord(signal.capability.value.kind)) else JNull)
  {
    hide Word, KindWord;
  }

  /** Which of a route event's fields the whitelist keeps. */
  lemma RouteFieldsKept(signal: RK.Signal, mode: string, services: set<string>, capabilities: set<string>)
    requires signal.RouteSignal? && SignalOk(signal)
    ensures var e := EventOf(signal, mode);
            Keeps(e, services, capabilities, DecisionOf) && Keeps(e, services, capabilities, Step) && Keeps(e, services, capabilities, Status)
  {
    RawRouteFields(signal, mode);
    WordsAreDecisions(signal.route);
    StatusWords();
    hide EventOf, Get, Word, KindWord, IsDecision, IsAction, IsTraceStatus, IsRouteStatus, IsRole, IsMode, IsKind, IsOutcome, OneOf;
  }

  lemma RouteFields(signal: RK.Signal, mode: string, services: set<string>, capabilities: set<string>)
    requires signal.RouteSignal? && SignalOk(signal)
    ensures var data := SafeData(EventOf(signal, mode), services, capabilities);
            && Get(data, DecisionOf) == JString(Word(signal.route)) && Get(data, Step) == JInt(signal.step)
            && Get(data, Status) == JString(if signal.ok then "ok" else "unavailable")
  {
    var e := EventOf(signal, mode);
    assert e.kind == RL.RouteDecided;
    RawRouteFields(signal, mode);
    RouteFieldsKept(signal, mode, services, capabilities);
    hide EventOf, SafeData, Keeps, Get, Word, SignalOk;
    SafeGet(e, services, capabilities, DecisionOf);
    SafeGet(e, services, capabilities, Step);
    SafeGet(e, services, capabilities, Status);
  }

  lemma RouteCapabilityKept(signal: RK.Signal, mode: string, services: set<string>, capabilities: set<string>)
    requires signal.RouteSignal?
    ensures var e := EventOf(signal, mode);
            if signal.capability.Some? && signal.capability.value.id in capabilities then
              && Keeps(e, services, capabilities, CapabilityId) && Keeps(e, services, capabilities, CapabilityKindOf)
              && (Keeps(e, services, capabilities, CapabilityVersion) <==> !VersionDropped(signal, capabilities))
            else !Keeps(e, services, capabilities, CapabilityId) && !Keeps(e, services, capabilities, CapabilityKindOf)
                 && !Keeps(e, services, capabilities, CapabilityVersion)
  {
    RawRouteFields(signal, mode);
    if signal.capability.Some? { KindWords(signal.capability.value.kind); }
    hide EventOf, Get, Word, KindWord, KindFrom, IsDecision, IsAction, IsTraceStatus, IsRouteStatus, IsRole, IsMode, IsKind, IsOutcome;
  }

  lemma RouteCapability(signal: RK.Signal, mode: string, services: set<string>, capabilities: set<string>)
    requires signal.RouteSignal?
    ensures var data := SafeData(EventOf(signal, mode), services, capabilities);
            if signal.capability.Some? && signal.capability.value.id in capabilities then
              && Get(data, CapabilityId) == JString(signal.capability.value.id)
              && Get(data, CapabilityKindOf) == JString(KindWord(signal.capability.value.kind))
              && Get(data, CapabilityVersion) == if VersionDropped(signal, capabilities) then JNull else JInt(signal.capability.value.version)
            else Get(data, CapabilityId) == JNull && Get(data, CapabilityKindOf) == JNull && Get(data, CapabilityVersion) == JNull
  {
    var e := EventOf(signal, mode);
    assert e.kind == RL.RouteDecided;
    RawRouteFields(signal, mode);
    RouteCapabilityKept(signal, mode, services, capabilities);
    hide EventOf, SafeData, Keeps, Get, KindWord, VersionDropped;
    SafeGet(e, services, capabilities, CapabilityId);
    SafeGet(e, services, capabilities, CapabilityKindOf);
    SafeGet(e, services, capabilities, CapabilityVersion);
  }

  lemma SignalFolds(f: Fold, signal: RK.Signal, mode: string, services: set<string>, capabilities: set<string>)
    requires SignalOk(signal) && "" !in capabilities
    ensures FoldEvent(f, StoredAs(EventOf(signal, mode), services, capabilities)) == FoldSignal(f, signal, capabilities)
  {
    if signal.RouteSignal? {
      RouteFields(signal, mode, services, capabilities);
      RouteCapability(signal, mode, services, capabilities);
      WordsAreDecisions(signal.route);
      StatusWords();
      if signal.capability.Some? { KindWords(signal.capability.value.kind); }
      hide SafeData, IsDecision, IsAction, IsKind, KindFrom, IsTraceStatus, IsRouteStatus, Word, KindWord;
    }
  }

  function FoldSignals(f: Fold, signals: seq<RK.Signal>, capabilities: set<string>): Option<Fold>
    decreases |signals|
  {
    if signals == [] then Some(f)
    else match FoldSignal(f, signals[0], capabilities) case None => None case Some(g) => FoldSignals(g, signals[1..], capabilities)
  }

  lemma {:induction false} SignalsFold(f: Fold, signals: seq<RK.Signal>, mode: string, services: set<string>, capabilities: set<string>, tail: seq<StoredEvent>)
    requires "" !in capabilities && forall i | 0 <= i < |signals| :: SignalOk(signals[i])
    ensures FoldEvents(f, StoredSignals(signals, mode, services, capabilities) + tail)
            == match FoldSignals(f, signals, capabilities) case None => None case Some(g) => FoldEvents(g, tail)
    decreases |signals|
  {
    hide FoldEvent, FoldSignal, StoredAs, SignalOk;
    var events := StoredSignals(signals, mode, services, capabilities) + tail;
    if signals == [] {
      assert events == tail;
    } else {
      assert events[0] == StoredAs(EventOf(signals[0], mode), services, capabilities);
      assert events[1..] == StoredSignals(signals[1..], mode, services, capabilities) + tail;
      SignalFolds(f, signals[0], mode, services, capabilities);
      match FoldSignal(f, signals[0], capabilities)
      case None =>
      case Some(g) => SignalsFold(g, signals[1..], mode, services, capabilities, tail);
    }
  }
}
