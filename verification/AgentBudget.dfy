/** The strict budget of one main-agent run (backend/src/core/main_agent_budget.py). */
module AgentBudget {
  import opened Wrappers

  const MAX_MAIN_DECISIONS := 6
  const MAX_KNOWLEDGE_LOADS := 2
  const MAX_AGENT_TOOL_CALLS := 3
  const MAX_RUN_WALL_CLOCK_SECONDS := 120.0
  const MAX_MODEL_CALL_SECONDS := 30.0
  const MAX_TOOL_WAIT_SECONDS := 3.0

  datatype Grant = Grant(effectiveSeconds: real, clipped: bool)

  datatype Limits = Limits(decisions: nat, knowledgeLoads: nat, toolCalls: nat)

  const DEFAULT_LIMITS := Limits(MAX_MAIN_DECISIONS, MAX_KNOWLEDGE_LOADS, MAX_AGENT_TOOL_CALLS)

  /** The budget as a value: what is spent, what may be spent, and until when. */
  datatype Budget = Budget(limits: Limits, deadline: real, decisions: nat, knowledgeLoads: nat, toolCalls: nat) {
    predicate WithinLimits() {
      decisions <= limits.decisions && knowledgeLoads <= limits.knowledgeLoads && toolCalls <= limits.toolCalls
    }
  }

  function Remaining(b: Budget, now: real): real { if b.deadline > now then b.deadline - now else 0.0 }

  function GrantFor(b: Budget, now: real, most: real): Grant {
    var remaining := Remaining(b, now);
    Grant(if most <= remaining then most else remaining, remaining < most)
  }

  function StartDecision(b: Budget, now: real): (Option<Grant>, Budget) {
    if b.decisions >= b.limits.decisions || Remaining(b, now) <= 0.0 then (None, b)
    else (Some(GrantFor(b, now, MAX_MODEL_CALL_SECONDS)), b.(decisions := b.decisions + 1))
  }

  predicate CanLoadKnowledge(b: Budget, now: real) {
    b.knowledgeLoads < b.limits.knowledgeLoads && Remaining(b, now) > 0.0
  }

  function StartToolCall(b: Budget, now: real): (Option<Grant>, Budget) {
    if b.toolCalls >= b.limits.toolCalls || Remaining(b, now) <= 0.0 then (None, b)
    else (Some(GrantFor(b, now, MAX_TOOL_WAIT_SECONDS)), b.(toolCalls := b.toolCalls + 1))
  }

  class MainAgentBudget {
    const limits: Limits
    const deadline: real
    var decisions: nat
    var knowledgeLoads: nat
    var toolCalls: nat

    function Value(): Budget
      reads this
    {
      Budget(limits, deadline, decisions, knowledgeLoads, toolCalls)
    }

    /** `now` is the clock reading at construction. */
    constructor (now: real, wallClockSeconds: real, limits: Limits)
      requires wallClockSeconds > 0.0
      ensures Value() == Budget(limits, now + wallClockSeconds, 0, 0, 0) && Value().WithinLimits()
    {
      this.limits := limits;
      deadline := now + wallClockSeconds;
      decisions, knowledgeLoads, toolCalls := 0, 0, 0;
    }

    method StartModelDecision(now: real) returns (grant: Option<Grant>)
      modifies this
      ensures (grant, Value()) == StartDecision(old(Value()), now)
    {
      if decisions >= limits.decisions { return None; }
      var remaining := Remaining(Value(), now);
      if remaining <= 0.0 { return None; }
      decisions := decisions + 1;
      var effective := if remaining < MAX_MODEL_CALL_SECONDS then remaining else MAX_MODEL_CALL_SECONDS;
      return Some(Grant(effective, remaining < MAX_MODEL_CALL_SECONDS));
    }

    /** False when the loads are used up, where the source raises. */
    method RecordKnowledgeLoad() returns (ok: bool)
      modifies this
      ensures ok <==> old(Value()).knowledgeLoads < limits.knowledgeLoads
      ensures Value() == if ok then old(Value()).(knowledgeLoads := old(knowledgeLoads) + 1) else old(Value())
    {
      if knowledgeLoads >= limits.knowledgeLoads { return false; }
      knowledgeLoads := knowledgeLoads + 1;
      return true;
    }

    method StartCall(now: real) returns (grant: Option<Grant>)
      modifies this
      ensures (grant, Value()) == StartToolCall(old(Value()), now)
    {
      if toolCalls >= limits.toolCalls { return None; }
      var remaining := Remaining(Value(), now);
      if remaining <= 0.0 { return None; }
      toolCalls := toolCalls + 1;
      var effective := if remaining < MAX_TOOL_WAIT_SECONDS then remaining else MAX_TOOL_WAIT_SECONDS;
      return Some(Grant(effective, remaining < MAX_TOOL_WAIT_SECONDS));
    }
  }

  datatype Charge = Decide(now: real) | Load(now: real) | CallTool(now: real)

  /** One charge in the order the kernel makes it: a load is recorded only when it was allowed. */
  function Charged(b: Budget, c: Charge): Budget {
    match c
    case Decide(now) => StartDecision(b, now).1
    case Load(now) => if CanLoadKnowledge(b, now) then b.(knowledgeLoads := b.knowledgeLoads + 1) else b
    case CallTool(now) => StartToolCall(b, now).1
  }

  function Spent(b: Budget, charges: seq<Charge>): Budget
    decreases |charges|
  {
    if charges == [] then b else Spent(Charged(b, charges[0]), charges[1..])
  }

  /** No sequence of charges, at any clock readings, passes a limit or moves the deadline. */
  lemma {:induction false} LimitsHold(b: Budget, charges: seq<Charge>)
    requires b.WithinLimits()
    ensures Spent(b, charges).WithinLimits()
    ensures Spent(b, charges).limits == b.limits && Spent(b, charges).deadline == b.deadline
    decreases |charges|
  {
    if charges != [] { LimitsHold(Charged(b, charges[0]), charges[1..]); }
  }

  /**
   A granted call has positive time, at most its own cap, and would end by the deadline; it is
   marked clipped exactly when the total budget, not the cap, bounds it.
   */
  lemma GrantsEndByTheDeadline(b: Budget, now: real)
    ensures var d, t := StartDecision(b, now).0, StartToolCall(b, now).0;
            && (d.Some? <==> b.decisions < b.limits.decisions && now < b.deadline)
            && (t.Some? <==> b.toolCalls < b.limits.toolCalls && now < b.deadline)
            && (d.Some? ==> 0.0 < d.value.effectiveSeconds <= MAX_MODEL_CALL_SECONDS
                            && now + d.value.effectiveSeconds <= b.deadline
                            && (d.value.clipped <==> b.deadline < now + MAX_MODEL_CALL_SECONDS))
            && (t.Some? ==> 0.0 < t.value.effectiveSeconds <= MAX_TOOL_WAIT_SECONDS
                            && now + t.value.effectiveSeconds <= b.deadline
                            && (t.value.clipped <==> b.deadline < now + MAX_TOOL_WAIT_SECONDS))
  {
  }
}
