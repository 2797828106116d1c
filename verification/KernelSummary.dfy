/**
 The public capability summary of a kernel run and the size of its log: what comes out at the end
 of whitelist and fold is what the kernel recorded.
 */
module KernelSummary {
  import opened Wrappers
  import MI = MainInput
  import TC = TextCompare
  import opened Capabilities
  import MD = MainDelivery
  import AB = AgentBudget
  import RK = ReactKernel
  import RL = RunLifecycle
  import RH = RunHistory
  import LG = RunLog
  import RS = RunService
  import RP = Replay
  import opened CapabilityProjection

  // ----- what a list of signals says about uses and refusals

  /** The use a successful capability signal reports. */
  function OkUse(signal: RK.Signal): seq<RK.Use> {
    if signal.RouteSignal? && signal.ok && signal.capability.Some? then
      var c := signal.capability.value;
      [RK.Use(c.id, c.version, c.kind, if signal.route == RK.LabelLoadSkill then RK.UseLoaded else RK.UseOk)]
    else []
  }

  /** The capability an unsuccessful signal names. */
  function Refusal(signal: RK.Signal): seq<RK.Use> {
    if signal.RouteSignal? && !signal.ok && signal.capability.Some? then
      var c := signal.capability.value;
      [RK.Use(c.id, c.version, c.kind, RK.UseUnavailable)]
    else []
  }

  function OkUses(signals: seq<RK.Signal>): seq<RK.Use> {
    if signals == [] then []
    else
      var n := |signals| - 1;
      OkUses(signals[..n]) + OkUse(signals[n])
  }

  function Refusals(signals: seq<RK.Signal>): seq<RK.Use> {
    if signals == [] then []
    else
      var n := |signals| - 1;
      Refusals(signals[..n]) + Refusal(signals[n])
  }

  /** Those of registered capabilities. */
  function Registered(uses: seq<RK.Use>, capabilities: set<string>): seq<RK.Use> {
    if uses == [] then []
    else
      var n := |uses| - 1;
      Registered(uses[..n], capabilities) + if uses[n].id in capabilities then [uses[n]] else []
  }

  /** One entry for each id and version, the latest one. */
  function Items(uses: seq<RK.Use>): map<Key, UseItem> {
    if uses == [] then map[]
    else
      var n := |uses| - 1;
      Items(uses[..n])[(uses[n].id, uses[n].version) := UseItem(uses[n].kind, uses[n].status)]
  }

  lemma {:induction false} ItemsAppend(uses: seq<RK.Use>, u: RK.Use)
    ensures Items(uses + [u]) == Items(uses)[(u.id, u.version) := UseItem(u.kind, u.status)]
  {
    assert (uses + [u])[..|uses|] == uses;
  }

  lemma {:induction false} RegisteredAppend(uses: seq<RK.Use>, u: RK.Use, capabilities: set<string>)
    ensures Registered(uses + [u], capabilities) == Registered(uses, capabilities) + if u.id in capabilities then [u] else []
  {
    assert (uses + [u])[..|uses|] == uses;
  }

  lemma {:induction false} RegisteredAll(uses: seq<RK.Use>, capabilities: set<string>)
    requires forall u | u in uses :: u.id in capabilities
    ensures Registered(uses, capabilities) == uses
    decreases |uses|
  {
    if uses != [] {
      var n := |uses| - 1;
      var front, last := uses[..n], uses[n];
      assert uses == front + [last] && last in uses;
      assert forall u | u in front :: u in uses;
      RegisteredAll(front, capabilities);
      RegisteredAppend(front, last, capabilities);
      hide Registered;
    }
  }

  lemma {:induction false} SignalsAppend(signals: seq<RK.Signal>, signal: RK.Signal)
    ensures OkUses(signals + [signal]) == OkUses(signals) + OkUse(signal)
    ensures Refusals(signals + [signal]) == Refusals(signals) + Refusal(signal)
  {
    assert (signals + [signal])[..|signals|] == signals;
  }

  lemma {:induction false} NoSignals()
    ensures OkUses([]) == [] && Refusals([]) == []
  {
  }

  lemma {:induction false} SignalsConcat(first: seq<RK.Signal>, later: seq<RK.Signal>)
    ensures OkUses(first + later) == OkUses(first) + OkUses(later)
    ensures Refusals(first + later) == Refusals(first) + Refusals(later)
    decreases |later|
  {
    hide OkUses, Refusals, OkUse, Refusal;
    if later == [] {
      NoSignals();
      assert first + later == first;
    } else {
      var n := |later| - 1;
      var front, last := later[..n], later[n];
      SignalsConcat(first, front);
      SignalsAppend(first + front, last);
      SignalsAppend(front, last);
      assert later == front + [last];
      assert first + later == (first + front) + [last];
      assert OkUses(first) + OkUses(front) + OkUse(last) == OkUses(first) + (OkUses(front) + OkUse(last));
      assert Refusals(first) + Refusals(front) + Refusal(last) == Refusals(first) + (Refusals(front) + Refusal(last));
    }
  }

  ghost predicate SomeDropped(signals: seq<RK.Signal>, capabilities: set<string>) {
    exists i :: 0 <= i < |signals| && VersionDropped(signals[i], capabilities)
  }

  lemma {:induction false} DroppedLast(signals: seq<RK.Signal>, capabilities: set<string>)
    requires signals != []
    ensures SomeDropped(signals, capabilities)
            <==> SomeDropped(signals[..|signals| - 1], capabilities) || VersionDropped(signals[|signals| - 1], capabilities)
  {
    var n := |signals| - 1;
    hide VersionDropped;
    if SomeDropped(signals[..n], capabilities) {
      var i :| 0 <= i < n && VersionDropped(signals[..n][i], capabilities);
      assert VersionDropped(signals[i], capabilities);
    }
    if SomeDropped(signals, capabilities) {
      var i :| 0 <= i < |signals| && VersionDropped(signals[i], capabilities);
      assert i < n ==> VersionDropped(signals[..n][i], capabilities);
    }
  }

  /** The fold gathers the uses and the refusals of registered capabilities, or fails on a dropped version. */
  lemma {:induction false} FoldGathers(signals: seq<RK.Signal>, capabilities: set<string>)
    requires forall u | u in OkUses(signals) :: u.id in capabilities
    ensures var f := FoldSignals(NOTHING, signals, capabilities);
            && (f.None? <==> SomeDropped(signals, capabilities))
            && (f.Some? ==> f.value.used == Items(OkUses(signals))
                            && f.value.degraded == Items(Registered(Refusals(signals), capabilities)))
    decreases |signals|
  {
    if signals != [] {
      var n := |signals| - 1;
      assert forall u | u in OkUses(signals[..n]) :: u in OkUses(signals);
      FoldGathers(signals[..n], capabilities);
      FoldLast(NOTHING, signals[..n], signals[n], capabilities);
      DroppedLast(signals, capabilities);
      assert signals[..n] + [signals[n]] == signals;
      hide FoldSignals, SomeDropped;
      FoldOne(FoldSignals(NOTHING, signals[..n], capabilities), signals[..n], signals[n], capabilities);
    }
  }

  function WithUse(items: map<Key, UseItem>, one: seq<RK.Use>): map<Key, UseItem> {
    if one == [] then items else items[(one[0].id, one[0].version) := UseItem(one[0].kind, one[0].status)]
  }

  lemma {:induction false} UsesGrow(front: seq<RK.Signal>, last: RK.Signal)
    ensures var items := Items(OkUses(front));
            Items(OkUses(front + [last])) == WithUse(items, OkUse(last))
  {
    SignalsAppend(front, last);
    if OkUse(last) != [] {
      assert OkUse(last) == [OkUse(last)[0]];
      ItemsAppend(OkUses(front), OkUse(last)[0]);
    } else {
      assert OkUses(front) + [] == OkUses(front);
    }
  }

  lemma {:induction false} RefusalsGrow(front: seq<RK.Signal>, last: RK.Signal, capabilities: set<string>)
    ensures var items := Items(Registered(Refusals(front), capabilities));
            Items(Registered(Refusals(front + [last]), capabilities))
            == if Refusal(last) == [] || Refusal(last)[0].id !in capabilities then items else WithUse(items, Refusal(last))
  {
    SignalsAppend(front, last);
    if Refusal(last) != [] {
      assert Refusal(last) == [Refusal(last)[0]];
      RegisteredAppend(Refusals(front), Refusal(last)[0], capabilities);
      if Refusal(last)[0].id in capabilities {
        ItemsAppend(Registered(Refusals(front), capabilities), Refusal(last)[0]);
      } else {
        assert Registered(Refusals(front), capabilities) + [] == Registered(Refusals(front), capabilities);
      }
    } else {
      assert Refusals(front) + [] == Refusals(front);
    }
  }

  /** One signal's effect, apart from the step count. */
  lemma {:induction false} SignalParts(f: Fold, signal: RK.Signal, capabilities: set<string>)
    requires forall u | u in OkUse(signal) :: u.id in capabilities
    ensures FoldSignal(f, signal, capabilities).None? <==> VersionDropped(signal, capabilities)
    ensures FoldSignal(f, signal, capabilities).Some? ==>
              && FoldSignal(f, signal, capabilities).value.used == WithUse(f.used, OkUse(signal))
              && FoldSignal(f, signal, capabilities).value.degraded
                 == if Refusal(signal) == [] || Refusal(signal)[0].id !in capabilities then f.degraded else WithUse(f.degraded, Refusal(signal))
  {
    assert OkUse(signal) != [] ==> OkUse(signal)[0] in OkUse(signal);
  }

  /** One more signal adds its use or its refusal. */
  lemma {:induction false} FoldOne(g: Option<Fold>, front: seq<RK.Signal>, last: RK.Signal, capabilities: set<string>)
    requires forall u | u in OkUse(last) :: u.id in capabilities
    requires g.Some? ==> g.value.used == Items(OkUses(front)) && g.value.degraded == Items(Registered(Refusals(front), capabilities))
    ensures g.Some? ==> (FoldSignal(g.value, last, capabilities).None? <==> VersionDropped(last, capabilities))
    ensures g.Some? && FoldSignal(g.value, last, capabilities).Some? ==>
              var f := FoldSignal(g.value, last, capabilities).value;
              f.used == Items(OkUses(front + [last])) && f.degraded == Items(Registered(Refusals(front + [last]), capabilities))
  {
    hide OkUses, Refusals, Items, Registered, FoldSignal, OkUse, Refusal, VersionDropped;
    UsesGrow(front, last);
    RefusalsGrow(front, last, capabilities);
    if g.Some? { SignalParts(g.value, last, capabilities); }
  }

  lemma {:induction false} FoldLast(f: Fold, front: seq<RK.Signal>, last: RK.Signal, capabilities: set<string>)
    ensures FoldSignals(f, front + [last], capabilities)
            == match FoldSignals(f, front, capabilities) case None => None case Some(g) => FoldSignal(g, last, capabilities)
    decreases |front|
  {
    hide FoldSignal;
    if front == [] {
      assert ([last])[1..] == [];
    } else {
      assert (front + [last])[1..] == front[1..] + [last];
      match FoldSignal(f, front[0], capabilities)
      case None =>
      case Some(g) => FoldLast(g, front[1..], last, capabilities);
    }
  }

  // ----- the signals of a whole run

  function CapabilityIds(definitions: map<Key, Definition>): set<string> { set key | key in definitions :: key.0 }

  /** The delivery names a capability that was used, as what it is. */
  predicate DeliveryUses(s: RK.State) {
    match s.delivery
    case Some(ComparisonDelivery(c)) =>
      var key := (c.capabilityId, c.capabilityVersion);
      key in Items(s.used) && Items(s.used)[key] == UseItem(Execution, RK.UseOk)
    case Some(Answer(_, Some(g))) =>
      var key := (g.capabilityId, g.capabilityVersion);
      key in Items(s.used) && Items(s.used)[key] == UseItem(Knowledge, RK.UseLoaded)
    case _ => true
  }

  /** Refusals beyond the recorded degradations: at most the one a failure ends with. */
  predicate RefusedWith(degraded: seq<RK.Use>, refusals: seq<RK.Use>, failed: bool) {
    degraded <= refusals && |refusals| <= |degraded| + if failed then 1 else 0
  }

  /** What signals say, next to what was recorded while they were emitted. */
  ghost predicate Tells(definitions: map<Key, Definition>, before: RK.State, s: RK.State, signals: seq<RK.Signal>) {
    && (forall i | 0 <= i < |signals| :: SignalOk(signals[i]))
    && s.used == before.used + OkUses(signals)
    && (forall u | u in OkUses(signals) :: u.id in CapabilityIds(definitions))
    && before.degraded <= s.degraded
    && RefusedWith(RK.DegradedUses(s.degraded[|before.degraded|..]), Refusals(signals), s.failure.Some?)
    && (forall key | key in s.degraded[|before.degraded|..] :: key.0 in CapabilityIds(definitions))
    && DeliveryUses(s)
  }

  /** A visit emits at most a route signal and then a tool signal. */
  lemma {:induction false} SignalsOfVisit(signals: seq<RK.Signal>)
    requires |signals| <= 2 && (|signals| == 2 ==> signals[1].ToolSignal?)
    ensures OkUses(signals) == (if signals == [] then [] else OkUse(signals[0]))
    ensures Refusals(signals) == (if signals == [] then [] else Refusal(signals[0]))
  {
    if |signals| == 1 {
      assert signals[..0] == [];
    } else if |signals| == 2 {
      assert signals[..1][..0] == [] && signals[..1][0] == signals[0];
      assert OkUses(signals[..1]) == OkUse(signals[0]) && Refusals(signals[..1]) == Refusal(signals[0]);
    }
  }

  lemma {:induction false} NothingDegraded(degraded: seq<Key>)
    ensures degraded[|degraded|..] == [] && RK.DegradedUses(degraded[|degraded|..]) == []
  {
    assert degraded[|degraded|..] == [];
  }

  /** A visit that records no use: nothing, a finished delivery, or a failure. */
  lemma {:induction false} QuietStepTells(definitions: map<Key, Definition>, s: RK.State, next: RK.State, signals: seq<RK.Signal>)
    requires next.used == s.used && next.degraded == s.degraded && DeliveryUses(next)
    requires |signals| <= 2 && (|signals| == 2 ==> signals[1].ToolSignal?) && forall i | 0 <= i < |signals| :: SignalOk(signals[i])
    requires signals != [] ==> OkUse(signals[0]) == [] && (Refusal(signals[0]) != [] ==> next.failure.Some?)
    ensures Tells(definitions, s, next, signals)
  {
    SignalsOfVisit(signals);
    NothingDegraded(s.degraded);
    hide OkUses, Refusals, OkUse, Refusal, SignalOk, DeliveryUses, CapabilityIds, RK.DegradedUses;
    assert s.used + [] == s.used;
  }

  lemma {:induction false} LastLoadIsUsed(loaded: seq<RK.Loaded>)
    requires loaded != []
    ensures var key := (loaded[|loaded| - 1].id, loaded[|loaded| - 1].version);
            key in Items(RK.LoadedUses(loaded)) && Items(RK.LoadedUses(loaded))[key] == UseItem(Knowledge, RK.UseLoaded)
  {
    var n := |loaded| - 1;
    ItemsAppend(RK.LoadedUses(loaded[..n]), RK.Use(loaded[n].id, loaded[n].version, Knowledge, RK.UseLoaded));
  }

  lemma {:induction false} DecideTells(k: RK.Kernel, s: RK.State, b: AB.Budget, v: RK.Visit, emitted: nat)
    requires RK.StateOk(RK.DecideNode, s, b, emitted) && b.limits.decisions <= AB.MAX_MAIN_DECISIONS
    ensures Tells(k.definitions, s, RK.DecideStep(k, s, b, v).s, RK.DecideStep(k, s, b, v).signals)
  {
    var u := RK.DecideStep(k, s, b, v);
    hide Tells, Items;
    QuietStepTells(k.definitions, s, u.s, u.signals);
  }

  lemma {:induction false} AnswerTells(k: RK.Kernel, s: RK.State, b: AB.Budget, v: RK.Visit)
    requires RK.Entered(RK.FinalizeAnswer, s) && s.delivery.None? && s.used == RK.LoadedUses(s.loaded) && 1 <= s.step <= AB.MAX_MAIN_DECISIONS
    ensures Tells(k.definitions, s, RK.FinalizeAnswerStep(k, s, b, v).s, RK.FinalizeAnswerStep(k, s, b, v).signals)
  {
    var u := RK.FinalizeAnswerStep(k, s, b, v);
    if s.loaded != [] { LastLoadIsUsed(s.loaded); }
    hide RK.LoadedUses, Items, Tells;
    QuietStepTells(k.definitions, s, u.s, u.signals);
  }

  lemma {:induction false} NeedsInputTells(k: RK.Kernel, s: RK.State, b: AB.Budget, v: RK.Visit)
    requires RK.Entered(RK.FinalizeNeedsInput, s) && s.delivery.None? && 1 <= s.step <= AB.MAX_MAIN_DECISIONS
    ensures Tells(k.definitions, s, RK.FinalizeNeedsInputStep(k, s, b, v).s, RK.FinalizeNeedsInputStep(k, s, b, v).signals)
  {
    var u := RK.FinalizeNeedsInputStep(k, s, b, v);
    hide RK.SlotNames, RK.ToSet, Items, Tells;
    QuietStepTells(k.definitions, s, u.s, u.signals);
  }

  lemma {:induction false} FinalizeTells(k: RK.Kernel, materials: map<RK.Id, TC.Material>, n: RK.Node, s: RK.State, b: AB.Budget, v: RK.Visit, emitted: nat)
    requires n == RK.FinalizeAnswer || n == RK.FinalizeNeedsInput
    requires RK.StateOk(n, s, b, emitted) && b.limits.decisions <= AB.MAX_MAIN_DECISIONS
    ensures Tells(k.definitions, s, RK.StepAt(k, materials, n, s, b, v).s, RK.StepAt(k, materials, n, s, b, v).signals)
  {
    hide RK.LoadedUses, RK.Distinct, Tells, RK.FinalizeAnswerStep, RK.FinalizeNeedsInputStep;
    if n == RK.FinalizeAnswer { AnswerTells(k, s, b, v); } else { NeedsInputTells(k, s, b, v); }
  }

  /** A visit that uses a capability. */
  lemma {:induction false} OkStepTells(definitions: map<Key, Definition>, s: RK.State, next: RK.State, signals: seq<RK.Signal>, u: RK.Use)
    requires next.used == s.used + [u] && next.degraded == s.degraded && u.id in CapabilityIds(definitions)
    requires 1 <= |signals| <= 2 && (|signals| == 2 ==> signals[1].ToolSignal?) && SignalOk(signals[0])
    requires OkUse(signals[0]) == [u] && Refusal(signals[0]) == []
    requires DeliveryUses(next)
    ensures Tells(definitions, s, next, signals)
  {
    hide OkUses, Refusals, OkUse, Refusal, DeliveryUses, CapabilityIds, RK.DegradedUses;
    assert |signals| == 2 ==> SignalOk(signals[1]);
    hide SignalOk;
    SignalsOfVisit(signals);
    NothingDegraded(s.degraded);
  }

  /** A visit that degrades a capability. */
  lemma {:induction false} DegradeTells(definitions: map<Key, Definition>, s: RK.State, next: RK.State, signal: RK.Signal, d: Definition)
    requires next.used == s.used && next.degraded == s.degraded + [(d.id, d.version)] && d.id in CapabilityIds(definitions)
    requires SignalOk(signal) && OkUse(signal) == [] && Refusal(signal) == [RK.Use(d.id, d.version, Knowledge, RK.UseUnavailable)]
    requires DeliveryUses(next)
    ensures Tells(definitions, s, next, [signal])
  {
    SignalsOfVisit([signal]);
    hide OkUses, Refusals;
    var added := next.degraded[|s.degraded|..];
    assert added == [(d.id, d.version)];
    assert added[1..] == [];
    assert RK.DegradedUses(added) == Refusals([signal]);
    assert OkUses([signal]) == [];
  }

  lemma {:induction false} LoadTells(k: RK.Kernel, s: RK.State, b: AB.Budget, v: RK.Visit, emitted: nat)
    requires WellKeyed(k.definitions) && RK.StateOk(RK.LoadSkill, s, b, emitted) && b.limits.decisions <= AB.MAX_MAIN_DECISIONS
    ensures Tells(k.definitions, s, RK.LoadSkillStep(k, s, b, v).s, RK.LoadSkillStep(k, s, b, v).signals)
  {
    var u := RK.LoadSkillStep(k, s, b, v);
    var resolution := Resolve(k.definitions, s.decision.value.id, s.decision.value.version, Some(Knowledge));
    if resolution.Resolved? { assert (s.decision.value.id, s.decision.value.version).0 in CapabilityIds(k.definitions); }
    assert resolution.Resolved? ==> resolution.definition.id == s.decision.value.id && resolution.definition.kind == Knowledge;
    hide Resolve, Tells, CapabilityIds, RK.LoadedUses, RK.Distinct, AB.CanLoadKnowledge, Items;
    if u.s.used != s.used {
      OkStepTells(k.definitions, s, u.s, u.signals, u.s.used[|s.used|]);
    } else if u.s.degraded != s.degraded {
      DegradeTells(k.definitions, s, u.s, u.signals[0], resolution.definition);
    } else {
      QuietStepTells(k.definitions, s, u.s, u.signals);
    }
  }

  /** What a tool visit adds. */
  lemma {:induction false} CallTells(k: RK.Kernel, materials: map<RK.Id, TC.Material>, s: RK.State, b: AB.Budget, v: RK.Visit, d: Definition,
                  inputs: map<string, Option<RK.Id>>, clipped: bool)
    requires s.delivery.None? && 1 <= s.step <= AB.MAX_MAIN_DECISIONS && d.id in CapabilityIds(k.definitions) && d.kind == Execution
    ensures var u := RK.CallStep(k, materials, s, b, v, d, inputs, clipped); Tells(k.definitions, s, u.s, u.signals)
  {
    hide RK.ToolOutcome, RK.ToSet, RK.InputsMatch, RK.Callable, RK.Reference, Tells, CapabilityIds, TC.ValidComparison;
    var u := RK.CallStep(k, materials, s, b, v, d, inputs, clipped);
    if u.s.delivery.Some? {
      ItemsAppend(s.used, RK.Use(d.id, d.version, d.kind, RK.UseOk));
      hide Items;
      OkStepTells(k.definitions, s, u.s, u.signals, RK.Use(d.id, d.version, d.kind, RK.UseOk));
    } else {
      QuietStepTells(k.definitions, s, u.s, u.signals);
    }
  }

  lemma {:induction false} InvokeTells(k: RK.Kernel, materials: map<RK.Id, TC.Material>, s: RK.State, b: AB.Budget, v: RK.Visit, emitted: nat)
    requires WellKeyed(k.definitions) && RK.StateOk(RK.Invoke, s, b, emitted) && b.limits.decisions <= AB.MAX_MAIN_DECISIONS
    ensures Tells(k.definitions, s, RK.InvokeStep(k, materials, s, b, v).s, RK.InvokeStep(k, materials, s, b, v).signals)
  {
    var u := RK.InvokeStep(k, materials, s, b, v);
    var resolution := Resolve(k.definitions, s.decision.value.id, s.decision.value.version, Some(Execution));
    var spent := AB.StartToolCall(b, v.now);
    if resolution.Resolved? { assert (s.decision.value.id, s.decision.value.version).0 in CapabilityIds(k.definitions); }
    assert resolution.Resolved? ==> resolution.definition.id == s.decision.value.id && resolution.definition.kind == Execution;
    hide Resolve, Tells, CapabilityIds, RK.CallStep, RK.LoadedUses, RK.Distinct, Items;
    if resolution.Resolved? && spent.0.Some? {
      CallTells(k, materials, s, spent.1, v, resolution.definition, s.decision.value.inputs, spent.0.value.clipped);
    } else {
      QuietStepTells(k.definitions, s, u.s, u.signals);
    }
  }

  lemma {:induction false} TellsUses(definitions: map<Key, Definition>, before: RK.State, s: RK.State, signals: seq<RK.Signal>)
    requires Tells(definitions, before, s, signals)
    ensures DeliveryUses(s)
  {
  }

  lemma {:induction false} DegradedConcat(first: seq<Key>, later: seq<Key>)
    ensures RK.DegradedUses(first + later) == RK.DegradedUses(first) + RK.DegradedUses(later)
    decreases |first|
  {
    if first == [] {
      assert first + later == later;
    } else {
      assert (first + later)[1..] == first[1..] + later;
      DegradedConcat(first[1..], later);
    }
  }

  /** The recorded part of what signals tell. */
  lemma {:induction false} DegradedJoin(before: seq<Key>, middle: seq<Key>, after: seq<Key>)
    requires before <= middle <= after
    ensures before <= after
    ensures RK.DegradedUses(after[|before|..]) == RK.DegradedUses(middle[|before|..]) + RK.DegradedUses(after[|middle|..])
    ensures forall key | key in after[|before|..] :: key in middle[|before|..] || key in after[|middle|..]
  {
    var n, m := |before|, |middle|;
    assert after[n..] == middle[n..] + after[m..];
    DegradedConcat(middle[n..], after[m..]);
    hide RK.DegradedUses;
  }

  lemma {:induction false} OkJoin(definitions: map<Key, Definition>, first: seq<RK.Signal>, later: seq<RK.Signal>)
    requires forall u | u in OkUses(first) :: u.id in CapabilityIds(definitions)
    requires forall u | u in OkUses(later) :: u.id in CapabilityIds(definitions)
    requires (forall i | 0 <= i < |first| :: SignalOk(first[i])) && forall i | 0 <= i < |later| :: SignalOk(later[i])
    ensures forall u | u in OkUses(first) + OkUses(later) :: u.id in CapabilityIds(definitions)
    ensures forall i | 0 <= i < |first + later| :: SignalOk((first + later)[i])
  {
    hide SignalOk, CapabilityIds, OkUses;
  }

  lemma {:induction false} TellsJoin(definitions: map<Key, Definition>, before: RK.State, middle: RK.State, first: seq<RK.Signal>, s: RK.State, later: seq<RK.Signal>)
    requires Tells(definitions, before, middle, first) && Tells(definitions, middle, s, later) && middle.failure.None?
    ensures Tells(definitions, before, s, first + later)
  {
    hide OkUses, Refusals, DeliveryUses, CapabilityIds, RK.DegradedUses, SignalOk, RefusedWith;
    SignalsConcat(first, later);
    OkJoin(definitions, first, later);
    DegradedJoin(before.degraded, middle.degraded, s.degraded);
    RefusedJoin(RK.DegradedUses(middle.degraded[|before.degraded|..]), Refusals(first),
                RK.DegradedUses(s.degraded[|middle.degraded|..]), Refusals(later), s.failure.Some?);
    assert before.used + OkUses(first) + OkUses(later) == before.used + (OkUses(first) + OkUses(later));
  }

  lemma {:induction false} RefusedJoin(first: seq<RK.Use>, refused: seq<RK.Use>, later: seq<RK.Use>, refusedLater: seq<RK.Use>, failed: bool)
    requires RefusedWith(first, refused, false) && RefusedWith(later, refusedLater, failed)
    ensures RefusedWith(first + later, refused + refusedLater, failed)
  {
    assert refused == first;
  }

  lemma {:induction false} RunTells(k: RK.Kernel, materials: map<RK.Id, TC.Material>, n: RK.Node, s: RK.State, b: AB.Budget, world: nat -> RK.Visit, i: nat, emitted: nat)
    requires WellKeyed(k.definitions) && RK.StateOk(n, s, b, emitted) && b.limits.decisions <= AB.MAX_MAIN_DECISIONS
    requires DeliveryUses(s)
    ensures var t := RK.Run(k, materials, n, s, b, world, i); Tells(k.definitions, s, t.s, t.signals)
    decreases RK.Rank(n, b)
  {
    NothingTells(k.definitions, s);
    RK.StateEntered(n, s, b, emitted);
    hide RK.StateOk, RK.StepAt, RK.Rank, Tells, DeliveryUses;
    if n != RK.End {
      var u := RK.StepAt(k, materials, n, s, b, world(i));
      var next := RK.RouteFrom(n, u.s);
      assert next != RK.End ==> u.s.failure.None?;
      hide RK.RouteFrom;
      RK.RankDecreases(k, materials, n, s, b, world(i));
      RK.StepKeeps(k, materials, n, s, b, world(i), emitted);
      StepTells(k, materials, n, s, b, world(i), emitted);
      TellsUses(k.definitions, s, u.s, u.signals);
      var t := RK.Run(k, materials, next, u.s, u.b, world, i + 1);
      RunTells(k, materials, next, u.s, u.b, world, i + 1, emitted + |u.signals|);
      if next != RK.End {
        TellsJoin(k.definitions, s, u.s, u.signals, t.s, t.signals);
      } else {
        assert t.s == u.s && u.signals + t.signals == u.signals;
      }
    }
  }

  lemma {:induction false} NothingTells(definitions: map<Key, Definition>, s: RK.State)
    requires DeliveryUses(s)
    ensures Tells(definitions, s, s, [])
  {
    assert s.degraded[|s.degraded|..] == [];
  }

  lemma {:induction false} StepTells(k: RK.Kernel, materials: map<RK.Id, TC.Material>, n: RK.Node, s: RK.State, b: AB.Budget, v: RK.Visit, emitted: nat)
    requires WellKeyed(k.definitions) && n != RK.End && RK.StateOk(n, s, b, emitted) && b.limits.decisions <= AB.MAX_MAIN_DECISIONS
    ensures var u := RK.StepAt(k, materials, n, s, b, v); Tells(k.definitions, s, u.s, u.signals)
  {
    RK.StateEntered(n, s, b, emitted);
    hide RK.StateOk, Tells, RK.DecideStep, RK.LoadSkillStep, RK.InvokeStep, RK.FinalizeAnswerStep, RK.FinalizeNeedsInputStep;
    match n
    case DecideNode => DecideTells(k, s, b, v, emitted);
    case LoadSkill => LoadTells(k, s, b, v, emitted);
    case Invoke => InvokeTells(k, materials, s, b, v, emitted);
    case _ => FinalizeTells(k, materials, n, s, b, v, emitted);
  }

  // ----- the projection of a run

  /** Rows the fold passes over: those of the lifecycle and of other event types. */
  predicate Passive(events: seq<StoredEvent>) {
    forall i | 0 <= i < |events| :: events[i].payload.Fields? && events[i].kind != RL.RouteDecided && events[i].kind != RL.AgentDone
  }

  lemma {:induction false} PassiveRows(f: Fold, head: seq<StoredEvent>, rest: seq<StoredEvent>)
    requires Passive(head)
    ensures FoldEvents(f, head + rest) == FoldEvents(f, rest)
    decreases |head|
  {
    hide FoldRoute, FoldDone;
    if head == [] {
      assert head + rest == rest;
    } else {
      assert (head + rest)[1..] == head[1..] + rest;
      PassiveRows(f, head[1..], rest);
    }
  }

  /** `agent_done` is written unless the run was cancelled. */
  function DoneRows(o: RK.Outcome, mode: string, services: set<string>, capabilities: set<string>): seq<StoredEvent> {
    if o.canceled then [] else [StoredAs(DoneEvent(o, mode), services, capabilities)]
  }

  /** The whole log: lifecycle rows, the kernel's signals, `agent_done`, the terminal row. */
  function LogOf(head: seq<StoredEvent>, signals: seq<RK.Signal>, o: RK.Outcome, tail: seq<StoredEvent>, mode: string,
                 services: set<string>, capabilities: set<string>): seq<StoredEvent> {
    head + (StoredSignals(signals, mode, services, capabilities) + (DoneRows(o, mode, services, capabilities) + tail))
  }

  lemma {:induction false} OutcomeWords(o: RK.Outcome)
    ensures IsOutcome(JString(OutcomeWord(o)))
  {
  }

  /** Whether `agent_done` is readable depends on its step count alone. */
  lemma {:induction false} RawDoneFields(o: RK.Outcome, mode: string)
    ensures var e := DoneEvent(o, mode);
            e.kind == RL.AgentDone && Get(e.data, Steps) == JInt(o.steps) && Get(e.data, OutcomeOf) == JString(OutcomeWord(o))
  {
    hide OutcomeWord;
  }

  lemma {:induction false} DoneFieldsKept(o: RK.Outcome, mode: string, services: set<string>, capabilities: set<string>)
    ensures var e := DoneEvent(o, mode);
            && Keeps(e, services, capabilities, OutcomeOf)
            && (Keeps(e, services, capabilities, Steps) <==> 1 <= o.steps <= AB.MAX_MAIN_DECISIONS)
  {
    RawDoneFields(o, mode);
    OutcomeWords(o);
    hide DoneEvent, Get, OutcomeWord, IsDecision, IsTraceStatus, IsRole, IsMode, IsKind, IsOutcome, OneOf;
  }

  /** Whether `agent_done` is readable depends on its step count alone. */
  lemma {:induction false} DoneFolded(f: Fold, o: RK.Outcome, mode: string, services: set<string>, capabilities: set<string>)
    ensures FoldEvent(f, StoredAs(DoneEvent(o, mode), services, capabilities))
            == if 1 <= o.steps <= AB.MAX_MAIN_DECISIONS then Some(f.(steps := Some(o.steps))) else None
  {
    var e := DoneEvent(o, mode);
    RawDoneFields(o, mode);
    OutcomeWords(o);
    DoneFieldsKept(o, mode, services, capabilities);
    hide DoneEvent, SafeData, Keeps, Get, OutcomeWord, IsOutcome, FoldRoute;
    SafeGet(e, services, capabilities, Steps);
    SafeGet(e, services, capabilities, OutcomeOf);
  }

  lemma {:induction false} DoneFolds(f: Fold, o: RK.Outcome, mode: string, services: set<string>, capabilities: set<string>, tail: seq<StoredEvent>)
    requires Passive(tail)
    ensures FoldEvents(f, DoneRows(o, mode, services, capabilities) + tail)
            == if o.canceled then Some(f)
               else if 1 <= o.steps <= AB.MAX_MAIN_DECISIONS then Some(f.(steps := Some(o.steps)))
               else None
  {
    DoneFolded(f, o, mode, services, capabilities);
    hide FoldEvent, StoredAs, Passive;
    var folded := f.(steps := Some(o.steps));
    PassiveRows(f, tail, []);
    PassiveRows(folded, tail, []);
    assert tail + [] == tail;
    var events := DoneRows(o, mode, services, capabilities) + tail;
    if o.canceled {
      assert events == tail;
    } else {
      assert events[0] == StoredAs(DoneEvent(o, mode), services, capabilities) && events[1..] == tail;
    }
  }

  /** The refusals the public summary can show: those of registered capabilities. */
  function Shown(signals: seq<RK.Signal>, capabilities: set<string>): seq<RK.Use> { Registered(Refusals(signals), capabilities) }

  /**
   The public summary of a run, read from its stored events. It is unreadable exactly when a
   registered capability was named with a version above 1,000,000 (or below 1), or when the run
   ended before its first decision without being cancelled. Otherwise its used entries are the
   kernel's uses with their kinds and statuses. Its degraded entries are the kernel's, less the used
   ones; a run that failed can show one more, the capability it failed on. It is absent when there are none.
   */
  lemma {:induction false} ProjectionIsTheKernels(
      k: RK.Kernel, materials: map<RK.Id, TC.Material>, limits: AB.Limits, deadline: real, world: nat -> RK.Visit,
      head: seq<StoredEvent>, tail: seq<StoredEvent>, mode: string, services: set<string>)
    requires WellKeyed(k.definitions) && "" !in CapabilityIds(k.definitions) && limits.decisions <= AB.MAX_MAIN_DECISIONS
    requires Passive(head) && Passive(tail)
    ensures var t := RK.WholeRun(k, materials, limits, deadline, world);
            var o := RK.OutcomeOf(t.s);
            var ids := CapabilityIds(k.definitions);
            var p := Project(o.delivery, LogOf(head, t.signals, o, tail, mode, services, ids), false, true);
            && (p.status == Some(Unavailable) <==> SomeDropped(t.signals, ids) || (!o.canceled && o.steps == 0))
            && RefusedWith(o.degraded, Shown(t.signals, ids), o.failure.Some?)
            && (p.status == Some(Available) ==>
                  && p.capabilities.Some? && p.capabilities.value.used == Items(o.used)
                  && p.capabilities.value.degraded == Items(Shown(t.signals, ids)) - Items(o.used).Keys
                  && (!o.canceled ==> p.capabilities.value.steps == Some(o.steps)))
            && (p.status == Some(Absent) ==> o.used == [] && o.degraded == [] && p.capabilities == None)
            && p.knowledge == KnowledgeOf(o.delivery)
  {
    var t := RK.WholeRun(k, materials, limits, deadline, world);
    var o, ids := RK.OutcomeOf(t.s), CapabilityIds(k.definitions);
    RunGathers(k, materials, limits, deadline, world);
    RK.EveryRunEnds(k, materials, limits, deadline, world);
    hide RK.Run, RK.WholeRun, SomeDropped, CapabilityIds, StoredSignals, DoneRows, RK.Distinct, Shown, Items, DeliveryUses;
    var rest := DoneRows(o, mode, services, ids) + tail;
    PassiveRows(NOTHING, head, StoredSignals(t.signals, mode, services, ids) + rest);
    SignalsFold(NOTHING, t.signals, mode, services, ids, rest);
    hide FoldSignals, SignalOk;
    if FoldSignals(NOTHING, t.signals, ids).Some? {
      var f := FoldSignals(NOTHING, t.signals, ids).value;
      DoneFolds(f, o, mode, services, ids, tail);
      hide FoldEvents;
      VouchedIsNoNews(t.s);
      SummaryFacts(f.(steps := if o.canceled then f.steps else Some(o.steps)), o, Shown(t.signals, ids));
    }
  }

  /** The signals of a whole run, folded, are its recorded uses and degradations. */
  lemma {:induction false} RunGathers(k: RK.Kernel, materials: map<RK.Id, TC.Material>, limits: AB.Limits, deadline: real, world: nat -> RK.Visit)
    requires WellKeyed(k.definitions) && limits.decisions <= AB.MAX_MAIN_DECISIONS
    ensures var t := RK.WholeRun(k, materials, limits, deadline, world);
            var o := RK.OutcomeOf(t.s);
            var ids := CapabilityIds(k.definitions);
            var f := FoldSignals(NOTHING, t.signals, ids);
            && (forall i | 0 <= i < |t.signals| :: SignalOk(t.signals[i])) && DeliveryUses(t.s)
            && (f.None? <==> SomeDropped(t.signals, ids))
            && (f.Some? ==> f.value.used == Items(o.used) && f.value.degraded == Items(Shown(t.signals, ids)))
            && RefusedWith(o.degraded, Shown(t.signals, ids), o.failure.Some?)
  {
    WholeRunTells(k, materials, limits, deadline, world);
    var t := RK.WholeRun(k, materials, limits, deadline, world);
    hide RK.WholeRun;
    TellsGather(k.definitions, t.s, t.signals);
    assert RK.OutcomeOf(t.s).used == t.s.used && RK.OutcomeOf(t.s).degraded == RK.DegradedUses(t.s.degraded);
    assert t.s.failure.Some? ==> RK.OutcomeOf(t.s).failure.Some?;
    hide *;
    FailureAllowsMore(RK.OutcomeOf(t.s).degraded, Shown(t.signals, CapabilityIds(k.definitions)), t.s.failure.Some?, RK.OutcomeOf(t.s).failure.Some?);
  }

  lemma {:induction false} FailureAllowsMore(degraded: seq<RK.Use>, refusals: seq<RK.Use>, failed: bool, failure: bool)
    requires RefusedWith(degraded, refusals, failed) && (failed ==> failure)
    ensures RefusedWith(degraded, refusals, failure)
  {
  }

  lemma {:induction false} TellsGather(definitions: map<Key, Definition>, s: RK.State, signals: seq<RK.Signal>)
    requires Tells(definitions, RK.START, s, signals)
    ensures var ids := CapabilityIds(definitions);
            var f := FoldSignals(NOTHING, signals, ids);
            && (forall i | 0 <= i < |signals| :: SignalOk(signals[i])) && DeliveryUses(s)
            && (f.None? <==> SomeDropped(signals, ids))
            && (f.Some? ==> f.value.used == Items(s.used) && f.value.degraded == Items(Shown(signals, ids)))
            && RefusedWith(RK.DegradedUses(s.degraded), Shown(signals, ids), s.failure.Some?)
  {
    var ids := CapabilityIds(definitions);
    TellsFromStart(definitions, s, signals);
    hide Tells, OkUses, Refusals, FoldSignals, SomeDropped, CapabilityIds, SignalOk, DeliveryUses, Items, RefusedWith;
    FoldGathers(signals, ids);
    DegradedIds(s.degraded, ids);
    RegisteredRefusals(RK.DegradedUses(s.degraded), Refusals(signals), s.failure.Some?, ids);
  }

  lemma {:induction false} WholeRunTells(k: RK.Kernel, materials: map<RK.Id, TC.Material>, limits: AB.Limits, deadline: real, world: nat -> RK.Visit)
    requires WellKeyed(k.definitions) && limits.decisions <= AB.MAX_MAIN_DECISIONS
    ensures var t := RK.WholeRun(k, materials, limits, deadline, world); Tells(k.definitions, RK.START, t.s, t.signals)
  {
    RunTells(k, materials, RK.DecideNode, RK.START, AB.Budget(limits, deadline, 0, 0, 0), world, 0, 0);
    hide RK.Run, Tells;
  }

  lemma {:induction false} TellsFromStart(definitions: map<Key, Definition>, s: RK.State, signals: seq<RK.Signal>)
    requires Tells(definitions, RK.START, s, signals)
    ensures (forall i | 0 <= i < |signals| :: SignalOk(signals[i])) && DeliveryUses(s)
    ensures s.used == OkUses(signals) && forall u | u in OkUses(signals) :: u.id in CapabilityIds(definitions)
    ensures RefusedWith(RK.DegradedUses(s.degraded), Refusals(signals), s.failure.Some?)
    ensures forall key | key in s.degraded :: key.0 in CapabilityIds(definitions)
  {
    hide OkUses, Refusals, DeliveryUses, CapabilityIds, RK.DegradedUses, SignalOk;
    assert RK.START.used + OkUses(signals) == OkUses(signals) && s.degraded[0..] == s.degraded;
  }

  lemma {:induction false} DegradedIds(keys: seq<Key>, ids: set<string>)
    requires forall key | key in keys :: key.0 in ids
    ensures forall u | u in RK.DegradedUses(keys) :: u.id in ids
    decreases |keys|
  {
    if keys != [] {
      assert keys[0] in keys;
      DegradedIds(keys[1..], ids);
    }
  }

  lemma {:induction false} RegisteredRefusals(degraded: seq<RK.Use>, refusals: seq<RK.Use>, failed: bool, ids: set<string>)
    requires RefusedWith(degraded, refusals, failed) && forall u | u in degraded :: u.id in ids
    ensures RefusedWith(degraded, Registered(refusals, ids), failed)
  {
    RegisteredAll(degraded, ids);
    hide Registered;
    if |refusals| == |degraded| {
      assert refusals == degraded;
    } else {
      assert refusals == degraded + [refusals[|degraded|]];
      RegisteredAppend(degraded, refusals[|degraded|], ids);
    }
  }

  /** The delivery tells the summary nothing the events did not. */
  lemma {:induction false} VouchedIsNoNews(s: RK.State)
    requires DeliveryUses(s)
    ensures Vouched(Items(s.used), s.delivery) == Items(s.used)
  {
    hide Items;
  }

  lemma {:induction false} NoItemsNoUses(uses: seq<RK.Use>)
    ensures Items(uses) == map[] <==> uses == []
  {
    if uses != [] {
      var n := |uses| - 1;
      assert (uses[n].id, uses[n].version) in Items(uses);
    }
  }

  lemma {:induction false} SummaryFacts(f: Fold, o: RK.Outcome, shown: seq<RK.Use>)
    requires f.used == Items(o.used) && Vouched(f.used, o.delivery) == f.used
    requires f.degraded == Items(shown) && o.degraded <= shown
    ensures var p := Summarise(f, o.delivery);
            && p.status != Some(Unavailable) && p.status.Some? && p.knowledge == KnowledgeOf(o.delivery)
            && (p.status == Some(Available) ==>
                  && p.capabilities.Some? && p.capabilities.value.used == Items(o.used)
                  && p.capabilities.value.degraded == Items(shown) - Items(o.used).Keys
                  && (f.steps.Some? ==> p.capabilities.value.steps == f.steps))
            && (p.status == Some(Absent) ==> o.used == [] && o.degraded == [] && p.capabilities == None)
  {
    NoItemsNoUses(o.used);
    NoItemsNoUses(shown);
    hide Items, Vouched;
    assert f.used == map[] ==> f.degraded - f.used.Keys == f.degraded;
  }

  // ----- versions the whitelist keeps

  /** A decision names a registered id only with a version the whitelist keeps. */
  predicate NamesInRange(decision: RK.Decision, capabilities: set<string>) {
    match decision
    case LoadSkillDecision(id, version) => id in capabilities ==> 1 <= version <= MAX_CAPABILITY_VERSION
    case InvokeDecision(id, version, _) => id in capabilities ==> 1 <= version <= MAX_CAPABILITY_VERSION
    case _ => true
  }

  predicate DecisionInRange(s: RK.State, capabilities: set<string>) {
    s.decision.Some? ==> NamesInRange(s.decision.value, capabilities)
  }

  ghost predicate NoneDropped(signals: seq<RK.Signal>, capabilities: set<string>) {
    forall i | 0 <= i < |signals| :: !VersionDropped(signals[i], capabilities)
  }

  lemma {:induction false} LoadKeepsRange(k: RK.Kernel, s: RK.State, b: AB.Budget, v: RK.Visit)
    requires WellKeyed(k.definitions) && RK.Entered(RK.LoadSkill, s) && DecisionInRange(s, CapabilityIds(k.definitions))
    ensures var u := RK.LoadSkillStep(k, s, b, v); NoneDropped(u.signals, CapabilityIds(k.definitions)) && u.s.decision == s.decision
  {
    var id, version := s.decision.value.id, s.decision.value.version;
    var resolution := Resolve(k.definitions, id, version, Some(Knowledge));
    assert resolution.Resolved? ==> resolution.definition.id == id && resolution.definition.version == version;
    hide Resolve, CapabilityIds, AB.CanLoadKnowledge;
  }

  lemma {:induction false} CallKeepsRange(k: RK.Kernel, materials: map<RK.Id, TC.Material>, s: RK.State, b: AB.Budget, v: RK.Visit, d: Definition,
                       inputs: map<string, Option<RK.Id>>, clipped: bool, capabilities: set<string>)
    requires d.id in capabilities ==> 1 <= d.version <= MAX_CAPABILITY_VERSION
    ensures var u := RK.CallStep(k, materials, s, b, v, d, inputs, clipped); NoneDropped(u.signals, capabilities) && u.s.decision == s.decision
  {
    hide RK.ToolOutcome, RK.ToSet, RK.InputsMatch, RK.Callable, RK.ParseResult;
  }

  lemma {:induction false} InvokeKeepsRange(k: RK.Kernel, materials: map<RK.Id, TC.Material>, s: RK.State, b: AB.Budget, v: RK.Visit)
    requires WellKeyed(k.definitions) && RK.Entered(RK.Invoke, s) && DecisionInRange(s, CapabilityIds(k.definitions))
    ensures var u := RK.InvokeStep(k, materials, s, b, v); NoneDropped(u.signals, CapabilityIds(k.definitions)) && u.s.decision == s.decision
  {
    var id, version := s.decision.value.id, s.decision.value.version;
    var resolution := Resolve(k.definitions, id, version, Some(Execution));
    var spent := AB.StartToolCall(b, v.now);
    assert resolution.Resolved? ==> resolution.definition.id == id && resolution.definition.version == version;
    hide Resolve, CapabilityIds, RK.CallStep;
    if resolution.Resolved? && spent.0.Some? {
      CallKeepsRange(k, materials, s, spent.1, v, resolution.definition, s.decision.value.inputs, spent.0.value.clipped, CapabilityIds(k.definitions));
    }
  }

  lemma {:induction false} StepKeepsRange(k: RK.Kernel, materials: map<RK.Id, TC.Material>, n: RK.Node, s: RK.State, b: AB.Budget, v: RK.Visit)
    requires WellKeyed(k.definitions) && n != RK.End && RK.Entered(n, s) && DecisionInRange(s, CapabilityIds(k.definitions))
    requires v.model.Decided? ==> NamesInRange(v.model.decision, CapabilityIds(k.definitions))
    ensures var u := RK.StepAt(k, materials, n, s, b, v);
            NoneDropped(u.signals, CapabilityIds(k.definitions)) && DecisionInRange(u.s, CapabilityIds(k.definitions))
  {
    hide RK.LoadSkillStep, RK.InvokeStep, CapabilityIds, RK.SlotNames, RK.ToSet;
    match n
    case LoadSkill => LoadKeepsRange(k, s, b, v);
    case Invoke => InvokeKeepsRange(k, materials, s, b, v);
    case _ =>
  }

  lemma {:induction false} RunKeepsRange(k: RK.Kernel, materials: map<RK.Id, TC.Material>, n: RK.Node, s: RK.State, b: AB.Budget, world: nat -> RK.Visit, i: nat)
    requires WellKeyed(k.definitions) && RK.Entered(n, s) && DecisionInRange(s, CapabilityIds(k.definitions))
    requires forall j :: world(j).model.Decided? ==> NamesInRange(world(j).model.decision, CapabilityIds(k.definitions))
    ensures NoneDropped(RK.Run(k, materials, n, s, b, world, i).signals, CapabilityIds(k.definitions))
    decreases RK.Rank(n, b)
  {
    hide RK.StepAt, RK.RouteFrom, RK.Rank, RK.Entered, DecisionInRange, NamesInRange, CapabilityIds, VersionDropped;
    if n != RK.End {
      var u := RK.StepAt(k, materials, n, s, b, world(i));
      RK.RankDecreases(k, materials, n, s, b, world(i));
      StepKeepsRange(k, materials, n, s, b, world(i));
      RunKeepsRange(k, materials, RK.RouteFrom(n, u.s), u.s, u.b, world, i + 1);
    }
  }

  /** When the model names registered capabilities with versions up to 1,000,000 only, nothing is dropped. */
  lemma {:induction false} VersionsInRangeAreKept(k: RK.Kernel, materials: map<RK.Id, TC.Material>, limits: AB.Limits, deadline: real, world: nat -> RK.Visit)
    requires WellKeyed(k.definitions)
    requires forall j :: world(j).model.Decided? ==> NamesInRange(world(j).model.decision, CapabilityIds(k.definitions))
    ensures !SomeDropped(RK.WholeRun(k, materials, limits, deadline, world).signals, CapabilityIds(k.definitions))
  {
    RunKeepsRange(k, materials, RK.DecideNode, RK.START, AB.Budget(limits, deadline, 0, 0, 0), world, 0);
    hide RK.Run, CapabilityIds, NamesInRange;
  }

  const ONE_SKILL: map<Key, Definition> :=
    map[("guide", 1) := Definition("guide", 1, Knowledge, [], false, [], Some(SkillDeclaration("guide", 1)), None)]

  const ONE_SKILL_KERNEL := RK.Kernel(1, ONE_SKILL, {}, None, None, [MI.TextA, MI.TextB], TC.RULE_VERSION)

  const BIG_VERSION := RK.Visit(false, false, false, 0.0, RK.Decided(RK.LoadSkillDecision("guide", 1_000_001)), RK.SkillUnavailable, RK.Executed, true)

  /** The run of a model that once asks for a version beyond the whitelist. */
  lemma {:induction false} BigVersionRun()
    ensures var t := RK.WholeRun(ONE_SKILL_KERNEL, map[], AB.DEFAULT_LIMITS, 180.0, (_: nat) => BIG_VERSION);
            t.signals == [RK.RouteSignal(1, RK.LabelLoadSkill, Some(RK.CapabilityRef("guide", 1_000_001, Knowledge)), false)]
  {
    var k, world := ONE_SKILL_KERNEL, (_: nat) => BIG_VERSION;
    var b := AB.Budget(AB.DEFAULT_LIMITS, 180.0, 0, 0, 0);
    var u := RK.DecideStep(k, RK.START, b, BIG_VERSION);
    assert u.signals == [] && u.s == RK.START.(step := 1, decision := Some(RK.LoadSkillDecision("guide", 1_000_001)));
    assert ("guide", 1) in ONE_SKILL && ("guide", 1_000_001) !in ONE_SKILL;
    var w := RK.LoadSkillStep(k, u.s, u.b, BIG_VERSION);
    assert w.signals == [RK.RouteSignal(1, RK.LabelLoadSkill, Some(RK.CapabilityRef("guide", 1_000_001, Knowledge)), false)];
    assert w.s.failure.Some?;
    RK.RankDecreases(k, map[], RK.DecideNode, RK.START, b, BIG_VERSION);
    hide RK.DecideStep, RK.LoadSkillStep, RK.Rank;
    var t := RK.Run(k, map[], RK.LoadSkill, u.s, u.b, world, 1);
    assert RK.StepAt(k, map[], RK.LoadSkill, u.s, u.b, world(1)) == w;
    assert t.signals == w.signals + RK.Run(k, map[], RK.End, w.s, w.b, world, 2).signals;
    assert RK.Run(k, map[], RK.End, w.s, w.b, world, 2).signals == [];
  }

  /** Its whole public summary is unreadable. */
  lemma {:induction false} BigVersionIsUnreadable(mode: string, services: set<string>)
    ensures var t := RK.WholeRun(ONE_SKILL_KERNEL, map[], AB.DEFAULT_LIMITS, 180.0, (_: nat) => BIG_VERSION);
            var o := RK.OutcomeOf(t.s);
            Project(o.delivery, LogOf([], t.signals, o, [], mode, services, {"guide"}), false, true).status == Some(Unavailable)
  {
    BigVersionRun();
    assert CapabilityIds(ONE_SKILL) == {"guide"} by { assert ("guide", 1) in ONE_SKILL; }
    var t := RK.WholeRun(ONE_SKILL_KERNEL, map[], AB.DEFAULT_LIMITS, 180.0, (_: nat) => BIG_VERSION);
    hide RK.WholeRun, RK.Run, CapabilityIds, RK.OutcomeOf, LogOf, Project;
    assert VersionDropped(t.signals[0], {"guide"});
    ProjectionIsTheKernels(ONE_SKILL_KERNEL, map[], AB.DEFAULT_LIMITS, 180.0, (_: nat) => BIG_VERSION, [], [], mode, services);
  }

  /**
   A run that is not cancelled shows zero steps exactly when its first decision was refused: no
   decision was allowed at all, or the deadline had passed before the first one.
   */
  lemma {:induction false} ZeroStepsMeansRefused(k: RK.Kernel, materials: map<RK.Id, TC.Material>, limits: AB.Limits, deadline: real, world: nat -> RK.Visit)
    requires WellKeyed(k.definitions)
    ensures var o := RK.OutcomeOf(RK.WholeRun(k, materials, limits, deadline, world).s);
            !o.canceled && o.steps == 0 <==> !world(0).cancelBefore && (limits.decisions == 0 || deadline <= world(0).now)
  {
    var b := AB.Budget(limits, deadline, 0, 0, 0);
    var u := RK.DecideStep(k, RK.START, b, world(0));
    var next := RK.RouteFrom(RK.DecideNode, u.s);
    RK.RankDecreases(k, materials, RK.DecideNode, RK.START, b, world(0));
    assert RK.WholeRun(k, materials, limits, deadline, world).s == RK.Run(k, materials, next, u.s, u.b, world, 1).s;
    if u.b.decisions == 1 {
      StepsNeverShrink(k, materials, next, u.s, u.b, world, 1);
    }
  }

  lemma {:induction false} StepsNeverShrink(k: RK.Kernel, materials: map<RK.Id, TC.Material>, n: RK.Node, s: RK.State, b: AB.Budget, world: nat -> RK.Visit, i: nat)
    requires RK.Entered(n, s)
    ensures RK.Run(k, materials, n, s, b, world, i).s.step >= s.step
    decreases RK.Rank(n, b)
  {
    hide RK.Rank, RK.RouteFrom, Resolve, AB.StartDecision, AB.StartToolCall, AB.CanLoadKnowledge, RK.ToolOutcome, RK.AfterTool;
    if n != RK.End {
      var u := RK.StepAt(k, materials, n, s, b, world(i));
      RK.RankDecreases(k, materials, n, s, b, world(i));
      assert u.s.step >= s.step by { StepGrows(k, materials, n, s, b, world(i)); }
      hide RK.StepAt;
      StepsNeverShrink(k, materials, RK.RouteFrom(n, u.s), u.s, u.b, world, i + 1);
    }
  }

  lemma {:induction false} StepGrows(k: RK.Kernel, materials: map<RK.Id, TC.Material>, n: RK.Node, s: RK.State, b: AB.Budget, v: RK.Visit)
    requires n != RK.End && RK.Entered(n, s)
    ensures RK.StepAt(k, materials, n, s, b, v).s.step >= s.step
  {
  }

  // ----- the whole log of a main-agent run fits a page

  function KindsOf(rows: seq<StoredEvent>): seq<RL.EventType> { seq(|rows|, i requires 0 <= i < |rows| => rows[i].kind) }

  /** The event types a worker tries to store for a kernel run: AGENT_START, the signals, AGENT_DONE. */
  function WorkerKinds(t: RK.Trace, mode: string, services: set<string>, capabilities: set<string>): seq<RL.EventType> {
    [RL.AgentStart] + KindsOf(StoredSignals(t.signals, mode, services, capabilities))
    + KindsOf(DoneRows(RK.OutcomeOf(t.s), mode, services, capabilities))
  }

  lemma {:induction false} StoredLength(signals: seq<RK.Signal>, mode: string, services: set<string>, capabilities: set<string>)
    ensures |StoredSignals(signals, mode, services, capabilities)| == |signals|
  {
    if signals != [] { StoredLength(signals[1..], mode, services, capabilities); }
  }

  /** Under the default limits: seven signals between AGENT_START and AGENT_DONE at most. */
  lemma {:induction false} WorkerWritesLittle(k: RK.Kernel, materials: map<RK.Id, TC.Material>, deadline: real, world: nat -> RK.Visit,
                           mode: string, services: set<string>, capabilities: set<string>)
    requires WellKeyed(k.definitions)
    ensures |WorkerKinds(RK.WholeRun(k, materials, AB.DEFAULT_LIMITS, deadline, world), mode, services, capabilities)| <= 9
  {
    RK.EveryRunEnds(k, materials, AB.DEFAULT_LIMITS, deadline, world);
    StoredLength(RK.WholeRun(k, materials, AB.DEFAULT_LIMITS, deadline, world).signals, mode, services, capabilities);
    hide RK.WholeRun, StoredAs;
  }

  /**
   In every reachable database, however clients, cancellers and the worker interleave: if what the
   worker of a main-agent run tried to store is the beginning of its kernel run's events, the run's
   log has at most twelve rows.
   */
  lemma {:induction false} MainAgentLogFitsOnePage(k: RK.Kernel, materials: map<RK.Id, TC.Material>, deadline: real, world: nat -> RK.Visit,
                                mode: string, services: set<string>, capabilities: set<string>, steps: seq<RL.Step>, r: RL.Id)
    requires WellKeyed(k.definitions)
    requires var db := RL.After(RL.EMPTY, steps); r in db.runs && db.runs[r].kind == RL.MainAgent
    requires LG.TriedAfterClaim(steps, r)
    requires LG.Attempts(steps, r)
             <= WorkerKinds(RK.WholeRun(k, materials, AB.DEFAULT_LIMITS, deadline, world), mode, services, capabilities)
    ensures var db := RL.After(RL.EMPTY, steps); r in db.events && |db.events[r]| <= 12 < RP.EVENT_PAGE_SIZE
  {
    WorkerWritesLittle(k, materials, deadline, world, mode, services, capabilities);
    hide WorkerKinds, RK.WholeRun, RL.After, LG.Attempts, LG.Emitted, LG.TriedAfterClaim;
    LG.ExecutorRowsArePrefix(steps, r);
    LG.MainAgentLogIsItsStory(steps, r);
    LG.KindsAt(RL.After(RL.EMPTY, steps).events[r]);
  }

  /** So every reader that is not past its end gets the terminal event before the stream closes. */
  lemma {:induction false} MainAgentReaderGetsTheEnd(k: RK.Kernel, materials: map<RK.Id, TC.Material>, deadline: real, world: nat -> RK.Visit,
                                  mode: string, services: set<string>, capabilities: set<string>,
                                  steps: seq<RL.Step>, r: RL.Id, cursor: nat, polls: seq<RP.Poll>)
    requires WellKeyed(k.definitions)
    requires var db := RL.After(RL.EMPTY, steps); r in db.runs && db.runs[r].kind == RL.MainAgent
    requires LG.TriedAfterClaim(steps + RP.PollSteps(polls), r)
    requires LG.Attempts(steps + RP.PollSteps(polls), r)
             <= WorkerKinds(RK.WholeRun(k, materials, AB.DEFAULT_LIMITS, deadline, world), mode, services, capabilities)
    requires var x := RP.Replayed(RL.After(RL.EMPTY, steps), r, cursor, polls);
             (x.ending == RP.AfterTerminalEvent || x.ending == RP.AfterTerminalStatus) && cursor < |x.log|
    ensures var x := RP.Replayed(RL.After(RL.EMPTY, steps), r, cursor, polls);
            x.ending == RP.AfterTerminalEvent && RP.EndsTerminal(x.sent)
  {
    var db, all := RL.After(RL.EMPTY, steps), steps + RP.PollSteps(polls);
    RH.EmptyInv();
    RL.AfterKeepsInv(RL.EMPTY, steps);
    RH.AfterConcat(RL.EMPTY, steps, RP.PollSteps(polls));
    hide RL.After, RL.Inv, RP.Replayed, RP.PollSteps, WorkerKinds, RK.WholeRun, LG.Attempts, LG.TriedAfterClaim, RP.EndsTerminal;
    RP.AfterKeepsRun(db, RP.PollSteps(polls), r);
    MainAgentLogFitsOnePage(k, materials, deadline, world, mode, services, capabilities, all, r);
    RP.ShortMainAgentLogsEndTerminal(db, r, cursor, polls);
  }

  /** What the guarded stream of a kernel run hands to the worker; `text` and `m` are the rendered message and its id. */
  function WorkerSignals(t: RK.Trace, mode: string, services: set<string>, capabilities: set<string>, text: RL.Rendered, m: RL.Id, code: string): seq<RS.Signal> {
    var o := RK.OutcomeOf(t.s);
    RS.EventSignals(WorkerKinds(t, mode, services, capabilities))
    + if o.delivery.Some? then [RS.DeliverySignal(o.delivery.value, text, m)] else [RS.FailureSignal(code)]
  }

  lemma {:induction false} EventsInEvents(kinds: seq<RL.EventType>, last: RS.Signal)
    requires !last.EventSignal?
    ensures RS.EventsIn(RS.EventSignals(kinds) + [last]) == |kinds|
    decreases |kinds|
  {
    var signals := RS.EventSignals(kinds) + [last];
    if kinds == [] {
      assert signals == [last];
    } else {
      assert signals[0] == RS.EventSignal(kinds[0]) && signals[1..] == RS.EventSignals(kinds[1..]) + [last];
      EventsInEvents(kinds[1..], last);
    }
  }

  /** One worker executing a queued run on a kernel run's signals: at most twelve rows. */
  lemma {:induction false} ExecutedLogFitsOnePage(k: RK.Kernel, materials: map<RK.Id, TC.Material>, deadline: real, world: nat -> RK.Visit,
                               mode: string, services: set<string>, capabilities: set<string>,
                               db: RL.Db, r: RL.Id, text: RL.Rendered, m: RL.Id, code: string)
    requires WellKeyed(k.definitions)
    requires r in db.runs && r in db.events && db.events[r] == [RL.Event(1, RL.RunQueued, RL.Service)]
    ensures var t := RK.WholeRun(k, materials, AB.DEFAULT_LIMITS, deadline, world);
            var next := RS.ExecuteAlone(db, r, WorkerSignals(t, mode, services, capabilities, text, m, code), Some(k.definitions)).db;
            r in next.events && |next.events[r]| <= 12
  {
    var t := RK.WholeRun(k, materials, AB.DEFAULT_LIMITS, deadline, world);
    var signals := WorkerSignals(t, mode, services, capabilities, text, m, code);
    WorkerWritesLittle(k, materials, deadline, world, mode, services, capabilities);
    hide RK.WholeRun, WorkerKinds, RS.EventSignals, RS.EventsIn, RS.ExecuteAlone;
    EventsInEvents(WorkerKinds(t, mode, services, capabilities), signals[|signals| - 1]);
    RS.ExecutionAddsFewRows(db, r, signals, Some(k.definitions));
  }
}
