/**
 What the public capability summary of a run says about its stored events, whatever they hold
 (backend/src/api/v1/resources.py): when it is readable, whose uses it lists, and the steps it shows.
 */
module CapabilitySummary {
  import opened Wrappers
  import opened Capabilities
  import MD = MainDelivery
  import RK = ReactKernel
  import RL = RunLifecycle
  import opened CapabilityProjection

  // ----- what an event says

  predicate Missing(data: Data, field: Field) { field !in data || data[field] == JNull }

  predicate TextIn(data: Data, field: Field, texts: set<string>) {
    field in data && data[field].JString? && data[field].s in texts
  }

  predicate NumberIn(data: Data, field: Field, lo: int, hi: int) {
    field in data && data[field].JInt? && lo <= data[field].n <= hi
  }

  /** A route event that names no capability, or names one with version, kind and status, used by an action only. */
  predicate ReadableRoute(data: Data) {
    && TextIn(data, DecisionOf, {"answer", "needs_input", "load_skill", "invoke_capability", "budget_exhausted", "failed"})
    && NumberIn(data, Step, 1, 6)
    && (Missing(data, Status) || TextIn(data, Status, {"ok", "unavailable"}))
    && if Missing(data, CapabilityId) then Missing(data, CapabilityVersion) && Missing(data, CapabilityKindOf)
       else
         && data[CapabilityId].JString? && data[CapabilityId].s != ""
         && CapabilityVersion in data && data[CapabilityVersion].JInt? && data[CapabilityVersion].n >= 1
         && TextIn(data, CapabilityKindOf, {"knowledge", "execution"})
         && !Missing(data, Status)
         && (TextIn(data, Status, {"ok"}) ==> TextIn(data, DecisionOf, {"load_skill", "invoke_capability"}))
  }

  predicate ReadableDone(data: Data) {
    && NumberIn(data, Steps, 1, 6)
    && TextIn(data, OutcomeOf, {"answer", "answer_with_knowledge", "needs_input", "comparison", "failed", "budget_exhausted", "canceled"})
  }

  predicate Readable(e: StoredEvent) {
    && !e.payload.Damaged?
    && (e.kind == RL.RouteDecided ==> ReadableRoute(e.payload.data))
    && (e.kind == RL.AgentDone ==> ReadableDone(e.payload.data))
  }

  /** The event reports this capability as used, or as unavailable. */
  predicate Reports(e: StoredEvent, key: Key, used: bool) {
    && e.kind == RL.RouteDecided && Readable(e) && !Missing(e.payload.data, CapabilityId)
    && key == (e.payload.data[CapabilityId].s, e.payload.data[CapabilityVersion].n)
    && used == TextIn(e.payload.data, Status, {"ok"})
  }

  function ItemIn(e: StoredEvent): UseItem
    requires e.kind == RL.RouteDecided && Readable(e) && !Missing(e.payload.data, CapabilityId)
  {
    var data := e.payload.data;
    UseItem(if TextIn(data, CapabilityKindOf, {"knowledge"}) then Knowledge else Execution,
            if !TextIn(data, Status, {"ok"}) then RK.UseUnavailable
            else if TextIn(data, DecisionOf, {"load_skill"}) then RK.UseLoaded else RK.UseOk)
  }

  // ----- the code's checks are these

  /** What one event adds. */
  ghost predicate Adds(f: Fold, e: StoredEvent, g: Fold)
    requires Readable(e)
  {
    if e.kind == RL.RouteDecided then
      var data := e.payload.data;
      var most := if f.maxStep.Some? && f.maxStep.value > data[Step].n then f.maxStep else Some(data[Step].n);
      if Missing(data, CapabilityId) then g == f.(maxStep := most)
      else
        var key := (data[CapabilityId].s, data[CapabilityVersion].n);
        if TextIn(data, Status, {"ok"}) then g == f.(maxStep := most, used := f.used[key := ItemIn(e)])
        else g == f.(maxStep := most, degraded := f.degraded[key := ItemIn(e)])
    else if e.kind == RL.AgentDone then g == f.(steps := Some(e.payload.data[Steps].n))
    else g == f
  }

  lemma {:induction false} RouteIsRead(f: Fold, data: Data)
    ensures FoldRoute(f, data).Some? <==> ReadableRoute(data)
  {
  }

  lemma {:induction false} RouteAdds(f: Fold, e: StoredEvent)
    requires e.kind == RL.RouteDecided && Readable(e)
    ensures FoldRoute(f, e.payload.data).Some? && Adds(f, e, FoldRoute(f, e.payload.data).value)
  {
  }

  lemma {:induction false} EventIsRead(f: Fold, e: StoredEvent)
    ensures FoldEvent(f, e).Some? <==> Readable(e)
    ensures Readable(e) ==> Adds(f, e, FoldEvent(f, e).value)
  {
    if !e.payload.Damaged? && e.kind == RL.RouteDecided {
      RouteIsRead(f, e.payload.data);
      if Readable(e) { RouteAdds(f, e); }
      hide FoldRoute, ReadableRoute, Adds, FoldDone;
    } else {
      hide FoldRoute, ReadableRoute;
    }
  }

  lemma {:induction false} FoldAppend(f: Fold, events: seq<StoredEvent>, e: StoredEvent)
    ensures FoldEvents(f, events + [e])
            == match FoldEvents(f, events) case None => None case Some(g) => FoldEvent(g, e)
    decreases |events|
  {
    hide FoldEvent;
    if events == [] {
      assert events + [e] == [e] && [e][1..] == [];
    } else {
      assert (events + [e])[0] == events[0] && (events + [e])[1..] == events[1..] + [e];
      match FoldEvent(f, events[0]) {
        case None =>
        case Some(g) => FoldAppend(g, events[1..], e);
      }
    }
  }

  // ----- the whole log

  /** Event `i` is the last to report the capability so. */
  ghost predicate Last(events: seq<StoredEvent>, i: nat, key: Key, used: bool) {
    i < |events| && Reports(events[i], key, used) && forall j | i < j < |events| :: !Reports(events[j], key, used)
  }

  /** The table lists exactly the capabilities reported so, each as its last report says. */
  ghost predicate Lists(table: map<Key, UseItem>, events: seq<StoredEvent>, used: bool) {
    forall key :: Listing(table, events, used, key)
  }

  ghost predicate Listing(table: map<Key, UseItem>, events: seq<StoredEvent>, used: bool, key: Key) {
    && (key in table <==> exists i: nat :: Last(events, i, key, used))
    && (key in table ==> forall i: nat | Last(events, i, key, used) :: table[key] == ItemIn(events[i]))
  }

  /** The number of steps the last AGENT_DONE reports, if there is one. */
  ghost predicate StepsOf(steps: Option<int>, events: seq<StoredEvent>) {
    match steps
    case None => forall i | 0 <= i < |events| :: events[i].kind != RL.AgentDone
    case Some(n) =>
      exists i :: 0 <= i < |events| && events[i].kind == RL.AgentDone && Readable(events[i]) && events[i].payload.data[Steps].n == n
                  && forall j | i < j < |events| :: events[j].kind != RL.AgentDone
  }

  /** The highest step a route event reports, if there is one. */
  ghost predicate HighestOf(most: Option<int>, events: seq<StoredEvent>) {
    match most
    case None => forall i | 0 <= i < |events| :: events[i].kind != RL.RouteDecided
    case Some(n) =>
      && (exists i :: 0 <= i < |events| && events[i].kind == RL.RouteDecided && Readable(events[i]) && events[i].payload.data[Step].n == n)
      && forall i | 0 <= i < |events| && events[i].kind == RL.RouteDecided && Readable(events[i]) :: events[i].payload.data[Step].n <= n
  }

  ghost predicate Says(f: Fold, events: seq<StoredEvent>) {
    Lists(f.used, events, true) && Lists(f.degraded, events, false) && StepsOf(f.steps, events) && HighestOf(f.maxStep, events)
  }

  lemma {:induction false} LastAppend(events: seq<StoredEvent>, e: StoredEvent, i: nat, key: Key, used: bool)
    ensures Last(events + [e], i, key, used)
            <==> if Reports(e, key, used) then i == |events| else Last(events, i, key, used)
  {
    var all := events + [e];
    hide Reports;
    assert all[|events|] == e && forall j | 0 <= j < |events| :: all[j] == events[j];
  }

  lemma {:induction false} ListsAppend(table: map<Key, UseItem>, events: seq<StoredEvent>, e: StoredEvent, used: bool)
    requires Lists(table, events, used) && forall key :: !Reports(e, key, used)
    ensures Lists(table, events + [e], used)
  {
    hide Reports, ItemIn, Last;
    forall key
      ensures Listing(table, events + [e], used, key)
    {
      assert Listing(table, events, used, key);
      forall i: nat ensures Last(events + [e], i, key, used) <==> Last(events, i, key, used) { LastAppend(events, e, i, key, used); }
      forall i: nat | Last(events, i, key, used) ensures i < |events| && (events + [e])[i] == events[i] { LastIsIn(events, i, key, used); }
    }
  }

  lemma LastIsIn(events: seq<StoredEvent>, i: nat, key: Key, used: bool)
    requires Last(events, i, key, used)
    ensures i < |events| && Reports(events[i], key, used)
  {
  }

  lemma {:induction false} ListsReport(table: map<Key, UseItem>, events: seq<StoredEvent>, e: StoredEvent, used: bool, key: Key)
    requires Lists(table, events, used) && Reports(e, key, used)
    ensures Lists(table[key := ItemIn(e)], events + [e], used)
  {
    var next, all := table[key := ItemIn(e)], events + [e];
    OneKey(e, key, used, !used);
    hide Reports, ItemIn, Last;
    forall k
      ensures Listing(next, all, used, k)
    {
      assert Listing(table, events, used, k);
      forall i: nat ensures Last(all, i, k, used) <==> if k == key then i == |events| else Last(events, i, k, used) {
        LastAppend(events, e, i, k, used);
      }
      if k == key {
        assert Last(all, |events|, k, used) && all[|events|] == e;
      } else {
        forall i: nat | Last(events, i, k, used) ensures i < |events| && all[i] == events[i] { LastIsIn(events, i, k, used); }
      }
    }
  }

  lemma OneKey(e: StoredEvent, key: Key, used: bool, other: bool)
    requires Reports(e, key, used) && other != used
    ensures forall k :: Reports(e, k, used) <==> k == key
    ensures forall k :: !Reports(e, k, other)
  {
  }

  lemma {:induction false} StepsAppend(f: Fold, events: seq<StoredEvent>, e: StoredEvent, g: Fold)
    requires StepsOf(f.steps, events) && HighestOf(f.maxStep, events) && Readable(e) && Adds(f, e, g)
    ensures StepsOf(g.steps, events + [e]) && HighestOf(g.maxStep, events + [e])
  {
    var all := events + [e];
    hide ReadableRoute, ReadableDone, ItemIn, TextIn;
    assert all[|events|] == e && forall j | 0 <= j < |events| :: all[j] == events[j];
    if e.kind == RL.AgentDone { assert g.maxStep == f.maxStep; } else { assert g.steps == f.steps; }
  }

  lemma {:induction false} TablesAppend(f: Fold, events: seq<StoredEvent>, e: StoredEvent, g: Fold)
    requires Lists(f.used, events, true) && Lists(f.degraded, events, false) && Readable(e) && Adds(f, e, g)
    ensures Lists(g.used, events + [e], true) && Lists(g.degraded, events + [e], false)
  {
    hide Lists;
    if e.kind == RL.RouteDecided && !Missing(e.payload.data, CapabilityId) {
      var key := (e.payload.data[CapabilityId].s, e.payload.data[CapabilityVersion].n);
      var used := TextIn(e.payload.data, Status, {"ok"});
      OneKey(e, key, used, !used);
      hide ReadableRoute, ReadableDone;
      if used {
        ListsReport(f.used, events, e, true, key);
        ListsAppend(f.degraded, events, e, false);
      } else {
        ListsReport(f.degraded, events, e, false, key);
        ListsAppend(f.used, events, e, true);
      }
    } else {
      ListsAppend(f.used, events, e, true);
      ListsAppend(f.degraded, events, e, false);
    }
  }

  lemma {:induction false} FoldSays(events: seq<StoredEvent>)
    ensures FoldEvents(NOTHING, events).Some? <==> forall i | 0 <= i < |events| :: Readable(events[i])
    ensures FoldEvents(NOTHING, events).Some? ==> Says(FoldEvents(NOTHING, events).value, events)
    decreases |events|
  {
    hide Readable, FoldEvent, FoldEvents, Lists, StepsOf, HighestOf, Adds;
    if events == [] {
      EmptySays();
    } else {
      var n := |events| - 1;
      var e := events[n];
      assert events == events[..n] + [e];
      FoldSays(events[..n]);
      FoldAppend(NOTHING, events[..n], e);
      if FoldEvents(NOTHING, events[..n]).Some? {
        var f := FoldEvents(NOTHING, events[..n]).value;
        EventIsRead(f, e);
        if Readable(e) {
          StepsAppend(f, events[..n], e, FoldEvent(f, e).value);
          TablesAppend(f, events[..n], e, FoldEvent(f, e).value);
        }
      } else {
        assert exists i :: 0 <= i < n && !Readable(events[..n][i]);
      }
    }
  }

  lemma EmptySays()
    ensures FoldEvents(NOTHING, []) == Some(NOTHING) && Says(NOTHING, [])
  {
  }

  /** The capability the delivery itself proves used. */
  function DeliveredUse(delivery: Option<MD.Delivery>): map<Key, UseItem> {
    if delivery.None? then map[]
    else if delivery.value.ComparisonDelivery? then
      var c := delivery.value.comparison;
      map[(c.capabilityId, c.capabilityVersion) := UseItem(Execution, RK.UseOk)]
    else if delivery.value.Answer? && delivery.value.grounding.Some? then
      var g := delivery.value.grounding.value;
      map[(g.capabilityId, g.capabilityVersion) := UseItem(Knowledge, RK.UseLoaded)]
    else map[]
  }

  function GroundingOf(delivery: Option<MD.Delivery>): Option<MD.Grounding> {
    if delivery.Some? && delivery.value.Answer? then delivery.value.grounding else None
  }

  /** The summary of a readable log: uses as last reported, the delivered one over them; what was used is not degraded. */
  ghost predicate Tells(p: Projection, delivery: Option<MD.Delivery>, events: seq<StoredEvent>) {
    exists f :: Says(f, events) && ToldFrom(p, delivery, f)
  }

  ghost predicate ToldFrom(p: Projection, delivery: Option<MD.Delivery>, f: Fold) {
    var used := f.used + DeliveredUse(delivery);
    var degraded := map key | key in f.degraded && key !in used :: f.degraded[key];
    p == Projection(if used == map[] && degraded == map[] then None
                    else Some(Summarised(used, degraded, if f.steps.Some? then f.steps else f.maxStep)),
                    Some(if used == map[] && degraded == map[] then Absent else Available), GroundingOf(delivery))
  }

  lemma {:induction false} SummariseTells(delivery: Option<MD.Delivery>, f: Fold)
    ensures ToldFrom(Summarise(f, delivery), delivery, f)
  {
    assert Vouched(f.used, delivery) == f.used + DeliveredUse(delivery);
    var used := f.used + DeliveredUse(delivery);
    assert f.degraded - used.Keys == map key | key in f.degraded && key !in used :: f.degraded[key];
  }

  /**
   For any stored events: nothing is told before the run has ended; a log with any damaged or ill-formed event
   is reported as unavailable, without uses; from every other log the summary tells the uses, the degradations
   and the steps as the events last reported them.
   */
  lemma {:induction false} SummaryTellsTheLog(delivery: Option<MD.Delivery>, events: seq<StoredEvent>, unavailable: bool, terminal: bool)
    ensures var p := Project(delivery, events, unavailable, terminal);
            if !terminal then p == Projection(None, None, None)
            else if unavailable || exists i :: 0 <= i < |events| && !Readable(events[i])
            then p == Projection(Some(Summarised(map[], map[], None)), Some(Unavailable), GroundingOf(delivery))
            else Tells(p, delivery, events)
  {
    FoldSays(events);
    hide Readable, FoldEvents, Says, ToldFrom, Summarise;
    if FoldEvents(NOTHING, events).Some? { SummariseTells(delivery, FoldEvents(NOTHING, events).value); }
  }
}
