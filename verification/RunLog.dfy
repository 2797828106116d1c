/**
 What a reader finds in a run's log, whoever wrote the rows: the service's own rows plus exactly
 the executor events whose append took effect (backend/src/application/services.py).
 */
module RunLog {
  import opened Wrappers
  import MI = MainInput
  import opened MainDelivery
  import opened RunLifecycle
  import opened RunHistory

  // ----- rows and who wrote them

  function Kinds(es: seq<Event>): seq<EventType> {
    if es == [] then []
    else
      var n := |es| - 1;
      Kinds(es[..n]) + [es[n].kind]
  }

  function ExecutorKinds(es: seq<Event>): seq<EventType> {
    if es == [] then []
    else
      var n := |es| - 1;
      ExecutorKinds(es[..n]) + if es[n].writer == Executor then [es[n].kind] else []
  }

  lemma {:induction false} KindsAt(es: seq<Event>)
    ensures |Kinds(es)| == |es| && forall k | 0 <= k < |es| :: Kinds(es)[k] == es[k].kind
    decreases |es|
  {
    if es != [] { KindsAt(es[..|es| - 1]); }
  }

  lemma {:induction false} AppendRow(es: seq<Event>, e: Event)
    ensures Kinds(es + [e]) == Kinds(es) + [e.kind]
    ensures ExecutorKinds(es + [e]) == ExecutorKinds(es) + if e.writer == Executor then [e.kind] else []
  {
    assert (es + [e])[..|es|] == es;
  }

  /** Every row is the service's or the executor's. */
  lemma {:induction false} RowsSplit(es: seq<Event>)
    ensures multiset(Kinds(es)) == multiset(ServiceKinds(es)) + multiset(ExecutorKinds(es))
    decreases |es|
  {
    if es != [] { RowsSplit(es[..|es| - 1]); }
  }

  lemma {:induction false} ExecutorRowAt(es: seq<Event>, k: nat)
    requires k < |es| && es[k].writer == Executor
    ensures es[k].kind in ExecutorKinds(es)
    decreases |es|
  {
    if k < |es| - 1 { ExecutorRowAt(es[..|es| - 1], k); }
  }

  lemma {:induction false} ExecutorRowOf(es: seq<Event>, kind: EventType) returns (k: nat)
    requires kind in ExecutorKinds(es)
    ensures k < |es| && es[k] == Event(es[k].sequence, kind, Executor)
    decreases |es|
  {
    var n := |es| - 1;
    if es[n].writer == Executor && es[n].kind == kind {
      k := n;
    } else {
      k := ExecutorRowOf(es[..n], kind);
    }
  }

  // ----- the appends that take effect

  /**
   The guards of the two append branches: the unconditional append finds its claimed diagnosis
   run, the conditional one a running main-agent run.
   */
  predicate Emits(db: Db, step: Step, r: Id, kind: EventType) {
    && r in db.runs && r in db.events
    && match step
       case DoAppendAlways(q, k) => q == r && k == kind && db.runs[r].kind == Diagnosis && Claimed(db, r)
       case DoAppendWhileRunning(q, k) => q == r && k == kind && db.runs[r].kind == MainAgent && db.runs[r].status == Running
       case _ => false
  }

  /** What one step appends for an executor. */
  function EmittedBy(db: Db, step: Step, r: Id): seq<EventType> {
    match step
    case DoAppendAlways(_, k) => if Emits(db, step, r, k) then [k] else []
    case DoAppendWhileRunning(_, k) => if Emits(db, step, r, k) then [k] else []
    case _ => []
  }

  /** What the steps from the empty database on append for run `r`'s executor. */
  function Emitted(steps: seq<Step>, r: Id): seq<EventType>
    decreases |steps|
  {
    if steps == [] then []
    else
      var n := |steps| - 1;
      Emitted(steps[..n], r) + EmittedBy(After(EMPTY, steps[..n]), steps[n], r)
  }

  /** No append of these kinds to run `r` takes effect. */
  ghost predicate Quiet(steps: seq<Step>, r: Id, kinds: set<EventType>) {
    forall i, k | 0 <= i < |steps| && k in kinds :: !Emits(After(EMPTY, steps[..i]), steps[i], r, k)
  }

  const TERMINALS: set<EventType> := {RunSucceeded, RunFailed, RunCancelled}

  lemma {:induction false} AfterLast(steps: seq<Step>)
    requires steps != []
    ensures var n := |steps| - 1; After(EMPTY, steps) == Next(After(EMPTY, steps[..n]), steps[n])
  {
    var n := |steps| - 1;
    hide Next;
    assert steps == steps[..n] + [steps[n]];
    AfterConcat(EMPTY, steps[..n], [steps[n]]);
  }

  lemma {:induction false} EmittedByIsEmits(db: Db, step: Step, r: Id, k: EventType)
    ensures Emits(db, step, r, k) <==> k in EmittedBy(db, step, r)
  {
  }

  /** Quiet means that no such kind is among what was appended. */
  lemma {:induction false} QuietIsUnemitted(steps: seq<Step>, r: Id, kinds: set<EventType>)
    ensures Quiet(steps, r, kinds) <==> forall k | k in Emitted(steps, r) :: k !in kinds
    decreases |steps|
  {
    if steps != [] {
      var n := |steps| - 1;
      var front, last := Emitted(steps[..n], r), EmittedBy(After(EMPTY, steps[..n]), steps[n], r);
      QuietIsUnemitted(steps[..n], r, kinds);
      forall k ensures Emits(After(EMPTY, steps[..n]), steps[n], r, k) <==> k in last {
        EmittedByIsEmits(After(EMPTY, steps[..n]), steps[n], r, k);
      }
      hide Emits, EmittedBy, After;
      assert forall i | 0 <= i <= n :: steps[..n][..i] == steps[..i];
      assert Quiet(steps, r, kinds) <==> Quiet(steps[..n], r, kinds) && forall k | k in kinds :: k !in last by {
        QuietLast(steps, r, kinds);
      }
      assert forall k :: k in front + last <==> k in front || k in last;
    }
  }

  lemma {:induction false} QuietLast(steps: seq<Step>, r: Id, kinds: set<EventType>)
    requires steps != []
    ensures var n := |steps| - 1;
            Quiet(steps, r, kinds)
            <==> Quiet(steps[..n], r, kinds) && forall k | k in kinds :: !Emits(After(EMPTY, steps[..n]), steps[n], r, k)
  {
    var n := |steps| - 1;
    hide Emits, After;
    assert forall i | 0 <= i <= n :: steps[..n][..i] == steps[..i];
    if Quiet(steps, r, kinds) {
      forall i, k | 0 <= i < n && k in kinds
        ensures !Emits(After(EMPTY, steps[..n][..i]), steps[..n][i], r, k)
      {
        assert !Emits(After(EMPTY, steps[..i]), steps[i], r, k);
      }
    }
    if Quiet(steps[..n], r, kinds) && (forall k | k in kinds :: !Emits(After(EMPTY, steps[..n]), steps[n], r, k)) {
      forall i, k | 0 <= i < |steps| && k in kinds
        ensures !Emits(After(EMPTY, steps[..i]), steps[i], r, k)
      {
        if i < n { assert !Emits(After(EMPTY, steps[..n][..i]), steps[..n][i], r, k); }
      }
    }
  }

  // ----- executor rows are what was emitted

  predicate IsAppend(step: Step) { step.DoAppendAlways? || step.DoAppendWhileRunning? }

  ghost predicate OneServiceRow(db: Db, next: Db, r: Id)
    requires r in db.runs && r in db.events
  {
    && r in next.runs && r in next.events
    && (next.events[r] == db.events[r]
        || exists kind :: next.events[r] == db.events[r] + [Event(db.runs[r].nextSequence, kind, Service)])
  }

  lemma {:induction false} FinishWrites(db: Db, written: Db, r: Id, status: Status, code: Option<string>)
    requires r in db.runs && r in db.events && status.Terminal()
    requires written.runs == db.runs && written.events == db.events
    ensures OneServiceRow(db, Finish(written, r, status, code), r)
  {
    assert Finish(written, r, status, code).events[r] == db.events[r] + [Event(db.runs[r].nextSequence, TerminalKind(status), Service)];
  }

  /** Every other transaction on a run adds one service row to its log, or none. */
  lemma {:induction false} ServiceStepWrites(db: Db, step: Step, r: Id)
    requires r in db.runs && r in db.events && Target(step) == Some(r) && !step.DoCommit? && !IsAppend(step)
    ensures OneServiceRow(db, Next(db, step), r)
  {
    assert OneServiceRow(db, db, r);
    match step
    case DoClaim(_) =>
      hide InputMessageOk;
      assert Claim(db, r).reply == Ok(true) ==>
          Claim(db, r).db.events[r] == db.events[r] + [Event(db.runs[r].nextSequence, RunStarted, Service)];
    case _ => TerminalStepWrites(db, step, r);
  }

  lemma {:induction false} TerminalStepWrites(db: Db, step: Step, r: Id)
    requires r in db.runs && r in db.events && Target(step) == Some(r)
    requires step.DoCancel? || step.DoFail? || step.DoCompleteDiagnosis? || step.DoCompleteMain?
    ensures OneServiceRow(db, Next(db, step), r)
  {
    assert OneServiceRow(db, db, r);
    hide OneServiceRow, Finish, DeliveryAccepted;
    match step
    case DoCancel(_) => FinishWrites(db, db, r, Cancelled, None);
    case DoFail(_, code) => FinishWrites(db, db, r, Failed, Some(code));
    case DoCompleteDiagnosis(_, resultRun, summary, m) =>
      FinishWrites(db, db.(results := db.results[r := summary], messages := db.messages[m := AssistantMessage(db.runs[r], r, summary)]),
                   r, Succeeded, None);
    case DoCompleteMain(_, d, text, m, definitions) =>
      FinishWrites(db, db.(deliveries := db.deliveries[r := d], messages := db.messages[m := AssistantMessage(db.runs[r], r, text.content)]),
                   r, Succeeded, None);
  }

  lemma {:induction false} AppendAlwaysWrites(db: Db, r: Id, kind: EventType)
    requires r in db.runs && r in db.events
    ensures var step := DoAppendAlways(r, kind); var next := Next(db, step);
            if Emits(db, step, r, kind) then next == AddEvent(db, r, kind, Executor) else next == db
  {
    hide Claimed, AddEvent;
  }

  lemma {:induction false} AppendWhileRunningWrites(db: Db, r: Id, kind: EventType)
    requires r in db.runs && r in db.events
    ensures var step := DoAppendWhileRunning(r, kind); var next := Next(db, step);
            if Emits(db, step, r, kind) then next == AddEvent(db, r, kind, Executor) else next == db
  {
    hide AddEvent;
  }

  lemma {:induction false} AppendStepWrites(db: Db, step: Step, r: Id)
    requires r in db.runs && r in db.events && Target(step) == Some(r) && IsAppend(step)
    ensures var next := Next(db, step);
            && r in next.runs && r in next.events
            && next.events[r] == if Emits(db, step, r, step.kind) then db.events[r] + [Event(db.runs[r].nextSequence, step.kind, Executor)]
                                 else db.events[r]
  {
    hide Next, Emits;
    if step.DoAppendAlways? { AppendAlwaysWrites(db, r, step.kind); } else { AppendWhileRunningWrites(db, r, step.kind); }
  }

  lemma {:induction false} EventStepEmits(db: Db, step: Step, r: Id)
    requires r in db.runs && r in db.events && Target(step) == Some(r) && !step.DoCommit?
    ensures var next := Next(db, step);
            && r in next.runs && r in next.events
            && ExecutorKinds(next.events[r]) == ExecutorKinds(db.events[r]) + EmittedBy(db, step, r)
  {
    hide Next, Emits;
    var es, s := db.events[r], db.runs[r].nextSequence;
    if IsAppend(step) {
      AppendStepWrites(db, step, r);
      AppendRow(es, Event(s, step.kind, Executor));
    } else {
      ServiceStepWrites(db, step, r);
      if Next(db, step).events[r] != es {
        var kind :| Next(db, step).events[r] == es + [Event(s, kind, Service)];
        AppendRow(es, Event(s, kind, Service));
      }
    }
  }

  lemma {:induction false} CommitEmitsNothing(db: Db, step: Step, r: Id)
    requires step.DoCommit? && (r in db.runs <==> r in db.events) && r in Next(db, step).runs
    ensures var next := Next(db, step);
            r in next.events && ExecutorKinds(next.events[r]) == if r in db.runs then ExecutorKinds(db.events[r]) else []
  {
    hide Proper;
    assert ExecutorKinds([Event(1, RunQueued, Service)][..0]) == [];
  }

  lemma {:induction false} StepEmits(db: Db, step: Step, r: Id)
    requires Inv(db) && r in Next(db, step).runs
    ensures var next := Next(db, step);
            && r in next.events && (r in db.runs ==> r in db.events)
            && ExecutorKinds(next.events[r]) == (if r in db.runs then ExecutorKinds(db.events[r]) else []) + EmittedBy(db, step, r)
  {
    InvTables(db);
    hide Inv;
    if step.DoCommit? {
      CommitEmitsNothing(db, step, r);
    } else if Target(step) == Some(r) {
      if r in db.runs { EventStepEmits(db, step, r); } else { NothingToChange(db, step, r); }
    } else {
      OthersUntouched(db, step, r);
      hide Next;
      assert Same(db.runs, Next(db, step).runs, r) && Same(db.events, Next(db, step).events, r);
    }
  }

  lemma {:induction false} NothingToChange(db: Db, step: Step, r: Id)
    requires r !in db.runs && Target(step) == Some(r) && !step.DoCommit?
    ensures r !in Next(db, step).runs
  {
  }

  lemma {:induction false} ExecutorRowsAreEmitted(steps: seq<Step>, r: Id)
    ensures var db := After(EMPTY, steps);
            if r in db.runs then r in db.events && ExecutorKinds(db.events[r]) == Emitted(steps, r) else Emitted(steps, r) == []
    decreases |steps|
  {
    if steps != [] {
      var n := |steps| - 1;
      var db := After(EMPTY, steps[..n]);
      AfterLast(steps);
      EmptyInv();
      AfterKeepsInv(EMPTY, steps[..n]);
      ExecutorRowsAreEmitted(steps[..n], r);
      hide After, Inv, ExecutorKinds;
      if r in Next(db, steps[n]).runs {
        StepEmits(db, steps[n], r);
      } else {
        RunsStay(db, steps[n]);
      }
    }
  }

  lemma {:induction false} RunsStay(db: Db, step: Step)
    requires Inv(db)
    ensures db.runs.Keys <= Next(db, step).runs.Keys
  {
    assert TablesMatch(db);
    hide Inv, Next;
    NextExtends(db, step);
    assert forall r | r in db.runs :: RunKept(db, Next(db, step), r);
  }

  // ----- the whole log of a run

  function Opening(started: bool): seq<EventType> { [RunQueued] + if started then [RunStarted] else [] }

  /** The service's own rows, in order. */
  function OwnKinds(started: bool, status: Status): seq<EventType> {
    Opening(started) + TerminalOf(status)
  }

  /** Every row of a log is accounted for: the service's own, and what was appended. */
  lemma {:induction false} LogIsAccountedFor(steps: seq<Step>, r: Id)
    requires r in After(EMPTY, steps).runs
    ensures var db := After(EMPTY, steps);
            && r in db.events && LogOk(ViewOf(db, r)) && ExecutorKinds(db.events[r]) == Emitted(steps, r)
            && multiset(Kinds(db.events[r]))
               == multiset(OwnKinds(Claimed(db, r), db.runs[r].status)) + multiset(Emitted(steps, r))
  {
    EmptyInv();
    AfterKeepsInv(EMPTY, steps);
    ExecutorRowsAreEmitted(steps, r);
    var db := After(EMPTY, steps);
    hide After, Emitted, PayloadOk;
    assert RunOk(r, ViewOf(db, r));
    RowsSplit(db.events[r]);
  }

  lemma {:induction false} ExecutorRowIsNoServiceRow(es: seq<Event>, k: nat)
    requires k < |es| && es[k].writer == Executor
    ensures |ServiceKinds(es)| < |es|
    decreases |es|
  {
    if k < |es| - 1 {
      ExecutorRowIsNoServiceRow(es[..|es| - 1], k);
    } else {
      ServiceRowsAreRows(es[..k]);
    }
  }

  lemma {:induction false} ServiceRowsAreRows(es: seq<Event>)
    ensures |ServiceKinds(es)| <= |es|
    decreases |es|
  {
    if es != [] { ServiceRowsAreRows(es[..|es| - 1]); }
  }

  /** Executor rows come after RUN_STARTED. */
  lemma {:induction false} ExecutorRowsComeLater(v: View, k: nat)
    requires LogOk(v) && k < |v.events| && v.events[k].writer == Executor
    ensures k > 1 && v.events[1] == Event(2, RunStarted, Service)
  {
    ExecutorRowIsNoServiceRow(v.events, k);
    hide ServiceKinds;
  }

  /**
   In every reachable database a run's events are numbered 1, 2, ... without gaps, RUN_QUEUED
   first. RUN_QUEUED is nowhere else, and RUN_STARTED nowhere but at sequence 2, if and only if no
   append of that kind took effect. The service itself writes a terminal row exactly when the
   status is terminal, once, naming that status; on a main-agent run it is the last row.
   */
  lemma {:induction false} EveryLogTellsItsRun(steps: seq<Step>, r: Id)
    requires r in After(EMPTY, steps).runs
    ensures var db := After(EMPTY, steps);
            && r in db.events
            && var es, run := db.events[r], db.runs[r];
            && Numbered(es) && run.nextSequence == |es| + 1
            && es != [] && es[0] == Event(1, RunQueued, Service)
            && (Quiet(steps, r, {RunQueued}) <==> forall k | 0 < k < |es| :: es[k].kind != RunQueued)
            && (Quiet(steps, r, {RunStarted}) <==> forall k | 0 <= k < |es| && es[k].kind == RunStarted :: es[k].sequence == 2)
            && (run.status.Terminal() <==> exists k :: 0 <= k < |es| && ServiceTerminal(es[k]))
            && (forall k | 0 <= k < |es| && ServiceTerminal(es[k]) :: run.status.Terminal() && es[k].kind == TerminalKind(run.status))
            && (forall k, l | 0 <= k < l < |es| :: !(ServiceTerminal(es[k]) && ServiceTerminal(es[l])))
            && (run.kind == MainAgent && run.status.Terminal() ==> ServiceTerminal(es[|es| - 1]))
  {
    LogIsAccountedFor(steps, r);
    QuietIsUnemitted(steps, r, {RunQueued});
    QuietIsUnemitted(steps, r, {RunStarted});
    var db := After(EMPTY, steps);
    assert ViewOf(db, r).run == db.runs[r] && ViewOf(db, r).events == db.events[r];
    LogTells(ViewOf(db, r));
    hide *;
    assert forall k | k in Emitted(steps, r) :: k !in {RunQueued} <==> k != RunQueued;
    assert forall k | k in Emitted(steps, r) :: k !in {RunStarted} <==> k != RunStarted;
  }

  lemma {:induction false} LogTells(v: View)
    requires LogOk(v)
    ensures var es, run := v.events, v.run;
            && Numbered(es) && run.nextSequence == |es| + 1
            && es != [] && es[0] == Event(1, RunQueued, Service)
            && (RunQueued !in ExecutorKinds(es) <==> forall k | 0 < k < |es| :: es[k].kind != RunQueued)
            && (RunStarted !in ExecutorKinds(es) <==> forall k | 0 <= k < |es| && es[k].kind == RunStarted :: es[k].sequence == 2)
            && (run.status.Terminal() <==> exists k :: 0 <= k < |es| && ServiceTerminal(es[k]))
            && (forall k | 0 <= k < |es| && ServiceTerminal(es[k]) :: run.status.Terminal() && es[k].kind == TerminalKind(run.status))
            && (forall k, l | 0 <= k < l < |es| :: !(ServiceTerminal(es[k]) && ServiceTerminal(es[l])))
            && (run.kind == MainAgent && run.status.Terminal() ==> ServiceTerminal(es[|es| - 1]))
  {
    LogRows(v);
    KindIsWhoseRow(v, RunQueued);
    KindIsWhoseRow(v, RunStarted);
    hide ServiceKinds, ExecutorKinds;
  }

  /** A kind occurs beyond its one service place exactly when an executor row has it. */
  lemma {:induction false} KindIsWhoseRow(v: View, kind: EventType)
    requires LogOk(v) && (kind == RunQueued || kind == RunStarted)
    ensures kind !in ExecutorKinds(v.events)
            <==> forall k | 0 <= k < |v.events| && v.events[k].kind == kind :: k == if kind == RunQueued then 0 else 1
  {
    var place := if kind == RunQueued then 0 else 1;
    forall k | 0 <= k < |v.events| && v.events[k].kind == kind && k != place
      ensures kind in ExecutorKinds(v.events)
    {
      if v.events[k].writer == Service { ServiceRowIs(v, k); }
      ExecutorRowAt(v.events, k);
    }
    if kind in ExecutorKinds(v.events) {
      var k := ExecutorRowOf(v.events, kind);
      ExecutorRowsComeLater(v, k);
    }
  }

  // ----- the terminal event a reader expects

  function TerminalsIn(kinds: seq<EventType>): seq<EventType> {
    if kinds == [] then []
    else
      var n := |kinds| - 1;
      TerminalsIn(kinds[..n]) + if kinds[n].Terminal() then [kinds[n]] else []
  }

  /** What a reader of the log expects, whoever wrote it: one terminal event naming the status, or none. */
  ghost predicate LogAgrees(db: Db, r: Id)
    requires r in db.runs && r in db.events
  {
    TerminalsIn(Kinds(db.events[r])) == TerminalOf(db.runs[r].status)
  }

  lemma {:induction false} TerminalsKeepCounts(kinds: seq<EventType>)
    ensures forall k: EventType :: multiset(TerminalsIn(kinds))[k] == if k.Terminal() then multiset(kinds)[k] else 0
    decreases |kinds|
  {
    if kinds != [] {
      var n := |kinds| - 1;
      TerminalsKeepCounts(kinds[..n]);
      assert kinds == kinds[..n] + [kinds[n]];
    }
  }

  lemma {:induction false} OnlyElement(s: seq<EventType>, t: seq<EventType>)
    requires multiset(s) == multiset(t) && |t| <= 1
    ensures s == t
  {
    assert |s| == |multiset(s)| == |multiset(t)| == |t|;
    if |t| == 1 {
      assert s[0] in multiset(s);
      assert t == [t[0]];
    }
  }

  lemma {:induction false} OwnTerminals(started: bool, status: Status, k: EventType)
    requires k.Terminal()
    ensures multiset(OwnKinds(started, status))[k] == multiset(TerminalOf(status))[k]
  {
  }

  /** Adding appended kinds leaves the terminal part alone exactly when none of them is terminal. */
  lemma {:induction false} TerminalsOf(kinds: seq<EventType>, started: bool, status: Status, emitted: seq<EventType>)
    requires multiset(kinds) == multiset(OwnKinds(started, status)) + multiset(emitted)
    ensures TerminalsIn(kinds) == TerminalOf(status) <==> forall k | k in emitted :: k !in TERMINALS
  {
    TerminalsKeepCounts(kinds);
    hide TerminalsIn, TerminalOf, OwnKinds;
    var all, own := TerminalsIn(kinds), TerminalOf(status);
    if k :| k in emitted && k in TERMINALS {
      OwnTerminals(started, status, k);
      assert multiset(emitted)[k] > 0;
      assert multiset(all)[k] > multiset(own)[k];
    } else {
      forall k: EventType
        ensures multiset(all)[k] == multiset(own)[k]
      {
        if k.Terminal() {
          OwnTerminals(started, status, k);
          assert k in TERMINALS && k !in emitted;
        } else {
          NotOwnTerminal(status, k);
        }
      }
      assert multiset(all) == multiset(own);
      OneAtMost(status);
      OnlyElement(all, own);
    }
  }

  lemma {:induction false} NotOwnTerminal(status: Status, k: EventType)
    requires !k.Terminal()
    ensures multiset(TerminalOf(status))[k] == 0
  {
  }

  lemma {:induction false} OneAtMost(status: Status)
    ensures |TerminalOf(status)| <= 1
  {
  }

  /**
   Executor events are stored with whatever type the executor gives them. A reader finds the one
   terminal event the status calls for if and only if no append of a terminal type took effect.
   */
  lemma {:induction false} LogAgreesIffExecutorIsQuiet(steps: seq<Step>, r: Id)
    requires r in After(EMPTY, steps).runs
    ensures r in After(EMPTY, steps).events
    ensures LogAgrees(After(EMPTY, steps), r) <==> Quiet(steps, r, TERMINALS)
  {
    LogIsAccountedFor(steps, r);
    QuietIsUnemitted(steps, r, TERMINALS);
    var db := After(EMPTY, steps);
    hide After, Quiet, Emitted;
    TerminalsOf(Kinds(db.events[r]), Claimed(db, r), db.runs[r].status, Emitted(steps, r));
  }

  lemma {:induction false} NoLifecycleAppends(steps: seq<Step>, r: Id)
    requires forall i | 0 <= i < |steps| && IsAppend(steps[i]) && steps[i].r == r ::
               !steps[i].kind.Terminal() && !steps[i].kind.RunQueued? && !steps[i].kind.RunStarted?
    ensures Quiet(steps, r, TERMINALS) && Quiet(steps, r, {RunQueued}) && Quiet(steps, r, {RunStarted})
  {
    hide After, Claimed;
    forall i, k | 0 <= i < |steps| && k in TERMINALS + {RunQueued, RunStarted}
      ensures !Emits(After(EMPTY, steps[..i]), steps[i], r, k)
    {
    }
    hide Emits;
  }

  /** An executor that is never asked to store a lifecycle event leaves a log that tells its run completely. */
  lemma {:induction false} PlainExecutorsLeavePlainLogs(steps: seq<Step>, r: Id)
    requires r in After(EMPTY, steps).runs
    requires forall i | 0 <= i < |steps| && IsAppend(steps[i]) && steps[i].r == r ::
               !steps[i].kind.Terminal() && !steps[i].kind.RunQueued? && !steps[i].kind.RunStarted?
    ensures var db := After(EMPTY, steps);
            && r in db.events && LogAgrees(db, r)
            && forall k | 0 <= k < |db.events[r]| ::
                 (db.events[r][k].kind == RunQueued ==> k == 0) && (db.events[r][k].kind == RunStarted ==> k == 1)
  {
    EveryLogTellsItsRun(steps, r);
    LogAgreesIffExecutorIsQuiet(steps, r);
    NoLifecycleAppends(steps, r);
    hide *;
  }

  /** An executor that announces success itself leaves a running run with a terminal event. */
  lemma {:induction false} NoisyExecutorBreaksAgreement()
    ensures var db := Next(ClaimedRun(), DoAppendAlways(5, RunSucceeded));
            && 5 in db.runs && 5 in db.events && db.runs[5].status == Running
            && TerminalsIn(Kinds(db.events[5])) == [RunSucceeded] && !LogAgrees(db, 5)
  {
    NoisyAppend(RunSucceeded);
    assert [RunQueued, RunStarted, RunSucceeded][..2] == [RunQueued, RunStarted];
    assert [RunQueued, RunStarted][..1] == [RunQueued];
    assert [RunQueued][..0] == [];
    hide ClaimedRun, Next;
  }

  /** And one that repeats a lifecycle event leaves two of them in the log. */
  lemma {:induction false} NoisyExecutorRepeats()
    ensures var db := Next(ClaimedRun(), DoAppendAlways(5, RunStarted));
            5 in db.events && |db.events[5]| == 3 && db.events[5][1].kind == RunStarted && db.events[5][2] == Event(3, RunStarted, Executor)
    ensures var db := Next(ClaimedRun(), DoAppendAlways(5, RunQueued));
            5 in db.events && |db.events[5]| == 3 && db.events[5][0].kind == RunQueued && db.events[5][2] == Event(3, RunQueued, Executor)
  {
    NoisyAppend(RunStarted);
    NoisyAppend(RunQueued);
    hide ClaimedRun, Next;
  }

  lemma {:induction false} NoisyAppend(kind: EventType)
    ensures var db := Next(ClaimedRun(), DoAppendAlways(5, kind));
            && 5 in db.runs && 5 in db.events && db.runs[5].status == Running
            && db.events[5] == [Event(1, RunQueued, Service), Event(2, RunStarted, Service), Event(3, kind, Executor)]
            && Kinds(db.events[5]) == [RunQueued, RunStarted, kind]
  {
    ClaimedRunIs();
    hide ClaimedRun;
    var es := Next(ClaimedRun(), DoAppendAlways(5, kind)).events[5];
    assert es == [Event(1, RunQueued, Service), Event(2, RunStarted, Service), Event(3, kind, Executor)];
    hide Next;
    KindsAt(es);
  }

  lemma {:induction false} RowStays(db: Db, step: Step, r: Id)
    requires Inv(db) && r in db.runs
    ensures r in Next(db, step).runs && RowKept(db.runs[r], Next(db, step).runs[r])
  {
    assert TablesMatch(db);
    hide Inv, Next;
    NextExtends(db, step);
    assert RunKept(db, Next(db, step), r);
  }

  // ----- the log of a main-agent run, row by row

  lemma {:induction false} MiddleRows(es: seq<Event>, lo: nat, hi: nat)
    requires lo <= hi <= |es|
    requires forall k | 0 <= k < |es| :: es[k].writer == Executor <==> lo <= k < hi
    ensures ExecutorKinds(es) == seq(hi - lo, i requires 0 <= i < hi - lo => es[lo + i].kind)
    decreases |es|
  {
    if es != [] {
      var n := |es| - 1;
      if hi == |es| && lo < hi {
        MiddleRows(es[..n], lo, n);
      } else {
        MiddleRows(es[..n], if lo <= n then lo else n, if hi <= n then hi else n);
      }
    }
  }

  lemma {:induction false} MainAgentRowWriter(v: View, k: nat)
    requires LogOk(v) && v.run.kind == MainAgent && 1 < k < |v.events|
    ensures v.events[k].writer == Service <==> v.run.status.Terminal() && k == |v.events| - 1
  {
    if v.events[k].writer == Service {
      ServiceRowIs(v, k);
      if k < |v.events| - 1 { OneTerminalRow(v, k, |v.events| - 1); }
    }
  }

  /** From the third row on, everything but a terminal last row is the executor's. */
  lemma {:induction false} MainAgentRows(v: View, lo: nat, hi: nat)
    requires LogOk(v) && v.run.kind == MainAgent
    requires lo == if |v.events| > 1 && v.events[1] == Event(2, RunStarted, Service) then 2 else 1
    requires hi == if v.run.status.Terminal() then |v.events| - 1 else |v.events|
    ensures lo <= hi <= |v.events| && forall k | 0 <= k < |v.events| :: v.events[k].writer == Executor <==> lo <= k < hi
  {
    forall k: nat | k < |v.events|
      ensures v.events[k].writer == Executor <==> lo <= k < hi
    {
      if v.events[k].writer == Executor { ExecutorRowsComeLater(v, k); }
      if k > 1 { MainAgentRowWriter(v, k); }
    }
    hide ServiceKinds;
  }

  lemma {:induction false} StoryOfRows(es: seq<Event>, lo: nat, hi: nat, status: Status)
    requires 1 <= lo <= 2 && lo <= hi <= |es| && es[0].kind == RunQueued && (lo == 2 ==> es[1].kind == RunStarted)
    requires forall k | 0 <= k < |es| :: es[k].writer == Executor <==> lo <= k < hi
    requires if status.Terminal() then hi == |es| - 1 && es[hi].kind == TerminalKind(status) else hi == |es|
    ensures Kinds(es) == Opening(lo == 2) + ExecutorKinds(es) + TerminalOf(status)
  {
    MiddleRows(es, lo, hi);
    KindsAt(es);
    hide ExecutorKinds, Kinds;
  }

  lemma {:induction false} MainAgentStory(v: View)
    requires LogOk(v) && v.run.kind == MainAgent
    ensures var started := |v.events| > 1 && v.events[1] == Event(2, RunStarted, Service);
            Kinds(v.events) == Opening(started) + ExecutorKinds(v.events) + TerminalOf(v.run.status)
  {
    var lo: nat := if |v.events| > 1 && v.events[1] == Event(2, RunStarted, Service) then 2 else 1;
    var hi: nat := if v.run.status.Terminal() then |v.events| - 1 else |v.events|;
    MainAgentRows(v, lo, hi);
    hide ServiceKinds, Kinds, ExecutorKinds;
    StoryOfRows(v.events, lo, hi, v.run.status);
  }

  /**
   The log of a main-agent run is RUN_QUEUED, then RUN_STARTED once it is claimed, then exactly the
   executor events whose append took effect, in their order, then the terminal event of its status.
   */
  lemma {:induction false} MainAgentLogIsItsStory(steps: seq<Step>, r: Id)
    requires var db := After(EMPTY, steps); r in db.runs && db.runs[r].kind == MainAgent
    ensures var db := After(EMPTY, steps);
            r in db.events && Kinds(db.events[r]) == Opening(Claimed(db, r)) + Emitted(steps, r) + TerminalOf(db.runs[r].status)
  {
    LogIsAccountedFor(steps, r);
    var db := After(EMPTY, steps);
    var v := ViewOf(db, r);
    assert v.run == db.runs[r] && v.events == db.events[r];
    MainAgentStory(v);
    assert Claimed(db, r) <==> |v.events| > 1 && v.events[1] == Event(2, RunStarted, Service);
    hide *;
  }

  function TriedBy(step: Step, r: Id): seq<EventType> {
    if step.DoAppendWhileRunning? && step.r == r then [step.kind] else []
  }

  /** The appends a main-agent worker tries, taken or not. */
  function Attempts(steps: seq<Step>, r: Id): seq<EventType>
    decreases |steps|
  {
    if steps == [] then []
    else
      var n := |steps| - 1;
      Attempts(steps[..n], r) + TriedBy(steps[n], r)
  }

  /** The worker tries them once the run was claimed. */
  ghost predicate TriedAfterClaim(steps: seq<Step>, r: Id) {
    forall i | 0 <= i < |steps| && steps[i].DoAppendWhileRunning? && steps[i].r == r ::
      r in After(EMPTY, steps[..i]).runs && After(EMPTY, steps[..i]).runs[r].status != Queued
  }

  lemma {:induction false} TriedBefore(steps: seq<Step>, r: Id)
    requires steps != [] && TriedAfterClaim(steps, r)
    ensures TriedAfterClaim(steps[..|steps| - 1], r)
  {
    hide After;
    var front := steps[..|steps| - 1];
    forall i | 0 <= i < |front| && front[i].DoAppendWhileRunning? && front[i].r == r
      ensures r in After(EMPTY, front[..i]).runs && After(EMPTY, front[..i]).runs[r].status != Queued
    {
      assert front[..i] == steps[..i];
    }
  }

  lemma {:induction false} OneMoreAttempt(db: Db, step: Step, r: Id)
    requires r in db.runs && r in db.events && db.runs[r].kind == MainAgent
    requires step.DoAppendWhileRunning? && step.r == r ==> db.runs[r].status != Queued
    ensures EmittedBy(db, step, r) == if db.runs[r].status.Terminal() then [] else TriedBy(step, r)
  {
  }

  /**
   Whenever the run is cancelled or fails meanwhile: the executor rows of a main-agent run are the
   first of the events its worker tried to store, in their order, and all of them while it runs.
   */
  lemma {:induction false} ExecutorRowsArePrefix(steps: seq<Step>, r: Id)
    requires TriedAfterClaim(steps, r)
    ensures var db := After(EMPTY, steps);
            && (r !in db.runs ==> Attempts(steps, r) == [])
            && (r in db.runs && db.runs[r].kind == MainAgent ==>
                  && Emitted(steps, r) <= Attempts(steps, r)
                  && (!db.runs[r].status.Terminal() ==> Emitted(steps, r) == Attempts(steps, r)))
    decreases |steps|
  {
    if steps != [] {
      var n := |steps| - 1;
      var front, step := steps[..n], steps[n];
      var db := After(EMPTY, front);
      TriedBefore(steps, r);
      ExecutorRowsArePrefix(front, r);
      ExecutorRowsAreEmitted(front, r);
      AfterLast(steps);
      EmptyInv();
      AfterKeepsInv(EMPTY, front);
      InvTables(db);
      RunsStay(db, step);
      assert step.DoAppendWhileRunning? && step.r == r ==> r in db.runs && db.runs[r].status != Queued;
      if r in db.runs {
        RowStays(db, step, r);
        if db.runs[r].kind == MainAgent { OneMoreAttempt(db, step, r); }
      }
      hide After, Next, Inv, TriedAfterClaim, ExecutorKinds, EmittedBy, TriedBy;
    }
  }
}
