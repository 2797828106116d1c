/**
 What holds of every run of the system: log and status agree, nothing written is ever taken
 back, and how long a log can go on after the run has ended.
 */
module RunHistory {
  import opened Wrappers
  import MI = MainInput
  import TC = TextCompare
  import opened Capabilities
  import opened MainDelivery
  import opened RunLifecycle

  // ----- rows written by the service

  ghost predicate ServiceTerminal(e: Event) { e.writer == Service && e.kind.Terminal() }

  /** The position a service row takes among the service rows. */
  function Rank(es: seq<Event>, k: nat): nat
    requires k <= |es|
  {
    |ServiceKinds(es[..k])|
  }

  lemma {:induction false} ServiceRowAt(es: seq<Event>, k: nat)
    requires k < |es| && es[k].writer == Service
    ensures Rank(es, k) < |ServiceKinds(es)| && ServiceKinds(es)[Rank(es, k)] == es[k].kind
    decreases |es|
  {
    var n := |es| - 1;
    if k < n {
      ServiceRowAt(es[..n], k);
      assert es[..n][..k] == es[..k];
    }
  }

  lemma {:induction false} RankGrows(es: seq<Event>, k: nat, l: nat)
    requires k < l <= |es| && es[k].writer == Service
    ensures Rank(es, k) < Rank(es, l)
  {
    ServiceRowAt(es[..l], k);
    assert es[..l][..k] == es[..k];
  }

  lemma EmptyInv()
    ensures Inv(EMPTY)
  {
  }

  /** Where the service's rows stand: first, second, or last among its own. */
  lemma ServiceRowIs(v: View, k: nat)
    requires LogOk(v) && k < |v.events| && v.events[k].writer == Service
    ensures k == 0 ==> v.events[k].kind == RunQueued
    ensures k == 1 || k == 0 || v.events[k].kind != RunStarted
    ensures k > 0 ==> v.events[k].kind != RunQueued
    ensures k > 0 && v.events[k].kind != RunStarted ==>
              v.run.status.Terminal() && v.events[k].kind == TerminalKind(v.run.status)
              && Rank(v.events, k) == |ServiceKinds(v.events)| - 1
  {
    var es := v.events;
    var started := |es| > 1 && es[1] == Event(2, RunStarted, Service);
    ServiceRowAt(es, k);
    if k > 0 {
      RankGrows(es, 0, k);
      if k > 1 && started { RankGrows(es, 1, k); }
    }
    assert Rank(es, 0) == 0;
    var kinds := ServiceKinds(es);
    hide ServiceKinds;
  }

  lemma OneTerminalRow(v: View, k: nat, l: nat)
    requires LogOk(v) && k < l < |v.events|
    ensures !(ServiceTerminal(v.events[k]) && ServiceTerminal(v.events[l]))
  {
    if ServiceTerminal(v.events[k]) && ServiceTerminal(v.events[l]) {
      ServiceRowIs(v, k);
      ServiceRowIs(v, l);
      hide LogOk, Rank;
      RankGrows(v.events, k, l);
    }
  }

  lemma TerminalRowExists(v: View)
    requires LogOk(v)
    ensures v.run.status.Terminal() <==> exists k :: 0 <= k < |v.events| && ServiceTerminal(v.events[k])
  {
    if v.run.status.Terminal() {
      assert ServiceKinds(v.events)[|ServiceKinds(v.events)| - 1] == TerminalKind(v.run.status);
      hide LogOk;
      LastServiceRow(v.events);
    } else {
      forall k | 0 <= k < |v.events|
        ensures !ServiceTerminal(v.events[k])
      {
        if v.events[k].writer == Service {
          ServiceRowIs(v, k);
        }
      }
    }
  }

  lemma LogRows(v: View)
    requires LogOk(v)
    ensures var es := v.events;
            && (v.run.status.Terminal() <==> exists k :: 0 <= k < |es| && ServiceTerminal(es[k]))
            && (forall k | 0 <= k < |es| && ServiceTerminal(es[k]) :: v.run.status.Terminal() && es[k].kind == TerminalKind(v.run.status))
            && (forall k, l | 0 <= k < l < |es| :: !(ServiceTerminal(es[k]) && ServiceTerminal(es[l])))
  {
    TerminalRowExists(v);
    forall k | 0 <= k < |v.events| && ServiceTerminal(v.events[k])
      ensures v.run.status.Terminal() && v.events[k].kind == TerminalKind(v.run.status)
    {
      ServiceRowIs(v, k);
    }
    forall k, l | 0 <= k < l < |v.events|
      ensures !(ServiceTerminal(v.events[k]) && ServiceTerminal(v.events[l]))
    {
      OneTerminalRow(v, k, l);
    }
  }

  lemma {:induction false} LastServiceRow(es: seq<Event>)
    requires ServiceKinds(es) != []
    ensures exists k :: 0 <= k < |es| && es[k].writer == Service && es[k].kind == ServiceKinds(es)[|ServiceKinds(es)| - 1]
    decreases |es|
  {
    var n := |es| - 1;
    if es[n].writer != Service {
      LastServiceRow(es[..n]);
      var k :| 0 <= k < n && es[..n][k].writer == Service && es[..n][k].kind == ServiceKinds(es)[|ServiceKinds(es)| - 1];
      assert es[k] == es[..n][k];
    }
  }

  /** A result or delivery and exactly one assistant message exist when, and only when, the run succeeded. */
  lemma SuccessHasOnePayload(steps: seq<Step>, r: Id)
    requires r in After(EMPTY, steps).runs
    ensures var db := After(EMPTY, steps);
            && |Assistants(db, r)| == (if db.runs[r].status == Succeeded then 1 else 0)
            && (r in db.results <==> db.runs[r].kind == Diagnosis && db.runs[r].status == Succeeded)
            && (r in db.deliveries <==> db.runs[r].kind == MainAgent && db.runs[r].status == Succeeded)
  {
    EmptyInv();
    AfterKeepsInv(EMPTY, steps);
    var db := After(EMPTY, steps);
    assert RunOk(r, ViewOf(db, r));
  }

  // ----- what a step leaves alone

  ghost predicate Untouched(db: Db, next: Db, q: Id) {
    Same(db.runs, next.runs, q) && Same(db.events, next.events, q)
  }

  lemma OthersUntouched(db: Db, step: Step, q: Id)
    requires Target(step) != Some(q)
    ensures Untouched(db, Next(db, step), q)
  {
    if step.DoCommit? {
      hide Proper;
    } else if Target(step).Some? {
      hide Next;
      StepTouches(db, step);
    } else {
      hide Next;
      UntargetedStep(db, step);
    }
  }

  // ----- nothing is taken back

  ghost predicate RowKept(was: Run, now: Run) {
    && now == was.(status := now.status, nextSequence := now.nextSequence, errorCode := now.errorCode)
    && (was.status.Terminal() ==> now.status == was.status && now.errorCode == was.errorCode)
    && (was.status != Queued ==> now.status != Queued)
  }

  ghost predicate RunKept(db: Db, next: Db, r: Id)
    requires r in db.runs && r in db.events
  {
    && r in next.runs && r in next.events
    && RowKept(db.runs[r], next.runs[r])
    && db.events[r] <= next.events[r]
  }

  ghost predicate Extends(db: Db, next: Db) {
    && db.runs.Keys == db.events.Keys
    && (forall r | r in db.runs :: RunKept(db, next, r))
    && (forall k | k in db.keys :: k in next.keys && next.keys[k] == db.keys[k])
    && (forall r | r in db.inputs :: r in next.inputs && next.inputs[r] == db.inputs[r])
    && (forall r | r in db.results :: r in next.results && next.results[r] == db.results[r])
    && (forall r | r in db.deliveries :: r in next.deliveries && next.deliveries[r] == db.deliveries[r])
    && (forall m | m in db.messages ::
          m in next.messages && next.messages[m].role == db.messages[m].role && next.messages[m].session == db.messages[m].session)
    && db.order <= next.order
  }

  lemma ExtendsIsTransitive(a: Db, b: Db, c: Db)
    requires Extends(a, b) && Extends(b, c)
    ensures Extends(a, c)
  {
    forall r | r in a.runs
      ensures RunKept(a, c, r)
    {
      assert RunKept(a, b, r) && RunKept(b, c, r);
    }
  }

  ghost predicate TablesMatch(db: Db) {
    db.runs.Keys == db.events.Keys && db.inputs.Keys <= db.runs.Keys
  }

  ghost predicate Grows<K, V>(m: map<K, V>, n: map<K, V>) {
    forall k | k in m :: k in n && n[k] == m[k]
  }

  /** A transaction rewrites one run's row, adds rows to other tables and ends with one event. */
  lemma EventExtends(db: Db, written: Db, r: Id, kind: EventType, writer: Writer)
    requires TablesMatch(db) && r in db.runs && r in written.runs && RowKept(db.runs[r], written.runs[r])
    requires written.runs == db.runs[r := written.runs[r]] && written.events == db.events
    requires written.keys == db.keys && written.inputs == db.inputs && written.order == db.order
    requires Grows(db.results, written.results) && Grows(db.deliveries, written.deliveries)
    requires Grows(db.messages, written.messages)
    ensures Extends(db, AddEvent(written, r, kind, writer))
  {
    var next := AddEvent(written, r, kind, writer);
    forall q | q in db.runs ensures RunKept(db, next, q) {}
  }

  lemma UnchangedExtends(db: Db, next: Db)
    requires TablesMatch(db) && next == db.(messages := next.messages, sessions := next.sessions)
    requires forall m | m in db.messages :: m in next.messages && next.messages[m].role == db.messages[m].role && next.messages[m].session == db.messages[m].session
    ensures Extends(db, next)
  {
    forall q | q in db.runs ensures RunKept(db, next, q) {}
  }

  lemma CommitExtends(db: Db, n: NewRun)
    requires TablesMatch(db)
    ensures Extends(db, CommitRun(db, n).db)
  {
    if CommitRun(db, n).reply.Ok? {
      var next := CommitRun(db, n).db;
      assert next.events == db.events[n.runId := next.events[n.runId]] && next.runs == db.runs[n.runId := next.runs[n.runId]];
      forall q | q in db.runs ensures RunKept(db, next, q) {}
    } else {
      hide Extends, TablesMatch;
      UnchangedExtends(db, db);
    }
  }

  lemma ClaimExtends(db: Db, r: Id)
    requires TablesMatch(db)
    ensures Extends(db, Claim(db, r).db)
  {
    hide Extends;
    UnchangedExtends(db, db);
    if Claim(db, r).reply == Ok(true) {
      EventExtends(db, db.(runs := db.runs[r := db.runs[r].(status := Running)]), r, RunStarted, Service);
    }
  }

  lemma AppendsExtend(db: Db, r: Id, kind: EventType)
    requires TablesMatch(db)
    ensures Extends(db, AppendAlways(db, r, kind).db)
    ensures Extends(db, AppendWhileRunning(db, r, kind).db)
  {
    hide Extends, AddEvent;
    UnchangedExtends(db, db);
    if r in db.runs {
      EventExtends(db, db, r, kind, Executor);
    }
  }

  lemma FinishExtends(db: Db, written: Db, r: Id, status: Status, code: Option<string>)
    requires TablesMatch(db) && r in db.runs && !db.runs[r].status.Terminal() && status.Terminal()
    requires written == db.(results := written.results, deliveries := written.deliveries, messages := written.messages)
    requires Grows(db.results, written.results) && Grows(db.deliveries, written.deliveries)
    requires Grows(db.messages, written.messages)
    ensures Extends(db, Finish(written, r, status, code))
  {
    hide Extends;
    var run := db.runs[r].(status := status);
    var row := if code.Some? then run.(errorCode := code) else run;
    EventExtends(db, written.(runs := written.runs[r := row]), r, TerminalKind(status), Service);
  }

  lemma CancelAndFailExtend(db: Db, r: Id, code: string)
    requires TablesMatch(db)
    ensures Extends(db, Cancel(db, r).db) && Extends(db, Fail(db, r, code).db)
  {
    hide Extends, Finish;
    UnchangedExtends(db, db);
    if Cancel(db, r).db != db { FinishExtends(db, db, r, Cancelled, None); }
    if Fail(db, r, code).db != db { FinishExtends(db, db, r, Failed, Some(code)); }
  }

  lemma CompleteDiagnosisExtends(db: Db, r: Id, resultRun: Id, summary: string, m: Id)
    requires TablesMatch(db)
    ensures Extends(db, CompleteDiagnosis(db, r, resultRun, summary, m).db)
  {
    hide Extends, Finish;
    UnchangedExtends(db, db);
    if CompleteDiagnosis(db, r, resultRun, summary, m).db != db {
      var written := db.(results := db.results[r := summary],
                         messages := db.messages[m := AssistantMessage(db.runs[r], r, summary)]);
      FinishExtends(db, written, r, Succeeded, None);
    }
  }

  lemma CompleteMainExtends(db: Db, r: Id, d: Delivery, text: Rendered, m: Id, definitions: Option<map<Capabilities.Key, Definition>>)
    requires TablesMatch(db)
    ensures Extends(db, CompleteMain(db, r, d, text, m, definitions).db)
  {
    hide Extends, Finish, DeliveryAccepted;
    UnchangedExtends(db, db);
    if CompleteMain(db, r, d, text, m, definitions).db != db {
      var written := db.(deliveries := db.deliveries[r := d],
                         messages := db.messages[m := AssistantMessage(db.runs[r], r, text.content)]);
      FinishExtends(db, written, r, Succeeded, None);
    }
  }

  lemma OtherStepExtends(db: Db, step: Step)
    requires TablesMatch(db) && !RunStep(step)
    ensures Extends(db, Next(db, step))
  {
    hide Extends, TablesMatch, Next;
    UntargetedStep(db, step);
    UnchangedExtends(db, Next(db, step));
  }

  lemma NextExtends(db: Db, step: Step)
    requires TablesMatch(db)
    ensures Extends(db, Next(db, step))
  {
    hide Extends, Claim, CommitRun, CompleteMain, CompleteDiagnosis, Cancel, Fail, AppendWhileRunning, AppendAlways, Enabled, TablesMatch;
    if !RunStep(step) {
      OtherStepExtends(db, step);
    } else if !Enabled(db, step) {
      UnchangedExtends(db, db);
    } else {
      match step
      case DoCommit(n) => CommitExtends(db, n);
      case DoClaim(r) => ClaimExtends(db, r);
      case DoAppendAlways(r, kind) => AppendsExtend(db, r, kind);
      case DoAppendWhileRunning(r, kind) => AppendsExtend(db, r, kind);
      case DoCancel(r) => CancelAndFailExtend(db, r, "");
      case DoFail(r, code) => CancelAndFailExtend(db, r, code);
      case DoCompleteDiagnosis(r, resultRun, summary, m) => CompleteDiagnosisExtends(db, r, resultRun, summary, m);
      case DoCompleteMain(r, d, text, m, definitions) => CompleteMainExtends(db, r, d, text, m, definitions);
    }
  }

  lemma {:induction false} AfterExtends(db: Db, steps: seq<Step>)
    requires Inv(db)
    ensures Extends(db, After(db, steps))
    decreases |steps|
  {
    hide RunKept;
    if steps == [] {
      forall r | r in db.runs ensures RunKept(db, db, r) { KeptByItself(db, r); }
    } else {
      NextKeepsInv(db, steps[0]);
      NextExtends(db, steps[0]);
      AfterExtends(Next(db, steps[0]), steps[1..]);
      ExtendsIsTransitive(db, Next(db, steps[0]), After(db, steps));
    }
  }

  lemma KeptByItself(db: Db, r: Id)
    requires r in db.runs && r in db.events
    ensures RunKept(db, db, r)
  {
  }

  lemma {:induction false} AfterConcat(db: Db, first: seq<Step>, later: seq<Step>)
    ensures After(db, first + later) == After(After(db, first), later)
    decreases |first|
  {
    if first == [] {
      assert first + later == later;
    } else {
      assert (first + later)[0] == first[0] && (first + later)[1..] == first[1..] + later;
      AfterConcat(Next(db, first[0]), first[1..], later);
    }
  }

  /**
   However the system goes on, every run keeps its identity, its frozen input and its log as a
   prefix; a terminal status, a result, a delivery and an idempotency key stay what they are.
   */
  lemma NothingIsTakenBack(first: seq<Step>, later: seq<Step>)
    ensures Extends(After(EMPTY, first), After(EMPTY, first + later))
  {
    EmptyInv();
    AfterKeepsInv(EMPTY, first);
    AfterConcat(EMPTY, first, later);
    AfterExtends(After(EMPTY, first), later);
  }

  lemma StepKeepsAnswers(db: Db, step: Step, m: Id)
    requires m in db.messages && db.messages[m].role == MI.Assistant
    ensures m in Next(db, step).messages && Next(db, step).messages[m] == db.messages[m]
  {
    hide DeliveryAccepted, Proper, InputMessageOk, Claimed;
  }

  /** Users edit and archive their own messages; an assistant message, once written, is never changed. */
  lemma {:induction false} AnswersStay(db: Db, steps: seq<Step>, m: Id)
    requires m in db.messages && db.messages[m].role == MI.Assistant
    ensures m in After(db, steps).messages && After(db, steps).messages[m] == db.messages[m]
    decreases |steps|
  {
    hide Next;
    if steps != [] {
      StepKeepsAnswers(db, steps[0], m);
      AnswersStay(Next(db, steps[0]), steps[1..], m);
    }
  }

  /**
   Every comparison the database holds, at any time, takes its run's frozen text A to text B line
   by line, and its inverse takes B back to A.
   */
  lemma StoredComparisonsArePatches(steps: seq<Step>, r: Id)
    requires var db := After(EMPTY, steps); r in db.deliveries && db.deliveries[r].ComparisonDelivery?
    ensures var db := After(EMPTY, steps);
            && r in db.inputs && MI.ValidSnapshot(db.inputs[r])
            && db.inputs[r].textA.Some? && db.inputs[r].textB.Some?
            && var a, b := db.inputs[r].textA.value.Lines(), db.inputs[r].textB.value.Lines();
            && TC.Patch(a, db.deliveries[r].comparison.blocks) == Some(b)
            && TC.Patch(b, TC.Inverse(db.deliveries[r].comparison.blocks)) == Some(a)
  {
    EmptyInv();
    AfterKeepsInv(EMPTY, steps);
    var db := After(EMPTY, steps);
    hide After, LogOk;
    assert RunOk(r, ViewOf(db, r));
    var definitions :| DeliveryAccepted(db.deliveries[r], r, db.inputs[r], definitions);
    AcceptedComparisonIsAPatch(db.deliveries[r].comparison, r, db.inputs[r], definitions);
  }

  // ----- a run in the middle of its life

  const FIRST_RUN := NewRun(5, 6, Scope(1, Create, 7), MI.CreateText("q"), Diagnosis, "q", None, None, None)

  function ClaimedRun(): Db {
    Next(Next(Next(EMPTY, DoAddSession(1, [])), DoCommit(FIRST_RUN)), DoClaim(5))
  }

  lemma ClaimedRunIs()
    ensures var db := ClaimedRun();
            && 5 in db.runs && 5 in db.events && db.runs[5].status == Running && db.runs[5].kind == Diagnosis
            && db.runs[5].nextSequence == 3
            && db.events[5] == [Event(1, RunQueued, Service), Event(2, RunStarted, Service)]
  {
  }

  lemma ClaimedRunInv()
    ensures Inv(ClaimedRun())
  {
    hide Inv, Next;
    var s1 := Next(EMPTY, DoAddSession(1, []));
    var s2 := Next(s1, DoCommit(FIRST_RUN));
    EmptyInv();
    NextKeepsInv(EMPTY, DoAddSession(1, []));
    NextKeepsInv(s1, DoCommit(FIRST_RUN));
    NextKeepsInv(s2, DoClaim(5));
  }
}
