/**
 What each transaction on a run does in every reachable state (backend/src/application/services.py),
 told from the run's row, its log and the request alone, with the whole new database.
 */
module RunOutcomes {
  import opened Wrappers
  import MI = MainInput
  import opened TextCompare
  import opened Capabilities
  import opened MainDelivery
  import opened RunLifecycle
  import opened RunHistory
  import A = RunAcceptance

  /** The database after any calls and any other steps. */
  ghost function Reached(moves: seq<A.Move>): Db { A.Play(A.INITIAL, moves).db }

  /** What every reachable row can rely on. */
  ghost predicate Settled(db: Db, r: Id) {
    && r in db.runs && r in db.events
    && var run, log := db.runs[r], db.events[r];
    && run.nextSequence == |log| + 1 && run.session in db.sessions && InputMessageOk(db, run)
    && (r in db.inputs <==> run.kind == MainAgent)
    && (r in db.results <==> run.kind == Diagnosis && run.status == Succeeded)
    && (r in db.deliveries <==> run.kind == MainAgent && run.status == Succeeded)
    && (r in db.inputs ==> MI.ValidSnapshot(db.inputs[r]))
  }

  lemma {:induction false} ReachedIsSettled(moves: seq<A.Move>, r: Id)
    ensures var db := Reached(moves); db.events.Keys == db.runs.Keys && (r in db.runs ==> Settled(db, r))
  {
    A.Reachable(moves);
    hide A.Play, A.KeysOk, A.OrderOk, A.RerunsOk, InputMessageOk, MI.ValidSnapshot;
    var db := Reached(moves);
    if r in db.runs {
      assert RunOk(r, ViewOf(db, r));
      assert LogOk(ViewOf(db, r));
      hide LogOk;
    }
  }

  /** One more row in the log of `r`, under the next number, and `row` in its place; all other rows are as they were. */
  ghost predicate Recorded(db: Db, next: Db, r: Id, row: Run, kind: EventType, writer: Writer) {
    && r in db.events
    && next == db.(runs := db.runs[r := row.(nextSequence := |db.events[r]| + 2)],
                   events := db.events[r := db.events[r] + [Event(|db.events[r]| + 1, kind, writer)]])
  }

  /**
   A queued or running run of either kind is cancelled with one RUN_CANCELLED row, a succeeded or failed
   one is refused, a cancelled one is left alone.
   */
  lemma {:induction false} CancelOutcome(moves: seq<A.Move>, r: Id)
    ensures var db, o := Reached(moves), Cancel(Reached(moves), r);
            && (r !in db.runs ==> o == Outcome(db, Err(RunNotFound)))
            && (r in db.runs ==>
                  match db.runs[r].status
                  case Queued => o.reply == Ok(()) && Recorded(db, o.db, r, db.runs[r].(status := Cancelled), RunCancelled, Service)
                  case Running => o.reply == Ok(()) && Recorded(db, o.db, r, db.runs[r].(status := Cancelled), RunCancelled, Service)
                  case Cancelled => o == Outcome(db, Ok(()))
                  case _ => o == Outcome(db, Err(RunAlreadyTerminal)))
  {
    ReachedIsSettled(moves, r);
    hide Reached, InputMessageOk, MI.ValidSnapshot;
  }

  /** A queued or running run is stored as failed with the code given and one RUN_FAILED row; an ended one is left alone. */
  lemma {:induction false} FailOutcome(moves: seq<A.Move>, r: Id, code: string)
    ensures var db, o := Reached(moves), Fail(Reached(moves), r, code);
            && (r !in db.runs ==> o == Outcome(db, Err(RunNotFound)))
            && (r in db.runs ==>
                  match db.runs[r].status
                  case Queued =>
                    o.reply == Ok(()) && Recorded(db, o.db, r, db.runs[r].(status := Failed, errorCode := Some(code)), RunFailed, Service)
                  case Running =>
                    o.reply == Ok(()) && Recorded(db, o.db, r, db.runs[r].(status := Failed, errorCode := Some(code)), RunFailed, Service)
                  case _ => o == Outcome(db, Ok(())))
  {
    ReachedIsSettled(moves, r);
    hide Reached, InputMessageOk, MI.ValidSnapshot;
  }

  /** A queued run is claimed with one RUN_STARTED row, whatever its kind; no other run is. */
  lemma {:induction false} ClaimOutcome(moves: seq<A.Move>, r: Id)
    ensures var db, o := Reached(moves), Claim(Reached(moves), r);
            && (r !in db.runs ==> o == Outcome(db, Err(RunNotFound)))
            && (r in db.runs && db.runs[r].status == Queued ==>
                  o.reply == Ok(true) && Recorded(db, o.db, r, db.runs[r].(status := Running), RunStarted, Service))
            && (r in db.runs && db.runs[r].status != Queued ==> o == Outcome(db, Ok(false)))
  {
    ReachedIsSettled(moves, r);
    hide Reached, InputMessageOk, MI.ValidSnapshot;
  }

  /** The legacy append adds its row in any status, the main-agent append only while the run is running. */
  lemma {:induction false} AppendOutcome(moves: seq<A.Move>, r: Id, kind: EventType)
    ensures var db := Reached(moves); var always, running := AppendAlways(db, r, kind), AppendWhileRunning(db, r, kind);
            && (r !in db.runs ==> always == Outcome(db, Err(RunNotFound)) && running == Outcome(db, Ok(false)))
            && (r in db.runs ==> always.reply == Ok(()) && Recorded(db, always.db, r, db.runs[r], kind, Executor))
            && (r in db.runs ==>
                  if db.runs[r].status == Running
                  then running.reply == Ok(true) && Recorded(db, running.db, r, db.runs[r], kind, Executor)
                  else running == Outcome(db, Ok(false)))
  {
    ReachedIsSettled(moves, r);
    hide Reached, InputMessageOk, MI.ValidSnapshot;
  }

  /** The database with the assistant message of run `r` and its payload. */
  ghost function Answered(db: Db, r: Id, m: Id, content: string, result: Option<string>, delivery: Option<Delivery>): Db
    requires r in db.runs
  {
    db.(messages := db.messages[m := Message(db.runs[r].session, Some(r), MI.Assistant, content, false)],
        results := if result.Some? then db.results[r := result.value] else db.results,
        deliveries := if delivery.Some? then db.deliveries[r := delivery.value] else db.deliveries)
  }

  /**
   A running run whose result is its own, with a fresh message id, succeeds: result, message, status and
   RUN_SUCCEEDED row together. An ended run is left alone, everything else is refused without a change.
   */
  lemma {:induction false} CompleteDiagnosisOutcome(moves: seq<A.Move>, r: Id, resultRun: Id, summary: string, m: Id)
    ensures var db, o := Reached(moves), CompleteDiagnosis(Reached(moves), r, resultRun, summary, m);
            && (r !in db.runs ==> o == Outcome(db, Err(RunNotFound)))
            && (r in db.runs ==>
                  match db.runs[r].status
                  case Queued => o == Outcome(db, Err(RunAlreadyTerminal))
                  case Running =>
                    if resultRun != r then o == Outcome(db, Err(ResultMismatch))
                    else if m in db.messages then o == Outcome(db, Err(IntegrityError))
                    else
                      && o.reply == Ok(())
                      && Recorded(Answered(db, r, m, summary, Some(summary), None), o.db, r,
                                  db.runs[r].(status := Succeeded), RunSucceeded, Service)
                  case _ => o == Outcome(db, Ok(())))
  {
    ReachedIsSettled(moves, r);
    hide Reached, InputMessageOk, MI.ValidSnapshot;
  }

  /**
   A delivery fits the frozen input: a request names exactly the open sides, a comparison is that of the
   two frozen texts, and a grounding names a knowledge capability together with its own skill.
   */
  ghost predicate Fits(d: Delivery, r: Id, s: MI.Snapshot, definitions: Option<map<Capabilities.Key, Definition>>) {
    match d
    case NeedsInput(missing) => (MI.TextA in missing <==> s.textA.None?) && (MI.TextB in missing <==> s.textB.None?)
    case ComparisonDelivery(c) => s.textA.Some? && s.textB.Some? && Compare(r, s.textA.value, s.textB.value) == Ok(c)
    case Answer(_, None) => true
    case Answer(_, Some(g)) =>
      && definitions.Some? && (g.capabilityId, g.capabilityVersion) in definitions.value
      && var definition := definitions.value[(g.capabilityId, g.capabilityVersion)];
      && definition.kind == Knowledge && definition.skill == Some(SkillDeclaration(g.skillId, g.skillVersion))
  }

  lemma {:induction false} AcceptedIffFits(d: Delivery, r: Id, s: MI.Snapshot, definitions: Option<map<Capabilities.Key, Definition>>)
    ensures DeliveryAccepted(d, r, s, definitions) <==> Fits(d, r, s, definitions)
  {
    if d.NeedsInput? { AcceptedNeedsInputNamesOpenSides(d.missing, r, s, definitions); }
    hide Compare;
  }

  /**
   A running main-agent run with a fitting delivery, nothing sensitive in the rendered message and a fresh
   message id succeeds: delivery, message, status and RUN_SUCCEEDED row together. An ended run is left
   alone, everything else is refused without a change.
   */
  lemma {:induction false} CompleteMainOutcome(moves: seq<A.Move>, r: Id, d: Delivery, text: Rendered, m: Id,
                                               definitions: Option<map<Capabilities.Key, Definition>>)
    ensures var db, o := Reached(moves), CompleteMain(Reached(moves), r, d, text, m, definitions);
            && (r !in db.runs ==> o == Outcome(db, Err(RunNotFound)))
            && (r in db.runs && db.runs[r].kind == Diagnosis ==> o == Outcome(db, Err(DeliveryInvalid)))
            && (r in db.runs && db.runs[r].kind == MainAgent ==>
                  match db.runs[r].status
                  case Queued => o == Outcome(db, Err(RunAlreadyTerminal))
                  case Running =>
                    && r in db.inputs
                    && if !Fits(d, r, db.inputs[r], definitions) || text.sensitive then o == Outcome(db, Err(DeliveryInvalid))
                       else if m in db.messages then o == Outcome(db, Err(IntegrityError))
                       else
                         && o.reply == Ok(())
                         && Recorded(Answered(db, r, m, text.content, None, Some(d)), o.db, r,
                                     db.runs[r].(status := Succeeded), RunSucceeded, Service)
                  case _ => o == Outcome(db, Ok(())))
  {
    ReachedIsSettled(moves, r);
    hide Reached, InputMessageOk, MI.ValidSnapshot, DeliveryAccepted, Fits;
    var db := Reached(moves);
    if r in db.inputs { AcceptedIffFits(d, r, db.inputs[r], definitions); }
  }

  /** The database with message, run, input, key and RUN_QUEUED row of a new run. */
  ghost function Inserted(db: Db, n: NewRun): Db {
    db.(messages := db.messages[n.messageId := Message(n.scope.session, None, MI.User, n.content, false)],
        runs := db.runs[n.runId := Run(n.scope.session, n.messageId, n.service, n.kind, Queued, 2, None, n.rerunOf)],
        events := db.events[n.runId := [Event(1, RunQueued, Service)]],
        inputs := if n.snapshot.None? then db.inputs else db.inputs[n.runId := n.snapshot.value],
        keys := db.keys[n.scope := Key(n.fingerprint, n.runId)], order := db.order + [n.runId])
  }

  /** With fresh ids an insert is refused for a taken scope only; else it writes message, run, input, key and RUN_QUEUED row. */
  lemma {:induction false} CommitOutcome(moves: seq<A.Move>, n: NewRun)
    requires n.runId !in Reached(moves).runs && n.messageId !in Reached(moves).messages
    ensures var db, o := Reached(moves), CommitRun(Reached(moves), n);
            if n.scope in db.keys then o == Outcome(db, Err(IntegrityError))
            else o.db == Inserted(db, n) && o.reply == Ok(o.db.runs[n.runId])
  {
    ReachedIsSettled(moves, n.runId);
    hide Reached, MI.ValidSnapshot;
  }
}
