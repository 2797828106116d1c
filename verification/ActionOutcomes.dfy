/**
 What each request and each worker transaction on a controlled action does in every reachable state
 (backend/src/application/action_services.py), told from the rows alone with the whole new database,
 and the repair that goes through.
 */
module ActionOutcomes {
  import opened Wrappers
  import opened ControlledAction
  import S = ActionService

  /** What every reachable proposal's rows can rely on. */
  ghost predicate Settled(db: Db, p: Id) {
    && p in db.proposals && p in db.events
    && var row := db.proposals[p];
    && row.nextSequence == |db.events[p]| + 1
    && (p in db.approvals <==> row.status != PendingApproval)
    && (p in db.executionOf <==> row.status !in {PendingApproval, Approved, Rejected, Expired})
    && (row.status == Approved ==> row.expiresAt.Some?)
    && (p in db.executionOf ==>
          && db.executionOf[p] in db.executions && db.executions[db.executionOf[p]].proposal == p
          && (db.executionOf[p] in db.verifications
              <==> row.status == Verified || (row.status == Failed && db.executions[db.executionOf[p]].status == ExecutionSucceeded)))
  }

  lemma {:induction false} ReachedIsSettled(moves: seq<Move>, p: Id)
    ensures var db := Play(INITIAL, moves).db; db.events.Keys == db.proposals.Keys && (p in db.proposals ==> Settled(db, p))
  {
    Reachable(moves);
    hide Play, CallsOk, RepliesOk, Kinds, Trace;
    assert SliceOk(Play(INITIAL, moves), p);
  }

  /** Keys of the approval endpoint belong to stored proposals. */
  ghost predicate KeysKnown(db: Db) { forall s | s in db.keys && s.endpoint == ApprovalEndpoint :: s.proposal in db.proposals }

  ghost predicate KeepsKeys(db: Db, next: Db) {
    db.proposals.Keys <= next.proposals.Keys && forall s | s in next.keys && s.endpoint == ApprovalEndpoint :: s in db.keys
  }

  lemma {:induction false} EventKeepsKeys(db: Db, p: Id, kind: EventType)
    requires Stored(db, p)
    ensures KeepsKeys(db, AddEvent(db, p, kind))
  {
  }

  lemma {:induction false} SetsKeepKeys(db: Db, p: Id, e: Id, from: ProposalStatus, to: ProposalStatus, was: ExecutionStatus, now: ExecutionStatus)
    ensures KeepsKeys(db, SetProposalUnchecked(db, p, from, to)) && (Stored(db, p) ==> Stored(SetProposalUnchecked(db, p, from, to), p))
    ensures KeepsKeys(db, SetExecutionUnchecked(db, e, was, now)) && (Stored(db, p) ==> Stored(SetExecutionUnchecked(db, e, was, now), p))
  {
  }

  lemma KeepsTwice(a: Db, b: Db, c: Db)
    requires KeepsKeys(a, b) && KeepsKeys(b, c)
    ensures KeepsKeys(a, c)
  {
  }

  lemma {:induction false} EarlyTransactionsKeepKeys(db: Db, p: Id, e: Id)
    ensures KeepsKeys(db, ClaimExecution(db, p).db) && KeepsKeys(db, RecordSuccess(db, p, e).db)
    ensures KeepsKeys(db, StartVerification(db, p).db)
  {
  }

  lemma {:induction false} VerdictsKeepKeys(db: Db, p: Id, e: Id)
    ensures KeepsKeys(db, FinishVerified(db, p, e).db) && KeepsKeys(db, FinishVerificationFailed(db, p, e).db)
  {
    assert KeepsKeys(db, db);
    if Stored(db, p) && e !in db.verifications {
      VerdictKeepsKeys(db, p, e, true, Verified, VerificationCompleted);
      VerdictKeepsKeys(db, p, e, false, Failed, ActionFailed);
    }
    hide KeepsKeys, AddEvent;
  }

  lemma {:induction false} VerdictKeepsKeys(db: Db, p: Id, e: Id, passed: bool, s: ProposalStatus, kind: EventType)
    requires Stored(db, p)
    ensures var written := SetProposalUnchecked(db.(verifications := db.verifications[e := passed]), p, Verifying, s);
            Stored(written, p) && KeepsKeys(db, AddEvent(written, p, kind))
  {
    var judged := db.(verifications := db.verifications[e := passed]);
    assert KeepsKeys(db, judged) && Stored(judged, p);
    hide KeepsKeys, AddEvent, SetProposalUnchecked, SetExecutionUnchecked, Stored;
    SetsKeepKeys(judged, p, e, Verifying, s, Running, Running);
    var written := SetProposalUnchecked(judged, p, Verifying, s);
    EventKeepsKeys(written, p, kind);
    KeepsTwice(db, judged, written);
    KeepsTwice(db, written, AddEvent(written, p, kind));
  }

  lemma {:induction false} EndKeepsKeys(db: Db, p: Id, e: Id, blocked: bool)
    ensures KeepsKeys(db, FinishExecution(db, p, e, blocked).db)
  {
    assert KeepsKeys(db, db);
    hide KeepsKeys, AddEvent, SetProposalUnchecked, SetExecutionUnchecked, Stored;
    if Stored(db, p) {
      var from, to := Executing, if blocked then Blocked else Failed;
      var s := if blocked then ExecutionBlocked else ExecutionFailed;
      SetsKeepKeys(db, p, e, from, to, Running, s);
      var ended := SetExecutionUnchecked(db, e, Running, s);
      SetsKeepKeys(ended, p, e, from, to, Running, s);
      var failed := SetProposalUnchecked(ended, p, from, to);
      EventKeepsKeys(failed, p, if blocked then ActionBlocked else ActionFailed);
      KeepsTwice(db, ended, failed);
      KeepsTwice(db, failed, AddEvent(failed, p, if blocked then ActionBlocked else ActionFailed));
    }
  }

  lemma {:induction false} WorkerKeepsKeys(w: World, x: Id, pc: Pc, attempt: Attempt)
    ensures KeepsKeys(w.db, WorkerStep(w, x, pc, attempt).db)
  {
    if !pc.Stopped? {
      var e := if pc.Claiming? then 0 else pc.e;
      EarlyTransactionsKeepKeys(w.db, pc.p, e);
      VerdictsKeepKeys(w.db, pc.p, e);
      EndKeepsKeys(w.db, pc.p, e, pc.Ending? && pc.blocked);
    }
    assert KeepsKeys(w.db, w.db);
    hide KeepsKeys, ClaimExecution, RecordSuccess, StartVerification, FinishVerified, FinishVerificationFailed, FinishExecution;
  }

  lemma {:induction false} DecideKeepsKeys(db: Db, p: Id, approve: bool, comment: Option<string>, key: Id, approval: Id, now: real)
    requires KeysKnown(db)
    ensures KeysKnown(Decide(db, p, approve, comment, key, approval, now).db)
  {
  }

  lemma {:induction false} RequestKeepsKeys(db: Db, p: Id, key: Id, execution: Id, now: real)
    ensures KeepsKeys(db, RequestExecution(db, p, key, execution, now).db)
  {
  }

  lemma {:induction false} StillKnown(db: Db, next: Db)
    requires KeysKnown(db) && KeepsKeys(db, next)
    ensures KeysKnown(next)
  {
  }

  lemma {:induction false} GoKeepsKeys(w: World, move: Move)
    requires KeysKnown(w.db)
    ensures KeysKnown(Go(w, move).db)
  {
    hide KeysKnown, KeepsKeys, WorkerStep, Decide, RequestExecution, Create;
    match move {
      case CreateProposal(p, digest) => CreateKeepsKeys(w.db, p, digest);
      case DecideOn(p, approve, comment, key, approval, now) => DecideKeepsKeys(w.db, p, approve, comment, key, approval, now);
      case Request(p, key, execution, now) =>
        RequestKeepsKeys(w.db, p, key, execution, now);
        StillKnown(w.db, RequestExecution(w.db, p, key, execution, now).db);
      case Work(x, attempt) =>
        if x in w.workers {
          WorkerKeepsKeys(w, x, w.workers[x], attempt);
          StillKnown(w.db, WorkerStep(w, x, w.workers[x], attempt).db);
        }
      case _ =>
    }
  }

  lemma {:induction false} CreateKeepsKeys(db: Db, p: Id, digest: string)
    requires KeysKnown(db)
    ensures KeysKnown(Create(db, p, digest))
  {
  }

  lemma {:induction false} PlayKeepsKeys(w: World, moves: seq<Move>)
    requires KeysKnown(w.db)
    ensures KeysKnown(Play(w, moves).db)
    decreases |moves|
  {
    hide KeysKnown;
    if moves != [] {
      GoKeepsKeys(w, moves[0]);
      PlayKeepsKeys(Go(w, moves[0]), moves[1..]);
    }
  }

  /** One more event in the log of `p`, under the next number, and `row` in its place; all other rows are as they were. */
  ghost predicate Recorded(db: Db, next: Db, p: Id, row: Proposal, kind: EventType) {
    && p in db.events
    && next == db.(proposals := db.proposals[p := row.(nextSequence := |db.events[p]| + 2)],
                   events := db.events[p := db.events[p] + [Event(|db.events[p]| + 1, kind)]])
  }

  /** A proposal is stored once, pending and with its first event. */
  lemma {:induction false} CreateOutcome(moves: seq<Move>, p: Id, digest: string)
    ensures var db := Play(INITIAL, moves).db;
            Create(db, p, digest)
            == if p in db.proposals then db
               else db.(proposals := db.proposals[p := Proposal(digest, PendingApproval, 2, None)],
                        events := db.events[p := [Event(1, ProposalCreated)]])
  {
    ReachedIsSettled(moves, p);
    hide Play;
  }

  /**
   A used key replays the proposal for the same payload and conflicts for another. Under an unused key a
   decision is refused exactly when the proposal is unknown or not pending; else the row becomes approved
   for the next 900 seconds, or rejected, with approval, key and one event.
   */
  lemma {:induction false} DecideOutcome(moves: seq<Move>, p: Id, approve: bool, comment: Option<string>, key: Id, approval: Id, now: real)
    ensures var db := Play(INITIAL, moves).db;
            var o := Decide(db, p, approve, comment, key, approval, now);
            var scope := Scope(p, ApprovalEndpoint, key);
            if scope in db.keys then
              && p in db.proposals
              && o == Outcome(db, if db.keys[scope].fingerprint == DecisionPayload(approve, comment) then Ok(db.proposals[p]) else Err(KeyReused))
            else if p !in db.proposals then o == Outcome(db, Err(NotFound))
            else if db.proposals[p].status != PendingApproval then o == Outcome(db, Err(InvalidState))
            else
              var row := db.proposals[p];
              && p in o.db.proposals && o.reply == Ok(o.db.proposals[p])
              && Recorded(db.(approvals := db.approvals[p := Approval(approve, row.digest, now)],
                              keys := db.keys[scope := Key(DecisionPayload(approve, comment), approval)]),
                          o.db, p,
                          if approve then row.(status := Approved, expiresAt := Some(now + 900.0))
                          else row.(status := Rejected, expiresAt := None),
                          ApprovalRecorded)
  {
    ReachedIsSettled(moves, p);
    PlayKeepsKeys(INITIAL, moves);
    var db := Play(INITIAL, moves).db;
    var scope := Scope(p, ApprovalEndpoint, key);
    assert scope in db.keys ==> p in db.proposals;
    hide Play, KeysKnown;
    if p in db.proposals && scope !in db.keys && db.proposals[p].status == PendingApproval {
      DecisionIsRecorded(db, p, approve, comment, key, approval, now);
    }
    hide Recorded, Decided, AddEvent;
  }

  lemma {:induction false} DecisionIsRecorded(db: Db, p: Id, approve: bool, comment: Option<string>, key: Id, approval: Id, now: real)
    requires Settled(db, p) && db.proposals[p].status == PendingApproval && Scope(p, ApprovalEndpoint, key) !in db.keys
    ensures var o := Decide(db, p, approve, comment, key, approval, now);
            var row := db.proposals[p];
            && p in o.db.proposals && o.reply == Ok(o.db.proposals[p])
            && Recorded(db.(approvals := db.approvals[p := Approval(approve, row.digest, now)],
                            keys := db.keys[Scope(p, ApprovalEndpoint, key) := Key(DecisionPayload(approve, comment), approval)]),
                        o.db, p,
                        if approve then row.(status := Approved, expiresAt := Some(now + 900.0))
                        else row.(status := Rejected, expiresAt := None),
                        ApprovalRecorded)
  {
  }

  /**
   A used key answers with the proposal's execution. Under an unused key an execution is granted exactly
   for an approved proposal before its expiry (with a fresh execution id); from the expiry on the proposal
   is stored as expired, and every other status is refused without a change.
   */
  lemma {:induction false} RequestOutcome(moves: seq<Move>, p: Id, key: Id, execution: Id, now: real)
    ensures var db := Play(INITIAL, moves).db;
            var o := RequestExecution(db, p, key, execution, now);
            var scope := Scope(p, ExecutionEndpoint, key);
            if scope in db.keys then p in db.executionOf && o == Outcome(db, Ok(db.executionOf[p]))
            else if p !in db.proposals then o == Outcome(db, Err(NotFound))
            else if db.proposals[p].status != Approved then o == Outcome(db, Err(InvalidState))
            else
              && db.proposals[p].expiresAt.Some?
              && if db.proposals[p].expiresAt.value <= now
                 then o.reply == Err(ProposalExpired) && Recorded(db, o.db, p, db.proposals[p].(status := Expired), ActionFailed)
                 else if execution in db.executions then o == Outcome(db, Err(IntegrityError))
                 else
                   && o.reply == Ok(execution)
                   && Recorded(db.(executions := db.executions[execution := Execution(p, Queued, now)],
                                   executionOf := db.executionOf[p := execution], keys := db.keys[scope := Key(EmptyPayload, execution)]),
                               o.db, p, db.proposals[p].(status := Executing), ExecutionRequested)
  {
    Reachable(moves);
    ReachedIsSettled(moves, p);
    hide Play, SliceOk, WorkerOk, RepliesOk;
  }

  /** The re-read after a refused commit answers with the proposal's execution exactly for a used key. */
  lemma {:induction false} RereadOutcome(moves: seq<Move>, p: Id, key: Id)
    ensures var db := Play(INITIAL, moves).db;
            if Scope(p, ExecutionEndpoint, key) in db.keys
            then p in db.executionOf && ReplayExecution(db, p, key) == Ok(db.executionOf[p])
            else ReplayExecution(db, p, key) == Err(IntegrityError)
  {
    Reachable(moves);
    hide Play, SliceOk, WorkerOk, RepliesOk;
  }

  /** An execution is claimed exactly when its proposal is executing and it is still queued. */
  lemma {:induction false} ClaimOutcome(moves: seq<Move>, p: Id)
    ensures var db, o := Play(INITIAL, moves).db, ClaimExecution(Play(INITIAL, moves).db, p);
            if p in db.executionOf && p in db.proposals && db.executionOf[p] in db.executions
               && db.proposals[p].status == Executing && db.executions[db.executionOf[p]].status == Queued
            then
              var e := db.executionOf[p];
              && o.reply == Ok(Some(e))
              && Recorded(db.(executions := db.executions[e := db.executions[e].(status := Running)]), o.db, p, db.proposals[p], ExecutionStarted)
            else o == Outcome(db, Ok(None))
  {
    ReachedIsSettled(moves, p);
    hide Play;
  }

  // ----- a worker's transactions

  /** The database with the status of one execution set. */
  ghost function Ended(db: Db, e: Id, status: ExecutionStatus): Db
    requires e in db.executions
  {
    db.(executions := db.executions[e := db.executions[e].(status := status)])
  }

  /** Two events, as an execution that succeeded leaves them. */
  ghost predicate RecordedTwo(db: Db, next: Db, p: Id, kind: EventType, then_: EventType) {
    && p in db.proposals && p in db.events
    && next == db.(proposals := db.proposals[p := db.proposals[p].(nextSequence := |db.events[p]| + 3)],
                   events := db.events[p := db.events[p] + [Event(|db.events[p]| + 1, kind), Event(|db.events[p]| + 2, then_)]])
  }

  /** What one worker's step does to the database, and where the worker stands next. */
  ghost predicate Worked(db: Db, next: Db, pc: Pc, then_: Pc)
    requires Active(pc) ==> pc.p in db.proposals && pc.e in db.executions
  {
    match pc
    case CallingExecute(_, _) => next == db
    case CallingVerify(_, _) => next == db
    case Recording(p, e) =>
      RecordedTwo(Ended(db, e, ExecutionSucceeded), next, p, PreconditionChecked, ExecutionCompleted) && then_ == Starting(p, e)
    case Starting(p, e) =>
      Recorded(db, next, p, db.proposals[p].(status := Verifying), VerificationStarted) && then_ == CallingVerify(p, e)
    case EndingVerified(p, e) =>
      && Recorded(db.(verifications := db.verifications[e := true]), next, p, db.proposals[p].(status := Verified), VerificationCompleted)
      && then_ == Stopped
    case EndingUnverified(p, e) =>
      && Recorded(db.(verifications := db.verifications[e := false]), next, p, db.proposals[p].(status := Failed), ActionFailed)
      && then_ == Stopped
    case Ending(p, e, true) =>
      Recorded(Ended(db, e, ExecutionBlocked), next, p, db.proposals[p].(status := Blocked), ActionBlocked) && then_ == Stopped
    case Ending(p, e, false) =>
      Recorded(Ended(db, e, ExecutionFailed), next, p, db.proposals[p].(status := Failed), ActionFailed) && then_ == Stopped
    case _ => true
  }

  lemma {:induction false} AtWork(moves: seq<Move>, x: Id)
    requires x in Play(INITIAL, moves).workers && Active(Play(INITIAL, moves).workers[x])
    ensures var w := Play(INITIAL, moves); var pc := w.workers[x];
            && pc.p in w.db.proposals && pc.p in w.db.events && pc.p in w.db.executionOf && w.db.executionOf[pc.p] == pc.e
            && pc.e in w.db.executions && w.db.proposals[pc.p].nextSequence == |w.db.events[pc.p]| + 1
            && var s, e := w.db.proposals[pc.p].status, w.db.executions[pc.e].status;
               match pc
               case CallingExecute(_, _) => s == Executing && e == Running
               case Recording(_, _) => s == Executing && e == Running
               case Ending(_, _, _) => s == Executing && e == Running
               case Starting(_, _) => s == Executing && e == ExecutionSucceeded
               case _ => s == Verifying && pc.e !in w.db.verifications
  {
    Reachable(moves);
    WorkerIsLinked(Play(INITIAL, moves), x);
    ReachedIsSettled(moves, Play(INITIAL, moves).workers[x].p);
    hide Play, Tables, SliceOk, RepliesOk, Calls;
  }

  /** No step of a worker past its claim is ever refused; each changes its own rows as told and the worker goes on. */
  lemma {:induction false} WorkOutcome(moves: seq<Move>, x: Id, attempt: Attempt)
    requires x in Play(INITIAL, moves).workers && Active(Play(INITIAL, moves).workers[x])
    ensures var w := Play(INITIAL, moves); var pc, next := w.workers[x], Go(w, Work(x, attempt));
            && pc.p in w.db.proposals && pc.e in w.db.executions && x in next.workers
            && Worked(w.db, next.db, pc, next.workers[x])
            && (pc.CallingExecute? ==>
                  next.workers[x] == match attempt case Done => Recording(pc.p, pc.e) case PreconditionBlocked => Ending(pc.p, pc.e, true)
                                                   case Broken => Ending(pc.p, pc.e, false))
            && (pc.CallingVerify? ==>
                  next.workers[x] == if attempt == Done then EndingVerified(pc.p, pc.e) else EndingUnverified(pc.p, pc.e))
  {
    AtWork(moves, x);
    var w := Play(INITIAL, moves);
    var pc := w.workers[x];
    match pc {
      case Recording(p, e) => RecordIs(w.db, p, e);
      case Starting(p, e) => StartIs(w.db, p);
      case EndingVerified(p, e) => VerdictIs(w.db, p, e);
      case EndingUnverified(p, e) => VerdictIs(w.db, p, e);
      case Ending(p, e, blocked) => EndIs(w.db, p, e, blocked);
      case _ =>
    }
    hide Play, Recorded, RecordedTwo, RecordSuccess, StartVerification, FinishVerified, FinishVerificationFailed, FinishExecution;
  }

  /** The row of a proposal whose log is numbered up to its next sequence. */
  ghost predicate InStep(db: Db, p: Id, s: ProposalStatus) {
    && p in db.proposals && p in db.events && db.proposals[p].status == s && db.proposals[p].nextSequence == |db.events[p]| + 1
  }

  lemma {:induction false} RecordIs(db: Db, p: Id, e: Id)
    requires InStep(db, p, Executing) && e in db.executions && db.executions[e].status == Running
    ensures RecordSuccess(db, p, e).reply.Ok?
    ensures RecordedTwo(Ended(db, e, ExecutionSucceeded), RecordSuccess(db, p, e).db, p, PreconditionChecked, ExecutionCompleted)
  {
    var es, n := db.events[p], |db.events[p]|;
    assert es + [Event(n + 1, PreconditionChecked)] + [Event(n + 2, ExecutionCompleted)]
        == es + [Event(n + 1, PreconditionChecked), Event(n + 2, ExecutionCompleted)];
  }

  lemma {:induction false} StartIs(db: Db, p: Id)
    requires InStep(db, p, Executing)
    ensures StartVerification(db, p).reply.Ok?
    ensures Recorded(db, StartVerification(db, p).db, p, db.proposals[p].(status := Verifying), VerificationStarted)
  {
  }

  lemma {:induction false} VerdictIs(db: Db, p: Id, e: Id)
    requires InStep(db, p, Verifying) && e !in db.verifications
    ensures FinishVerified(db, p, e).reply.Ok? && FinishVerificationFailed(db, p, e).reply.Ok?
    ensures Recorded(db.(verifications := db.verifications[e := true]), FinishVerified(db, p, e).db, p,
                     db.proposals[p].(status := Verified), VerificationCompleted)
    ensures Recorded(db.(verifications := db.verifications[e := false]), FinishVerificationFailed(db, p, e).db, p,
                     db.proposals[p].(status := Failed), ActionFailed)
  {
  }

  lemma {:induction false} EndIs(db: Db, p: Id, e: Id, blocked: bool)
    requires InStep(db, p, Executing) && e in db.executions && db.executions[e].status == Running
    ensures FinishExecution(db, p, e, blocked).reply.Ok?
    ensures Recorded(Ended(db, e, if blocked then ExecutionBlocked else ExecutionFailed), FinishExecution(db, p, e, blocked).db, p,
                     db.proposals[p].(status := if blocked then Blocked else Failed), if blocked then ActionBlocked else ActionFailed)
  {
  }

  // ----- the repair that goes through

  lemma {:induction false} PlayOneMore(w: World, moves: seq<Move>, move: Move)
    ensures Play(w, moves + [move]) == Go(Play(w, moves), move)
    decreases |moves|
  {
    hide Go;
    if moves == [] {
      assert (moves + [move])[0] == move && (moves + [move])[1..] == [];
    } else {
      assert (moves + [move])[0] == moves[0] && (moves + [move])[1..] == moves[1..] + [move];
      PlayOneMore(Go(w, moves[0]), moves[1..], move);
    }
  }

  /** How an execution with these two answers of the executor ends. */
  function EndOf(action: Attempt, check: Attempt): ProposalStatus {
    match action
    case PreconditionBlocked => Blocked
    case Broken => Failed
    case Done => if check == Done then Verified else Failed
  }

  /** A proposal with this status and these events. */
  ghost predicate Shows(db: Db, p: Id, s: ProposalStatus, kinds: seq<EventType>) {
    InStep(db, p, s) && Kinds(db.events[p]) == kinds
  }

  lemma {:induction false} RecordedShows(db: Db, next: Db, p: Id, row: Proposal, kind: EventType, kinds: seq<EventType>)
    requires Recorded(db, next, p, row, kind) && Kinds(db.events[p]) == kinds
    ensures Shows(next, p, row.status, kinds + [kind])
  {
    KindsAppend(db.events[p], Event(|db.events[p]| + 1, kind));
    hide Kinds;
  }

  /** A proposal as a granted request leaves it. */
  ghost predicate Requested(db: Db, p: Id, e: Id) {
    && p in db.executionOf && db.executionOf[p] == e && e in db.executions
    && db.executions[e].status == Queued && e !in db.verifications
    && Shows(db, p, Executing, [ProposalCreated, ApprovalRecorded, ExecutionRequested])
  }

  lemma {:induction false} RequestedIsClaimed(db: Db, p: Id, e: Id)
    requires Requested(db, p, e)
    ensures var o := ClaimExecution(db, p);
            && o.reply == Ok(Some(e)) && e in o.db.executions && o.db.executions[e].status == Running && e !in o.db.verifications
            && Shows(o.db, p, Executing, [ProposalCreated, ApprovalRecorded, ExecutionRequested, ExecutionStarted])
  {
    KindsAppend(db.events[p], Event(|db.events[p]| + 1, ExecutionStarted));
    hide Kinds;
    var kinds := [ProposalCreated, ApprovalRecorded, ExecutionRequested];
    assert kinds + [ExecutionStarted] == [ProposalCreated, ApprovalRecorded, ExecutionRequested, ExecutionStarted];
  }

  lemma {:induction false} ClaimedIsVerifying(db: Db, p: Id, e: Id)
    requires Shows(db, p, Executing, [ProposalCreated, ApprovalRecorded, ExecutionRequested, ExecutionStarted])
    requires e in db.executions && db.executions[e].status == Running && e !in db.verifications
    ensures var recorded := RecordSuccess(db, p, e); var started := StartVerification(recorded.db, p);
            && recorded.reply.Ok? && started.reply.Ok? && e !in started.db.verifications
            && Shows(started.db, p, Verifying, [ProposalCreated, ApprovalRecorded, ExecutionRequested, ExecutionStarted,
                                                PreconditionChecked, ExecutionCompleted, VerificationStarted])
  {
    RecordIs(db, p, e);
    var recorded := RecordSuccess(db, p, e).db;
    KindsTwo(db.events[p], Event(|db.events[p]| + 1, PreconditionChecked), Event(|db.events[p]| + 2, ExecutionCompleted));
    assert db.events[p] + [Event(|db.events[p]| + 1, PreconditionChecked), Event(|db.events[p]| + 2, ExecutionCompleted)]
        == db.events[p] + [Event(|db.events[p]| + 1, PreconditionChecked)] + [Event(|db.events[p]| + 2, ExecutionCompleted)];
    hide Kinds, RecordSuccess, StartVerification;
    var kinds := [ProposalCreated, ApprovalRecorded, ExecutionRequested, ExecutionStarted, PreconditionChecked, ExecutionCompleted];
    assert Shows(recorded, p, Executing, kinds);
    StartIs(recorded, p);
    RecordedShows(recorded, StartVerification(recorded, p).db, p, recorded.proposals[p].(status := Verifying), VerificationStarted, kinds);
    assert kinds + [VerificationStarted] == [ProposalCreated, ApprovalRecorded, ExecutionRequested, ExecutionStarted,
                                             PreconditionChecked, ExecutionCompleted, VerificationStarted];
  }

  /** The events an execution with these two answers leaves. */
  function EventsOf(action: Attempt, check: Attempt): seq<EventType> {
    [ProposalCreated, ApprovalRecorded, ExecutionRequested, ExecutionStarted]
    + match action
      case PreconditionBlocked => [ActionBlocked]
      case Broken => [ActionFailed]
      case Done => [PreconditionChecked, ExecutionCompleted, VerificationStarted, if check == Done then VerificationCompleted else ActionFailed]
  }

  lemma {:induction false} VerifyingIsJudged(db: Db, p: Id, e: Id, check: Attempt)
    requires e !in db.verifications
    requires Shows(db, p, Verifying, [ProposalCreated, ApprovalRecorded, ExecutionRequested, ExecutionStarted,
                                      PreconditionChecked, ExecutionCompleted, VerificationStarted])
    ensures var next := if check == Done then FinishVerified(db, p, e).db else FinishVerificationFailed(db, p, e).db;
            Shows(next, p, EndOf(Done, check), EventsOf(Done, check))
  {
    VerdictIs(db, p, e);
    var seven := [ProposalCreated, ApprovalRecorded, ExecutionRequested, ExecutionStarted,
                  PreconditionChecked, ExecutionCompleted, VerificationStarted];
    hide Kinds, FinishVerified, FinishVerificationFailed, Recorded, EventsOf;
    if check == Done {
      RecordedShows(db.(verifications := db.verifications[e := true]), FinishVerified(db, p, e).db, p,
                    db.proposals[p].(status := Verified), VerificationCompleted, seven);
    } else {
      RecordedShows(db.(verifications := db.verifications[e := false]), FinishVerificationFailed(db, p, e).db, p,
                    db.proposals[p].(status := Failed), ActionFailed, seven);
    }
    SevenAndOne(check);
  }

  lemma SevenAndOne(check: Attempt)
    ensures [ProposalCreated, ApprovalRecorded, ExecutionRequested, ExecutionStarted, PreconditionChecked, ExecutionCompleted,
             VerificationStarted] + [if check == Done then VerificationCompleted else ActionFailed] == EventsOf(Done, check)
  {
  }

  lemma {:induction false} ClaimedIsEnded(db: Db, p: Id, e: Id, action: Attempt, check: Attempt)
    requires Shows(db, p, Executing, [ProposalCreated, ApprovalRecorded, ExecutionRequested, ExecutionStarted])
    requires e in db.executions && db.executions[e].status == Running && action != Done
    ensures Shows(FinishExecution(db, p, e, action == PreconditionBlocked).db, p, EndOf(action, check), EventsOf(action, check))
  {
    var blocked := action == PreconditionBlocked;
    EndIs(db, p, e, blocked);
    hide Kinds, FinishExecution, Recorded;
    RecordedShows(Ended(db, e, if blocked then ExecutionBlocked else ExecutionFailed), FinishExecution(db, p, e, blocked).db, p,
                  db.proposals[p].(status := if blocked then Blocked else Failed), if blocked then ActionBlocked else ActionFailed,
                  [ProposalCreated, ApprovalRecorded, ExecutionRequested, ExecutionStarted]);
  }

  lemma {:induction false} RequestedIsExecuted(db: Db, p: Id, e: Id, action: Attempt, check: Attempt)
    requires Requested(db, p, e)
    ensures var (next, calls) := S.Executed(db, p, action, check);
            Shows(next, p, EndOf(action, check), EventsOf(action, check)) && calls == (1, if action == Done then 1 else 0)
  {
    hide Kinds, Shows, EventsOf, EndOf, ClaimExecution, RecordSuccess, StartVerification, FinishVerified, FinishVerificationFailed, FinishExecution, Requested;
    RequestedIsClaimed(db, p, e);
    var claimed := ClaimExecution(db, p).db;
    if action == Done {
      ClaimedIsVerifying(claimed, p, e);
      VerifyingIsJudged(StartVerification(RecordSuccess(claimed, p, e).db, p).db, p, e, check);
    } else {
      ClaimedIsEnded(claimed, p, e, action, check);
    }
  }

  lemma {:induction false} NewIsCreated(moves: seq<Move>, p: Id, digest: string, key: Id, key2: Id)
    requires p !in Play(INITIAL, moves).db.proposals
    ensures var was, db := Play(INITIAL, moves).db, Play(INITIAL, moves + [CreateProposal(p, digest)]).db;
            && Shows(db, p, PendingApproval, [ProposalCreated])
            && Scope(p, ApprovalEndpoint, key) !in db.keys && Scope(p, ExecutionEndpoint, key2) !in db.keys
            && db.executions == was.executions && db.verifications == was.verifications && db.verifications.Keys <= db.executions.Keys
  {
    PlayOneMore(INITIAL, moves, CreateProposal(p, digest));
    CreateOutcome(moves, p, digest);
    NoKeysYet(moves, p, key, key2);
    hide Play, Create;
    assert Kinds([Event(1, ProposalCreated)]) == [ProposalCreated];
  }

  lemma {:induction false} PendingIsApproved(moves: seq<Move>, p: Id, comment: Option<string>, key: Id, approval: Id, now: real, key2: Id)
    requires var db := Play(INITIAL, moves).db;
             && Shows(db, p, PendingApproval, [ProposalCreated])
             && Scope(p, ApprovalEndpoint, key) !in db.keys && Scope(p, ExecutionEndpoint, key2) !in db.keys
    ensures var was, db := Play(INITIAL, moves).db, Play(INITIAL, moves + [DecideOn(p, true, comment, key, approval, now)]).db;
            && Shows(db, p, Approved, [ProposalCreated, ApprovalRecorded]) && db.proposals[p].expiresAt == Some(now + 900.0)
            && Scope(p, ExecutionEndpoint, key2) !in db.keys
            && db.executions == was.executions && db.verifications == was.verifications
  {
    PlayOneMore(INITIAL, moves, DecideOn(p, true, comment, key, approval, now));
    DecideOutcome(moves, p, true, comment, key, approval, now);
    hide Play, Decide, Kinds;
    var was, db := Play(INITIAL, moves).db, Play(INITIAL, moves + [DecideOn(p, true, comment, key, approval, now)]).db;
    KindsAppend(was.events[p], Event(2, ApprovalRecorded));
    KindsLength(was.events[p]);
    assert [ProposalCreated] + [ApprovalRecorded] == [ProposalCreated, ApprovalRecorded];
  }

  lemma KindsLength(es: seq<Event>)
    ensures |Kinds(es)| == |es|
  {
  }

  lemma {:induction false} ApprovedIsRequested(moves: seq<Move>, p: Id, key: Id, e: Id, now: real)
    requires var db := Play(INITIAL, moves).db;
             && Shows(db, p, Approved, [ProposalCreated, ApprovalRecorded])
             && db.proposals[p].expiresAt.Some? && now < db.proposals[p].expiresAt.value
             && Scope(p, ExecutionEndpoint, key) !in db.keys && e !in db.executions && e !in db.verifications
    ensures Requested(Play(INITIAL, moves + [Request(p, key, e, now)]).db, p, e)
  {
    PlayOneMore(INITIAL, moves, Request(p, key, e, now));
    RequestOutcome(moves, p, key, e, now);
    hide Play, RequestExecution, Kinds;
    var was := Play(INITIAL, moves).db;
    KindsAppend(was.events[p], Event(3, ExecutionRequested));
    KindsLength(was.events[p]);
    assert [ProposalCreated, ApprovalRecorded] + [ExecutionRequested] == [ProposalCreated, ApprovalRecorded, ExecutionRequested];
  }

  /**
   From any reachable state a new proposal that is approved, requested within 900 seconds of the approval and
   executed undisturbed ends as its executor's answers say; when both succeed it is verified with the eight
   events of a complete repair.
   */
  lemma {:induction false} RepairGoesThrough(moves: seq<Move>, p: Id, digest: string, comment: Option<string>, key: Id, approval: Id,
                                             key2: Id, e: Id, approvedAt: real, requestedAt: real, action: Attempt, check: Attempt)
    requires p !in Play(INITIAL, moves).db.proposals && e !in Play(INITIAL, moves).db.executions
    requires requestedAt < approvedAt + 900.0
    ensures var db := Play(INITIAL, moves + [CreateProposal(p, digest)] + [DecideOn(p, true, comment, key, approval, approvedAt)]
                                    + [Request(p, key2, e, requestedAt)]).db;
            var (next, calls) := S.Executed(db, p, action, check);
            && p in next.proposals && p in next.events && next.proposals[p].status == EndOf(action, check)
            && Kinds(next.events[p]) == EventsOf(action, check) && calls == (1, if action == Done then 1 else 0)
            && (action == Done && check == Done ==> Kinds(next.events[p]) == FULL_TRACE)
  {
    hide Play, S.Executed, Kinds, Requested;
    var created := moves + [CreateProposal(p, digest)];
    NewIsCreated(moves, p, digest, key, key2);
    var decided := created + [DecideOn(p, true, comment, key, approval, approvedAt)];
    PendingIsApproved(created, p, comment, key, approval, approvedAt, key2);
    ApprovedIsRequested(decided, p, key2, e, requestedAt);
    var requested := decided + [Request(p, key2, e, requestedAt)];
    RequestedIsExecuted(Play(INITIAL, requested).db, p, e, action, check);
    assert EventsOf(Done, Done) == FULL_TRACE;
  }

  lemma {:induction false} NoKeysYet(moves: seq<Move>, p: Id, key: Id, key2: Id)
    requires p !in Play(INITIAL, moves).db.proposals
    ensures var db := Play(INITIAL, moves).db;
            && Scope(p, ApprovalEndpoint, key) !in db.keys && Scope(p, ExecutionEndpoint, key2) !in db.keys
            && db.verifications.Keys <= db.executions.Keys
  {
    Reachable(moves);
    PlayKeepsKeys(INITIAL, moves);
    hide Play, SliceOk, WorkerOk, RepliesOk;
  }
}
