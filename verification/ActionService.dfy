/**
 The transactions of `ActionApplicationService` statement by statement, undone when one raises,
 and the background execution that runs them (backend/src/application/action_services.py).
 */
module ActionService {
  import opened Wrappers
  import opened ControlledAction

  class ActionApplicationService {
    var db: Db

    ghost predicate Valid()
      reads this
    {
      db.events.Keys == db.proposals.Keys
    }

    constructor ()
      ensures Valid() && db == EMPTY
    {
      db := EMPTY;
    }

    // ----- the repositories

    method TransitionProposal(p: Id, expected: ProposalStatus, status: ProposalStatus) returns (updated: bool)
      requires Valid()
      modifies this
      ensures Valid()
      ensures SetProposal(old(db), p, expected, status) == if updated then Some(db) else None
      ensures !updated ==> db == old(db)
    {
      if p !in db.proposals || db.proposals[p].status != expected { return false; }
      db := db.(proposals := db.proposals[p := db.proposals[p].(status := status)]);
      return true;
    }

    method TransitionExecution(e: Id, expected: ExecutionStatus, status: ExecutionStatus) returns (updated: bool)
      requires Valid()
      modifies this
      ensures Valid()
      ensures SetExecution(old(db), e, expected, status) == if updated then Some(db) else None
      ensures !updated ==> db == old(db)
    {
      if e !in db.executions || db.executions[e].status != expected { return false; }
      db := db.(executions := db.executions[e := db.executions[e].(status := status)]);
      return true;
    }

    /** `_append_event_in_transaction`: reserve the sequence, add the row. */
    method AppendEvent(p: Id, kind: EventType) returns (ok: bool)
      requires Valid()
      modifies this
      ensures Valid()
      ensures ok <==> p in old(db).proposals
      ensures db == if ok then AddEvent(old(db), p, kind) else old(db)
    {
      if p !in db.proposals { return false; }
      var sequence := db.proposals[p].nextSequence;
      db := db.(proposals := db.proposals[p := db.proposals[p].(nextSequence := sequence + 1)]);
      db := db.(events := db.events[p := db.events[p] + [Event(sequence, kind)]]);
      return true;
    }

    // ----- requests

    method DecideProposal(p: Id, approve: bool, comment: Option<string>, key: Id, approval: Id, now: real)
      returns (reply: Result<Proposal, Error>)
      requires Valid()
      modifies this
      ensures Valid()
      ensures db == Decide(old(db), p, approve, comment, key, approval, now).db
      ensures reply == Decide(old(db), p, approve, comment, key, approval, now).reply
    {
      var scope, payload := Scope(p, ApprovalEndpoint, key), DecisionPayload(approve, comment);
      if scope in db.keys {
        if db.keys[scope].fingerprint != payload { return Err(KeyReused); }
        if p !in db.proposals { return Err(NotFound); }
        return Ok(db.proposals[p]);
      }
      if p !in db.proposals { return Err(NotFound); }
      if db.proposals[p].status != PendingApproval { return Err(InvalidState); }
      if p in db.approvals { return Err(IntegrityError); }
      RecordDecision(p, approve, comment, key, approval, now);
      assert p in db.proposals && p in AddEvent(db, p, ApprovalRecorded).proposals;
      hide Decided, AddEvent;
      var appended := AppendEvent(p, ApprovalRecorded);
      return Ok(db.proposals[p]);
    }

    /** The status change with its expiry, the approval and the key. */
    method RecordDecision(p: Id, approve: bool, comment: Option<string>, key: Id, approval: Id, now: real)
      requires Valid() && p in db.proposals && db.proposals[p].status == PendingApproval
      modifies this
      ensures Valid()
      ensures db == Decided(old(db), p, approve, comment, key, approval, now)
    {
      var saved := db;
      var proposal := db.proposals[p];
      var updated := TransitionProposal(p, PendingApproval, if approve then Approved else Rejected);
      if !updated { assert false; }
      var expiry := if approve then Some(now + APPROVAL_VALIDITY_SECONDS) else None;
      db := db.(proposals := db.proposals[p := db.proposals[p].(expiresAt := expiry)]);
      ghost var decided := proposal.(status := if approve then Approved else Rejected, expiresAt := expiry);
      assert db.proposals == saved.proposals[p := decided];
      hide SetProposal;
      db := db.(approvals := db.approvals[p := Approval(approve, proposal.digest, now)]);
      db := db.(keys := db.keys[Scope(p, ApprovalEndpoint, key) := Key(DecisionPayload(approve, comment), approval)]);
    }

    method Request(p: Id, key: Id, execution: Id, now: real) returns (reply: Result<Id, Error>)
      requires Valid()
      modifies this
      ensures Valid()
      ensures db == RequestExecution(old(db), p, key, execution, now).db
      ensures reply == RequestExecution(old(db), p, key, execution, now).reply
    {
      var saved := db;
      var scope := Scope(p, ExecutionEndpoint, key);
      if scope in db.keys {
        if db.keys[scope].fingerprint != EmptyPayload { return Err(KeyReused); }
        if db.keys[scope].resource !in db.executions { return Err(InvalidState); }
        return Ok(db.keys[scope].resource);
      }
      if p !in db.proposals { return Err(NotFound); }
      var proposal := db.proposals[p];
      if proposal.status == Approved && proposal.expiresAt.Some? && now >= proposal.expiresAt.value {
        var expired := TransitionProposal(p, Approved, Expired);
        var appended := AppendEvent(p, ActionFailed);
        return Err(ProposalExpired);
      }
      if proposal.status != Approved { return Err(InvalidState); }
      var updated := TransitionProposal(p, Approved, Executing);
      if !updated { assert false; }
      if p in db.executionOf || execution in db.executions { db := saved; return Err(IntegrityError); }
      db := db.(executions := db.executions[execution := Execution(p, Queued, now)], executionOf := db.executionOf[p := execution]);
      db := db.(keys := db.keys[scope := Key(EmptyPayload, execution)]);
      var appended := AppendEvent(p, ExecutionRequested);
      return Ok(execution);
    }

    // ----- the background worker's transactions

    method Claim(p: Id) returns (claimed: Option<Id>)
      requires Valid()
      modifies this
      ensures Valid()
      ensures db == ClaimExecution(old(db), p).db && ClaimExecution(old(db), p).reply == Ok(claimed)
    {
      if p !in db.proposals || p !in db.executionOf || db.proposals[p].status != Executing { return None; }
      var e := db.executionOf[p];
      var updated := TransitionExecution(e, Queued, Running);
      if !updated { return None; }
      var appended := AppendEvent(p, ExecutionStarted);
      return Some(e);
    }

    method RecordExecutionSuccess(p: Id, e: Id) returns (reply: Result<(), Error>)
      requires Valid()
      modifies this
      ensures Valid()
      ensures db == RecordSuccess(old(db), p, e).db && reply == RecordSuccess(old(db), p, e).reply
    {
      var saved := db;
      var updated := TransitionExecution(e, Running, ExecutionSucceeded);
      if !updated { return Err(InvalidState); }
      var appended := AppendEvent(p, PreconditionChecked);
      if !appended { db := saved; return Err(NotFound); }
      appended := AppendEvent(p, ExecutionCompleted);
      return Ok(());
    }

    method BeginVerification(p: Id) returns (reply: Result<(), Error>)
      requires Valid()
      modifies this
      ensures Valid()
      ensures db == StartVerification(old(db), p).db && reply == StartVerification(old(db), p).reply
    {
      if p !in db.proposals { return Err(NotFound); }
      var updated := TransitionProposal(p, Executing, Verifying);
      if !updated { return Err(InvalidState); }
      var appended := AppendEvent(p, VerificationStarted);
      return Ok(());
    }

    method EndVerified(p: Id, e: Id) returns (reply: Result<(), Error>)
      requires Valid()
      modifies this
      ensures Valid()
      ensures db == FinishVerified(old(db), p, e).db && reply == FinishVerified(old(db), p, e).reply
    {
      var saved := db;
      if e in db.verifications { return Err(IntegrityError); }
      db := db.(verifications := db.verifications[e := true]);
      var updated := TransitionProposal(p, Verifying, Verified);
      if !updated { db := saved; return Err(InvalidState); }
      var appended := AppendEvent(p, VerificationCompleted);
      return Ok(());
    }

    method EndUnverified(p: Id, e: Id) returns (reply: Result<(), Error>)
      requires Valid()
      modifies this
      ensures Valid()
      ensures db == FinishVerificationFailed(old(db), p, e).db && reply == FinishVerificationFailed(old(db), p, e).reply
    {
      var saved := db;
      if e in db.verifications { return Err(IntegrityError); }
      db := db.(verifications := db.verifications[e := false]);
      var updated := TransitionProposal(p, Verifying, Failed);
      var appended := AppendEvent(p, ActionFailed);
      if !appended { db := saved; return Err(NotFound); }
      return Ok(());
    }

    method EndExecution(p: Id, e: Id, blocked: bool) returns (reply: Result<(), Error>)
      requires Valid()
      modifies this
      ensures Valid()
      ensures db == FinishExecution(old(db), p, e, blocked).db && reply == FinishExecution(old(db), p, e, blocked).reply
    {
      var saved := db;
      var ended := TransitionExecution(e, Running, if blocked then ExecutionBlocked else ExecutionFailed);
      var failed := TransitionProposal(p, Executing, if blocked then Blocked else Failed);
      var appended := AppendEvent(p, if blocked then ActionBlocked else ActionFailed);
      if !appended { db := saved; return Err(NotFound); }
      return Ok(());
    }

    /** `execute`, with what the executor answers to its two calls; the calls made are counted. */
    method Execute(p: Id, action: Attempt, check: Attempt) returns (calls: (nat, nat))
      requires Valid()
      modifies this
      ensures Valid()
      ensures (db, calls) == Executed(old(db), p, action, check)
    {
      hide FinishVerified, FinishVerificationFailed, FinishExecution, StartVerification, RecordSuccess, ClaimExecution;
      var claimed := Claim(p);
      if claimed.None? { return (0, 0); }
      var e := claimed.value;
      if action != Done {
        var ended := EndExecution(p, e, action == PreconditionBlocked);
        return (1, 0);
      }
      var recorded := RecordExecutionSuccess(p, e);
      if recorded.Err? { return (1, 0); }
      var started := BeginVerification(p);
      if started.Err? { return (1, 0); }
      if check == Done {
        var ended := EndVerified(p, e);
      } else {
        var ended := EndUnverified(p, e);
      }
      return (1, 1);
    }
  }

  /** The database and the numbers of action and check calls after one undisturbed execution. */
  function Executed(db: Db, p: Id, action: Attempt, check: Attempt): (Db, (nat, nat)) {
    var claim := ClaimExecution(db, p);
    if claim.reply.Err? || claim.reply.value.None? then (claim.db, (0, 0))
    else
      var e := claim.reply.value.value;
      if action != Done then (FinishExecution(claim.db, p, e, action == PreconditionBlocked).db, (1, 0))
      else
        var recorded := RecordSuccess(claim.db, p, e);
        if recorded.reply.Err? then (recorded.db, (1, 0))
        else
          var started := StartVerification(recorded.db, p);
          if started.reply.Err? then (started.db, (1, 0))
          else if check == Done then (FinishVerified(started.db, p, e).db, (1, 1))
          else (FinishVerificationFailed(started.db, p, e).db, (1, 1))
  }

  /** The moves one worker makes when nobody interferes. */
  function Shift(x: Id, p: Id, action: Attempt, check: Attempt): seq<Move> {
    [Spawn(x, p), Work(x, Done), Work(x, action), Work(x, Done), Work(x, Done), Work(x, check), Work(x, Done)]
  }

  lemma PlayShift(w: World, moves: seq<Move>)
    requires |moves| == 7
    ensures Play(w, moves) == Go(Go(Go(Go(Go(Go(Go(w, moves[0]), moves[1]), moves[2]), moves[3]), moves[4]), moves[5]), moves[6])
  {
    hide Go;
    var w1 := Go(w, moves[0]);
    var w2 := Go(w1, moves[1]);
    var w3 := Go(w2, moves[2]);
    assert Play(w, moves) == Play(w3, moves[3..]) by {
      assert moves[1..][1..] == moves[2..] && moves[2..][1..] == moves[3..];
      assert Play(w1, moves[1..]) == Play(w2, moves[2..]);
      assert Play(w2, moves[2..]) == Play(w3, moves[3..]);
    }
    var w4 := Go(w3, moves[3]);
    var w5 := Go(w4, moves[4]);
    assert Play(w3, moves[3..]) == Play(w5, moves[5..]) by {
      assert moves[3..][1..] == moves[4..] && moves[4..][1..] == moves[5..];
      assert Play(w4, moves[4..]) == Play(w5, moves[5..]);
    }
    assert moves[5..][1..] == moves[6..] && moves[6..][1..] == [];
    assert Play(Go(w5, moves[5]), moves[6..]) == Go(Go(w5, moves[5]), moves[6]);
  }

  /**
   The sequential execution is one of the interleavings: a fresh worker's moves taken in a row
   leave the same rows and make the same calls.
   */
  lemma ExecuteIsOneInterleaving(w: World, x: Id, p: Id, action: Attempt, check: Attempt)
    requires x !in w.workers
    ensures var next := Play(w, Shift(x, p, action, check)); var (db, calls) := Executed(w.db, p, action, check);
            && next.db == db
            && next.executed == w.executed + (if calls.0 == 1 then [p] else [])
            && next.verified == w.verified + (if calls.1 == 1 then [p] else [])
  {
    PlayShift(w, Shift(x, p, action, check));
    var moves := Shift(x, p, action, check);
    var w1 := Go(w, moves[0]);
    var w2 := Go(w1, moves[1]);
    hide FinishVerified, FinishVerificationFailed, FinishExecution, StartVerification, RecordSuccess, ClaimExecution, Calls, Play;
    var claim := ClaimExecution(w.db, p);
    assert w1 == w.(workers := w.workers[x := Claiming(p)]) && w2.db == claim.db && w2.executed == w.executed && w2.verified == w.verified;
    if claim.reply.Err? || claim.reply.value.None? {
      assert w2.workers[x] == Stopped;
      StoppedStays(w2, x, moves[2..]);
    } else {
      assert w2.workers[x] == CallingExecute(p, claim.reply.value.value);
      hide Go;
      RestOfShift(w2, x, p, claim.reply.value.value, action, check);
    }
  }

  lemma StoppedStays(w: World, x: Id, moves: seq<Move>)
    requires x in w.workers && w.workers[x] == Stopped && forall i | 0 <= i < |moves| :: moves[i].Work? && moves[i].w == x
    ensures forall i | 0 <= i < |moves| :: Go(w, moves[i]) == w
  {
  }

  lemma RestOfShift(w: World, x: Id, p: Id, e: Id, action: Attempt, check: Attempt)
    requires x in w.workers && w.workers[x] == CallingExecute(p, e)
    ensures var next := Go(Go(Go(Go(Go(w, Work(x, action)), Work(x, Done)), Work(x, Done)), Work(x, check)), Work(x, Done));
            var recorded := RecordSuccess(w.db, p, e);
            var started := StartVerification(recorded.db, p);
            && next.executed == w.executed + [p]
            && next.verified == w.verified + (if action == Done && recorded.reply.Ok? && started.reply.Ok? then [p] else [])
            && next.db == (if action != Done then FinishExecution(w.db, p, e, action == PreconditionBlocked).db
                           else if recorded.reply.Err? then recorded.db
                           else if started.reply.Err? then started.db
                           else if check == Done then FinishVerified(started.db, p, e).db
                           else FinishVerificationFailed(started.db, p, e).db)
  {
    hide FinishVerified, FinishVerificationFailed, FinishExecution, StartVerification, RecordSuccess, ClaimExecution;
    var w1 := Go(w, Work(x, action));
    var w2 := Go(w1, Work(x, Done));
    var w3 := Go(w2, Work(x, Done));
    var w4 := Go(w3, Work(x, check));
    if action != Done {
      assert w1.workers[x] == Ending(p, e, action == PreconditionBlocked);
      assert w2.workers[x] == Stopped;
    } else {
      assert w1.workers[x] == Recording(p, e);
      if RecordSuccess(w.db, p, e).reply.Ok? {
        assert w2.workers[x] == Starting(p, e);
        if StartVerification(w2.db, p).reply.Ok? {
          assert w3.workers[x] == CallingVerify(p, e);
        } else {
          assert w3.workers[x] == Stopped;
        }
      } else {
        assert w2.workers[x] == Stopped;
      }
    }
  }
}
