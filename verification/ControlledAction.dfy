/**
 The controlled-action automaton (backend/src/application/action_services.py): proposal,
 execution and verification rows and one event log, changed by separate transactions between
 which a worker may die. An executor is present.
 */
module ControlledAction {
  import opened Wrappers

  type Id = nat

  const APPROVAL_VALIDITY_SECONDS := 900.0

  datatype ProposalStatus =
    | PendingApproval | Approved | Rejected | Expired | Executing | Verifying | Verified | Blocked | Failed

  datatype ExecutionStatus = Queued | Running | ExecutionSucceeded | ExecutionBlocked | ExecutionFailed

  datatype EventType =
    | ProposalCreated | ApprovalRecorded | ExecutionRequested | ExecutionStarted | PreconditionChecked
    | ExecutionCompleted | VerificationStarted | VerificationCompleted | ActionBlocked | ActionFailed

  datatype Event = Event(sequence: nat, kind: EventType)

  datatype Proposal = Proposal(digest: string, status: ProposalStatus, nextSequence: nat, expiresAt: Option<real>)

  datatype Approval = Approval(approve: bool, digest: string, at: real)

  datatype Execution = Execution(proposal: Id, status: ExecutionStatus, createdAt: real)

  datatype Endpoint = ApprovalEndpoint | ExecutionEndpoint

  datatype Scope = Scope(proposal: Id, endpoint: Endpoint, key: Id)

  /** What the two fingerprints hash. */
  datatype Fingerprint = DecisionPayload(approve: bool, comment: Option<string>) | EmptyPayload

  datatype Key = Key(fingerprint: Fingerprint, resource: Id)

  /** `executionOf` is the unique index from proposal to execution; a verification row is true when it passed. */
  datatype Db = Db(
    proposals: map<Id, Proposal>, approvals: map<Id, Approval>, executions: map<Id, Execution>, executionOf: map<Id, Id>,
    verifications: map<Id, bool>, keys: map<Scope, Key>, events: map<Id, seq<Event>>)

  const EMPTY := Db(map[], map[], map[], map[], map[], map[], map[])

  datatype Error = NotFound | InvalidState | KeyReused | ProposalExpired | IntegrityError

  datatype Outcome<+T> = Outcome(db: Db, reply: Result<T, Error>)

  // ----- repository primitives

  function SetProposal(db: Db, p: Id, expected: ProposalStatus, status: ProposalStatus): Option<Db> {
    if p in db.proposals && db.proposals[p].status == expected
    then Some(db.(proposals := db.proposals[p := db.proposals[p].(status := status)])) else None
  }

  function SetExecution(db: Db, e: Id, expected: ExecutionStatus, status: ExecutionStatus): Option<Db> {
    if e in db.executions && db.executions[e].status == expected
    then Some(db.(executions := db.executions[e := db.executions[e].(status := status)])) else None
  }

  function AddEvent(db: Db, p: Id, kind: EventType): Db
    requires p in db.proposals && p in db.events
  {
    var proposal := db.proposals[p];
    db.(proposals := db.proposals[p := proposal.(nextSequence := proposal.nextSequence + 1)],
        events := db.events[p := db.events[p] + [Event(proposal.nextSequence, kind)]])
  }

  predicate Stored(db: Db, p: Id) { p in db.proposals && p in db.events }

  // ----- transactions

  /** The insert of `maybe_create_proposal_in_transaction`. */
  function Create(db: Db, p: Id, digest: string): Db {
    if p in db.proposals || p in db.events then db
    else
      db.(proposals := db.proposals[p := Proposal(digest, PendingApproval, 2, None)],
          events := db.events[p := [Event(1, ProposalCreated)]])
  }

  /** The reply is the proposal as the operator sees it. */
  function Decide(db: Db, p: Id, approve: bool, comment: Option<string>, key: Id, approval: Id, now: real): Outcome<Proposal> {
    var scope, payload := Scope(p, ApprovalEndpoint, key), DecisionPayload(approve, comment);
    if scope in db.keys then
      if db.keys[scope].fingerprint != payload then Outcome(db, Err(KeyReused))
      else if !Stored(db, p) then Outcome(db, Err(NotFound))
      else Outcome(db, Ok(db.proposals[p]))
    else if !Stored(db, p) then Outcome(db, Err(NotFound))
    else if db.proposals[p].status != PendingApproval then Outcome(db, Err(InvalidState))
    else if p in db.approvals then Outcome(db, Err(IntegrityError))
    else
      var next := AddEvent(Decided(db, p, approve, comment, key, approval, now), p, ApprovalRecorded);
      Outcome(next, Ok(next.proposals[p]))
  }

  /** The rows a decision writes before its event. */
  function Decided(db: Db, p: Id, approve: bool, comment: Option<string>, key: Id, approval: Id, now: real): Db
    requires p in db.proposals
  {
    var proposal := db.proposals[p].(status := if approve then Approved else Rejected,
                                     expiresAt := if approve then Some(now + APPROVAL_VALIDITY_SECONDS) else None);
    db.(proposals := db.proposals[p := proposal],
        approvals := db.approvals[p := Approval(approve, proposal.digest, now)],
        keys := db.keys[Scope(p, ApprovalEndpoint, key) := Key(DecisionPayload(approve, comment), approval)])
  }

  /** The reply is the execution's id; an expired approval is stored first and reported then. */
  function RequestExecution(db: Db, p: Id, key: Id, execution: Id, now: real): Outcome<Id> {
    var scope := Scope(p, ExecutionEndpoint, key);
    if scope in db.keys then
      if db.keys[scope].fingerprint != EmptyPayload then Outcome(db, Err(KeyReused))
      else if db.keys[scope].resource !in db.executions then Outcome(db, Err(InvalidState))
      else Outcome(db, Ok(db.keys[scope].resource))
    else if !Stored(db, p) then Outcome(db, Err(NotFound))
    else if db.proposals[p].status != Approved then Outcome(db, Err(InvalidState))
    else if db.proposals[p].expiresAt.Some? && now >= db.proposals[p].expiresAt.value then
      Outcome(AddEvent(db.(proposals := db.proposals[p := db.proposals[p].(status := Expired)]), p, ActionFailed), Err(ProposalExpired))
    else if p in db.executionOf || execution in db.executions then Outcome(db, Err(IntegrityError))
    else Outcome(AddEvent(Granted(db, p, key, execution, now), p, ExecutionRequested), Ok(execution))
  }

  /** The rows a granted execution request writes before its event. */
  function Granted(db: Db, p: Id, key: Id, execution: Id, now: real): Db
    requires Stored(db, p)
  {
    db.(proposals := db.proposals[p := db.proposals[p].(status := Executing)],
        executions := db.executions[execution := Execution(p, Queued, now)],
        executionOf := db.executionOf[p := execution],
        keys := db.keys[Scope(p, ExecutionEndpoint, key) := Key(EmptyPayload, execution)])
  }

  /** `_load_execution_replay`, after a refused commit. */
  function ReplayExecution(db: Db, p: Id, key: Id): Result<Id, Error> {
    var scope := Scope(p, ExecutionEndpoint, key);
    if scope !in db.keys then Err(IntegrityError)
    else if db.keys[scope].fingerprint != EmptyPayload then Err(KeyReused)
    else if db.keys[scope].resource !in db.executions then Err(InvalidState)
    else Ok(db.keys[scope].resource)
  }

  /** The reply is the claimed execution, or none when this call did not win it. */
  function ClaimExecution(db: Db, p: Id): Outcome<Option<Id>> {
    if !Stored(db, p) || p !in db.executionOf || db.proposals[p].status != Executing then Outcome(db, Ok(None))
    else
      match SetExecution(db, db.executionOf[p], Queued, Running)
      case None => Outcome(db, Ok(None))
      case Some(claimed) => Outcome(AddEvent(claimed, p, ExecutionStarted), Ok(Some(db.executionOf[p])))
  }

  function RecordSuccess(db: Db, p: Id, e: Id): Outcome<()> {
    match SetExecution(db, e, Running, ExecutionSucceeded)
    case None => Outcome(db, Err(InvalidState))
    case Some(done) =>
      if !Stored(db, p) then Outcome(db, Err(NotFound))
      else Outcome(AddEvent(AddEvent(done, p, PreconditionChecked), p, ExecutionCompleted), Ok(()))
  }

  function StartVerification(db: Db, p: Id): Outcome<()> {
    if !Stored(db, p) then Outcome(db, Err(NotFound))
    else
      match SetProposal(db, p, Executing, Verifying)
      case None => Outcome(db, Err(InvalidState))
      case Some(started) => Outcome(AddEvent(started, p, VerificationStarted), Ok(()))
  }

  function FinishVerified(db: Db, p: Id, e: Id): Outcome<()> {
    if e in db.verifications then Outcome(db, Err(IntegrityError))
    else
      match SetProposal(db.(verifications := db.verifications[e := true]), p, Verifying, Verified)
      case None => Outcome(db, Err(InvalidState))
      case Some(done) => if !Stored(db, p) then Outcome(db, Err(NotFound)) else Outcome(AddEvent(done, p, VerificationCompleted), Ok(()))
  }

  /** The source does not look at whether this compare-and-set took place. */
  function SetProposalUnchecked(db: Db, p: Id, expected: ProposalStatus, status: ProposalStatus): Db {
    match SetProposal(db, p, expected, status) case None => db case Some(next) => next
  }

  function SetExecutionUnchecked(db: Db, e: Id, expected: ExecutionStatus, status: ExecutionStatus): Db {
    match SetExecution(db, e, expected, status) case None => db case Some(next) => next
  }

  function FinishVerificationFailed(db: Db, p: Id, e: Id): Outcome<()> {
    if e in db.verifications then Outcome(db, Err(IntegrityError))
    else if !Stored(db, p) then Outcome(db, Err(NotFound))
    else
      var failed := SetProposalUnchecked(db.(verifications := db.verifications[e := false]), p, Verifying, Failed);
      Outcome(AddEvent(failed, p, ActionFailed), Ok(()))
  }

  /** `_finish_execution_terminal` for a blocked or failed execution. */
  function FinishExecution(db: Db, p: Id, e: Id, blocked: bool): Outcome<()> {
    if !Stored(db, p) then Outcome(db, Err(NotFound))
    else
      var ended := SetExecutionUnchecked(db, e, Running, if blocked then ExecutionBlocked else ExecutionFailed);
      var failed := SetProposalUnchecked(ended, p, Executing, if blocked then Blocked else Failed);
      Outcome(AddEvent(failed, p, if blocked then ActionBlocked else ActionFailed), Ok(()))
  }

  // ----- workers

  datatype Attempt = Done | PreconditionBlocked | Broken

  /** Where a background worker stands between its transactions and executor calls. */
  datatype Pc =
    | Claiming(p: Id)
    | CallingExecute(p: Id, e: Id)
    | Recording(p: Id, e: Id)
    | Ending(p: Id, e: Id, blocked: bool)
    | Starting(p: Id, e: Id)
    | CallingVerify(p: Id, e: Id)
    | EndingVerified(p: Id, e: Id)
    | EndingUnverified(p: Id, e: Id)
    | Stopped

  /** `executed` and `verified` list the proposals the executor was called for; `replies` the execution requests answered. */
  datatype World = World(
    db: Db, workers: map<Id, Pc>, executed: seq<Id>, verified: seq<Id>, replies: seq<(Scope, Id)>)

  const INITIAL := World(EMPTY, map[], [], [], [])

  datatype Move =
    | CreateProposal(p: Id, digest: string)
    | DecideOn(p: Id, approve: bool, comment: Option<string>, key: Id, approval: Id, now: real)
    | Request(p: Id, key: Id, execution: Id, now: real)
    | RereadRequest(p: Id, key: Id)
    | Spawn(w: Id, p: Id)
    | Work(w: Id, attempt: Attempt)
    | Crash(w: Id)

  function Answer(w: World, scope: Scope, reply: Result<Id, Error>): World {
    if reply.Ok? then w.(replies := w.replies + [(scope, reply.value)]) else w
  }

  /** A transaction that raises ends the worker. */
  function AfterTransaction<T>(w: World, worker: Id, outcome: Outcome<T>, next: Pc): World {
    w.(db := outcome.db, workers := w.workers[worker := if outcome.reply.Ok? then next else Stopped])
  }

  function WorkerStep(w: World, worker: Id, pc: Pc, attempt: Attempt): World {
    match pc
    case Claiming(p) =>
      var claim := ClaimExecution(w.db, p);
      AfterTransaction(w, worker, claim,
        if claim.reply.Ok? && claim.reply.value.Some? then CallingExecute(p, claim.reply.value.value) else Stopped)
    case CallingExecute(p, e) =>
      w.(executed := w.executed + [p],
         workers := w.workers[worker := match attempt case Done => Recording(p, e)
                                        case PreconditionBlocked => Ending(p, e, true) case Broken => Ending(p, e, false)])
    case Recording(p, e) => AfterTransaction(w, worker, RecordSuccess(w.db, p, e), Starting(p, e))
    case Ending(p, e, blocked) => AfterTransaction(w, worker, FinishExecution(w.db, p, e, blocked), Stopped)
    case Starting(p, e) => AfterTransaction(w, worker, StartVerification(w.db, p), CallingVerify(p, e))
    case CallingVerify(p, e) =>
      w.(verified := w.verified + [p],
         workers := w.workers[worker := if attempt == Done then EndingVerified(p, e) else EndingUnverified(p, e)])
    case EndingVerified(p, e) => AfterTransaction(w, worker, FinishVerified(w.db, p, e), Stopped)
    case EndingUnverified(p, e) => AfterTransaction(w, worker, FinishVerificationFailed(w.db, p, e), Stopped)
    case Stopped => w
  }

  function Go(w: World, move: Move): World {
    match move
    case CreateProposal(p, digest) => w.(db := Create(w.db, p, digest))
    case DecideOn(p, approve, comment, key, approval, now) => w.(db := Decide(w.db, p, approve, comment, key, approval, now).db)
    case Request(p, key, execution, now) =>
      var outcome := RequestExecution(w.db, p, key, execution, now);
      Answer(w.(db := outcome.db), Scope(p, ExecutionEndpoint, key), outcome.reply)
    case RereadRequest(p, key) => Answer(w, Scope(p, ExecutionEndpoint, key), ReplayExecution(w.db, p, key))
    case Spawn(worker, p) => if worker in w.workers then w else w.(workers := w.workers[worker := Claiming(p)])
    case Work(worker, attempt) => if worker in w.workers then WorkerStep(w, worker, w.workers[worker], attempt) else w
    case Crash(worker) => if worker in w.workers then w.(workers := w.workers[worker := Stopped]) else w
  }

  function Play(w: World, moves: seq<Move>): World
    decreases |moves|
  {
    if moves == [] then w else Play(Go(w, moves[0]), moves[1..])
  }

  // ----- the log is a function of the two statuses

  /** The one event sequence a proposal can have in each pair of statuses. */
  function Trace(s: ProposalStatus, e: Option<ExecutionStatus>): seq<EventType> {
    match s
    case PendingApproval => [ProposalCreated]
    case Approved => [ProposalCreated, ApprovalRecorded]
    case Rejected => [ProposalCreated, ApprovalRecorded]
    case Expired => [ProposalCreated, ApprovalRecorded, ActionFailed]
    case Executing =>
      [ProposalCreated, ApprovalRecorded, ExecutionRequested]
      + (if e == Some(Running) then [ExecutionStarted]
         else if e == Some(ExecutionSucceeded) then [ExecutionStarted, PreconditionChecked, ExecutionCompleted] else [])
    case Blocked => [ProposalCreated, ApprovalRecorded, ExecutionRequested, ExecutionStarted, ActionBlocked]
    case Verifying =>
      [ProposalCreated, ApprovalRecorded, ExecutionRequested, ExecutionStarted, PreconditionChecked, ExecutionCompleted,
       VerificationStarted]
    case Verified =>
      [ProposalCreated, ApprovalRecorded, ExecutionRequested, ExecutionStarted, PreconditionChecked, ExecutionCompleted,
       VerificationStarted, VerificationCompleted]
    case Failed =>
      if e == Some(ExecutionSucceeded) then
        [ProposalCreated, ApprovalRecorded, ExecutionRequested, ExecutionStarted, PreconditionChecked, ExecutionCompleted,
         VerificationStarted, ActionFailed]
      else [ProposalCreated, ApprovalRecorded, ExecutionRequested, ExecutionStarted, ActionFailed]
  }

  /** The pairs of statuses that occur. */
  predicate Paired(s: ProposalStatus, e: Option<ExecutionStatus>) {
    match s
    case Executing => e in {Some(Queued), Some(Running), Some(ExecutionSucceeded)}
    case Verifying => e == Some(ExecutionSucceeded)
    case Verified => e == Some(ExecutionSucceeded)
    case Blocked => e == Some(ExecutionBlocked)
    case Failed => e in {Some(ExecutionSucceeded), Some(ExecutionFailed)}
    case _ => e == None
  }

  function Kinds(es: seq<Event>): seq<EventType> { seq(|es|, i requires 0 <= i < |es| => es[i].kind) }

  ghost predicate Numbered(es: seq<Event>) { forall k | 0 <= k < |es| :: es[k].sequence == k + 1 }

  /** The rows that concern one proposal. */
  datatype View = View(
    proposal: Option<Proposal>, approval: Option<Approval>, execution: Option<(Id, Execution)>, verification: Option<bool>, log: seq<Event>)

  function Lookup<K, V>(m: map<K, V>, k: K): Option<V> { if k in m then Some(m[k]) else None }

  function ViewOf(db: Db, p: Id): View {
    var e := Lookup(db.executionOf, p);
    View(Lookup(db.proposals, p), Lookup(db.approvals, p),
         if e.Some? && e.value in db.executions then Some((e.value, db.executions[e.value])) else None,
         if e.Some? then Lookup(db.verifications, e.value) else None,
         if p in db.events then db.events[p] else [])
  }

  function StatusOf(v: View): Option<ExecutionStatus> {
    if v.execution.Some? then Some(v.execution.value.1.status) else None
  }

  function VerdictFor(s: ProposalStatus, e: Option<ExecutionStatus>): Option<bool> {
    if s == Verified then Some(true) else if s == Failed && e == Some(ExecutionSucceeded) then Some(false) else None
  }

  /** The decision covers this proposal's own digest; approvals expire after the validity period. */
  ghost predicate ApprovalOk(proposal: Proposal, approval: Option<Approval>) {
    && (approval.Some? <==> proposal.status != PendingApproval)
    && (approval.Some? ==> approval.value.digest == proposal.digest && (approval.value.approve <==> proposal.status != Rejected))
    && proposal.expiresAt == if approval.Some? && approval.value.approve then Some(approval.value.at + APPROVAL_VALIDITY_SECONDS) else None
  }

  ghost predicate LogOk(v: View)
    requires v.proposal.Some?
  {
    && Kinds(v.log) == Trace(v.proposal.value.status, StatusOf(v))
    && Numbered(v.log) && v.proposal.value.nextSequence == |v.log| + 1
  }

  ghost predicate ViewOk(p: Id, v: View) {
    if v.proposal.None? then v == View(None, None, None, None, [])
    else
      var proposal := v.proposal.value;
      && LogOk(v) && Paired(proposal.status, StatusOf(v)) && ApprovalOk(proposal, v.approval)
      && (v.execution.Some? ==> v.execution.value.1.proposal == p && v.execution.value.1.createdAt < proposal.expiresAt.value)
      && v.verification == VerdictFor(proposal.status, StatusOf(v))
  }

  function Calls(calls: seq<Id>, p: Id): nat {
    if calls == [] then 0 else Calls(calls[..|calls| - 1], p) + if calls[|calls| - 1] == p then 1 else 0
  }

  /** How often the executor may have been called for a proposal with these rows. */
  ghost predicate CallsOk(v: View, executed: nat, verified: nat) {
    && executed <= (if StatusOf(v) in {None, Some(Queued)} then 0 else 1)
    && verified <= (if v.proposal.Some? && v.proposal.value.status in {Verifying, Verified, Failed} && StatusOf(v) == Some(ExecutionSucceeded) then 1 else 0)
    && (StatusOf(v) in {Some(ExecutionSucceeded), Some(ExecutionBlocked), Some(ExecutionFailed)} ==> executed == 1)
    && (v.proposal.Some? && v.verification.Some? ==> verified == 1)
  }

  predicate Active(pc: Pc) { !pc.Claiming? && !pc.Stopped? }

  /** What a worker between two steps can rely on. */
  ghost predicate PcOk(v: View, pc: Pc, executed: nat, verified: nat) {
    Active(pc) ==>
      && v.proposal.Some? && v.execution.Some? && v.execution.value.0 == pc.e
      && (var (s, e) := (v.proposal.value.status, v.execution.value.1.status);
          match pc
          case CallingExecute(_, _) => s == Executing && e == Running && executed == 0
          case Recording(_, _) => s == Executing && e == Running && executed == 1
          case Ending(_, _, _) => s == Executing && e == Running && executed == 1
          case Starting(_, _) => s == Executing && e == ExecutionSucceeded
          case CallingVerify(_, _) => s == Verifying && verified == 0
          case _ => s == Verifying && verified == 1)
  }

  ghost predicate Tables(db: Db) {
    && db.events.Keys == db.proposals.Keys
    && db.executionOf.Keys <= db.proposals.Keys && db.approvals.Keys <= db.proposals.Keys
    && (forall p | p in db.executionOf :: db.executionOf[p] in db.executions && db.executions[db.executionOf[p]].proposal == p)
    && (forall e | e in db.executions :: db.executions[e].proposal in db.executionOf && db.executionOf[db.executions[e].proposal] == e)
    && db.verifications.Keys <= db.executions.Keys
    && (forall s | s in db.keys && s.endpoint == ExecutionEndpoint ::
          db.keys[s].fingerprint == EmptyPayload && s.proposal in db.executionOf && db.keys[s].resource == db.executionOf[s.proposal])
  }

  ghost predicate SliceOk(w: World, p: Id) {
    ViewOk(p, ViewOf(w.db, p)) && CallsOk(ViewOf(w.db, p), Calls(w.executed, p), Calls(w.verified, p))
  }

  ghost predicate WorkerOk(w: World, worker: Id)
    requires worker in w.workers
  {
    var pc := w.workers[worker];
    Active(pc) ==> PcOk(ViewOf(w.db, pc.p), pc, Calls(w.executed, pc.p), Calls(w.verified, pc.p))
  }

  ghost predicate RepliesOk(w: World) {
    forall i | 0 <= i < |w.replies| ::
      var (scope, e) := w.replies[i];
      && scope in w.db.keys && w.db.keys[scope].resource == e && scope.endpoint == ExecutionEndpoint
      && scope.proposal in w.db.executionOf && w.db.executionOf[scope.proposal] == e
  }

  ghost predicate WorldOk(w: World) {
    && Tables(w.db)
    && (forall p :: SliceOk(w, p))
    && (forall x | x in w.workers :: WorkerOk(w, x))
    && (forall x, y | x in w.workers && y in w.workers && x != y && Active(w.workers[x]) && Active(w.workers[y]) ::
          w.workers[x].p != w.workers[y].p)
    && RepliesOk(w)
  }

  // ----- what a transaction does to the rows of its proposal, and to no other

  ghost predicate OnlyFor(db: Db, next: Db, p: Id) { forall q | q != p :: ViewOf(next, q) == ViewOf(db, q) }

  /** A well-formed change of proposal `p`: tables stay linked, `p`'s rows become `v`, the rest is as before. */
  ghost predicate Turns(db: Db, next: Db, p: Id, v: View) {
    Tables(next) && OnlyFor(db, next, p) && ViewOf(next, p) == v && next.keys == db.keys && next.executionOf == db.executionOf
  }

  function Logged(v: View, kind: EventType): View
    requires v.proposal.Some?
  {
    var proposal := v.proposal.value;
    v.(proposal := Some(proposal.(nextSequence := proposal.nextSequence + 1)), log := v.log + [Event(proposal.nextSequence, kind)])
  }

  function WithStatus(v: View, s: ProposalStatus): View
    requires v.proposal.Some?
  {
    v.(proposal := Some(v.proposal.value.(status := s)))
  }

  function WithExecution(v: View, s: ExecutionStatus): View
    requires v.execution.Some?
  {
    v.(execution := Some((v.execution.value.0, v.execution.value.1.(status := s))))
  }

  lemma AddEventTurns(db: Db, p: Id, kind: EventType)
    requires Tables(db) && Stored(db, p)
    ensures Turns(db, AddEvent(db, p, kind), p, Logged(ViewOf(db, p), kind))
  {
  }

  lemma SetProposalTurns(db: Db, p: Id, expected: ProposalStatus, s: ProposalStatus)
    requires Tables(db) && SetProposal(db, p, expected, s).Some?
    ensures Turns(db, SetProposal(db, p, expected, s).value, p, WithStatus(ViewOf(db, p), s))
  {
  }

  lemma SetExecutionTurns(db: Db, p: Id, e: Id, expected: ExecutionStatus, s: ExecutionStatus)
    requires Tables(db) && p in db.executionOf && db.executionOf[p] == e && SetExecution(db, e, expected, s).Some?
    ensures Turns(db, SetExecution(db, e, expected, s).value, p, WithExecution(ViewOf(db, p), s))
  {
    var next := SetExecution(db, e, expected, s).value;
    forall q | q != p
      ensures ViewOf(next, q) == ViewOf(db, q)
    {
      assert q in db.executionOf ==> db.executions[db.executionOf[q]].proposal == q;
    }
  }

  lemma VerificationTurns(db: Db, p: Id, e: Id, passed: bool)
    requires Tables(db) && p in db.executionOf && db.executionOf[p] == e
    ensures Turns(db, db.(verifications := db.verifications[e := passed]), p, ViewOf(db, p).(verification := Some(passed)))
  {
    var next := db.(verifications := db.verifications[e := passed]);
    forall q | q != p
      ensures ViewOf(next, q) == ViewOf(db, q)
    {
      assert q in db.executionOf ==> db.executions[db.executionOf[q]].proposal == q;
    }
  }

  lemma TurnsTwice(a: Db, b: Db, c: Db, p: Id, v: View, w: View)
    requires Turns(a, b, p, v) && Turns(b, c, p, w)
    ensures Turns(a, c, p, w)
  {
    hide ViewOf, Tables;
  }

  lemma KindsAppend(es: seq<Event>, e: Event)
    ensures Kinds(es + [e]) == Kinds(es) + [e.kind]
  {
  }

  // ----- each transaction keeps the rows consistent

  lemma CreateTurns(db: Db, p: Id, digest: string)
    requires Tables(db) && ViewOk(p, ViewOf(db, p)) && p !in db.proposals
    ensures Turns(db, Create(db, p, digest), p,
                  View(Some(Proposal(digest, PendingApproval, 2, None)), None, None, None, [Event(1, ProposalCreated)]))
    ensures ViewOk(p, ViewOf(Create(db, p, digest), p))
  {
  }

  /** Earlier keys and executions stay what they were. */
  ghost predicate KeepsIndexes(db: Db, next: Db) {
    && (forall s | s in db.keys :: s in next.keys && next.keys[s] == db.keys[s])
    && (forall q | q in db.executionOf :: q in next.executionOf && next.executionOf[q] == db.executionOf[q])
  }

  lemma DecidedTurns(db: Db, p: Id, approve: bool, comment: Option<string>, key: Id, approval: Id, now: real)
    requires Tables(db) && Stored(db, p)
    ensures var next, v := Decided(db, p, approve, comment, key, approval, now), ViewOf(db, p);
            && Tables(next) && OnlyFor(db, next, p) && Stored(next, p) && next.executionOf == db.executionOf
            && ViewOf(next, p) == v.(proposal := Some(v.proposal.value.(
                 status := if approve then Approved else Rejected,
                 expiresAt := if approve then Some(now + APPROVAL_VALIDITY_SECONDS) else None)),
                 approval := Some(Approval(approve, v.proposal.value.digest, now)))
  {
  }

  lemma DecideView(db: Db, p: Id, approve: bool, comment: Option<string>, key: Id, approval: Id, now: real)
    requires Tables(db) && ViewOk(p, ViewOf(db, p)) && Decide(db, p, approve, comment, key, approval, now).db != db
    ensures var next, v := Decide(db, p, approve, comment, key, approval, now).db, ViewOf(db, p);
            && v.proposal.Some? && v.proposal.value.status == PendingApproval
            && Tables(next) && OnlyFor(db, next, p) && KeepsIndexes(db, next)
            && ViewOf(next, p) == Logged(v.(proposal := Some(v.proposal.value.(
                 status := if approve then Approved else Rejected,
                 expiresAt := if approve then Some(now + APPROVAL_VALIDITY_SECONDS) else None)),
                 approval := Some(Approval(approve, v.proposal.value.digest, now))), ApprovalRecorded)
  {
    assert Stored(db, p) && Scope(p, ApprovalEndpoint, key) !in db.keys;
    var decided := Decided(db, p, approve, comment, key, approval, now);
    DecidedTurns(db, p, approve, comment, key, approval, now);
    assert KeepsIndexes(db, decided);
    assert ViewOf(db, p).proposal == Some(db.proposals[p]);
    hide Tables, ViewOf, ViewOk, Decided;
    AddEventTurns(decided, p, ApprovalRecorded);
  }

  lemma DecideOk(p: Id, v: View, approve: bool, now: real)
    requires ViewOk(p, v) && v.proposal.Some? && v.proposal.value.status == PendingApproval
    ensures ViewOk(p, Logged(v.(proposal := Some(v.proposal.value.(
                 status := if approve then Approved else Rejected,
                 expiresAt := if approve then Some(now + APPROVAL_VALIDITY_SECONDS) else None)),
                 approval := Some(Approval(approve, v.proposal.value.digest, now))), ApprovalRecorded))
  {
    KindsAppend(v.log, Event(v.proposal.value.nextSequence, ApprovalRecorded));
  }

  lemma GrantedOthers(db: Db, p: Id, key: Id, execution: Id, now: real)
    requires Tables(db) && Stored(db, p) && p !in db.executionOf && execution !in db.executions
    ensures OnlyFor(db, Granted(db, p, key, execution, now), p)
    ensures ViewOf(Granted(db, p, key, execution, now), p)
            == WithStatus(ViewOf(db, p), Executing).(execution := Some((execution, Execution(p, Queued, now))))
  {
    var next := Granted(db, p, key, execution, now);
    forall q | q != p
      ensures ViewOf(next, q) == ViewOf(db, q)
    {
      assert q in db.executionOf ==> db.executions[db.executionOf[q]].proposal == q;
    }
    assert execution !in db.verifications;
  }

  lemma GrantedTables(db: Db, p: Id, key: Id, execution: Id, now: real)
    requires Tables(db) && Stored(db, p) && p !in db.executionOf && execution !in db.executions
    ensures Tables(Granted(db, p, key, execution, now))
  {
    var next := Granted(db, p, key, execution, now);
    forall q | q in next.executionOf
      ensures next.executionOf[q] in next.executions && next.executions[next.executionOf[q]].proposal == q
    {
      if q != p { assert db.executions[db.executionOf[q]].proposal == q; }
    }
    forall e | e in next.executions
      ensures next.executions[e].proposal in next.executionOf && next.executionOf[next.executions[e].proposal] == e
    {
      if e != execution { assert db.executions[e].proposal in db.executionOf && db.executionOf[db.executions[e].proposal] == e; }
    }
  }

  lemma ExpireView(db: Db, p: Id)
    requires Tables(db) && Stored(db, p) && db.proposals[p].status == Approved
    ensures var next := AddEvent(SetProposal(db, p, Approved, Expired).value, p, ActionFailed);
            Turns(db, next, p, Logged(WithStatus(ViewOf(db, p), Expired), ActionFailed))
  {
    var expired := SetProposal(db, p, Approved, Expired).value;
    SetProposalTurns(db, p, Approved, Expired);
    assert Stored(expired, p);
    hide ViewOf, Tables, SetProposal;
    AddEventTurns(expired, p, ActionFailed);
    TurnsTwice(db, expired, AddEvent(expired, p, ActionFailed), p, ViewOf(expired, p), ViewOf(AddEvent(expired, p, ActionFailed), p));
  }

  lemma GrantView(db: Db, p: Id, key: Id, execution: Id, now: real)
    requires Tables(db) && Stored(db, p) && p !in db.executionOf && execution !in db.executions
    requires Scope(p, ExecutionEndpoint, key) !in db.keys
    ensures Stored(Granted(db, p, key, execution, now), p)
    ensures var next := AddEvent(Granted(db, p, key, execution, now), p, ExecutionRequested);
            && Tables(next) && OnlyFor(db, next, p) && KeepsIndexes(db, next)
            && ViewOf(next, p) == Logged(WithStatus(ViewOf(db, p), Executing).(execution := Some((execution, Execution(p, Queued, now)))), ExecutionRequested)
  {
    var granted := Granted(db, p, key, execution, now);
    GrantedOthers(db, p, key, execution, now);
    GrantedTables(db, p, key, execution, now);
    assert KeepsIndexes(db, granted) && Stored(granted, p);
    hide Tables, ViewOf, Granted;
    AddEventTurns(granted, p, ExecutionRequested);
  }

  lemma RequestView(db: Db, p: Id, key: Id, execution: Id, now: real)
    requires Tables(db) && ViewOk(p, ViewOf(db, p)) && RequestExecution(db, p, key, execution, now).db != db
    ensures var next, v := RequestExecution(db, p, key, execution, now).db, ViewOf(db, p);
            && v.proposal.Some? && v.proposal.value.status == Approved && v.execution.None?
            && Tables(next) && OnlyFor(db, next, p) && KeepsIndexes(db, next)
            && (if now >= v.proposal.value.expiresAt.value
                then ViewOf(next, p) == Logged(WithStatus(v, Expired), ActionFailed)
                else ViewOf(next, p) == Logged(WithStatus(v, Executing).(execution := Some((execution, Execution(p, Queued, now)))), ExecutionRequested))
  {
    assert Stored(db, p) && db.proposals[p].status == Approved;
    assert p !in db.executionOf && db.proposals[p].expiresAt.Some?;
    assert now >= db.proposals[p].expiresAt.value ==> KeepsIndexes(db, RequestExecution(db, p, key, execution, now).db);
    hide ViewOk, Tables, OnlyFor, Granted, KeepsIndexes, AddEvent;
    if now >= db.proposals[p].expiresAt.value {
      ExpireView(db, p);
    } else {
      GrantView(db, p, key, execution, now);
    }
  }

  lemma RequestOk(p: Id, v: View, execution: Id, now: real)
    requires ViewOk(p, v) && v.proposal.Some? && v.proposal.value.status == Approved
    ensures ViewOk(p, Logged(WithStatus(v, Expired), ActionFailed))
    ensures now < v.proposal.value.expiresAt.value ==>
              ViewOk(p, Logged(WithStatus(v, Executing).(execution := Some((execution, Execution(p, Queued, now)))), ExecutionRequested))
  {
    KindsAppend(v.log, Event(v.proposal.value.nextSequence, ActionFailed));
    KindsAppend(v.log, Event(v.proposal.value.nextSequence, ExecutionRequested));
  }

  lemma KindsTwo(es: seq<Event>, e: Event, f: Event)
    ensures Kinds(es + [e] + [f]) == Kinds(es) + [e.kind, f.kind]
  {
  }

  lemma ClaimView(db: Db, p: Id)
    requires Tables(db) && ViewOk(p, ViewOf(db, p)) && ClaimExecution(db, p).db != db
    ensures var v, next := ViewOf(db, p), ClaimExecution(db, p).db;
            && v.proposal.Some? && v.proposal.value.status == Executing && StatusOf(v) == Some(Queued)
            && ClaimExecution(db, p).reply == Ok(Some(v.execution.value.0))
            && Turns(db, next, p, Logged(WithExecution(v, Running), ExecutionStarted))
  {
    var e := db.executionOf[p];
    SetExecutionTurns(db, p, e, Queued, Running);
    var claimed := SetExecution(db, e, Queued, Running).value;
    assert ViewOf(db, p).execution == Some((e, db.executions[e])) && Stored(claimed, p);
    hide Tables, ViewOf, ViewOk, SetExecution;
    AddEventTurns(claimed, p, ExecutionStarted);
    TurnsTwice(db, claimed, AddEvent(claimed, p, ExecutionStarted), p, ViewOf(claimed, p), ViewOf(AddEvent(claimed, p, ExecutionStarted), p));
  }

  /** A claim that changes nothing claims nothing. */
  lemma ClaimUnchanged(db: Db, p: Id)
    requires ClaimExecution(db, p).db == db
    ensures ClaimExecution(db, p).reply == Ok(None)
  {
  }

  /** The linked rows a worker past its claim works on. */
  ghost predicate Linked(db: Db, p: Id, e: Id, s: ProposalStatus, es: ExecutionStatus) {
    && Tables(db) && Stored(db, p) && p in db.executionOf && db.executionOf[p] == e && e in db.executions
    && db.proposals[p].status == s && db.executions[e].status == es
  }

  lemma RecordView(db: Db, p: Id, e: Id)
    requires Linked(db, p, e, Executing, Running)
    ensures var v, o := ViewOf(db, p), RecordSuccess(db, p, e);
            && v.proposal.Some? && v.execution.Some? && o.reply == Ok(())
            && Turns(db, o.db, p, Logged(Logged(WithExecution(v, ExecutionSucceeded), PreconditionChecked), ExecutionCompleted))
  {
    var done := SetExecution(db, e, Running, ExecutionSucceeded).value;
    SetExecutionTurns(db, p, e, Running, ExecutionSucceeded);
    var checked := AddEvent(done, p, PreconditionChecked);
    var completed := AddEvent(checked, p, ExecutionCompleted);
    hide Tables, ViewOf, SetExecution;
    AddEventTurns(done, p, PreconditionChecked);
    AddEventTurns(checked, p, ExecutionCompleted);
    TurnsTwice(db, done, checked, p, ViewOf(done, p), ViewOf(checked, p));
    TurnsTwice(db, checked, completed, p, ViewOf(checked, p), ViewOf(completed, p));
  }

  lemma StartView(db: Db, p: Id, e: Id)
    requires Linked(db, p, e, Executing, ExecutionSucceeded)
    ensures var v, o := ViewOf(db, p), StartVerification(db, p);
            && v.proposal.Some? && o.reply == Ok(())
            && Turns(db, o.db, p, Logged(WithStatus(v, Verifying), VerificationStarted))
  {
    var started := SetProposal(db, p, Executing, Verifying).value;
    SetProposalTurns(db, p, Executing, Verifying);
    assert Stored(started, p);
    hide Tables, ViewOf, SetProposal;
    AddEventTurns(started, p, VerificationStarted);
    TurnsTwice(db, started, AddEvent(started, p, VerificationStarted), p, ViewOf(started, p), ViewOf(AddEvent(started, p, VerificationStarted), p));
  }

  /** Both verification endings: the unchecked compare-and-set does take place. */
  lemma VerdictView(db: Db, p: Id, e: Id, passed: bool)
    requires Linked(db, p, e, Verifying, ExecutionSucceeded) && e !in db.verifications
    ensures var v := ViewOf(db, p); var o := if passed then FinishVerified(db, p, e) else FinishVerificationFailed(db, p, e);
            && v.proposal.Some? && o.reply == Ok(())
            && Turns(db, o.db, p, Logged(WithStatus(v.(verification := Some(passed)), if passed then Verified else Failed),
                                         if passed then VerificationCompleted else ActionFailed))
  {
    var s, kind := if passed then Verified else Failed, if passed then VerificationCompleted else ActionFailed;
    var judged := db.(verifications := db.verifications[e := passed]);
    VerificationTurns(db, p, e, passed);
    SetProposalTurns(judged, p, Verifying, s);
    var ended := SetProposal(judged, p, Verifying, s).value;
    assert Stored(ended, p);
    var next := AddEvent(ended, p, kind);
    assert next == if passed then FinishVerified(db, p, e).db else FinishVerificationFailed(db, p, e).db;
    assert ViewOf(db, p).proposal.Some?;
    assert (if passed then FinishVerified(db, p, e).reply else FinishVerificationFailed(db, p, e).reply) == Ok(());
    hide Tables, ViewOf, SetProposal, FinishVerified, FinishVerificationFailed;
    TurnsTwice(db, judged, ended, p, ViewOf(judged, p), ViewOf(ended, p));
    AddEventTurns(ended, p, kind);
    TurnsTwice(db, ended, next, p, ViewOf(ended, p), ViewOf(next, p));
  }

  /** A blocked or failed execution: both unchecked compare-and-sets take place. */
  lemma EndView(db: Db, p: Id, e: Id, blocked: bool)
    requires Linked(db, p, e, Executing, Running)
    ensures var v, o := ViewOf(db, p), FinishExecution(db, p, e, blocked);
            && v.proposal.Some? && v.execution.Some? && o.reply == Ok(())
            && Turns(db, o.db, p, Logged(WithStatus(WithExecution(v, if blocked then ExecutionBlocked else ExecutionFailed),
                                                    if blocked then Blocked else Failed),
                                         if blocked then ActionBlocked else ActionFailed))
  {
    var es := if blocked then ExecutionBlocked else ExecutionFailed;
    var s := if blocked then Blocked else Failed;
    var kind := if blocked then ActionBlocked else ActionFailed;
    var ended := SetExecution(db, e, Running, es).value;
    SetExecutionTurns(db, p, e, Running, es);
    var failed := SetProposal(ended, p, Executing, s).value;
    SetProposalTurns(ended, p, Executing, s);
    assert Stored(failed, p);
    var next := AddEvent(failed, p, kind);
    assert next == FinishExecution(db, p, e, blocked).db && FinishExecution(db, p, e, blocked).reply == Ok(());
    hide Tables, ViewOf, SetProposal, SetExecution, FinishExecution;
    TurnsTwice(db, ended, failed, p, ViewOf(ended, p), ViewOf(failed, p));
    AddEventTurns(failed, p, kind);
    TurnsTwice(db, failed, next, p, ViewOf(failed, p), ViewOf(next, p));
  }

  // ----- each step keeps the world consistent

  lemma ClaimOk(p: Id, v: View, executed: nat, verified: nat)
    requires ViewOk(p, v) && CallsOk(v, executed, verified)
    requires v.proposal.Some? && v.proposal.value.status == Executing && StatusOf(v) == Some(Queued)
    ensures var next := Logged(WithExecution(v, Running), ExecutionStarted);
            ViewOk(p, next) && CallsOk(next, executed, verified) && PcOk(next, CallingExecute(p, v.execution.value.0), executed, verified)
  {
    KindsAppend(v.log, Event(v.proposal.value.nextSequence, ExecutionStarted));
  }

  lemma RecordOk(p: Id, e: Id, v: View, executed: nat, verified: nat)
    requires ViewOk(p, v) && CallsOk(v, executed, verified) && PcOk(v, Recording(p, e), executed, verified)
    ensures var next := Logged(Logged(WithExecution(v, ExecutionSucceeded), PreconditionChecked), ExecutionCompleted);
            ViewOk(p, next) && CallsOk(next, executed, verified) && PcOk(next, Starting(p, e), executed, verified)
  {
    var n := v.proposal.value.nextSequence;
    KindsTwo(v.log, Event(n, PreconditionChecked), Event(n + 1, ExecutionCompleted));
  }

  lemma StartOk(p: Id, e: Id, v: View, executed: nat, verified: nat)
    requires ViewOk(p, v) && CallsOk(v, executed, verified) && PcOk(v, Starting(p, e), executed, verified)
    ensures var next := Logged(WithStatus(v, Verifying), VerificationStarted);
            ViewOk(p, next) && CallsOk(next, executed, verified) && PcOk(next, CallingVerify(p, e), executed, verified)
  {
    KindsAppend(v.log, Event(v.proposal.value.nextSequence, VerificationStarted));
  }

  lemma VerdictOk(p: Id, e: Id, v: View, executed: nat, verified: nat, passed: bool)
    requires ViewOk(p, v) && CallsOk(v, executed, verified)
    requires PcOk(v, if passed then EndingVerified(p, e) else EndingUnverified(p, e), executed, verified)
    ensures var next := Logged(WithStatus(v.(verification := Some(passed)), if passed then Verified else Failed),
                               if passed then VerificationCompleted else ActionFailed);
            ViewOk(p, next) && CallsOk(next, executed, verified)
  {
    KindsAppend(v.log, Event(v.proposal.value.nextSequence, if passed then VerificationCompleted else ActionFailed));
  }

  lemma EndOk(p: Id, e: Id, v: View, executed: nat, verified: nat, blocked: bool)
    requires ViewOk(p, v) && CallsOk(v, executed, verified) && PcOk(v, Ending(p, e, blocked), executed, verified)
    ensures var next := Logged(WithStatus(WithExecution(v, if blocked then ExecutionBlocked else ExecutionFailed),
                                          if blocked then Blocked else Failed),
                               if blocked then ActionBlocked else ActionFailed);
            ViewOk(p, next) && CallsOk(next, executed, verified)
  {
    KindsAppend(v.log, Event(v.proposal.value.nextSequence, if blocked then ActionBlocked else ActionFailed));
  }

  lemma OneMoreCall(calls: seq<Id>, p: Id, q: Id)
    ensures Calls(calls + [p], q) == Calls(calls, q) + if p == q then 1 else 0
  {
    assert (calls + [p])[..|calls|] == calls;
  }

  /** The part of the world other proposals see is unchanged by a step on `p`. */
  ghost predicate StepOn(w: World, next: World, p: Id) {
    && Tables(next.db) && OnlyFor(w.db, next.db, p) && KeepsIndexes(w.db, next.db)
    && forall q | q != p :: Calls(next.executed, q) == Calls(w.executed, q) && Calls(next.verified, q) == Calls(w.verified, q)
  }

  lemma OtherSlices(w: World, next: World, p: Id, q: Id)
    requires StepOn(w, next, p) && q != p && SliceOk(w, q)
    ensures SliceOk(next, q)
  {
    hide Tables, ViewOf, ViewOk, CallsOk, KeepsIndexes;
  }

  lemma OtherWorkers(w: World, next: World, p: Id, x: Id)
    requires StepOn(w, next, p) && x in w.workers && x in next.workers && next.workers[x] == w.workers[x]
    requires WorkerOk(w, x) && (Active(w.workers[x]) ==> w.workers[x].p != p)
    ensures WorkerOk(next, x)
  {
    hide Tables, ViewOf, PcOk, KeepsIndexes;
  }

  /** A step of a client, with no worker active on the proposal. */
  lemma ClientStep(w: World, next: World, p: Id)
    requires WorldOk(w) && StepOn(w, next, p) && next.workers == w.workers && SliceOk(next, p)
    requires next.replies == w.replies
    requires forall x | x in w.workers && Active(w.workers[x]) :: w.workers[x].p != p
    ensures WorldOk(next)
  {
    hide SliceOk, WorkerOk, Tables, OnlyFor;
    forall q
      ensures SliceOk(next, q)
    {
      if q != p { OtherSlices(w, next, p, q); }
    }
    forall x | x in next.workers
      ensures WorkerOk(next, x)
    {
      OtherWorkers(w, next, p, x);
    }
  }

  /** A step of worker `x` on its proposal; it is or becomes the only active worker there. */
  lemma WorkerMove(w: World, next: World, p: Id, x: Id, pc: Pc)
    requires WorldOk(w) && StepOn(w, next, p) && x in w.workers && next.workers == w.workers[x := pc] && SliceOk(next, p)
    requires next.replies == w.replies && WorkerOk(next, x) && (Active(pc) ==> pc.p == p)
    requires forall y | y in w.workers && y != x && Active(w.workers[y]) :: w.workers[y].p != p
    ensures WorldOk(next)
  {
    hide SliceOk, WorkerOk, Tables, OnlyFor;
    forall q
      ensures SliceOk(next, q)
    {
      if q != p { OtherSlices(w, next, p, q); }
    }
    forall y | y in next.workers
      ensures WorkerOk(next, y)
    {
      if y != x { OtherWorkers(w, next, p, y); }
    }
  }

  /** A proposal that is waiting, decided or only queued has no active worker. */
  lemma NobodyWorks(w: World, p: Id)
    requires WorldOk(w)
    requires var v := ViewOf(w.db, p);
             v.proposal.None? || v.proposal.value.status !in {Executing, Verifying} || StatusOf(v) == Some(Queued)
    ensures forall x | x in w.workers && Active(w.workers[x]) :: w.workers[x].p != p
  {
    assert SliceOk(w, p);
    hide Tables, RepliesOk, ViewOf, LogOk, ApprovalOk;
    forall x | x in w.workers && Active(w.workers[x])
      ensures w.workers[x].p != p
    {
      assert WorkerOk(w, x);
    }
  }

  lemma CreateKeepsOk(w: World, p: Id, digest: string)
    requires WorldOk(w)
    ensures WorldOk(Go(w, CreateProposal(p, digest)))
  {
    var next := Go(w, CreateProposal(p, digest));
    assert SliceOk(w, p);
    if p !in w.db.proposals {
      NobodyWorks(w, p);
      CreateTurns(w.db, p, digest);
      hide Tables, WorkerOk, RepliesOk;
      assert SliceOk(next, p);
      assert KeepsIndexes(w.db, next.db);
      ClientStep(w, next, p);
    }
  }

  lemma DecideKeepsOk(w: World, p: Id, approve: bool, comment: Option<string>, key: Id, approval: Id, now: real)
    requires WorldOk(w)
    ensures WorldOk(Go(w, DecideOn(p, approve, comment, key, approval, now)))
  {
    var next := Go(w, DecideOn(p, approve, comment, key, approval, now));
    assert SliceOk(w, p);
    if next.db != w.db {
      DecideView(w.db, p, approve, comment, key, approval, now);
      DecideOk(p, ViewOf(w.db, p), approve, now);
      NobodyWorks(w, p);
      hide Tables, WorkerOk, RepliesOk, Decide, ViewOf, ViewOk;
      assert SliceOk(next, p);
      ClientStep(w, next, p);
    } else {
      assert next == w;
    }
  }

  lemma RequestReply(db: Db, p: Id, key: Id, execution: Id, now: real)
    requires Tables(db) && RequestExecution(db, p, key, execution, now).reply.Ok?
    ensures var o, scope := RequestExecution(db, p, key, execution, now), Scope(p, ExecutionEndpoint, key);
            && scope in o.db.keys && o.db.keys[scope].resource == o.reply.value
            && p in o.db.executionOf && o.db.executionOf[p] == o.reply.value
  {
  }

  lemma AnswerKeepsOk(w: World, scope: Scope, reply: Result<Id, Error>)
    requires WorldOk(w) && scope.endpoint == ExecutionEndpoint
    requires reply.Ok? ==> scope in w.db.keys && w.db.keys[scope].resource == reply.value
                           && scope.proposal in w.db.executionOf && w.db.executionOf[scope.proposal] == reply.value
    ensures WorldOk(Answer(w, scope, reply))
  {
    hide Tables;
    var next := Answer(w, scope, reply);
    forall p ensures SliceOk(next, p) { assert SliceOk(w, p); }
    forall x | x in next.workers ensures WorkerOk(next, x) { assert WorkerOk(w, x); }
  }

  lemma RequestRowsKeepOk(w: World, p: Id, key: Id, execution: Id, now: real)
    requires WorldOk(w)
    ensures WorldOk(w.(db := RequestExecution(w.db, p, key, execution, now).db))
  {
    var next := w.(db := RequestExecution(w.db, p, key, execution, now).db);
    assert SliceOk(w, p);
    if next.db != w.db {
      RequestView(w.db, p, key, execution, now);
      RequestOk(p, ViewOf(w.db, p), execution, now);
      NobodyWorks(w, p);
      hide Tables, WorkerOk, RepliesOk, RequestExecution, ViewOf, ViewOk;
      assert SliceOk(next, p);
      hide SliceOk, CallsOk, WorldOk;
      ClientStep(w, next, p);
    } else {
      assert next == w;
    }
  }

  lemma RequestKeepsOk(w: World, p: Id, key: Id, execution: Id, now: real)
    requires WorldOk(w)
    ensures WorldOk(Go(w, Request(p, key, execution, now)))
  {
    var outcome := RequestExecution(w.db, p, key, execution, now);
    assert Tables(w.db);
    if outcome.reply.Ok? { RequestReply(w.db, p, key, execution, now); }
    hide WorldOk, RequestExecution, Tables;
    RequestRowsKeepOk(w, p, key, execution, now);
    AnswerKeepsOk(w.(db := outcome.db), Scope(p, ExecutionEndpoint, key), outcome.reply);
  }

  lemma RereadKeepsOk(w: World, p: Id, key: Id)
    requires WorldOk(w)
    ensures WorldOk(Go(w, RereadRequest(p, key)))
  {
    AnswerKeepsOk(w, Scope(p, ExecutionEndpoint, key), ReplayExecution(w.db, p, key));
  }

  lemma SpawnAndCrashKeepOk(w: World, x: Id, pc: Pc)
    requires WorldOk(w) && (pc.Claiming? || pc.Stopped?)
    ensures WorldOk(w.(workers := w.workers[x := pc]))
  {
    hide Tables;
    var next := w.(workers := w.workers[x := pc]);
    forall p ensures SliceOk(next, p) { assert SliceOk(w, p); }
    forall y | y in next.workers ensures WorkerOk(next, y) { if y != x { assert WorkerOk(w, y); } }
  }

  /** The rows behind what a worker relies on. */
  lemma WorkerIsLinked(w: World, x: Id)
    requires WorldOk(w) && x in w.workers && Active(w.workers[x])
    ensures var pc := w.workers[x]; var v := ViewOf(w.db, pc.p);
            && SliceOk(w, pc.p) && PcOk(v, pc, Calls(w.executed, pc.p), Calls(w.verified, pc.p))
            && v.proposal.Some? && v.execution.Some?
            && Linked(w.db, pc.p, pc.e, v.proposal.value.status, v.execution.value.1.status)
            && (v.verification.None? <==> pc.e !in w.db.verifications)
            && forall y | y in w.workers && y != x && Active(w.workers[y]) :: w.workers[y].p != pc.p
  {
    hide RepliesOk;
    assert SliceOk(w, w.workers[x].p) && WorkerOk(w, x);
  }

  lemma ClaimKeepsOk(w: World, x: Id)
    requires WorldOk(w) && x in w.workers && w.workers[x].Claiming?
    ensures WorldOk(Go(w, Work(x, Done)))
  {
    var p := w.workers[x].p;
    var next := Go(w, Work(x, Done));
    assert SliceOk(w, p);
    if next.db == w.db {
      ClaimUnchanged(w.db, p);
      hide WorldOk, ClaimExecution;
      SpawnAndCrashKeepOk(w, x, Stopped);
    } else {
      ClaimView(w.db, p);
      ClaimOk(p, ViewOf(w.db, p), Calls(w.executed, p), Calls(w.verified, p));
      NobodyWorks(w, p);
      hide Tables, RepliesOk, ClaimExecution, ViewOf, ViewOk, CallsOk, PcOk;
      var pc := CallingExecute(p, ViewOf(w.db, p).execution.value.0);
      assert SliceOk(next, p);
      assert WorkerOk(next, x);
      hide WorkerOk;
      WorkerMove(w, next, p, x, pc);
    }
  }

  lemma CalledOk(p: Id, e: Id, v: View, executed: nat, verified: nat)
    requires ViewOk(p, v) && CallsOk(v, executed, verified)
    ensures PcOk(v, CallingExecute(p, e), executed, verified) ==>
              CallsOk(v, executed + 1, verified) && PcOk(v, Recording(p, e), executed + 1, verified)
              && PcOk(v, Ending(p, e, true), executed + 1, verified) && PcOk(v, Ending(p, e, false), executed + 1, verified)
    ensures PcOk(v, CallingVerify(p, e), executed, verified) ==>
              CallsOk(v, executed, verified + 1)
              && PcOk(v, EndingVerified(p, e), executed, verified + 1) && PcOk(v, EndingUnverified(p, e), executed, verified + 1)
  {
  }

  /** Calling the executor changes no row, and the call counts of one proposal only. */
  lemma CallIsLocal(w: World, x: Id, attempt: Attempt)
    requires Tables(w.db) && x in w.workers && (w.workers[x].CallingExecute? || w.workers[x].CallingVerify?)
    ensures var pc, next := w.workers[x], Go(w, Work(x, attempt));
            && next.db == w.db && StepOn(w, next, pc.p) && next.replies == w.replies
            && Calls(next.executed, pc.p) == Calls(w.executed, pc.p) + (if pc.CallingExecute? then 1 else 0)
            && Calls(next.verified, pc.p) == Calls(w.verified, pc.p) + (if pc.CallingVerify? then 1 else 0)
  {
    hide Tables, ViewOf, Calls;
    var pc := w.workers[x];
    forall q
      ensures Calls(w.executed + [pc.p], q) == Calls(w.executed, q) + if pc.p == q then 1 else 0
      ensures Calls(w.verified + [pc.p], q) == Calls(w.verified, q) + if pc.p == q then 1 else 0
    {
      OneMoreCall(w.executed, pc.p, q);
      OneMoreCall(w.verified, pc.p, q);
    }
  }

  lemma CallKeepsOk(w: World, x: Id, attempt: Attempt)
    requires WorldOk(w) && x in w.workers && (w.workers[x].CallingExecute? || w.workers[x].CallingVerify?)
    ensures WorldOk(Go(w, Work(x, attempt)))
  {
    var pc := w.workers[x];
    var next := Go(w, Work(x, attempt));
    WorkerIsLinked(w, x);
    CalledOk(pc.p, pc.e, ViewOf(w.db, pc.p), Calls(w.executed, pc.p), Calls(w.verified, pc.p));
    assert SliceOk(w, pc.p);
    CallIsLocal(w, x, attempt);
    hide Tables, RepliesOk, ViewOf, Calls, ViewOk, CallsOk, PcOk, Linked, StepOn, WorldOk;
    assert SliceOk(next, pc.p);
    assert WorkerOk(next, x);
    hide WorkerOk, SliceOk;
    WorkerMove(w, next, pc.p, x, next.workers[x]);
  }

  /** A worker's transaction turns its proposal's rows into `v` and leaves it at `pc`. */
  lemma TransactionKeepsOk(w: World, x: Id, next: World, v: View, pc: Pc)
    requires WorldOk(w) && x in w.workers && Active(w.workers[x])
    requires var p := w.workers[x].p;
             && Turns(w.db, next.db, p, v)
             && ViewOk(p, v) && CallsOk(v, Calls(w.executed, p), Calls(w.verified, p))
             && (Active(pc) ==> pc.p == p && PcOk(v, pc, Calls(w.executed, p), Calls(w.verified, p)))
    requires next == w.(db := next.db, workers := w.workers[x := pc])
    ensures WorldOk(next)
  {
    var p := w.workers[x].p;
    hide Tables, RepliesOk, ViewOf, Calls, ViewOk, CallsOk, PcOk, Linked;
    assert StepOn(w, next, p);
    assert SliceOk(next, p);
    assert WorkerOk(next, x);
    hide WorkerOk, SliceOk, StepOn;
    WorkerMove(w, next, p, x, pc);
  }

  /** What a worker at `pc` can be sure of, in the form the transaction lemmas take it. */
  lemma WorkerFacts(w: World, x: Id)
    requires WorldOk(w) && x in w.workers && Active(w.workers[x])
    ensures var pc := w.workers[x]; var p, v := pc.p, ViewOf(w.db, pc.p);
            && ViewOk(p, v) && CallsOk(v, Calls(w.executed, p), Calls(w.verified, p)) && PcOk(v, pc, Calls(w.executed, p), Calls(w.verified, p))
            && (pc.Recording? || pc.Ending? ==> Linked(w.db, p, pc.e, Executing, Running))
            && (pc.Starting? ==> Linked(w.db, p, pc.e, Executing, ExecutionSucceeded))
            && (pc.EndingVerified? || pc.EndingUnverified? ==>
                  Linked(w.db, p, pc.e, Verifying, ExecutionSucceeded) && pc.e !in w.db.verifications)
  {
    WorkerIsLinked(w, x);
    hide Tables, Calls, ViewOf, WorldOk, LogOk, ApprovalOk, Linked;
  }

  lemma RecordKeepsOk(w: World, x: Id)
    requires WorldOk(w) && x in w.workers && w.workers[x].Recording?
    ensures WorldOk(Go(w, Work(x, Done)))
  {
    hide Tables, Calls, ViewOf, ViewOk, CallsOk, PcOk, Linked, WorldOk, RecordSuccess;
    var p, e := w.workers[x].p, w.workers[x].e;
    WorkerFacts(w, x);
    RecordView(w.db, p, e);
    RecordOk(p, e, ViewOf(w.db, p), Calls(w.executed, p), Calls(w.verified, p));
    TransactionKeepsOk(w, x, Go(w, Work(x, Done)), ViewOf(RecordSuccess(w.db, p, e).db, p), Starting(p, e));
  }

  lemma StartKeepsOk(w: World, x: Id)
    requires WorldOk(w) && x in w.workers && w.workers[x].Starting?
    ensures WorldOk(Go(w, Work(x, Done)))
  {
    hide Tables, Calls, ViewOf, ViewOk, CallsOk, PcOk, Linked, WorldOk, StartVerification;
    var p, e := w.workers[x].p, w.workers[x].e;
    WorkerFacts(w, x);
    StartView(w.db, p, e);
    StartOk(p, e, ViewOf(w.db, p), Calls(w.executed, p), Calls(w.verified, p));
    TransactionKeepsOk(w, x, Go(w, Work(x, Done)), ViewOf(StartVerification(w.db, p).db, p), CallingVerify(p, e));
  }

  lemma EndKeepsOk(w: World, x: Id)
    requires WorldOk(w) && x in w.workers && w.workers[x].Ending?
    ensures WorldOk(Go(w, Work(x, Done)))
  {
    hide Tables, Calls, ViewOf, ViewOk, CallsOk, PcOk, Linked, WorldOk, FinishExecution;
    var p, e, blocked := w.workers[x].p, w.workers[x].e, w.workers[x].blocked;
    WorkerFacts(w, x);
    EndView(w.db, p, e, blocked);
    EndOk(p, e, ViewOf(w.db, p), Calls(w.executed, p), Calls(w.verified, p), blocked);
    TransactionKeepsOk(w, x, Go(w, Work(x, Done)), ViewOf(FinishExecution(w.db, p, e, blocked).db, p), Stopped);
  }

  lemma VerdictKeepsOk(w: World, x: Id)
    requires WorldOk(w) && x in w.workers && (w.workers[x].EndingVerified? || w.workers[x].EndingUnverified?)
    ensures WorldOk(Go(w, Work(x, Done)))
  {
    hide Tables, Calls, ViewOf, ViewOk, CallsOk, PcOk, Linked, WorldOk, FinishVerified, FinishVerificationFailed;
    var p, e, passed := w.workers[x].p, w.workers[x].e, w.workers[x].EndingVerified?;
    var next := Go(w, Work(x, Done));
    WorkerFacts(w, x);
    VerdictView(w.db, p, e, passed);
    VerdictOk(p, e, ViewOf(w.db, p), Calls(w.executed, p), Calls(w.verified, p), passed);
    TransactionKeepsOk(w, x, next, ViewOf(next.db, p), Stopped);
  }

  lemma GoKeepsOk(w: World, move: Move)
    requires WorldOk(w)
    ensures WorldOk(Go(w, move))
  {
    hide WorldOk;
    match move
    case CreateProposal(p, digest) => CreateKeepsOk(w, p, digest);
    case DecideOn(p, approve, comment, key, approval, now) => DecideKeepsOk(w, p, approve, comment, key, approval, now);
    case Request(p, key, execution, now) => RequestKeepsOk(w, p, key, execution, now);
    case RereadRequest(p, key) => RereadKeepsOk(w, p, key);
    case Spawn(x, p) => if x !in w.workers { SpawnAndCrashKeepOk(w, x, Claiming(p)); }
    case Crash(x) => SpawnAndCrashKeepOk(w, x, Stopped);
    case Work(x, attempt) =>
      if x in w.workers {
        match w.workers[x]
        case Claiming(p) => ClaimKeepsOk(w, x);
        case CallingExecute(p, e) => CallKeepsOk(w, x, attempt);
        case CallingVerify(p, e) => CallKeepsOk(w, x, attempt);
        case Recording(p, e) => RecordKeepsOk(w, x);
        case Starting(p, e) => StartKeepsOk(w, x);
        case Ending(p, e, blocked) => EndKeepsOk(w, x);
        case Stopped =>
        case _ => VerdictKeepsOk(w, x);
      }
  }

  lemma {:induction false} PlayKeepsOk(w: World, moves: seq<Move>)
    requires WorldOk(w)
    ensures WorldOk(Play(w, moves))
    decreases |moves|
  {
    hide WorldOk;
    if moves != [] {
      GoKeepsOk(w, moves[0]);
      PlayKeepsOk(Go(w, moves[0]), moves[1..]);
    }
  }

  lemma Reachable(moves: seq<Move>)
    ensures WorldOk(Play(INITIAL, moves))
  {
    assert WorldOk(INITIAL);
    PlayKeepsOk(INITIAL, moves);
  }

  // ----- over every run, with crashes anywhere

  const FULL_TRACE := [ProposalCreated, ApprovalRecorded, ExecutionRequested, ExecutionStarted, PreconditionChecked,
                       ExecutionCompleted, VerificationStarted, VerificationCompleted]

  /**
   In every reachable state a proposal's log is determined by its own and its execution's status,
   only the listed pairs of statuses occur, and a verified proposal has exactly the eight events
   of a complete repair, in order, numbered from 1.
   */
  lemma LogIsDeterminedByStatus(moves: seq<Move>, p: Id)
    requires p in Play(INITIAL, moves).db.proposals
    ensures var db := Play(INITIAL, moves).db; var s, e := db.proposals[p].status, StatusOf(ViewOf(db, p));
            && p in db.events && Kinds(db.events[p]) == Trace(s, e) && Numbered(db.events[p]) && Paired(s, e)
            && db.proposals[p].nextSequence == |db.events[p]| + 1
            && (s == Verified <==> Kinds(db.events[p]) == FULL_TRACE)
  {
    Reachable(moves);
    hide Play, CallsOk, RepliesOk;
    assert SliceOk(Play(INITIAL, moves), p);
  }

  /** No two pairs of statuses share a log, so the log tells the statuses back (approved and rejected aside). */
  lemma LogTellsTheStatus(s: ProposalStatus, e: Option<ExecutionStatus>, t: ProposalStatus, f: Option<ExecutionStatus>)
    requires Paired(s, e) && Paired(t, f) && Trace(s, e) == Trace(t, f)
    ensures (s == t && e == f) || (s in {Approved, Rejected} && t in {Approved, Rejected})
  {
    assert |Trace(s, e)| == |Trace(t, f)|;
    assert Trace(s, e)[|Trace(s, e)| - 1] == Trace(t, f)[|Trace(t, f)| - 1];
  }

  /**
   The executor runs a proposal's action at most once and its check at most once; only with an
   approve decision over the proposal's own digest, and with the execution requested strictly
   before that approval expired; the check only for a succeeded execution.
   */
  lemma ExecutedAtMostOnce(moves: seq<Move>, p: Id)
    ensures var w := Play(INITIAL, moves);
            && Calls(w.executed, p) <= 1 && Calls(w.verified, p) <= Calls(w.executed, p)
            && (Calls(w.executed, p) == 1 ==>
                  && p in w.db.proposals && p in w.db.approvals && p in w.db.executionOf && w.db.executionOf[p] in w.db.executions
                  && w.db.approvals[p].approve && w.db.approvals[p].digest == w.db.proposals[p].digest
                  && w.db.executions[w.db.executionOf[p]].createdAt < w.db.approvals[p].at + APPROVAL_VALIDITY_SECONDS)
            && (Calls(w.verified, p) == 1 ==> w.db.executions[w.db.executionOf[p]].status == ExecutionSucceeded)
  {
    Reachable(moves);
    hide Play, RepliesOk, LogOk;
    assert SliceOk(Play(INITIAL, moves), p);
  }

  /** At the very step that calls the executor, the rows already allow the call. */
  lemma CallsAreAllowed(moves: seq<Move>, move: Move)
    ensures var w := Play(INITIAL, moves); var next := Go(w, move);
            && (next.executed != w.executed ==>
                  exists p :: next.executed == w.executed + [p] && p !in w.executed && MayExecute(w.db, p))
            && (next.verified != w.verified ==>
                  exists p :: next.verified == w.verified + [p] && p !in w.verified && MayVerify(w.db, p))
  {
    Reachable(moves);
    var w := Play(INITIAL, moves);
    hide Play;
    if move.Work? && move.w in w.workers && (w.workers[move.w].CallingExecute? || w.workers[move.w].CallingVerify?) {
      var pc := w.workers[move.w];
      WorkerIsLinked(w, move.w);
      NoCalls(w.executed, pc.p);
      NoCalls(w.verified, pc.p);
      hide LogOk, RepliesOk, CallsOk, Calls;
      assert pc.CallingExecute? ==> MayExecute(w.db, pc.p);
      assert pc.CallingVerify? ==> MayVerify(w.db, pc.p);
    }
  }

  ghost predicate MayExecute(db: Db, p: Id) {
    && p in db.proposals && p in db.approvals && p in db.executionOf && db.executionOf[p] in db.executions
    && db.proposals[p].status == Executing && db.executions[db.executionOf[p]].status == Running
    && db.approvals[p].approve && db.approvals[p].digest == db.proposals[p].digest
    && db.executions[db.executionOf[p]].createdAt < db.approvals[p].at + APPROVAL_VALIDITY_SECONDS
  }

  ghost predicate MayVerify(db: Db, p: Id) {
    && p in db.proposals && p in db.executionOf && db.executionOf[p] in db.executions
    && db.proposals[p].status == Verifying && db.executions[db.executionOf[p]].status == ExecutionSucceeded
  }

  lemma {:induction false} NoCalls(calls: seq<Id>, p: Id)
    ensures Calls(calls, p) == 0 <==> p !in calls
    decreases |calls|
  {
    if calls != [] {
      NoCalls(calls[..|calls| - 1], p);
      assert calls == calls[..|calls| - 1] + [calls[|calls| - 1]];
    }
  }

  /** Whoever gets an execution for a proposal, by whatever key and however often, gets the same one. */
  lemma RepliesAgree(moves: seq<Move>, i: nat, j: nat)
    requires i < |Play(INITIAL, moves).replies| && j < |Play(INITIAL, moves).replies|
    requires Play(INITIAL, moves).replies[i].0.proposal == Play(INITIAL, moves).replies[j].0.proposal
    ensures Play(INITIAL, moves).replies[i].1 == Play(INITIAL, moves).replies[j].1
  {
    Reachable(moves);
    hide Play, Tables, SliceOk;
    var w := Play(INITIAL, moves);
    assert var (scope, e) := w.replies[i]; w.db.executionOf[scope.proposal] == e;
    assert var (scope, e) := w.replies[j]; w.db.executionOf[scope.proposal] == e;
  }

  /** Once a key has answered, asking again with it gives that execution, in every later state. */
  lemma KeyAnswersTheSame(moves: seq<Move>, i: nat, execution: Id, now: real)
    requires i < |Play(INITIAL, moves).replies|
    ensures var w := Play(INITIAL, moves); var (scope, e) := w.replies[i];
            && RequestExecution(w.db, scope.proposal, scope.key, execution, now).reply == Ok(e)
            && RequestExecution(w.db, scope.proposal, scope.key, execution, now).db == w.db
            && ReplayExecution(w.db, scope.proposal, scope.key) == Ok(e)
  {
    Reachable(moves);
    hide Play, SliceOk;
    var w := Play(INITIAL, moves);
    var (scope, e) := w.replies[i];
    assert scope in w.db.keys && w.db.keys[scope].resource == e;
    assert scope == Scope(scope.proposal, ExecutionEndpoint, scope.key);
  }

  /** The compare-and-sets whose outcome the source ignores do take place whenever a worker reaches them. */
  lemma IgnoredOutcomesAreSuccesses(moves: seq<Move>, x: Id)
    requires var w := Play(INITIAL, moves); x in w.workers && (w.workers[x].Ending? || w.workers[x].EndingUnverified?)
    ensures var w := Play(INITIAL, moves); var pc := w.workers[x];
            if pc.Ending? then
              && SetExecution(w.db, pc.e, Running, if pc.blocked then ExecutionBlocked else ExecutionFailed).Some?
              && SetProposal(w.db, pc.p, Executing, if pc.blocked then Blocked else Failed).Some?
            else pc.e !in w.db.verifications && SetProposal(w.db, pc.p, Verifying, Failed).Some?
  {
    Reachable(moves);
    hide Play;
    WorkerIsLinked(Play(INITIAL, moves), x);
    hide LogOk, RepliesOk, Calls, Tables;
  }
}
