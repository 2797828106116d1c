/**
 The legacy diagnosis worker (`_execute_legacy`): it looks whether the run was cancelled and
 then appends in a separate transaction, so a cancel can fall in between. Storage does not fail
 here; every other actor (clients, cancellers, main-agent workers, message edits) is arbitrary.
 */
module LegacyWorker {
  import opened Wrappers
  import MI = MainInput
  import opened MainDelivery
  import opened RunLifecycle
  import opened RunHistory

  /** Where a diagnosis run's worker is: polling its executor, or between check and append. */
  datatype Pc = Polling | Checked(kind: EventType) | Stopped

  datatype World = World(db: Db, workers: map<Id, Pc>)

  datatype Move =
    | Environment(step: Step)
    | Start(r: Id)
    | Check(r: Id, kind: EventType)
    | Append(r: Id)
    | Succeed(r: Id, resultRun: Id, summary: string, m: Id)
    | GiveUp(r: Id, code: string)

  /** What the rest of the system may do while diagnosis workers run. */
  predicate Outside(db: Db, step: Step) {
    match step
    case DoCommit(n) => n.scope.session in db.sessions
    case DoAppendAlways(_, _) => false
    case DoCompleteDiagnosis(_, _, _, _) => false
    case DoClaim(r) => r in db.runs && db.runs[r].kind == MainAgent
    case DoFail(r, _) => r in db.runs && db.runs[r].kind == MainAgent
    case _ => true
  }

  predicate AtPoll(w: World, r: Id) { r in w.workers && w.workers[r] == Polling && r in w.db.runs }

  function Go(w: World, move: Move): World {
    match move
    case Environment(step) =>
      if Outside(w.db, step) then w.(db := Next(w.db, step)) else w
    case Start(r) =>
      if !(r in w.db.runs && w.db.runs[r].kind == Diagnosis) then w
      else
        // A claim that raises is turned into a failure; a lost claim ends the worker at once.
        (match Claim(w.db, r).reply
         case Err(_) => w.(db := Next(w.db, DoFail(r, "DIAGNOSIS_FAILED")))
         case Ok(claimed) => if claimed then World(Next(w.db, DoClaim(r)), w.workers[r := Polling]) else w)
    case Check(r, kind) =>
      if AtPoll(w, r)
      then w.(workers := w.workers[r := if w.db.runs[r].status == Cancelled then Stopped else Checked(kind)]) else w
    case Append(r) =>
      if r in w.workers && w.workers[r].Checked?
      then World(Next(w.db, DoAppendAlways(r, w.workers[r].kind)), w.workers[r := Polling]) else w
    case Succeed(r, resultRun, summary, m) =>
      if !AtPoll(w, r) then w
      else
        // An exception while completing makes the worker write the failure itself.
        World(if CompleteDiagnosis(w.db, r, resultRun, summary, m).reply.Ok?
              then Next(w.db, DoCompleteDiagnosis(r, resultRun, summary, m))
              else Next(w.db, DoFail(r, "DIAGNOSIS_FAILED")), w.workers[r := Stopped])
    case GiveUp(r, code) =>
      if AtPoll(w, r) then World(Next(w.db, DoFail(r, code)), w.workers[r := Stopped]) else w
  }

  function Play(w: World, moves: seq<Move>): World
    decreases |moves|
  {
    if moves == [] then w else Play(Go(w, moves[0]), moves[1..])
  }

  const INITIAL := World(EMPTY, map[])

  /** The service's terminal row is followed by exactly `n` more rows. */
  ghost predicate Tail(es: seq<Event>, n: nat) {
    n < |es| && ServiceTerminal(es[|es| - 1 - n])
  }

  /** How one diagnosis run, its log and its worker fit together. */
  ghost predicate Fits(run: Run, es: seq<Event>, worker: Option<Pc>) {
    && (worker.Some? ==> |es| > 1 && es[1] == Event(2, RunStarted, Service))
    && (run.status == Queued ==> worker.None?)
    && (run.status == Running <==> worker.Some? && worker.value != Stopped && run.status != Cancelled)
    && (run.status in {Succeeded, Failed} ==> Tail(es, 0))
    && (run.status == Cancelled ==> Tail(es, 0) || (Tail(es, 1) && worker.Some? && !worker.value.Checked?))
  }

  function WorkerOf(w: World, r: Id): Option<Pc> {
    if r in w.workers then Some(w.workers[r]) else None
  }

  ghost predicate RunFits(w: World, r: Id)
    requires r in w.db.runs && r in w.db.events
  {
    Fits(w.db.runs[r], w.db.events[r], WorkerOf(w, r))
  }

  ghost predicate SessionsPresent(db: Db) {
    forall r | r in db.runs :: db.runs[r].session in db.sessions
  }

  ghost predicate WorldOk(w: World) {
    && Inv(w.db) && SessionsPresent(w.db)
    && (forall r | r in w.workers :: r in w.db.runs && w.db.runs[r].kind == Diagnosis)
    && forall r | r in w.db.runs && w.db.runs[r].kind == Diagnosis :: RunFits(w, r)
  }

  // ----- what a step leaves alone

  lemma SessionsStay(db: Db, step: Step)
    requires SessionsPresent(db) && (step.DoCommit? ==> step.n.scope.session in db.sessions)
    ensures SessionsPresent(Next(db, step))
  {
    if step.DoCommit? {
      hide Proper;
    } else if Target(step).Some? {
      hide Next;
      StepTouches(db, step);
    } else {
      hide Next;
      UntargetedStep(db, step);
    }
  }

  // ----- each move keeps the world in order

  lemma CancelFits(db: Db, r: Id, worker: Option<Pc>)
    requires r in db.runs && r in db.events && Fits(db.runs[r], db.events[r], worker)
    ensures var next := Cancel(db, r).db; r in next.runs && r in next.events && Fits(next.runs[r], next.events[r], worker)
  {
  }

  lemma OutsideFits(w: World, step: Step, r: Id)
    requires Outside(w.db, step) && r in w.db.runs && r in w.db.events && w.db.runs[r].kind == Diagnosis && RunFits(w, r)
    ensures var next := w.(db := Next(w.db, step)); r in next.db.runs && r in next.db.events && RunFits(next, r)
  {
    hide DeliveryAccepted, Proper, InputMessageOk, Claimed, Fits;
    if Target(step) != Some(r) {
      OthersUntouched(w.db, step, r);
    } else if step.DoCancel? {
      CancelFits(w.db, r, WorkerOf(w, r));
    } else {
      assert Next(w.db, step) == w.db;
    }
  }

  /** A run that appears is queued and has no worker yet. */
  lemma OutsideSessionsStay(db: Db, step: Step)
    requires SessionsPresent(db) && Outside(db, step)
    ensures SessionsPresent(Next(db, step))
  {
    hide SessionsPresent, Next;
    SessionsStay(db, step);
  }

  lemma AppearingFits(w: World, step: Step, r: Id)
    requires Inv(w.db) && r !in w.workers && r !in w.db.runs && r in Next(w.db, step).runs
    ensures var next := w.(db := Next(w.db, step)); r in next.db.events && RunFits(next, r)
  {
    hide DeliveryAccepted, Proper, InputMessageOk, Claimed, Inv;
    InvTables(w.db);
    if Target(step) != Some(r) {
      OthersUntouched(w.db, step, r);
    }
  }

  lemma KindStays(db: Db, step: Step, r: Id)
    requires Inv(db) && r in db.runs
    ensures r in Next(db, step).runs && Next(db, step).runs[r].kind == db.runs[r].kind
  {
    NextExtends(db, step);
    assert RunKept(db, Next(db, step), r);
  }

  lemma EnvironmentKeepsOk(w: World, step: Step)
    requires WorldOk(w) && Outside(w.db, step)
    ensures WorldOk(w.(db := Next(w.db, step)))
  {
    hide RunFits, Next, Outside;
    var next := w.(db := Next(w.db, step));
    NextKeepsInv(w.db, step);
    OutsideSessionsStay(w.db, step);
    forall r | r in next.db.runs && next.db.runs[r].kind == Diagnosis
      ensures RunFits(next, r)
    {
      if r in w.db.runs {
        KindStays(w.db, step, r);
        OutsideFits(w, step, r);
      } else {
        AppearingFits(w, step, r);
      }
    }
    forall r | r in w.workers
      ensures r in next.db.runs && next.db.runs[r].kind == Diagnosis
    {
      KindStays(w.db, step, r);
    }
  }

  /** The world after a worker's step on its own run. */
  function Moved(w: World, step: Step, r: Id, worker: Option<Pc>): World {
    World(Next(w.db, step), if worker.Some? then w.workers[r := worker.value] else w.workers)
  }

  lemma OthersStillFit(w: World, step: Step, r: Id, worker: Option<Pc>, q: Id)
    requires Inv(w.db) && q != r && Target(step) == Some(r) && !step.DoCommit?
    requires q in Moved(w, step, r, worker).db.runs
    ensures q in w.db.runs && q in w.db.events && q in Moved(w, step, r, worker).db.events
    ensures w.db.runs[q] == Moved(w, step, r, worker).db.runs[q]
    ensures RunFits(w, q) ==> RunFits(Moved(w, step, r, worker), q)
  {
    hide Next, Fits;
    OthersUntouched(w.db, step, q);
  }

  /** A worker's own step about its own run: only that run has to be looked at. */
  lemma OwnStepKeepsOk(w: World, step: Step, r: Id, worker: Option<Pc>)
    requires WorldOk(w) && r in w.db.runs && w.db.runs[r].kind == Diagnosis
    requires Target(step) == Some(r) && !step.DoCommit?
    requires var next := Moved(w, step, r, worker); r in next.db.runs && r in next.db.events && RunFits(next, r)
    ensures WorldOk(Moved(w, step, r, worker))
  {
    hide Next, RunFits, SessionsPresent, Inv;
    var next := Moved(w, step, r, worker);
    NextKeepsInv(w.db, step);
    SessionsStay(w.db, step);
    KindStays(w.db, step, r);
    forall q | q in next.db.runs && next.db.runs[q].kind == Diagnosis
      ensures q in next.db.events && RunFits(next, q)
    {
      if q != r { OthersStillFit(w, step, r, worker, q); }
    }
    forall q | q in next.workers
      ensures q in next.db.runs && next.db.runs[q].kind == Diagnosis
    {
      if q != r { KindStays(w.db, step, q); }
    }
  }

  lemma QueuedLog(db: Db, r: Id)
    requires Inv(db) && r in db.runs && db.runs[r].status == Queued
    ensures r in db.events && |db.events[r]| == 1 && db.runs[r].nextSequence == 2
  {
    hide PayloadOk;
    assert RunOk(r, ViewOf(db, r));
  }

  lemma StartFits(db: Db, r: Id)
    requires r in db.runs && r in db.events && |db.events[r]| == 1 && db.runs[r].nextSequence == 2
    requires Claim(db, r).reply == Ok(true)
    ensures var next := Claim(db, r).db; r in next.runs && r in next.events && Fits(next.runs[r], next.events[r], Some(Polling))
  {
    hide InputMessageOk, Tail;
  }

  lemma FailFits(db: Db, r: Id, worker: Option<Pc>, code: string)
    requires r in db.runs && r in db.events && Fits(db.runs[r], db.events[r], worker) && db.runs[r].session in db.sessions
    requires worker == None || worker == Some(Polling)
    ensures var next := Fail(db, r, code).db;
            r in next.runs && r in next.events
            && Fits(next.runs[r], next.events[r], if worker.None? then None else Some(Stopped))
  {
  }

  lemma CompleteFits(db: Db, r: Id, resultRun: Id, summary: string, m: Id)
    requires r in db.runs && r in db.events && Fits(db.runs[r], db.events[r], Some(Polling))
    requires CompleteDiagnosis(db, r, resultRun, summary, m).reply.Ok?
    ensures var next := CompleteDiagnosis(db, r, resultRun, summary, m).db;
            r in next.runs && r in next.events && Fits(next.runs[r], next.events[r], Some(Stopped))
  {
  }

  /** The one append that may come after a cancel. */
  lemma AppendFits(db: Db, r: Id, kind: EventType)
    requires r in db.runs && r in db.events && Fits(db.runs[r], db.events[r], Some(Checked(kind)))
    ensures var next := AddEvent(db, r, kind, Executor);
            Fits(next.runs[r], next.events[r], Some(Polling))
  {
    var es := db.events[r];
    var next := AddEvent(db, r, kind, Executor);
    assert db.runs[r].status in {Running, Cancelled};
    assert next.events[r][|es| - 1] == es[|es| - 1];
  }

  lemma StartKeepsOk(w: World, r: Id)
    requires WorldOk(w)
    ensures WorldOk(Go(w, Start(r)))
  {
    hide RunOk, Fail;
    var next := Go(w, Start(r));
    if r in w.db.runs && w.db.runs[r].kind == Diagnosis && next != w {
      assert if Claim(w.db, r).reply.Err? then WorkerOf(w, r) == None else w.db.runs[r].status == Queued;
      hide Fits, Claim;
      if Claim(w.db, r).reply.Err? {
        FailFits(w.db, r, None, "DIAGNOSIS_FAILED");
        OwnStepKeepsOk(w, DoFail(r, "DIAGNOSIS_FAILED"), r, None);
      } else {
        QueuedLog(w.db, r);
        StartFits(w.db, r);
        OwnStepKeepsOk(w, DoClaim(r), r, Some(Polling));
      }
    }
  }

  lemma AppendKeepsOk(w: World, r: Id)
    requires WorldOk(w)
    ensures WorldOk(Go(w, Append(r)))
  {
    hide RunOk;
    if r in w.workers && w.workers[r].Checked? {
      var kind := w.workers[r].kind;
      assert RunFits(w, r) && Claimed(w.db, r);
      assert r in AddEvent(w.db, r, kind, Executor).runs && r in AddEvent(w.db, r, kind, Executor).events;
      hide AddEvent;
      AppendFits(w.db, r, kind);
      hide Fits;
      assert Next(w.db, DoAppendAlways(r, kind)) == AddEvent(w.db, r, kind, Executor);
      OwnStepKeepsOk(w, DoAppendAlways(r, kind), r, Some(Polling));
    }
  }

  lemma FinishKeepsOk(w: World, move: Move)
    requires WorldOk(w) && (move.Succeed? || move.GiveUp?)
    ensures WorldOk(Go(w, move))
  {
    hide RunOk, Fits, Fail, CompleteDiagnosis;
    var r := move.r;
    if AtPoll(w, r) {
      assert RunFits(w, r);
      var next := Go(w, move);
      if move.GiveUp? {
        FailFits(w.db, r, Some(Polling), move.code);
        OwnStepKeepsOk(w, DoFail(r, move.code), r, Some(Stopped));
      } else if CompleteDiagnosis(w.db, r, move.resultRun, move.summary, move.m).reply.Ok? {
        CompleteFits(w.db, r, move.resultRun, move.summary, move.m);
        OwnStepKeepsOk(w, DoCompleteDiagnosis(r, move.resultRun, move.summary, move.m), r, Some(Stopped));
      } else {
        FailFits(w.db, r, Some(Polling), "DIAGNOSIS_FAILED");
        OwnStepKeepsOk(w, DoFail(r, "DIAGNOSIS_FAILED"), r, Some(Stopped));
      }
    }
  }

  /** Looking at a run moves its worker only; a cancelled run's worker stops. */
  lemma CheckFits(run: Run, es: seq<Event>, kind: EventType)
    requires Fits(run, es, Some(Polling))
    ensures Fits(run, es, Some(if run.status == Cancelled then Stopped else Checked(kind)))
  {
  }

  lemma WorkerMoveKeepsOk(w: World, r: Id, pc: Pc)
    requires WorldOk(w) && r in w.workers
    requires r in w.db.events && Fits(w.db.runs[r], w.db.events[r], Some(pc))
    ensures WorldOk(w.(workers := w.workers[r := pc]))
  {
    hide Inv, Fits, SessionsPresent;
    InvTables(w.db);
    var next := w.(workers := w.workers[r := pc]);
    forall q | q in next.db.runs && next.db.runs[q].kind == Diagnosis
      ensures q in next.db.events && RunFits(next, q)
    {
      assert RunFits(w, q);
      assert q != r ==> WorkerOf(next, q) == WorkerOf(w, q);
    }
  }

  lemma CheckKeepsOk(w: World, r: Id, kind: EventType)
    requires WorldOk(w)
    ensures WorldOk(Go(w, Check(r, kind)))
  {
    if AtPoll(w, r) {
      assert r in w.db.events && RunFits(w, r);
      CheckFits(w.db.runs[r], w.db.events[r], kind);
      hide WorldOk, Fits;
      WorkerMoveKeepsOk(w, r, if w.db.runs[r].status == Cancelled then Stopped else Checked(kind));
    }
  }

  lemma GoKeepsOk(w: World, move: Move)
    requires WorldOk(w)
    ensures WorldOk(Go(w, move))
  {
    match move
    case Environment(step) => if Outside(w.db, step) { EnvironmentKeepsOk(w, step); }
    case Start(r) => StartKeepsOk(w, r);
    case Check(r, kind) => CheckKeepsOk(w, r, kind);
    case Append(r) => AppendKeepsOk(w, r);
    case _ => FinishKeepsOk(w, move);
  }

  lemma {:induction false} PlayKeepsOk(w: World, moves: seq<Move>)
    requires WorldOk(w)
    ensures WorldOk(Play(w, moves))
    decreases |moves|
  {
    if moves != [] {
      GoKeepsOk(w, moves[0]);
      PlayKeepsOk(Go(w, moves[0]), moves[1..]);
    }
  }

  /**
   However cancels interleave with the worker's check and append, at most one event follows
   RUN_CANCELLED on a diagnosis run, and none follows RUN_SUCCEEDED or RUN_FAILED.
   */
  lemma AtMostOneEventAfterCancel(moves: seq<Move>, r: Id, k: nat)
    requires var db := Play(INITIAL, moves).db;
             r in db.runs && r in db.events && db.runs[r].kind == Diagnosis
             && k < |db.events[r]| && ServiceTerminal(db.events[r][k])
    ensures var db := Play(INITIAL, moves).db;
            |db.events[r]| - 1 - k <= if db.events[r][k].kind == RunCancelled then 1 else 0
  {
    EmptyInv();
    PlayKeepsOk(INITIAL, moves);
    hide Play;
    var w := Play(INITIAL, moves);
    assert RunFits(w, r);
    assert RunOk(r, ViewOf(w.db, r));
    LogRows(ViewOf(w.db, r));
  }

  const UNTIL_CHECK: seq<Move> :=
    [Environment(DoAddSession(1, [])), Environment(DoCommit(FIRST_RUN)), Start(5), Check(5, RouteDecided)]

  const CANCEL_IN_BETWEEN: seq<Move> := [Environment(DoCancel(5)), Append(5), Check(5, Report)]

  lemma StartedWorld()
    ensures var w := Play(INITIAL, UNTIL_CHECK);
            && w == World(ClaimedRun(), map[5 := Checked(RouteDecided)])
            && 1 in w.db.sessions
  {
    var w1 := Go(INITIAL, UNTIL_CHECK[0]);
    var w2 := Go(w1, UNTIL_CHECK[1]);
    assert w2 == World(Next(Next(EMPTY, DoAddSession(1, [])), DoCommit(FIRST_RUN)), map[]);
    var w3 := Go(w2, UNTIL_CHECK[2]);
    assert w3 == World(ClaimedRun(), map[5 := Polling]);
    var w4 := Go(w3, UNTIL_CHECK[3]);
    assert w4 == World(ClaimedRun(), map[5 := Checked(RouteDecided)]) by { ClaimedRunIs(); hide Next, ClaimedRun; }
    hide Go, ClaimedRun, Next;
    assert UNTIL_CHECK[1..][1..][1..][1..] == [];
    assert Play(w3, UNTIL_CHECK[1..][1..][1..]) == w4;
    assert Play(w2, UNTIL_CHECK[1..][1..]) == w4;
    assert Play(w1, UNTIL_CHECK[1..]) == w4;
  }

  lemma CancelThenAppend(db: Db)
    requires 5 in db.runs && 5 in db.events && db.runs[5].status == Running && db.runs[5].nextSequence == 3
    requires db.runs[5].kind == Diagnosis && db.runs[5].session in db.sessions
    requires db.events[5] == [Event(1, RunQueued, Service), Event(2, RunStarted, Service)]
    ensures var next := Next(Next(db, DoCancel(5)), DoAppendAlways(5, RouteDecided));
            && 5 in next.runs && 5 in next.events && next.runs[5].status == Cancelled
            && next.events[5] == [Event(1, RunQueued, Service), Event(2, RunStarted, Service),
                                  Event(3, RunCancelled, Service), Event(4, RouteDecided, Executor)]
  {
    var cancelled := Next(db, DoCancel(5));
    assert 5 in cancelled.runs && 5 in cancelled.events && cancelled.runs[5].kind == Diagnosis && Claimed(cancelled, 5);
  }

  /** The bound is reached: a cancel between check and append is followed by that one append. */
  lemma OneEventCanFollowCancel()
    ensures var w := Play(Play(INITIAL, UNTIL_CHECK), CANCEL_IN_BETWEEN);
            && 5 in w.db.runs && 5 in w.db.events && w.db.runs[5].status == Cancelled
            && w.db.events[5] == [Event(1, RunQueued, Service), Event(2, RunStarted, Service),
                                  Event(3, RunCancelled, Service), Event(4, RouteDecided, Executor)]
            && 5 in w.workers && w.workers[5] == Stopped
  {
    StartedWorld();
    ClaimedRunIs();
    var w := Play(INITIAL, UNTIL_CHECK);
    assert w.db.runs[5].session in w.db.sessions;
    hide ClaimedRun, Play, Next;
    CancelThenAppend(w.db);
    var w1 := Go(w, CANCEL_IN_BETWEEN[0]);
    var w2 := Go(w1, CANCEL_IN_BETWEEN[1]);
    assert w2 == World(Next(Next(w.db, DoCancel(5)), DoAppendAlways(5, RouteDecided)), w.workers[5 := Polling]);
    var w3 := Go(w2, CANCEL_IN_BETWEEN[2]);
    assert w3 == World(w2.db, w2.workers[5 := Stopped]);
    hide Go;
    PlayThree(w, CANCEL_IN_BETWEEN);
  }

  lemma PlayThree(w: World, moves: seq<Move>)
    requires |moves| == 3
    ensures Play(w, moves) == Go(Go(Go(w, moves[0]), moves[1]), moves[2])
  {
    hide Go;
    assert Play(Go(w, moves[0]), moves[1..]) == Play(Go(Go(w, moves[0]), moves[1]), moves[1..][1..]);
  }

  // ----- a run nobody disturbs

  /** A worker polls its running diagnosis run, whose log is `es`. */
  ghost predicate AtWork(w: World, r: Id, es: seq<Event>) {
    && r in w.db.runs && r in w.db.events && r in w.workers && w.workers[r] == Polling
    && w.db.runs[r].kind == Diagnosis && w.db.runs[r].status == Running && w.db.runs[r].session in w.db.sessions
    && w.db.events[r] == es && w.db.runs[r].nextSequence == |es| + 1 && r !in w.db.results
    && |es| > 1 && es[1] == Event(2, RunStarted, Service)
  }

  /** The moves of a worker whose executor reports events of these types, one check and one append each. */
  function Reporting(r: Id, kinds: seq<EventType>): seq<Move> {
    if kinds == [] then [] else [Check(r, kinds[0]), Append(r)] + Reporting(r, kinds[1..])
  }

  /** The rows they make, numbered from `first`. */
  function RowsOf(kinds: seq<EventType>, first: nat): seq<Event> {
    if kinds == [] then [] else [Event(first, kinds[0], Executor)] + RowsOf(kinds[1..], first + 1)
  }

  lemma {:induction false} OneReport(w: World, r: Id, es: seq<Event>, kind: EventType)
    requires AtWork(w, r, es)
    ensures var next := Go(Go(w, Check(r, kind)), Append(r));
            AtWork(next, r, es + [Event(|es| + 1, kind, Executor)]) && next.db.messages == w.db.messages
  {
    var checked := Go(w, Check(r, kind));
    assert checked == w.(workers := w.workers[r := Checked(kind)]);
    assert Claimed(w.db, r);
    hide Claimed;
    assert Next(w.db, DoAppendAlways(r, kind)) == AddEvent(w.db, r, kind, Executor);
    hide Next;
  }

  lemma {:induction false} PlayTwo(w: World, first: Move, second: Move, rest: seq<Move>)
    ensures Play(w, [first, second] + rest) == Play(Go(Go(w, first), second), rest)
  {
    hide Go;
    var moves := [first, second] + rest;
    assert moves[0] == first && moves[1..][0] == second && moves[1..][1..] == rest;
    assert Play(w, moves) == Play(Go(w, first), moves[1..]) == Play(Go(Go(w, first), second), rest);
  }

  lemma {:induction false} ReportsAreRows(w: World, r: Id, es: seq<Event>, kinds: seq<EventType>)
    requires AtWork(w, r, es)
    ensures var next := Play(w, Reporting(r, kinds));
            AtWork(next, r, es + RowsOf(kinds, |es| + 1)) && next.db.messages == w.db.messages
    decreases |kinds|
  {
    hide AtWork, Go, Play, RowsOf, Reporting;
    NoReports(w, r, |es| + 1);
    if kinds == [] {
      assert es + [] == es;
    } else {
      var row := Event(|es| + 1, kinds[0], Executor);
      ReportsUnfold(r, kinds, |es| + 1);
      OneReport(w, r, es, kinds[0]);
      PlayTwo(w, Check(r, kinds[0]), Append(r), Reporting(r, kinds[1..]));
      ReportsAreRows(Go(Go(w, Check(r, kinds[0])), Append(r)), r, es + [row], kinds[1..]);
      assert es + [row] + RowsOf(kinds[1..], |es| + 2) == es + ([row] + RowsOf(kinds[1..], |es| + 2));
    }
  }

  lemma NoReports(w: World, r: Id, first: nat)
    ensures Play(w, Reporting(r, [])) == w && RowsOf([], first) == []
  {
  }

  lemma {:induction false} ReportsUnfold(r: Id, kinds: seq<EventType>, first: nat)
    requires kinds != []
    ensures Reporting(r, kinds) == [Check(r, kinds[0]), Append(r)] + Reporting(r, kinds[1..])
    ensures RowsOf(kinds, first) == [Event(first, kinds[0], Executor)] + RowsOf(kinds[1..], first + 1)
  {
  }

  /** A queued diagnosis run, with its message and session in place. */
  ghost predicate Ready(w: World, r: Id) {
    && r in w.db.runs && r in w.db.events && r !in w.db.results && w.db.runs[r].kind == Diagnosis && w.db.runs[r].status == Queued
    && w.db.runs[r].session in w.db.sessions && InputMessageOk(w.db, w.db.runs[r])
    && w.db.runs[r].nextSequence == 2 && w.db.events[r] == [Event(1, RunQueued, Service)]
  }

  lemma {:induction false} StartClaims(w: World, r: Id)
    requires Ready(w, r)
    ensures AtWork(Go(w, Start(r)), r, [Event(1, RunQueued, Service), Event(2, RunStarted, Service)])
    ensures Go(w, Start(r)).db.messages == w.db.messages
  {
    hide InputMessageOk;
    assert [Event(1, RunQueued, Service)] + [Event(2, RunStarted, Service)] == [Event(1, RunQueued, Service), Event(2, RunStarted, Service)];
  }

  lemma {:induction false} SucceedEnds(w: World, r: Id, es: seq<Event>, summary: string, m: Id)
    requires AtWork(w, r, es) && m !in w.db.messages
    ensures var next := Go(w, Succeed(r, r, summary, m)).db;
            && r in next.runs && r in next.events && next.runs[r].status == Succeeded && r in next.results && next.results[r] == summary
            && next.events[r] == es + [Event(|es| + 1, RunSucceeded, Service)]
            && m in next.messages && next.messages[m] == Message(w.db.runs[r].session, Some(r), MI.Assistant, summary, false)
  {
  }

  lemma {:induction false} GiveUpEnds(w: World, r: Id, es: seq<Event>, code: string)
    requires AtWork(w, r, es)
    ensures var next := Go(w, GiveUp(r, code)).db;
            && r in next.runs && r in next.events && next.runs[r].status == Failed && next.runs[r].errorCode == Some(code)
            && next.events[r] == es + [Event(|es| + 1, RunFailed, Service)]
  {
  }

  /**
   A queued diagnosis run that nobody disturbs is claimed, reports every event of its executor in order and
   ends as the executor does: with its result and the answer message, or failed with the code.
   */
  lemma {:induction false} UndisturbedDiagnosisTellsItsStory(w: World, r: Id, kinds: seq<EventType>, summary: string, m: Id, code: string)
    requires Ready(w, r) && m !in w.db.messages
    ensures var before := Play(Go(w, Start(r)), Reporting(r, kinds));
            var log := [Event(1, RunQueued, Service), Event(2, RunStarted, Service)] + RowsOf(kinds, 3);
            var done, failed := Go(before, Succeed(r, r, summary, m)).db, Go(before, GiveUp(r, code)).db;
            && r in done.runs && r in done.events && done.runs[r].status == Succeeded && r in done.results && done.results[r] == summary
            && done.events[r] == log + [Event(|log| + 1, RunSucceeded, Service)]
            && m in done.messages && done.messages[m].run == Some(r) && done.messages[m].content == summary
            && r in failed.runs && r in failed.events && failed.runs[r].status == Failed && failed.runs[r].errorCode == Some(code)
            && failed.events[r] == log + [Event(|log| + 1, RunFailed, Service)]
  {
    hide Go, Play, AtWork, Ready, RowsOf;
    StartClaims(w, r);
    var rows := [Event(1, RunQueued, Service), Event(2, RunStarted, Service)];
    ReportsAreRows(Go(w, Start(r)), r, rows, kinds);
    var before := Play(Go(w, Start(r)), Reporting(r, kinds));
    SucceedEnds(before, r, rows + RowsOf(kinds, 3), summary, m);
    GiveUpEnds(before, r, rows + RowsOf(kinds, 3), code);
  }
}
