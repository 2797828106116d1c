/**
 The transactions of `RunApplicationService` as it performs them: reads, inserts, a
 compare-and-set and an event row, one after the other, undone together when one of them raises
 (backend/src/application/services.py). Each is proved against its atomic step.
 */
module RunService {
  import opened Wrappers
  import MI = MainInput
  import opened Capabilities
  import opened MainDelivery
  import opened RunLifecycle
  import opened RunAcceptance

  class RunApplicationService {
    var db: Db

    ghost predicate Valid()
      reads this
    {
      db.events.Keys == db.runs.Keys
    }

    constructor ()
      ensures Valid() && db == EMPTY
    {
      db := EMPTY;
    }

    // ----- the repository

    method TransitionStatus(r: Id, expected: set<Status>, status: Status, code: Option<string>) returns (updated: bool)
      requires Valid()
      modifies this
      ensures Valid()
      ensures Transition(old(db), r, expected, status, code) == if updated then Some(db) else None
      ensures !updated ==> db == old(db)
    {
      if r !in db.runs || db.runs[r].status !in expected { return false; }
      var run := db.runs[r].(status := status);
      if code.Some? { run := run.(errorCode := code); }
      db := db.(runs := db.runs[r := run]);
      return true;
    }

    /** Hands out the next sequence number of a run and advances it. */
    method ReserveEventSequence(r: Id) returns (sequence: Option<nat>)
      requires Valid()
      modifies this
      ensures Valid()
      ensures sequence.Some? <==> r in old(db).runs
      ensures sequence.None? ==> db == old(db)
      ensures sequence.Some? ==>
                var run := old(db).runs[r];
                sequence.value == run.nextSequence
                && db == old(db).(runs := old(db).runs[r := run.(nextSequence := run.nextSequence + 1)])
    {
      if r !in db.runs { return None; }
      var next := db.runs[r].nextSequence;
      db := db.(runs := db.runs[r := db.runs[r].(nextSequence := next + 1)]);
      return Some(next);
    }

    method AddRow(r: Id, event: Event)
      requires Valid() && r in db.runs
      modifies this
      ensures Valid()
      ensures db == old(db).(events := old(db).events[r := old(db).events[r] + [event]])
    {
      db := db.(events := db.events[r := db.events[r] + [event]]);
    }

    method AddMessage(m: Id, message: Message) returns (ok: bool)
      requires Valid()
      modifies this
      ensures Valid()
      ensures ok <==> m !in old(db).messages
      ensures db == if ok then old(db).(messages := old(db).messages[m := message]) else old(db)
    {
      if m in db.messages { return false; }
      db := db.(messages := db.messages[m := message]);
      return true;
    }

    // ----- transactions

    /** `_append_event_in_transaction` */
    method AppendEventInTransaction(r: Id, kind: EventType, writer: Writer) returns (ok: bool)
      requires Valid()
      modifies this
      ensures Valid()
      ensures ok <==> r in old(db).runs
      ensures db == if ok then AddEvent(old(db), r, kind, writer) else old(db)
    {
      var sequence := ReserveEventSequence(r);
      if sequence.None? { return false; }
      AddRow(r, Event(sequence.value, kind, writer));
      return true;
    }

    method ClaimRun(r: Id) returns (reply: Result<bool, Error>)
      requires Valid()
      modifies this
      ensures Valid()
      ensures db == Claim(old(db), r).db && reply == Claim(old(db), r).reply
    {
      if r !in db.runs { return Err(RunNotFound); }
      var current := db.runs[r];
      if current.status != Queued { return Ok(false); }
      if !InputMessageOk(db, current) { return Err(InputMessageInvalid); }
      if current.kind == MainAgent && r !in db.inputs { return Err(InputUnavailable); }
      var updated := TransitionStatus(r, {Queued}, Running, None);
      if !updated { assert false; }
      var appended := AppendEventInTransaction(r, RunStarted, Service);
      return Ok(true);
    }

    method AppendEvent(r: Id, kind: EventType) returns (reply: Result<(), Error>)
      requires Valid()
      modifies this
      ensures Valid()
      ensures db == AppendAlways(old(db), r, kind).db && reply == AppendAlways(old(db), r, kind).reply
    {
      var ok := AppendEventInTransaction(r, kind, Executor);
      if !ok { return Err(RunNotFound); }
      return Ok(());
    }

    method AppendExecutionEvent(r: Id, kind: EventType) returns (accepted: bool)
      requires Valid()
      modifies this
      ensures Valid()
      ensures db == AppendWhileRunning(old(db), r, kind).db && AppendWhileRunning(old(db), r, kind).reply == Ok(accepted)
    {
      if r !in db.runs || db.runs[r].status != Running { return false; }
      var sequence := ReserveEventSequence(r);
      AddRow(r, Event(sequence.value, kind, Executor));
      return true;
    }

    /** The end of every terminal transaction: the event, then the session's activity time. */
    method AppendTerminalEvent(r: Id, kind: EventType) returns (reply: Result<(), Error>)
      requires Valid() && r in db.runs
      modifies this
      ensures Valid()
      ensures reply == if old(db).runs[r].session in old(db).sessions then Ok(()) else Err(SessionNotFound)
      ensures db == AddEvent(old(db), r, kind, Service)
    {
      var appended := AppendEventInTransaction(r, kind, Service);
      if db.runs[r].session !in db.sessions { return Err(SessionNotFound); }
      return Ok(());
    }

    /** The end both success transactions share: status, then terminal event. */
    method SucceedRun(r: Id) returns (reply: Result<(), Error>)
      requires Valid() && r in db.runs && db.runs[r].status == Running
      modifies this
      ensures Valid()
      ensures reply == if old(db).runs[r].session in old(db).sessions then Ok(()) else Err(SessionNotFound)
      ensures db == Finish(old(db), r, Succeeded, None)
    {
      hide AddEvent;
      var updated := TransitionStatus(r, {Running}, Succeeded, None);
      if !updated { assert false; }
      reply := AppendTerminalEvent(r, RunSucceeded);
    }

    method CancelRun(r: Id) returns (reply: Result<(), Error>)
      requires Valid()
      modifies this
      ensures Valid()
      ensures db == Cancel(old(db), r).db && reply == Cancel(old(db), r).reply
    {
      var saved := db;
      if r !in db.runs { return Err(RunNotFound); }
      if db.runs[r].status in {Succeeded, Failed} { return Err(RunAlreadyTerminal); }
      if db.runs[r].status == Cancelled { return Ok(()); }
      var updated := TransitionStatus(r, {Queued, Running}, Cancelled, None);
      if !updated { assert false; }
      reply := AppendTerminalEvent(r, RunCancelled);
      if reply.Err? { db := saved; }
    }

    method CompleteFailure(r: Id, code: string) returns (reply: Result<(), Error>)
      requires Valid()
      modifies this
      ensures Valid()
      ensures db == Fail(old(db), r, code).db && reply == Fail(old(db), r, code).reply
    {
      var saved := db;
      if r !in db.runs { return Err(RunNotFound); }
      if db.runs[r].status.Terminal() { return Ok(()); }
      var updated := TransitionStatus(r, {Queued, Running}, Failed, Some(code));
      if !updated { assert false; }
      reply := AppendTerminalEvent(r, RunFailed);
      if reply.Err? { db := saved; }
    }

    method CompleteSuccess(r: Id, resultRun: Id, summary: string, m: Id) returns (reply: Result<(), Error>)
      requires Valid()
      modifies this
      ensures Valid()
      ensures db == CompleteDiagnosis(old(db), r, resultRun, summary, m).db
      ensures reply == CompleteDiagnosis(old(db), r, resultRun, summary, m).reply
    {
      var saved := db;
      if r !in db.runs { return Err(RunNotFound); }
      var run := db.runs[r];
      if run.status != Running {
        if run.status.Terminal() { return Ok(()); }
        return Err(RunAlreadyTerminal);
      }
      if resultRun != r { return Err(ResultMismatch); }
      if r in db.results { return Err(IntegrityError); }
      db := db.(results := db.results[r := summary]);
      var added := AddMessage(m, AssistantMessage(run, r, summary));
      if !added { db := saved; return Err(IntegrityError); }
      reply := SucceedRun(r);
      if reply.Err? { db := saved; }
    }

    /** Delivery, message, status and terminal event, all or nothing. */
    method WriteMainSuccess(r: Id, d: Delivery, text: Rendered, m: Id) returns (reply: Result<(), Error>)
      requires Valid() && r in db.runs && db.runs[r].status == Running && r !in db.deliveries
      modifies this
      ensures Valid()
      ensures Outcome(db, reply) == MainWritten(old(db), r, d, text, m)
    {
      hide AssistantMessage, Finish;
      var saved := db;
      var message := AssistantMessage(db.runs[r], r, text.content);
      db := db.(deliveries := db.deliveries[r := d]);
      var added := AddMessage(m, message);
      if !added { db := saved; return Err(IntegrityError); }
      reply := SucceedRun(r);
      if reply.Err? { db := saved; }
    }

    method CompleteMainSuccess(r: Id, d: Delivery, text: Rendered, m: Id, definitions: Option<map<Capabilities.Key, Definition>>)
      returns (reply: Result<(), Error>)
      requires Valid()
      modifies this
      ensures Valid()
      ensures db == CompleteMain(old(db), r, d, text, m, definitions).db
      ensures reply == CompleteMain(old(db), r, d, text, m, definitions).reply
    {
      hide DeliveryAccepted, AssistantMessage, Finish;
      if r !in db.runs { return Err(RunNotFound); }
      var run := db.runs[r];
      if run.kind != MainAgent { return Err(DeliveryInvalid); }
      if run.status != Running {
        if run.status.Terminal() { return Ok(()); }
        return Err(RunAlreadyTerminal);
      }
      if r !in db.inputs { return Err(InputUnavailable); }
      if !DeliveryAccepted(d, r, db.inputs[r], definitions) { return Err(DeliveryInvalid); }
      if text.sensitive { return Err(DeliveryInvalid); }
      if r in db.deliveries { return Err(IntegrityError); }
      CompleteMainWrites(db, r, d, text, m, definitions);
      hide CompleteMain, MainWritten;
      reply := WriteMainSuccess(r, d, text, m);
    }

    // ----- acceptance

    /** The inserts of `_accept_run_in_transaction`; false when a unique constraint refuses one of them. */
    method InsertRun(n: NewRun) returns (ok: bool)
      requires Valid()
      modifies this
      ensures Valid()
      ensures db == CommitRun(old(db), n).db && (ok <==> CommitRun(old(db), n).reply.Ok?)
    {
      var saved := db;
      var added := AddMessage(n.messageId, Message(n.scope.session, None, MI.User, n.content, false));
      if !added { return false; }
      if n.runId in db.runs { db := saved; return false; }
      var run := Run(n.scope.session, n.messageId, n.service, n.kind, Queued, 2, None, n.rerunOf);
      db := db.(runs := db.runs[n.runId := run], events := db.events[n.runId := []], order := db.order + [n.runId]);
      if n.snapshot.Some? { db := db.(inputs := db.inputs[n.runId := n.snapshot.value]); }
      if n.scope in db.keys { db := saved; return false; }
      db := db.(keys := db.keys[n.scope := RunLifecycle.Key(n.fingerprint, n.runId)]);
      AddRow(n.runId, Event(1, RunQueued, Service));
      assert [] + [Event(1, RunQueued, Service)] == [Event(1, RunQueued, Service)];
      assert db.events == saved.events[n.runId := [Event(1, RunQueued, Service)]];
      return true;
    }

    /** `accept_run`, `accept_main_agent_run` and `rerun_run`, each with its re-read after a refusal. */
    method AcceptRun(request: Request, ids: Fresh, sight: Sight) returns (reply: Result<Accepted, AcceptError>)
      requires Valid()
      modifies this
      ensures Valid()
      ensures (db, reply) == AcceptAlone(old(db), request, ids, sight)
    {
      hide Decide, Prepare, Reload;
      var prepared := Prepare(db, request);
      if prepared.Err? { return Err(prepared.error); }
      var decision := Decide(db, prepared.value, ids, sight);
      match decision {
        case Answered(answer) => reply := answer;
        case Insert(n) =>
          assert db == CommitRun(db, n).db || CommitRun(db, n).reply.Ok?;
          hide CommitRun;
          var ok := InsertRun(n);
          if ok {
            reply := Ok(Accepted(n.runId, false));
          } else {
            reply := Reload(db, prepared.value);
          }
      }
    }

    // ----- execution

    /** `_execute_typed` on a claimed main-agent run: append, fail or deliver, as the guarded stream says. */
    method ExecuteTyped(r: Id, signals: seq<Signal>, definitions: Option<map<Capabilities.Key, Definition>>)
      returns (reply: Result<(), Error>)
      requires Valid()
      modifies this
      ensures Valid()
      ensures Outcome(db, reply) == Signalled(old(db), r, signals, definitions)
    {
      hide DeliveryAccepted, Claim, CompleteMain, Fail, AppendWhileRunning;
      ghost var start := db;
      var i := 0;
      while i < |signals|
        invariant 0 <= i <= |signals| && Valid()
        invariant Signalled(start, r, signals, definitions) == Signalled(db, r, signals[i..], definitions)
      {
        assert signals[i..][0] == signals[i] && signals[i..][1..] == signals[i + 1..];
        match signals[i] {
          case EventSignal(kind) =>
            var accepted := AppendExecutionEvent(r, kind);
            if !accepted { return Ok(()); }
          case FailureSignal(code) =>
            reply := CompleteFailure(r, code);
            return;
          case DeliverySignal(d, text, m) =>
            reply := CompleteMainSuccess(r, d, text, m, definitions);
            if reply.Err? { reply := CompleteFailure(r, FailureCode(reply.error)); }
            return;
        }
        i := i + 1;
      }
      reply := CompleteFailure(r, "MAIN_AGENT_FAILED");
    }

    /** `execute_run` on a main-agent run whose guarded stream yields these signals. */
    method ExecuteRun(r: Id, signals: seq<Signal>, definitions: Option<map<Capabilities.Key, Definition>>)
      returns (reply: Result<(), Error>)
      requires Valid()
      modifies this
      ensures Valid()
      ensures Outcome(db, reply) == ExecuteAlone(old(db), r, signals, definitions)
    {
      var claimed := ClaimRun(r);
      if claimed.Err? {
        if claimed.error == RunNotFound { return Err(RunNotFound); }
        reply := CompleteFailure(r, FailureCode(claimed.error));
        return;
      }
      if !claimed.value { return Ok(()); }
      hide Signalled, Claim;
      reply := ExecuteTyped(r, signals, definitions);
    }
  }

  /** The success transaction once every check has passed. */
  function MainWritten(db: Db, r: Id, d: Delivery, text: Rendered, m: Id): Outcome<()>
    requires r in db.runs && r in db.events
  {
    if m in db.messages then Outcome(db, Err(IntegrityError))
    else if db.runs[r].session !in db.sessions then Outcome(db, Err(SessionNotFound))
    else
      Outcome(Finish(db.(deliveries := db.deliveries[r := d],
                         messages := db.messages[m := AssistantMessage(db.runs[r], r, text.content)]),
                     r, Succeeded, None), Ok(()))
  }

  lemma CompleteMainWrites(db: Db, r: Id, d: Delivery, text: Rendered, m: Id, definitions: Option<map<Capabilities.Key, Definition>>)
    requires r in db.runs && r in db.events && db.runs[r].kind == MainAgent && db.runs[r].status == Running
    requires r in db.inputs && DeliveryAccepted(d, r, db.inputs[r], definitions) && !text.sensitive && r !in db.deliveries
    ensures CompleteMain(db, r, d, text, m, definitions) == MainWritten(db, r, d, text, m)
  {
    hide DeliveryAccepted, Finish, AssistantMessage;
  }

  // ----- what one worker writes when nobody interferes

  datatype Signal = EventSignal(kind: EventType) | FailureSignal(code: string) | DeliverySignal(d: Delivery, text: Rendered, m: Id)

  /** The failure code `execute_run` derives from an exception. */
  function FailureCode(e: Error): string {
    match e
    case InputUnavailable => "MAIN_AGENT_INPUT_UNAVAILABLE"
    case DeliveryInvalid => "MAIN_AGENT_DELIVERY_INVALID"
    case _ => "MAIN_AGENT_FAILED"
  }

  /** The database after the worker has handled the signals of a claimed run. */
  function Signalled(db: Db, r: Id, signals: seq<Signal>, definitions: Option<map<Capabilities.Key, Definition>>): Outcome<()>
    decreases |signals|
  {
    if signals == [] then Fail(db, r, "MAIN_AGENT_FAILED")
    else
      match signals[0]
      case EventSignal(kind) =>
        if AppendWhileRunning(db, r, kind).reply == Ok(true)
        then Signalled(AppendWhileRunning(db, r, kind).db, r, signals[1..], definitions)
        else Outcome(AppendWhileRunning(db, r, kind).db, Ok(()))
      case FailureSignal(code) => Fail(db, r, code)
      case DeliverySignal(d, text, m) =>
        var done := CompleteMain(db, r, d, text, m, definitions);
        if done.reply.Ok? then done else Fail(done.db, r, FailureCode(done.reply.error))
  }

  function ExecuteAlone(db: Db, r: Id, signals: seq<Signal>, definitions: Option<map<Capabilities.Key, Definition>>): Outcome<()> {
    var claimed := Claim(db, r);
    if claimed.reply.Err? then
      if claimed.reply.error == RunNotFound then Outcome(claimed.db, Err(RunNotFound)) else Fail(claimed.db, r, FailureCode(claimed.reply.error))
    else if !claimed.reply.value then Outcome(claimed.db, Ok(()))
    else Signalled(claimed.db, r, signals, definitions)
  }

  function EventSignals(kinds: seq<EventType>): seq<Signal> {
    if kinds == [] then [] else [EventSignal(kinds[0])] + EventSignals(kinds[1..])
  }

  /** The executor's rows, numbered from `sequence` on. */
  function Rows(kinds: seq<EventType>, sequence: nat): seq<Event> {
    if kinds == [] then [] else [Event(sequence, kinds[0], Executor)] + Rows(kinds[1..], sequence + 1)
  }

  /** The success transaction of a running main-agent run can only go one way. */
  ghost predicate Deliverable(db: Db, r: Id, d: Delivery, m: Id, definitions: Option<map<Capabilities.Key, Definition>>) {
    && r in db.runs && r in db.events && db.runs[r].kind == MainAgent && db.runs[r].session in db.sessions
    && r in db.inputs && DeliveryAccepted(d, r, db.inputs[r], definitions)
    && r !in db.deliveries && m !in db.messages
  }

  lemma {:induction false} SignalledInOrder(db: Db, r: Id, kinds: seq<EventType>, d: Delivery, text: Rendered, m: Id,
                                            definitions: Option<map<Capabilities.Key, Definition>>)
    requires Deliverable(db, r, d, m, definitions) && !text.sensitive && db.runs[r].status == Running
    ensures var done := Signalled(db, r, EventSignals(kinds) + [DeliverySignal(d, text, m)], definitions); var next := done.db;
            && done.reply == Ok(()) && r in next.runs && r in next.events && r in next.deliveries && m in next.messages
            && next.runs[r].status == Succeeded && next.deliveries[r] == d
            && next.messages[m] == AssistantMessage(db.runs[r], r, text.content)
            && next.events[r] == db.events[r] + Rows(kinds, db.runs[r].nextSequence)
                                 + [Event(db.runs[r].nextSequence + |kinds|, RunSucceeded, Service)]
    decreases |kinds|
  {
    hide DeliveryAccepted;
    var signals := EventSignals(kinds) + [DeliverySignal(d, text, m)];
    if kinds == [] {
      assert signals == [DeliverySignal(d, text, m)];
    } else {
      assert signals[0] == EventSignal(kinds[0]);
      assert signals[1..] == EventSignals(kinds[1..]) + [DeliverySignal(d, text, m)];
      var appended := AppendWhileRunning(db, r, kinds[0]).db;
      SignalledInOrder(appended, r, kinds[1..], d, text, m, definitions);
      assert appended.events[r] == db.events[r] + [Event(db.runs[r].nextSequence, kinds[0], Executor)];
    }
  }

  /**
   A freshly accepted main-agent run executed without interference ends with exactly the rows
   RUN_QUEUED, RUN_STARTED, the executor's events in their order, RUN_SUCCEEDED.
   */
  lemma UndisturbedRunTellsItsStory(db: Db, r: Id, kinds: seq<EventType>, d: Delivery, text: Rendered, m: Id,
                                    definitions: Option<map<Capabilities.Key, Definition>>)
    requires Deliverable(db, r, d, m, definitions) && !text.sensitive && InputMessageOk(db, db.runs[r])
    requires db.runs[r].status == Queued && db.runs[r].nextSequence == 2 && db.events[r] == [Event(1, RunQueued, Service)]
    ensures var done := ExecuteAlone(db, r, EventSignals(kinds) + [DeliverySignal(d, text, m)], definitions); var next := done.db;
            && done.reply == Ok(()) && r in next.runs && r in next.events && next.runs[r].status == Succeeded
            && next.events[r] == [Event(1, RunQueued, Service), Event(2, RunStarted, Service)] + Rows(kinds, 3)
                                 + [Event(3 + |kinds|, RunSucceeded, Service)]
  {
    ClaimedOnce(db, r);
    var claimed := Claim(db, r).db;
    assert Deliverable(claimed, r, d, m, definitions) by { hide DeliveryAccepted; }
    hide DeliveryAccepted, Signalled, Deliverable, Claim, Rows;
    SignalledInOrder(claimed, r, kinds, d, text, m, definitions);
  }

  lemma ClaimedOnce(db: Db, r: Id)
    requires r in db.runs && r in db.events && InputMessageOk(db, db.runs[r]) && (db.runs[r].kind == MainAgent ==> r in db.inputs)
    requires db.runs[r].status == Queued && db.runs[r].nextSequence == 2 && db.events[r] == [Event(1, RunQueued, Service)]
    ensures var o := Claim(db, r);
            && o.reply == Ok(true) && r in o.db.runs && r in o.db.events
            && o.db.runs[r] == db.runs[r].(status := Running, nextSequence := 3)
            && o.db.events[r] == [Event(1, RunQueued, Service), Event(2, RunStarted, Service)]
  {
    hide InputMessageOk;
  }

  /** How many events a stream of signals asks to store. */
  function EventsIn(signals: seq<Signal>): nat {
    if signals == [] then 0 else (if signals[0].EventSignal? then 1 else 0) + EventsIn(signals[1..])
  }

  lemma FailAddsOneRow(db: Db, r: Id, code: string)
    requires r in db.runs && r in db.events
    ensures var next := Fail(db, r, code).db; r in next.runs && r in next.events && |next.events[r]| <= |db.events[r]| + 1
  {
  }

  lemma CompleteAddsOneRow(db: Db, r: Id, d: Delivery, text: Rendered, m: Id, definitions: Option<map<Capabilities.Key, Definition>>)
    requires r in db.runs && r in db.events
    ensures var done := CompleteMain(db, r, d, text, m, definitions);
            && r in done.db.runs && r in done.db.events && |done.db.events[r]| <= |db.events[r]| + 1
            && (done.reply.Err? ==> done.db == db)
  {
    hide DeliveryAccepted;
  }

  lemma AppendAddsOneRow(db: Db, r: Id, kind: EventType)
    requires r in db.runs && r in db.events
    ensures var next := AppendWhileRunning(db, r, kind).db; r in next.runs && r in next.events && |next.events[r]| <= |db.events[r]| + 1
  {
  }

  /** A worker adds one row per event signal and one terminal row at most. */
  lemma {:induction false} SignalledAddsFewRows(db: Db, r: Id, signals: seq<Signal>, definitions: Option<map<Capabilities.Key, Definition>>)
    requires r in db.runs && r in db.events
    ensures var next := Signalled(db, r, signals, definitions).db;
            r in next.runs && r in next.events && |next.events[r]| <= |db.events[r]| + EventsIn(signals) + 1
    decreases |signals|
  {
    hide Fail, CompleteMain, AppendWhileRunning;
    if signals == [] {
      FailAddsOneRow(db, r, "MAIN_AGENT_FAILED");
    } else {
      match signals[0]
      case EventSignal(kind) =>
        AppendAddsOneRow(db, r, kind);
        SignalledAddsFewRows(AppendWhileRunning(db, r, kind).db, r, signals[1..], definitions);
      case FailureSignal(code) => FailAddsOneRow(db, r, code);
      case DeliverySignal(d, text, m) =>
        CompleteAddsOneRow(db, r, d, text, m, definitions);
        var done := CompleteMain(db, r, d, text, m, definitions);
        if done.reply.Err? { FailAddsOneRow(db, r, FailureCode(done.reply.error)); }
    }
  }

  /** Executing a queued run leaves at most RUN_QUEUED, RUN_STARTED, one row per event signal, and a terminal row. */
  lemma ExecutionAddsFewRows(db: Db, r: Id, signals: seq<Signal>, definitions: Option<map<Capabilities.Key, Definition>>)
    requires r in db.runs && r in db.events && db.events[r] == [Event(1, RunQueued, Service)]
    ensures var next := ExecuteAlone(db, r, signals, definitions).db;
            r in next.events && |next.events[r]| <= 3 + EventsIn(signals)
  {
    hide Fail, Signalled;
    var claimed := Claim(db, r);
    if claimed.reply.Err? {
      if claimed.reply.error != RunNotFound { FailAddsOneRow(claimed.db, r, FailureCode(claimed.reply.error)); }
    } else if claimed.reply.value {
      SignalledAddsFewRows(claimed.db, r, signals, definitions);
    }
  }
}
