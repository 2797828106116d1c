/**
 The run tables and the transactions on them (backend/src/application/services.py), each
 transaction body one atomic step. A transaction that raises leaves the database as it was.
 */
module RunLifecycle {
  import opened Wrappers
  import MI = MainInput
  import opened Capabilities
  import opened MainDelivery

  type Id = nat

  datatype Kind = Diagnosis | MainAgent

  datatype Status = Queued | Running | Succeeded | Failed | Cancelled {
    predicate Terminal() { Succeeded? || Failed? || Cancelled? }
  }

  datatype EventType =
    | RunQueued | RunStarted | RouteDecided | AgentStart | AgentDone | ConflictChecked | DebateRound
    | Report | Reflection | RunSucceeded | RunFailed | RunCancelled | ToolInvoked
  {
    predicate Terminal() { RunSucceeded? || RunFailed? || RunCancelled? }
  }

  /** Who wrote the row: the service ({"state": ...}) or an executor signal ({"node": ...}). */
  datatype Writer = Service | Executor

  datatype Event = Event(sequence: nat, kind: EventType, writer: Writer)

  datatype Run = Run(
    session: Id, inputMessage: Id, service: Option<string>, kind: Kind, status: Status, nextSequence: nat,
    errorCode: Option<string>, rerunOf: Option<Id>)

  datatype Message = Message(session: Id, run: Option<Id>, role: MI.Role, content: string, archived: bool)

  datatype Session = Session(archived: bool, services: seq<string>)

  datatype Endpoint = Create | Rerun

  datatype Scope = Scope(session: Id, endpoint: Endpoint, key: Id)

  datatype Key = Key(fingerprint: MI.Fingerprint, run: Id)

  /** `order` lists the run rows in the order of their insertion. */
  datatype Db = Db(
    sessions: map<Id, Session>, messages: map<Id, Message>, runs: map<Id, Run>, inputs: map<Id, MI.Snapshot>,
    keys: map<Scope, Key>, events: map<Id, seq<Event>>, results: map<Id, string>, deliveries: map<Id, Delivery>,
    order: seq<Id>)

  const EMPTY := Db(map[], map[], map[], map[], map[], map[], map[], map[], [])

  datatype Error =
    | RunNotFound | RunAlreadyTerminal | InputMessageInvalid | InputUnavailable | DeliveryInvalid
    | ResultMismatch | SessionNotFound | IntegrityError

  datatype Outcome<+T> = Outcome(db: Db, reply: Result<T, Error>)

  // ----- repository primitives

  /** `transition_status`: compare-and-set on the status column. */
  function Transition(db: Db, r: Id, expected: set<Status>, status: Status, code: Option<string>): Option<Db> {
    if r in db.runs && db.runs[r].status in expected then
      var run := db.runs[r].(status := status);
      Some(db.(runs := db.runs[r := if code.Some? then run.(errorCode := code) else run]))
    else None
  }

  /** Reserve the next sequence and add the row. */
  function AddEvent(db: Db, r: Id, kind: EventType, writer: Writer): Db
    requires r in db.runs && r in db.events
  {
    var run := db.runs[r];
    db.(runs := db.runs[r := run.(nextSequence := run.nextSequence + 1)],
        events := db.events[r := db.events[r] + [Event(run.nextSequence, kind, writer)]])
  }

  // ----- transactions

  /** What `_accept_run_in_transaction` writes once it has decided to create a run. */
  datatype NewRun = NewRun(
    runId: Id, messageId: Id, scope: Scope, fingerprint: MI.Fingerprint, kind: Kind, content: string,
    service: Option<string>, snapshot: Option<MI.Snapshot>, rerunOf: Option<Id>)

  /** A main-agent run is created with a validated snapshot, a diagnosis run without one. */
  predicate Proper(n: NewRun) {
    match n.kind
    case MainAgent => n.snapshot.Some? && MI.ValidSnapshot(n.snapshot.value)
    case Diagnosis => n.snapshot.None?
  }

  /** The inserts and the commit; the unique constraints decide. */
  function CommitRun(db: Db, n: NewRun): Outcome<Run> {
    if n.scope in db.keys || n.runId in db.runs || n.runId in db.events || n.messageId in db.messages then
      Outcome(db, Err(IntegrityError))
    else
      var run := Run(n.scope.session, n.messageId, n.service, n.kind, Queued, 2, None, n.rerunOf);
      Outcome(
        db.(messages := db.messages[n.messageId := Message(n.scope.session, None, MI.User, n.content, false)],
            runs := db.runs[n.runId := run],
            inputs := if n.snapshot.Some? then db.inputs[n.runId := n.snapshot.value] else db.inputs,
            keys := db.keys[n.scope := Key(n.fingerprint, n.runId)],
            events := db.events[n.runId := [Event(1, RunQueued, Service)]],
            order := db.order + [n.runId]),
        Ok(run))
  }

  predicate InputMessageOk(db: Db, run: Run) {
    && run.inputMessage in db.messages
    && db.messages[run.inputMessage].session == run.session
    && db.messages[run.inputMessage].role == MI.User
  }

  /** The reply says whether this call claimed the run. */
  function Claim(db: Db, r: Id): Outcome<bool> {
    if r !in db.runs || r !in db.events then Outcome(db, Err(RunNotFound))
    else if db.runs[r].status != Queued then Outcome(db, Ok(false))
    else if !InputMessageOk(db, db.runs[r]) then Outcome(db, Err(InputMessageInvalid))
    else if db.runs[r].kind == MainAgent && r !in db.inputs then Outcome(db, Err(InputUnavailable))
    else
      Outcome(AddEvent(db.(runs := db.runs[r := db.runs[r].(status := Running)]), r, RunStarted, Service), Ok(true))
  }

  /** `_append_event`: no look at the status. */
  function AppendAlways(db: Db, r: Id, kind: EventType): Outcome<()> {
    if r !in db.runs || r !in db.events then Outcome(db, Err(RunNotFound))
    else Outcome(AddEvent(db, r, kind, Executor), Ok(()))
  }

  /** `_append_execution_event`: only while the run is running. */
  function AppendWhileRunning(db: Db, r: Id, kind: EventType): Outcome<bool> {
    if r !in db.runs || r !in db.events || db.runs[r].status != Running then Outcome(db, Ok(false))
    else Outcome(AddEvent(db, r, kind, Executor), Ok(true))
  }

  function TerminalKind(s: Status): EventType
    requires s.Terminal()
  {
    match s case Succeeded => RunSucceeded case Failed => RunFailed case Cancelled => RunCancelled
  }

  function Finish(db: Db, r: Id, status: Status, code: Option<string>): Db
    requires r in db.runs && r in db.events && status.Terminal()
  {
    var run := db.runs[r].(status := status);
    AddEvent(db.(runs := db.runs[r := if code.Some? then run.(errorCode := code) else run]), r, TerminalKind(status), Service)
  }

  function Cancel(db: Db, r: Id): Outcome<()> {
    if r !in db.runs || r !in db.events then Outcome(db, Err(RunNotFound))
    else if db.runs[r].status in {Succeeded, Failed} then Outcome(db, Err(RunAlreadyTerminal))
    else if db.runs[r].status == Cancelled then Outcome(db, Ok(()))
    else if db.runs[r].session !in db.sessions then Outcome(db, Err(SessionNotFound))
    else Outcome(Finish(db, r, Cancelled, None), Ok(()))
  }

  function AssistantMessage(run: Run, r: Id, content: string): Message {
    Message(run.session, Some(r), MI.Assistant, content, false)
  }

  /** `resultRun` is the run id the result assembler wrote into its result, `m` the fresh message id. */
  function CompleteDiagnosis(db: Db, r: Id, resultRun: Id, summary: string, m: Id): Outcome<()> {
    if r !in db.runs || r !in db.events then Outcome(db, Err(RunNotFound))
    else if db.runs[r].status.Terminal() then Outcome(db, Ok(()))
    else if db.runs[r].status != Running then Outcome(db, Err(RunAlreadyTerminal))
    else if resultRun != r then Outcome(db, Err(ResultMismatch))
    else if r in db.results || m in db.messages then Outcome(db, Err(IntegrityError))
    else if db.runs[r].session !in db.sessions then Outcome(db, Err(SessionNotFound))
    else
      var written := db.(results := db.results[r := summary],
                         messages := db.messages[m := AssistantMessage(db.runs[r], r, summary)]);
      Outcome(Finish(written, r, Succeeded, None), Ok(()))
  }

  /** A rendered assistant message, and whether the content check finds something sensitive in it. */
  datatype Rendered = Rendered(content: string, sensitive: bool)

  /** `text` is the rendered assistant message. */
  function CompleteMain(db: Db, r: Id, d: Delivery, text: Rendered, m: Id, definitions: Option<map<Capabilities.Key, Definition>>): Outcome<()> {
    if r !in db.runs || r !in db.events then Outcome(db, Err(RunNotFound))
    else if db.runs[r].kind != MainAgent then Outcome(db, Err(DeliveryInvalid))
    else if db.runs[r].status.Terminal() then Outcome(db, Ok(()))
    else if db.runs[r].status != Running then Outcome(db, Err(RunAlreadyTerminal))
    else if r !in db.inputs then Outcome(db, Err(InputUnavailable))
    else if !DeliveryAccepted(d, r, db.inputs[r], definitions) || text.sensitive then Outcome(db, Err(DeliveryInvalid))
    else if r in db.deliveries || m in db.messages then Outcome(db, Err(IntegrityError))
    else if db.runs[r].session !in db.sessions then Outcome(db, Err(SessionNotFound))
    else
      var written := db.(deliveries := db.deliveries[r := d],
                         messages := db.messages[m := AssistantMessage(db.runs[r], r, text.content)]);
      Outcome(Finish(written, r, Succeeded, None), Ok(()))
  }

  function Fail(db: Db, r: Id, code: string): Outcome<()> {
    if r !in db.runs || r !in db.events then Outcome(db, Err(RunNotFound))
    else if db.runs[r].status.Terminal() then Outcome(db, Ok(()))
    else if db.runs[r].session !in db.sessions then Outcome(db, Err(SessionNotFound))
    else Outcome(Finish(db, r, Failed, Some(code)), Ok(()))
  }

  // ----- runs of the system

  datatype Step =
    | DoCommit(n: NewRun)
    | DoClaim(r: Id)
    | DoAppendAlways(r: Id, kind: EventType)
    | DoAppendWhileRunning(r: Id, kind: EventType)
    | DoCancel(r: Id)
    | DoCompleteDiagnosis(r: Id, resultRun: Id, summary: string, m: Id)
    | DoCompleteMain(r: Id, d: Delivery, text: Rendered, m: Id, definitions: Option<map<Capabilities.Key, Definition>>)
    | DoFail(r: Id, code: string)
    | DoAddSession(s: Id, services: seq<string>)
    | DoArchiveSession(s: Id, archived: bool)
    | DoPlainMessage(m: Id, session: Id, role: MI.Role, content: string)
    | DoEditMessage(m: Id, content: string)
    | DoArchiveMessage(m: Id)

  predicate Claimed(db: Db, r: Id) {
    r in db.events && |db.events[r]| > 1 && db.events[r][1] == Event(2, RunStarted, Service)
  }

  /**
   Who may take a step: runs are created with a proper input; only the worker that claimed a
   diagnosis run uses the unconditional append, only main-agent workers the conditional one, and
   a diagnosis result is written for a diagnosis run.
   */
  predicate Enabled(db: Db, step: Step) {
    match step
    case DoCommit(n) => Proper(n)
    case DoAppendAlways(r, _) => r in db.runs && db.runs[r].kind == Diagnosis && Claimed(db, r)
    case DoAppendWhileRunning(r, _) => r in db.runs && db.runs[r].kind == MainAgent
    case DoCompleteDiagnosis(r, _, _, _) => r in db.runs && db.runs[r].kind == Diagnosis
    case _ => true
  }

  function Next(db: Db, step: Step): Db {
    if !Enabled(db, step) then db else
    match step
    case DoCommit(n) => CommitRun(db, n).db
    case DoClaim(r) => Claim(db, r).db
    case DoAppendAlways(r, kind) => AppendAlways(db, r, kind).db
    case DoAppendWhileRunning(r, kind) => AppendWhileRunning(db, r, kind).db
    case DoCancel(r) => Cancel(db, r).db
    case DoCompleteDiagnosis(r, resultRun, summary, m) => CompleteDiagnosis(db, r, resultRun, summary, m).db
    case DoCompleteMain(r, d, text, m, definitions) => CompleteMain(db, r, d, text, m, definitions).db
    case DoFail(r, code) => Fail(db, r, code).db
    case DoAddSession(s, services) =>
      if s in db.sessions then db else db.(sessions := db.sessions[s := Session(false, services)])
    case DoArchiveSession(s, archived) =>
      if s !in db.sessions then db else db.(sessions := db.sessions[s := db.sessions[s].(archived := archived)])
    case DoPlainMessage(m, session, role, content) =>
      if m in db.messages then db
      else db.(messages := db.messages[m := Message(session, None, role, content, false)])
    case DoEditMessage(m, content) =>
      if m !in db.messages || db.messages[m].role != MI.User then db
      else db.(messages := db.messages[m := db.messages[m].(content := content)])
    case DoArchiveMessage(m) =>
      if m !in db.messages || db.messages[m].role != MI.User then db
      else db.(messages := db.messages[m := db.messages[m].(archived := true)])
  }

  /** Any number of clients, workers and cancellers: any sequence of steps. */
  function After(db: Db, steps: seq<Step>): Db
    decreases |steps|
  {
    if steps == [] then db else After(Next(db, steps[0]), steps[1..])
  }

  /** The run a step is about. */
  function Target(step: Step): Option<Id> {
    match step
    case DoCommit(n) => Some(n.runId)
    case DoClaim(r) => Some(r)
    case DoAppendAlways(r, _) => Some(r)
    case DoAppendWhileRunning(r, _) => Some(r)
    case DoCancel(r) => Some(r)
    case DoCompleteDiagnosis(r, _, _, _) => Some(r)
    case DoCompleteMain(r, _, _, _, _) => Some(r)
    case DoFail(r, _) => Some(r)
    case _ => None
  }

  /** At most run `r`'s row and log are rewritten; results, deliveries and messages may be added. */
  ghost predicate Touches(db: Db, next: Db, r: Id) {
    || next == db
    || (&& r in db.runs && r in db.events && r in next.runs && r in next.events
        && next == db.(runs := db.runs[r := next.runs[r]], events := db.events[r := next.events[r]],
                       results := next.results, deliveries := next.deliveries, messages := next.messages)
        && next.runs[r].session == db.runs[r].session)
  }

  lemma FinishTouches(db: Db, written: Db, r: Id, status: Status, code: Option<string>)
    requires r in db.runs && r in db.events && status.Terminal()
    requires written == db.(results := written.results, deliveries := written.deliveries, messages := written.messages)
    ensures Touches(db, Finish(written, r, status, code), r)
  {
  }

  lemma EventTouches(db: Db, r: Id, kind: EventType)
    ensures Touches(db, Claim(db, r).db, r)
    ensures Touches(db, AppendAlways(db, r, kind).db, r)
    ensures Touches(db, AppendWhileRunning(db, r, kind).db, r)
  {
    hide InputMessageOk;
  }

  lemma EndTouches(db: Db, r: Id, code: string)
    ensures Touches(db, Cancel(db, r).db, r) && Touches(db, Fail(db, r, code).db, r)
  {
    assert Touches(db, db, r);
    hide Finish, Touches;
    if r in db.runs && r in db.events {
      FinishTouches(db, db, r, Cancelled, None);
      FinishTouches(db, db, r, Failed, Some(code));
    }
  }

  lemma CompleteTouches(db: Db, r: Id, resultRun: Id, text: string, sensitive: bool, m: Id, d: Delivery, definitions: Option<map<Capabilities.Key, Definition>>)
    ensures Touches(db, CompleteDiagnosis(db, r, resultRun, text, m).db, r)
    ensures Touches(db, CompleteMain(db, r, d, Rendered(text, sensitive), m, definitions).db, r)
  {
    assert Touches(db, db, r);
    hide Finish, Touches, DeliveryAccepted;
    if r in db.runs && r in db.events {
      var messages := db.messages[m := AssistantMessage(db.runs[r], r, text)];
      FinishTouches(db, db.(results := db.results[r := text], messages := messages), r, Succeeded, None);
      FinishTouches(db, db.(deliveries := db.deliveries[r := d], messages := messages), r, Succeeded, None);
    }
  }

  /** Every transaction but the commit stays within the run it is about. */
  lemma StepTouches(db: Db, step: Step)
    requires !step.DoCommit? && Target(step).Some?
    ensures Touches(db, Next(db, step), Target(step).value)
  {
    assert Touches(db, db, Target(step).value);
    hide Touches, Claim, AppendAlways, AppendWhileRunning, Cancel, Fail, CompleteDiagnosis, CompleteMain, Enabled;
    match step
    case DoClaim(r) => EventTouches(db, r, RunStarted);
    case DoAppendAlways(r, kind) => EventTouches(db, r, kind);
    case DoAppendWhileRunning(r, kind) => EventTouches(db, r, kind);
    case DoCancel(r) => EndTouches(db, r, "");
    case DoFail(r, code) => EndTouches(db, r, code);
    case DoCompleteDiagnosis(r, resultRun, summary, m) => CompleteTouches(db, r, resultRun, summary, false, m, NeedsInput([]), None);
    case DoCompleteMain(r, d, text, m, definitions) => CompleteTouches(db, r, r, text.content, text.sensitive, m, d, definitions);
  }

  /** Messages keep who wrote them, in which session and for which run; new ones belong to no run. */
  ghost predicate PlainMessages(db: Db, next: Db) {
    && (forall m | m in db.messages ::
          m in next.messages && next.messages[m].role == db.messages[m].role
          && next.messages[m].session == db.messages[m].session && next.messages[m].run == db.messages[m].run)
    && (forall m | m in next.messages && m !in db.messages :: next.messages[m].run == None)
  }

  lemma OneMessageChanges(db: Db, m: Id, message: Message)
    requires if m in db.messages
             then message.role == db.messages[m].role && message.session == db.messages[m].session && message.run == db.messages[m].run
             else message.run == None
    ensures PlainMessages(db, db.(messages := db.messages[m := message]))
  {
  }

  lemma MessageStep(db: Db, step: Step)
    requires step.DoPlainMessage? || step.DoEditMessage? || step.DoArchiveMessage?
    ensures var next := Next(db, step); next == db.(messages := next.messages) && PlainMessages(db, next)
  {
    assert PlainMessages(db, db);
    hide PlainMessages;
    match step
    case DoPlainMessage(m, session, role, content) =>
      if m !in db.messages { OneMessageChanges(db, m, Message(session, None, role, content, false)); }
    case DoEditMessage(m, content) =>
      if m in db.messages { OneMessageChanges(db, m, db.messages[m].(content := content)); }
    case DoArchiveMessage(m) =>
      if m in db.messages { OneMessageChanges(db, m, db.messages[m].(archived := true)); }
  }

  lemma SessionStep(db: Db, step: Step)
    requires step.DoAddSession? || step.DoArchiveSession?
    ensures var next := Next(db, step); next == db.(sessions := next.sessions) && forall s | s in db.sessions :: s in next.sessions
  {
  }

  /** The steps without a target change sessions and plain messages. */
  lemma UntargetedStep(db: Db, step: Step)
    requires Target(step).None?
    ensures var next := Next(db, step);
            && next == db.(sessions := next.sessions, messages := next.messages)
            && (forall s | s in db.sessions :: s in next.sessions)
            && PlainMessages(db, next)
  {
    hide Next, PlainMessages;
    if step.DoAddSession? || step.DoArchiveSession? {
      SessionStep(db, step);
      SameMessages(db, Next(db, step));
    } else {
      MessageStep(db, step);
    }
  }

  lemma SameMessages(db: Db, next: Db)
    requires next.messages == db.messages
    ensures PlainMessages(db, next)
  {
  }

  // ----- the invariant, one run at a time

  /** The part of the database that concerns one run. */
  datatype View = View(run: Run, events: seq<Event>, assistants: set<Id>, hasResult: bool, delivery: Option<Delivery>, input: Option<MI.Snapshot>)

  function Assistants(db: Db, r: Id): set<Id> {
    set m | m in db.messages && db.messages[m].run == Some(r) && db.messages[m].role == MI.Assistant
  }

  function ViewOf(db: Db, r: Id): View
    requires r in db.runs && r in db.events
  {
    View(db.runs[r], db.events[r], Assistants(db, r), r in db.results,
         if r in db.deliveries then Some(db.deliveries[r]) else None,
         if r in db.inputs then Some(db.inputs[r]) else None)
  }

  /** The kinds of the rows the service itself wrote. */
  function ServiceKinds(es: seq<Event>): seq<EventType> {
    if es == [] then []
    else
      var n := |es| - 1;
      ServiceKinds(es[..n]) + if es[n].writer == Service then [es[n].kind] else []
  }

  function TerminalOf(s: Status): seq<EventType> {
    if s.Terminal() then [TerminalKind(s)] else []
  }

  ghost predicate Numbered(es: seq<Event>) {
    forall k | 0 <= k < |es| :: es[k].sequence == k + 1
  }

  ghost predicate LogOk(v: View) {
    var es := v.events;
    var started := |es| > 1 && es[1] == Event(2, RunStarted, Service);
    && es != [] && es[0] == Event(1, RunQueued, Service)
    && Numbered(es) && v.run.nextSequence == |es| + 1
    && ServiceKinds(es) == [RunQueued] + (if started then [RunStarted] else []) + TerminalOf(v.run.status)
    && (v.run.status in {Running, Succeeded} ==> started)
    && (v.run.status == Queued ==> |es| == 1)
    && (!started && v.run.status.Terminal() ==> |es| == 2)
    && (v.run.kind == MainAgent && v.run.status.Terminal() ==>
          es[|es| - 1] == Event(|es|, TerminalKind(v.run.status), Service))
  }

  ghost predicate PayloadOk(r: Id, v: View) {
    && |v.assistants| == (if v.run.status == Succeeded then 1 else 0)
    && (v.hasResult <==> v.run.kind == Diagnosis && v.run.status == Succeeded)
    && (v.delivery.Some? <==> v.run.kind == MainAgent && v.run.status == Succeeded)
    && (v.input.Some? <==> v.run.kind == MainAgent)
    && (v.input.Some? ==> MI.ValidSnapshot(v.input.value))
    && (v.delivery.Some? ==> exists definitions :: DeliveryAccepted(v.delivery.value, r, v.input.value, definitions))
  }

  ghost predicate RunOk(r: Id, v: View) { LogOk(v) && PayloadOk(r, v) }

  ghost predicate Inv(db: Db) {
    && db.events.Keys == db.runs.Keys
    && db.results.Keys <= db.runs.Keys && db.deliveries.Keys <= db.runs.Keys && db.inputs.Keys <= db.runs.Keys
    && (forall m | m in db.messages && db.messages[m].run.Some? :: db.messages[m].run.value in db.runs)
    && (forall r | r in db.runs :: RunOk(r, ViewOf(db, r)))
  }

  lemma InvTables(db: Db)
    requires Inv(db)
    ensures db.events.Keys == db.runs.Keys
  {
  }

  // ----- appending to a log

  lemma ServiceKindsAppend(es: seq<Event>, e: Event)
    ensures ServiceKinds(es + [e]) == ServiceKinds(es) + if e.writer == Service then [e.kind] else []
  {
    assert (es + [e])[..|es|] == es;
  }

  lemma ExecutorAppendKeepsLog(v: View, kind: EventType)
    requires LogOk(v) && |v.events| > 1 && v.events[1] == Event(2, RunStarted, Service)
    requires v.run.kind == MainAgent ==> !v.run.status.Terminal()
    ensures LogOk(v.(run := v.run.(nextSequence := v.run.nextSequence + 1),
                     events := v.events + [Event(v.run.nextSequence, kind, Executor)]))
  {
    ServiceKindsAppend(v.events, Event(v.run.nextSequence, kind, Executor));
  }

  lemma FinishKeepsLog(v: View, status: Status, run: Run)
    requires LogOk(v) && !v.run.status.Terminal() && status.Terminal()
    requires status == Succeeded ==> v.run.status == Running
    requires run.kind == v.run.kind && run.status == status && run.nextSequence == v.run.nextSequence + 1
    ensures LogOk(v.(run := run, events := v.events + [Event(v.run.nextSequence, TerminalKind(status), Service)]))
  {
    ServiceKindsAppend(v.events, Event(v.run.nextSequence, TerminalKind(status), Service));
  }

  lemma ClaimKeepsLog(v: View, run: Run)
    requires LogOk(v) && v.run.status == Queued
    requires run.kind == v.run.kind && run.status == Running && run.nextSequence == v.run.nextSequence + 1
    ensures LogOk(v.(run := run, events := v.events + [Event(v.run.nextSequence, RunStarted, Service)]))
  {
    ServiceKindsAppend(v.events, Event(v.run.nextSequence, RunStarted, Service));
    assert ServiceKinds(v.events) == [RunQueued];
  }

  // ----- every step keeps the invariant

  ghost predicate Same<V>(m: map<Id, V>, n: map<Id, V>, q: Id) {
    (q in m <==> q in n) && (q in m ==> n[q] == m[q])
  }

  /** Rows are only added to the message table; run and role of a message never change. */
  ghost predicate MessagesGrow(db: Db, next: Db) {
    forall m | m in db.messages ::
      m in next.messages && next.messages[m].run == db.messages[m].run && next.messages[m].role == db.messages[m].role
  }

  /** A change concerns run `r` at most. */
  ghost predicate OnlyRun(db: Db, next: Db, r: Id) {
    && (forall q | q != r ::
          && Same(db.runs, next.runs, q) && Same(db.events, next.events, q) && Same(db.inputs, next.inputs, q)
          && Same(db.deliveries, next.deliveries, q) && (q in db.results <==> q in next.results))
    && MessagesGrow(db, next)
    && forall m | m in next.messages && m !in db.messages :: next.messages[m].run.Some? ==> next.messages[m].run == Some(r)
  }

  lemma OtherViewsEqual(db: Db, next: Db, r: Id, q: Id)
    requires OnlyRun(db, next, r) && q != r && q in db.runs && q in db.events
    ensures q in next.runs && q in next.events && ViewOf(next, q) == ViewOf(db, q)
  {
    assert Same(db.runs, next.runs, q) && Same(db.events, next.events, q);
    assert Assistants(next, q) == Assistants(db, q);
  }

  /** To keep the invariant it is enough to look at the one run a step concerns. */
  lemma OneRunKeepsInv(db: Db, next: Db, r: Id)
    requires Inv(db) && OnlyRun(db, next, r)
    requires r in next.runs <==> r in next.events
    requires r !in next.runs ==> r !in next.inputs && r !in next.results && r !in next.deliveries
    requires r in next.runs || next.messages.Keys == db.messages.Keys
    requires r in db.runs ==> r in next.runs
    requires r in next.runs && r in next.events ==> RunOk(r, ViewOf(next, r))
    ensures Inv(next)
  {
    hide RunOk, ViewOf;
    forall q | q in next.runs
      ensures q in next.events && RunOk(q, ViewOf(next, q))
    {
      if q != r {
        assert Same(db.runs, next.runs, q) && Same(db.events, next.events, q);
        OtherViewsEqual(db, next, r, q);
      }
    }
    forall q
      ensures (q in next.events ==> q in next.runs) && (q in next.results ==> q in next.runs)
      ensures (q in next.deliveries ==> q in next.runs) && (q in next.inputs ==> q in next.runs)
    {
      if q != r {
        assert Same(db.runs, next.runs, q) && Same(db.events, next.events, q) && Same(db.inputs, next.inputs, q);
        assert Same(db.deliveries, next.deliveries, q);
      }
    }
    forall m | m in next.messages && next.messages[m].run.Some?
      ensures next.messages[m].run.value in next.runs
    {
      if m in db.messages {
        assert db.messages[m].run.value in db.runs;
        assert db.messages[m].run.value != r ==> Same(db.runs, next.runs, db.messages[m].run.value);
      }
    }
  }

  lemma NewRunOk(r: Id, n: NewRun, run: Run)
    requires Proper(n) && run.kind == n.kind && run.status == Queued && run.nextSequence == 2
    ensures RunOk(r, View(run, [Event(1, RunQueued, Service)], {}, false, None, n.snapshot))
  {
    assert ServiceKinds([Event(1, RunQueued, Service)][..0]) == [];
  }

  lemma CommitIsLocal(db: Db, n: NewRun)
    requires Inv(db) && CommitRun(db, n).reply.Ok?
    ensures OnlyRun(db, CommitRun(db, n).db, n.runId)
  {
    hide Inv;
  }

  lemma CommitView(db: Db, n: NewRun)
    requires Inv(db) && CommitRun(db, n).reply.Ok?
    ensures var next, r := CommitRun(db, n).db, n.runId;
            && r in next.runs && r in next.events
            && ViewOf(next, r) == View(next.runs[r], [Event(1, RunQueued, Service)], {}, false, None, n.snapshot)
  {
    hide RunOk;
    var next := CommitRun(db, n).db;
    assert forall m | m in db.messages && db.messages[m].run.Some? :: db.messages[m].run.value != n.runId;
    assert Assistants(next, n.runId) == {};
    assert n.runId !in db.results && n.runId !in db.deliveries && n.runId !in db.inputs;
  }

  lemma CommitKeepsInv(db: Db, n: NewRun)
    requires Inv(db) && Proper(n)
    ensures Inv(CommitRun(db, n).db)
  {
    hide RunOk, ViewOf, Proper, OnlyRun;
    if CommitRun(db, n).reply.Ok? {
      var next := CommitRun(db, n).db;
      CommitIsLocal(db, n);
      CommitView(db, n);
      NewRunOk(n.runId, n, next.runs[n.runId]);
      OneRunKeepsInv(db, next, n.runId);
    }
  }

  /** Rewriting one run's row and log is a local change. */
  lemma EventChangeIsLocal(db: Db, next: Db, r: Id)
    requires r in db.runs && r in db.events && r in next.runs && r in next.events
    requires next == db.(runs := db.runs[r := next.runs[r]], events := db.events[r := next.events[r]])
    ensures OnlyRun(db, next, r)
    ensures ViewOf(next, r) == ViewOf(db, r).(run := next.runs[r], events := next.events[r])
  {
  }

  lemma EventChangeKeepsInv(db: Db, next: Db, r: Id)
    requires Inv(db) && r in db.runs && r in next.runs && r in next.events
    requires next == db.(runs := db.runs[r := next.runs[r]], events := db.events[r := next.events[r]])
    requires RunOk(r, ViewOf(db, r).(run := next.runs[r], events := next.events[r]))
    ensures Inv(next)
  {
    hide RunOk, ViewOf, OnlyRun;
    EventChangeIsLocal(db, next, r);
    OneRunKeepsInv(db, next, r);
  }

  lemma RunOkAppend(r: Id, v: View, kind: EventType)
    requires RunOk(r, v) && |v.events| > 1 && v.events[1] == Event(2, RunStarted, Service)
    requires v.run.kind == MainAgent ==> !v.run.status.Terminal()
    ensures RunOk(r, v.(run := v.run.(nextSequence := v.run.nextSequence + 1),
                        events := v.events + [Event(v.run.nextSequence, kind, Executor)]))
  {
    ExecutorAppendKeepsLog(v, kind);
    hide LogOk;
  }

  lemma AppendKeepsInv(db: Db, r: Id, kind: EventType)
    requires Inv(db) && r in db.runs && Claimed(db, r)
    requires db.runs[r].kind == MainAgent ==> !db.runs[r].status.Terminal()
    ensures Inv(AddEvent(db, r, kind, Executor))
  {
    hide RunOk;
    RunOkAppend(r, ViewOf(db, r), kind);
    EventChangeKeepsInv(db, AddEvent(db, r, kind, Executor), r);
  }

  lemma RunOkClaim(r: Id, v: View)
    requires RunOk(r, v) && v.run.status == Queued
    ensures RunOk(r, v.(run := v.run.(status := Running, nextSequence := v.run.nextSequence + 1),
                        events := v.events + [Event(v.run.nextSequence, RunStarted, Service)]))
  {
    ClaimKeepsLog(v, v.run.(status := Running, nextSequence := v.run.nextSequence + 1));
    hide LogOk;
  }

  lemma ClaimKeepsInv(db: Db, r: Id)
    requires Inv(db)
    ensures Inv(Claim(db, r).db)
  {
    hide RunOk;
    if Claim(db, r).reply == Ok(true) {
      RunOkClaim(r, ViewOf(db, r));
      EventChangeKeepsInv(db, Claim(db, r).db, r);
    }
  }

  lemma RunOkFailure(r: Id, v: View, status: Status, run: Run)
    requires RunOk(r, v) && !v.run.status.Terminal() && status in {Failed, Cancelled}
    requires run.kind == v.run.kind && run.status == status && run.nextSequence == v.run.nextSequence + 1
    ensures RunOk(r, v.(run := run, events := v.events + [Event(v.run.nextSequence, TerminalKind(status), Service)]))
  {
    FinishKeepsLog(v, status, run);
    hide LogOk;
  }

  lemma FailureKeepsInv(db: Db, r: Id, status: Status, code: Option<string>)
    requires Inv(db) && r in db.runs && !db.runs[r].status.Terminal() && status in {Failed, Cancelled}
    ensures Inv(Finish(db, r, status, code))
  {
    hide RunOk;
    var next := Finish(db, r, status, code);
    RunOkFailure(r, ViewOf(db, r), status, next.runs[r]);
    EventChangeKeepsInv(db, next, r);
  }

  lemma OneAssistant(db: Db, next: Db, r: Id, m: Id, message: Message)
    requires Assistants(db, r) == {} && m !in db.messages && next.messages == db.messages[m := message]
    requires message.run == Some(r) && message.role == MI.Assistant
    ensures Assistants(next, r) == {m}
  {
    assert forall n | n in Assistants(next, r) && n != m :: n in Assistants(db, r);
  }

  /** What the success transaction may write: the payload the run's kind calls for, and one message. */
  ghost predicate Writes(db: Db, written: Db, r: Id, m: Id)
    requires r in db.runs
  {
    && m !in db.messages && m in written.messages && written.messages == db.messages[m := written.messages[m]]
    && written.messages[m].run == Some(r) && written.messages[m].role == MI.Assistant
    && written == db.(results := written.results, deliveries := written.deliveries, messages := written.messages)
    && if db.runs[r].kind == Diagnosis
       then written.deliveries == db.deliveries && written.results.Keys == db.results.Keys + {r}
       else
         && written.results == db.results && r in db.inputs && r in written.deliveries
         && written.deliveries == db.deliveries[r := written.deliveries[r]]
         && exists definitions :: DeliveryAccepted(written.deliveries[r], r, db.inputs[r], definitions)
  }

  lemma RunOkSuccess(r: Id, v: View, w: View)
    requires RunOk(r, v) && v.run.status == Running
    requires w.run == v.run.(status := Succeeded, nextSequence := v.run.nextSequence + 1)
    requires w.events == v.events + [Event(v.run.nextSequence, RunSucceeded, Service)]
    requires |w.assistants| == 1 && w.input == v.input
    requires if v.run.kind == Diagnosis then w.hasResult && w.delivery == v.delivery
             else w.hasResult == v.hasResult && w.delivery.Some? && w.input.Some?
                  && exists definitions :: DeliveryAccepted(w.delivery.value, r, w.input.value, definitions)
    ensures RunOk(r, w)
  {
    hide DeliveryAccepted, MI.ValidSnapshot;
    FinishKeepsLog(v, Succeeded, w.run);
    assert LogOk(w) by {
      assert w == v.(run := w.run, events := w.events, assistants := w.assistants, hasResult := w.hasResult, delivery := w.delivery);
    }
    hide LogOk;
  }

  lemma SuccessIsLocal(db: Db, written: Db, r: Id, m: Id)
    requires r in db.runs && r in db.events && Writes(db, written, r, m) && Assistants(db, r) == {}
    ensures OnlyRun(db, Finish(written, r, Succeeded, None), r)
    ensures Assistants(Finish(written, r, Succeeded, None), r) == {m}
  {
    hide DeliveryAccepted;
    OneAssistant(db, Finish(written, r, Succeeded, None), r, m, written.messages[m]);
  }

  lemma SuccessView(db: Db, written: Db, r: Id, m: Id)
    requires r in db.runs && r in db.events && RunOk(r, ViewOf(db, r))
    requires db.runs[r].status == Running && Writes(db, written, r, m)
    ensures var next := Finish(written, r, Succeeded, None);
            && OnlyRun(db, next, r) && r in next.runs && r in next.events && RunOk(r, ViewOf(next, r))
  {
    hide LogOk, DeliveryAccepted, MI.ValidSnapshot, OnlyRun;
    SuccessIsLocal(db, written, r, m);
    RunOkSuccess(r, ViewOf(db, r), ViewOf(Finish(written, r, Succeeded, None), r));
  }

  lemma SuccessKeepsInv(db: Db, written: Db, r: Id, m: Id)
    requires Inv(db) && r in db.runs && db.runs[r].status == Running && Writes(db, written, r, m)
    ensures Inv(Finish(written, r, Succeeded, None))
  {
    hide RunOk, OnlyRun, ViewOf, DeliveryAccepted;
    var next := Finish(written, r, Succeeded, None);
    SuccessView(db, written, r, m);
    OneRunKeepsInv(db, next, r);
  }

  lemma CompleteDiagnosisKeepsInv(db: Db, r: Id, resultRun: Id, summary: string, m: Id)
    requires Inv(db) && r in db.runs && db.runs[r].kind == Diagnosis
    ensures Inv(CompleteDiagnosis(db, r, resultRun, summary, m).db)
  {
    hide RunOk;
    if CompleteDiagnosis(db, r, resultRun, summary, m).db != db {
      var message := AssistantMessage(db.runs[r], r, summary);
      SuccessKeepsInv(db, db.(results := db.results[r := summary], messages := db.messages[m := message]), r, m);
    }
  }

  lemma CompleteMainKeepsInv(db: Db, r: Id, d: Delivery, text: Rendered, m: Id, definitions: Option<map<Capabilities.Key, Definition>>)
    requires Inv(db)
    ensures Inv(CompleteMain(db, r, d, text, m, definitions).db)
  {
    hide RunOk, DeliveryAccepted;
    if CompleteMain(db, r, d, text, m, definitions).db != db {
      var message := AssistantMessage(db.runs[r], r, text.content);
      SuccessKeepsInv(db, db.(deliveries := db.deliveries[r := d], messages := db.messages[m := message]), r, m);
    }
  }

  lemma MessageStepKeepsInv(db: Db, next: Db)
    requires Inv(db) && next == db.(messages := next.messages, sessions := next.sessions) && MessagesGrow(db, next)
    requires forall m | m in next.messages && m !in db.messages :: next.messages[m].run == None
    ensures Inv(next)
  {
    hide RunOk;
    forall r | r in next.runs
      ensures RunOk(r, ViewOf(next, r))
    {
      assert Assistants(next, r) == Assistants(db, r);
      assert ViewOf(next, r) == ViewOf(db, r);
    }
  }

  lemma RunningIsClaimed(db: Db, r: Id)
    requires Inv(db) && r in db.runs && db.runs[r].status == Running
    ensures Claimed(db, r)
  {
    assert RunOk(r, ViewOf(db, r));
  }

  lemma AppendWhileRunningKeepsInv(db: Db, r: Id, kind: EventType)
    requires Inv(db)
    ensures Inv(AppendWhileRunning(db, r, kind).db)
  {
    if AppendWhileRunning(db, r, kind).reply == Ok(true) {
      RunningIsClaimed(db, r);
      hide Inv;
      AppendKeepsInv(db, r, kind);
    }
  }

  lemma CancelAndFailKeepInv(db: Db, r: Id, code: string)
    requires Inv(db)
    ensures Inv(Cancel(db, r).db) && Inv(Fail(db, r, code).db)
  {
    hide Inv, Finish;
    if Cancel(db, r).db != db { FailureKeepsInv(db, r, Cancelled, None); }
    if Fail(db, r, code).db != db { FailureKeepsInv(db, r, Failed, Some(code)); }
  }

  predicate RunStep(step: Step) {
    !(step.DoAddSession? || step.DoArchiveSession? || step.DoPlainMessage? || step.DoEditMessage? || step.DoArchiveMessage?)
  }

  lemma OtherStepKeepsInv(db: Db, step: Step)
    requires Inv(db) && !RunStep(step)
    ensures Inv(Next(db, step))
  {
    hide Inv, Next;
    UntargetedStep(db, step);
    MessageStepKeepsInv(db, Next(db, step));
  }

  lemma NextKeepsInv(db: Db, step: Step)
    requires Inv(db)
    ensures Inv(Next(db, step))
  {
    hide Inv, Claim, CommitRun, CompleteMain, CompleteDiagnosis, Cancel, Fail, AppendWhileRunning, AddEvent;
    if !RunStep(step) {
      OtherStepKeepsInv(db, step);
    } else if Enabled(db, step) {
      match step
      case DoCommit(n) => CommitKeepsInv(db, n);
      case DoClaim(r) => ClaimKeepsInv(db, r);
      case DoAppendAlways(r, kind) => AppendKeepsInv(db, r, kind);
      case DoAppendWhileRunning(r, kind) => AppendWhileRunningKeepsInv(db, r, kind);
      case DoCancel(r) => CancelAndFailKeepInv(db, r, "");
      case DoCompleteDiagnosis(r, resultRun, summary, m) => CompleteDiagnosisKeepsInv(db, r, resultRun, summary, m);
      case DoCompleteMain(r, d, text, m, definitions) => CompleteMainKeepsInv(db, r, d, text, m, definitions);
      case DoFail(r, code) => CancelAndFailKeepInv(db, r, code);
    }
  }

  lemma {:induction false} AfterKeepsInv(db: Db, steps: seq<Step>)
    requires Inv(db)
    ensures Inv(After(db, steps))
    decreases |steps|
  {
    if steps != [] {
      NextKeepsInv(db, steps[0]);
      AfterKeepsInv(Next(db, steps[0]), steps[1..]);
    }
  }
}
