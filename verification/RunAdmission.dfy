/**
 When a call for a run is accepted, and what it stores (backend/src/application/services.py), told from
 the request, the tables and what the call reads, over every reachable state.
 */
module RunAdmission {
  import opened Wrappers
  import W = Whitespace
  import opened MaterialText
  import MI = MainInput
  import TC = TextCompare
  import opened RunLifecycle
  import opened RunAcceptance
  import O = RunOutcomes

  // ----- what the design asks of a request

  /** Some character is no white space. */
  ghost predicate Says(s: string) { exists i :: 0 <= i < |s| && !W.IsSpace(s[i]) }

  /** At most 2000 code points and 100 lines once every line ending is a line feed. */
  ghost predicate TextFits(text: Option<string>) {
    text.Some? ==> |text.value| <= 2_000 && |MaterialLines(ScanNewlines(text.value))| <= 100
  }

  function Flatten(context: seq<MI.ContextMessage>): string {
    if context == [] then "" else context[0].content + Flatten(context[1..])
  }

  /** At most four messages, none empty, 2000 code points altogether. */
  ghost predicate ContextFits(context: seq<MI.ContextMessage>) {
    && |context| <= 4 && |Flatten(context)| <= 2_000
    && forall i | 0 <= i < |context| :: 0 < |context[i].content|
  }

  /** The session has the service asked for; nothing was asked for and there is one service, or no service is called for. */
  predicate Serviceable(services: seq<string>, asked: Option<string>, asksDatabase: bool) {
    match asked case Some(id) => id in services case None => |services| == 1 || !asksDatabase
  }

  ghost predicate SessionOpen(db: Db, session: Id) { session in db.sessions && !db.sessions[session].archived }

  /** The scope a request uses; a rerun's is that of its source's session. */
  function ScopeOf(db: Db, request: Request): Scope
    requires request.RerunOf? ==> request.source in db.runs
  {
    match request
    case CreateDiagnosis(session, _, _, key) => Scope(session, Create, key)
    case CreateMain(session, _, key) => Scope(session, Create, key)
    case RerunOf(source, key) => Scope(db.runs[source].session, Rerun, key)
  }

  /** What is asked can be told from the request and the tables: a query, or a source that has ended. */
  ghost predicate Askable(db: Db, request: Request) {
    match request
    case CreateDiagnosis(_, query, _, _) => |query| <= 4_000 && Says(query)
    case CreateMain(_, _, _) => true
    case RerunOf(source, _) =>
      && source in db.runs && db.runs[source].status in {Succeeded, Failed, Cancelled}
      && var run := db.runs[source];
      && (run.kind == Diagnosis ==>
            && run.inputMessage in db.messages
            && |db.messages[run.inputMessage].content| <= 4_000 && Says(db.messages[run.inputMessage].content))
      && (run.kind == MainAgent ==> source in db.inputs)
  }

  /** What a call must bring before its key is looked up: that, an open session and for a diagnosis a service. */
  ghost predicate Addressed(db: Db, request: Request, sight: Sight) {
    && Askable(db, request)
    && match request
       case CreateDiagnosis(session, _, service, _) =>
         SessionOpen(db, session) && Serviceable(db.sessions[session].services, service, sight.asksDatabase)
       case CreateMain(session, _, _) => SessionOpen(db, session)
       case RerunOf(source, _) =>
         var run := db.runs[source];
         SessionOpen(db, run.session)
         && (run.kind == Diagnosis ==> Serviceable(db.sessions[run.session].services, run.service, sight.asksDatabase))
  }

  /** What the frozen input of a main-agent run must be. */
  ghost predicate Freezable(db: Db, request: Request, ids: Fresh, sight: Sight)
    requires Addressed(db, request, sight)
  {
    match request
    case CreateDiagnosis(_, _, _, _) => true
    case CreateMain(_, input, _) =>
      && !sight.sensitive && |input.query| <= 200 && Says(input.query)
      && TextFits(input.textA) && TextFits(input.textB) && (input.textA.Some? && input.textB.Some? ==> ids.idA != ids.idB)
      && ContextFits(sight.context)
    case RerunOf(source, _) =>
      db.runs[source].kind == MainAgent && db.inputs[source].textA.Some? && db.inputs[source].textB.Some? ==> ids.idA != ids.idB
  }

  // ----- what the design stores

  function ServiceFor(services: seq<string>, asked: Option<string>): Option<string> {
    match asked case Some(_) => asked case None => if |services| == 1 then Some(services[0]) else None
  }

  function Frozen(text: Option<string>, id: Id): Option<TC.Material> {
    match text
    case None => None
    case Some(t) => Some(TC.Material(id, t, ScanNewlines(t), TC.Sha256(ScanNewlines(t))))
  }

  function Copied(m: Option<TC.Material>, id: Id): Option<TC.Material> {
    match m case None => None case Some(v) => Some(TC.Material(id, v.original, v.normalized, v.digest))
  }

  function Words(m: Option<TC.Material>): Option<string> {
    match m case None => None case Some(v) => Some(v.original)
  }

  /** What the fingerprint of a request hashes: the words of the request, and for a rerun those of its source. */
  ghost function FingerprintAsked(db: Db, request: Request): MI.Fingerprint
    requires Askable(db, request)
  {
    match request
    case CreateDiagnosis(_, query, service, _) =>
      MI.CreateText(match service case None => W.Strip(query) case Some(id) => W.Strip(query) + "\n" + id)
    case CreateMain(_, input, _) => MI.CreateMain(input.query, input.textA, input.textB)
    case RerunOf(source, _) =>
      var run := db.runs[source];
      match run.kind
      case Diagnosis =>
        MI.RerunText(source, W.Strip(db.messages[run.inputMessage].content) + "\n" + match run.service case None => "" case Some(id) => id)
      case MainAgent =>
        var s := db.inputs[source];
        MI.RerunMain(source, s.ruleVersion, s.query, Words(s.textA), Words(s.textB), s.context)
  }

  function KindAsked(db: Db, request: Request): Kind
    requires request.RerunOf? ==> request.source in db.runs
  {
    match request
    case CreateDiagnosis(_, _, _, _) => Diagnosis
    case CreateMain(_, _, _) => MainAgent
    case RerunOf(source, _) => db.runs[source].kind
  }

  /** The row, message, key and input a call asks for. */
  ghost function RunAsked(db: Db, request: Request, ids: Fresh, sight: Sight): NewRun
    requires Addressed(db, request, sight)
  {
    var scope, fingerprint, kind := ScopeOf(db, request), FingerprintAsked(db, request), KindAsked(db, request);
    match request
    case CreateDiagnosis(session, query, service, _) =>
      NewRun(ids.runId, ids.messageId, scope, fingerprint, kind, W.Strip(query),
             ServiceFor(db.sessions[session].services, service), None, None)
    case CreateMain(_, input, _) =>
      NewRun(ids.runId, ids.messageId, scope, fingerprint, kind, input.query, None,
             Some(MI.Snapshot(input.query, Frozen(input.textA, ids.idA), Frozen(input.textB, ids.idB), "literal-lines@1", sight.context)),
             None)
    case RerunOf(source, _) =>
      var run := db.runs[source];
      match run.kind
      case Diagnosis =>
        NewRun(ids.runId, ids.messageId, scope, fingerprint, kind, W.Strip(db.messages[run.inputMessage].content),
               ServiceFor(db.sessions[run.session].services, run.service), None, Some(source))
      case MainAgent =>
        var s := db.inputs[source];
        NewRun(ids.runId, ids.messageId, scope, fingerprint, kind, s.query, None,
               Some(MI.Snapshot(s.query, Copied(s.textA, ids.idA), Copied(s.textB, ids.idB), s.ruleVersion, s.context)), Some(source))
  }

  // ----- the checks of the code are these

  lemma SaysSomething(s: string)
    ensures W.Strip(s) != [] <==> Says(s)
  {
    W.StripOfBlank(s);
  }

  lemma {:induction false} FlattenIsSize(context: seq<MI.ContextMessage>)
    ensures MI.ContextSize(context) == |Flatten(context)|
    ensures forall i | 0 <= i < |context| :: |context[i].content| <= |Flatten(context)|
    decreases |context|
  {
    if context != [] {
      FlattenIsSize(context[1..]);
      forall i | 0 <= i < |context| ensures |context[i].content| <= |Flatten(context)| {
        if i > 0 { assert context[i] == context[1..][i - 1]; }
      }
    }
  }

  lemma ContextIsValid(context: seq<MI.ContextMessage>)
    ensures MI.ValidContext(context) <==> ContextFits(context)
  {
    FlattenIsSize(context);
  }

  lemma {:induction false} TextIsAccepted(text: Option<string>, id: Id)
    ensures MI.MaterialOf(text, id) == if TextFits(text) then Ok(Frozen(text, id)) else Err(MI.MaterialInvalid)
    ensures TextFits(text) ==> MI.ValidMaterial(Frozen(text, id))
  {
    if text.Some? {
      NormalizeIsOneScan(text.value);
      MaterialLinesRoundTrip(ScanNewlines(text.value));
    }
  }

  lemma {:induction false} SnapshotIsBuilt(input: MI.Input, sight: Sight, ids: Fresh)
    ensures var s := MI.Snapshot(input.query, Frozen(input.textA, ids.idA), Frozen(input.textB, ids.idB), "literal-lines@1", sight.context);
            var built := MI.BuildSnapshot(input, sight.context, ids.idA, ids.idB);
            if |input.query| <= 200 && Says(input.query) && TextFits(input.textA) && TextFits(input.textB)
               && (input.textA.Some? && input.textB.Some? ==> ids.idA != ids.idB) && ContextFits(sight.context)
            then built == Ok(s) else built.Err?
  {
    TextIsAccepted(input.textA, ids.idA);
    TextIsAccepted(input.textB, ids.idB);
    SaysSomething(input.query);
    ContextIsValid(sight.context);
    hide TextFits, Says, ContextFits, MI.MaterialOf, MI.ValidMaterial, MI.ValidContext, W.Strip;
  }

  lemma {:induction false} SnapshotIsRebuilt(s: MI.Snapshot, ids: Fresh)
    requires MI.ValidSnapshot(s)
    ensures var rebuilt := MI.RebuildSnapshot(s, ids.idA, ids.idB);
            if s.textA.Some? && s.textB.Some? ==> ids.idA != ids.idB
            then rebuilt == Ok(MI.Snapshot(s.query, Copied(s.textA, ids.idA), Copied(s.textB, ids.idB), s.ruleVersion, s.context))
            else rebuilt.Err?
  {
    hide MI.ValidContext, MI.ValidQuery;
  }

  // ----- the read step

  lemma {:induction false} ServiceIsResolved(services: seq<string>, asked: Option<string>, asksDatabase: bool)
    ensures ResolveService(services, asked, asksDatabase)
            == if Serviceable(services, asked, asksDatabase) then Ok(ServiceFor(services, asked)) else Err(ServiceContextRequired)
  {
  }

  /** The three ways the read step ends. */
  ghost predicate ReadAsTold(db: Db, request: Request, ids: Fresh, sight: Sight) {
    var client := AfterRead(db, request, ids, sight);
    if !Addressed(db, request, sight) then client.Finished? && client.reply.Err?
    else
      var n := RunAsked(db, request, ids, sight);
      if n.scope in db.keys then
        var key := db.keys[n.scope];
        && client.Finished?
        && client.reply == if key.fingerprint == n.fingerprint && key.run in db.runs && db.runs[key.run].kind == n.kind
                           then Ok(Accepted(key.run, true))
                           else Err(if key.fingerprint == n.fingerprint && key.run !in db.runs then UnknownRun else KeyReused)
      else if Freezable(db, request, ids, sight) then client.Writing? && client.request == request && client.n == n
      else client.Finished? && client.reply.Err?
  }

  lemma {:induction false} DiagnosisRead(db: Db, request: Request, ids: Fresh, sight: Sight)
    requires request.CreateDiagnosis?
    ensures ReadAsTold(db, request, ids, sight)
  {
    SaysSomething(request.query);
    if request.session in db.sessions {
      ServiceIsResolved(db.sessions[request.session].services, request.service, sight.asksDatabase);
    }
    hide Says, W.Strip, ResolveService, Serviceable, ServiceFor;
  }

  lemma {:induction false} MainRead(db: Db, request: Request, ids: Fresh, sight: Sight)
    requires request.CreateMain?
    ensures ReadAsTold(db, request, ids, sight)
  {
    SnapshotIsBuilt(request.input, sight, ids);
    hide Says, TextFits, ContextFits, Frozen, MI.BuildSnapshot;
  }

  lemma {:induction false} DiagnosisRerunRead(db: Db, request: Request, ids: Fresh, sight: Sight)
    requires request.RerunOf? && O.Settled(db, request.source) && db.runs[request.source].kind == Diagnosis
    ensures ReadAsTold(db, request, ids, sight)
  {
    var run := db.runs[request.source];
    SaysSomething(db.messages[run.inputMessage].content);
    ServiceIsResolved(db.sessions[run.session].services, run.service, sight.asksDatabase);
    hide Says, W.Strip, ResolveService, Serviceable, ServiceFor, Copied, MI.RebuildSnapshot, MI.RerunFingerprint, MI.ValidSnapshot;
  }

  lemma {:induction false} MainRerunRead(db: Db, request: Request, ids: Fresh, sight: Sight)
    requires request.RerunOf? && O.Settled(db, request.source) && db.runs[request.source].kind == MainAgent
    ensures ReadAsTold(db, request, ids, sight)
  {
    SnapshotIsRebuilt(db.inputs[request.source], ids);
    assert db.inputs[request.source].ruleVersion == TC.RULE_VERSION;
    hide Says, W.Strip, ResolveService, Serviceable, ServiceFor, Copied, MI.RebuildSnapshot, MI.ValidSnapshot, QueryOk;
  }

  lemma {:induction false} RerunRead(db: Db, request: Request, ids: Fresh, sight: Sight)
    requires request.RerunOf? && (request.source in db.runs ==> O.Settled(db, request.source))
    ensures ReadAsTold(db, request, ids, sight)
  {
    if request.source in db.runs {
      hide *;
      if db.runs[request.source].kind == Diagnosis {
        DiagnosisRerunRead(db, request, ids, sight);
      } else {
        MainRerunRead(db, request, ids, sight);
      }
    }
  }

  lemma {:induction false} ReadIsAsTold(moves: seq<Move>, request: Request, ids: Fresh, sight: Sight)
    ensures ReadAsTold(O.Reached(moves), request, ids, sight)
  {
    hide *;
    match request
    case CreateDiagnosis(_, _, _, _) => DiagnosisRead(O.Reached(moves), request, ids, sight);
    case CreateMain(_, _, _) => MainRead(O.Reached(moves), request, ids, sight);
    case RerunOf(source, _) =>
      O.ReachedIsSettled(moves, source);
      RerunRead(O.Reached(moves), request, ids, sight);
  }

  // ----- the whole call

  /** The scope a request uses is free and the request is in order. */
  ghost predicate Acceptable(db: Db, request: Request, ids: Fresh, sight: Sight) {
    Addressed(db, request, sight) && Freezable(db, request, ids, sight) && ScopeOf(db, request) !in db.keys
  }

  /**
   In every reachable state a call with fresh ids creates its run exactly when it is in order and its scope
   is free; message, run, input, key and RUN_QUEUED row are then stored together as asked, and every other
   call leaves the database as it was.
   */
  lemma {:induction false} AcceptedIffInOrder(moves: seq<Move>, request: Request, ids: Fresh, sight: Sight)
    requires ids.runId !in O.Reached(moves).runs && ids.messageId !in O.Reached(moves).messages
    ensures var db := O.Reached(moves); var (next, reply) := AcceptAlone(db, request, ids, sight);
            && (reply == Ok(Accepted(ids.runId, false)) <==> Acceptable(db, request, ids, sight))
            && next == if Acceptable(db, request, ids, sight) then O.Inserted(db, RunAsked(db, request, ids, sight)) else db
  {
    ReadIsAsTold(moves, request, ids, sight);
    if Addressed(O.Reached(moves), request, sight) {
      AskedIds(O.Reached(moves), request, ids, sight);
      O.CommitOutcome(moves, RunAsked(O.Reached(moves), request, ids, sight));
    }
    hide O.Reached, Addressed, Askable, Freezable, RunAsked, ScopeOf, AfterRead, CommitRun, O.Inserted;
  }

  lemma {:induction false} AskedIds(db: Db, request: Request, ids: Fresh, sight: Sight)
    requires Addressed(db, request, sight)
    ensures var n := RunAsked(db, request, ids, sight);
            && n.runId == ids.runId && n.messageId == ids.messageId && n.scope == ScopeOf(db, request)
            && n.fingerprint == FingerprintAsked(db, request) && n.kind == KindAsked(db, request)
  {
    hide Says, Serviceable, ServiceFor, Frozen, Copied, W.Strip;
  }

  /** What a taken scope answers: its run for the same words and kind, else a conflict. */
  ghost function AnswerOf(db: Db, request: Request): Result<Accepted, AcceptError>
    requires Askable(db, request) && ScopeOf(db, request) in db.keys && db.keys[ScopeOf(db, request)].run in db.runs
  {
    var key := db.keys[ScopeOf(db, request)];
    if key.fingerprint == FingerprintAsked(db, request) && db.runs[key.run].kind == KindAsked(db, request)
    then Ok(Accepted(key.run, true)) else Err(KeyReused)
  }

  /**
   A call in order whose scope is taken gets the run stored there when that run was asked for in the same
   words and is of the same kind, else a conflict; nothing is written.
   */
  lemma {:induction false} TakenScopeTellsTheSameRequest(moves: seq<Move>, request: Request, ids: Fresh, sight: Sight)
    requires Addressed(O.Reached(moves), request, sight) && ScopeOf(O.Reached(moves), request) in O.Reached(moves).keys
    ensures var db := O.Reached(moves);
            db.keys[ScopeOf(db, request)].run in db.runs && AcceptAlone(db, request, ids, sight) == (db, AnswerOf(db, request))
  {
    var db := O.Reached(moves);
    ReadIsAsTold(moves, request, ids, sight);
    AskedIds(db, request, ids, sight);
    KeysHaveRuns(moves, ScopeOf(db, request));
    hide O.Reached, Addressed, Askable, Freezable, RunAsked, ScopeOf, FingerprintAsked, KindAsked, AfterRead;
  }

  lemma {:induction false} RereadPrepares(db: Db, request: Request)
    requires Askable(db, request) && (request.RerunOf? ==> O.Settled(db, request.source))
    ensures var client := AfterReadAgain(db, request);
            && client.LookingUp? && client.p.scope == ScopeOf(db, request) && client.p.fingerprint == FingerprintAsked(db, request)
            && KindOf(client.p.command) == KindAsked(db, request)
  {
    match request
    case CreateDiagnosis(_, query, _, _) => SaysSomething(query);
    case CreateMain(_, _, _) =>
    case RerunOf(source, _) =>
      if db.runs[source].kind == Diagnosis { SaysSomething(db.messages[db.runs[source].inputMessage].content); }
    hide Says, W.Strip;
  }

  /** A call that lost a race and can still be told is answered by what its scope holds now, as any later call is. */
  lemma {:induction false} LoserIsAnswered(moves: seq<Move>, c: Id)
    requires var w := Play(INITIAL, moves);
             && c in w.clients && w.clients[c].Conflicted? && Askable(w.db, w.clients[c].request)
             && ScopeOf(w.db, w.clients[c].request) in w.db.keys
    ensures var w := Play(INITIAL, moves); var request := w.clients[c].request;
            var next := Go(Go(w, ReadAgain(c)), LookUp(c));
            && next.db == w.db && c in next.clients && next.clients[c].Finished?
            && w.db.keys[ScopeOf(w.db, request)].run in w.db.runs && next.clients[c].reply == AnswerOf(w.db, request)
  {
    var w := Play(INITIAL, moves);
    var request := w.clients[c].request;
    assert O.Reached(moves) == w.db;
    KeysHaveRuns(moves, ScopeOf(w.db, request));
    if request.RerunOf? { O.ReachedIsSettled(moves, request.source); }
    RereadPrepares(w.db, request);
    hide Play, O.Reached, Askable, ScopeOf, FingerprintAsked, KindAsked, AfterReadAgain, O.Settled;
  }

  lemma {:induction false} KeysHaveRuns(moves: seq<Move>, scope: Scope)
    requires scope in O.Reached(moves).keys
    ensures O.Reached(moves).keys[scope].run in O.Reached(moves).runs
  {
    Reachable(moves);
    hide Play, Inv, OrderOk, RerunsOk, InputsPresent;
  }

  // ----- the reasons for a refusal

  /** Why the session and its services turn a call down. */
  ghost function SessionReason(db: Db, session: Id): AcceptError {
    if session !in db.sessions then UnknownSession
    else if db.sessions[session].archived then SessionArchived
    else ServiceContextRequired
  }

  /** The first condition a call that is not accepted falls short of. */
  ghost function Reason(db: Db, request: Request, sight: Sight): AcceptError {
    match request
    case CreateDiagnosis(session, query, _, _) =>
      if |query| > 4_000 || !Says(query) then QueryInvalid else SessionReason(db, session)
    case CreateMain(session, input, _) =>
      if !SessionOpen(db, session) then SessionReason(db, session)
      else if sight.sensitive then InputRejected
      else if !TextFits(input.textA) || !TextFits(input.textB) then InputFailed(MI.MaterialInvalid)
      else InputFailed(MI.SnapshotInvalid)
    case RerunOf(source, _) =>
      if source !in db.runs then UnknownRun
      else
        var run := db.runs[source];
        if run.status in {Queued, Running} then RunNotTerminal
        else if run.kind == MainAgent then
          if SessionOpen(db, run.session) then InputFailed(MI.SnapshotInvalid) else SessionReason(db, run.session)
        else if run.inputMessage in db.messages
                && (|db.messages[run.inputMessage].content| > 4_000 || !Says(db.messages[run.inputMessage].content)) then QueryInvalid
        else SessionReason(db, run.session)
  }

  lemma {:induction false} SnapshotRefused(input: MI.Input, sight: Sight, ids: Fresh)
    requires MI.BuildSnapshot(input, sight.context, ids.idA, ids.idB).Err?
    ensures MI.BuildSnapshot(input, sight.context, ids.idA, ids.idB)
            == Err(if !TextFits(input.textA) || !TextFits(input.textB) then MI.MaterialInvalid else MI.SnapshotInvalid)
  {
    TextIsAccepted(input.textA, ids.idA);
    TextIsAccepted(input.textB, ids.idB);
    hide TextFits, MI.MaterialOf, MI.ValidSnapshot;
  }

  /** A call with a free scope that is not in order is refused for the first condition it falls short of. */
  lemma {:induction false} RefusalSaysWhy(moves: seq<Move>, request: Request, ids: Fresh, sight: Sight)
    requires !Addressed(O.Reached(moves), request, sight)
             || (ScopeOf(O.Reached(moves), request) !in O.Reached(moves).keys && !Freezable(O.Reached(moves), request, ids, sight))
    ensures AcceptAlone(O.Reached(moves), request, ids, sight) == (O.Reached(moves), Err(Reason(O.Reached(moves), request, sight)))
  {
    var db := O.Reached(moves);
    match request
    case CreateDiagnosis(session, query, service, _) =>
      SaysSomething(query);
      if session in db.sessions { ServiceIsResolved(db.sessions[session].services, service, sight.asksDatabase); }
      hide O.Reached, Says, W.Strip, ResolveService, Serviceable, ServiceFor;
    case CreateMain(_, input, _) =>
      SnapshotIsBuilt(input, sight, ids);
      if MI.BuildSnapshot(input, sight.context, ids.idA, ids.idB).Err? { SnapshotRefused(input, sight, ids); }
      hide O.Reached, Says, TextFits, ContextFits, Frozen, MI.BuildSnapshot;
    case RerunOf(source, _) =>
      O.ReachedIsSettled(moves, source);
      if source in db.runs { RerunRefused(db, request, ids, sight); }
      hide O.Reached, O.Settled, Says, TextFits, W.Strip, ResolveService, Serviceable, Addressed, Freezable;
  }

  lemma {:induction false} RerunRefused(db: Db, request: Request, ids: Fresh, sight: Sight)
    requires request.RerunOf? && request.source in db.runs && O.Settled(db, request.source)
    requires !Addressed(db, request, sight)
             || (ScopeOf(db, request) !in db.keys && !Freezable(db, request, ids, sight))
    ensures var client := AfterRead(db, request, ids, sight);
            client.Finished? && client.reply == Err(Reason(db, request, sight))
  {
    var run := db.runs[request.source];
    if run.kind == Diagnosis {
      SaysSomething(db.messages[run.inputMessage].content);
      ServiceIsResolved(db.sessions[run.session].services, run.service, sight.asksDatabase);
    } else {
      SnapshotIsRebuilt(db.inputs[request.source], ids);
    }
    hide Says, W.Strip, ResolveService, Serviceable, ServiceFor, Copied;
  }
}
