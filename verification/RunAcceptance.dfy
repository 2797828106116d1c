/**
 Accepting a run under an idempotency key (backend/src/application/services.py): a read step, a
 commit step on which the unique constraints decide, and a re-read after a lost race. Any number
 of clients interleave with each other and with every other transaction.
 */
module RunAcceptance {
  import opened Wrappers
  import opened Whitespace
  import MI = MainInput
  import TC = TextCompare
  import opened MainDelivery
  import opened RunLifecycle
  import opened RunHistory
  import opened RunLog

  const MAX_QUERY := 4_000

  datatype Request =
    | CreateDiagnosis(session: Id, query: string, service: Option<string>, key: Id)
    | CreateMain(session: Id, input: MI.Input, key: Id)
    | RerunOf(source: Id, key: Id)

  datatype Command =
    | Diagnose(query: string, service: Option<string>)
    | RunMain(input: MI.Input)
    | RepeatMain(snapshot: MI.Snapshot)

  /** A command with its unique scope and its fingerprint. */
  datatype Prepared = Prepared(scope: Scope, command: Command, fingerprint: MI.Fingerprint, rerunOf: Option<Id>)

  datatype Accepted = Accepted(run: Id, replayed: bool)

  datatype AcceptError =
    | UnknownSession | SessionArchived | ServiceContextRequired | KeyReused | UnknownRun | RunNotTerminal
    | QueryInvalid | InputRejected | InputFailed(error: MI.InputError) | NoInput | RuleUnsupported
    | BadInputMessage | Refused

  /** The UUIDs one call draws. */
  datatype Fresh = Fresh(runId: Id, messageId: Id, idA: Id, idB: Id)

  /** What a call reads that is left open here: keyword and credential checks, the recent context. */
  datatype Sight = Sight(asksDatabase: bool, context: seq<MI.ContextMessage>, sensitive: bool)

  function KindOf(c: Command): Kind { if c.Diagnose? then Diagnosis else MainAgent }

  // ----- fingerprints of diagnosis requests

  function QueryText(query: string, service: Option<string>): string {
    match service case None => Strip(query) case Some(id) => Strip(query) + "\n" + id
  }

  function RerunQueryText(query: string, service: Option<string>): string {
    Strip(query) + "\n" + match service case None => "" case Some(id) => id
  }

  // ----- the read step

  function PrepareCreate(request: Request): Prepared
    requires !request.RerunOf?
  {
    match request
    case CreateDiagnosis(session, query, service, key) =>
      Prepared(Scope(session, Create, key), Diagnose(Strip(query), service),
               MI.CreateText(QueryText(query, service)), None)
    case CreateMain(session, input, key) =>
      Prepared(Scope(session, Create, key), RunMain(input), MI.CreateFingerprint(input), None)
  }

  predicate QueryOk(query: string) { 1 <= |query| <= MAX_QUERY && Strip(query) != [] }

  /** `_build_rerun_command` and its fingerprint. */
  function PrepareRerun(db: Db, source: Id, key: Id): Result<Prepared, AcceptError> {
    if source !in db.runs then Err(UnknownRun)
    else
      var run := db.runs[source];
      var scope := Scope(run.session, Rerun, key);
      if !run.status.Terminal() then Err(RunNotTerminal)
      else if run.kind == MainAgent then
        if source !in db.inputs then Err(NoInput)
        else if db.inputs[source].ruleVersion != TC.RULE_VERSION then Err(RuleUnsupported)
        else
          Ok(Prepared(scope, RepeatMain(db.inputs[source]), MI.RerunFingerprint(source, db.inputs[source]), Some(source)))
      else if !InputMessageOk(db, run) then Err(BadInputMessage)
      else
        var query := db.messages[run.inputMessage].content;
        if !QueryOk(query) then Err(QueryInvalid)
        else
          Ok(Prepared(scope, Diagnose(Strip(query), run.service),
                      MI.RerunText(source, RerunQueryText(query, run.service)), Some(source)))
  }

  function Prepare(db: Db, request: Request): Result<Prepared, AcceptError> {
    match request
    case RerunOf(source, key) => PrepareRerun(db, source, key)
    case CreateDiagnosis(_, query, _, _) => if QueryOk(query) then Ok(PrepareCreate(request)) else Err(QueryInvalid)
    case CreateMain(_, _, _) => Ok(PrepareCreate(request))
  }

  function ResolveService(services: seq<string>, service: Option<string>, asksDatabase: bool): Result<Option<string>, AcceptError> {
    if service.Some? then if service.value in services then Ok(service) else Err(ServiceContextRequired)
    else if |services| == 1 then Ok(Some(services[0]))
    else if asksDatabase then Err(ServiceContextRequired)
    else Ok(None)
  }

  /** What a call that finds the key answers, at the first read and after a lost race. */
  function Replay(db: Db, stored: Key, fingerprint: MI.Fingerprint, kind: Kind): Result<Accepted, AcceptError> {
    if stored.fingerprint != fingerprint then Err(KeyReused)
    else if stored.run !in db.runs then Err(UnknownRun)
    else if db.runs[stored.run].kind != kind then Err(KeyReused)
    else Ok(Accepted(stored.run, true))
  }

  function SnapshotFor(c: Command, ids: Fresh, sight: Sight): Result<Option<MI.Snapshot>, AcceptError> {
    match c
    case Diagnose(_, _) => Ok(None)
    case RunMain(input) =>
      if sight.sensitive then Err(InputRejected)
      else (match MI.BuildSnapshot(input, sight.context, ids.idA, ids.idB)
            case Err(e) => Err(InputFailed(e))
            case Ok(s) => Ok(Some(s)))
    case RepeatMain(snapshot) =>
      match MI.RebuildSnapshot(snapshot, ids.idA, ids.idB)
      case Err(e) => Err(InputFailed(e))
      case Ok(s) => Ok(Some(s))
  }

  function ContentFor(c: Command): string {
    match c
    case Diagnose(query, _) => query
    case RunMain(input) => input.query
    case RepeatMain(snapshot) => snapshot.query
  }

  datatype Decision = Answered(reply: Result<Accepted, AcceptError>) | Insert(n: NewRun)

  /** `_accept_run_in_transaction` up to its writes. */
  function Decide(db: Db, p: Prepared, ids: Fresh, sight: Sight): Decision {
    if p.scope.session !in db.sessions then Answered(Err(UnknownSession))
    else if db.sessions[p.scope.session].archived then Answered(Err(SessionArchived))
    else
      var service := if p.command.Diagnose?
                     then ResolveService(db.sessions[p.scope.session].services, p.command.service, sight.asksDatabase)
                     else Ok(None);
      if service.Err? then Answered(Err(service.error))
      else if p.scope in db.keys then Answered(Replay(db, db.keys[p.scope], p.fingerprint, KindOf(p.command)))
      else
        var snapshot := SnapshotFor(p.command, ids, sight);
        if snapshot.Err? then Answered(Err(snapshot.error))
        else
          Insert(NewRun(ids.runId, ids.messageId, p.scope, p.fingerprint, KindOf(p.command), ContentFor(p.command),
                        service.value, snapshot.value, p.rerunOf))
  }

  /** `_load_idempotency_after_conflict` */
  function Reload(db: Db, p: Prepared): Result<Accepted, AcceptError> {
    if p.scope !in db.keys then Err(Refused)
    else Replay(db, db.keys[p.scope], p.fingerprint, KindOf(p.command))
  }

  // ----- clients

  datatype Client =
    | Waiting(request: Request)
    | Writing(request: Request, p: Prepared, n: NewRun)
    | Conflicted(request: Request)
    | LookingUp(p: Prepared)
    | Finished(used: Option<Prepared>, reply: Result<Accepted, AcceptError>)

  datatype World = World(db: Db, clients: map<Id, Client>)

  datatype Move =
    | Environment(step: Step)
    | Call(c: Id, request: Request)
    | Read(c: Id, ids: Fresh, sight: Sight)
    | Write(c: Id)
    | ReadAgain(c: Id)
    | LookUp(c: Id)

  function AfterRead(db: Db, request: Request, ids: Fresh, sight: Sight): Client {
    match Prepare(db, request)
    case Err(e) => Finished(None, Err(e))
    case Ok(p) =>
      match Decide(db, p, ids, sight)
      case Answered(reply) => Finished(Some(p), reply)
      case Insert(n) => Writing(request, p, n)
  }

  function AfterWrite(db: Db, client: Client): Client
    requires client.Writing?
  {
    if CommitRun(db, client.n).reply.Ok? then Finished(Some(client.p), Ok(Accepted(client.n.runId, false)))
    else Conflicted(client.request)
  }

  /** The re-read after a lost race first rebuilds the command, in a transaction of its own for a rerun. */
  function AfterReadAgain(db: Db, request: Request): Client {
    match Prepare(db, request) case Err(e) => Finished(None, Err(e)) case Ok(p) => LookingUp(p)
  }

  /** Then it looks the scope up. */
  function AfterLookUp(db: Db, p: Prepared): Client { Finished(Some(p), Reload(db, p)) }

  /** One call with nothing in between: accept, and re-read when the commit was refused. */
  function AcceptAlone(db: Db, request: Request, ids: Fresh, sight: Sight): (Db, Result<Accepted, AcceptError>) {
    var client := AfterRead(db, request, ids, sight);
    if client.Finished? then (db, client.reply)
    else if client.Writing? then
      var written := AfterWrite(db, client);
      if written.Finished? then (CommitRun(db, client.n).db, written.reply)
      else
        match AfterReadAgain(db, request)
        case LookingUp(p) => (db, AfterLookUp(db, p).reply)
        case Finished(_, reply) => (db, reply)
        case _ => (db, Err(Refused))
    else (db, Err(Refused))
  }

  function Go(w: World, move: Move): World {
    match move
    case Environment(step) => if step.DoCommit? then w else w.(db := Next(w.db, step))
    case Call(c, request) => if c in w.clients then w else w.(clients := w.clients[c := Waiting(request)])
    case Read(c, ids, sight) =>
      if c in w.clients && w.clients[c].Waiting?
      then w.(clients := w.clients[c := AfterRead(w.db, w.clients[c].request, ids, sight)]) else w
    case Write(c) =>
      if c in w.clients && w.clients[c].Writing?
      then World(CommitRun(w.db, w.clients[c].n).db, w.clients[c := AfterWrite(w.db, w.clients[c])]) else w
    case ReadAgain(c) =>
      if c in w.clients && w.clients[c].Conflicted?
      then w.(clients := w.clients[c := AfterReadAgain(w.db, w.clients[c].request)]) else w
    case LookUp(c) =>
      if c in w.clients && w.clients[c].LookingUp?
      then w.(clients := w.clients[c := AfterLookUp(w.db, w.clients[c].p)]) else w
  }

  function Play(w: World, moves: seq<Move>): World
    decreases |moves|
  {
    if moves == [] then w else Play(Go(w, moves[0]), moves[1..])
  }

  const INITIAL := World(EMPTY, map[])

  // ----- invariants of the tables

  /** Keys and runs belong to each other one to one. */
  ghost predicate KeysOk(db: Db) {
    && |db.keys| == |db.runs|
    && (forall s | s in db.keys :: db.keys[s].run in db.runs && db.runs[db.keys[s].run].session == s.session)
    && (forall s, t | s in db.keys && t in db.keys && s != t :: db.keys[s].run != db.keys[t].run)
  }

  /** The insertion order lists every run once. */
  ghost predicate OrderOk(db: Db) {
    && |db.order| == |db.runs|
    && (forall i | 0 <= i < |db.order| :: db.order[i] in db.runs)
    && (forall i, j | 0 <= i < j < |db.order| :: db.order[i] != db.order[j])
    && (forall r | r in db.runs :: r in db.order)
  }

  ghost predicate Before(order: seq<Id>, a: Id, b: Id) {
    exists i, j :: 0 <= i < j < |order| && order[i] == a && order[j] == b
  }

  /** What a rerun inherits from its source. */
  ghost predicate Inherits(db: Db, source: Id, kind: Kind, session: Id, snapshot: Option<MI.Snapshot>) {
    && source in db.runs && db.runs[source].status.Terminal()
    && db.runs[source].kind == kind && db.runs[source].session == session
    && (kind == MainAgent ==>
          snapshot.Some? && source in db.inputs && MI.ContentOf(snapshot.value) == MI.ContentOf(db.inputs[source]))
  }

  ghost predicate SourceOk(db: Db, r: Id)
    requires r in db.runs
  {
    match db.runs[r].rerunOf
    case None => true
    case Some(source) =>
      && Before(db.order, source, r)
      && Inherits(db, source, db.runs[r].kind, db.runs[r].session, if r in db.inputs then Some(db.inputs[r]) else None)
  }

  ghost predicate RerunsOk(db: Db) { forall r | r in db.runs :: SourceOk(db, r) }

  /** Every run still finds its session and the user message it was created with. */
  ghost predicate InputsPresent(db: Db) {
    forall r | r in db.runs :: InputMessageOk(db, db.runs[r]) && db.runs[r].session in db.sessions
  }

  ghost predicate TablesOk(db: Db) {
    Inv(db) && KeysOk(db) && OrderOk(db) && RerunsOk(db) && InputsPresent(db)
  }

  ghost predicate ClientOk(db: Db, client: Client) {
    match client
    case Waiting(_) => true
    case Conflicted(_) => true
    case LookingUp(_) => true
    case Writing(_, p, n) =>
      && n.scope == p.scope && n.fingerprint == p.fingerprint && n.kind == KindOf(p.command)
      && Proper(n) && n.scope.session in db.sessions
      && (n.rerunOf.Some? ==> Inherits(db, n.rerunOf.value, n.kind, n.scope.session, n.snapshot))
    case Finished(used, reply) =>
      reply.Ok? ==>
        && used.Some? && used.value.scope in db.keys
        && db.keys[used.value.scope] == Key(used.value.fingerprint, reply.value.run)
        && reply.value.run in db.runs && db.runs[reply.value.run].kind == KindOf(used.value.command)
  }

  predicate Creator(w: World, c: Id, r: Id) {
    c in w.clients && w.clients[c].Finished? && w.clients[c].reply == Ok(Accepted(r, false))
  }

  ghost predicate WorldOk(w: World) {
    && TablesOk(w.db)
    && (forall c | c in w.clients :: ClientOk(w.db, w.clients[c]))
    && (forall c, d, r | Creator(w, c, r) && Creator(w, d, r) :: c == d)
  }

  // ----- steps that accept nothing

  ghost predicate SessionsStay(db: Db, next: Db) { forall s | s in db.sessions :: s in next.sessions }

  lemma OtherStepsAcceptNothing(db: Db, step: Step)
    requires !step.DoCommit?
    ensures var next := Next(db, step);
            && next.keys == db.keys && next.order == db.order && next.inputs == db.inputs
            && next.runs.Keys == db.runs.Keys && SessionsStay(db, next)
  {
    hide Next;
    if Target(step).Some? {
      StepTouches(db, step);
      assert Next(db, step) != db ==> db.runs[Target(step).value := Next(db, step).runs[Target(step).value]].Keys == db.runs.Keys;
    } else {
      UntargetedStep(db, step);
    }
  }

  /** Facts about the accepted runs outlive every later step. */
  lemma InheritsStays(db: Db, next: Db, source: Id, kind: Kind, session: Id, snapshot: Option<MI.Snapshot>)
    requires Extends(db, next) && Inherits(db, source, kind, session, snapshot)
    ensures Inherits(next, source, kind, session, snapshot)
  {
    assert RunKept(db, next, source);
  }

  lemma InputStays(db: Db, next: Db, r: Id)
    requires Extends(db, next) && SessionsStay(db, next) && r in db.runs
    requires InputMessageOk(db, db.runs[r]) && db.runs[r].session in db.sessions
    ensures r in next.runs && InputMessageOk(next, next.runs[r]) && next.runs[r].session in next.sessions
  {
    assert RunKept(db, next, r);
  }

  lemma ClientStays(db: Db, next: Db, client: Client)
    requires Extends(db, next) && SessionsStay(db, next) && ClientOk(db, client)
    ensures ClientOk(next, client)
  {
    hide Inherits, Proper;
    match client
    case Waiting(_) =>
    case Conflicted(_) =>
    case LookingUp(_) =>
    case Writing(_, p, n) =>
      hide Extends;
      if n.rerunOf.Some? { InheritsStays(db, next, n.rerunOf.value, n.kind, n.scope.session, n.snapshot); }
    case Finished(used, reply) =>
      if reply.Ok? {
        assert RunKept(db, next, reply.value.run);
      }
  }

  lemma SourceStays(db: Db, next: Db, r: Id)
    requires Extends(db, next) && next.order == db.order && next.inputs == db.inputs && r in db.runs && SourceOk(db, r)
    ensures r in next.runs && SourceOk(next, r)
  {
    assert RunKept(db, next, r);
    if db.runs[r].rerunOf.Some? {
      InheritsStays(db, next, db.runs[r].rerunOf.value, db.runs[r].kind, db.runs[r].session,
                    if r in db.inputs then Some(db.inputs[r]) else None);
    }
  }

  lemma KeysStay(db: Db, next: Db)
    requires Extends(db, next) && KeysOk(db) && next.keys == db.keys && next.runs.Keys == db.runs.Keys
    ensures KeysOk(next)
  {
    assert |next.runs| == |next.runs.Keys|;
    forall s | s in next.keys
      ensures next.keys[s].run in next.runs && next.runs[next.keys[s].run].session == s.session
    {
      assert RunKept(db, next, db.keys[s].run);
    }
  }

  lemma OrderStays(db: Db, next: Db)
    requires OrderOk(db) && next.order == db.order && next.runs.Keys == db.runs.Keys
    ensures OrderOk(next)
  {
    assert |next.runs| == |next.runs.Keys|;
    assert forall r | r in next.runs :: r in db.runs;
  }

  lemma SourcesStay(db: Db, next: Db)
    requires Extends(db, next) && next.runs.Keys == db.runs.Keys && next.order == db.order && next.inputs == db.inputs
    requires RerunsOk(db)
    ensures RerunsOk(next)
  {
    hide SourceOk, Extends;
    forall r | r in next.runs
      ensures SourceOk(next, r)
    {
      SourceStays(db, next, r);
    }
  }

  lemma InputsStay(db: Db, next: Db)
    requires Extends(db, next) && next.runs.Keys == db.runs.Keys && SessionsStay(db, next) && InputsPresent(db)
    ensures InputsPresent(next)
  {
    hide InputMessageOk, Extends, SessionsStay;
    forall r | r in next.runs
      ensures InputMessageOk(next, next.runs[r]) && next.runs[r].session in next.sessions
    {
      InputStays(db, next, r);
    }
  }

  lemma OtherStepKeepsTables(db: Db, step: Step)
    requires TablesOk(db) && !step.DoCommit?
    ensures TablesOk(Next(db, step)) && Extends(db, Next(db, step)) && SessionsStay(db, Next(db, step))
  {
    assert TablesMatch(db);
    hide Next, Inv, KeysOk, OrderOk, RerunsOk, InputsPresent, Extends, SessionsStay, TablesMatch;
    NextKeepsInv(db, step);
    NextExtends(db, step);
    OtherStepsAcceptNothing(db, step);
    KeysStay(db, Next(db, step));
    OrderStays(db, Next(db, step));
    SourcesStay(db, Next(db, step));
    InputsStay(db, Next(db, step));
  }

  // ----- the commit

  lemma MapGrows<K, V>(m: map<K, V>, k: K, v: V)
    requires k !in m
    ensures |m[k := v]| == |m| + 1
  {
    assert m[k := v].Keys == m.Keys + {k};
  }

  lemma CommitKeys(db: Db, n: NewRun)
    requires KeysOk(db) && CommitRun(db, n).reply.Ok?
    ensures KeysOk(CommitRun(db, n).db)
  {
    var next := CommitRun(db, n).db;
    MapGrows(db.keys, n.scope, next.keys[n.scope]);
    MapGrows(db.runs, n.runId, next.runs[n.runId]);
    assert n.runId !in db.runs && next.keys == db.keys[n.scope := next.keys[n.scope]];
    assert next.runs == db.runs[n.runId := next.runs[n.runId]] && next.runs[n.runId].session == n.scope.session;
    hide CommitRun;
    forall s, t | s in next.keys && t in next.keys && s != t
      ensures next.keys[s].run != next.keys[t].run
    {
    }
  }

  lemma CommitOrder(db: Db, n: NewRun)
    requires OrderOk(db) && CommitRun(db, n).reply.Ok?
    ensures OrderOk(CommitRun(db, n).db)
  {
    var next := CommitRun(db, n).db;
    MapGrows(db.runs, n.runId, next.runs[n.runId]);
    assert n.runId !in db.runs && next.runs == db.runs[n.runId := next.runs[n.runId]];
    assert next.order == db.order + [n.runId];
    hide CommitRun;
    forall r | r in next.runs
      ensures r in next.order
    {
      if r == n.runId { assert next.order[|db.order|] == r; } else { assert r in db.order; }
    }
  }

  lemma BeforeGrows(order: seq<Id>, a: Id, b: Id, c: Id)
    ensures Before(order, a, b) ==> Before(order + [c], a, b)
    ensures a in order ==> Before(order + [c], a, c)
  {
    var grown := order + [c];
    if Before(order, a, b) {
      var i, j :| 0 <= i < j < |order| && order[i] == a && order[j] == b;
      assert grown[i] == a && grown[j] == b;
    }
    if a in order {
      var i :| 0 <= i < |order| && order[i] == a;
      assert grown[i] == a && grown[|order|] == c;
    }
  }

  lemma CommitSources(db: Db, n: NewRun)
    requires TablesMatch(db) && OrderOk(db) && RerunsOk(db) && CommitRun(db, n).reply.Ok? && Proper(n)
    requires n.rerunOf.Some? ==> Inherits(db, n.rerunOf.value, n.kind, n.scope.session, n.snapshot)
    ensures RerunsOk(CommitRun(db, n).db)
  {
    var next := CommitRun(db, n).db;
    CommitExtends(db, n);
    assert n.rerunOf.Some? ==> n.rerunOf.value in db.order;
    hide Extends, Inherits, Before;
    assert n.runId !in db.runs;
    forall r | r in next.runs && next.runs[r].rerunOf.Some?
      ensures SourceOk(next, r)
    {
      var source := next.runs[r].rerunOf.value;
      BeforeGrows(db.order, source, r, n.runId);
      if r == n.runId {
        InheritsStays(db, next, source, n.kind, n.scope.session, n.snapshot);
        assert (if r in next.inputs then Some(next.inputs[r]) else None) == n.snapshot;
      } else {
        assert SourceOk(db, r);
        InheritsStays(db, next, source, db.runs[r].kind, db.runs[r].session,
                      if r in db.inputs then Some(db.inputs[r]) else None);
      }
    }
  }

  lemma CommitInputs(db: Db, n: NewRun)
    requires TablesMatch(db) && InputsPresent(db) && CommitRun(db, n).reply.Ok? && n.scope.session in db.sessions
    ensures InputsPresent(CommitRun(db, n).db)
  {
    var next := CommitRun(db, n).db;
    CommitExtends(db, n);
    hide Extends;
    forall r | r in next.runs
      ensures InputMessageOk(next, next.runs[r]) && next.runs[r].session in next.sessions
    {
      if r != n.runId { InputStays(db, next, r); }
    }
  }

  lemma CommitKeepsTables(db: Db, n: NewRun)
    requires TablesOk(db) && Proper(n) && n.scope.session in db.sessions
    requires n.rerunOf.Some? ==> Inherits(db, n.rerunOf.value, n.kind, n.scope.session, n.snapshot)
    ensures TablesOk(CommitRun(db, n).db) && Extends(db, CommitRun(db, n).db) && SessionsStay(db, CommitRun(db, n).db)
  {
    assert TablesMatch(db);
    hide Inv, KeysOk, OrderOk, RerunsOk, InputsPresent, Inherits, Proper, Extends, TablesMatch;
    CommitKeepsInv(db, n);
    CommitExtends(db, n);
    if CommitRun(db, n).reply.Ok? {
      CommitKeys(db, n);
      CommitOrder(db, n);
      CommitSources(db, n);
      CommitInputs(db, n);
    }
  }

  // ----- clients

  lemma PrepareRerunInherits(db: Db, source: Id, key: Id, ids: Fresh, sight: Sight)
    requires PrepareRerun(db, source, key).Ok?
    requires var p := PrepareRerun(db, source, key).value; SnapshotFor(p.command, ids, sight).Ok?
    ensures var p := PrepareRerun(db, source, key).value;
            p.rerunOf == Some(source)
            && Inherits(db, source, KindOf(p.command), p.scope.session, SnapshotFor(p.command, ids, sight).value)
  {
    var p := PrepareRerun(db, source, key).value;
    if p.command.RepeatMain? { MI.RebuildKeepsContent(p.command.snapshot, ids.idA, ids.idB); }
  }

  lemma ReplayIsOk(db: Db, p: Prepared)
    requires p.scope in db.keys
    ensures ClientOk(db, Finished(Some(p), Replay(db, db.keys[p.scope], p.fingerprint, KindOf(p.command))))
  {
  }

  lemma ReadIsOk(db: Db, request: Request, ids: Fresh, sight: Sight)
    ensures ClientOk(db, AfterRead(db, request, ids, sight))
  {
    hide Inherits, Strip, ResolveService, ContentFor, Replay;
    if Prepare(db, request).Ok? {
      var p := Prepare(db, request).value;
      if p.scope in db.keys { ReplayIsOk(db, p); }
      match Decide(db, p, ids, sight)
      case Answered(_) =>
      case Insert(n) =>
        if request.RerunOf? { PrepareRerunInherits(db, request.source, request.key, ids, sight); }
        assert Proper(n);
    }
  }

  /** The service a diagnosis runs for: the one asked for if the session has it, else the session's only one, else none. */
  predicate ServiceChosen(services: seq<string>, asked: Option<string>, chosen: Option<string>, asksDatabase: bool) {
    && (asked.Some? ==> chosen == asked && asked.value in services)
    && (asked.None? && |services| == 1 ==> chosen == Some(services[0]))
    && (asked.None? && |services| != 1 ==> chosen == None && !asksDatabase)
  }

  /** What a call inserts is what was asked for, and for a rerun what its source ran on. */
  ghost predicate AsAsked(db: Db, request: Request, ids: Fresh, sight: Sight, n: NewRun) {
    match request
    case CreateDiagnosis(session, query, service, key) =>
      && n.kind == Diagnosis && n.scope == Scope(session, Create, key) && n.rerunOf == None
      && QueryOk(query) && n.content == Strip(query) && n.snapshot == None && session in db.sessions
      && ServiceChosen(db.sessions[session].services, service, n.service, sight.asksDatabase)
    case CreateMain(session, input, key) =>
      && n.kind == MainAgent && n.scope == Scope(session, Create, key) && n.rerunOf == None
      && n.content == input.query && n.service == None && !sight.sensitive && n.snapshot.Some?
      && var s := n.snapshot.value;
      && s.query == input.query && MI.Original(s.textA) == input.textA && MI.Original(s.textB) == input.textB
      && s.context == sight.context && MI.HasIds(s, ids.idA, ids.idB)
    case RerunOf(source, key) =>
      && source in db.runs && db.runs[source].status.Terminal()
      && var run := db.runs[source];
      && n.kind == run.kind && n.scope == Scope(run.session, Rerun, key) && n.rerunOf == Some(source)
      && match run.kind
         case Diagnosis =>
           && run.inputMessage in db.messages && QueryOk(db.messages[run.inputMessage].content)
           && n.content == Strip(db.messages[run.inputMessage].content) && n.snapshot == None
           && run.session in db.sessions
           && ServiceChosen(db.sessions[run.session].services, run.service, n.service, sight.asksDatabase)
         case MainAgent =>
           && source in db.inputs && n.content == db.inputs[source].query && n.service == None && n.snapshot.Some?
           && MI.ContentOf(n.snapshot.value) == MI.ContentOf(db.inputs[source])
           && MI.HasIds(n.snapshot.value, ids.idA, ids.idB)
  }

  lemma CreatedAsAsked(db: Db, request: Request, ids: Fresh, sight: Sight)
    requires AfterRead(db, request, ids, sight).Writing?
    ensures var n := AfterRead(db, request, ids, sight).n;
            && n.runId == ids.runId && n.messageId == ids.messageId
            && n.scope.session in db.sessions && !db.sessions[n.scope.session].archived && n.scope !in db.keys
            && AsAsked(db, request, ids, sight, n)
  {
    hide MI.BuildSnapshot, MI.RebuildSnapshot, Strip;
    var p := Prepare(db, request).value;
    match p.command
    case Diagnose(_, _) =>
    case RunMain(input) => MI.BuildKeepsInput(input, sight.context, ids.idA, ids.idB);
    case RepeatMain(snapshot) => MI.RebuildKeepsContent(snapshot, ids.idA, ids.idB);
  }

  lemma ReadAgainIsOk(db: Db, request: Request)
    ensures ClientOk(db, AfterReadAgain(db, request))
  {
  }

  lemma LookUpIsOk(db: Db, p: Prepared)
    ensures ClientOk(db, AfterLookUp(db, p))
  {
  }

  lemma WriteIsOk(db: Db, client: Client)
    requires client.Writing? && ClientOk(db, client)
    ensures ClientOk(CommitRun(db, client.n).db, AfterWrite(db, client))
  {
    hide Proper, Inherits;
  }

  lemma ClientsStay(w: World, db: Db)
    requires Extends(w.db, db) && SessionsStay(w.db, db)
    requires forall c | c in w.clients :: ClientOk(w.db, w.clients[c])
    ensures forall c | c in w.clients :: ClientOk(db, w.clients[c])
  {
    hide Extends, SessionsStay, ClientOk;
    forall c | c in w.clients
      ensures ClientOk(db, w.clients[c])
    {
      ClientStays(w.db, db, w.clients[c]);
    }
  }

  lemma CreatorHasItsRun(w: World, c: Id, r: Id)
    requires Creator(w, c, r) && ClientOk(w.db, w.clients[c])
    ensures r in w.db.runs
  {
  }

  lemma CreatorAfterWrite(w: World, c: Id, d: Id, r: Id)
    requires c in w.clients && w.clients[c].Writing? && Creator(Go(w, Write(c)), d, r)
    requires d in w.clients ==> ClientOk(w.db, w.clients[d])
    ensures if d == c then r !in w.db.runs else Creator(w, d, r) && r in w.db.runs
  {
    hide ClientOk;
    if d != c { CreatorHasItsRun(w, d, r); }
  }

  /** What a writing client knows about the run it is about to insert. */
  lemma WriterKnows(db: Db, client: Client)
    requires client.Writing? && ClientOk(db, client)
    ensures var n := client.n;
            && Proper(n) && n.scope.session in db.sessions
            && (n.rerunOf.Some? ==> Inherits(db, n.rerunOf.value, n.kind, n.scope.session, n.snapshot))
  {
    hide Proper, Inherits;
  }

  lemma CreatorPresent(w: World, c: Id, r: Id)
    requires Creator(w, c, r)
    ensures c in w.clients
  {
  }

  lemma WriteKeepsOk(w: World, c: Id)
    requires WorldOk(w) && c in w.clients && w.clients[c].Writing?
    ensures WorldOk(Go(w, Write(c)))
  {
    hide CommitRun, TablesOk, ClientOk, Extends, SessionsStay, Inherits, Proper, Creator, AfterWrite;
    var n := w.clients[c].n;
    var next := Go(w, Write(c));
    WriterKnows(w.db, w.clients[c]);
    CommitKeepsTables(w.db, n);
    ClientsStay(w, next.db);
    WriteIsOk(w.db, w.clients[c]);
    forall d, e, r | Creator(next, d, r) && Creator(next, e, r)
      ensures d == e
    {
      CreatorPresent(next, d, r);
      CreatorPresent(next, e, r);
      CreatorAfterWrite(w, c, d, r);
      CreatorAfterWrite(w, c, e, r);
    }
  }

  lemma GoKeepsOk(w: World, move: Move)
    requires WorldOk(w)
    ensures WorldOk(Go(w, move))
  {
    var next := Go(w, move);
    hide TablesOk;
    assert move.Call? ==> ClientOk(w.db, Waiting(move.request));
    hide ClientOk;
    assert move.Read? || move.ReadAgain? || move.LookUp? ==> forall d, r | Creator(next, d, r) :: Creator(w, d, r);
    hide AfterRead, AfterReadAgain, AfterLookUp;
    match move
    case Environment(step) =>
      if !step.DoCommit? {
        OtherStepKeepsTables(w.db, step);
        ClientsStay(w, next.db);
        assert forall c, r :: Creator(next, c, r) <==> Creator(w, c, r);
      }
    case Call(c, request) =>
      assert forall d, r | Creator(next, d, r) :: Creator(w, d, r);
    case Read(c, ids, sight) =>
      if next != w {
        ReadIsOk(w.db, w.clients[c].request, ids, sight);
      }
    case Write(c) => if next != w { WriteKeepsOk(w, c); }
    case ReadAgain(c) =>
      if next != w {
        ReadAgainIsOk(w.db, w.clients[c].request);
      }
    case LookUp(c) =>
      if next != w {
        LookUpIsOk(w.db, w.clients[c].p);
      }
  }

  lemma {:induction false} PlayKeepsOk(w: World, moves: seq<Move>)
    requires WorldOk(w)
    ensures WorldOk(Play(w, moves))
    decreases |moves|
  {
    if moves != [] {
      GoKeepsOk(w, moves[0]);
      PlayKeepsOk(Go(w, moves[0]), moves[1..]);
    }
  }

  lemma Reachable(moves: seq<Move>)
    ensures WorldOk(Play(INITIAL, moves))
  {
    EmptyInv();
    PlayKeepsOk(INITIAL, moves);
  }

  // ----- idempotency

  lemma AnswerIsStored(w: World, c: Id)
    requires WorldOk(w) && c in w.clients && w.clients[c].Finished? && w.clients[c].reply.Ok?
    ensures w.clients[c].used.Some?
    ensures var p, a := w.clients[c].used.value, w.clients[c].reply.value;
            && p.scope in w.db.keys && w.db.keys[p.scope] == Key(p.fingerprint, a.run)
            && a.run in w.db.runs && w.db.runs[a.run].kind == KindOf(p.command)
  {
    hide TablesOk;
    assert ClientOk(w.db, w.clients[c]);
  }

  lemma OneCreator(w: World, c: Id, d: Id)
    requires WorldOk(w) && c in w.clients && d in w.clients && w.clients[c].Finished? && w.clients[d].Finished?
    requires w.clients[c].reply.Ok? && w.clients[d].reply.Ok?
    ensures var a, b := w.clients[c].reply.value, w.clients[d].reply.value;
            a.run == b.run && !a.replayed && !b.replayed ==> c == d
  {
    hide TablesOk, ClientOk;
    assert Creator(w, c, w.clients[c].reply.value.run) <==> !w.clients[c].reply.value.replayed;
    assert Creator(w, d, w.clients[d].reply.value.run) <==> !w.clients[d].reply.value.replayed;
  }

  lemma KeysAreOneToOne(db: Db)
    requires TablesOk(db)
    ensures forall s, t | s in db.keys && t in db.keys && s != t :: db.keys[s].run != db.keys[t].run
  {
    hide Inv, OrderOk, RerunsOk;
  }

  /**
   Calls that raced with one scope: every one that does not fail returns the one run stored under
   that scope, with the stored fingerprint and kind, and only one of them created it.
   */
  lemma RacingAcceptsAgree(moves: seq<Move>, c: Id, d: Id)
    requires var w := Play(INITIAL, moves);
             && c in w.clients && d in w.clients && w.clients[c].Finished? && w.clients[d].Finished?
             && w.clients[c].reply.Ok? && w.clients[d].reply.Ok?
    ensures var w := Play(INITIAL, moves);
            && w.clients[c].used.Some? && w.clients[d].used.Some?
            && var p, q := w.clients[c].used.value, w.clients[d].used.value;
            && var a, b := w.clients[c].reply.value, w.clients[d].reply.value;
            && p.scope in w.db.keys && w.db.keys[p.scope] == Key(p.fingerprint, a.run)
            && a.run in w.db.runs && w.db.runs[a.run].kind == KindOf(p.command)
            && (p.scope == q.scope <==> a.run == b.run)
            && (p.scope == q.scope ==> p.fingerprint == q.fingerprint)
            && (p.scope == q.scope && !a.replayed && !b.replayed ==> c == d)
  {
    Reachable(moves);
    hide Play;
    var w := Play(INITIAL, moves);
    AnswerIsStored(w, c);
    AnswerIsStored(w, d);
    OneCreator(w, c, d);
    KeysAreOneToOne(w.db);
    hide *;
  }

  /** A run is only ever created by a write into a free scope, under that call's own fingerprint. */
  lemma OnlyFreeScopesCreate(w: World, move: Move)
    requires WorldOk(w) && Go(w, move).db.runs.Keys != w.db.runs.Keys
    ensures move.Write? && move.c in w.clients && w.clients[move.c].Writing?
    ensures var p, n, next := w.clients[move.c].p, w.clients[move.c].n, Go(w, move).db;
            && p.scope !in w.db.keys && p.scope in next.keys && next.keys[p.scope] == Key(p.fingerprint, n.runId)
            && next.runs.Keys == w.db.runs.Keys + {n.runId} && n.runId !in w.db.runs
  {
    hide TablesOk;
    if move.Environment? && !move.step.DoCommit? { OtherStepsAcceptNothing(w.db, move.step); }
    assert move.Write?;
    assert ClientOk(w.db, w.clients[move.c]);
  }

  /** A move changes the database by one lifecycle step, by one commit, or not at all. */
  lemma GoChanges(w: World, move: Move)
    ensures var next := Go(w, move).db;
            || next == w.db
            || (move.Environment? && next == Next(w.db, move.step))
            || (move.Write? && move.c in w.clients && w.clients[move.c].Writing? && next == CommitRun(w.db, w.clients[move.c].n).db)
  {
    hide Next, CommitRun, AfterRead, AfterReadAgain, AfterLookUp, AfterWrite;
  }

  lemma GoExtends(w: World, move: Move)
    requires WorldOk(w)
    ensures Extends(w.db, Go(w, move).db)
  {
    assert TablesMatch(w.db);
    GoChanges(w, move);
    hide WorldOk, Extends, TablesMatch, Next, CommitRun, Go;
    var next := Go(w, move).db;
    if next == w.db {
      UnchangedExtends(w.db, w.db);
    } else if move.Environment? {
      NextExtends(w.db, move.step);
    } else {
      CommitExtends(w.db, w.clients[move.c].n);
    }
  }

  lemma {:induction false} PlayExtends(w: World, moves: seq<Move>)
    requires WorldOk(w)
    ensures Extends(w.db, Play(w, moves).db)
    decreases |moves|
  {
    assert TablesMatch(w.db);
    hide Extends, TablesOk, ClientOk;
    if moves == [] {
      UnchangedExtends(w.db, w.db);
    } else {
      GoKeepsOk(w, moves[0]);
      GoExtends(w, moves[0]);
      PlayExtends(Go(w, moves[0]), moves[1..]);
      ExtendsIsTransitive(w.db, Go(w, moves[0]).db, Play(w, moves).db);
    }
  }

  lemma {:induction false} PlayConcat(w: World, first: seq<Move>, later: seq<Move>)
    ensures Play(w, first + later) == Play(Play(w, first), later)
    decreases |first|
  {
    if first == [] {
      assert first + later == later;
    } else {
      assert (first + later)[0] == first[0] && (first + later)[1..] == first[1..] + later;
      PlayConcat(Go(w, first[0]), first[1..], later);
    }
  }

  /**
   Once a scope is taken, no later call with another fingerprint succeeds on it, and every later
   success on it returns the same run.
   */
  lemma TakenScopeNeverChanges(moves: seq<Move>, later: seq<Move>, scope: Scope, c: Id)
    requires scope in Play(INITIAL, moves).db.keys
    requires var w := Play(INITIAL, moves + later);
             c in w.clients && w.clients[c].Finished? && w.clients[c].reply.Ok?
    ensures var w := Play(INITIAL, moves + later);
            var stored := Play(INITIAL, moves).db.keys[scope];
            && scope in w.db.keys && w.db.keys[scope] == stored
            && w.clients[c].used.Some?
            && (w.clients[c].used.value.scope == scope ==>
                  w.clients[c].used.value.fingerprint == stored.fingerprint && w.clients[c].reply.value.run == stored.run)
  {
    Reachable(moves);
    PlayConcat(INITIAL, moves, later);
    PlayExtends(Play(INITIAL, moves), later);
    RacingAcceptsAgree(moves + later, c, c);
    hide Play, TablesOk;
  }

  // ----- the moves of the clients as lifecycle steps

  /** The lifecycle step a move performs, if any. */
  function StepOf(w: World, move: Move): seq<Step> {
    match move
    case Environment(step) => if step.DoCommit? then [] else [step]
    case Write(c) => if c in w.clients && w.clients[c].Writing? then [DoCommit(w.clients[c].n)] else []
    case _ => []
  }

  function StepsOf(w: World, moves: seq<Move>): seq<Step>
    decreases |moves|
  {
    if moves == [] then [] else StepOf(w, moves[0]) + StepsOf(Go(w, moves[0]), moves[1..])
  }

  lemma StepOfIsGo(w: World, move: Move)
    requires WorldOk(w)
    ensures (StepOf(w, move) == [] && Go(w, move).db == w.db)
            || (|StepOf(w, move)| == 1 && Go(w, move).db == Next(w.db, StepOf(w, move)[0]))
  {
    hide TablesOk, CommitRun, AfterRead, AfterReadAgain, AfterLookUp, AfterWrite;
    if move.Write? && move.c in w.clients && w.clients[move.c].Writing? {
      assert ClientOk(w.db, w.clients[move.c]);
    }
  }

  /** Whatever clients and environment do, the database is what their lifecycle steps make of it. */
  lemma {:induction false} PlayIsAfter(w: World, moves: seq<Move>)
    requires WorldOk(w)
    ensures Play(w, moves).db == After(w.db, StepsOf(w, moves))
    decreases |moves|
  {
    if moves != [] {
      var first, later := StepOf(w, moves[0]), StepsOf(Go(w, moves[0]), moves[1..]);
      hide Go, WorldOk, StepOf, Next;
      StepOfIsGo(w, moves[0]);
      GoKeepsOk(w, moves[0]);
      PlayIsAfter(Go(w, moves[0]), moves[1..]);
      if first == [] {
        assert first + later == later;
      } else {
        assert (first + later)[0] == first[0] && (first + later)[1..] == later;
      }
    }
  }

  // ----- counts

  /** RUN_QUEUED rows, whoever wrote them, in the logs of the listed runs. */
  function QueuedRows(db: Db, runs: seq<Id>): nat
    requires forall i | 0 <= i < |runs| :: runs[i] in db.events
  {
    if runs == [] then 0 else multiset(Kinds(db.events[runs[0]]))[RunQueued] + QueuedRows(db, runs[1..])
  }

  lemma {:induction false} OneOwnQueuedRow(started: bool, status: Status, emitted: seq<EventType>)
    ensures var all := multiset(OwnKinds(started, status)) + multiset(emitted);
            all[RunQueued] >= 1 && (all[RunQueued] == 1 <==> RunQueued !in emitted)
  {
    assert RunQueued in emitted <==> multiset(emitted)[RunQueued] > 0;
  }

  lemma {:induction false} QueuedRowsOf(steps: seq<Step>, r: Id)
    requires r in After(EMPTY, steps).runs
    ensures var db := After(EMPTY, steps);
            && r in db.events && multiset(Kinds(db.events[r]))[RunQueued] >= 1
            && (multiset(Kinds(db.events[r]))[RunQueued] == 1 <==> Quiet(steps, r, {RunQueued}))
  {
    LogIsAccountedFor(steps, r);
    QuietIsUnemitted(steps, r, {RunQueued});
    var db := After(EMPTY, steps);
    OneOwnQueuedRow(Claimed(db, r), db.runs[r].status, Emitted(steps, r));
    hide *;
  }

  lemma {:induction false} QueuedRowsOfAll(steps: seq<Step>, runs: seq<Id>)
    requires forall i | 0 <= i < |runs| :: runs[i] in After(EMPTY, steps).runs
    ensures var db := After(EMPTY, steps);
            && (forall i | 0 <= i < |runs| :: runs[i] in db.events)
            && QueuedRows(db, runs) >= |runs|
            && (QueuedRows(db, runs) == |runs| <==> forall i | 0 <= i < |runs| :: Quiet(steps, runs[i], {RunQueued}))
    decreases |runs|
  {
    hide After, Quiet, Kinds;
    if runs != [] {
      QueuedRowsOf(steps, runs[0]);
      QueuedRowsOfAll(steps, runs[1..]);
      assert (forall i | 0 <= i < |runs| :: Quiet(steps, runs[i], {RunQueued}))
        <==> Quiet(steps, runs[0], {RunQueued}) && forall i | 0 <= i < |runs[1..]| :: Quiet(steps, runs[1..][i], {RunQueued}) by {
        if Quiet(steps, runs[0], {RunQueued}) && (forall i | 0 <= i < |runs[1..]| :: Quiet(steps, runs[1..][i], {RunQueued})) {
          forall i | 0 <= i < |runs| ensures Quiet(steps, runs[i], {RunQueued}) {
            if i > 0 { assert runs[1..][i - 1] == runs[i]; }
          }
        }
      }
    }
  }

  lemma TablesCount(db: Db)
    requires TablesOk(db)
    ensures |db.keys| == |db.runs| == |db.order|
    ensures forall s, t | s in db.keys && t in db.keys && s != t :: db.keys[s].run != db.keys[t].run
    ensures (forall i | 0 <= i < |db.order| :: db.order[i] in db.runs) && forall r | r in db.runs :: r in db.order
  {
    hide Inv, RerunsOk;
  }

  lemma PlayIsFromEmpty(moves: seq<Move>)
    ensures Play(INITIAL, moves).db == After(EMPTY, StepsOf(INITIAL, moves)) && TablesOk(Play(INITIAL, moves).db)
  {
    Reachable(moves);
    Reachable([]);
    assert Play(INITIAL, []) == INITIAL;
    hide Play, After, StepsOf, TablesOk;
    PlayIsAfter(INITIAL, moves);
  }

  lemma {:induction false} CountsOf(steps: seq<Step>)
    requires TablesOk(After(EMPTY, steps))
    ensures var db := After(EMPTY, steps);
            && |db.keys| == |db.runs| == |db.order|
            && (forall i | 0 <= i < |db.order| :: db.order[i] in db.events)
            && (forall s, t | s in db.keys && t in db.keys && s != t :: db.keys[s].run != db.keys[t].run)
            && QueuedRows(db, db.order) >= |db.runs|
            && (QueuedRows(db, db.order) == |db.runs| <==> forall r | r in db.runs :: Quiet(steps, r, {RunQueued}))
  {
    var db := After(EMPTY, steps);
    hide TablesOk, After, Quiet, QueuedRows;
    TablesCount(db);
    QueuedRowsOfAll(steps, db.order);
    if forall i | 0 <= i < |db.order| :: Quiet(steps, db.order[i], {RunQueued}) {
      forall r | r in db.runs ensures Quiet(steps, r, {RunQueued}) {
        assert r in db.order;
      }
    }
  }

  /**
   Runs and idempotency keys are equally many and pair up. RUN_QUEUED events are at least as many,
   and exactly as many if and only if no append of a RUN_QUEUED by an executor took effect.
   */
  lemma CountsAgree(moves: seq<Move>)
    ensures var db, steps := Play(INITIAL, moves).db, StepsOf(INITIAL, moves);
            && |db.keys| == |db.runs| == |db.order|
            && (forall i | 0 <= i < |db.order| :: db.order[i] in db.events)
            && (forall s, t | s in db.keys && t in db.keys && s != t :: db.keys[s].run != db.keys[t].run)
            && QueuedRows(db, db.order) >= |db.runs|
            && (QueuedRows(db, db.order) == |db.runs| <==> forall r | r in db.runs :: Quiet(steps, r, {RunQueued}))
  {
    Reachable(moves);
    PlayIsFromEmpty(moves);
    hide Play, TablesOk, StepsOf;
    CountsOf(StepsOf(INITIAL, moves));
    hide *;
  }

  // ----- reruns

  /** Each run of the path is a rerun of the next one. */
  ghost predicate RerunPath(db: Db, path: seq<Id>) {
    && path != []
    && (forall i | 0 <= i < |path| :: path[i] in db.runs)
    && forall i | 0 < i < |path| :: db.runs[path[i - 1]].rerunOf == Some(path[i])
  }

  lemma BeforeIsAnOrder(db: Db, a: Id, b: Id, c: Id)
    requires OrderOk(db)
    ensures Before(db.order, a, b) && Before(db.order, b, c) ==> Before(db.order, a, c)
    ensures !Before(db.order, a, a)
  {
  }

  /** What two runs of one chain have in common. */
  ghost predicate SameInput(db: Db, r: Id, q: Id)
    requires r in db.runs && q in db.runs
  {
    && db.runs[r].kind == db.runs[q].kind && db.runs[r].session == db.runs[q].session
    && (db.runs[q].kind == MainAgent ==>
          r in db.inputs && q in db.inputs && MI.ContentOf(db.inputs[r]) == MI.ContentOf(db.inputs[q]))
  }

  lemma RerunInherits(db: Db, r: Id, source: Id)
    requires TablesOk(db) && r in db.runs && db.runs[r].rerunOf == Some(source)
    ensures source in db.runs && Before(db.order, source, r) && db.runs[source].status.Terminal() && SameInput(db, r, source)
  {
    hide Inv, KeysOk, OrderOk, InputsPresent, Before;
    assert SourceOk(db, r);
  }

  lemma SameInputItself(db: Db, r: Id)
    requires TablesOk(db) && r in db.runs
    ensures SameInput(db, r, r)
  {
    hide KeysOk, OrderOk, InputsPresent, RerunsOk, LogOk;
    assert RunOk(r, ViewOf(db, r));
  }

  lemma SameInputIsTransitive(db: Db, a: Id, b: Id, c: Id)
    requires a in db.runs && b in db.runs && c in db.runs && SameInput(db, a, b) && SameInput(db, b, c)
    ensures SameInput(db, a, c)
  {
  }

  lemma RestIsPath(db: Db, path: seq<Id>)
    requires RerunPath(db, path) && |path| > 1
    ensures RerunPath(db, path[1..]) && db.runs[path[0]].rerunOf == Some(path[1])
  {
    assert db.runs[path[1 - 1]].rerunOf == Some(path[1]);
    var rest := path[1..];
    forall i | 0 < i < |rest|
      ensures db.runs[rest[i - 1]].rerunOf == Some(rest[i])
    {
      assert db.runs[path[i + 1 - 1]].rerunOf == Some(path[i + 1]);
    }
  }

  lemma {:induction false} PathsInherit(db: Db, path: seq<Id>)
    requires TablesOk(db) && RerunPath(db, path)
    ensures SameInput(db, path[0], path[|path| - 1])
    ensures |path| > 1 ==> Before(db.order, path[|path| - 1], path[0]) && db.runs[path[|path| - 1]].status.Terminal()
    decreases |path|
  {
    assert OrderOk(db);
    hide TablesOk, Before, SameInput, OrderOk;
    if |path| == 1 {
      SameInputItself(db, path[0]);
    } else {
      var root := path[|path| - 1];
      RestIsPath(db, path);
      RerunInherits(db, path[0], path[1]);
      PathsInherit(db, path[1..]);
      SameInputIsTransitive(db, path[0], path[1], root);
      BeforeIsAnOrder(db, root, path[1], path[0]);
    }
  }

  /**
   Reruns never form a cycle, every source had ended when it was rerun, and along any chain of
   main-agent reruns the query, texts, digests, rule version and context stay those of the root.
   */
  lemma RerunChains(moves: seq<Move>, path: seq<Id>)
    requires RerunPath(Play(INITIAL, moves).db, path) && |path| > 1
    ensures var db := Play(INITIAL, moves).db;
            var first, root := path[0], path[|path| - 1];
            && first != root && Before(db.order, root, first)
            && db.runs[root].status.Terminal() && SameInput(db, first, root)
  {
    Reachable(moves);
    hide Play, Inv, RerunsOk, Before, SameInput;
    PathsInherit(Play(INITIAL, moves).db, path);
    BeforeIsAnOrder(Play(INITIAL, moves).db, path[0], path[0], path[0]);
  }

  /**
   A stored run can always be claimed without an error, and a rerun can be prepared exactly when
   its source has ended and, for a diagnosis run, its (editable) message is still a valid query.
   */
  lemma StoredInputsSuffice(moves: seq<Move>, r: Id, key: Id)
    requires r in Play(INITIAL, moves).db.runs
    ensures var db := Play(INITIAL, moves).db; var run := db.runs[r];
            && Claim(db, r).reply == Ok(run.status == Queued)
            && run.inputMessage in db.messages
            && (PrepareRerun(db, r, key).Ok?
                <==> run.status.Terminal() && (run.kind == Diagnosis ==> QueryOk(db.messages[run.inputMessage].content)))
  {
    Reachable(moves);
    hide Play, KeysOk, OrderOk, RerunsOk;
    var db := Play(INITIAL, moves).db;
    assert RunOk(r, ViewOf(db, r));
    hide LogOk;
    assert InputMessageOk(db, db.runs[r]);
    assert r in db.inputs <==> db.runs[r].kind == MainAgent;
    assert r in db.inputs ==> MI.ValidSnapshot(db.inputs[r]);
    hide RunOk;
  }

  // ----- what a taken scope answers

  /** The stored run for the same payload and kind, else a conflict. */
  function StoredAnswer(db: Db, p: Prepared): Result<Accepted, AcceptError>
    requires p.scope in db.keys
  {
    var key := db.keys[p.scope];
    if key.fingerprint == p.fingerprint && key.run in db.runs && db.runs[key.run].kind == KindOf(p.command)
    then Ok(Accepted(key.run, true)) else Err(KeyReused)
  }

  /** The session takes runs, and for a diagnosis the service question still has an answer. */
  predicate SessionAccepts(db: Db, p: Prepared, sight: Sight) {
    && p.scope.session in db.sessions && !db.sessions[p.scope.session].archived
    && (p.command.Diagnose? ==> ResolveService(db.sessions[p.scope.session].services, p.command.service, sight.asksDatabase).Ok?)
  }

  /** A later call on a taken scope is answered with the stored run or a conflict, and writes nothing. */
  lemma TakenScopeAnswers(moves: seq<Move>, request: Request, ids: Fresh, sight: Sight)
    requires var db := Play(INITIAL, moves).db; Prepare(db, request).Ok? && Prepare(db, request).value.scope in db.keys
    ensures var db := Play(INITIAL, moves).db; var p := Prepare(db, request).value;
            && db.keys[p.scope].run in db.runs
            && AfterLookUp(db, p) == Finished(Some(p), StoredAnswer(db, p))
            && AfterRead(db, request, ids, sight).Finished?
            && (SessionAccepts(db, p, sight) ==> AfterRead(db, request, ids, sight) == Finished(Some(p), StoredAnswer(db, p)))
            && (!SessionAccepts(db, p, sight) ==> AfterRead(db, request, ids, sight).reply.Err?)
  {
    Reachable(moves);
    hide Play, Prepare, ClientOk, OrderOk, RerunsOk, Inv, ResolveService;
    var db := Play(INITIAL, moves).db;
    assert KeysOk(db);
  }

  /** With fresh ids a commit is only refused because the scope was taken meanwhile, and it leaves no trace. */
  lemma LostRaceFindsItsKey(moves: seq<Move>, c: Id)
    requires var w := Play(INITIAL, moves);
             && c in w.clients && w.clients[c].Writing?
             && w.clients[c].n.runId !in w.db.runs && w.clients[c].n.messageId !in w.db.messages
    ensures var w := Play(INITIAL, moves); var next := Go(w, Write(c)); var n := w.clients[c].n;
            && (next.clients[c].Conflicted? <==> n.scope in w.db.keys)
            && (next.clients[c].Conflicted? ==> next.db == w.db)
  {
    Reachable(moves);
    hide Play, ClientOk, KeysOk, OrderOk, RerunsOk, RunOk;
    assert TablesMatch(Play(INITIAL, moves).db);
  }

  // ----- what a diagnosis fingerprint can tell apart

  lemma NewlineSplits(a: string, s: string, b: string, t: string)
    requires '\n' !in s && '\n' !in t && a + "\n" + s == b + "\n" + t
    ensures a == b && s == t
  {
    var whole := a + "\n" + s;
    assert forall i | |a| < i < |whole| :: whole[i] == s[i - |a| - 1];
    assert whole == b + "\n" + t && forall i | |b| < i < |whole| :: whole[i] == t[i - |b| - 1];
    assert whole[|a|] == '\n' && whole[|b|] == '\n';
    assert a == whole[..|a|] && b == whole[..|b|];
    assert s == whole[|a| + 1..] && t == whole[|b| + 1..];
  }

  /** Query and service agree, or one request spells the other's service out as the last line of its query. */
  predicate Indistinct(q1: string, s1: Option<string>, q2: string, s2: Option<string>) {
    if s1.Some? == s2.Some? then Strip(q1) == Strip(q2) && s1 == s2
    else if s1.None? then Strip(q1) == Strip(q2) + "\n" + s2.value
    else Strip(q2) == Strip(q1) + "\n" + s1.value
  }

  predicate OneLine(service: Option<string>) { service.Some? ==> '\n' !in service.value }

  /**
   Two diagnosis requests have one fingerprint exactly when query and service agree, or when one
   names no service and spells the other's service out as the last line of its query.
   */
  lemma FingerprintCollisions(q1: string, s1: Option<string>, q2: string, s2: Option<string>)
    requires OneLine(s1) && OneLine(s2)
    ensures QueryText(q1, s1) == QueryText(q2, s2) <==> Indistinct(q1, s1, q2, s2)
  {
    if s1.Some? && s2.Some? && QueryText(q1, s1) == QueryText(q2, s2) {
      NewlineSplits(Strip(q1), s1.value, Strip(q2), s2.value);
    }
  }

  /** Two requests that ask for different things under one fingerprint. */
  lemma DifferentRequestsCollide()
    ensures Strip("cpu\ndb") == "cpu\ndb" && Strip("cpu") == "cpu"
    ensures QueryText("cpu\ndb", None) == QueryText("cpu", Some("db"))
  {
    assert "cpu" + "\n" + "db" == "cpu\ndb";
  }

  /**
   After an accepted diagnosis call, a second one on its scope gets the same run as a replay if and
   only if the two requests are indistinct, be it that query and service differ; else a conflict.
   */
  lemma IndistinctRequestsShareARun(moves: seq<Move>, c: Id, session: Id, key: Id, q1: string, s1: Option<string>,
                                    q2: string, s2: Option<string>, ids: Fresh, sight: Sight)
    requires OneLine(s1) && OneLine(s2) && QueryOk(q2)
    requires var w := Play(INITIAL, moves);
             && c in w.clients && w.clients[c].Finished? && w.clients[c].reply.Ok?
             && w.clients[c].used == Some(PrepareCreate(CreateDiagnosis(session, q1, s1, key)))
             && SessionAccepts(w.db, PrepareCreate(CreateDiagnosis(session, q2, s2, key)), sight)
    ensures var w, second := Play(INITIAL, moves), CreateDiagnosis(session, q2, s2, key);
            AfterRead(w.db, second, ids, sight)
            == Finished(Some(PrepareCreate(second)),
                        if Indistinct(q1, s1, q2, s2) then Ok(Accepted(w.clients[c].reply.value.run, true)) else Err(KeyReused))
  {
    var second := CreateDiagnosis(session, q2, s2, key);
    RacingAcceptsAgree(moves, c, c);
    FingerprintCollisions(q1, s1, q2, s2);
    hide Play, Strip, QueryText, Indistinct, SessionAccepts, AfterRead, AfterReadAgain;
    TakenScopeAnswers(moves, second, ids, sight);
  }

  const NO_SIGHT := Sight(false, [], false)

  const FIRST_CALL: seq<Move> :=
    [Environment(DoAddSession(1, ["db"])), Call(1, CreateDiagnosis(1, "cpu", Some("db"), 7)), Read(1, Fresh(5, 6, 8, 9), NO_SIGHT), Write(1)]

  /** The run of a call about service db answers a call about no service, whose query merely ends in that word. */
  lemma CollidingCallsShareARun()
    ensures var w := Play(INITIAL, FIRST_CALL);
            && 1 in w.clients && w.clients[1].Finished? && w.clients[1].reply == Ok(Accepted(5, false))
            && AfterRead(w.db, CreateDiagnosis(1, "cpu\ndb", None, 7), Fresh(10, 11, 12, 13), NO_SIGHT).Finished?
            && AfterRead(w.db, CreateDiagnosis(1, "cpu\ndb", None, 7), Fresh(10, 11, 12, 13), NO_SIGHT).reply == Ok(Accepted(5, true))
  {
    FirstCallIsAccepted();
    DifferentRequestsCollide();
    hide Play, Strip, AfterRead;
    IndistinctRequestsShareARun(FIRST_CALL, 1, 1, 7, "cpu", Some("db"), "cpu\ndb", None, Fresh(10, 11, 12, 13), NO_SIGHT);
  }

  lemma FourMoves(w: World, moves: seq<Move>)
    requires |moves| == 4
    ensures Play(w, moves) == Go(Go(Go(Go(w, moves[0]), moves[1]), moves[2]), moves[3])
  {
    hide Go;
    assert moves[1..][1..][1..][1..] == [];
    var w3 := Go(Go(Go(w, moves[0]), moves[1]), moves[2]);
    assert Play(w3, moves[1..][1..][1..]) == Play(Go(w3, moves[3]), []);
    assert Play(w, moves) == Play(Go(Go(w, moves[0]), moves[1]), moves[1..][1..]);
  }

  lemma FirstCallIsAccepted()
    ensures var w := Play(INITIAL, FIRST_CALL);
            && w.clients == map[1 := Finished(Some(PrepareCreate(CreateDiagnosis(1, "cpu", Some("db"), 7))), Ok(Accepted(5, false)))]
            && w.db.sessions == map[1 := Session(false, ["db"])]
  {
    DifferentRequestsCollide();
    hide Strip;
    var request := CreateDiagnosis(1, "cpu", Some("db"), 7);
    var w1 := Go(INITIAL, FIRST_CALL[0]);
    assert w1 == World(EMPTY.(sessions := map[1 := Session(false, ["db"])]), map[]);
    var w2 := Go(w1, FIRST_CALL[1]);
    assert w2 == World(w1.db, map[1 := Waiting(request)]);
    var w3 := Go(w2, FIRST_CALL[2]);
    assert w3.db == w1.db && w3.clients[1].Writing? && w3.clients[1].p == PrepareCreate(request) && w3.clients[1].n.runId == 5;
    var w4 := Go(w3, FIRST_CALL[3]);
    hide AfterRead;
    assert w4.clients == map[1 := Finished(Some(PrepareCreate(request)), Ok(Accepted(5, false)))];
    assert w4.db.sessions == w1.db.sessions;
    hide Go, PrepareCreate;
    FourMoves(INITIAL, FIRST_CALL);
  }

  function NameOf(service: Option<string>): string { match service case None => "" case Some(id) => id }

  /** Two reruns have one fingerprint exactly when source, stripped query and service name agree. */
  lemma RerunFingerprintIsFaithful(r1: Id, q1: string, s1: Option<string>, r2: Id, q2: string, s2: Option<string>)
    requires '\n' !in NameOf(s1) && '\n' !in NameOf(s2)
    ensures MI.RerunText(r1, RerunQueryText(q1, s1)) == MI.RerunText(r2, RerunQueryText(q2, s2))
            <==> r1 == r2 && Strip(q1) == Strip(q2) && NameOf(s1) == NameOf(s2)
  {
    if RerunQueryText(q1, s1) == RerunQueryText(q2, s2) {
      NewlineSplits(Strip(q1), NameOf(s1), Strip(q2), NameOf(s2));
    }
  }
}
