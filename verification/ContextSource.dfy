/**
 Which messages can be frozen into a main-agent run (backend/src/application/services.py): those of
 earlier succeeded answers and questions of the same session, found in the run tables.
 */
module ContextSource {
  import opened Wrappers
  import MI = MainInput
  import MC = MainContext
  import opened MainDelivery
  import opened RunLifecycle
  import opened RunHistory
  import opened RunAcceptance

  const LATEST_RUNS := MI.MAX_CONTEXT_MESSAGES * 4

  // ----- reading the tables

  /** `list_latest_by_session`: the session's last runs in order of creation. */
  function OfSession(db: Db, order: seq<Id>, session: Id): seq<Id> {
    if order == [] then []
    else
      var n := |order| - 1;
      OfSession(db, order[..n], session) + if order[n] in db.runs && db.runs[order[n]].session == session then [order[n]] else []
  }

  function Latest(runs: seq<Id>): seq<Id> { if |runs| > LATEST_RUNS then runs[|runs| - LATEST_RUNS..] else runs }

  /** A succeeded main-agent run that answered or asked back. */
  predicate Told(db: Db, r: Id) {
    && r in db.runs && db.runs[r].kind == MainAgent && db.runs[r].status == Succeeded
    && r in db.deliveries && !db.deliveries[r].ComparisonDelivery?
  }

  predicate LiveInput(db: Db, session: Id, m: Id) {
    m in db.messages && db.messages[m].session == session && db.messages[m].role == MI.User && !db.messages[m].archived
  }

  predicate LiveAnswer(db: Db, m: Id) { m in db.messages && db.messages[m].role == MI.Assistant && !db.messages[m].archived }

  /** The first live assistant message among those listed for a run. */
  function FirstAnswer(db: Db, listed: seq<Id>): Option<Id> {
    if listed == [] then None else if LiveAnswer(db, listed[0]) then Some(listed[0]) else FirstAnswer(db, listed[1..])
  }

  function AsCandidate(db: Db, m: Id, at: Id -> int): MC.Candidate
    requires m in db.messages
  {
    MC.Candidate(m, at(m), db.messages[m].role, db.messages[m].content)
  }

  /** What one run contributes; `listed` are the messages stored for it, `at` the creation times. */
  function MessagesOf(db: Db, session: Id, r: Id, listed: seq<Id>, at: Id -> int): Option<MC.RunMessages> {
    if !Told(db, r) || !LiveInput(db, session, db.runs[r].inputMessage) then None
    else
      var answer := FirstAnswer(db, listed);
      if answer.None? || answer.value !in db.messages then None
      else Some(MC.RunMessages(AsCandidate(db, db.runs[r].inputMessage, at), AsCandidate(db, answer.value, at)))
  }

  function Contributions(db: Db, session: Id, runs: seq<Id>, listed: Id -> seq<Id>, at: Id -> int): seq<Option<MC.RunMessages>> {
    seq(|runs|, i requires 0 <= i < |runs| => MessagesOf(db, session, runs[i], listed(runs[i]), at))
  }

  /** `_select_main_context` on the tables. */
  method SelectContext(db: Db, session: Id, listed: Id -> seq<Id>, at: Id -> int) returns (context: seq<MI.ContextMessage>)
    ensures MI.ValidContext(context)
    ensures context == MC.AsContext(Chosen(Contributions(db, session, Latest(OfSession(db, db.order, session)), listed, at)))
    ensures ListsByRun(db, listed) ==> Known(db, session, context)
  {
    var runs := Latest(OfSession(db, db.order, session));
    var found: seq<Option<MC.RunMessages>> := [];
    for i := 0 to |runs|
      invariant found == Contributions(db, session, runs[..i], listed, at)
    {
      hide MessagesOf;
      found := found + [MessagesOf(db, session, runs[i], listed(runs[i]), at)];
    }
    assert runs[..|runs|] == runs;
    context := MC.SelectMainContext(found);
    if ListsByRun(db, listed) { SelectedIsKnown(db, session, listed, at); }
    hide Known, ListsByRun, Contributions, MC.Selected, MC.InTimeOrder, MC.Gathered;
  }

  // ----- where the selected messages come from

  /** The message belongs to a told run of the session: its input, or an answer with exactly this text. */
  ghost predicate From(db: Db, session: Id, q: Id, m: MI.ContextMessage) {
    && Told(db, q) && db.runs[q].session == session
    && m.id in db.messages && db.messages[m.id].role == m.role
    && match m.role
       case User => m.id == db.runs[q].inputMessage
       case Assistant => db.messages[m.id].run == Some(q) && db.messages[m.id].content == m.content
  }

  ghost predicate HasOrigin(db: Db, session: Id, m: MI.ContextMessage) { exists q :: From(db, session, q, m) }

  ghost predicate Known(db: Db, session: Id, context: seq<MI.ContextMessage>) {
    forall i | 0 <= i < |context| :: HasOrigin(db, session, context[i])
  }

  /** `listed` lists the messages of each run. */
  ghost predicate ListsByRun(db: Db, listed: Id -> seq<Id>) {
    forall r: Id, m: Id | m in listed(r) :: m in db.messages && db.messages[m].run == Some(r)
  }

  lemma {:induction false} OfSessionMembers(db: Db, order: seq<Id>, session: Id)
    ensures forall r | r in OfSession(db, order, session) :: r in db.runs && db.runs[r].session == session
    decreases |order|
  {
    if order != [] { OfSessionMembers(db, order[..|order| - 1], session); }
  }

  lemma {:induction false} FirstAnswerIsListed(db: Db, listed: seq<Id>)
    ensures var a := FirstAnswer(db, listed); a.Some? ==> a.value in listed && LiveAnswer(db, a.value)
  {
    if listed != [] && !LiveAnswer(db, listed[0]) { FirstAnswerIsListed(db, listed[1..]); }
  }

  function Framed(c: MC.Candidate): MI.ContextMessage { MI.ContextMessage(c.id, c.role, c.content) }

  lemma {:induction false} MessagesAreKnown(db: Db, session: Id, r: Id, listed: Id -> seq<Id>, at: Id -> int)
    requires r in db.runs && db.runs[r].session == session && ListsByRun(db, listed)
    ensures var found := MessagesOf(db, session, r, listed(r), at);
            found.Some? ==> From(db, session, r, Framed(found.value.input)) && From(db, session, r, Framed(found.value.assistant))
  {
    FirstAnswerIsListed(db, listed(r));
  }

  /** What is gathered was contributed by one of the runs. */
  lemma {:induction false} GatheredFrom(runs: seq<Option<MC.RunMessages>>, soFar: nat, c: MC.Candidate)
    requires c in MC.Gathered(runs, soFar)
    ensures exists i :: 0 <= i < |runs| && runs[i].Some? && (c == runs[i].value.input || c == runs[i].value.assistant)
    decreases |runs|
  {
    var n := |runs| - 1;
    if runs[n].None? {
      GatheredFrom(runs[..n], soFar, c);
      var i :| 0 <= i < n && runs[..n][i].Some? && (c == runs[..n][i].value.input || c == runs[..n][i].value.assistant);
      assert runs[i] == runs[..n][i];
    } else if c != runs[n].value.input && c != runs[n].value.assistant {
      GatheredFrom(runs[..n], soFar + 2, c);
      var i :| 0 <= i < n && runs[..n][i].Some? && (c == runs[..n][i].value.input || c == runs[..n][i].value.assistant);
      assert runs[i] == runs[..n][i];
    }
  }

  lemma {:induction false} SelectedFrom(candidates: seq<MC.Candidate>, taken: nat, total: nat)
    ensures forall c | c in MC.Selected(candidates, taken, total) :: c in candidates
    decreases |candidates|
  {
    if candidates != [] {
      var n := |candidates| - 1;
      SelectedFrom(candidates[..n], taken + 1, total + |candidates[n].content|);
      SelectedFrom(candidates[..n], taken, total);
    }
  }

  function Chosen(found: seq<Option<MC.RunMessages>>): seq<MC.Candidate> { MC.Selected(MC.InTimeOrder(MC.Gathered(found, 0)), 0, 0) }

  lemma {:induction false} ChosenFrom(found: seq<Option<MC.RunMessages>>, c: MC.Candidate)
    requires c in Chosen(found)
    ensures exists i :: 0 <= i < |found| && found[i].Some? && (c == found[i].value.input || c == found[i].value.assistant)
  {
    var gathered := MC.Gathered(found, 0);
    var sorted := MC.InTimeOrder(gathered);
    MC.SortIsPermutation(gathered);
    SelectedFrom(sorted, 0, 0);
    hide MC.Gathered, MC.InTimeOrder, MC.Selected, MC.Ordered;
    assert c in multiset(sorted) && c in multiset(gathered);
    GatheredFrom(found, 0, c);
  }

  lemma {:induction false} ChosenIsKnown(db: Db, session: Id, runs: seq<Id>, listed: Id -> seq<Id>, at: Id -> int)
    requires ListsByRun(db, listed) && forall i | 0 <= i < |runs| :: runs[i] in db.runs && db.runs[runs[i]].session == session
    ensures Known(db, session, MC.AsContext(Chosen(Contributions(db, session, runs, listed, at))))
  {
    var found := Contributions(db, session, runs, listed, at);
    var chosen := Chosen(found);
    hide Chosen, MessagesOf, ListsByRun;
    forall i | 0 <= i < |chosen|
      ensures HasOrigin(db, session, MC.AsContext(chosen)[i])
    {
      ChosenFrom(found, chosen[i]);
      var j :| 0 <= j < |found| && found[j].Some? && (chosen[i] == found[j].value.input || chosen[i] == found[j].value.assistant);
      MessagesAreKnown(db, session, runs[j], listed, at);
      assert From(db, session, runs[j], Framed(chosen[i]));
      assert MC.AsContext(chosen)[i] == Framed(chosen[i]);
    }
  }

  /** Every message of a selected context belongs to a told run of its session. */
  lemma {:induction false} SelectedIsKnown(db: Db, session: Id, listed: Id -> seq<Id>, at: Id -> int)
    requires ListsByRun(db, listed)
    ensures Known(db, session, MC.AsContext(Chosen(Contributions(db, session, Latest(OfSession(db, db.order, session)), listed, at))))
  {
    var all := OfSession(db, db.order, session);
    OfSessionMembers(db, db.order, session);
    hide OfSession, Chosen, Contributions, Known, ListsByRun;
    assert forall i | 0 <= i < |Latest(all)| :: Latest(all)[i] in all;
    ChosenIsKnown(db, session, Latest(all), listed, at);
  }

  // ----- frozen contexts, over every interleaving

  ghost predicate HasEarlierOrigin(db: Db, session: Id, m: MI.ContextMessage, r: Id) {
    exists q :: From(db, session, q, m) && Before(db.order, q, r)
  }

  /** Every frozen context message belongs to a told run that was accepted earlier, in the same session. */
  ghost predicate ContextsOk(db: Db) {
    forall r, i | r in db.inputs && r in db.runs && 0 <= i < |db.inputs[r].context| ::
      HasEarlierOrigin(db, db.runs[r].session, db.inputs[r].context[i], r)
  }

  ghost predicate ClientKnows(db: Db, client: Client) {
    client.Writing? && client.n.snapshot.Some? ==> Known(db, client.n.scope.session, client.n.snapshot.value.context)
  }

  ghost predicate WorldKnows(w: World) {
    && WorldOk(w) && ContextsOk(w.db)
    && forall c | c in w.clients :: ClientKnows(w.db, w.clients[c])
  }

  /** Each read that builds a context selects it from the tables it reads. */
  ghost predicate Honest(w: World, move: Move) {
    move.Read? && move.c in w.clients && w.clients[move.c].Waiting? && w.clients[move.c].request.CreateMain? ==>
      Known(w.db, w.clients[move.c].request.session, move.sight.context)
  }

  ghost predicate HonestMoves(w: World, moves: seq<Move>)
    decreases |moves|
  {
    moves != [] ==> Honest(w, moves[0]) && HonestMoves(Go(w, moves[0]), moves[1..])
  }

  ghost predicate AnswersKept(db: Db, next: Db) {
    forall m | m in db.messages && db.messages[m].role == MI.Assistant :: m in next.messages && next.messages[m] == db.messages[m]
  }

  lemma {:induction false} FromStays(db: Db, next: Db, session: Id, q: Id, m: MI.ContextMessage)
    requires Extends(db, next) && AnswersKept(db, next) && From(db, session, q, m)
    ensures From(next, session, q, m)
  {
    assert RunKept(db, next, q);
  }

  lemma {:induction false} KnownStays(db: Db, next: Db, session: Id, context: seq<MI.ContextMessage>)
    requires Extends(db, next) && AnswersKept(db, next) && Known(db, session, context)
    ensures Known(next, session, context)
  {
    hide Extends, AnswersKept;
    forall i | 0 <= i < |context|
      ensures HasOrigin(next, session, context[i])
    {
      assert HasOrigin(db, session, context[i]);
      var q :| From(db, session, q, context[i]);
      FromStays(db, next, session, q, context[i]);
      assert From(next, session, q, context[i]);
    }
  }

  lemma {:induction false} GoKeepsAnswers(w: World, move: Move)
    ensures AnswersKept(w.db, Go(w, move).db)
  {
    GoChanges(w, move);
    hide Go, Next;
    if move.Environment? {
      forall m | m in w.db.messages && w.db.messages[m].role == MI.Assistant
        ensures m in Next(w.db, move.step).messages && Next(w.db, move.step).messages[m] == w.db.messages[m]
      {
        StepKeepsAnswers(w.db, move.step, m);
      }
    }
  }

  lemma {:induction false} OriginStays(db: Db, next: Db, session: Id, m: MI.ContextMessage, r: Id)
    requires Extends(db, next) && AnswersKept(db, next)
    requires HasEarlierOrigin(db, session, m, r)
    ensures HasEarlierOrigin(next, session, m, r)
  {
    var q :| From(db, session, q, m) && Before(db.order, q, r);
    FromStays(db, next, session, q, m);
    assert db.order <= next.order;
    BeforeStays(db.order, next.order, q, r);
    hide Extends, From, Before;
    assert From(next, session, q, m) && Before(next.order, q, r);
  }

  lemma {:induction false} BeforeStays(order: seq<Id>, next: seq<Id>, a: Id, b: Id)
    requires order <= next && Before(order, a, b)
    ensures Before(next, a, b)
  {
    var i, j :| 0 <= i < j < |order| && order[i] == a && order[j] == b;
    assert next[i] == a && next[j] == b;
  }

  /** Reading: a fresh context was selected just now, a rerun's is its source's. */
  lemma {:induction false} ReadKnows(w: World, c: Id, ids: Fresh, sight: Sight)
    requires WorldKnows(w) && Honest(w, Read(c, ids, sight)) && c in w.clients && w.clients[c].Waiting?
    ensures ClientKnows(w.db, AfterRead(w.db, w.clients[c].request, ids, sight))
  {
    var request := w.clients[c].request;
    if AfterRead(w.db, request, ids, sight).Writing? {
      CreatedAsAsked(w.db, request, ids, sight);
      var n := AfterRead(w.db, request, ids, sight).n;
      hide AfterRead, WorldOk, From;
      if request.RerunOf? && n.snapshot.Some? {
        assert n.snapshot.value.context == w.db.inputs[request.source].context;
        forall i | 0 <= i < |n.snapshot.value.context|
          ensures HasOrigin(w.db, n.scope.session, n.snapshot.value.context[i])
        {
          assert HasEarlierOrigin(w.db, w.db.runs[request.source].session, w.db.inputs[request.source].context[i], request.source);
          var q :| From(w.db, w.db.runs[request.source].session, q, w.db.inputs[request.source].context[i]) && Before(w.db.order, q, request.source);
          assert From(w.db, n.scope.session, q, n.snapshot.value.context[i]);
        }
      }
    }
  }

  /** Writing: the new run comes after everything its context belongs to. */
  lemma {:induction false} CommitKeepsContexts(db: Db, n: NewRun)
    requires TablesOk(db) && ContextsOk(db) && CommitRun(db, n).reply.Ok?
    requires n.snapshot.Some? ==> Known(db, n.scope.session, n.snapshot.value.context)
    requires Extends(db, CommitRun(db, n).db) && AnswersKept(db, CommitRun(db, n).db)
    ensures ContextsOk(CommitRun(db, n).db)
  {
    hide CommitRun, TablesOk, Extends, AnswersKept, HasEarlierOrigin, Known;
    var next := CommitRun(db, n).db;
    CommitRows(db, n);
    forall r, i | r in next.inputs && r in next.runs && 0 <= i < |next.inputs[r].context|
      ensures HasEarlierOrigin(next, next.runs[r].session, next.inputs[r].context[i], r)
    {
      if r == n.runId {
        NewContextIsEarlier(db, n, i);
      } else {
        OriginStays(db, next, db.runs[r].session, db.inputs[r].context[i], r);
      }
    }
  }

  lemma {:induction false} CommitRows(db: Db, n: NewRun)
    requires TablesOk(db) && CommitRun(db, n).reply.Ok?
    ensures var next := CommitRun(db, n).db;
            forall r | r in next.inputs && r in next.runs ::
              if r == n.runId then n.snapshot.Some? && next.inputs[r] == n.snapshot.value
              else r in db.inputs && r in db.runs && next.runs[r] == db.runs[r] && next.inputs[r] == db.inputs[r]
  {
    assert db.inputs.Keys <= db.runs.Keys;
    hide TablesOk;
  }

  lemma {:induction false} NewContextIsEarlier(db: Db, n: NewRun, i: nat)
    requires TablesOk(db) && CommitRun(db, n).reply.Ok? && n.snapshot.Some? && i < |n.snapshot.value.context|
    requires Known(db, n.scope.session, n.snapshot.value.context)
    requires Extends(db, CommitRun(db, n).db) && AnswersKept(db, CommitRun(db, n).db)
    ensures var next := CommitRun(db, n).db;
            && n.runId in next.inputs && n.runId in next.runs && next.inputs[n.runId] == n.snapshot.value
            && HasEarlierOrigin(next, next.runs[n.runId].session, next.inputs[n.runId].context[i], n.runId)
  {
    var next := CommitRun(db, n).db;
    assert HasOrigin(db, n.scope.session, n.snapshot.value.context[i]);
    var q :| From(db, n.scope.session, q, n.snapshot.value.context[i]);
    assert q in db.order;
    BeforeGrows(db.order, q, q, n.runId);
    assert next.order == db.order + [n.runId] && next.runs[n.runId].session == n.scope.session;
    FromStays(db, next, n.scope.session, q, n.snapshot.value.context[i]);
    hide TablesOk, Extends, AnswersKept, From, Before;
    assert From(next, next.runs[n.runId].session, q, next.inputs[n.runId].context[i]) && Before(next.order, q, n.runId);
  }

  /** Whatever changes no input row keeps every origin. */
  lemma {:induction false} OtherStepsKeepContexts(db: Db, next: Db)
    requires ContextsOk(db) && Extends(db, next) && AnswersKept(db, next)
    requires next.inputs == db.inputs && next.runs.Keys == db.runs.Keys
    ensures ContextsOk(next)
  {
    hide AnswersKept, HasEarlierOrigin;
    forall r, i | r in next.inputs && r in next.runs && 0 <= i < |next.inputs[r].context|
      ensures HasEarlierOrigin(next, next.runs[r].session, next.inputs[r].context[i], r)
    {
      assert RunKept(db, next, r);
      hide Extends;
      OriginStays(db, next, db.runs[r].session, db.inputs[r].context[i], r);
    }
  }

  lemma {:induction false} ClientStaysKnown(db: Db, next: Db, client: Client)
    requires Extends(db, next) && AnswersKept(db, next) && ClientKnows(db, client)
    ensures ClientKnows(next, client)
  {
    hide Extends, AnswersKept, Known;
    if client.Writing? && client.n.snapshot.Some? {
      KnownStays(db, next, client.n.scope.session, client.n.snapshot.value.context);
    }
  }

  /** The clients after a move: each one as before, or the one that moved. */
  lemma {:induction false} ClientsKnow(w: World, move: Move)
    requires WorldKnows(w) && Honest(w, move) && Extends(w.db, Go(w, move).db) && AnswersKept(w.db, Go(w, move).db)
    ensures forall c | c in Go(w, move).clients :: ClientKnows(Go(w, move).db, Go(w, move).clients[c])
  {
    var next := Go(w, move);
    hide Extends, AnswersKept, WorldOk, ContextsOk, ClientKnows;
    forall c | c in next.clients
      ensures ClientKnows(next.db, next.clients[c])
    {
      if c in w.clients && next.clients[c] == w.clients[c] {
        ClientStaysKnown(w.db, next.db, w.clients[c]);
      } else {
        MovedClientKnows(w, move, c);
      }
    }
  }

  lemma {:induction false} MovedClientKnows(w: World, move: Move, c: Id)
    requires WorldKnows(w) && Honest(w, move) && c in Go(w, move).clients
    requires !(c in w.clients && Go(w, move).clients[c] == w.clients[c])
    ensures ClientKnows(Go(w, move).db, Go(w, move).clients[c])
  {
    hide WorldKnows, AfterRead, Honest, Known;
    if Go(w, move).clients[c].Writing? {
      OnlyReadsWrite(w, move, c);
      ReadKnows(w, c, move.ids, move.sight);
    }
  }

  /** Only a read makes a client a writer. */
  lemma {:induction false} OnlyReadsWrite(w: World, move: Move, c: Id)
    requires c in Go(w, move).clients && Go(w, move).clients[c].Writing?
    requires !(c in w.clients && Go(w, move).clients[c] == w.clients[c])
    ensures move.Read? && move.c == c && c in w.clients && w.clients[c].Waiting?
    ensures Go(w, move) == w.(clients := w.clients[c := AfterRead(w.db, w.clients[c].request, move.ids, move.sight)])
  {
    hide AfterRead, CommitRun, Next, Reload, Prepare;
  }

  lemma {:induction false} GoKeepsKnown(w: World, move: Move)
    requires WorldKnows(w) && Honest(w, move)
    ensures WorldKnows(Go(w, move))
  {
    GoKeepsOk(w, move);
    GoExtends(w, move);
    GoKeepsAnswers(w, move);
    ClientsKnow(w, move);
    TablesKeepContexts(w, move);
    hide *;
    hide WorldOk, ContextsOk, ClientKnows;
  }

  lemma {:induction false} TablesKeepContexts(w: World, move: Move)
    requires WorldKnows(w) && Extends(w.db, Go(w, move).db) && AnswersKept(w.db, Go(w, move).db)
    ensures ContextsOk(Go(w, move).db)
  {
    var next := Go(w, move).db;
    hide Extends, AnswersKept, ContextsOk, CommitRun, Next, AfterRead, AfterReadAgain, AfterLookUp, AfterWrite, TablesOk, ClientOk;
    if move.Write? && move.c in w.clients && w.clients[move.c].Writing? {
      var n := w.clients[move.c].n;
      assert ClientKnows(w.db, w.clients[move.c]);
      if CommitRun(w.db, n).reply.Ok? {
        CommitKeepsContexts(w.db, n);
      } else {
        RefusedCommit(w.db, n);
      }
    } else if move.Environment? && !move.step.DoCommit? {
      OtherStepsAcceptNothing(w.db, move.step);
      OtherStepsKeepContexts(w.db, next);
    }
  }

  lemma {:induction false} RefusedCommit(db: Db, n: NewRun)
    requires CommitRun(db, n).reply.Err?
    ensures CommitRun(db, n).db == db
  {
  }

  lemma {:induction false} PlayKeepsKnown(w: World, moves: seq<Move>)
    requires WorldKnows(w) && HonestMoves(w, moves)
    ensures WorldKnows(Play(w, moves))
    decreases |moves|
  {
    hide WorldKnows, Honest;
    if moves != [] {
      GoKeepsKnown(w, moves[0]);
      PlayKeepsKnown(Go(w, moves[0]), moves[1..]);
    }
  }

  /**
   However accepts, reruns, workers and edits interleave: when each read selects its context from
   the tables it finds, every message ever frozen into a run is the input or the very answer of a
   succeeded main-agent run of the same session that was accepted before it and answered or asked back.
   */
  lemma {:induction false} FrozenContextsComeFromEarlierRuns(moves: seq<Move>, r: Id, i: nat)
    requires HonestMoves(INITIAL, moves)
    requires var db := Play(INITIAL, moves).db; r in db.inputs && i < |db.inputs[r].context|
    ensures var db := Play(INITIAL, moves).db;
            r in db.runs && exists q :: From(db, db.runs[r].session, q, db.inputs[r].context[i]) && Before(db.order, q, r)
  {
    Reachable([]);
    assert Play(INITIAL, []) == INITIAL;
    PlayKeepsKnown(INITIAL, moves);
    var db := Play(INITIAL, moves).db;
    hide Play, HonestMoves;
    assert TablesOk(db) && db.inputs.Keys <= db.runs.Keys;
    hide TablesOk;
    assert HasEarlierOrigin(db, db.runs[r].session, db.inputs[r].context[i], r);
  }

  // ----- which runs are considered

  /** `runs` are the session's runs, all of them, in the order of their creation. */
  ghost predicate SessionRuns(db: Db, session: Id, runs: seq<Id>) {
    && (forall r :: r in runs <==> r in db.order && r in db.runs && db.runs[r].session == session)
    && forall i, j | 0 <= i < j < |runs| :: Before(db.order, runs[i], runs[j])
  }

  ghost predicate NoRepeats(order: seq<Id>) { forall i, j | 0 <= i < j < |order| :: order[i] != order[j] }

  lemma {:induction false} OfSessionHolds(db: Db, order: seq<Id>, session: Id)
    ensures forall r :: r in OfSession(db, order, session) <==> r in order && r in db.runs && db.runs[r].session == session
    decreases |order|
  {
    if order != [] {
      var n := |order| - 1;
      OfSessionHolds(db, order[..n], session);
      assert order == order[..n] + [order[n]];
    }
  }

  lemma {:induction false} OfSessionInOrder(db: Db, order: seq<Id>, session: Id)
    requires NoRepeats(order)
    ensures var runs := OfSession(db, order, session); forall i, j | 0 <= i < j < |runs| :: Before(order, runs[i], runs[j])
    decreases |order|
  {
    if order != [] {
      var n := |order| - 1;
      var front, runs := OfSession(db, order[..n], session), OfSession(db, order, session);
      OfSessionInOrder(db, order[..n], session);
      OfSessionHolds(db, order[..n], session);
      OneMore(db, order, session);
      hide OfSession, Before;
      StillInOrder(order[..n], front, order[n]);
      assert order == order[..n] + [order[n]];
    }
  }

  lemma {:induction false} StillInOrder(order: seq<Id>, front: seq<Id>, last: Id)
    requires forall i, j | 0 <= i < j < |front| :: Before(order, front[i], front[j])
    requires forall r | r in front :: r in order
    ensures forall i, j | 0 <= i < j < |front| :: Before(order + [last], front[i], front[j])
    ensures var runs := front + [last]; forall i, j | 0 <= i < j < |runs| :: Before(order + [last], runs[i], runs[j])
  {
    var runs := front + [last];
    forall i, j | 0 <= i < j < |runs|
      ensures Before(order + [last], runs[i], runs[j])
    {
      BeforeGrows(order, runs[i], runs[j], last);
      assert runs[i] == front[i] && front[i] in front;
    }
    forall i, j | 0 <= i < j < |front| ensures Before(order + [last], front[i], front[j]) { BeforeGrows(order, front[i], front[j], last); }
  }

  lemma OneMore(db: Db, order: seq<Id>, session: Id)
    requires order != []
    ensures var front := OfSession(db, order[..|order| - 1], session);
            OfSession(db, order, session) == front || OfSession(db, order, session) == front + [order[|order| - 1]]
  {
  }

  /** The runs of a session are found, all and in order. */
  lemma {:induction false} OfSessionIsTheSession(moves: seq<Move>, session: Id)
    ensures var db := Play(INITIAL, moves).db; SessionRuns(db, session, OfSession(db, db.order, session))
  {
    Reachable(moves);
    var db := Play(INITIAL, moves).db;
    hide Play, Inv, KeysOk, RerunsOk, InputsPresent;
    assert NoRepeats(db.order);
    hide OrderOk, Before, OfSession;
    OfSessionHolds(db, db.order, session);
    OfSessionInOrder(db, db.order, session);
  }

  /**
   A run can be quoted: it is a succeeded main-agent run that answered or asked back, its input is a live
   user message of the session, and one of the messages listed for it is a live answer.
   */
  ghost predicate Quotable(db: Db, session: Id, r: Id, listed: Id -> seq<Id>) {
    && r in db.runs && db.runs[r].kind == MainAgent && db.runs[r].status == Succeeded
    && r in db.deliveries && (db.deliveries[r].Answer? || db.deliveries[r].NeedsInput?)
    && (var input := db.runs[r].inputMessage;
        && input in db.messages && db.messages[input].session == session
        && db.messages[input].role == MI.User && !db.messages[input].archived)
    && exists n: nat :: IsAnswer(db, listed(r), n)
  }

  /** Place `n` holds the first live assistant message listed. */
  ghost predicate IsAnswer(db: Db, listed: seq<Id>, n: nat) {
    && n < |listed| && listed[n] in db.messages && db.messages[listed[n]].role == MI.Assistant && !db.messages[listed[n]].archived
    && forall m | 0 <= m < n && listed[m] in db.messages ::
         db.messages[listed[m]].role != MI.Assistant || db.messages[listed[m]].archived
  }

  /** The candidate is the message `m` as it is stored now. */
  ghost predicate Stands(db: Db, c: MC.Candidate, m: Id, at: Id -> int) {
    m in db.messages && c == MC.Candidate(m, at(m), db.messages[m].role, db.messages[m].content)
  }

  /** The candidate is the input of the run, or its first live answer. */
  ghost predicate QuotedFrom(db: Db, r: Id, listed: Id -> seq<Id>, at: Id -> int, c: MC.Candidate)
    requires r in db.runs
  {
    Stands(db, c, db.runs[r].inputMessage, at) || exists n: nat :: IsAnswer(db, listed(r), n) && Stands(db, c, listed(r)[n], at)
  }

  lemma {:induction false} FirstAnswerIs(db: Db, listed: seq<Id>)
    ensures FirstAnswer(db, listed).Some? <==> exists n: nat :: IsAnswer(db, listed, n)
    ensures forall n: nat | IsAnswer(db, listed, n) :: FirstAnswer(db, listed) == Some(listed[n])
    decreases |listed|
  {
    if listed != [] {
      FirstAnswerIs(db, listed[1..]);
      if LiveAnswer(db, listed[0]) {
        assert IsAnswer(db, listed, 0);
      } else {
        forall n: nat | IsAnswer(db, listed, n)
          ensures n > 0 && IsAnswer(db, listed[1..], n - 1)
        {
          assert forall m | 0 <= m < n - 1 :: listed[1..][m] == listed[m + 1];
        }
        forall n: nat | IsAnswer(db, listed[1..], n)
          ensures IsAnswer(db, listed, n + 1)
        {
          assert forall m | 0 < m < n + 1 :: listed[m] == listed[1..][m - 1];
        }
      }
    }
  }

  lemma {:induction false} ContributionIs(db: Db, session: Id, r: Id, listed: Id -> seq<Id>, at: Id -> int, c: MC.Candidate)
    requires r in db.runs
    ensures var found := MessagesOf(db, session, r, listed(r), at);
            && (found.Some? <==> Quotable(db, session, r, listed))
            && (found.Some? ==> ((c == found.value.input || c == found.value.assistant) <==> QuotedFrom(db, r, listed, at, c)))
  {
    FirstAnswerIs(db, listed(r));
    FirstAnswerIsListed(db, listed(r));
    hide FirstAnswer, IsAnswer;
    var found := MessagesOf(db, session, r, listed(r), at);
    if found.Some? {
      var n: nat :| IsAnswer(db, listed(r), n);
      assert found.value.assistant.id == listed(r)[n] by { IsAnswerIsListed(db, listed(r), n); }
    }
  }

  lemma IsAnswerIsListed(db: Db, listed: seq<Id>, n: nat)
    requires IsAnswer(db, listed, n)
    ensures n < |listed|
  {
  }

  /** How many of the runs can be quoted. */
  ghost function QuotableRuns(db: Db, session: Id, runs: seq<Id>, listed: Id -> seq<Id>): nat {
    if runs == [] then 0
    else (if Quotable(db, session, runs[0], listed) then 1 else 0) + QuotableRuns(db, session, runs[1..], listed)
  }

  lemma {:induction false} HowManyAreQuotable(db: Db, session: Id, runs: seq<Id>, listed: Id -> seq<Id>, at: Id -> int)
    requires forall i | 0 <= i < |runs| :: runs[i] in db.runs
    ensures MC.HowMany(Contributions(db, session, runs, listed, at)) == QuotableRuns(db, session, runs, listed)
    decreases |runs|
  {
    hide Quotable, MessagesOf, QuotedFrom;
    if runs != [] {
      HowManyAreQuotable(db, session, runs[1..], listed, at);
      var found := Contributions(db, session, runs, listed, at);
      assert found[1..] == Contributions(db, session, runs[1..], listed, at);
      ContributionIs(db, session, runs[0], listed, at, MC.Candidate(0, 0, MI.User, ""));
    }
  }

  /** Run `runs[i]` can be quoted, fewer than four later ones can, and the candidate is its input or answer. */
  ghost predicate Considered(db: Db, session: Id, runs: seq<Id>, i: nat, listed: Id -> seq<Id>, at: Id -> int, c: MC.Candidate) {
    && i < |runs| && Quotable(db, session, runs[i], listed) && QuotableRuns(db, session, runs[i + 1..], listed) < 4
    && QuotedFrom(db, runs[i], listed, at, c)
  }

  lemma {:induction false} ConsideredIs(db: Db, session: Id, runs: seq<Id>, i: nat, listed: Id -> seq<Id>, at: Id -> int, c: MC.Candidate)
    requires forall j | 0 <= j < |runs| :: runs[j] in db.runs
    ensures MC.OfARecentRun(Contributions(db, session, runs, listed, at), i, c, 4) <==> Considered(db, session, runs, i, listed, at, c)
  {
    hide Quotable, MessagesOf, QuotedFrom, QuotableRuns, MC.HowMany;
    if i < |runs| {
      var found := Contributions(db, session, runs, listed, at);
      ContributionIs(db, session, runs[i], listed, at, c);
      assert found[i + 1..] == Contributions(db, session, runs[i + 1..], listed, at);
      HowManyAreQuotable(db, session, runs[i + 1..], listed, at);
    }
  }

  /**
   In every reachable state the candidates for a session's context are the inputs and first live answers of the
   four newest runs that can be quoted, among the session's last sixteen runs.
   */
  lemma {:induction false} NewestRunsAreConsidered(moves: seq<Move>, session: Id, listed: Id -> seq<Id>, at: Id -> int, c: MC.Candidate)
    ensures var db := Play(INITIAL, moves).db;
            var runs := OfSession(db, db.order, session);
            var last := if |runs| > 16 then runs[|runs| - 16..] else runs;
            && SessionRuns(db, session, runs)
            && (c in MC.Gathered(Contributions(db, session, Latest(runs), listed, at), 0)
                <==> exists i: nat :: Considered(db, session, last, i, listed, at, c))
  {
    OfSessionIsTheSession(moves, session);
    var db := Play(INITIAL, moves).db;
    var runs := OfSession(db, db.order, session);
    var last := if |runs| > 16 then runs[|runs| - 16..] else runs;
    hide Play, OfSession, Considered, MC.OfARecentRun, MC.Gathered, Contributions, Before;
    assert Latest(runs) == last;
    forall j | 0 <= j < |last| ensures last[j] in db.runs { assert last[j] in runs; }
    var found := Contributions(db, session, last, listed, at);
    MC.FourNewestRunsAreGathered(found, c);
    forall i: nat
      ensures MC.OfARecentRun(found, i, c, 4) <==> Considered(db, session, last, i, listed, at, c)
    {
      ConsideredIs(db, session, last, i, listed, at, c);
    }
  }
}
