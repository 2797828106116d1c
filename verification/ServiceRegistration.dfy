/**
 The in-memory service registry and the database rows behind it, changed by concurrent threads
 under re-entrant locks (backend/src/domain/services.py, backend/src/application/service_registration.py).
 A commit and the map update that follows it are separate steps, and so are the two assignments
 of a map update. Built connectors validate, and no stored row uses an environment id.
 */
module ServiceRegistration {
  import opened Wrappers

  type Sid = nat
  type Tid = nat

  /** What a row says; an update stores new contents. */
  type Contents = nat

  datatype Connector = FromEnvironment(id: Sid) | FromRow(contents: Contents)

  /** A re-entrant lock: who holds it, and how often. */
  datatype Hold = Hold(thread: Tid, depth: nat)

  datatype Operation = Create(id: Sid, contents: Contents) | Update(id: Sid, contents: Contents) | Delete(id: Sid)

  /** How the database transaction of a step ends. */
  datatype Transaction = Commits | RaisesIntegrity | RaisesValue | RaisesOther

  datatype Pc =
    | Idle
    // a writer
    | WaitEpoch(op: Operation)
    | WaitEntry(op: Operation)
    | Checking(op: Operation)
    | Committing(op: Operation, current: Option<Connector>)
    | Committed(op: Operation, current: Option<Connector>)
    | Guarded(op: Operation, current: Option<Connector>)
    | HalfMapped(op: Operation)
    | Leaving(op: Operation, poisons: bool)
    | Poisoning(op: Operation)
    | ReleaseEntry(op: Operation)
    | ReleaseEpoch(op: Operation)
    // readers
    | WaitAll
    | ReadingAll
    | WaitOne(id: Sid)
    | ReadingOne(id: Sid)

  datatype World = World(
    rows: map<Sid, Contents>, connectors: map<Sid, Connector>, registered: set<Sid>, poisoned: set<Sid>, environment: set<Sid>,
    epoch: Option<Hold>, entries: map<Sid, Hold>, threads: map<Tid, Pc>)

  /** Start-up: the environment's connectors, then every stored row registered. */
  function Startup(environment: set<Sid>, rows: map<Sid, Contents>): World {
    World(rows,
          (map id | id in environment :: FromEnvironment(id)) + (map id | id in rows :: FromRow(rows[id])),
          rows.Keys, {}, environment, None, map[], map[])
  }

  /** `get_connector` */
  function Visible(w: World, id: Sid): Option<Connector> {
    if id in w.poisoned || id !in w.connectors then None else Some(w.connectors[id])
  }

  /** `list_connectors` and `service_ids`, as a set of ids. */
  function VisibleIds(w: World): set<Sid> { w.connectors.Keys - w.poisoned }

  // ----- locks

  predicate Free(lock: Option<Hold>, t: Tid) { lock.None? || lock.value.thread == t }

  function Acquired(lock: Option<Hold>, t: Tid): Option<Hold> {
    Some(Hold(t, if lock.Some? then lock.value.depth + 1 else 1))
  }

  function Released(lock: Option<Hold>): Option<Hold> {
    if lock.None? || lock.value.depth <= 1 then None else Some(lock.value.(depth := lock.value.depth - 1))
  }

  function Entry(w: World, id: Sid): Option<Hold> { if id in w.entries then Some(w.entries[id]) else None }

  function SetEntry(w: World, id: Sid, lock: Option<Hold>): World {
    w.(entries := if lock.Some? then w.entries[id := lock.value] else w.entries - {id})
  }

  function At(w: World, t: Tid, pc: Pc): World { w.(threads := w.threads[t := pc]) }

  // ----- the transactions and map updates

  /** `create`'s, `update`'s and `delete`'s transaction, then where the operation goes on. */
  function Commit(w: World, t: Tid, op: Operation, current: Option<Connector>, transaction: Transaction): World {
    if transaction != Commits then
      At(w, t, if op.Create? && transaction == RaisesValue then Poisoning(op) else ReleaseEntry(op))
    else
      match op
      case Create(id, contents) =>
        if Visible(w, id).Some? || id in w.rows then At(w, t, ReleaseEntry(op))
        else At(w.(rows := w.rows[id := contents]), t, Committed(op, current))
      case Update(id, contents) =>
        if id !in w.rows then At(w, t, ReleaseEntry(op))
        else At(w.(rows := w.rows[id := contents]), t, Committed(op, current))
      case Delete(id) =>
        if id !in w.rows then At(w, t, ReleaseEntry(op))
        else At(w.(rows := w.rows - {id}), t, Committed(op, current))
  }

  /** The first assignment of `register`, `replace` or `remove`, or their refusal. */
  function MapStep(w: World, t: Tid, op: Operation, current: Option<Connector>): World {
    match op
    case Create(id, contents) =>
      if id in w.connectors then At(w, t, Leaving(op, true))
      else At(w.(connectors := w.connectors[id := FromRow(contents)]), t, HalfMapped(op))
    case Update(id, contents) =>
      if id !in w.connectors || (current.Some? && w.connectors[id] != current.value) then At(w, t, Leaving(op, true))
      else At(w.(connectors := w.connectors[id := FromRow(contents)]), t, Leaving(op, false))
    case Delete(id) =>
      if id !in w.connectors || (current.Some? && w.connectors[id] != current.value) then At(w, t, Leaving(op, true))
      else At(w.(connectors := w.connectors - {id}), t, HalfMapped(op))
  }

  /** One step of thread `t`; it stays where it is while a lock it needs is held by another. */
  function Step(w: World, t: Tid, transaction: Transaction): World
    requires t in w.threads
  {
    match w.threads[t]
    case Idle => w
    case WaitEpoch(op) => if Free(w.epoch, t) then At(w.(epoch := Acquired(w.epoch, t)), t, WaitEntry(op)) else w
    case WaitEntry(op) =>
      if Free(Entry(w, op.id), t) then At(SetEntry(w, op.id, Acquired(Entry(w, op.id), t)), t, Checking(op)) else w
    case Checking(op) =>
      var current := Visible(w, op.id);
      At(w, t, if (op.Create? && current.Some?) || (op.Update? && current.None?) then ReleaseEntry(op) else Committing(op, current))
    case Committing(op, current) => Commit(w, t, op, current, transaction)
    case Committed(op, current) =>
      if Free(w.epoch, t) && Free(Entry(w, op.id), t)
      then At(SetEntry(w.(epoch := Acquired(w.epoch, t)), op.id, Acquired(Entry(w, op.id), t)), t, Guarded(op, current)) else w
    case Guarded(op, current) => MapStep(w, t, op, current)
    case HalfMapped(op) =>
      At(w.(registered := if op.Delete? then w.registered - {op.id} else w.registered + {op.id}), t, Leaving(op, false))
    case Leaving(op, poisons) =>
      At(SetEntry(w.(epoch := Released(w.epoch)), op.id, Released(Entry(w, op.id))), t, if poisons then Poisoning(op) else ReleaseEntry(op))
    case Poisoning(op) =>
      if Free(Entry(w, op.id), t) then At(w.(poisoned := w.poisoned + {op.id}), t, ReleaseEntry(op)) else w
    case ReleaseEntry(op) => At(SetEntry(w, op.id, Released(Entry(w, op.id))), t, ReleaseEpoch(op))
    case ReleaseEpoch(_) => At(w.(epoch := Released(w.epoch)), t, Idle)
    case WaitAll => if Free(w.epoch, t) then At(w.(epoch := Acquired(w.epoch, t)), t, ReadingAll) else w
    case ReadingAll => At(w.(epoch := Released(w.epoch)), t, Idle)
    case WaitOne(id) => if Free(Entry(w, id), t) then At(SetEntry(w, id, Acquired(Entry(w, id), t)), t, ReadingOne(id)) else w
    case ReadingOne(id) => At(SetEntry(w, id, Released(Entry(w, id))), t, Idle)
  }

  datatype Move = Begin(t: Tid, pc: Pc) | Take(t: Tid, transaction: Transaction)

  predicate Entrance(pc: Pc) { pc.WaitEpoch? || pc.WaitAll? || pc.WaitOne? }

  function Go(w: World, move: Move): World {
    match move
    case Begin(t, pc) =>
      if Entrance(pc) && (t in w.threads ==> w.threads[t] == Idle) then At(w, t, pc) else w
    case Take(t, transaction) => if t in w.threads then Step(w, t, transaction) else w
  }

  function Play(w: World, moves: seq<Move>): World
    decreases |moves|
  {
    if moves == [] then w else Play(Go(w, moves[0]), moves[1..])
  }

  // ----- the invariant

  /** How often a thread at `pc` holds the epoch, and which entry it holds how often. */
  function EpochDepth(pc: Pc): nat {
    if pc.Guarded? || pc.HalfMapped? || pc.Leaving? then 2
    else if pc.Idle? || pc.WaitEpoch? || pc.WaitAll? || pc.WaitOne? || pc.ReadingOne? then 0
    else 1
  }

  /** The entry a thread at `pc` holds. */
  function Held(pc: Pc): Option<Sid> {
    match pc
    case ReadingOne(id) => Some(id)
    case Checking(op) => Some(op.id)
    case Committing(op, _) => Some(op.id)
    case Committed(op, _) => Some(op.id)
    case Guarded(op, _) => Some(op.id)
    case HalfMapped(op) => Some(op.id)
    case Leaving(op, _) => Some(op.id)
    case Poisoning(op) => Some(op.id)
    case ReleaseEntry(op) => Some(op.id)
    case _ => None
  }

  function EntryDepth(pc: Pc, id: Sid): nat {
    if Held(pc) != Some(id) then 0 else if pc.Guarded? || pc.HalfMapped? || pc.Leaving? then 2 else 1
  }

  function PcOf(w: World, t: Tid): Pc { if t in w.threads then w.threads[t] else Idle }

  /** Lock and positions agree: the holder is the one thread whose position says so, as deep as it says. */
  ghost predicate EpochOk(w: World) {
    match w.epoch
    case None => forall t :: EpochDepth(PcOf(w, t)) == 0
    case Some(h) => EpochDepth(PcOf(w, h.thread)) == h.depth > 0 && forall t | t != h.thread :: EpochDepth(PcOf(w, t)) == 0
  }

  ghost predicate EntryOk(w: World, id: Sid) {
    match Entry(w, id)
    case None => forall t :: EntryDepth(PcOf(w, t), id) == 0
    case Some(h) => EntryDepth(PcOf(w, h.thread), id) == h.depth > 0 && forall t | t != h.thread :: EntryDepth(PcOf(w, t), id) == 0
  }

  /** Row, registration and connector of one id belong together; an environment id has only its connector. */
  ghost predicate Settled(w: World, id: Sid) {
    && (id in w.registered <==> id in w.rows)
    && (id in w.connectors <==> id in w.environment || id in w.registered)
    && (id in w.rows ==> id !in w.environment && w.connectors[id] == FromRow(w.rows[id]))
    && (id in w.environment ==> id !in w.poisoned && w.connectors[id] == FromEnvironment(id))
  }

  /** The window between a commit and the end of its map update, for the id it is about. */
  predicate InWindow(pc: Pc) { pc.Committed? || pc.Guarded? || pc.HalfMapped? }

  ghost predicate WindowOk(w: World, pc: Pc)
    requires InWindow(pc)
  {
    var op, id := pc.op, pc.op.id;
    && id !in w.environment
    && match op
       case Create(_, contents) =>
         id in w.rows && w.rows[id] == contents && id !in w.registered
         && if pc.HalfMapped? then id in w.connectors && w.connectors[id] == FromRow(contents) else id !in w.connectors
       case Update(_, contents) =>
         !pc.HalfMapped? && id in w.rows && w.rows[id] == contents && id in w.registered && Visible(w, id) == pc.current
         && pc.current.Some?
       case Delete(_) =>
         id !in w.rows && id in w.registered
         && if pc.HalfMapped? then id !in w.connectors
            else id in w.connectors && (pc.current.Some? ==> w.connectors[id] == pc.current.value)
  }

  ghost predicate PositionOk(w: World, pc: Pc) {
    match pc
    case Committing(op, current) => current == Visible(w, op.id) && (op.Create? ==> current.None?) && (op.Update? ==> current.Some?)
    case Leaving(_, poisons) => !poisons
    case Poisoning(op) => op.Create? && op.id !in w.environment
    case _ => InWindow(pc) ==> WindowOk(w, pc)
  }

  /** Some thread is in its window on `id`. */
  ghost predicate Busy(w: World, id: Sid) { exists t :: InWindow(PcOf(w, t)) && PcOf(w, t).op.id == id }

  ghost predicate WorldOk(w: World) {
    && EpochOk(w)
    && (forall id :: EntryOk(w, id))
    && (forall t :: PositionOk(w, PcOf(w, t)))
    && (forall id :: Busy(w, id) || Settled(w, id))
  }

  // ----- locks stay in step with positions

  /** One thread moves and treats a lock accordingly. */
  predicate LockMove(lock: Option<Hold>, next: Option<Hold>, t: Tid, depth: nat, nextDepth: nat) {
    || (next == lock && nextDepth == depth)
    || (Free(lock, t) && next == Acquired(lock, t) && nextDepth == depth + 1)
    || (depth > 0 && next == Released(lock) && nextDepth + 1 == depth)
  }

  lemma EpochStays(w: World, next: World, t: Tid, pc: Pc)
    requires EpochOk(w) && next.threads == w.threads[t := pc]
    requires LockMove(w.epoch, next.epoch, t, EpochDepth(PcOf(w, t)), EpochDepth(pc))
    ensures EpochOk(next)
  {
    hide EpochDepth;
    assert forall u | u != t :: PcOf(next, u) == PcOf(w, u);
    assert PcOf(next, t) == pc;
  }

  lemma EntryStays(w: World, next: World, t: Tid, pc: Pc, id: Sid)
    requires EntryOk(w, id) && next.threads == w.threads[t := pc]
    requires LockMove(Entry(w, id), Entry(next, id), t, EntryDepth(PcOf(w, t), id), EntryDepth(pc, id))
    ensures EntryOk(next, id)
  {
    hide EntryDepth, Entry;
    assert forall u | u != t :: PcOf(next, u) == PcOf(w, u);
    assert PcOf(next, t) == pc;
  }

  lemma HolderIsAlone(w: World, t: Tid)
    requires EpochOk(w) && EpochDepth(PcOf(w, t)) > 0
    ensures w.epoch.Some? && w.epoch.value == Hold(t, EpochDepth(PcOf(w, t)))
    ensures forall u | u != t :: EpochDepth(PcOf(w, u)) == 0
  {
    hide EpochDepth;
  }

  lemma EntryHolder(w: World, t: Tid, id: Sid)
    requires EntryOk(w, id) && EntryDepth(PcOf(w, t), id) > 0
    ensures Entry(w, id) == Some(Hold(t, EntryDepth(PcOf(w, t), id)))
  {
    hide EntryDepth, Entry;
  }

  ghost predicate SameData(w: World, next: World) {
    && next.rows == w.rows && next.connectors == w.connectors && next.registered == w.registered
    && next.poisoned == w.poisoned && next.environment == w.environment
  }

  /** What is said of `id` depends on the tables at `id` only. */
  ghost predicate SameAt(w: World, next: World, id: Sid) {
    && (id in next.rows <==> id in w.rows) && (id in w.rows ==> next.rows[id] == w.rows[id])
    && (id in next.connectors <==> id in w.connectors) && (id in w.connectors ==> next.connectors[id] == w.connectors[id])
    && (id in next.registered <==> id in w.registered) && (id in next.poisoned <==> id in w.poisoned)
    && next.environment == w.environment
  }

  lemma AcquireEntry(w: World, t: Tid, transaction: Transaction, id: Sid)
    requires t in w.threads && (w.threads[t].WaitEntry? || w.threads[t].Committed? || w.threads[t].WaitOne?)
    requires Step(w, t, transaction) != w
    ensures var next := Step(w, t, transaction);
            LockMove(Entry(w, id), Entry(next, id), t, EntryDepth(PcOf(w, t), id), EntryDepth(next.threads[t], id))
  {
  }

  lemma FreeEntry(w: World, t: Tid, transaction: Transaction, id: Sid)
    requires t in w.threads && (w.threads[t].Leaving? || w.threads[t].ReleaseEntry? || w.threads[t].ReadingOne?)
    requires EntryOk(w, id)
    ensures var next := Step(w, t, transaction);
            LockMove(Entry(w, id), Entry(next, id), t, EntryDepth(PcOf(w, t), id), EntryDepth(next.threads[t], id))
  {
  }

  /** Transactions and map updates leave the locks alone. */
  lemma CommitShape(w: World, t: Tid, op: Operation, current: Option<Connector>, transaction: Transaction)
    ensures var next := Commit(w, t, op, current, transaction);
            && t in next.threads && next.threads == w.threads[t := next.threads[t]] && next.epoch == w.epoch && next.entries == w.entries
            && Held(next.threads[t]) == Some(op.id) && EpochDepth(next.threads[t]) == 1
            && !(next.threads[t].Guarded? || next.threads[t].HalfMapped? || next.threads[t].Leaving?)
  {
    hide Visible;
  }

  lemma MapShape(w: World, t: Tid, op: Operation, current: Option<Connector>)
    ensures var next := MapStep(w, t, op, current);
            && t in next.threads && next.threads == w.threads[t := next.threads[t]] && next.epoch == w.epoch && next.entries == w.entries
            && Held(next.threads[t]) == Some(op.id) && (next.threads[t].HalfMapped? || next.threads[t].Leaving?)
  {
  }

  lemma KeepEntry(w: World, t: Tid, transaction: Transaction, id: Sid)
    requires t in w.threads && !(w.threads[t].WaitEntry? || w.threads[t].Committed? || w.threads[t].WaitOne?)
    requires !(w.threads[t].Leaving? || w.threads[t].ReleaseEntry? || w.threads[t].ReadingOne?)
    ensures var next := Step(w, t, transaction);
            t in next.threads && next.entries == w.entries && EntryDepth(next.threads[t], id) == EntryDepth(PcOf(w, t), id)
  {
    hide Visible, Commit, MapStep, Acquired, Released, Free;
    if w.threads[t].Committing? { CommitShape(w, t, w.threads[t].op, w.threads[t].current, transaction); }
    if w.threads[t].Guarded? { MapShape(w, t, w.threads[t].op, w.threads[t].current); }
  }

  lemma StepEpoch(w: World, t: Tid, transaction: Transaction)
    requires t in w.threads && Step(w, t, transaction) != w
    ensures var next := Step(w, t, transaction);
            && t in next.threads && next.threads == w.threads[t := next.threads[t]]
            && LockMove(w.epoch, next.epoch, t, EpochDepth(PcOf(w, t)), EpochDepth(next.threads[t]))
  {
    hide Visible, Commit, MapStep, Acquired, Released, Free, Entry;
    if w.threads[t].Committing? { CommitShape(w, t, w.threads[t].op, w.threads[t].current, transaction); }
    if w.threads[t].Guarded? { MapShape(w, t, w.threads[t].op, w.threads[t].current); }
  }

  /** Every step treats the locks as its position change requires. */
  lemma StepLocks(w: World, t: Tid, transaction: Transaction)
    requires EpochOk(w) && (forall id :: EntryOk(w, id)) && t in w.threads
    ensures var next := Step(w, t, transaction);
            next == w || (EpochOk(next) && forall id :: EntryOk(next, id))
  {
    hide EpochOk, EntryOk, EpochDepth;
    var next := Step(w, t, transaction);
    if next != w {
      StepEpoch(w, t, transaction);
      hide Step;
      EpochStays(w, next, t, next.threads[t]);
      forall id
        ensures EntryOk(next, id)
      {
        var pc := w.threads[t];
        if pc.WaitEntry? || pc.Committed? || pc.WaitOne? {
          AcquireEntry(w, t, transaction, id);
        } else if pc.Leaving? || pc.ReleaseEntry? || pc.ReadingOne? {
          FreeEntry(w, t, transaction, id);
        } else {
          KeepEntry(w, t, transaction, id);
          assert LockMove(Entry(w, id), Entry(next, id), t, EntryDepth(PcOf(w, t), id), EntryDepth(next.threads[t], id));
        }
        hide LockMove;
        EntryStays(w, next, t, next.threads[t], id);
      }
    }
  }

  // ----- the tables stay consistent

  lemma OnlyHolderIsBusy(w: World, t: Tid, id: Sid)
    requires EpochOk(w) && EpochDepth(PcOf(w, t)) > 0
    ensures Busy(w, id) <==> InWindow(PcOf(w, t)) && PcOf(w, t).op.id == id
  {
    HolderIsAlone(w, t);
  }

  /** Threads without the epoch are at positions that say nothing about the tables. */
  lemma OthersSayNothing(w: World, next: World, t: Tid)
    requires EpochOk(w) && EpochDepth(PcOf(w, t)) > 0 && next.threads.Keys >= w.threads.Keys
    requires forall u | u != t :: PcOf(next, u) == PcOf(w, u)
    ensures forall u | u != t :: PositionOk(next, PcOf(next, u)) && !InWindow(PcOf(next, u))
  {
    HolderIsAlone(w, t);
    forall u | u != t
      ensures PositionOk(next, PcOf(next, u)) && !InWindow(PcOf(next, u))
    {
      assert EpochDepth(PcOf(w, u)) == 0;
    }
  }

  /** A step of the thread that holds the epoch, on the id of its operation. */
  lemma HolderStepKeepsOk(w: World, next: World, t: Tid, id: Sid)
    requires WorldOk(w) && EpochDepth(PcOf(w, t)) > 0 && t in next.threads && next.threads == w.threads[t := next.threads[t]]
    requires InWindow(PcOf(w, t)) ==> PcOf(w, t).op.id == id
    requires EpochOk(next) && forall other :: EntryOk(next, other)
    requires forall other | other != id :: SameAt(w, next, other)
    requires PositionOk(next, next.threads[t])
    requires if InWindow(next.threads[t]) then next.threads[t].op.id == id else Settled(next, id)
    ensures WorldOk(next)
  {
    var pc := next.threads[t];
    assert PcOf(next, t) == pc;
    OthersSayNothing(w, next, t);
    forall other
      ensures Busy(next, other) || Settled(next, other)
    {
      OnlyHolderIsBusy(w, t, other);
      if other == id {
        if InWindow(pc) { assert InWindow(PcOf(next, t)); }
      } else {
        assert Settled(w, other) && SameAt(w, next, other);
      }
    }
  }

  /** A step that only concerns locks. */
  lemma LockStepKeepsOk(w: World, next: World, t: Tid)
    requires WorldOk(w) && SameData(w, next) && t in next.threads && next.threads == w.threads[t := next.threads[t]]
    requires EpochOk(next) && forall id :: EntryOk(next, id)
    requires !InWindow(PcOf(w, t)) && !InWindow(next.threads[t]) && PositionOk(next, next.threads[t])
    ensures WorldOk(next)
  {
    assert forall u | u != t :: PcOf(next, u) == PcOf(w, u);
    assert PcOf(next, t) == next.threads[t];
    forall u
      ensures PositionOk(next, PcOf(next, u))
    {
      assert PositionOk(w, PcOf(w, u));
    }
    forall id
      ensures Busy(next, id) || Settled(next, id)
    {
      assert Busy(w, id) || Settled(w, id);
      if Busy(w, id) {
        var u :| InWindow(PcOf(w, u)) && PcOf(w, u).op.id == id;
        assert PcOf(next, u) == PcOf(w, u);
      }
    }
  }

  lemma SettledAt(w: World, t: Tid, id: Sid)
    requires WorldOk(w) && EpochDepth(PcOf(w, t)) > 0 && !(InWindow(PcOf(w, t)) && PcOf(w, t).op.id == id)
    ensures Settled(w, id)
  {
    OnlyHolderIsBusy(w, t, id);
  }

  lemma WaitingKeepsOk(w: World, t: Tid, transaction: Transaction)
    requires WorldOk(w) && t in w.threads && Step(w, t, transaction) != w
    requires w.threads[t].WaitEpoch? || w.threads[t].WaitEntry? || w.threads[t].Checking? || w.threads[t].ReleaseEntry?
             || w.threads[t].ReleaseEpoch? || w.threads[t].WaitAll? || w.threads[t].ReadingAll? || w.threads[t].WaitOne? || w.threads[t].ReadingOne?
    ensures WorldOk(Step(w, t, transaction))
  {
    StepLocks(w, t, transaction);
    hide EpochOk, EntryOk, Settled, WorldOk, Acquired, Released, Free, Entry;
    LockStepKeepsOk(w, Step(w, t, transaction), t);
  }

  lemma CommitKeepsOk(w: World, t: Tid, transaction: Transaction)
    requires WorldOk(w) && t in w.threads && w.threads[t].Committing?
    ensures WorldOk(Step(w, t, transaction))
  {
    var pc := w.threads[t];
    var id, next := pc.op.id, Step(w, t, transaction);
    StepLocks(w, t, transaction);
    assert PositionOk(w, PcOf(w, t));
    SettledAt(w, t, id);
    hide EpochOk, EntryOk, WorldOk;
    HolderStepKeepsOk(w, next, t, id);
  }

  lemma GuardKeepsOk(w: World, t: Tid, transaction: Transaction)
    requires WorldOk(w) && t in w.threads && w.threads[t].Committed? && Step(w, t, transaction) != w
    ensures WorldOk(Step(w, t, transaction))
  {
    var pc := w.threads[t];
    StepLocks(w, t, transaction);
    assert PositionOk(w, PcOf(w, t));
    hide EpochOk, EntryOk, WorldOk, Settled, Acquired, Free, Entry;
    HolderStepKeepsOk(w, Step(w, t, transaction), t, pc.op.id);
  }

  lemma MapKeepsOk(w: World, t: Tid, transaction: Transaction)
    requires WorldOk(w) && t in w.threads && (w.threads[t].Guarded? || w.threads[t].HalfMapped?)
    ensures WorldOk(Step(w, t, transaction))
    ensures Step(w, t, transaction).threads[t] == Leaving(w.threads[t].op, false)
            || (w.threads[t].Guarded? && Step(w, t, transaction).threads[t] == HalfMapped(w.threads[t].op))
  {
    var pc := w.threads[t];
    StepLocks(w, t, transaction);
    assert PositionOk(w, PcOf(w, t));
    hide EpochOk, EntryOk, WorldOk;
    HolderStepKeepsOk(w, Step(w, t, transaction), t, pc.op.id);
  }

  lemma LeaveKeepsOk(w: World, t: Tid, transaction: Transaction)
    requires WorldOk(w) && t in w.threads && (w.threads[t].Leaving? || w.threads[t].Poisoning?) && Step(w, t, transaction) != w
    ensures WorldOk(Step(w, t, transaction))
  {
    var pc := w.threads[t];
    var id := pc.op.id;
    StepLocks(w, t, transaction);
    assert PositionOk(w, PcOf(w, t));
    SettledAt(w, t, id);
    hide EpochOk, EntryOk, WorldOk, Released, Free, Entry;
    HolderStepKeepsOk(w, Step(w, t, transaction), t, id);
  }

  lemma BeginKeepsOk(w: World, t: Tid, pc: Pc)
    requires WorldOk(w)
    ensures WorldOk(Go(w, Begin(t, pc)))
  {
    var next := Go(w, Begin(t, pc));
    if next != w {
      EpochStays(w, next, t, pc);
      forall id ensures EntryOk(next, id) { EntryStays(w, next, t, pc, id); }
      hide EpochOk, EntryOk, Settled, WorldOk;
      LockStepKeepsOk(w, next, t);
    }
  }

  lemma GoKeepsOk(w: World, move: Move)
    requires WorldOk(w)
    ensures WorldOk(Go(w, move))
  {
    assert move.Take? && move.t in w.threads && w.threads[move.t].Idle? ==> Step(w, move.t, move.transaction) == w;
    hide WorldOk, Step;
    match move
    case Begin(t, pc) => BeginKeepsOk(w, t, pc);
    case Take(t, transaction) =>
      if t in w.threads && !w.threads[t].Idle? && Step(w, t, transaction) != w {
        match w.threads[t]
        case Committing(_, _) => CommitKeepsOk(w, t, transaction);
        case Committed(_, _) => GuardKeepsOk(w, t, transaction);
        case Guarded(_, _) => MapKeepsOk(w, t, transaction);
        case HalfMapped(_) => MapKeepsOk(w, t, transaction);
        case Leaving(_, _) => LeaveKeepsOk(w, t, transaction);
        case Poisoning(_) => LeaveKeepsOk(w, t, transaction);
        case _ => WaitingKeepsOk(w, t, transaction);
      }
  }

  lemma {:induction false} PlayKeepsOk(w: World, moves: seq<Move>)
    requires WorldOk(w)
    ensures WorldOk(Play(w, moves))
    decreases |moves|
  {
    hide WorldOk;
    if moves != [] {
      GoKeepsOk(w, moves[0]);
      PlayKeepsOk(Go(w, moves[0]), moves[1..]);
    }
  }

  lemma StartupOk(environment: set<Sid>, rows: map<Sid, Contents>)
    requires environment !! rows.Keys
    ensures WorldOk(Startup(environment, rows))
  {
  }

  // ----- over every interleaving

  lemma Reachable(environment: set<Sid>, rows: map<Sid, Contents>, moves: seq<Move>)
    requires environment !! rows.Keys
    ensures WorldOk(Play(Startup(environment, rows), moves))
  {
    StartupOk(environment, rows);
    PlayKeepsOk(Startup(environment, rows), moves);
  }

  lemma {:induction false} EnvironmentIsFixed(w: World, moves: seq<Move>)
    ensures Play(w, moves).environment == w.environment
    decreases |moves|
  {
    if moves != [] {
      var next := Go(w, moves[0]);
      assert next.environment == w.environment by { hide Visible, Acquired, Released, Free, Entry; }
      hide Go;
      EnvironmentIsFixed(next, moves[1..]);
    }
  }

  /**
   Except for one id whose writer is between its commit and the end of its map update, an id is in
   `_registered_ids` exactly when it has a row, every registered id has a connector, and that
   connector was built from the current row. Poisoned ids are no exception.
   */
  lemma TablesAgree(environment: set<Sid>, rows: map<Sid, Contents>, moves: seq<Move>, id: Sid)
    requires environment !! rows.Keys
    ensures var w := Play(Startup(environment, rows), moves);
            && (Busy(w, id) || Settled(w, id))
            && (forall t, u | InWindow(PcOf(w, t)) && InWindow(PcOf(w, u)) :: t == u)
  {
    Reachable(environment, rows, moves);
    var w := Play(Startup(environment, rows), moves);
    hide Play, Startup, EntryOk, PositionOk;
    forall t, u | InWindow(PcOf(w, t)) && InWindow(PcOf(w, u))
      ensures t == u
    {
      HolderIsAlone(w, t);
    }
  }

  /** Readers of all entries never see the window: they see the environment and the rows, less what is poisoned. */
  lemma ListSeesWholeTable(environment: set<Sid>, rows: map<Sid, Contents>, moves: seq<Move>, t: Tid)
    requires environment !! rows.Keys
    requires PcOf(Play(Startup(environment, rows), moves), t) == ReadingAll
    ensures var w := Play(Startup(environment, rows), moves);
            && VisibleIds(w) == (environment + w.rows.Keys) - w.poisoned
            && w.registered == w.rows.Keys
  {
    Reachable(environment, rows, moves);
    EnvironmentIsFixed(Startup(environment, rows), moves);
    var w := Play(Startup(environment, rows), moves);
    assert w.environment == environment;
    hide Play, Startup, EntryOk, PositionOk;
    forall id
      ensures (id in w.registered <==> id in w.rows) && (id in w.connectors <==> id in w.environment || id in w.rows)
    {
      OnlyHolderIsBusy(w, t, id);
      assert Settled(w, id);
    }
  }

  /** A reader of one entry sees the connector of its row or of the environment, or nothing. */
  lemma GetSeesItsRow(environment: set<Sid>, rows: map<Sid, Contents>, moves: seq<Move>, t: Tid, id: Sid)
    requires environment !! rows.Keys
    requires PcOf(Play(Startup(environment, rows), moves), t) == ReadingOne(id)
    ensures var w := Play(Startup(environment, rows), moves);
            Visible(w, id) == if id in w.poisoned then None
                              else if id in environment then Some(FromEnvironment(id))
                              else if id in w.rows then Some(FromRow(w.rows[id])) else None
  {
    Reachable(environment, rows, moves);
    EnvironmentIsFixed(Startup(environment, rows), moves);
    var w := Play(Startup(environment, rows), moves);
    hide Play, EpochOk, PositionOk;
    assert w.environment == environment;
    hide Startup;
    assert EntryOk(w, id) && (Busy(w, id) || Settled(w, id));
    assert EntryDepth(PcOf(w, t), id) == 1;
    assert forall u :: InWindow(PcOf(w, u)) && PcOf(w, u).op.id == id ==> EntryDepth(PcOf(w, u), id) > 0 && u != t;
  }

  /** At every moment an environment id keeps its own connector, is not registered and not poisoned. */
  lemma EnvironmentIsSafe(environment: set<Sid>, rows: map<Sid, Contents>, moves: seq<Move>, id: Sid)
    requires environment !! rows.Keys && id in environment
    ensures var w := Play(Startup(environment, rows), moves);
            && Visible(w, id) == Some(FromEnvironment(id)) && id !in w.registered && id !in w.rows && id !in w.poisoned
  {
    Reachable(environment, rows, moves);
    EnvironmentIsFixed(Startup(environment, rows), moves);
    var w := Play(Startup(environment, rows), moves);
    hide Play, EpochOk, EntryOk;
    assert w.environment == environment;
    hide Startup;
    forall u
      ensures !(InWindow(PcOf(w, u)) && PcOf(w, u).op.id == id)
    {
      assert PositionOk(w, PcOf(w, u));
    }
    assert Settled(w, id);
  }

  lemma CommitPoisons(w: World, t: Tid, op: Operation, current: Option<Connector>, transaction: Transaction)
    ensures var next := Commit(w, t, op, current, transaction);
            && next.poisoned == w.poisoned && t in next.threads
            && (next.threads[t].Poisoning? ==> op.Create? && transaction == RaisesValue)
  {
    hide Visible;
  }

  lemma MapPoisons(w: World, t: Tid, op: Operation, current: Option<Connector>)
    ensures var next := MapStep(w, t, op, current);
            next.poisoned == w.poisoned && t in next.threads && !next.threads[t].Poisoning?
  {
  }

  lemma StepPoisons(w: World, t: Tid, transaction: Transaction)
    requires t in w.threads
    ensures var next := Step(w, t, transaction);
            && t in next.threads
            && (next.poisoned != w.poisoned ==> w.threads[t].Poisoning? && next.poisoned == w.poisoned + {w.threads[t].op.id})
            && (next.threads[t].Poisoning? && next != w ==>
                  (w.threads[t].Leaving? && w.threads[t].poisons)
                  || (w.threads[t].Committing? && w.threads[t].op.Create? && transaction == RaisesValue))
  {
    hide Visible, Acquired, Released, Free, Entry, Commit, MapStep;
    if w.threads[t].Guarded? { MapPoisons(w, t, w.threads[t].op, w.threads[t].current); }
    if w.threads[t].Committing? { CommitPoisons(w, t, w.threads[t].op, w.threads[t].current, transaction); }
  }

  /** After a commit the map update always succeeds; only a `create` whose transaction raised ValueError poisons. */
  lemma OnlyFailedCreatesPoison(environment: set<Sid>, rows: map<Sid, Contents>, moves: seq<Move>, t: Tid, transaction: Transaction)
    requires environment !! rows.Keys && t in Play(Startup(environment, rows), moves).threads
    ensures var w := Play(Startup(environment, rows), moves);
            var pc, next := w.threads[t], Step(w, t, transaction);
            && (pc.Leaving? ==> !pc.poisons)
            && (next.poisoned != w.poisoned ==> pc.Poisoning? && pc.op.Create? && next.poisoned == w.poisoned + {pc.op.id})
            && (next != w && PcOf(next, t).Poisoning? ==> pc.Committing? && pc.op.Create? && transaction == RaisesValue)
  {
    Reachable(environment, rows, moves);
    var w := Play(Startup(environment, rows), moves);
    hide Play, Startup, EpochOk, EntryOk, Settled, Visible, Step;
    assert PositionOk(w, PcOf(w, t));
    StepPoisons(w, t, transaction);
  }

  /** Locks are taken in one order: whoever waits for the epoch holds no entry. */
  lemma EpochBeforeEntry(environment: set<Sid>, rows: map<Sid, Contents>, moves: seq<Move>, t: Tid, id: Sid)
    requires environment !! rows.Keys
    requires var pc := PcOf(Play(Startup(environment, rows), moves), t); pc.WaitEpoch? || pc.WaitAll?
    ensures var w := Play(Startup(environment, rows), moves); Entry(w, id).Some? ==> Entry(w, id).value.thread != t
  {
    Reachable(environment, rows, moves);
    hide Play, Startup;
    assert EntryOk(Play(Startup(environment, rows), moves), id);
  }

  // ----- a writer nobody interferes with

  function Takes(w: World, t: Tid, n: nat): World
    decreases n
  {
    if n == 0 then w else Takes(Go(w, Take(t, Commits)), t, n - 1)
  }

  /** `w` with both locks held by `t`, `depth` times each. */
  function Holding(w: World, op: Operation, t: Tid, depth: nat, pc: Pc): World {
    w.(epoch := Some(Hold(t, depth)), entries := w.entries[op.id := Hold(t, depth)], threads := w.threads[t := pc])
  }

  lemma OneTake(w: World, next: World, t: Tid, n: nat)
    requires n > 0 && t in w.threads && Step(w, t, Commits) == next
    ensures Takes(w, t, n) == Takes(next, t, n - 1)
  {
  }

  lemma {:induction false} IdleStays(w: World, t: Tid, n: nat)
    requires t in w.threads && w.threads[t] == Idle
    ensures Takes(w, t, n) == w
  {
    if n > 0 { IdleStays(w, t, n - 1); }
  }

  lemma EntersAlone(w: World, t: Tid, op: Operation, n: nat)
    requires w.epoch.None? && op.id !in w.entries && PcOf(w, t) == Idle && n > 1
    ensures Takes(Go(w, Begin(t, WaitEpoch(op))), t, n) == Takes(Holding(w, op, t, 1, Checking(op)), t, n - 2)
  {
    var begun := At(w, t, WaitEpoch(op));
    var waiting := At(w.(epoch := Some(Hold(t, 1))), t, WaitEntry(op));
    OneTake(begun, waiting, t, n);
    OneTake(waiting, Holding(w, op, t, 1, Checking(op)), t, n - 1);
  }

  lemma LeavesAlone(w: World, t: Tid, op: Operation, n: nat)
    requires w.epoch.None? && op.id !in w.entries && n > 1
    ensures Takes(Holding(w, op, t, 1, ReleaseEntry(op)), t, n) == At(w, t, Idle)
  {
    var held, leaving := Holding(w, op, t, 1, ReleaseEntry(op)), At(w.(epoch := Some(Hold(t, 1))), t, ReleaseEpoch(op));
    assert w.entries[op.id := Hold(t, 1)] - {op.id} == w.entries;
    assert held.threads[t := ReleaseEpoch(op)] == leaving.threads;
    OneTake(held, leaving, t, n);
    assert leaving.threads[t := Idle] == At(w, t, Idle).threads;
    OneTake(leaving, At(w, t, Idle), t, n - 1);
    IdleStays(At(w, t, Idle), t, n - 2);
  }

  // Between the entry and the exit of a writer, each step turns one held state into another.

  lemma CommittedStep(w: World, t: Tid, op: Operation, current: Option<Connector>)
    ensures Step(Holding(w, op, t, 1, Committed(op, current)), t, Commits) == Holding(w, op, t, 2, Guarded(op, current))
  {
    hide Commit, MapStep, Visible;
    var committed, guarded := Holding(w, op, t, 1, Committed(op, current)), Holding(w, op, t, 2, Guarded(op, current));
    assert committed.threads[t := Guarded(op, current)] == guarded.threads;
    assert committed.entries[op.id := Hold(t, 2)] == guarded.entries;
  }

  lemma LeavingStep(w: World, t: Tid, op: Operation)
    ensures Step(Holding(w, op, t, 2, Leaving(op, false)), t, Commits) == Holding(w, op, t, 1, ReleaseEntry(op))
  {
    hide Commit, MapStep, Visible;
    var leaving, released := Holding(w, op, t, 2, Leaving(op, false)), Holding(w, op, t, 1, ReleaseEntry(op));
    assert leaving.threads[t := ReleaseEntry(op)] == released.threads;
    assert leaving.entries[op.id := Hold(t, 1)] == released.entries;
  }

  /** The connector table after a permitted map update. */
  function Mapped(w: World, op: Operation): World {
    w.(connectors := if op.Delete? then w.connectors - {op.id} else w.connectors[op.id := FromRow(op.contents)])
  }

  /** The registered ids after it. */
  function Enlisted(w: World, op: Operation): World {
    w.(registered := if op.Create? then w.registered + {op.id} else if op.Delete? then w.registered - {op.id} else w.registered)
  }

  lemma GuardedStep(w: World, t: Tid, op: Operation, current: Option<Connector>)
    requires if op.Create? then op.id !in w.connectors
             else op.id in w.connectors && (current.Some? ==> w.connectors[op.id] == current.value)
    ensures Step(Holding(w, op, t, 2, Guarded(op, current)), t, Commits)
            == Holding(Mapped(w, op), op, t, 2, if op.Update? then Leaving(op, false) else HalfMapped(op))
  {
    hide Commit, Visible;
    var pc := if op.Update? then Leaving(op, false) else HalfMapped(op);
    assert Holding(w, op, t, 2, Guarded(op, current)).threads[t := pc] == w.threads[t := pc];
  }

  lemma HalfMappedStep(w: World, t: Tid, op: Operation)
    requires !op.Update?
    ensures Step(Holding(w, op, t, 2, HalfMapped(op)), t, Commits) == Holding(Enlisted(w, op), op, t, 2, Leaving(op, false))
  {
    hide Commit, MapStep, Visible;
    assert Holding(w, op, t, 2, HalfMapped(op)).threads[t := Leaving(op, false)] == w.threads[t := Leaving(op, false)];
  }

  /** The guarded map update, from the commit on, when it is allowed. */
  lemma MapsAlone(w: World, t: Tid, op: Operation, current: Option<Connector>, n: nat)
    requires w.epoch.None? && op.id !in w.entries && n > 5
    requires if op.Create? then op.id !in w.connectors
             else op.id in w.connectors && (current.Some? ==> w.connectors[op.id] == current.value)
    ensures Takes(Holding(w, op, t, 1, Committed(op, current)), t, n) == At(Enlisted(Mapped(w, op), op), t, Idle)
  {
    var committed, guarded := Holding(w, op, t, 1, Committed(op, current)), Holding(w, op, t, 2, Guarded(op, current));
    var mapped := Mapped(w, op);
    var next := Enlisted(mapped, op);
    var half, leaving := Holding(mapped, op, t, 2, HalfMapped(op)), Holding(next, op, t, 2, Leaving(op, false));
    var released := Holding(next, op, t, 1, ReleaseEntry(op));
    CommittedStep(w, t, op, current);
    GuardedStep(w, t, op, current);
    LeavingStep(next, t, op);
    LeavesAlone(next, t, op, if op.Update? then n - 3 else n - 4);
    if !op.Update? { HalfMappedStep(mapped, t, op); }
    hide Step, At;
    OneTake(committed, guarded, t, n);
    if op.Update? {
      OneTake(guarded, leaving, t, n - 1);
      OneTake(leaving, released, t, n - 2);
    } else {
      OneTake(guarded, half, t, n - 1);
      OneTake(half, leaving, t, n - 2);
      OneTake(leaving, released, t, n - 3);
    }
  }

  /** Nothing to do, or not allowed: refused at the check, or inside the transaction. */
  predicate Refused(w: World, op: Operation) {
    match op
    case Create(id, _) => id in w.environment || id in w.rows
    case Update(id, _) => id !in w.rows || id in w.poisoned
    case Delete(id) => id !in w.rows
  }

  /** The tables after one committed operation: row, connector and registration together, or nothing. */
  function Written(w: World, op: Operation): World {
    if Refused(w, op) then w
    else
      match op
      case Create(id, contents) =>
        w.(rows := w.rows[id := contents], connectors := w.connectors[id := FromRow(contents)], registered := w.registered + {id})
      case Update(id, contents) => w.(rows := w.rows[id := contents], connectors := w.connectors[id := FromRow(contents)])
      case Delete(id) => w.(rows := w.rows - {id}, connectors := w.connectors - {id}, registered := w.registered - {id})
  }

  lemma CheckingStep(w: World, t: Tid, op: Operation)
    ensures Step(Holding(w, op, t, 1, Checking(op)), t, Commits)
            == Holding(w, op, t, 1, if (op.Create? && Visible(w, op.id).Some?) || (op.Update? && Visible(w, op.id).None?)
                                    then ReleaseEntry(op) else Committing(op, Visible(w, op.id)))
  {
    hide Commit, MapStep;
    var pc := if (op.Create? && Visible(w, op.id).Some?) || (op.Update? && Visible(w, op.id).None?)
              then ReleaseEntry(op) else Committing(op, Visible(w, op.id));
    assert Holding(w, op, t, 1, Checking(op)).threads[t := pc] == w.threads[t := pc];
  }

  /** The rows after a committed transaction. */
  function StoredRows(w: World, op: Operation): World {
    w.(rows := if op.Delete? then w.rows - {op.id} else w.rows[op.id := op.contents])
  }

  lemma CommittingStep(w: World, t: Tid, op: Operation, current: Option<Connector>)
    requires current == Visible(w, op.id) && Settled(w, op.id) && (op.Create? ==> current.None?) && (op.Update? ==> current.Some?)
    ensures Step(Holding(w, op, t, 1, Committing(op, current)), t, Commits)
            == if Refused(w, op) then Holding(w, op, t, 1, ReleaseEntry(op))
               else Holding(StoredRows(w, op), op, t, 1, Committed(op, current))
  {
    hide MapStep;
    var pc := if Refused(w, op) then ReleaseEntry(op) else Committed(op, current);
    assert Holding(w, op, t, 1, Committing(op, current)).threads[t := pc] == w.threads[t := pc];
  }

  lemma StoresAndMaps(w: World, op: Operation)
    requires !Refused(w, op)
    ensures Enlisted(Mapped(StoredRows(w, op), op), op) == Written(w, op)
  {
  }

  /** From the transaction on. */
  lemma CommitsAlone(w: World, t: Tid, op: Operation, current: Option<Connector>, n: nat)
    requires w.epoch.None? && op.id !in w.entries && Settled(w, op.id) && n > 6
    requires current == Visible(w, op.id) && (op.Create? ==> current.None?) && (op.Update? ==> current.Some?)
    ensures Takes(Holding(w, op, t, 1, Committing(op, current)), t, n) == At(Written(w, op), t, Idle)
  {
    var stored := StoredRows(w, op);
    CommittingStep(w, t, op, current);
    if Refused(w, op) {
      LeavesAlone(w, t, op, n - 1);
      hide *;
      OneTake(Holding(w, op, t, 1, Committing(op, current)), Holding(w, op, t, 1, ReleaseEntry(op)), t, n);
    } else {
      MapsAlone(stored, t, op, current, n - 1);
      StoresAndMaps(w, op);
      hide *;
      OneTake(Holding(w, op, t, 1, Committing(op, current)), Holding(stored, op, t, 1, Committed(op, current)), t, n);
    }
  }

  /** With the locks free, a writer left alone performs its operation, returns both locks and is idle again. */
  lemma WriterAlone(w: World, t: Tid, op: Operation, n: nat)
    requires n >= 10 && w.epoch.None? && op.id !in w.entries && PcOf(w, t) == Idle && Settled(w, op.id)
    ensures Takes(Go(w, Begin(t, WaitEpoch(op))), t, n) == At(Written(w, op), t, Idle)
  {
    EntersAlone(w, t, op, n);
    var current := Visible(w, op.id);
    CheckingStep(w, t, op);
    if (op.Create? && current.Some?) || (op.Update? && current.None?) {
      LeavesAlone(w, t, op, n - 3);
      hide Step, At, Takes, Holding, Go;
      OneTake(Holding(w, op, t, 1, Checking(op)), Holding(w, op, t, 1, ReleaseEntry(op)), t, n - 2);
    } else {
      CommitsAlone(w, t, op, current, n - 3);
      hide *;
      OneTake(Holding(w, op, t, 1, Checking(op)), Holding(w, op, t, 1, Committing(op, current)), t, n - 2);
    }
  }

  predicate CanStep(w: World, t: Tid) { t in w.threads && Step(w, t, Commits) != w }

  /** A thread that is neither idle nor waiting for a lock can go on. */
  lemma UnblockedSteps(w: World, t: Tid)
    requires t in w.threads && !w.threads[t].Idle?
    requires match w.threads[t]
             case WaitEpoch(_) => Free(w.epoch, t)
             case WaitAll => Free(w.epoch, t)
             case WaitEntry(op) => Free(Entry(w, op.id), t)
             case WaitOne(id) => Free(Entry(w, id), t)
             case Committed(op, _) => Free(w.epoch, t) && Free(Entry(w, op.id), t)
             case Poisoning(op) => Free(Entry(w, op.id), t)
             case _ => true
    ensures CanStep(w, t)
  {
    hide Visible, Acquired, Released, Free, Entry;
    assert Step(w, t, Commits).threads[t] != w.threads[t];
  }

  /** The holder of an entry alone, a reader, can always go on. */
  lemma EntryIsPassedOn(w: World, id: Sid)
    requires WorldOk(w) && Entry(w, id).Some? && EpochDepth(PcOf(w, Entry(w, id).value.thread)) == 0
    ensures CanStep(w, Entry(w, id).value.thread)
  {
    assert EntryOk(w, id);
    var t := Entry(w, id).value.thread;
    assert PcOf(w, t) == ReadingOne(id);
    UnblockedSteps(w, t);
  }

  /** No deadlock: whenever some thread is not idle, some thread can take a step. */
  lemma SomeoneCanStep(environment: set<Sid>, rows: map<Sid, Contents>, moves: seq<Move>, t: Tid)
    requires environment !! rows.Keys && PcOf(Play(Startup(environment, rows), moves), t) != Idle
    ensures exists u :: CanStep(Play(Startup(environment, rows), moves), u)
  {
    Reachable(environment, rows, moves);
    var w := Play(Startup(environment, rows), moves);
    hide Play, Startup, PositionOk, Settled, CanStep, Visible;
    if w.epoch.Some? {
      HolderCanStep(w, w.epoch.value.thread);
    } else {
      assert EpochDepth(PcOf(w, t)) == 0;
      var pc := PcOf(w, t);
      var id := if pc.WaitOne? then pc.id else if pc.ReadingOne? then pc.id else 0;
      assert EntryOk(w, id);
      if pc.WaitOne? && !Free(Entry(w, id), t) {
        EntryIsPassedOn(w, id);
      } else {
        UnblockedSteps(w, t);
      }
    }
  }

  lemma HolderCanStep(w: World, t: Tid)
    requires WorldOk(w) && w.epoch.Some? && w.epoch.value.thread == t
    ensures exists u :: CanStep(w, u)
  {
    hide PositionOk, Settled, CanStep, Visible;
    var pc := PcOf(w, t);
    assert EpochDepth(pc) > 0;
    HolderIsAlone(w, t);
    if pc == ReadingAll || pc.ReleaseEpoch? {
      UnblockedSteps(w, t);
    } else {
      var id := pc.op.id;
      assert EntryOk(w, id);
      if pc.WaitEntry? && !Free(Entry(w, id), t) {
        EntryIsPassedOn(w, id);
      } else {
        if EntryDepth(pc, id) > 0 { EntryHolder(w, t, id); }
        UnblockedSteps(w, t);
      }
    }
  }
}
