/** What every reachable state of FakeBank satisfies. */
module FakeBankInvariant {
  import opened Options
  import opened ProviderTransaction
  import opened FakeBank

  // ---------------------------------------------------------------- rows and their events

  function EventsOf(events: seq<Event>, id: RowId): seq<Event> {
    if events == [] then []
    else
      var last := events[|events| - 1];
      EventsOf(events[..|events| - 1], id) + if last.transaction == id then [last] else []
  }

  lemma {:induction false} EventsOfAppend(events: seq<Event>, more: seq<Event>, id: RowId)
    ensures (forall e :: e in more ==> e.transaction == id) ==>
              EventsOf(events + more, id) == EventsOf(events, id) + more
    ensures (forall e :: e in more ==> e.transaction != id) ==> EventsOf(events + more, id) == EventsOf(events, id)
  {
    if more == [] {
      assert events + more == events;
    } else {
      var before, last := more[..|more| - 1], more[|more| - 1];
      EventsOfAppend(events, before, id);
      assert (events + more)[..|events + more| - 1] == events + before;
      assert more == before + [last];
    }
  }

  lemma {:induction false} EventsOfNobody(events: seq<Event>, id: RowId)
    requires forall e :: e in events ==> e.transaction != id
    ensures EventsOf(events, id) == []
  {
    if events != [] { EventsOfNobody(events[..|events| - 1], id); }
  }

  /** The row and its event log tell the same story. */
  ghost predicate RowOk(db: Db, id: RowId)
    requires id in db.rows
  {
    var row := db.rows[id];
    && row.core.id == id && WellFormed(row.core)
    && row.updatedAt == LastChangedAt(row.core) && OutcomeShown(row)
    && EventsOf(db.events, id) == LogOf(row.core)
  }

  /** What the Outcome applied to a new row means for its status; only a deferred one is decided
      later. */
  predicate OutcomeShown(row: Row) {
    match row.appliedOutcome
    case None => row.core.status == Succeeded
    case Some(Succeed) => row.core.status == Succeeded
    case Some(ErrorAfterCommit) => row.core.status == Succeeded
    case Some(Fail) => row.core.status == Failed
    case Some(Deferred) => true
    case Some(_) => false
  }

  ghost predicate RowsOk(db: Db) {
    && (forall id :: id in db.rows ==> RowOk(db, id))
    && (forall e :: e in db.events ==> e.transaction in db.rows)
  }

  ghost predicate KeysOk(db: Db) {
    forall a, b :: a in db.rows && b in db.rows && a != b ==>
      db.rows[a].client != db.rows[b].client || db.rows[a].key != db.rows[b].key
  }

  // ---------------------------------------------------------------- scenario attempts

  function UseCount(uses: seq<Use>, generation: nat): nat {
    if uses == [] then 0
    else UseCount(uses[..|uses| - 1], generation) + if uses[|uses| - 1].generation == generation then 1 else 0
  }

  lemma UseCountAdd(uses: seq<Use>, u: Use, generation: nat)
    ensures UseCount(uses + [u], generation) == UseCount(uses, generation) + if u.generation == generation then 1 else 0
  {
    assert (uses + [u])[..|uses|] == uses;
  }

  lemma {:induction false} UseCountNone(uses: seq<Use>, generation: nat)
    requires forall u :: u in uses ==> u.generation != generation
    ensures UseCount(uses, generation) == 0
  {
    if uses != [] { UseCountNone(uses[..|uses| - 1], generation); }
  }

  /** Attempts left plus attempts used is what was registered. */
  ghost predicate ScenarioOk(cfg: Config, db: Db, k: ScenarioKey)
    requires k in db.scenarios
  {
    var scenario := db.scenarios[k];
    && scenario.generation < |db.registrations|
    && db.registrations[scenario.generation] ==
         Registration(k, scenario.outcome, scenario.failureCode,
                      scenario.remaining + UseCount(db.uses, scenario.generation))
    && (scenario.outcome == Fail <==> scenario.failureCode.Some?)
    && (scenario.failureCode.Some? ==>
          scenario.failureCode.value != "" && Trim(scenario.failureCode.value, cfg.space) == scenario.failureCode.value)
  }

  ghost predicate ScenariosOk(cfg: Config, db: Db) {
    && (forall k :: k in db.scenarios ==> ScenarioOk(cfg, db, k))
    && (forall g :: 0 <= g < |db.registrations| ==> UseCount(db.uses, g) <= db.registrations[g].times)
    && (forall u :: u in db.uses ==> u.generation < |db.registrations|)
  }

  /** The answer a pre-persistence attempt leads to, unless the process dies first. */
  predicate TurnedAway(pc: Pc, o: Outcome) {
    pc == Rejecting(o) || pc == Answered(TransportError(o)) || pc == Dead
  }

  /** A consumed attempt is a transport error of its process, or the Outcome of the row its
      process stored. */
  ghost predicate UseOk(s: State, u: Use) {
    && u.generation < |s.db.registrations|
    && (var r := s.db.registrations[u.generation];
        if u.stored then StoredUse(s.db, u.process, r)
        else
          && u.process !in s.db.rows && PrePersistence(r.outcome) && u.process in s.processes
          && RejectedUse(s.processes[u.process], r))
  }

  ghost predicate StoredUse(db: Db, id: RowId, r: Registration) {
    && id in db.rows && db.rows[id].appliedOutcome == Some(r.outcome) && !PrePersistence(r.outcome)
    && ScenarioKey(db.rows[id].client, db.rows[id].reference) == r.key
    && (r.outcome == Fail ==> db.rows[id].core.status == Failed && db.rows[id].core.failureCode == r.failureCode)
  }

  ghost predicate RejectedUse(p: Process, r: Registration) {
    p.task.Create? && KeyOf(p.task.command) == r.key && TurnedAway(p.pc, r.outcome)
  }

  ghost predicate UsedBy(uses: seq<Use>, i: ProcessId, stored: bool) {
    exists g: nat :: Use(g, i, stored) in uses
  }

  ghost predicate UsesOk(s: State) {
    && (forall m, n :: 0 <= m < n < |s.db.uses| ==> s.db.uses[m].process != s.db.uses[n].process)
    && (forall u :: u in s.db.uses ==> UseOk(s, u))
    && (forall id :: id in s.db.rows && s.db.rows[id].appliedOutcome.Some? ==> UsedBy(s.db.uses, id, true))
  }

  // ---------------------------------------------------------------- growth

  /** A row changes once at most, by its decision, which keeps everything else. */
  predicate Evolved(before: Row, after: Row) {
    || after == before
    || (&& before.core.status == Processing && after.core.status != Processing
        && after == before.(core := after.core, updatedAt := after.updatedAt)
        && after.core.id == before.core.id && after.core.createdAt == before.core.createdAt)
  }

  /** None is deleted, and no decision is ever overwritten. */
  ghost predicate Grows(db: Db, later: Db) {
    && (forall id :: id in db.rows ==> id in later.rows && Evolved(db.rows[id], later.rows[id]))
    && db.events <= later.events && db.uses <= later.uses && db.registrations <= later.registrations
    && db.deciders <= later.deciders
  }

  // ---------------------------------------------------------------- processes

  predicate InTransaction(pc: Pc) { pc.Inserting? || pc.Logging? || pc.Committing? }

  function PendingEvents(pc: Pc): seq<Event> { if pc.Logging? then pc.pending else [] }

  ghost predicate TakenOk(db: Db, p: Process) {
    match p.buffer.taken
    case None => p.decision == IMMEDIATE_SUCCESS
    case Some(t) =>
      && p.task.Create? && t.key == KeyOf(p.task.command)
      && t.key in db.scenarios && db.scenarios[t.key].generation == t.generation && db.scenarios[t.key].remaining > 0
      && p.decision == DecideFor(db.scenarios[t.key]) && !PrePersistence(db.scenarios[t.key].outcome)
  }

  /** The buffered row of a creation, and the events that go with it. */
  ghost predicate NewRowOk(cfg: Config, db: Db, i: ProcessId, p: Process)
    requires p.buffer.row.Some? && p.task.Create?
  {
    var c, row := p.task.command, p.buffer.row.value;
    && row == NewRow(cfg, c, row.core, p.decision) && row.core.id == i && WellFormed(row.core) && OutcomeShown(row)
    && (row.appliedOutcome == Some(Deferred) ==> row.core.status == Processing)
    && (p.decision.appliedOutcome == Some(Fail) && p.decision.transition.Some?
        && p.decision.transition.value.ToFailed? ==>
          row.core.failureCode == Some(Trim(p.decision.transition.value.failureCode, cfg.space)))
    && p.buffer.events + PendingEvents(p.pc) == LogOf(row.core)
    && !KeyTaken(db, c.client, c.key)
  }

  /** The buffered row of a decision: the committed PROCESSING row, decided. */
  ghost predicate DecidedRowOk(db: Db, p: Process)
    requires p.buffer.row.Some? && p.task.Advance?
  {
    var id, row := p.task.id, p.buffer.row.value;
    && Updatable(db, id, p.task.client) && Evolved(db.rows[id], row)
    && row.core.id == id && row.core.status != Processing && row.appliedOutcome == Some(Deferred)
    && WellFormed(row.core) && row.updatedAt == LastChangedAt(row.core)
    && p.buffer.events + PendingEvents(p.pc) == [EventFor(row.core, LastChangedAt(row.core))]
  }

  ghost predicate ChangeOk(change: Change, id: RowId) {
    && change.core.id == id && WellFormed(change.core) && change.core.status != Processing
    && change.event == EventFor(change.core, LastChangedAt(change.core))
  }

  ghost predicate BufferOk(cfg: Config, db: Db, i: ProcessId, p: Process) {
    && (!InTransaction(p.pc) ==> p.buffer == EMPTY)
    && (p.pc.Inserting? ==> p.buffer.row.None? && p.buffer.events == [] && TakenOk(db, p))
    && (p.pc.Logging? || p.pc.Committing? ==>
          && p.buffer.row.Some?
          && (p.task.Create? ==> TakenOk(db, p) && NewRowOk(cfg, db, i, p))
          && (p.task.Advance? ==> p.buffer.taken.None? && DecidedRowOk(db, p)))
  }

  ghost predicate PcOk(cfg: Config, db: Db, i: ProcessId, p: Process) {
    && (p.pc.PrePersisting? || p.pc.Rejecting? || p.pc.Consuming? || p.pc.Inserting? ==> p.task.Create?)
    && (p.pc.Replaying? ==> p.task.Create?)
    && (p.pc.Reading? || p.pc.Updating? ==> p.task.Advance?)
    && (p.pc.Updating? ==>
          ChangeOk(p.pc.change, p.task.id) && Owned(db, p.task) && db.rows[p.task.id].appliedOutcome == Some(Deferred))
    && (i in db.rows ==>
        p.task.Create? && (p.pc.Responding? || p.pc.Answered? || p.pc.Dead?) && RowFor(cfg, p.task.command, db.rows[i]))
    && (p.pc.Responding? ==> ReplyOk(cfg, db, i, p.task, StoredReply(p, p.pc.row)))
    && (p.pc.Replaying? ==> KeyTaken(db, p.task.command.client, p.task.command.key))
    && (p.pc.Rejecting? ==> UsedBy(db.uses, i, false))
    && (p.pc.Answered? ==> ReplyOk(cfg, db, i, p.task, p.pc.reply))
  }

  /** The row holds the request it was created for. */
  predicate RowFor(cfg: Config, c: Command, row: Row) {
    && row.client == c.client && row.reference == c.reference && row.key == c.key && row.amount == c.amount
    && row.fingerprint == cfg.fingerprint(c.reference, c.amount, c.currency)
  }

  ghost predicate Owned(db: Db, task: Task)
    requires task.Advance?
  {
    task.id in db.rows && db.rows[task.id].client == task.client
  }

  /** What an answer promises, from the moment it is given. */
  ghost predicate ReplyOk(cfg: Config, db: Db, i: ProcessId, task: Task, reply: Reply) {
    match reply
    case Created(row) =>
      task.Create? && i in db.rows && Evolved(row, db.rows[i]) && RowFor(cfg, task.command, db.rows[i])
    case ProviderError =>
      task.Create? && i in db.rows && db.rows[i].appliedOutcome == Some(ErrorAfterCommit)
      && RowFor(cfg, task.command, db.rows[i])
    case Replayed(row) =>
      && task.Create? && i !in db.rows && row.core.id in db.rows && Evolved(row, db.rows[row.core.id])
      && SameKeyStored(cfg, db, task.command, row.core.id, true)
    case KeyReused => task.Create? && i !in db.rows && exists id :: SameKeyStored(cfg, db, task.command, id, false)
    case TransportError(_) => i !in db.rows && UsedBy(db.uses, i, false)
    case Advanced(row) =>
      && task.Advance? && i !in db.rows && task.id in db.rows && db.rows[task.id] == row
      && row.core.status != Processing && row.appliedOutcome == Some(Deferred)
    case DecidedConcurrently =>
      && task.Advance? && i !in db.rows && Owned(db, task)
      && db.rows[task.id].core.status != Processing && db.rows[task.id].appliedOutcome == Some(Deferred)
    case Failure => false
    case _ => i !in db.rows
  }

  /** Row `id` holds the key of the command, with the same request or with another one. */
  ghost predicate SameKeyStored(cfg: Config, db: Db, c: Command, id: RowId, same: bool) {
    && id in db.rows && db.rows[id].client == c.client && db.rows[id].key == c.key
    && (same <==> db.rows[id].fingerprint == cfg.fingerprint(c.reference, c.amount, c.currency))
  }

  ghost predicate ProcessOk(cfg: Config, db: Db, i: ProcessId, p: Process) {
    BufferOk(cfg, db, i, p) && PcOk(cfg, db, i, p)
  }

  ghost predicate ProcessesOk(cfg: Config, s: State) {
    && (forall i :: i in s.processes ==> ProcessOk(cfg, s.db, i, s.processes[i]))
    && (forall id :: id in s.db.rows ==> id in s.processes)
  }

  // ---------------------------------------------------------------- exclusion

  /** No scenario, row or new key is held by two open transactions. */
  predicate Apart(p: Process, q: Process) {
    && (p.buffer.taken.Some? && q.buffer.taken.Some? ==> p.buffer.taken.value.key != q.buffer.taken.value.key)
    && (p.buffer.row.Some? && q.buffer.row.Some? && p.task.Advance? && q.task.Advance? ==> p.task.id != q.task.id)
    && (p.buffer.row.Some? && q.buffer.row.Some? && p.task.Create? && q.task.Create? ==>
          p.task.command.client != q.task.command.client || p.task.command.key != q.task.command.key)
  }

  ghost predicate ExclusionOk(s: State) {
    forall i, j :: i in s.processes && j in s.processes && i != j ==> Apart(s.processes[i], s.processes[j])
  }

  ghost predicate Inv(cfg: Config, s: State) {
    && RowsOk(s.db) && KeysOk(s.db) && ScenariosOk(cfg, s.db)
    && UsesOk(s) && ProcessesOk(cfg, s) && ExclusionOk(s)
  }
}
