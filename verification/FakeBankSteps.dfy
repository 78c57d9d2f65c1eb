/** Every statement of FakeBank keeps the invariant. */
module FakeBankSteps {
  import opened Options
  import opened ProviderTransaction
  import opened FakeBank
  import opened FakeBankInvariant

  // ---------------------------------------------------------------- what a database change leaves alone

  ghost predicate HeldUntouched(db: Db, later: Db, q: Process) {
    && (q.buffer.taken.Some? ==>
          var k := q.buffer.taken.value.key;
          k in db.scenarios ==> k in later.scenarios && later.scenarios[k] == db.scenarios[k])
    && (q.buffer.row.Some? && q.task.Create? ==>
          KeyTaken(later, q.task.command.client, q.task.command.key) ==>
              KeyTaken(db, q.task.command.client, q.task.command.key))
    && (q.buffer.row.Some? && q.task.Advance? && q.task.id in db.rows && q.task.id in later.rows ==>
          later.rows[q.task.id] == db.rows[q.task.id])
  }

  lemma BufferStays(cfg: Config, db: Db, later: Db, j: ProcessId, q: Process)
    requires BufferOk(cfg, db, j, q) && HeldUntouched(db, later, q) && Grows(db, later)
    ensures BufferOk(cfg, later, j, q)
  {
    if q.pc.Logging? || q.pc.Committing? {
      if q.task.Create? { assert NewRowOk(cfg, later, j, q); } else { assert DecidedRowOk(later, q); }
    }
  }

  lemma KeyStaysTaken(db: Db, later: Db, client: nat, key: string)
    requires KeyTaken(db, client, key) && Grows(db, later)
    ensures KeyTaken(later, client, key)
  {
    var id :| id in db.rows && db.rows[id].client == client && db.rows[id].key == key;
    assert id in later.rows && Evolved(db.rows[id], later.rows[id]);
  }

  lemma AnswerStays(cfg: Config, db: Db, later: Db, j: ProcessId, task: Task, reply: Reply)
    requires ReplyOk(cfg, db, j, task, reply) && Grows(db, later) && (j in later.rows ==> j in db.rows)
    ensures ReplyOk(cfg, later, j, task, reply)
  {
    match reply
    case KeyReused =>
      var id :| SameKeyStored(cfg, db, task.command, id, false);
      assert SameKeyStored(cfg, later, task.command, id, false);
    case TransportError(_) =>
      var g: nat :| Use(g, j, false) in db.uses;
      assert Use(g, j, false) in later.uses;
    case _ =>
  }

  lemma PcStays(cfg: Config, db: Db, later: Db, j: ProcessId, q: Process)
    requires PcOk(cfg, db, j, q) && Grows(db, later) && (j in later.rows ==> j in db.rows)
    ensures PcOk(cfg, later, j, q)
  {
    if q.pc.Answered? { AnswerStays(cfg, db, later, j, q.task, q.pc.reply); }
    if q.pc.Responding? { AnswerStays(cfg, db, later, j, q.task, StoredReply(q, q.pc.row)); }
    if q.pc.Replaying? { KeyStaysTaken(db, later, q.task.command.client, q.task.command.key); }
    if q.pc.Rejecting? {
      var g: nat :| Use(g, j, false) in db.uses;
      assert Use(g, j, false) in later.uses;
    }
  }

  /** The step of one process keeps the facts of all others. */
  lemma OthersStay(cfg: Config, s: State, later: Db, i: ProcessId)
    requires ProcessesOk(cfg, s) && Grows(s.db, later)
    requires forall id :: id in later.rows ==> id in s.db.rows || id == i
    requires forall j :: j in s.processes && j != i ==> HeldUntouched(s.db, later, s.processes[j])
    ensures forall j :: j in s.processes && j != i ==> ProcessOk(cfg, later, j, s.processes[j])
  {
    forall j | j in s.processes && j != i ensures ProcessOk(cfg, later, j, s.processes[j]) {
      BufferStays(cfg, s.db, later, j, s.processes[j]);
      PcStays(cfg, s.db, later, j, s.processes[j]);
    }
  }

  // ---------------------------------------------------------------- steps of one process alone

  predicate KeepsTurn(p: Process, after: Process) {
    && after.task == p.task
    && (p.pc.Rejecting? ==> TurnedAway(after.pc, p.pc.outcome))
    && !p.pc.Answered? && !p.pc.Dead?
  }

  lemma UsesStay(s: State, i: ProcessId, after: Process)
    requires UsesOk(s) && i in s.processes && KeepsTurn(s.processes[i], after)
    ensures UsesOk(Put(s, i, after))
  {
    var t := Put(s, i, after);
    forall u | u in t.db.uses ensures UseOk(t, u) { assert UseOk(s, u); }
  }

  lemma LocalStep(cfg: Config, s: State, i: ProcessId, after: Process)
    requires Inv(cfg, s) && i in s.processes && KeepsTurn(s.processes[i], after)
    requires ProcessOk(cfg, s.db, i, after)
    requires forall j :: j in s.processes && j != i ==> Apart(after, s.processes[j])
    ensures Inv(cfg, Put(s, i, after))
  {
    hide ProcessOk, RowsOk, KeysOk, ScenariosOk, UsesOk;
    UsesStay(s, i, after);
  }

  /** Giving up everything held is always safe. */
  lemma LettingGo(s: State, i: ProcessId, after: Process)
    requires after.buffer == EMPTY
    ensures forall j :: j in s.processes && j != i ==> Apart(after, s.processes[j])
  {
  }

  lemma HoldingOn(s: State, i: ProcessId, after: Process)
    requires ExclusionOk(s) && i in s.processes
    requires after.task == s.processes[i].task && after.buffer.taken == s.processes[i].buffer.taken
    requires after.buffer.row.Some? == s.processes[i].buffer.row.Some?
    ensures forall j :: j in s.processes && j != i ==> Apart(after, s.processes[j])
  {
    forall j | j in s.processes && j != i
      ensures Apart(after, s.processes[j])
    {
      assert Apart(s.processes[i], s.processes[j]);
    }
  }

  // ---------------------------------------------------------------- creation

  lemma CheckKeeps(cfg: Config, s: State, i: ProcessId)
    requires Inv(cfg, s) && i in s.processes && s.processes[i].pc.Checking?
    ensures Inv(cfg, Execute(cfg, s, i, s.processes[i], 0, 0))
  {
    hide RowsOk, KeysOk, ScenariosOk, UsesOk, BufferOk;
    var p := s.processes[i];
    assert BufferOk(cfg, s.db, i, p);
    var after := Execute(cfg, s, i, p, 0, 0).processes[i];
    CheckOk(cfg, s.db, i, p);
    LettingGo(s, i, after);
    EmptyBufferOk(cfg, s.db, i, after);
    LocalStep(cfg, s, i, after);
  }

  lemma CheckOk(cfg: Config, db: Db, i: ProcessId, p: Process)
    requires ProcessOk(cfg, db, i, p) && p.pc.Checking?
    ensures p.buffer == EMPTY && i !in db.rows
  {
  }

  lemma RejectKeeps(cfg: Config, s: State, i: ProcessId)
    requires Inv(cfg, s) && i in s.processes && s.processes[i].pc.Rejecting?
    ensures Inv(cfg, Execute(cfg, s, i, s.processes[i], 0, 0))
  {
    var p := s.processes[i];
    var after := Answer(p, TransportError(p.pc.outcome));
    LettingGo(s, i, after);
    LocalStep(cfg, s, i, after);
  }

  lemma ConsumeInsideOk(cfg: Config, s: State, i: ProcessId)
    requires i in s.processes && s.processes[i].pc.Consuming? && ProcessOk(cfg, s.db, i, s.processes[i])
    ensures s.processes[i].task.Create? && s.processes[i].buffer == EMPTY
    ensures var after := ConsumeInside(cfg, s, i, s.processes[i]);
            && after == Put(s, i, after.processes[i]) && ProcessOk(cfg, s.db, i, after.processes[i])
            && KeepsTurn(s.processes[i], after.processes[i]) && after.processes[i].buffer.row.None?
            && (after.processes[i].buffer.taken.Some? ==>
                  after.processes[i].buffer.taken.value.key == KeyOf(s.processes[i].task.command)
                  && cfg.lab && Consumable(s.db, KeyOf(s.processes[i].task.command), false))
  {
  }

  /** Taking the scenario row: nobody else holds it. */
  lemma ConsumeInsideKeeps(cfg: Config, s: State, i: ProcessId)
    requires Inv(cfg, s) && i in s.processes && s.processes[i].pc.Consuming? && !Waits(cfg, s, i, s.processes[i])
    ensures s.processes[i].task.Create? && Inv(cfg, ConsumeInside(cfg, s, i, s.processes[i]))
  {
    hide ProcessOk, RowsOk, KeysOk, ScenariosOk, UsesOk, ConsumeInside;
    ConsumeInsideOk(cfg, s, i);
    var p := s.processes[i];
    var after := ConsumeInside(cfg, s, i, p).processes[i];
    forall j | j in s.processes && j != i ensures Apart(after, s.processes[j]) {
      assert HoldsScenario(s.processes[j], KeyOf(p.task.command)) ==> ScenarioBusy(s, i, KeyOf(p.task.command));
    }
    LocalStep(cfg, s, i, after);
  }

  /** A scenario's own Failure Code is accepted: the decided transition is never refused. */
  lemma DecisionAccepted(cfg: Config, db: Db, p: Process, id: RowId, now: Instant, later: Instant)
    requires ScenariosOk(cfg, db) && TakenOk(db, p) && p.decision.transition.Some?
    ensures Decide(CreateTransaction(id, now).core, p.decision.transition.value, later, cfg.space).Ok?
  {
    if p.buffer.taken.Some? { assert ScenarioOk(cfg, db, p.buffer.taken.value.key); }
  }

  lemma InsertRowOk(cfg: Config, s: State, i: ProcessId, now: Instant, later: Instant)
    requires ScenariosOk(cfg, s.db) && i in s.processes && s.processes[i].pc.Inserting?
    requires ProcessOk(cfg, s.db, i, s.processes[i])
    ensures s.processes[i].task.Create?
    ensures var after := InsertRow(cfg, s, i, s.processes[i], now, later);
            after == Put(s, i, after.processes[i]) && ProcessOk(cfg, s.db, i, after.processes[i])
            && KeepsTurn(s.processes[i], after.processes[i])
            && after.processes[i].buffer.taken in {s.processes[i].buffer.taken, None}
  {
    var p := s.processes[i];
    if p.decision.transition.Some? { DecisionAccepted(cfg, s.db, p, i, now, later); }
    if !KeyTaken(s.db, p.task.command.client, p.task.command.key) { InsertedOk(cfg, s, i, now, later); }
    hide ScenariosOk, NewRowOk, RowFor, Evolved, ReplyOk, UsedBy, DecideFor, KeyOf, Decide, CreateTransaction;
  }

  /** The row about to be logged is the one the drawn Outcome asks for. */
  lemma InsertedOk(cfg: Config, s: State, i: ProcessId, now: Instant, later: Instant)
    requires ScenariosOk(cfg, s.db) && i in s.processes && s.processes[i].task.Create?
    requires TakenOk(s.db, s.processes[i]) && s.processes[i].buffer.events == []
    requires !KeyTaken(s.db, s.processes[i].task.command.client, s.processes[i].task.command.key)
    ensures var after := InsertRow(cfg, s, i, s.processes[i], now, later).processes[i];
            && after.task == s.processes[i].task && after.buffer.row.Some? && after.pc.Logging?
            && NewRowOk(cfg, s.db, i, after) && TakenOk(s.db, after)
  {
    if s.processes[i].decision.transition.Some? { DecisionAccepted(cfg, s.db, s.processes[i], i, now, later); }
    hide ScenariosOk, KeyTaken;
  }

  lemma InsertRowKeeps(cfg: Config, s: State, i: ProcessId, now: Instant, later: Instant)
    requires Inv(cfg, s) && i in s.processes && s.processes[i].pc.Inserting? && !Waits(cfg, s, i, s.processes[i])
    ensures s.processes[i].task.Create? && Inv(cfg, InsertRow(cfg, s, i, s.processes[i], now, later))
  {
    hide ProcessOk, RowsOk, KeysOk, ScenariosOk, UsesOk, InsertRow;
    InsertRowOk(cfg, s, i, now, later);
    var p := s.processes[i];
    var c := p.task.command;
    var after := InsertRow(cfg, s, i, p, now, later).processes[i];
    forall j | j in s.processes && j != i ensures Apart(after, s.processes[j]) {
      assert Apart(p, s.processes[j]);
      assert HoldsKey(s.processes[j], c.client, c.key) ==> KeyBusy(s, i, c.client, c.key);
    }
    LocalStep(cfg, s, i, after);
  }

  lemma LogOneOk(cfg: Config, s: State, i: ProcessId)
    requires i in s.processes && s.processes[i].pc.Logging? && ProcessOk(cfg, s.db, i, s.processes[i])
    ensures var p, after := s.processes[i], LogOne(s, i, s.processes[i]).processes[i];
            ProcessOk(cfg, s.db, i, after) && KeepsTurn(p, after)
            && after.buffer.taken == p.buffer.taken && after.buffer.row == p.buffer.row
  {
    var p := s.processes[i];
    var after := LogOne(s, i, p).processes[i];
    assert after.buffer.events + PendingEvents(after.pc) == p.buffer.events + PendingEvents(p.pc);
    if p.task.Create? { assert NewRowOk(cfg, s.db, i, p); } else { assert DecidedRowOk(s.db, p); }
  }

  lemma LogOneKeeps(cfg: Config, s: State, i: ProcessId)
    requires Inv(cfg, s) && i in s.processes && s.processes[i].pc.Logging?
    ensures Inv(cfg, LogOne(s, i, s.processes[i]))
  {
    hide ProcessOk, RowsOk, KeysOk, ScenariosOk, UsesOk;
    LogOneOk(cfg, s, i);
    var after := LogOne(s, i, s.processes[i]).processes[i];
    HoldingOn(s, i, after);
    LocalStep(cfg, s, i, after);
  }

  lemma RespondKeeps(cfg: Config, s: State, i: ProcessId)
    requires Inv(cfg, s) && i in s.processes && s.processes[i].pc.Responding?
    ensures Inv(cfg, Respond(s, i, s.processes[i]))
  {
    hide RowsOk, KeysOk, ScenariosOk, UsesOk, BufferOk;
    var p := s.processes[i];
    var after := Respond(s, i, p).processes[i];
    assert PcOk(cfg, s.db, i, after);
    LettingGo(s, i, after);
    EmptyBufferOk(cfg, s.db, i, after);
    LocalStep(cfg, s, i, after);
  }

  lemma EmptyBufferOk(cfg: Config, db: Db, i: ProcessId, p: Process)
    requires p.buffer == EMPTY && !InTransaction(p.pc)
    ensures BufferOk(cfg, db, i, p)
  {
  }

  /** The conflicting row is there: rows are never deleted. */
  lemma ReplayOk(cfg: Config, s: State, i: ProcessId)
    requires RowsOk(s.db) && i in s.processes && s.processes[i].pc.Replaying? && PcOk(cfg, s.db, i, s.processes[i])
    ensures s.processes[i].task.Create?
    ensures var p, after := s.processes[i], Replay(cfg, s, i, s.processes[i]).processes[i];
            PcOk(cfg, s.db, i, after) && after.pc.Answered? && !after.pc.reply.Failure?
  {
    var p := s.processes[i];
    var c := p.task.command;
    var found := FindByKey(s.db, c.client, c.key);
    assert found.Some?;
    assert RowOk(s.db, found.value);
    var after := Replay(cfg, s, i, p).processes[i];
    assert SameKeyStored(cfg, s.db, c, found.value, after.pc.reply.Replayed?);
  }

  lemma ReplayKeeps(cfg: Config, s: State, i: ProcessId)
    requires Inv(cfg, s) && i in s.processes && s.processes[i].pc.Replaying?
    ensures s.processes[i].task.Create? && Inv(cfg, Replay(cfg, s, i, s.processes[i]))
  {
    hide PcOk, RowsOk, KeysOk, ScenariosOk, UsesOk, BufferOk;
    ReplayOk(cfg, s, i);
    var after := Replay(cfg, s, i, s.processes[i]).processes[i];
    LettingGo(s, i, after);
    EmptyBufferOk(cfg, s.db, i, after);
    LocalStep(cfg, s, i, after);
  }

  // ---------------------------------------------------------------- decisions

  lemma ReadAndDecideOk(cfg: Config, s: State, i: ProcessId, now: Instant)
    requires RowsOk(s.db) && i in s.processes && s.processes[i].pc.Reading? && PcOk(cfg, s.db, i, s.processes[i])
    requires s.processes[i].buffer == EMPTY
    ensures s.processes[i].task.Advance?
    ensures var p, after := s.processes[i], ReadAndDecide(cfg, s, i, s.processes[i], now);
            && after == Put(s, i, after.processes[i]) && PcOk(cfg, s.db, i, after.processes[i])
            && after.processes[i].buffer == EMPTY && !InTransaction(after.processes[i].pc)
            && after.processes[i].task == p.task
  {
    var p := s.processes[i];
    if p.task.id in s.db.rows { assert RowOk(s.db, p.task.id); }
  }

  lemma ReadAndDecideKeeps(cfg: Config, s: State, i: ProcessId, now: Instant)
    requires Inv(cfg, s) && i in s.processes && s.processes[i].pc.Reading?
    ensures s.processes[i].task.Advance? && Inv(cfg, ReadAndDecide(cfg, s, i, s.processes[i], now))
  {
    hide PcOk, RowsOk, KeysOk, ScenariosOk, UsesOk, ReadAndDecide;
    ReadAndDecideOk(cfg, s, i, now);
    var after := ReadAndDecide(cfg, s, i, s.processes[i], now).processes[i];
    LettingGo(s, i, after);
    EmptyBufferOk(cfg, s.db, i, after);
    LocalStep(cfg, s, i, after);
  }

  /** The row may have moved since it was read; the guard decides. */
  lemma ApplyDecisionOk(cfg: Config, s: State, i: ProcessId)
    requires RowsOk(s.db) && i in s.processes && s.processes[i].pc.Updating? && ProcessOk(cfg, s.db, i, s.processes[i])
    ensures s.processes[i].task.Advance?
    ensures var p, after := s.processes[i], ApplyDecision(s, i, s.processes[i]);
            && after == Put(s, i, after.processes[i]) && ProcessOk(cfg, s.db, i, after.processes[i])
            && KeepsTurn(p, after.processes[i]) && after.processes[i].buffer.taken.None?
            && (!Updatable(s.db, p.task.id, p.task.client) ==> after.processes[i].buffer == EMPTY)
  {
    var p := s.processes[i];
    if Updatable(s.db, p.task.id, p.task.client) {
      assert RowOk(s.db, p.task.id);
      var after := ApplyDecision(s, i, p).processes[i];
      assert DecidedRowOk(s.db, after);
    }
  }

  lemma ApplyDecisionKeeps(cfg: Config, s: State, i: ProcessId)
    requires Inv(cfg, s) && i in s.processes && s.processes[i].pc.Updating? && !Waits(cfg, s, i, s.processes[i])
    ensures s.processes[i].task.Advance? && Inv(cfg, ApplyDecision(s, i, s.processes[i]))
  {
    hide ProcessOk, RowsOk, KeysOk, ScenariosOk, UsesOk, ApplyDecision;
    ApplyDecisionOk(cfg, s, i);
    var id := s.processes[i].task.id;
    var after := ApplyDecision(s, i, s.processes[i]).processes[i];
    forall j | j in s.processes && j != i ensures Apart(after, s.processes[j]) {
      assert HoldsRow(s.processes[j], id) ==> RowBusy(s, i, id);
    }
    LocalStep(cfg, s, i, after);
  }

  lemma FaultKeeps(cfg: Config, s: State, i: ProcessId)
    requires Inv(cfg, s) && i in s.processes && !s.processes[i].pc.Answered?
    ensures Inv(cfg, Step(cfg, s, Fault(i)))
  {
    hide RowsOk, KeysOk, ScenariosOk, UsesOk;
    var after := s.processes[i].(pc := Dead, buffer := EMPTY);
    if s.processes[i].pc.Dead? {
      assert s.processes[i].buffer == EMPTY;
      assert Step(cfg, s, Fault(i)).processes == s.processes;
    } else {
      LettingGo(s, i, after);
      LocalStep(cfg, s, i, after);
    }
  }
}
