/** The statements of FakeBank that change committed data keep the invariant. */
module FakeBankCommits {
  import opened ProviderTransaction
  import opened FakeBank
  import opened FakeBankInvariant
  import opened FakeBankSteps

  // ---------------------------------------------------------------- attempts

  lemma ScenariosSame(cfg: Config, db: Db, later: Db)
    requires ScenariosOk(cfg, db)
    requires later.scenarios == db.scenarios && later.uses == db.uses && later.registrations == db.registrations
    ensures ScenariosOk(cfg, later)
  {
    forall k | k in later.scenarios ensures ScenarioOk(cfg, later, k) { assert ScenarioOk(cfg, db, k); }
  }

  function Charged(db: Db, k: ScenarioKey, i: ProcessId, stored: bool): Db
    requires k in db.scenarios && db.scenarios[k].remaining > 0
  {
    Consume(db, k).(uses := db.uses + [Use(db.scenarios[k].generation, i, stored)])
  }

  lemma ChargedScenarioOk(cfg: Config, db: Db, k: ScenarioKey, i: ProcessId, stored: bool, l: ScenarioKey)
    requires k in db.scenarios && db.scenarios[k].remaining > 0 && l in db.scenarios
    requires ScenarioOk(cfg, db, k) && ScenarioOk(cfg, db, l)
    ensures ScenarioOk(cfg, Charged(db, k, i, stored), l)
  {
    hide Trim, UseCount;
    UseCountAdd(db.uses, Use(db.scenarios[k].generation, i, stored), db.scenarios[l].generation);
  }

  /** One attempt less, one use more. */
  lemma ChargedOk(cfg: Config, db: Db, k: ScenarioKey, i: ProcessId, stored: bool)
    requires ScenariosOk(cfg, db) && k in db.scenarios && db.scenarios[k].remaining > 0
    ensures ScenariosOk(cfg, Charged(db, k, i, stored))
  {
    hide ScenarioOk, UseCount;
    var later := Charged(db, k, i, stored);
    forall l | l in later.scenarios ensures ScenarioOk(cfg, later, l) { ChargedScenarioOk(cfg, db, k, i, stored, l); }
    forall g | 0 <= g < |later.registrations| ensures UseCount(later.uses, g) <= later.registrations[g].times {
      ChargedGeneration(cfg, db, k, i, stored, g);
    }
    ChargedGeneration(cfg, db, k, i, stored, 0);
  }

  lemma ChargedGeneration(cfg: Config, db: Db, k: ScenarioKey, i: ProcessId, stored: bool, g: nat)
    requires k in db.scenarios && db.scenarios[k].remaining > 0 && ScenarioOk(cfg, db, k)
    requires g < |db.registrations| ==> UseCount(db.uses, g) <= db.registrations[g].times
    ensures g < |db.registrations| ==> UseCount(Charged(db, k, i, stored).uses, g) <= db.registrations[g].times
    ensures db.scenarios[k].generation < |db.registrations|
  {
    UseCountAdd(db.uses, Use(db.scenarios[k].generation, i, stored), g);
  }

  /** Only a process that was turned away or stored a row has used an attempt. */
  lemma NotYetUsed(s: State, i: ProcessId)
    requires UsesOk(s) && i in s.processes && i !in s.db.rows
    requires !s.processes[i].pc.Rejecting? && !s.processes[i].pc.Answered? && !s.processes[i].pc.Dead?
    ensures forall u :: u in s.db.uses ==> u.process != i
  {
    forall u | u in s.db.uses ensures u.process != i { assert UseOk(s, u); }
  }

  // ---------------------------------------------------------------- registering

  lemma RegisterKeeps(cfg: Config, s: State, a: Action)
    requires Inv(cfg, s) && a.Register?
    ensures Inv(cfg, Step(cfg, s, a))
  {
    hide RowsOk, KeysOk, UsesOk, ScenariosOk, ProcessOk, ValidRegistration;
    if Step(cfg, s, a) != s {
      var later := Registered(s.db, a.key, a.outcome, a.failureCode, a.times);
      RegisteredScenariosOk(cfg, s.db, a);
      RegisteredRest(s, later, a);
      forall j | j in s.processes ensures ProcessOk(cfg, later, j, s.processes[j]) {
        assert !HoldsScenario(s.processes[j], a.key);
        RegisteredProcessOk(cfg, s.db, later, j, s.processes[j], a);
      }
    }
  }

  lemma RegisteredScenariosOk(cfg: Config, db: Db, a: Action)
    requires ScenariosOk(cfg, db) && a.Register? && ValidRegistration(cfg, a)
    ensures ScenariosOk(cfg, Registered(db, a.key, a.outcome, a.failureCode, a.times))
  {
    var later := Registered(db, a.key, a.outcome, a.failureCode, a.times);
    UseCountNone(db.uses, |db.registrations|);
    forall k | k in later.scenarios ensures ScenarioOk(cfg, later, k) {
      if k != a.key { assert ScenarioOk(cfg, db, k); }
    }
  }

  lemma RegisteredRest(s: State, later: Db, a: Action)
    requires RowsOk(s.db) && KeysOk(s.db) && UsesOk(s) && a.Register?
    requires later == Registered(s.db, a.key, a.outcome, a.failureCode, a.times)
    ensures RowsOk(later) && KeysOk(later) && UsesOk(s.(db := later))
  {
    forall id | id in later.rows ensures RowOk(later, id) { assert RowOk(s.db, id); }
    forall u | u in later.uses ensures UseOk(s.(db := later), u) { assert UseOk(s, u); }
  }

  lemma RegisteredProcessOk(cfg: Config, db: Db, later: Db, j: ProcessId, q: Process, a: Action)
    requires ProcessOk(cfg, db, j, q) && a.Register? && !HoldsScenario(q, a.key)
    requires later == Registered(db, a.key, a.outcome, a.failureCode, a.times)
    ensures ProcessOk(cfg, later, j, q)
  {
    BufferStays(cfg, db, later, j, q);
    PcStays(cfg, db, later, j, q);
  }

  // ---------------------------------------------------------------- a transport error

  lemma PrePersistKeeps(cfg: Config, s: State, i: ProcessId)
    requires Inv(cfg, s) && i in s.processes && s.processes[i].pc.PrePersisting? && !Waits(cfg, s, i, s.processes[i])
    ensures s.processes[i].task.Create? && Inv(cfg, PrePersist(cfg, s, i, s.processes[i]))
  {
    hide RowsOk, KeysOk, UsesOk, ScenariosOk, ProcessOk;
    var p := s.processes[i];
    PrePersistTask(cfg, s.db, i, p);
    var k := KeyOf(p.task.command);
    if cfg.lab && Consumable(s.db, k, true) {
      var later := Charged(s.db, k, i, false);
      var after := p.(pc := Rejecting(s.db.scenarios[k].outcome));
      assert PrePersist(cfg, s, i, p) == State(later, s.processes[i := after]);
      ChargedOk(cfg, s.db, k, i, false);
      ChargedRest(cfg, s, i, k);
      forall j | j in s.processes && j != i ensures HeldUntouched(s.db, later, s.processes[j]) {
        assert HoldsScenario(s.processes[j], k) ==> ScenarioBusy(s, i, k);
      }
      OthersStay(cfg, s, later, i);
      HoldingOn(s, i, after);
    } else {
      PrePersistOk(cfg, s.db, i, p);
      var after := p.(pc := Consuming);
      HoldingOn(s, i, after);
      LocalStep(cfg, s, i, after);
    }
  }

  lemma PrePersistTask(cfg: Config, db: Db, i: ProcessId, p: Process)
    requires ProcessOk(cfg, db, i, p) && p.pc.PrePersisting?
    ensures p.task.Create? && i !in db.rows
  {
  }

  lemma PrePersistOk(cfg: Config, db: Db, i: ProcessId, p: Process)
    requires ProcessOk(cfg, db, i, p) && p.pc.PrePersisting?
    ensures ProcessOk(cfg, db, i, p.(pc := Consuming))
  {
  }

  lemma ChargedRest(cfg: Config, s: State, i: ProcessId, k: ScenarioKey)
    requires RowsOk(s.db) && KeysOk(s.db) && UsesOk(s) && ScenariosOk(cfg, s.db)
    requires i in s.processes && s.processes[i].pc.PrePersisting? && ProcessOk(cfg, s.db, i, s.processes[i])
    requires k == KeyOf(s.processes[i].task.command) && Consumable(s.db, k, true)
    ensures var later, after := Charged(s.db, k, i, false), s.processes[i].(pc := Rejecting(s.db.scenarios[k].outcome));
            && RowsOk(later) && KeysOk(later) && UsesOk(State(later, s.processes[i := after]))
            && ProcessOk(cfg, later, i, after)
  {
    var later := Charged(s.db, k, i, false);
    var after := s.processes[i].(pc := Rejecting(s.db.scenarios[k].outcome));
    forall id | id in later.rows ensures RowOk(later, id) { assert RowOk(s.db, id); }
    NotYetUsed(s, i);
    ChargedUsesOk(cfg, s, i, k, false, State(later, s.processes[i := after]));
    var u := Use(s.db.scenarios[k].generation, i, false);
    assert later.uses[|s.db.uses|] == u;
    assert u in later.uses;
  }

  lemma ChargedUsesOk(cfg: Config, s: State, i: ProcessId, k: ScenarioKey, stored: bool, t: State)
    requires UsesOk(s) && ScenariosOk(cfg, s.db) && k in s.db.scenarios && s.db.scenarios[k].remaining > 0
    requires t.db.registrations == s.db.registrations && t.db.uses == Charged(s.db, k, i, stored).uses
    requires forall j :: j in s.processes && j != i ==> j in t.processes && t.processes[j] == s.processes[j]
    requires forall u :: u in s.db.uses ==> u.process != i
    requires forall id :: id in s.db.rows ==> id in t.db.rows && t.db.rows[id] == s.db.rows[id]
    requires forall id :: id in t.db.rows ==> id in s.db.rows || id == i
    requires UseOk(t, Use(s.db.scenarios[k].generation, i, stored))
    requires i in t.db.rows && i !in s.db.rows ==> stored
    ensures UsesOk(t)
  {
    var u := Use(s.db.scenarios[k].generation, i, stored);
    assert t.db.uses[|s.db.uses|] == u;
    forall v | v in t.db.uses ensures UseOk(t, v) {
      if v != u { assert v in s.db.uses; assert UseOk(s, v); }
    }
    forall id | id in t.db.rows && t.db.rows[id].appliedOutcome.Some? ensures UsedBy(t.db.uses, id, true) {
      if id in s.db.rows {
        assert UsedBy(s.db.uses, id, true);
        var g: nat :| Use(g, id, true) in s.db.uses;
        assert Use(g, id, true) in t.db.uses;
      } else {
        assert u in t.db.uses;
      }
    }
  }

  // ---------------------------------------------------------------- committing a creation

  /** What a creation about to commit has in its buffer. */
  lemma CreationReady(cfg: Config, db: Db, i: ProcessId, p: Process)
    requires ProcessOk(cfg, db, i, p) && p.pc.Committing? && p.task.Create?
    ensures p.buffer.row.Some? && NewRowOk(cfg, db, i, p) && TakenOk(db, p) && i !in db.rows
    ensures p.buffer.events == LogOf(p.buffer.row.value.core)
  {
  }

  lemma CreationRows(cfg: Config, db: Db, i: ProcessId, p: Process, later: Db)
    requires RowsOk(db) && KeysOk(db) && p.buffer.row.Some? && p.task.Create? && i !in db.rows
    requires NewRowOk(cfg, db, i, p) && p.buffer.events == LogOf(p.buffer.row.value.core)
    requires later.rows == db.rows[i := p.buffer.row.value] && later.events == db.events + p.buffer.events
    ensures RowsOk(later) && KeysOk(later)
  {
    hide KeyTaken, EventsOf, RowOk, LogOf, KeysOk;
    CreationKeys(cfg, db, i, p, later);
    AllAbout(p.buffer.row.value.core);
    EventsOfNobody(db.events, i);
    forall id | id in later.rows ensures RowOk(later, id) {
      EventsOfAppend(db.events, p.buffer.events, id);
      if id == i { NewRowStands(later, i); } else { RowStands(db, later, id); }
    }
  }

  lemma AllAbout(c: Core)
    ensures forall e :: e in LogOf(c) ==> e.transaction == c.id
  {
  }

  lemma NewRowStands(later: Db, id: RowId)
    requires id in later.rows && EventsOf(later.events, id) == LogOf(later.rows[id].core)
    requires later.rows[id].core.id == id && WellFormed(later.rows[id].core)
    requires later.rows[id].updatedAt == LastChangedAt(later.rows[id].core) && OutcomeShown(later.rows[id])
    ensures RowOk(later, id)
  {
  }

  lemma RowStands(db: Db, later: Db, id: RowId)
    requires id in db.rows && RowOk(db, id) && id in later.rows && later.rows[id] == db.rows[id]
    requires EventsOf(later.events, id) == EventsOf(db.events, id)
    ensures RowOk(later, id)
  {
  }

  lemma CreationKeys(cfg: Config, db: Db, i: ProcessId, p: Process, later: Db)
    requires KeysOk(db) && p.buffer.row.Some? && p.task.Create? && NewRowOk(cfg, db, i, p)
    requires later.rows == db.rows[i := p.buffer.row.value]
    ensures KeysOk(later)
  {
    var row := p.buffer.row.value;
    forall a, b | a in later.rows && b in later.rows && a != b
      ensures later.rows[a].client != later.rows[b].client || later.rows[a].key != later.rows[b].key
    {
      if a == i || b == i { assert !KeyTaken(db, row.client, row.key); }
    }
  }

  /** The committed row carries the Outcome of the attempt it consumed, if it consumed one. */
  lemma CreationUses(cfg: Config, s: State, i: ProcessId, t: State)
    requires UsesOk(s) && ScenariosOk(cfg, s.db) && i in s.processes && s.processes[i].pc.Committing?
             && s.processes[i].task.Create?
    requires ProcessOk(cfg, s.db, i, s.processes[i])
    requires s.processes[i].buffer.row.Some? && t == Commit(s, i, s.processes[i])
    ensures UsesOk(t) && ScenariosOk(cfg, t.db)
  {
    hide ProcessOk, UseOk, ScenarioOk, UsesOk, ScenariosOk, LogOf;
    var p := s.processes[i];
    CreationReady(cfg, s.db, i, p);
    NotYetUsed(s, i);
    if p.buffer.taken.Some? {
      var k := p.buffer.taken.value.key;
      CreationUseOk(cfg, s, i, t);
      ChargedUsesOk(cfg, s, i, k, true, t);
      ChargedOk(cfg, s.db, k, i, true);
      ScenariosSame(cfg, Charged(s.db, k, i, true), t.db);
    } else {
      PlainCreationUses(s, i, t);
      ScenariosSame(cfg, s.db, t.db);
    }
  }

  lemma CreationUseOk(cfg: Config, s: State, i: ProcessId, t: State)
    requires ScenariosOk(cfg, s.db) && i in s.processes && s.processes[i].pc.Committing? && s.processes[i].task.Create?
    requires s.processes[i].buffer.row.Some? && t == Commit(s, i, s.processes[i])
    requires NewRowOk(cfg, s.db, i, s.processes[i]) && TakenOk(s.db, s.processes[i])
             && s.processes[i].buffer.taken.Some?
    ensures var k := s.processes[i].buffer.taken.value.key;
            k in s.db.scenarios && UseOk(t, Use(s.db.scenarios[k].generation, i, true))
  {
    hide LogOf, WellFormed, KeyTaken, Trim, UseCount;
    assert ScenarioOk(cfg, s.db, s.processes[i].buffer.taken.value.key);
  }

  lemma PlainCreationUses(s: State, i: ProcessId, t: State)
    requires UsesOk(s) && i in s.processes && s.processes[i].buffer.row.Some? && s.processes[i].buffer.taken.None?
    requires s.processes[i].task.Create? && t == Commit(s, i, s.processes[i])
    requires s.processes[i].buffer.row.value.appliedOutcome.None? && s.processes[i].buffer.row.value.core.id == i
    requires i !in s.db.rows && forall u :: u in s.db.uses ==> u.process != i
    ensures UsesOk(t)
  {
    forall v | v in t.db.uses ensures UseOk(t, v) { assert UseOk(s, v); }
  }

  lemma CreationDb(cfg: Config, s: State, i: ProcessId, later: Db)
    requires i in s.processes && s.processes[i].pc.Committing? && s.processes[i].task.Create?
    requires ProcessOk(cfg, s.db, i, s.processes[i]) && s.processes[i].buffer.row.Some?
    requires later == Published(s.db, i, s.processes[i].buffer)
    ensures later.rows == s.db.rows[i := s.processes[i].buffer.row.value]
    ensures later.events == s.db.events + s.processes[i].buffer.events
    ensures Grows(s.db, later)
    ensures forall k :: k in s.db.scenarios && !HoldsScenario(s.processes[i], k) ==>
              k in later.scenarios && later.scenarios[k] == s.db.scenarios[k]
  {
  }

  /** The new row has a key nobody else is inserting. */
  lemma CreationLeavesOthers(cfg: Config, s: State, i: ProcessId, j: ProcessId, later: Db)
    requires i in s.processes && j in s.processes && j != i && Apart(s.processes[i], s.processes[j])
    requires s.processes[i].task.Create? && s.processes[i].buffer.row.Some? && NewRowOk(cfg, s.db, i, s.processes[i])
    requires i !in s.db.rows && later.rows == s.db.rows[i := s.processes[i].buffer.row.value]
    requires forall k :: k in s.db.scenarios && !HoldsScenario(s.processes[i], k) ==>
               k in later.scenarios && later.scenarios[k] == s.db.scenarios[k]
    ensures HeldUntouched(s.db, later, s.processes[j])
  {
    var q := s.processes[j];
    if q.buffer.row.Some? && q.task.Create? && KeyTaken(later, q.task.command.client, q.task.command.key) {
      var id :| id in later.rows && later.rows[id].client == q.task.command.client
      && later.rows[id].key == q.task.command.key;
      assert id != i;
    }
  }

  lemma CommitCreationKeeps(cfg: Config, s: State, i: ProcessId)
    requires Inv(cfg, s) && i in s.processes && s.processes[i].pc.Committing? && s.processes[i].task.Create?
    ensures s.processes[i].buffer.row.Some? && Inv(cfg, Commit(s, i, s.processes[i]))
  {
    hide RowsOk, KeysOk, UsesOk, ScenariosOk, ProcessOk, Published, NewRowOk, Grows, HeldUntouched, LogOf;
    var p := s.processes[i];
    CreationReady(cfg, s.db, i, p);
    var t := Commit(s, i, p);
    CreationDb(cfg, s, i, t.db);
    CreationRows(cfg, s.db, i, p, t.db);
    CreationUses(cfg, s, i, t);
    forall j | j in s.processes && j != i ensures HeldUntouched(s.db, t.db, s.processes[j]) {
      CreationLeavesOthers(cfg, s, i, j, t.db);
    }
    OthersStay(cfg, s, t.db, i);
    RespondingOk(cfg, s.db, t.db, i, p);
    LettingGo(s, i, t.processes[i]);
  }

  lemma RespondingOk(cfg: Config, db: Db, later: Db, i: ProcessId, p: Process)
    requires p.buffer.row.Some? && p.task.Create? && NewRowOk(cfg, db, i, p)
    requires later.rows == db.rows[i := p.buffer.row.value]
    ensures ProcessOk(cfg, later, i, p.(pc := Responding(p.buffer.row.value), buffer := EMPTY))
  {
  }

  // ---------------------------------------------------------------- committing a decision

  lemma DecisionReady(cfg: Config, db: Db, i: ProcessId, p: Process)
    requires ProcessOk(cfg, db, i, p) && p.pc.Committing? && p.task.Advance?
    ensures p.buffer.row.Some? && DecidedRowOk(db, p) && p.buffer.taken.None? && i !in db.rows
    ensures p.buffer.events == [EventFor(p.buffer.row.value.core, LastChangedAt(p.buffer.row.value.core))]
  {
  }

  lemma DecisionRows(db: Db, p: Process, later: Db)
    requires RowsOk(db) && KeysOk(db) && p.buffer.row.Some? && p.task.Advance? && DecidedRowOk(db, p)
    requires p.buffer.events == [EventFor(p.buffer.row.value.core, LastChangedAt(p.buffer.row.value.core))]
    requires later.rows == db.rows[p.task.id := p.buffer.row.value] && later.events == db.events + p.buffer.events
    ensures RowsOk(later) && KeysOk(later)
  {
    forall id | id in later.rows ensures RowOk(later, id) {
      assert RowOk(db, id);
      EventsOfAppend(db.events, p.buffer.events, id);
    }
  }

  lemma DecisionUses(cfg: Config, s: State, i: ProcessId, t: State)
    requires UsesOk(s) && ScenariosOk(cfg, s.db) && i in s.processes && s.processes[i].pc.Committing?
             && s.processes[i].task.Advance?
    requires ProcessOk(cfg, s.db, i, s.processes[i])
    requires s.processes[i].buffer.row.Some? && t == Commit(s, i, s.processes[i])
    ensures UsesOk(t) && ScenariosOk(cfg, t.db)
  {
    DecisionReady(cfg, s.db, i, s.processes[i]);
    forall v | v in t.db.uses ensures UseOk(t, v) { assert UseOk(s, v); }
    ScenariosSame(cfg, s.db, t.db);
  }

  lemma CommitDecisionKeeps(cfg: Config, s: State, i: ProcessId)
    requires Inv(cfg, s) && i in s.processes && s.processes[i].pc.Committing? && s.processes[i].task.Advance?
    ensures s.processes[i].buffer.row.Some? && Inv(cfg, Commit(s, i, s.processes[i]))
  {
    hide RowsOk, KeysOk, UsesOk, ScenariosOk, ProcessOk, HeldUntouched;
    var p := s.processes[i];
    DecisionReady(cfg, s.db, i, p);
    var t := Commit(s, i, p);
    assert t.db == s.db.(rows := s.db.rows[p.task.id := p.buffer.row.value], events := s.db.events + p.buffer.events,
                         deciders := t.db.deciders);
    DecisionRows(s.db, p, t.db);
    DecisionUses(cfg, s, i, t);
    forall j | j in s.processes && j != i ensures HeldUntouched(s.db, t.db, s.processes[j]) {
      DecisionLeavesOthers(s.db, p, s.processes[j], t.db);
    }
    OthersStay(cfg, s, t.db, i);
    AdvancedOk(cfg, s.db, t.db, i, p);
    LettingGo(s, i, t.processes[i]);
  }

  lemma DecisionLeavesOthers(db: Db, p: Process, q: Process, later: Db)
    requires p.buffer.row.Some? && p.task.Advance? && DecidedRowOk(db, p) && Apart(p, q)
    requires later.rows == db.rows[p.task.id := p.buffer.row.value] && later.scenarios == db.scenarios
    ensures HeldUntouched(db, later, q)
  {
    if q.buffer.row.Some? && q.task.Create? && KeyTaken(later, q.task.command.client, q.task.command.key) {
      var id :| id in later.rows && later.rows[id].client == q.task.command.client
      && later.rows[id].key == q.task.command.key;
      assert db.rows[id].client == later.rows[id].client && db.rows[id].key == later.rows[id].key;
    }
  }

  lemma AdvancedOk(cfg: Config, db: Db, later: Db, i: ProcessId, p: Process)
    requires p.buffer.row.Some? && p.task.Advance? && DecidedRowOk(db, p) && i !in db.rows
    requires later.rows == db.rows[p.task.id := p.buffer.row.value]
    ensures ProcessOk(cfg, later, i, p.(pc := Responding(p.buffer.row.value), buffer := EMPTY))
  {
  }
}
