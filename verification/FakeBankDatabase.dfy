/** FakeBank's tables as its services use them: one method per statement, changing them in place, and
    the two services in the order of their calls. `trace` records every statement of every
    process, so the object is always in the state that the run `trace` reaches. */
module FakeBankDatabase {
  import opened Options
  import opened ProviderTransaction
  import opened FakeBank
  import opened FakeBankInvariant
  import opened FakeBankProgress
  import opened FakeBankProperties

  /** What happens while one statement is awaited: statements of others, and possibly a fault. */
  datatype Turn = Turn(others: seq<Action>, fault: bool)

  lemma Inserts(cfg: Config, s: State, i: ProcessId, now: Instant, later: Instant)
    requires i in s.processes && s.processes[i].pc == Inserting && s.processes[i].task.Create?
    ensures Execute(cfg, s, i, s.processes[i], now, later) == FakeBank.InsertRow(cfg, s, i, s.processes[i], now, later)
  {
  }

  lemma CommitStep(cfg: Config, s: State, i: ProcessId)
    requires i in s.processes && s.processes[i].pc == Committing && s.processes[i].buffer.row.Some?
             && !Waits(cfg, s, i, s.processes[i])
    ensures Step(cfg, s, Next(i, 0, 0)) == FakeBank.Commit(s, i, s.processes[i])
  {
  }

  lemma FreshProcess(processes: map<ProcessId, Process>) returns (i: ProcessId)
    ensures i !in processes
  {
    i := 0;
    var seen: set<ProcessId> := {};
    while i in processes
      invariant seen <= processes.Keys && forall j :: j in seen <==> 0 <= j < i
      decreases processes.Keys - seen
    {
      seen := seen + {i};
      i := i + 1;
    }
  }

  class Database {
    const cfg: Config
    var rows: map<RowId, Row>
    var events: seq<Event>
    var scenarios: map<ScenarioKey, Scenario>
    var uses: seq<Use>
    var registrations: seq<Registration>
    var deciders: seq<Decider>
    var processes: map<ProcessId, Process>
    ghost var trace: seq<Action>

    function Tables(): Db
      reads this
    {
      Db(rows, events, scenarios, uses, registrations, deciders)
    }

    function Snapshot(): State
      reads this
    {
      State(Tables(), processes)
    }

    ghost predicate Valid()
      reads this
    {
      Snapshot() == Run(cfg, trace)
    }

    /** Process `i` can run its next statement, which is at `pc`. */
    ghost predicate At(i: ProcessId, pc: Pc)
      reads this
    {
      i in processes && processes[i].pc == pc && !Waits(cfg, Snapshot(), i, processes[i])
    }

    ghost predicate Alone(i: ProcessId)
      reads this
    {
      forall j :: j in processes && j != i ==> Finished(processes[j])
    }

    constructor (cfg: Config)
      ensures Valid() && trace == [] && this.cfg == cfg
    {
      this.cfg := cfg;
      rows, events, scenarios, processes := map[], [], map[], map[];
      uses, registrations, deciders, trace := [], [], [], [];
    }

    lemma Holds()
      requires Valid()
      ensures Inv(cfg, Snapshot())
    {
      Reachable(cfg, trace);
    }

    // -------------------------------------------------------------- the others

    method Apply(a: Action)
      requires Valid()
      modifies this
      ensures Valid() && trace == old(trace) + [a]
      ensures forall i :: i in old(processes) && !About(a, i) ==> i in processes && processes[i] == old(processes[i])
    {
      var next := Step(cfg, Snapshot(), a);
      RunExtends(cfg, trace, a);
      forall i | i in processes && !About(a, i) ensures i in next.processes && next.processes[i] == processes[i] {
        OthersLeave(cfg, Snapshot(), a, i);
      }
      rows, events, scenarios := next.db.rows, next.db.events, next.db.scenarios;
      uses, registrations, deciders := next.db.uses, next.db.registrations, next.db.deciders;
      processes := next.processes;
      trace := trace + [a];
    }

    method Elapse(actions: seq<Action>)
      requires Valid()
      modifies this
      ensures Valid() && old(trace) <= trace
    {
      for m := 0 to |actions|
        invariant Valid() && old(trace) <= trace
      {
        Apply(actions[m]);
      }
    }

    method Others(i: ProcessId, actions: seq<Action>)
      requires Valid() && i in processes
      modifies this
      ensures Valid() && old(trace) <= trace && i in processes && processes[i] == old(processes[i])
    {
      for m := 0 to |actions|
        invariant Valid() && old(trace) <= trace && i in processes && processes[i] == old(processes[i])
      {
        if !About(actions[m], i) { Apply(actions[m]); }
      }
    }

    /** Every statement may wait, and meanwhile the others run. A fault kills the process. */
    method Await(i: ProcessId, turns: seq<Turn>, from: nat) returns (alive: bool, k: nat)
      requires Valid() && i in processes && !Finished(processes[i]) && from <= |turns|
      modifies this
      ensures Valid() && old(trace) <= trace && from <= k <= |turns| && i in processes
      ensures alive ==> processes[i] == old(processes[i]) && !Waits(cfg, Snapshot(), i, processes[i])
      ensures !alive ==> processes[i] == old(processes[i]).(pc := Dead, buffer := EMPTY)
      ensures turns == [] && old(Alone(i)) ==> alive && Snapshot() == old(Snapshot()) && Alone(i)
    {
      alive, k := true, from;
      while k < |turns|
        invariant Valid() && old(trace) <= trace && from <= k <= |turns|
        invariant i in processes && processes[i] == old(processes[i])
        invariant turns == [] ==> Snapshot() == old(Snapshot())
      {
        Others(i, turns[k].others);
        k := k + 1;
        if turns[k - 1].fault {
          Die(i);
          alive := false;
          return;
        }
        if !Waits(cfg, Snapshot(), i, processes[i]) { return; }
      }
      if turns == [] && Alone(i) { NobodyHolds(i); }
      if Waits(cfg, Snapshot(), i, processes[i]) {
        Die(i);
        alive := false;
      }
    }

    lemma NobodyHolds(i: ProcessId)
      requires Valid() && Alone(i) && i in processes
      ensures !Waits(cfg, Snapshot(), i, processes[i])
    {
      Holds();
      forall j | j in processes && j != i
        ensures processes[j].buffer == EMPTY
      {
        assert BufferOk(cfg, Tables(), j, processes[j]);
      }
    }

    method Die(i: ProcessId)
      requires Valid() && i in processes && !Finished(processes[i])
      modifies this`processes, this`trace
      ensures Valid() && trace == old(trace) + [Fault(i)]
      ensures processes == old(processes)[i := old(processes[i]).(pc := Dead, buffer := EMPTY)]
    {
      RunExtends(cfg, trace, Fault(i));
      processes := processes[i := processes[i].(pc := Dead, buffer := EMPTY)];
      trace := trace + [Fault(i)];
    }

    method Start(task: Task) returns (i: ProcessId)
      requires Valid() && (task.Advance? ==> cfg.lab)
      modifies this`processes, this`trace
      ensures Valid() && trace == old(trace) + [Arrive(i, task)] && i !in old(processes)
      ensures processes == old(processes)[i := Process(task, Checking, EMPTY, IMMEDIATE_SUCCESS)]
    {
      ghost var unused := FreshProcess(processes);
      i :| i !in processes;
      RunExtends(cfg, trace, Arrive(i, task));
      processes := processes[i := Process(task, Checking, EMPTY, IMMEDIATE_SUCCESS)];
      trace := trace + [Arrive(i, task)];
    }

    /** One step that changes the process alone. */
    method Move(i: ProcessId, p: Process, now: Instant, later: Instant)
      requires Valid() && i in processes && !Waits(cfg, Snapshot(), i, processes[i])
      requires Execute(cfg, Snapshot(), i, processes[i], now, later) == Put(Snapshot(), i, p)
      modifies this`processes, this`trace
      ensures Valid() && trace == old(trace) + [Next(i, now, later)] && processes == old(processes)[i := p]
    {
      RunExtends(cfg, trace, Next(i, now, later));
      processes := processes[i := p];
      trace := trace + [Next(i, now, later)];
    }

    /** A request with nothing to refuse at once goes on to its first statement. */
    method Proceed(i: ProcessId)
      requires Valid() && At(i, Checking)
      requires processes[i].task.Create? ==> processes[i].task.command.currency == SUPPORTED_CURRENCY
      modifies this`processes, this`trace
      ensures Valid() && old(trace) <= trace && i in processes && (old(Alone(i)) ==> Alone(i))
      ensures processes[i]
                == old(processes[i]).(pc := if old(processes[i]).task.Create? then PrePersisting else Reading)
    {
      Move(i, processes[i].(pc := if processes[i].task.Create? then PrePersisting else Reading), 0, 0);
    }

    // -------------------------------------------------------------- simulation scenarios

    /** The upsert itself, once no open creation holds the row. */
    method Upsert(key: ScenarioKey, outcome: Outcome, code: Option<string>, times: nat)
      requires Valid() && cfg.lab && ValidRegistration(cfg, Action.Register(key, outcome, code, times))
      requires forall j :: j in processes ==> !HoldsScenario(processes[j], key)
      modifies this`scenarios, this`registrations, this`trace
      ensures Valid() && trace == old(trace) + [Action.Register(key, outcome, code, times)]
      ensures key in scenarios && scenarios[key] == Scenario(outcome, code, times, |old(registrations)|)
      ensures forall k :: k != key ==>
                (k in scenarios <==> k in old(scenarios)) && (k in scenarios ==> scenarios[k] == old(scenarios)[k])
      ensures registrations == old(registrations) + [Registration(key, outcome, code, times)]
    {
      RunExtends(cfg, trace, Action.Register(key, outcome, code, times));
      scenarios := scenarios[key := Scenario(outcome, code, times, |registrations|)];
      registrations := registrations + [Registration(key, outcome, code, times)];
      trace := trace + [Action.Register(key, outcome, code, times)];
    }

    /** `consumeAttempt` on its own, for the Outcomes answered before anything is stored. */
    method ConsumeAlone(i: ProcessId) returns (consumed: Option<Outcome>)
      requires Valid() && At(i, PrePersisting) && processes[i].task.Create?
      modifies this`scenarios, this`uses, this`processes, this`trace
      ensures Valid() && old(trace) <= trace && i in processes && (old(Alone(i)) ==> Alone(i))
      ensures var k := KeyOf(old(processes[i]).task.command);
              if cfg.lab && Consumable(old(Tables()), k, true) then
                && consumed == Some(old(scenarios)[k].outcome)
                && processes[i] == old(processes[i]).(pc := Rejecting(consumed.value))
                && scenarios == old(scenarios)[k := old(scenarios)[k].(remaining := old(scenarios)[k].remaining - 1)]
              else
                && consumed == None && scenarios == old(scenarios)
                && processes[i] == old(processes[i]).(pc := Consuming)
    {
      var p := processes[i];
      var k := KeyOf(p.task.command);
      if cfg.lab && k in scenarios && scenarios[k].remaining > 0 && PrePersistence(scenarios[k].outcome) {
        RunExtends(cfg, trace, Next(i, 0, 0));
        consumed := Some(scenarios[k].outcome);
        uses := uses + [Use(scenarios[k].generation, i, false)];
        scenarios := scenarios[k := scenarios[k].(remaining := scenarios[k].remaining - 1)];
        processes := processes[i := p.(pc := Rejecting(consumed.value))];
        trace := trace + [Next(i, 0, 0)];
      } else {
        consumed := None;
        Move(i, p.(pc := Consuming), 0, 0);
      }
    }

    /** `consumeAttempt` inside the insert's transaction: it is given back by a rollback. */
    method ConsumeInTransaction(i: ProcessId) returns (decision: Decision)
      requires Valid() && At(i, Consuming) && processes[i].task.Create?
      modifies this`processes, this`trace
      ensures Valid() && old(trace) <= trace && i in processes && (old(Alone(i)) ==> Alone(i))
      ensures var k := KeyOf(old(processes[i]).task.command);
              var found := cfg.lab && Consumable(Tables(), k, false);
              && decision == (if found then DecideFor(scenarios[k]) else IMMEDIATE_SUCCESS)
              && processes[i] == old(processes[i]).(
                   pc := Inserting, decision := decision,
                   buffer := if found then old(processes[i]).buffer.(taken := Some(Taken(k, scenarios[k].generation)))
                             else old(processes[i]).buffer)
    {
      var p := processes[i];
      var k := KeyOf(p.task.command);
      if cfg.lab && k in scenarios && scenarios[k].remaining > 0 && !PrePersistence(scenarios[k].outcome) {
        decision := DecideFor(scenarios[k]);
        Move(i, p.(pc := Inserting, decision := decision,
                   buffer := p.buffer.(taken := Some(Taken(k, scenarios[k].generation)))), 0, 0);
      } else {
        decision := IMMEDIATE_SUCCESS;
        Move(i, p.(pc := Inserting, decision := decision), 0, 0);
      }
    }

    // -------------------------------------------------------------- rows and events

    /** The decided transition is never refused. */
    lemma Accepted(i: ProcessId, now: Instant, later: Instant)
      requires Valid() && i in processes && processes[i].pc == Inserting
      ensures processes[i].decision.transition.Some? ==>
                Decide(CreateTransaction(i, now).core, processes[i].decision.transition.value, later, cfg.space).Ok?
    {
      Holds();
      assert BufferOk(cfg, Tables(), i, processes[i]);
      if processes[i].decision.transition.Some? {
        FakeBankSteps.DecisionAccepted(cfg, Tables(), processes[i], i, now, later);
      }
    }

    /** The INSERT of the decided row; a taken key rolls everything back. */
    method InsertRow(i: ProcessId, now: Instant, later: Instant) returns (inserted: bool)
      requires Valid() && At(i, Inserting) && processes[i].task.Create?
      modifies this`processes, this`trace
      ensures Valid() && old(trace) <= trace && i in processes && (old(Alone(i)) ==> Alone(i))
      ensures inserted <==>
                !KeyTaken(Tables(), old(processes[i]).task.command.client, old(processes[i]).task.command.key)
      ensures Snapshot() == FakeBank.InsertRow(cfg, old(Snapshot()), i, old(processes[i]), now, later)
      ensures if inserted then processes[i].pc.Logging? && processes[i].buffer.row.Some?
              else processes[i].pc == Replaying
      ensures processes[i].task == old(processes[i]).task
    {
      hide Waits, Run, Execute, Decide, NewRow, LastChangedAt;
      var p := processes[i];
      Accepted(i, now, later);
      Inserts(cfg, Snapshot(), i, now, later);
      var c := p.task.command;
      var born := CreateTransaction(i, now);
      inserted := !KeyTaken(Tables(), c.client, c.key);
      if !inserted {
        Move(i, p.(pc := Replaying, buffer := EMPTY), now, later);
      } else {
        var final, log := born.core, [born.event];
        if p.decision.transition.Some? {
          var change := Decide(born.core, p.decision.transition.value, later, cfg.space).change;
          final := change.core;
          log := log + [change.event];
          assert log == [born.event, change.event];
        }
        Move(i, p.(pc := Logging(log), buffer := p.buffer.(row := Some(NewRow(cfg, c, final, p.decision)))),
             now, later);
      }
    }

    /** One INSERT of an event, or nothing when all are in. */
    method InsertEvent(i: ProcessId) returns (done: bool)
      requires Valid() && i in processes && processes[i].pc.Logging?
      modifies this`processes, this`trace
      ensures Valid() && old(trace) <= trace && i in processes && (old(Alone(i)) ==> Alone(i))
      ensures done <==> old(processes[i]).pc.pending == []
      ensures processes[i] == if done then old(processes[i]).(pc := Committing)
                              else old(processes[i]).(pc := Logging(old(processes[i]).pc.pending[1..]),
                                                      buffer := old(processes[i]).buffer.(
                                                        events := old(processes[i]).buffer.events
                                                            + [old(processes[i]).pc.pending[0]]))
    {
      var p := processes[i];
      done := p.pc.pending == [];
      if done {
        Move(i, p.(pc := Committing), 0, 0);
      } else {
        Move(i, p.(pc := Logging(p.pc.pending[1..]),
                   buffer := p.buffer.(events := p.buffer.events + [p.pc.pending[0]])), 0, 0);
      }
    }

    /** COMMIT: row, events and the consumed attempt appear together. */
    method Commit(i: ProcessId) returns (row: Row)
      requires Valid() && At(i, Committing) && processes[i].buffer.row.Some?
      modifies this
      ensures Valid() && old(trace) <= trace && i in processes && (old(Alone(i)) ==> Alone(i))
      ensures row == old(processes[i]).buffer.row.value
              && processes[i] == old(processes[i]).(pc := Responding(row), buffer := EMPTY)
      ensures var p, published := old(processes[i]), Published(old(Tables()), i, old(processes[i]).buffer);
              Tables() == if p.task.Create? then published
                          else published.(deciders := published.deciders + [Decider(p.task.id, i)])
    {
      hide Waits, Step, Run;
      RunExtends(cfg, trace, Next(i, 0, 0));
      CommitStep(cfg, Snapshot(), i);
      var p := processes[i];
      var b := p.buffer;
      row := b.row.value;
      rows := rows[row.core.id := row];
      events := events + b.events;
      if b.taken.Some? && b.taken.value.key in scenarios && scenarios[b.taken.value.key].remaining > 0 {
        var k := b.taken.value.key;
        scenarios := scenarios[k := scenarios[k].(remaining := scenarios[k].remaining - 1)];
        uses := uses + [Use(b.taken.value.generation, i, true)];
      }
      if p.task.Advance? { deciders := deciders + [Decider(p.task.id, i)]; }
      processes := processes[i := p.(pc := Responding(row), buffer := EMPTY)];
      trace := trace + [Next(i, 0, 0)];
    }

    /** UPDATE ... WHERE id, client and status = 'PROCESSING': the first decision wins. */
    method UpdateWhileProcessing(i: ProcessId) returns (count: nat)
      requires Valid() && i in processes && processes[i].pc.Updating? && !Waits(cfg, Snapshot(), i, processes[i])
      requires processes[i].task.Advance?
      modifies this`processes, this`trace
      ensures Valid() && old(trace) <= trace && i in processes && (old(Alone(i)) ==> Alone(i))
      ensures count == if Updatable(Tables(), old(processes[i]).task.id, old(processes[i]).task.client) then 1 else 0
      ensures Snapshot() == ApplyDecision(old(Snapshot()), i, old(processes[i]))
              && processes[i].task == old(processes[i]).task
      ensures if count == 1 then processes[i].pc.Logging? && processes[i].buffer.row.Some?
              else processes[i].pc == Answered(DecidedConcurrently)
    {
      var p := processes[i];
      var id, change := p.task.id, p.pc.change;
      if id in rows && rows[id].client == p.task.client && rows[id].core.status == Processing {
        count := 1;
        var core := rows[id].core.(status := change.core.status, failureCode := change.core.failureCode,
                                   completedAt := change.core.completedAt);
        var row := rows[id].(core := core, updatedAt := LastChangedAt(change.core));
        Move(i, p.(pc := Logging([change.event]), buffer := p.buffer.(row := Some(row))), 0, 0);
      } else {
        count := 0;
        Move(i, FakeBank.Answer(p, DecidedConcurrently), 0, 0);
      }
    }
  }

  // ---------------------------------------------------------------- the services

  datatype Registering = Registered | LabOff | InvalidScenario | TimedOut

  /** `register`: any request may come at any time. It is refused unless the lab is on and the scenario
      is valid, and waits while an open creation holds the row; then it replaces the scenario of that
      client and reference and no other. */
  method Register(db: Database, key: ScenarioKey, outcome: Outcome, code: Option<string>, times: nat, turns: seq<Turn>)
    returns (r: Registering)
    requires db.Valid()
    modifies db
    ensures db.Valid() && old(db.trace) <= db.trace
    ensures r == LabOff <==> !db.cfg.lab
    ensures r == InvalidScenario <==>
              db.cfg.lab && !ValidRegistration(db.cfg, Action.Register(key, outcome, code, times))
    ensures r == LabOff || r == InvalidScenario ==> db.Snapshot() == old(db.Snapshot())
    ensures r == Registered ==>
              && db.registrations != []
              && db.registrations[|db.registrations| - 1] == Registration(key, outcome, code, times)
              && key in db.scenarios && db.scenarios[key] == Scenario(outcome, code, times, |db.registrations| - 1)
    ensures r == Registered && turns == [] ==>
              db.Tables() == FakeBank.Registered(old(db.Tables()), key, outcome, code, times)
    ensures turns == [] && (forall j :: j in old(db.processes) ==> Finished(old(db.processes[j]))) ==> r != TimedOut
  {
    if !db.cfg.lab { return LabOff; }
    if !ValidRegistration(db.cfg, Action.Register(key, outcome, code, times)) { return InvalidScenario; }
    hide ValidRegistration;
    var k := 0;
    while k < |turns| && ScenarioHeld(db.processes, key)
      invariant 0 <= k <= |turns| && db.Valid() && old(db.trace) <= db.trace
      invariant turns == [] ==> db.Snapshot() == old(db.Snapshot())
    {
      db.Elapse(turns[k].others);
      k := k + 1;
    }
    if turns == [] && (forall j :: j in db.processes ==> Finished(db.processes[j])) { NobodyHoldsScenarios(db, key); }
    if ScenarioHeld(db.processes, key) { return TimedOut; }
    db.Upsert(key, outcome, code, times);
    r := Registered;
  }

  predicate ScenarioHeld(processes: map<ProcessId, Process>, key: ScenarioKey) {
    exists j :: j in processes && HoldsScenario(processes[j], key)
  }

  lemma NobodyHoldsScenarios(db: Database, key: ScenarioKey)
    requires db.Valid() && forall j :: j in db.processes ==> Finished(db.processes[j])
    ensures !ScenarioHeld(db.processes, key)
  {
    db.Holds();
    forall j | j in db.processes ensures !HoldsScenario(db.processes[j], key) {
      assert BufferOk(db.cfg, db.Tables(), j, db.processes[j]);
    }
  }

  /** Where a process got to: it died, or it answered, and the answer means what it says. */
  ghost predicate Over(db: Database, i: ProcessId, task: Task, r: Option<Reply>)
    reads db
  {
    && i in db.processes && db.processes[i].task == task
    && db.processes[i].pc == (if r.Some? then Answered(r.value) else Dead)
    && (r.Some? ==> ReplyOk(db.cfg, db.Tables(), i, task, r.value))
  }

  lemma AnswerMeans(db: Database, i: ProcessId, r: Option<Reply>)
    requires db.Valid() && i in db.processes && db.processes[i].pc == if r.Some? then Answered(r.value) else Dead
    ensures Over(db, i, db.processes[i].task, r)
  {
    db.Holds();
    assert PcOk(db.cfg, db.Tables(), i, db.processes[i]);
  }

  /** The event loop and the COMMIT of one transaction. */
  method LogAndCommit(db: Database, i: ProcessId, turns: seq<Turn>, from: nat) returns (row: Option<Row>, k: nat)
    requires db.Valid() && i in db.processes && db.processes[i].pc.Logging? && db.processes[i].buffer.row.Some?
             && from <= |turns|
    modifies db
    ensures db.Valid() && old(db.trace) <= db.trace && from <= k <= |turns| && i in db.processes
    ensures db.processes[i].task == old(db.processes[i]).task
    ensures row.None? ==> db.processes[i].pc == Dead
    ensures row.Some? ==> db.processes[i].pc == Responding(row.value)
    ensures turns == [] && old(db.Alone(i)) ==> row.Some? && db.Alone(i)
  {
    hide Run, Waits;
    row, k := None, from;
    var alive, done := true, false;
    while !done
      invariant db.Valid() && old(db.trace) <= db.trace && from <= k <= |turns| && i in db.processes
      invariant db.processes[i].task == old(db.processes[i]).task && db.processes[i].buffer.row.Some?
      invariant if done then db.processes[i].pc == Committing else db.processes[i].pc.Logging?
      invariant turns == [] && old(db.Alone(i)) ==> db.Alone(i)
      decreases if db.processes[i].pc.Logging? then |db.processes[i].pc.pending| + 1 else 0
    {
      alive, k := db.Await(i, turns, k);
      if !alive { return; }
      done := db.InsertEvent(i);
    }
    alive, k := db.Await(i, turns, k);
    if !alive { return; }
    var committed := db.Commit(i);
    row := Some(committed);
  }

  /** `execute` of the creation service: currency, pre-persistence Outcomes, the insert with its
      scenario attempt, and a replay when the key is taken. */
  method CreateProviderTransaction(db: Database, c: Command, now: Instant, later: Instant, turns: seq<Turn>)
    returns (r: Option<Reply>, i: ProcessId)
    requires db.Valid()
    modifies db
    ensures db.Valid() && old(db.trace) <= db.trace && i !in old(db.processes)
    ensures Over(db, i, Create(c), r)
    ensures r == Some(UnsupportedCurrency) ==> c.currency != SUPPORTED_CURRENCY
    ensures turns == [] && (forall j :: j in old(db.processes) ==> Finished(old(db.processes[j]))) ==>
              r.Some? && (c.currency != SUPPORTED_CURRENCY ==> r == Some(UnsupportedCurrency))
  {
    hide Run, Waits, Over, Execute, Consumable, KeyOf, Database.Valid, Database.Snapshot, Database.Tables;
    i := db.Start(Create(c));
    var alive, k := db.Await(i, turns, 0);
    if !alive { r := Died(db, i); return; }
    if c.currency != SUPPORTED_CURRENCY {
      r := RefuseCurrency(db, i);
      return;
    }
    db.Proceed(i);

    alive, k := db.Await(i, turns, k);
    if !alive { r := Died(db, i); return; }
    var rejected := db.ConsumeAlone(i);
    if rejected.Some? {
      r := AnswerRejection(db, i, rejected.value, turns, k);
      return;
    }
    r := InsertWithEvents(db, i, now, later, turns, k);
  }

  method RefuseCurrency(db: Database, i: ProcessId) returns (r: Option<Reply>)
    requires db.Valid() && db.At(i, Checking) && db.processes[i].task.Create?
    requires db.processes[i].task.command.currency != SUPPORTED_CURRENCY
    modifies db
    ensures db.Valid() && old(db.trace) <= db.trace && r == Some(UnsupportedCurrency)
            && Over(db, i, old(db.processes[i]).task, r)
  {
    r := ReplyAt(db, i, UnsupportedCurrency, 0);
  }

  /** The error of a pre-persistence Outcome, after its delay; nothing was stored. */
  method AnswerRejection(db: Database, i: ProcessId, outcome: Outcome, turns: seq<Turn>, from: nat)
    returns (r: Option<Reply>)
    requires db.Valid() && i in db.processes && db.processes[i].pc == Rejecting(outcome) && from <= |turns|
    modifies db
    ensures db.Valid() && old(db.trace) <= db.trace && Over(db, i, old(db.processes[i]).task, r)
    ensures r.Some? ==> r == Some(TransportError(outcome))
    ensures turns == [] && old(db.Alone(i)) ==> r.Some?
  {
    hide Run, Over;
    var alive, _ := db.Await(i, turns, from);
    if !alive { r := Died(db, i); return; }
    r := ReplyAt(db, i, TransportError(outcome), 0);
  }

  /** The answer once the row is stored, after the delay of a creation. The process may still die: then
      the row is stored, or decided, and nobody is told. */
  method AnswerStored(db: Database, i: ProcessId, row: Row, turns: seq<Turn>, from: nat) returns (r: Option<Reply>)
    requires db.Valid() && i in db.processes && db.processes[i].pc == Responding(row) && from <= |turns|
    modifies db
    ensures db.Valid() && old(db.trace) <= db.trace && Over(db, i, old(db.processes[i]).task, r)
    ensures r.Some? ==> r.value == StoredReply(old(db.processes[i]), row)
    ensures turns == [] && old(db.Alone(i)) ==> r.Some?
  {
    hide Run, Over;
    var alive, _ := db.Await(i, turns, from);
    if !alive { r := Died(db, i); return; }
    r := ReplyAt(db, i, StoredReply(db.processes[i], row), 0);
  }

  /** `insertWithEvents` and what follows it. */
  method InsertWithEvents(db: Database, i: ProcessId, now: Instant, later: Instant, turns: seq<Turn>, from: nat)
    returns (r: Option<Reply>)
    requires db.Valid() && i in db.processes && db.processes[i].pc == Consuming && db.processes[i].task.Create?
             && from <= |turns|
    modifies db
    ensures db.Valid() && old(db.trace) <= db.trace && Over(db, i, old(db.processes[i]).task, r)
    ensures turns == [] && old(db.Alone(i)) ==> r.Some?
    ensures r != Some(UnsupportedCurrency)
  {
    hide Run, Waits, Over, FakeBank.InsertRow, Execute, Database.Snapshot, Database.Tables;
    var alive, k := db.Await(i, turns, from);
    if !alive { r := Died(db, i); return; }
    var decision := db.ConsumeInTransaction(i);

    alive, k := db.Await(i, turns, k);
    if !alive { r := Died(db, i); return; }
    var inserted := db.InsertRow(i, now, later);
    if !inserted {
      r := ReplayExisting(db, i, turns, k);
      return;
    }
    var row;
    row, k := LogAndCommit(db, i, turns, k);
    if row.None? { r := Died(db, i); return; }
    r := AnswerStored(db, i, row.value, turns, k);
  }

  /** The key is taken: the row is there, for the same request or for another one. */
  method ReplayExisting(db: Database, i: ProcessId, turns: seq<Turn>, from: nat) returns (r: Option<Reply>)
    requires db.Valid() && i in db.processes && db.processes[i].pc == Replaying && db.processes[i].task.Create?
             && from <= |turns|
    modifies db
    ensures db.Valid() && old(db.trace) <= db.trace && Over(db, i, old(db.processes[i]).task, r)
    ensures turns == [] && old(db.Alone(i)) ==> r.Some?
    ensures r.Some? ==> r.value.Replayed? || r.value.KeyReused?
  {
    hide Run, Waits, Over;
    var alive, _ := db.Await(i, turns, from);
    if !alive { r := Died(db, i); return; }
    var c := db.processes[i].task.command;
    KeyIsHeld(db, i);
    var existing := FindByKey(db.Tables(), c.client, c.key).value;
    var row := db.rows[existing];
    var same := row.fingerprint == db.cfg.fingerprint(c.reference, c.amount, c.currency);
    r := ReplyAt(db, i, if same then Replayed(row) else KeyReused, 0);
  }

  lemma KeyIsHeld(db: Database, i: ProcessId)
    requires db.Valid() && i in db.processes && db.processes[i].pc == Replaying && db.processes[i].task.Create?
    ensures KeyTaken(db.Tables(), db.processes[i].task.command.client, db.processes[i].task.command.key)
  {
    db.Holds();
    assert PcOk(db.cfg, db.Tables(), i, db.processes[i]);
  }

  method Died(db: Database, i: ProcessId) returns (r: Option<Reply>)
    requires db.Valid() && i in db.processes && db.processes[i].pc == Dead
    ensures r == None && Over(db, i, db.processes[i].task, r)
  {
    AnswerMeans(db, i, None);
    r := None;
  }

  /** `execute` of the advance service: a read, a decision on what was read, and the guarded update. */
  method AdvanceProviderTransaction(db: Database, client: nat, id: RowId, transition: Transition, now: Instant,
                                    turns: seq<Turn>)
    returns (r: Option<Reply>, i: ProcessId)
    requires db.Valid() && db.cfg.lab
    modifies db
    ensures db.Valid() && old(db.trace) <= db.trace && i !in old(db.processes)
    ensures Over(db, i, Advance(client, id, transition), r)
    ensures turns == [] && (forall j :: j in old(db.processes) ==> Finished(old(db.processes[j]))) ==> r.Some?
  {
    hide Run, Waits, Over, ApplyDecision, Execute, Database.Snapshot, Database.Tables;
    i := db.Start(Advance(client, id, transition));
    var alive, k := db.Await(i, turns, 0);
    if !alive { r := Died(db, i); return; }
    db.Proceed(i);

    alive, k := db.Await(i, turns, k);
    if !alive { r := Died(db, i); return; }
    var decided;
    decided, r := ReadAndDecide(db, i, client, id, transition, now);
    if decided {
      r := Apply(db, i, turns, k);
    }
  }

  /** What the row says now, and what may be decided on it. */
  method ReadAndDecide(db: Database, i: ProcessId, client: nat, id: RowId, transition: Transition, now: Instant)
    returns (decided: bool, r: Option<Reply>)
    requires db.Valid() && db.At(i, Reading) && db.processes[i].task == Advance(client, id, transition)
    modifies db
    ensures db.Valid() && old(db.trace) <= db.trace && i in db.processes && (old(db.Alone(i)) ==> db.Alone(i))
    ensures db.processes[i].task == old(db.processes[i]).task
    ensures decided ==> db.processes[i].pc.Updating?
    ensures !decided ==> r.Some? && (r.value.NotFound? || r.value.Refusal?) && Over(db, i, old(db.processes[i]).task, r)
  {
    hide Run, Over;
    r := None;
    decided := false;
    if id !in db.rows || db.rows[id].client != client {
      r := ReplyAt(db, i, NotFound, now);
      return;
    }
    var verdict := Decide(db.rows[id].core, transition, now, db.cfg.space);
    if verdict.Refused? {
      r := ReplyAt(db, i, Refusal(verdict.refusal), now);
      return;
    }
    db.Move(i, db.processes[i].(pc := Updating(verdict.change)), now, 0);
    decided := true;
  }

  /** `applyDecision`: the guarded update, its event, and the COMMIT, or the loser's answer. */
  method Apply(db: Database, i: ProcessId, turns: seq<Turn>, from: nat) returns (r: Option<Reply>)
    requires db.Valid() && i in db.processes && db.processes[i].pc.Updating? && db.processes[i].task.Advance?
    requires from <= |turns|
    modifies db
    ensures db.Valid() && old(db.trace) <= db.trace && Over(db, i, old(db.processes[i]).task, r)
    ensures turns == [] && old(db.Alone(i)) ==> r.Some?
    ensures r.Some? ==> r.value.Advanced? || r.value.DecidedConcurrently?
  {
    hide Run, Waits, Over, ApplyDecision;
    var alive, k := db.Await(i, turns, from);
    if !alive { r := Died(db, i); return; }
    var count := db.UpdateWhileProcessing(i);
    if count == 0 {
      AnswerMeans(db, i, Some(DecidedConcurrently));
      r := Some(DecidedConcurrently);
      return;
    }
    var row;
    row, k := LogAndCommit(db, i, turns, k);
    if row.None? { r := Died(db, i); return; }
    r := AnswerStored(db, i, row.value, turns, k);
  }

  /** Answering is the process's own last step. */
  method ReplyAt(db: Database, i: ProcessId, reply: FakeBank.Reply, now: Instant) returns (r: Option<FakeBank.Reply>)
    requires db.Valid() && i in db.processes && !Waits(db.cfg, db.Snapshot(), i, db.processes[i])
    requires Execute(db.cfg, db.Snapshot(), i, db.processes[i], now, 0)
               == Put(db.Snapshot(), i, FakeBank.Answer(db.processes[i], reply))
    modifies db
    ensures db.Valid() && old(db.trace) <= db.trace && r == Some(reply) && Over(db, i, old(db.processes[i]).task, r)
    ensures i in db.processes && db.processes[i].task == old(db.processes[i]).task && (old(db.Alone(i)) ==> db.Alone(i))
  {
    db.Move(i, FakeBank.Answer(db.processes[i], reply), now, 0);
    AnswerMeans(db, i, Some(reply));
    r := Some(reply);
  }
}
