/** What FakeBank promises, over every run. */
module FakeBankProperties {
  import opened Options
  import opened ProviderTransaction
  import opened FakeBank
  import opened FakeBankInvariant
  import opened FakeBankSteps
  import opened FakeBankCommits

  // ---------------------------------------------------------------- every run keeps the invariant

  predicate About(a: Action, i: ProcessId) { !a.Register? && a.process == i }

  lemma RunExtends(cfg: Config, actions: seq<Action>, a: Action)
    ensures Run(cfg, actions + [a]) == Step(cfg, Run(cfg, actions), a)
  {
    assert (actions + [a])[..|actions|] == actions;
  }

  lemma OthersLeave(cfg: Config, s: State, a: Action, i: ProcessId)
    requires i in s.processes && !About(a, i)
    ensures i in Step(cfg, s, a).processes && Step(cfg, s, a).processes[i] == s.processes[i]
  {
  }

  lemma ArriveKeeps(cfg: Config, s: State, i: ProcessId, task: Task)
    requires Inv(cfg, s) && i !in s.processes
    ensures Inv(cfg, Put(s, i, Process(task, Checking, EMPTY, IMMEDIATE_SUCCESS)))
  {
    hide RowsOk, KeysOk, ScenariosOk;
    var t := Put(s, i, Process(task, Checking, EMPTY, IMMEDIATE_SUCCESS));
    forall u | u in t.db.uses ensures UseOk(t, u) { assert UseOk(s, u); }
  }

  lemma NextKeeps(cfg: Config, s: State, i: ProcessId, now: Instant, later: Instant)
    requires Inv(cfg, s) && i in s.processes && !Waits(cfg, s, i, s.processes[i])
    ensures Inv(cfg, Execute(cfg, s, i, s.processes[i], now, later))
  {
    hide Inv, Waits, PrePersist, ConsumeInside, InsertRow, LogOne, Commit, Respond, Replay, ReadAndDecide,
      ApplyDecision;
    match s.processes[i].pc
    case Checking => CheckKeeps(cfg, s, i);
    case PrePersisting => PrePersistKeeps(cfg, s, i);
    case Rejecting(_) => RejectKeeps(cfg, s, i);
    case Consuming => ConsumeInsideKeeps(cfg, s, i);
    case Inserting => InsertRowKeeps(cfg, s, i, now, later);
    case Logging(_) => LogOneKeeps(cfg, s, i);
    case Committing =>
      if s.processes[i].task.Create? { CommitCreationKeeps(cfg, s, i); } else { CommitDecisionKeeps(cfg, s, i); }
    case Responding(_) => RespondKeeps(cfg, s, i);
    case Replaying => ReplayKeeps(cfg, s, i);
    case Reading => ReadAndDecideKeeps(cfg, s, i, now);
    case Updating(_) => ApplyDecisionKeeps(cfg, s, i);
    case _ =>
  }

  lemma StepKeeps(cfg: Config, s: State, a: Action)
    requires Inv(cfg, s)
    ensures Inv(cfg, Step(cfg, s, a))
  {
    hide Inv, Waits, Execute;
    match a
    case Arrive(i, task) => if Step(cfg, s, a) != s { ArriveKeeps(cfg, s, i, task); }
    case Next(i, now, later) => if Step(cfg, s, a) != s { NextKeeps(cfg, s, i, now, later); }
    case Fault(i) => if Step(cfg, s, a) != s { FaultKeeps(cfg, s, i); }
    case Register(_, _, _, _) => RegisterKeeps(cfg, s, a);
  }

  lemma {:induction false} Reachable(cfg: Config, actions: seq<Action>)
    ensures Inv(cfg, Run(cfg, actions))
  {
    if actions != [] {
      Reachable(cfg, actions[..|actions| - 1]);
      StepKeeps(cfg, Run(cfg, actions[..|actions| - 1]), actions[|actions| - 1]);
    }
  }

  // ---------------------------------------------------------------- scenario attempts

  /** Attempts are conserved: what a registration allowed is what is left plus what was used, each
      use belongs to its own process, and it is either the transport error of a process that
      stored nothing or the Outcome of the row that process stored. */
  lemma AttemptConservation(cfg: Config, actions: seq<Action>)
    ensures var db := Run(cfg, actions).db;
            && (forall k :: k in db.scenarios ==>
                  && db.scenarios[k].generation < |db.registrations|
                  && db.registrations[db.scenarios[k].generation] ==
                       Registration(k, db.scenarios[k].outcome, db.scenarios[k].failureCode,
                                    db.scenarios[k].remaining + UseCount(db.uses, db.scenarios[k].generation)))
            && (forall g :: 0 <= g < |db.registrations| ==> UseCount(db.uses, g) <= db.registrations[g].times)
    ensures var uses := Run(cfg, actions).db.uses;
            forall m, n :: 0 <= m < n < |uses| ==> uses[m].process != uses[n].process
    ensures var s := Run(cfg, actions);
            forall u :: u in s.db.uses ==>
              && u.generation < |s.db.registrations|
              && var r := s.db.registrations[u.generation];
                 if u.stored then StoredUse(s.db, u.process, r)
                 else u.process !in s.db.rows && PrePersistence(r.outcome)
                      && u.process in s.processes && RejectedUse(s.processes[u.process], r)
    ensures var db := Run(cfg, actions).db;
            forall id :: id in db.rows ==> (db.rows[id].appliedOutcome.Some? <==> UsedBy(db.uses, id, true))
  {
    Reachable(cfg, actions);
    var s := Run(cfg, actions);
    forall k | k in s.db.scenarios ensures ScenarioOk(cfg, s.db, k) {}
    forall u | u in s.db.uses ensures UseOk(s, u) {}
    forall id | id in s.db.rows && UsedBy(s.db.uses, id, true) ensures s.db.rows[id].appliedOutcome.Some? {
      var g: nat :| Use(g, id, true) in s.db.uses;
      assert UseOk(s, Use(g, id, true));
    }
  }

  /** A creation with its final answer. */
  ghost predicate Answers(s: State, i: ProcessId, reply: Reply) {
    i in s.processes && s.processes[i].pc == Answered(reply)
  }

  /** A replay, and a key conflict, store nothing and use no attempt. */
  lemma ReplaysConsumeNothing(cfg: Config, actions: seq<Action>, i: ProcessId, reply: Reply)
    requires Answers(Run(cfg, actions), i, reply) && (reply.Replayed? || reply.KeyReused?)
    ensures var db := Run(cfg, actions).db;
            i !in db.rows && forall u :: u in db.uses ==> u.process != i
  {
    hide RowsOk, KeysOk, ScenariosOk, ExclusionOk, BufferOk, Run;
    Reachable(cfg, actions);
    var s := Run(cfg, actions);
    forall u | u in s.db.uses ensures u.process != i { assert UseOk(s, u); }
  }

  // ---------------------------------------------------------------- idempotent creation

  /** One row per (client, key). An answered creation points at it: its own new row, or, for the
      same request, the row that is there; another request under the key is rejected. */
  lemma OneRowPerKey(cfg: Config, actions: seq<Action>)
    ensures var db := Run(cfg, actions).db;
            forall a, b :: a in db.rows && b in db.rows ==>
              db.rows[a].client == db.rows[b].client && db.rows[a].key == db.rows[b].key ==> a == b
    ensures var s := Run(cfg, actions);
            forall i, row :: Answers(s, i, Created(row)) ==>
              i in s.db.rows && Evolved(row, s.db.rows[i])
              && s.processes[i].task.Create? && RowFor(cfg, s.processes[i].task.command, s.db.rows[i])
    ensures var s := Run(cfg, actions);
            forall i, row :: Answers(s, i, Replayed(row)) ==>
              && s.processes[i].task.Create? && row.core.id != i
              && SameKeyStored(cfg, s.db, s.processes[i].task.command, row.core.id, true)
              && Evolved(row, s.db.rows[row.core.id])
    ensures var s := Run(cfg, actions);
            forall i :: Answers(s, i, KeyReused) ==>
              && s.processes[i].task.Create?
              && exists id :: SameKeyStored(cfg, s.db, s.processes[i].task.command, id, false)
  {
    hide RowsOk, ScenariosOk, UsesOk, ExclusionOk, BufferOk, Run;
    Reachable(cfg, actions);
    var s := Run(cfg, actions);
    forall i, reply | Answers(s, i, reply) ensures ReplyOk(cfg, s.db, i, s.processes[i].task, reply) {
      assert PcOk(cfg, s.db, i, s.processes[i]);
    }
  }

  /** The branches the code calls unreachable are: no decided transition is refused and no
      conflicting row is missing. */
  lemma UnreachableBranches(cfg: Config, actions: seq<Action>)
    ensures var s := Run(cfg, actions);
            forall i, reply :: Answers(s, i, reply) ==> !reply.Failure?
  {
    hide RowsOk, ScenariosOk, UsesOk, ExclusionOk, BufferOk, Run;
    Reachable(cfg, actions);
    var s := Run(cfg, actions);
    forall i, reply | Answers(s, i, reply) ensures !reply.Failure? { assert PcOk(cfg, s.db, i, s.processes[i]); }
  }

  // ---------------------------------------------------------------- rows and events

  /** The committed events of a row are its creation and, once decided, its one decision. */
  lemma LogAgreesWithRow(cfg: Config, actions: seq<Action>, id: RowId)
    requires id in Run(cfg, actions).db.rows
    ensures var db := Run(cfg, actions).db;
            var core, log := db.rows[id].core, EventsOf(db.events, id);
            && |log| == (if core.status == Processing then 1 else 2)
            && log[0] == Event(id, Processing, None, core.createdAt)
            && log[|log| - 1] == Event(id, core.status, core.failureCode, LastChangedAt(core))
            && db.rows[id].updatedAt == LastChangedAt(core)
            && (core.status == Processing <==> core.completedAt.None?)
            && (core.status == Failed <==> core.failureCode.Some?)
            && OutcomeShown(db.rows[id])
  {
    Reachable(cfg, actions);
    assert RowOk(Run(cfg, actions).db, id);
  }

  /** No event is left over: every committed event belongs to a committed row. */
  lemma NoStrayEvents(cfg: Config, actions: seq<Action>, e: Event)
    requires e in Run(cfg, actions).db.events
    ensures e.transaction in Run(cfg, actions).db.rows
    ensures e in LogOf(Run(cfg, actions).db.rows[e.transaction].core)
  {
    Reachable(cfg, actions);
    var db := Run(cfg, actions).db;
    assert RowOk(db, e.transaction);
    EventIsListed(db.events, e);
  }

  lemma {:induction false} EventIsListed(events: seq<Event>, e: Event)
    requires e in events
    ensures e in EventsOf(events, e.transaction)
  {
    var before, last := events[..|events| - 1], events[|events| - 1];
    assert events == before + [last];
    if last != e { EventIsListed(before, e); }
  }

  // ---------------------------------------------------------------- first decision

  lemma StepGrows(cfg: Config, s: State, a: Action)
    requires Inv(cfg, s)
    ensures Grows(s.db, Step(cfg, s, a).db)
  {
    hide RowsOk, KeysOk, ScenariosOk, UsesOk, ExclusionOk, PcOk;
    if a.Next? && a.process in s.processes {
      var p := s.processes[a.process];
      if p.pc.Committing? {
        assert ProcessOk(cfg, s.db, a.process, p);
        if p.task.Create? { CommitCreationGrows(cfg, s, a.process); } else { CommitDecisionGrows(cfg, s, a.process); }
      }
    }
  }

  lemma CommitCreationGrows(cfg: Config, s: State, i: ProcessId)
    requires i in s.processes && ProcessOk(cfg, s.db, i, s.processes[i])
    requires s.processes[i].pc.Committing? && s.processes[i].task.Create?
    ensures s.processes[i].buffer.row.Some? && Grows(s.db, Commit(s, i, s.processes[i]).db)
  {
    CreationDb(cfg, s, i, Published(s.db, i, s.processes[i].buffer));
  }

  lemma CommitDecisionGrows(cfg: Config, s: State, i: ProcessId)
    requires i in s.processes && ProcessOk(cfg, s.db, i, s.processes[i])
    requires s.processes[i].pc.Committing? && s.processes[i].task.Advance?
    ensures s.processes[i].buffer.row.Some? && Grows(s.db, Commit(s, i, s.processes[i]).db)
  {
  }

  lemma {:induction false} RunGrows(cfg: Config, actions: seq<Action>, more: seq<Action>)
    ensures Grows(Run(cfg, actions).db, Run(cfg, actions + more).db)
  {
    hide Inv, Step;
    if more == [] {
      assert actions + more == actions;
    } else {
      var before := more[..|more| - 1];
      RunGrows(cfg, actions, before);
      assert (actions + more)[..|actions + more| - 1] == actions + before;
      Reachable(cfg, actions + before);
      StepGrows(cfg, Run(cfg, actions + before), more[|more| - 1]);
    }
  }

  /** The first decision stands: whatever happens later, a decided row and its log are final. */
  lemma FirstDecisionStands(cfg: Config, actions: seq<Action>, more: seq<Action>, id: RowId)
    requires id in Run(cfg, actions).db.rows && Run(cfg, actions).db.rows[id].core.status != Processing
    ensures var before, after := Run(cfg, actions).db, Run(cfg, actions + more).db;
            id in after.rows && after.rows[id] == before.rows[id]
              && EventsOf(after.events, id) == EventsOf(before.events, id)
  {
    RunGrows(cfg, actions, more);
    Reachable(cfg, actions);
    Reachable(cfg, actions + more);
    assert RowOk(Run(cfg, actions).db, id) && RowOk(Run(cfg, actions + more).db, id);
  }

  // ---------------------------------------------------------------- who decided

  /** A deferred row that is no longer PROCESSING. */
  predicate IsDecided(db: Db, id: RowId) {
    id in db.rows && db.rows[id].appliedOutcome == Some(Deferred) && db.rows[id].core.status != Processing
  }

  /** A process that decided `id` is about to say so, has said so, or died before it could. */
  predicate Tells(p: Process, id: RowId) {
    p.task.Advance? && p.task.id == id && (p.pc.Responding? || p.pc.Dead? || (p.pc.Answered? && p.pc.reply.Advanced?))
  }

  /** The answer is that the process decided the row. */
  predicate ClaimsDecision(p: Process) {
    p.task.Advance? && (p.pc.Responding? || (p.pc.Answered? && p.pc.reply.Advanced?))
  }

  ghost predicate OneDecider(db: Db) {
    forall m, n :: 0 <= m < n < |db.deciders| ==> db.deciders[m].row != db.deciders[n].row
  }

  ghost predicate DecidersTell(s: State) {
    forall d :: d in s.db.deciders ==>
      IsDecided(s.db, d.row) && d.process in s.processes && Tells(s.processes[d.process], d.row)
  }

  ghost predicate HasDecider(db: Db, id: RowId) {
    exists i: ProcessId :: Decider(id, i) in db.deciders
  }

  ghost predicate DecidedHaveDeciders(db: Db) {
    forall id :: IsDecided(db, id) ==> HasDecider(db, id)
  }

  ghost predicate ClaimsAreTrue(s: State) {
    forall i :: i in s.processes && ClaimsDecision(s.processes[i]) ==>
      Decider(s.processes[i].task.id, i) in s.db.deciders
  }

  ghost predicate DecidersOk(s: State) {
    OneDecider(s.db) && DecidersTell(s) && DecidedHaveDeciders(s.db) && ClaimsAreTrue(s)
  }

  /** The statement that decides a row: the COMMIT of a decision. */
  predicate Deciding(s: State, a: Action) {
    && a.Next? && a.process in s.processes && s.processes[a.process].pc.Committing?
    && s.processes[a.process].task.Advance? && s.processes[a.process].buffer.row.Some?
  }

  lemma DecidersUntouched(cfg: Config, s: State, a: Action)
    requires !Deciding(s, a)
    ensures Step(cfg, s, a).db.deciders == s.db.deciders
  {
    hide Waits, Decide, DecideFor, FindByKey, KeyTaken;
  }

  lemma KeepsTelling(cfg: Config, s: State, a: Action, i: ProcessId, id: RowId)
    requires i in s.processes && Tells(s.processes[i], id)
    ensures i in Step(cfg, s, a).processes && Tells(Step(cfg, s, a).processes[i], id)
  {
    if !About(a, i) { OthersLeave(cfg, s, a, i); }
  }

  /** Only a deciding statement makes a new claim. */
  lemma ClaimedBefore(cfg: Config, s: State, a: Action, i: ProcessId)
    requires !Deciding(s, a) && i in Step(cfg, s, a).processes && ClaimsDecision(Step(cfg, s, a).processes[i])
    ensures i in s.processes && ClaimsDecision(s.processes[i])
            && Step(cfg, s, a).processes[i].task == s.processes[i].task
  {
    if About(a, i) { OwnClaim(cfg, s, a, i); } else { Unmoved(cfg, s, a, i); }
  }

  lemma OwnClaim(cfg: Config, s: State, a: Action, i: ProcessId)
    requires !Deciding(s, a) && About(a, i) && i in Step(cfg, s, a).processes
    requires ClaimsDecision(Step(cfg, s, a).processes[i])
    ensures i in s.processes && ClaimsDecision(s.processes[i])
            && Step(cfg, s, a).processes[i].task == s.processes[i].task
  {
    hide Waits, Decide, Published, DecideFor, FindByKey, KeyTaken;
  }

  lemma Unmoved(cfg: Config, s: State, a: Action, i: ProcessId)
    requires i in Step(cfg, s, a).processes && !About(a, i)
    ensures i in s.processes && Step(cfg, s, a).processes[i] == s.processes[i]
  {
    hide Waits, Decide, Published, DecideFor, FindByKey, KeyTaken;
  }

  /** A row is decided by nothing but a deciding statement: a new deferred row is PROCESSING. */
  lemma NothingElseDecides(cfg: Config, s: State, a: Action, id: RowId)
    requires ProcessesOk(cfg, s) && !Deciding(s, a) && IsDecided(Step(cfg, s, a).db, id)
    ensures IsDecided(s.db, id)
  {
    if !(id in s.db.rows && s.db.rows[id] == Step(cfg, s, a).db.rows[id]) {
      RowsMoveByCommit(cfg, s, a, id);
      var i := a.process;
      assert ProcessOk(cfg, s.db, i, s.processes[i]);
      CreationReady(cfg, s.db, i, s.processes[i]);
      hide ProcessesOk, ProcessOk, TakenOk, KeyTaken, LogOf, WellFormed, Waits;
    }
  }

  lemma RowsMoveByCommit(cfg: Config, s: State, a: Action, id: RowId)
    requires id in Step(cfg, s, a).db.rows && !(id in s.db.rows && s.db.rows[id] == Step(cfg, s, a).db.rows[id])
    ensures a.Next? && a.process in s.processes && s.processes[a.process].pc.Committing?
            && s.processes[a.process].buffer.row.Some? && !Waits(cfg, s, a.process, s.processes[a.process])
  {
    hide Waits, Decide, DecideFor, FindByKey, KeyTaken;
  }

  /** What a deciding statement does: its row was PROCESSING, and now is decided by this process. */
  lemma Decides(cfg: Config, s: State, a: Action)
    requires ProcessesOk(cfg, s) && Deciding(s, a)
    ensures var i, p, t := a.process, s.processes[a.process], Step(cfg, s, a);
            && p.task.id in s.db.rows && s.db.rows[p.task.id].core.status == Processing && IsDecided(t.db, p.task.id)
            && t.db.rows == s.db.rows[p.task.id := t.db.rows[p.task.id]]
            && t.db.deciders == s.db.deciders + [Decider(p.task.id, i)]
            && t.processes == s.processes[i := p.(pc := Responding(p.buffer.row.value), buffer := EMPTY)]
  {
    var i := a.process;
    assert ProcessOk(cfg, s.db, i, s.processes[i]);
    DecisionReady(cfg, s.db, i, s.processes[i]);
    hide ProcessesOk;
    assert Step(cfg, s, a) == Commit(s, i, s.processes[i]);
  }

  lemma DecidersStep(cfg: Config, s: State, a: Action)
    requires ProcessesOk(cfg, s) && DecidersOk(s) && Grows(s.db, Step(cfg, s, a).db)
    ensures DecidersOk(Step(cfg, s, a))
  {
    hide Step, ProcessesOk;
    if Deciding(s, a) { DecidersGrow(cfg, s, a); } else { DecidersStay(cfg, s, a); }
  }

  lemma DecidersStay(cfg: Config, s: State, a: Action)
    requires ProcessesOk(cfg, s) && DecidersOk(s) && Grows(s.db, Step(cfg, s, a).db) && !Deciding(s, a)
    ensures DecidersOk(Step(cfg, s, a))
  {
    hide Step, ProcessesOk;
    var t := Step(cfg, s, a);
    DecidersUntouched(cfg, s, a);
    forall d | d in t.db.deciders ensures d.process in t.processes && Tells(t.processes[d.process], d.row) {
      KeepsTelling(cfg, s, a, d.process, d.row);
    }
    forall i | i in t.processes && ClaimsDecision(t.processes[i])
      ensures Decider(t.processes[i].task.id, i) in t.db.deciders
    {
      ClaimedBefore(cfg, s, a, i);
    }
    forall id | IsDecided(t.db, id) ensures HasDecider(t.db, id) {
      NothingElseDecides(cfg, s, a, id);
      assert HasDecider(s.db, id);
    }
  }

  lemma DecidersGrow(cfg: Config, s: State, a: Action)
    requires ProcessesOk(cfg, s) && DecidersOk(s) && Deciding(s, a)
    ensures DecidersOk(Step(cfg, s, a))
  {
    hide Step, ProcessesOk;
    var t, i, id := Step(cfg, s, a), a.process, s.processes[a.process].task.id;
    Decides(cfg, s, a);
    forall d | d in s.db.deciders ensures d.row != id && d.process != i {}
    assert t.db.deciders[|s.db.deciders|] == Decider(id, i);
    forall other | IsDecided(t.db, other) ensures HasDecider(t.db, other) {
      if other != id {
        assert IsDecided(s.db, other);
        var j: ProcessId :| Decider(other, j) in s.db.deciders;
        assert Decider(other, j) in t.db.deciders;
      }
    }
  }

  lemma {:induction false} DecidersReachable(cfg: Config, actions: seq<Action>)
    ensures DecidersOk(Run(cfg, actions))
  {
    hide Step, DecidersOk, Inv, Grows;
    if actions == [] {
      NobodyDecidedYet();
    } else {
      var before, a := Run(cfg, actions[..|actions| - 1]), actions[|actions| - 1];
      DecidersReachable(cfg, actions[..|actions| - 1]);
      Reachable(cfg, actions[..|actions| - 1]);
      StepGrows(cfg, before, a);
      assert ProcessesOk(cfg, before) by { InvProcesses(cfg, before); }
      DecidersStep(cfg, before, a);
    }
  }

  lemma InvProcesses(cfg: Config, s: State)
    requires Inv(cfg, s)
    ensures ProcessesOk(cfg, s)
  {
  }

  lemma NobodyDecidedYet()
    ensures DecidersOk(Init())
  {
  }

  /** A row has at most one decider, and has one exactly when it is deferred and decided. Who is
      answered `Advanced` is the decider, and is answered with the row as it is stored; but the
      decider may have died before it could answer. */
  lemma OneWinner(cfg: Config, actions: seq<Action>, id: RowId)
    ensures var s := Run(cfg, actions);
            && (HasDecider(s.db, id) <==> IsDecided(s.db, id))
            && (forall i, j :: Decider(id, i) in s.db.deciders && Decider(id, j) in s.db.deciders ==> i == j)
            && (forall i :: Decider(id, i) in s.db.deciders ==> i in s.processes && Tells(s.processes[i], id))
    ensures var s := Run(cfg, actions);
            forall i, row :: Answers(s, i, Advanced(row)) ==>
              && s.processes[i].task.Advance? && Decider(s.processes[i].task.id, i) in s.db.deciders
              && s.processes[i].task.id in s.db.rows && s.db.rows[s.processes[i].task.id] == row
  {
    hide Run, RowsOk, KeysOk, ScenariosOk, UsesOk, ExclusionOk, BufferOk;
    DecidersReachable(cfg, actions);
    Reachable(cfg, actions);
    var s := Run(cfg, actions);
    forall i, row | Answers(s, i, Advanced(row))
      ensures s.processes[i].task.Advance? && Decider(s.processes[i].task.id, i) in s.db.deciders
      ensures s.processes[i].task.id in s.db.rows && s.db.rows[s.processes[i].task.id] == row
    {
      assert PcOk(cfg, s.db, i, s.processes[i]);
    }
  }

  /** Who is told that somebody else decided the row is told the truth: the row is decided, and its
      decider is another process. */
  lemma LosersLostToADecider(cfg: Config, actions: seq<Action>, j: ProcessId)
    requires Answers(Run(cfg, actions), j, DecidedConcurrently)
    ensures var s := Run(cfg, actions);
            && s.processes[j].task.Advance? && Owned(s.db, s.processes[j].task)
            && IsDecided(s.db, s.processes[j].task.id)
            && exists i: ProcessId :: i != j && Decider(s.processes[j].task.id, i) in s.db.deciders
  {
    hide Run, RowsOk, KeysOk, ScenariosOk, UsesOk, ExclusionOk, BufferOk;
    DecidersReachable(cfg, actions);
    Reachable(cfg, actions);
    var s := Run(cfg, actions);
    assert PcOk(cfg, s.db, j, s.processes[j]);
    assert HasDecider(s.db, s.processes[j].task.id);
    var i: ProcessId :| Decider(s.processes[j].task.id, i) in s.db.deciders;
    assert Tells(s.processes[i], s.processes[j].task.id);
  }

  /** Nobody need ever be told: the decider may die between its COMMIT and its answer. */
  lemma DecidedAndNobodyTold(cfg: Config, actions: seq<Action>, i: ProcessId, id: RowId)
    requires var s := Run(cfg, actions);
             && i in s.processes && s.processes[i].pc.Committing?
             && s.processes[i].task.Advance? && s.processes[i].task.id == id
    ensures var s := Run(cfg, actions + [Next(i, 0, 0)] + [Fault(i)]);
            && IsDecided(s.db, id) && Decider(id, i) in s.db.deciders
            && forall j, row :: Answers(s, j, Advanced(row)) ==>
                 s.processes[j].task.Advance? && s.processes[j].task.id != id
  {
    hide Run, DecidersOk, RowsOk, KeysOk, ScenariosOk, UsesOk, ExclusionOk;
    var s, a := Run(cfg, actions), Next(i, 0, 0);
    Reachable(cfg, actions);
    assert ProcessOk(cfg, s.db, i, s.processes[i]);
    DecisionReady(cfg, s.db, i, s.processes[i]);
    Decides(cfg, s, a);
    RunExtends(cfg, actions, a);
    RunExtends(cfg, actions + [a], Fault(i));
    hide ProcessesOk, Step;
    Dies(cfg, Step(cfg, s, a), i);
    OneWinner(cfg, actions + [a] + [Fault(i)], id);
  }

  lemma Dies(cfg: Config, s: State, i: ProcessId)
    requires i in s.processes && s.processes[i].pc.Responding?
    ensures Step(cfg, s, Fault(i)) == Put(s, i, s.processes[i].(pc := Dead, buffer := EMPTY))
  {
  }
}
