/** FakeBank gets on: no request blocks another one for good, and every request ends. */
module FakeBankProgress {
  import opened ProviderTransaction
  import opened FakeBank
  import opened FakeBankInvariant
  import opened FakeBankProperties
  import opened Totals

  predicate Finished(p: Process) { p.pc.Answered? || p.pc.Dead? }

  /** Scenario rows are taken before keys, and nothing is waited for after a key or a row is held:
      no set of requests can block itself. */
  lemma SomeoneCanStep(cfg: Config, s: State, i: ProcessId) returns (j: ProcessId)
    requires ProcessesOk(cfg, s) && i in s.processes && !Finished(s.processes[i])
    ensures j in s.processes && !Finished(s.processes[j]) && !Waits(cfg, s, j, s.processes[j])
  {
    hide ProcessesOk;
    j := i;
    if Waits(cfg, s, j, s.processes[j]) { j := Holder(cfg, s, j); }
    if Waits(cfg, s, j, s.processes[j]) { j := Holder(cfg, s, j); }
  }

  /** A held scenario row has a persisted Outcome, so the first statement never matches it. */
  lemma TransportErrorsNeverWait(cfg: Config, s: State, i: ProcessId)
    requires ProcessesOk(cfg, s) && i in s.processes && s.processes[i].pc.PrePersisting?
    ensures !Waits(cfg, s, i, s.processes[i])
  {
    forall j | j in s.processes ensures BufferOk(cfg, s.db, j, s.processes[j]) {}
  }

  /** Whom a process waits for: a process holding a key or a row, which waits for nobody, or one
      holding a scenario row, which waits at most for a key. */
  lemma Holder(cfg: Config, s: State, i: ProcessId) returns (j: ProcessId)
    requires ProcessesOk(cfg, s) && i in s.processes && Waits(cfg, s, i, s.processes[i])
    ensures j in s.processes && !Finished(s.processes[j])
    ensures s.processes[j].pc.Logging? || s.processes[j].pc.Committing? || s.processes[j].pc.Inserting?
    ensures s.processes[i].pc.Inserting? ==> !Waits(cfg, s, j, s.processes[j])
  {
    hide NewRowOk, TakenOk, DecidedRowOk, PcOk, KeyOf;
    var p := s.processes[i];
    if p.pc.PrePersisting? { TransportErrorsNeverWait(cfg, s, i); }
    match p.pc
    case Consuming => j :| j in s.processes && j != i && HoldsScenario(s.processes[j], KeyOf(p.task.command));
    case Inserting =>
      j :| j in s.processes && j != i && HoldsKey(s.processes[j], p.task.command.client, p.task.command.key);
    case Updating(_) => j :| j in s.processes && j != i && HoldsRow(s.processes[j], p.task.id);
    assert BufferOk(cfg, s.db, j, s.processes[j]);
  }

  // ---------------------------------------------------------------- work

  /** An upper bound on the statements a process still executes. */
  function Remaining(p: Process): nat {
    match p.pc
    case Checking => 12
    case PrePersisting => 11
    case Reading => 11
    case Consuming => 10
    case Updating(_) => 10
    case Inserting => 9
    case Logging(pending) => 4 + |pending|
    case Committing => 3
    case Responding(_) => 2
    case Replaying => 1
    case Rejecting(_) => 1
    case Answered(_) => 0
    case Dead => 0
  }

  function Weights(processes: map<ProcessId, Process>): map<nat, nat> {
    map i | i in processes :: Remaining(processes[i])
  }

  ghost function Work(processes: map<ProcessId, Process>): nat { Total(Weights(processes)) }

  lemma WorkPut(processes: map<ProcessId, Process>, i: ProcessId, p: Process)
    requires i in processes
    ensures Work(processes[i := p]) == Work(processes) - Remaining(processes[i]) + Remaining(p)
  {
    TotalPut(Weights(processes), i, Remaining(p));
    assert Weights(processes[i := p]) == Weights(processes)[i := Remaining(p)];
  }

  /** The step takes effect on a process that is not finished. */
  ghost predicate Effective(cfg: Config, s: State, a: Action) {
    && (a.Next? || a.Fault?) && a.process in s.processes && !Finished(s.processes[a.process])
    && (a.Next? ==> !Waits(cfg, s, a.process, s.processes[a.process]))
  }

  /** A step of a process is nothing, or brings that process alone closer to its end. */
  lemma StepAdvances(cfg: Config, s: State, a: Action)
    requires Effective(cfg, s, a) && ProcessOk(cfg, s.db, a.process, s.processes[a.process])
    ensures var i, t := a.process, Step(cfg, s, a);
            && i in t.processes && t.processes == s.processes[i := t.processes[i]]
            && Remaining(t.processes[i]) < Remaining(s.processes[i])
  {
    hide Waits, Decide, Published, DecideFor, FindByKey, KeyTaken, TakenOk, NewRowOk, DecidedRowOk, ReplyOk, RowFor;
  }

  lemma FinishedHoldsNothing(cfg: Config, s: State, i: ProcessId)
    requires ProcessesOk(cfg, s) && i in s.processes
    ensures Finished(s.processes[i]) ==> s.processes[i].buffer == EMPTY
  {
    assert BufferOk(cfg, s.db, i, s.processes[i]);
  }

  lemma Ineffective(cfg: Config, s: State, a: Action)
    requires ProcessesOk(cfg, s) && !a.Arrive? && !Effective(cfg, s, a)
    ensures Step(cfg, s, a).processes == s.processes
  {
    if a.Fault? && a.process in s.processes { FinishedHoldsNothing(cfg, s, a.process); }
    hide Waits, ProcessesOk;
  }

  /** Termination: a statement that runs, or a fault, uses up work, and only a new request adds any. */
  lemma StepWorks(cfg: Config, s: State, a: Action)
    requires ProcessesOk(cfg, s) && !a.Arrive?
    ensures var t := Step(cfg, s, a);
            && Work(t.processes) <= Work(s.processes)
            && (Effective(cfg, s, a) ==> Work(t.processes) < Work(s.processes))
  {
    hide Step, Work;
    if Effective(cfg, s, a) {
      StepAdvances(cfg, s, a);
      WorkPut(s.processes, a.process, Step(cfg, s, a).processes[a.process]);
    } else {
      Ineffective(cfg, s, a);
    }
  }

  ghost predicate AllFinished(processes: map<ProcessId, Process>) {
    forall i :: i in processes ==> Finished(processes[i])
  }

  /** Nothing gets stuck: from any reachable state, some order of the pending statements alone, no
      longer than the work left and at whatever times the clock shows, ends every request. */
  lemma {:induction false} Drains(cfg: Config, actions: seq<Action>, now: Instant, later: Instant)
    returns (more: seq<Action>)
    ensures forall a :: a in more ==> a.Next? && a.now == now && a.later == later
    ensures |more| <= Work(Run(cfg, actions).processes) && AllFinished(Run(cfg, actions + more).processes)
    decreases Work(Run(cfg, actions).processes)
  {
    hide Run, Step, Work, Waits, Inv, ProcessesOk;
    var s := Run(cfg, actions);
    if AllFinished(s.processes) {
      more := [];
      assert actions + more == actions;
    } else {
      Reachable(cfg, actions);
      InvProcesses(cfg, s);
      var i :| i in s.processes && !Finished(s.processes[i]);
      var j := SomeoneCanStep(cfg, s, i);
      var a := Next(j, now, later);
      StepWorks(cfg, s, a);
      RunExtends(cfg, actions, a);
      var rest := Drains(cfg, actions + [a], now, later);
      more := [a] + rest;
      assert actions + more == actions + [a] + rest;
    }
  }
}
