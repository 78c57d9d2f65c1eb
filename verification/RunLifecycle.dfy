/** A Benchmark Run from lock to published Summary, by a process that may die before any write. */
module RunLifecycle {
  import opened Options
  import opened RunRecord

  datatype LockRecord = LockRecord(pid: int, runId: Option<RunId>)

  // ---------------------------------------------------------------- what the outside world answers

  datatype Preparation = Prepared(fingerprint: string) | PreparationRaised

  /** `evidence`: the files a scenario left behind. `aborted`: whether the Run was told to stop. */
  datatype Execution =
    | DidNotStart
    | Exited(code: Option<int>, metrics: Option<seq<Metric>>, evidence: seq<string>, aborted: bool)

  datatype Suite = Suite(scenarioIds: seq<string>, preparation: Preparation, executions: seq<Execution>)

  predicate Succeeded(e: Execution) { e.Exited? && e.code == Some(0) && e.metrics.Some? }

  /** How many scenarios complete before the first that does not. */
  function Successes(executions: seq<Execution>): (n: nat)
    ensures n <= |executions|
    ensures forall k :: 0 <= k < n ==> Succeeded(executions[k])
    ensures n < |executions| ==> !Succeeded(executions[n])
  {
    if executions == [] || !Succeeded(executions[0]) then 0 else 1 + Successes(executions[1..])
  }

  // ---------------------------------------------------------------- the record of a running process

  function Planned(ids: seq<string>): (r: seq<Scenario>)
    ensures |r| == |ids| && forall k :: 0 <= k < |r| ==> r[k] == Scenario(ids[k], Pending, None, None, None, [])
  {
    if ids == [] then [] else [Scenario(ids[0], Pending, None, None, None, [])] + Planned(ids[1..])
  }

  function NewRecord(runId: RunId, now: Time, ids: seq<string>): Summary {
    Summary(runId, Native, Running, now, None, None, None, Planned(ids), [], None, None)
  }

  function Activated(s: Summary, k: nat, now: Time): Summary
    requires k < |s.scenarios|
  {
    s.(scenarios := s.scenarios[k := s.scenarios[k].(status := Active, startedAt := Some(now))])
  }

  function EvidenceOf(id: string, files: seq<string>): (r: seq<Artifact>)
    ensures forall a :: a in r ==> a.legacyFile.None?
  {
    if files == [] then [] else [Artifact(files[0], Some(id), None)] + EvidenceOf(id, files[1..])
  }

  function ArtifactsOf(id: string, e: Execution): (r: seq<Artifact>)
    ensures forall a :: a in r ==> a.legacyFile.None?
  {
    if e.DidNotStart? then [] else [Artifact(id + "-log", Some(id), None)] + EvidenceOf(id, e.evidence)
  }

  /** The record after scenario `k` ended. */
  function Ended(s: Summary, k: nat, start: Time, now: Time, e: Execution): Summary
    requires k < |s.scenarios|
  {
    var c := s.scenarios[k].(finishedAt := Some(now), durationMs := Some(now - start),
                             status := if Succeeded(e) then Completed else Failed,
                             metrics := if Succeeded(e) then e.metrics.value else s.scenarios[k].metrics);
    s.(scenarios := s.scenarios[k := c], artifacts := s.artifacts + ArtifactsOf(c.id, e))
  }

  function FailureOf(id: string, e: Execution): Failure {
    if e.DidNotStart? then Failure(Some(id), None, CouldNotStart)
    else if e.aborted then Failure(Some(id), None, Interrupted)
    else if e.code == Some(0) then Failure(Some(id), e.code, NoResult)
    else Failure(Some(id), e.code, ExitedWith(e.code))
  }

  function Finished(s: Summary, now: Time, failure: Option<Failure>): Summary {
    s.(status := if failure.Some? then Incomplete else Complete, failure := failure,
       finishedAt := Some(now), durationMs := Some(now - s.startedAt))
  }

  /** The first `k` scenarios completed as they ran; the others have not begun. */
  ghost predicate DoneUpTo(s: Summary, k: int, suite: Suite) {
    && |s.scenarios| == |suite.scenarioIds| == |suite.executions| && 0 <= k <= |s.scenarios|
    && (forall j :: 0 <= j < |s.scenarios| ==> s.scenarios[j].id == suite.scenarioIds[j])
    && (forall j :: 0 <= j < k ==>
          s.scenarios[j].status == Completed && Succeeded(suite.executions[j])
          && s.scenarios[j].metrics == suite.executions[j].metrics.value)
    && (forall j :: k <= j < |s.scenarios| ==> s.scenarios[j].status == Pending)
  }

  /** Scenario `k` ran and did not complete. */
  ghost predicate FailedAt(s: Summary, k: int, suite: Suite) {
    && 0 <= k < |s.scenarios| == |suite.scenarioIds| == |suite.executions|
    && s.scenarios[k].status == Failed && !Succeeded(suite.executions[k])
    && (forall j :: 0 <= j < |s.scenarios| ==> s.scenarios[j].id == suite.scenarioIds[j])
    && (forall j :: 0 <= j < k ==>
          s.scenarios[j].status == Completed && Succeeded(suite.executions[j])
          && s.scenarios[j].metrics == suite.executions[j].metrics.value)
    && (forall j :: k < j < |s.scenarios| ==> s.scenarios[j].status == Pending)
  }

  /** What a Run that came to its end measured: nothing if it could not be prepared, else every
      scenario up to the first that did not complete. */
  ghost predicate Faithful(s: Summary, failed: bool, suite: Suite) {
    if suite.preparation.PreparationRaised? then failed && DoneUpTo(s, 0, suite)
    else if Successes(suite.executions) == |suite.executions| then !failed && DoneUpTo(s, |s.scenarios|, suite)
    else failed && FailedAt(s, Successes(suite.executions), suite)
  }

  /** The failure a Run reports names what went wrong first. */
  function FailureFor(suite: Suite): Option<Failure> {
    var k := Successes(suite.executions);
    if suite.preparation.PreparationRaised? then Some(Failure(None, None, PreparationFailed))
    else if k < |suite.executions| && k < |suite.scenarioIds|
    then Some(FailureOf(suite.scenarioIds[k], suite.executions[k]))
    else None
  }

  lemma NewRecordOk(runId: RunId, now: Time, suite: Suite)
    requires |suite.scenarioIds| == |suite.executions|
    ensures var s := NewRecord(runId, now, suite.scenarioIds);
            RunningRecord(s, now) && DoneUpTo(s, 0, suite) && s.runId == runId
  {
    assert At(NewRecord(runId, now, suite.scenarioIds).scenarios, 0);
  }

  lemma ActivatedOk(s: Summary, k: nat, start: Time, suite: Suite)
    requires RunningRecord(s, start) && DoneUpTo(s, k, suite) && k < |s.scenarios|
    ensures RunningRecord(Activated(s, k, start), start)
  {
    assert At(Activated(s, k, start).scenarios, k);
  }

  lemma EndedOk(s: Summary, k: nat, start: Time, now: Time, suite: Suite)
    requires RunningRecord(s, start) && DoneUpTo(s, k, suite) && k < |s.scenarios| && start <= now
    ensures var e := suite.executions[k];
            var after := Ended(Activated(s, k, start), k, start, now, e);
            && RunningRecord(after, now) && after.runId == s.runId && after.startedAt == s.startedAt
            && if Succeeded(e) then DoneUpTo(after, k + 1, suite) else FailedAt(after, k, suite)
  {
    assert At(Ended(Activated(s, k, start), k, start, now, suite.executions[k]).scenarios, k);
  }

  lemma FinishedOk(s: Summary, now: Time, failure: Option<Failure>, suite: Suite)
    requires RunningRecord(s, now) && Faithful(s, failure.Some?, suite)
    ensures PublishedRecord(Finished(s, now, failure)) && Faithful(Finished(s, now, failure), failure.Some?, suite)
  {
  }

  /** What recovery made of a record, at some time. */
  ghost predicate RecoveredFrom(s: Summary, r: Summary) {
    exists now, pid :: r == Recovered(s, now, pid)
  }

  /** Of the records `left` behind, those without a Summary `before` have one now, from recovery. */
  ghost predicate AllRecovered(left: map<RunId, Summary>, before: map<RunId, Summary>, now: map<RunId, Summary>) {
    forall id :: id in left && id !in before ==> id in now && RecoveredFrom(left[id], now[id])
  }

  // ---------------------------------------------------------------- files, clock and death

  /** How a Run ends: refused before anything is written, given up for local changes once it holds
      the lock, dead, published, or with a name that is taken. */
  datatype End =
    | UnsafeScenarioId | ActiveRun(owner: LockRecord) | DirtyWorktree | Died
    | Published(summary: Summary) | AlreadyPublished(runId: RunId)

  /** The lock file, the state files, the published Summaries, the names for which a temporary file
      lies beside them, and the clock. `writesLeft` is how
      many more writes the present process lives to make. */
  class Machine {
    var lock: Option<LockRecord>
    var states: map<RunId, Summary>
    var summaries: map<RunId, Summary>
    var temporary: set<RunId>
    var time: Time
    var writesLeft: nat

    constructor (writes: nat)
      ensures Valid() && lock.None? && states == map[] && summaries == map[] && writesLeft == writes
    {
      lock, states, summaries, temporary, time, writesLeft := None, map[], map[], {}, 0, writes;
    }

    ghost predicate RecordsOk()
      reads this
    {
      && (forall id :: id in states ==> states[id].runId == id && RunningRecord(states[id], time))
      && (forall id :: id in summaries ==> summaries[id].runId == id && PublishedRecord(summaries[id]))
    }

    /** A state that is not published yet is the one the lock names. */
    ghost predicate Valid()
      reads this
    {
      && RecordsOk()
      && forall id :: id in states ==> id in summaries || (lock.Some? && lock.value.runId == Some(id))
    }

    /** Published Summaries are never replaced or removed. */
    twostate predicate KeepsPublished()
      reads this
    {
      forall id :: id in old(summaries) ==> id in summaries && summaries[id] == old(summaries[id])
    }

    method Now() returns (t: Time)
      modifies this`time
      ensures t == time >= old(time)
    {
      t :| t >= time;
      time := t;
    }

    method Write() returns (alive: bool)
      modifies this`writesLeft
      ensures alive == (old(writesLeft) > 0) && writesLeft == if alive then old(writesLeft) - 1 else 0
    {
      alive := writesLeft > 0;
      if alive { writesLeft := writesLeft - 1; }
    }

    method WriteState(s: Summary) returns (alive: bool)
      modifies this`states, this`writesLeft
      ensures old(writesLeft) >= 1 ==> alive && writesLeft >= old(writesLeft) - 1
      ensures states == if alive then old(states)[s.runId := s] else old(states)
    {
      alive := Write();
      if alive { states := states[s.runId := s]; }
    }

    method RemoveState(id: RunId) returns (alive: bool)
      modifies this`states, this`writesLeft
      ensures old(writesLeft) >= 1 ==> alive && writesLeft >= old(writesLeft) - 1
      ensures states == if alive then old(states) - {id} else old(states)
    {
      alive := Write();
      if alive { states := states - {id}; }
    }

    /** Writes a temporary file, links it into place, which fails when the target exists, and unlinks
        it. A process that dies in between may leave the temporary file, or have published. */
    method PublishSummary(s: Summary) returns (alive: bool, exists_: bool)
      modifies this`summaries, this`temporary, this`writesLeft
      ensures old(writesLeft) >= 3 ==> alive && writesLeft >= old(writesLeft) - 3
      ensures alive ==> exists_ == (s.runId in old(summaries)) && temporary == old(temporary) - {s.runId}
      ensures alive && !exists_ ==> summaries == old(summaries)[s.runId := s]
      ensures summaries == old(summaries)
              || (s.runId !in old(summaries) && summaries == old(summaries)[s.runId := s])
      ensures temporary <= old(temporary) + {s.runId}
    {
      exists_ := s.runId in summaries;
      alive := Write();
      if !alive { return; }
      temporary := temporary + {s.runId};
      alive := Write();
      if !alive { return; }
      if !exists_ { summaries := summaries[s.runId := s]; }
      alive := Write();
      if alive { temporary := temporary - {s.runId}; }
    }

    method WriteLock(record: LockRecord) returns (alive: bool)
      modifies this`lock, this`writesLeft
      ensures old(writesLeft) >= 1 ==> alive && writesLeft >= old(writesLeft) - 1
      ensures lock == if alive then Some(record) else old(lock)
    {
      alive := Write();
      if alive { lock := Some(record); }
    }

    method RemoveLock() returns (alive: bool)
      modifies this`lock, this`writesLeft
      ensures alive == (old(writesLeft) >= 1) && writesLeft >= old(writesLeft) - 1
      ensures lock == if alive then None else old(lock)
    {
      alive := Write();
      if alive { lock := None; }
    }

    // -------------------------------------------------------------- recovery

    /** Finishes what a dead process left: afterwards its Run is published, exactly as it was or as
        `Recovered`, and its state is gone. Dying on the way leaves something to finish. */
    method RecoverAbandonedRun(record: LockRecord) returns (alive: bool)
      requires Valid() && lock == Some(record)
      modifies this`states, this`summaries, this`temporary, this`time, this`writesLeft
      ensures old(writesLeft) >= 4 ==> alive && writesLeft >= old(writesLeft) - 4
      ensures Valid() && KeepsPublished() && time >= old(time)
      ensures alive ==> forall id :: id in states ==> id in summaries
      ensures alive ==> forall id :: id in old(states) ==> id in summaries
      ensures forall id :: id in states ==> id in old(states) && states[id] == old(states[id])
      ensures forall id :: id in summaries && id !in old(summaries) ==>
                id in old(states) && RecoveredFrom(old(states)[id], summaries[id])
    {
      hide RunningRecord, PublishedRecord, Recovered;
      if record.runId.None? { return true; }
      var id := record.runId.value;
      if id !in states { return true; }
      var state := states[id];
      if id in summaries {
        alive := RemoveState(id);
        return;
      }
      var finishedAt := Now();
      var recovered := Recovered(state, finishedAt, record.pid);
      StillRunning(state, old(time), finishedAt);
      RecoveryKeepsMeasurements(state, finishedAt, record.pid);
      AllStillRunning(states, old(time), finishedAt);
      var exists_;
      alive, exists_ := PublishSummary(recovered);
      if !alive { return; }
      alive := RemoveState(id);
    }

    /** Takes the lock, after finishing the Run of a stale one. A live owner is not disturbed. The
        second attempt always succeeds: no other process takes the lock meanwhile. */
    method AcquireLock(pid: int, isAlive: int -> bool) returns (alive: bool, owner: Option<LockRecord>)
      requires Valid()
      modifies this
      ensures owner == if old(lock).Some? && isAlive(old(lock).value.pid) then old(lock) else None
      ensures owner.Some? ==> lock == old(lock) && states == old(states) && summaries == old(summaries)
      ensures old(writesLeft) >= 6 ==> alive && writesLeft >= old(writesLeft) - 6
      ensures Valid() && KeepsPublished() && time >= old(time)
      ensures alive && owner.None? ==>
                lock == Some(LockRecord(pid, None)) && forall id :: id in old(states) ==> id in summaries
      ensures alive && owner.None? ==> AllRecovered(old(states), old(summaries), summaries)
      ensures forall id :: id in summaries ==> id in old(summaries) || id in old(states)
    {
      hide RunningRecord, PublishedRecord, RecoveredFrom;
      owner := None;
      var attempt := 0;
      while attempt < 2
        invariant 0 <= attempt <= 2 && Valid() && KeepsPublished() && time >= old(time)
        invariant forall id :: id in old(states) ==> id in states || id in summaries
        invariant attempt == 0 ==> lock == old(lock) && states == old(states) && summaries == old(summaries)
        invariant attempt == 1 ==> lock.None? && forall id :: id in old(states) ==> id in summaries
        invariant attempt == 1 ==> old(lock).Some? && !isAlive(old(lock).value.pid)
        invariant attempt < 2
        invariant old(writesLeft) >= 6 ==> writesLeft >= old(writesLeft) - 5 * attempt
        invariant forall id :: id in summaries ==>
                    id in old(summaries) || (id in old(states) && RecoveredFrom(old(states)[id], summaries[id]))
        invariant forall id :: id in states ==> id in old(states) && states[id] == old(states)[id]
      {
        if lock.None? {
          alive := WriteLock(LockRecord(pid, None));
          return;
        }
        if isAlive(lock.value.pid) {
          return true, lock;
        }
        alive := RecoverAbandonedRun(lock.value);
        if !alive { return; }
        alive := RemoveLock();
        if !alive { return; }
        attempt := attempt + 1;
      }
      assert false;
    }

    // -------------------------------------------------------------- the executor

    /** Validates and writes the RUNNING record of the Run that holds the lock. */
    method Persist(state: Summary) returns (alive: bool)
      requires Valid() && RunningRecord(state, time)
      requires lock.Some? && lock.value.runId == Some(state.runId)
      modifies this`states, this`writesLeft
      ensures old(writesLeft) >= 1 ==> alive && writesLeft >= old(writesLeft) - 1
      ensures Valid()
      ensures states == if alive then old(states)[state.runId := state] else old(states)
    {
      alive := WriteState(state);
    }

    ghost predicate OnDisk(s: Summary)
      reads this
    {
      s.runId in states && states[s.runId] == s
    }

    /** One turn of the scenario loop. */
    method RunScenario(before: Summary, k: nat, suite: Suite)
      returns (alive: bool, state: Summary, failure: Option<Failure>)
      requires Valid() && RunningRecord(before, time) && DoneUpTo(before, k, suite) && k < |before.scenarios|
      requires lock.Some? && lock.value.runId == Some(before.runId)
      modifies this`states, this`time, this`writesLeft
      ensures old(writesLeft) >= 2 ==> alive && writesLeft >= old(writesLeft) - 2
      ensures alive ==> OnDisk(state)
      ensures Valid() && time >= old(time)
      ensures forall id :: id in states ==> id in old(states) || id == before.runId
      ensures alive ==> RunningRecord(state, time) && state.runId == before.runId && state.startedAt == before.startedAt
      ensures alive ==>
                failure == if Succeeded(suite.executions[k]) then None
                           else Some(FailureOf(suite.scenarioIds[k], suite.executions[k]))
      ensures alive && failure.None? ==> DoneUpTo(state, k + 1, suite)
      ensures alive && failure.Some? ==> FailedAt(state, k, suite)
    {
      var e := suite.executions[k];
      hide RunningRecord, DoneUpTo, FailedAt;
      failure := None;
      var start := Now();
      StillRunning(before, old(time), start);
      AllStillRunning(states, old(time), start);
      ActivatedOk(before, k, start, suite);
      state := Activated(before, k, start);
      alive := Persist(state);
      if !alive { return; }

      var end := Now();
      AllStillRunning(states, start, end);
      EndedOk(before, k, start, end, suite);
      state := Ended(state, k, start, end, e);
      alive := Persist(state);
      if !Succeeded(e) { failure := Some(FailureOf(suite.scenarioIds[k], e)); }
    }

    /** The scenarios in order, up to the first that does not complete. */
    method RunScenarios(before: Summary, suite: Suite) returns (alive: bool, state: Summary, failure: Option<Failure>)
      requires Valid() && OnDisk(before) && RunningRecord(before, time) && DoneUpTo(before, 0, suite)
      requires lock.Some? && lock.value.runId == Some(before.runId)
      modifies this`states, this`time, this`writesLeft
      ensures old(writesLeft) >= 2 * |suite.scenarioIds| ==>
                alive && writesLeft >= old(writesLeft) - 2 * |suite.scenarioIds|
      ensures alive ==> OnDisk(state)
      ensures Valid() && time >= old(time)
      ensures forall id :: id in states ==> id in old(states) || id == before.runId
      ensures alive ==> RunningRecord(state, time) && state.runId == before.runId && state.startedAt == before.startedAt
      ensures alive && failure.None? ==>
                DoneUpTo(state, |state.scenarios|, suite) && Successes(suite.executions) == |suite.executions|
      ensures alive && failure.Some? ==>
                var k := Successes(suite.executions);
                FailedAt(state, k, suite) && failure == Some(FailureOf(suite.scenarioIds[k], suite.executions[k]))
    {
      hide RunningRecord, Successes;
      state, failure := before, None;
      var k := 0;
      while k < |suite.scenarioIds| && failure.None?
        invariant 0 <= k <= |suite.scenarioIds|
        invariant old(writesLeft) >= 2 * |suite.scenarioIds| ==> writesLeft >= old(writesLeft) - 2 * k
        invariant Valid() && time >= old(time) && RunningRecord(state, time) && OnDisk(state)
        invariant state.runId == before.runId && state.startedAt == before.startedAt
        invariant forall id :: id in states ==> id in old(states) || id == before.runId
        invariant failure.None? ==> DoneUpTo(state, k, suite)
        invariant failure.Some? ==>
                    k > 0 && FailedAt(state, k - 1, suite)
                    && failure == Some(FailureOf(suite.scenarioIds[k - 1], suite.executions[k - 1]))
      {
        alive, state, failure := RunScenario(state, k, suite);
        if !alive { return; }
        k := k + 1;
      }
      alive := true;
      SuccessesAre(suite.executions, if failure.None? then k else k - 1);
    }

    /** What a published Summary keeps of the state it finishes. */
    ghost predicate Finishes(s: Summary, state: Summary, failure: Option<Failure>, suite: Suite) {
      && s.runId == state.runId && s.startedAt == state.startedAt
      && s.scenarios == state.scenarios && s.failure == failure && s.artifacts == state.artifacts
      && s.status == (if failure.Some? then Incomplete else Complete) && Faithful(s, failure.Some?, suite)
    }

    /** The final Summary goes where no other one may be. */
    method PublishFinal(state: Summary, failure: Option<Failure>, suite: Suite)
      returns (alive: bool, taken: bool, summary: Summary)
      requires Valid() && RunningRecord(state, time) && Faithful(state, failure.Some?, suite)
      modifies this`summaries, this`temporary, this`time, this`writesLeft
      ensures old(writesLeft) >= 3 ==> alive && writesLeft >= old(writesLeft) - 3
      ensures Valid() && KeepsPublished() && Finishes(summary, state, failure, suite)
      ensures alive ==> taken == (state.runId in old(summaries)) && state.runId !in temporary
      ensures alive ==> summaries == if taken then old(summaries) else old(summaries)[state.runId := summary]
    {
      hide RunningRecord, PublishedRecord, Faithful;
      var finishedAt := Now();
      StillRunning(state, old(time), finishedAt);
      AllStillRunning(states, old(time), finishedAt);
      FinishedOk(state, finishedAt, failure, suite);
      summary := Finished(state, finishedAt, failure);
      alive, taken := PublishSummary(summary);
    }

    /** The end of a Run: publish, clean up, release the lock. A name that is taken is refused. */
    method Publish(state: Summary, failure: Option<Failure>, suite: Suite) returns (end: End)
      requires Valid() && RunningRecord(state, time) && lock.Some? && lock.value.runId == Some(state.runId)
      requires Faithful(state, failure.Some?, suite) && OnDisk(state)
      modifies this
      ensures old(writesLeft) >= 5 ==> !end.Died?
      ensures Valid() && KeepsPublished() && (end.Died? || end.Published? || end.AlreadyPublished?)
      ensures !end.Died? ==>
                && lock.None? && state.runId in summaries && state.runId !in temporary
                && forall id :: id in old(states) ==> id in summaries
      ensures end.AlreadyPublished? ==>
                && end.runId == state.runId && state.runId in old(summaries)
                && summaries == old(summaries) && OnDisk(state)
      ensures end.Published? ==>
                && Finishes(end.summary, state, failure, suite)
                && state.runId !in old(summaries) && summaries[state.runId] == end.summary && state.runId !in states
    {
      hide RunningRecord, PublishedRecord, Finishes;
      var alive, taken, summary := PublishFinal(state, failure, suite);
      if !alive { return Died; }
      if taken {
        alive := RemoveLock();
        return if alive then AlreadyPublished(state.runId) else Died;
      }
      alive := RemoveState(state.runId);
      if !alive { return Died; }
      alive := RemoveLock();
      end := if alive then Published(summary) else Died;
    }

    /** The name, once the lock is held, and the first record. */
    method Begin(pid: int, suite: Suite, runIdAt: Time -> RunId) returns (alive: bool, state: Summary)
      requires Valid() && |suite.scenarioIds| == |suite.executions|
      requires lock == Some(LockRecord(pid, None)) && forall id :: id in states ==> id in summaries
      modifies this`lock, this`states, this`time, this`writesLeft
      ensures old(writesLeft) >= 2 ==> alive && writesLeft >= old(writesLeft) - 2
      ensures Valid() && time >= old(time)
      ensures alive ==>
                && RunningRecord(state, time) && DoneUpTo(state, 0, suite) && OnDisk(state)
                && state.runId == runIdAt(state.startedAt) && lock.Some? && lock.value.runId == Some(state.runId)
    {
      hide RunningRecord, PublishedRecord, DoneUpTo;
      var startedAt := Now();
      AllStillRunning(states, old(time), startedAt);
      var runId := runIdAt(startedAt);
      state := NewRecord(runId, startedAt, suite.scenarioIds);
      NewRecordOk(runId, startedAt, suite);
      alive := WriteLock(LockRecord(pid, Some(runId)));
      if !alive { return; }
      alive := Persist(state);
    }

    /** Preparation, and the scenarios if it succeeds. */
    method Execute(before: Summary, suite: Suite) returns (alive: bool, state: Summary, failure: Option<Failure>)
      requires Valid() && RunningRecord(before, time) && DoneUpTo(before, 0, suite)
      requires lock.Some? && lock.value.runId == Some(before.runId) && OnDisk(before)
      modifies this`states, this`time, this`writesLeft
      ensures alive ==> OnDisk(state) && state.startedAt == before.startedAt
      ensures old(writesLeft) >= 2 * |suite.scenarioIds| + 1 ==>
                alive && writesLeft >= old(writesLeft) - (2 * |suite.scenarioIds| + 1)
      ensures Valid() && time >= old(time)
      ensures forall id :: id in states ==> id in old(states) || id == before.runId
      ensures alive ==>
                RunningRecord(state, time) && state.runId == before.runId && Faithful(state, failure.Some?, suite)
      ensures alive ==> failure == FailureFor(suite)
    {
      hide RunningRecord, DoneUpTo, FailedAt, Successes;
      state, failure := before, None;
      match suite.preparation {
        case PreparationRaised =>
          failure := Some(Failure(None, None, PreparationFailed));
          alive := true;
        case Prepared(fingerprint) =>
          PreparedOk(state, fingerprint, time, suite);
          state := state.(dataset := Some(fingerprint));
          alive := Persist(state);
          if !alive { return; }
          alive, state, failure := RunScenarios(state, suite);
          if alive && failure.Some? { NotAll(state, suite); }
      }
    }

    /** A name is taken when a Summary, or the state of a Run that recovery will publish, has it. */
    ghost predicate Recorded(id: RunId)
      reads this
    {
      id in summaries || id in states
    }

    /** From lock to published Summary. Whenever the process dies, what is on disk is in order, no
        published Summary has changed, and the next Run to take the lock finishes this one. A Run
        that comes to its end is refused exactly when its name was recorded before it began; its own
        state is then left on disk. With local changes in the work tree it gives the lock back, after
        what an earlier death left is recovered. */
    method RunBenchmark(pid: int, suite: Suite, runIdAt: Time -> RunId, safe: string -> bool, isAlive: int -> bool,
                        clean: bool)
      returns (end: End, startedAt: Time)
      requires Valid() && |suite.scenarioIds| == |suite.executions|
      modifies this
      ensures old(writesLeft) >= 2 * |suite.scenarioIds| + 14 ==> !end.Died?
      ensures Valid() && KeepsPublished()
      ensures end.UnsafeScenarioId? <==> exists id :: id in suite.scenarioIds && !safe(id)
      ensures end.ActiveRun? <==> !end.UnsafeScenarioId? && old(lock).Some? && isAlive(old(lock).value.pid)
      ensures end.ActiveRun? ==> Some(end.owner) == old(lock)
      ensures end.UnsafeScenarioId? || end.ActiveRun? ==>
                lock == old(lock) && states == old(states) && summaries == old(summaries)
      ensures end.DirtyWorktree? ==> !clean && forall id :: id in summaries ==> old(Recorded(id))
      ensures end.Published? || end.AlreadyPublished? ==> clean && runIdAt(startedAt) !in temporary
      ensures end.Published? || end.AlreadyPublished? || end.DirtyWorktree? ==>
                && lock.None? && AllRecovered(old(states), old(summaries), summaries)
                && forall id :: id in old(states) ==> id in summaries
      ensures end.Published? || end.AlreadyPublished? ==> (end.AlreadyPublished? <==> old(Recorded(runIdAt(startedAt))))
      ensures end.AlreadyPublished? ==>
                && end.runId == runIdAt(startedAt) && end.runId in summaries && end.runId in states
                && states[end.runId].startedAt == startedAt
                && Faithful(states[end.runId], FailureFor(suite).Some?, suite)
      ensures end.Published? ==>
                var s := end.summary;
                && s.runId == runIdAt(startedAt) && s.startedAt == startedAt
                && s.runId !in old(summaries) && s.runId in summaries && summaries[s.runId] == s && s.runId !in states
                && Faithful(s, s.status == Incomplete, suite) && s.failure == FailureFor(suite)
    {
      hide RunningRecord, PublishedRecord, Faithful, RecordsOk, AllRecovered, RecoveredFrom;
      startedAt := time;
      if exists id :: id in suite.scenarioIds && !safe(id) { return UnsafeScenarioId, time; }
      var alive, owner := AcquireLock(pid, isAlive);
      if owner.Some? { return ActiveRun(owner.value), time; }
      if !alive { return Died, time; }
      StatesRecorded();
      ghost var recovered := summaries;
      if !clean {
        end := GiveUp();
        return;
      }
      end, startedAt := RunLocked(pid, suite, runIdAt);
      RecoveredStays(old(states), old(summaries), recovered, summaries);
    }

    /** The work tree has local changes: the lock is given back. */
    method GiveUp() returns (end: End)
      requires Valid() && forall id :: id in states ==> id in summaries
      modifies this`lock, this`writesLeft
      ensures Valid() && end == (if old(writesLeft) >= 1 then DirtyWorktree else Died)
      ensures end.DirtyWorktree? ==> lock.None?
    {
      var alive := RemoveLock();
      end := if alive then DirtyWorktree else Died;
    }

    lemma StatesRecorded()
      requires Valid() && lock.Some? && lock.value.runId.None?
      ensures forall id :: id in states ==> id in summaries
    {
    }

    /** The Run itself, under the lock. */
    method RunLocked(pid: int, suite: Suite, runIdAt: Time -> RunId) returns (end: End, startedAt: Time)
      requires Valid() && |suite.scenarioIds| == |suite.executions|
      requires lock == Some(LockRecord(pid, None)) && forall id :: id in states ==> id in summaries
      modifies this
      ensures old(writesLeft) >= 2 * |suite.scenarioIds| + 8 ==> !end.Died?
      ensures Valid() && KeepsPublished() && (end.Died? || end.Published? || end.AlreadyPublished?)
      ensures !end.Died? ==> lock.None? && runIdAt(startedAt) !in temporary
      ensures end.AlreadyPublished? ==>
                && end.runId == runIdAt(startedAt) && end.runId in old(summaries) && end.runId in states
                && summaries == old(summaries)
                && states[end.runId].startedAt == startedAt
                && Faithful(states[end.runId], FailureFor(suite).Some?, suite)
      ensures end.Published? ==>
                var s := end.summary;
                && s.runId == runIdAt(startedAt) && s.startedAt == startedAt
                && s.runId !in old(summaries) && s.runId in summaries && summaries[s.runId] == s && s.runId !in states
                && Faithful(s, s.status == Incomplete, suite) && s.failure == FailureFor(suite)
    {
      hide RunningRecord, PublishedRecord, Faithful, RecordsOk;
      var alive, state := Begin(pid, suite, runIdAt);
      startedAt := state.startedAt;
      if !alive { return Died, startedAt; }
      var failure;
      alive, state, failure := Execute(state, suite);
      if !alive { return Died, startedAt; }
      end := Publish(state, failure, suite);
    }
  }

  lemma RecoveredStays(left: map<RunId, Summary>, before: map<RunId, Summary>, now: map<RunId, Summary>,
                       later: map<RunId, Summary>)
    requires AllRecovered(left, before, now) && forall id :: id in now ==> id in later && later[id] == now[id]
    ensures AllRecovered(left, before, later)
  {
  }

  datatype Session = Session(pid: int, suite: Suite, isAlive: int -> bool, clean: bool, writes: nat)

  /** Any number of Runs one after another, each killed after any number of writes: the files stay
      in order and nothing published changes. */
  method RunAll(m: Machine, sessions: seq<Session>, runIdAt: Time -> RunId, safe: string -> bool)
    requires m.Valid()
    requires forall k :: 0 <= k < |sessions| ==>
               |sessions[k].suite.scenarioIds| == |sessions[k].suite.executions|
    modifies m
    ensures m.Valid() && m.KeepsPublished()
  {
    for k := 0 to |sessions|
      invariant m.Valid() && m.KeepsPublished()
    {
      m.writesLeft := sessions[k].writes;
      var session := sessions[k];
      var _, _ := m.RunBenchmark(session.pid, session.suite, runIdAt, safe, session.isAlive, session.clean);
    }
  }

  /** Two Runs in the same second on the same commit: the first is published, the second is refused
      and its state stays on disk beside the Summary of the first. */
  method SameNameTwice(pid: int, suite: Suite, name: RunId) returns (m: Machine, first: End, second: End)
    requires |suite.scenarioIds| == |suite.executions|
    ensures fresh(m) && m.Valid() && first.Published? && second == AlreadyPublished(name)
    ensures name in m.summaries && m.summaries[name] == first.summary && name in m.states
            && m.states[name].status == Running
  {
    hide RunningRecord, PublishedRecord, Faithful, AllRecovered;
    m := new Machine(2 * |suite.scenarioIds| + 14);
    var at;
    first, at := m.RunBenchmark(pid, suite, _ => name, _ => true, _ => false, true);
    m.writesLeft := 2 * |suite.scenarioIds| + 14;
    second, at := m.RunBenchmark(pid, suite, _ => name, _ => true, _ => false, true);
    StateIsRunning(m, name);
  }

  lemma StateIsRunning(m: Machine, id: RunId)
    requires m.Valid() && id in m.states
    ensures m.states[id].status == Running
  {
  }

  lemma NotAll(s: Summary, suite: Suite)
    requires FailedAt(s, Successes(suite.executions), suite)
    ensures Successes(suite.executions) < |suite.executions|
  {
  }

  lemma PreparedOk(s: Summary, fingerprint: string, now: Time, suite: Suite)
    requires RunningRecord(s, now) && DoneUpTo(s, 0, suite)
    ensures RunningRecord(s.(dataset := Some(fingerprint)), now) && DoneUpTo(s.(dataset := Some(fingerprint)), 0, suite)
  {
  }

  lemma {:induction false} SuccessesAre(executions: seq<Execution>, k: nat)
    requires k <= |executions| && forall j :: 0 <= j < k ==> Succeeded(executions[j])
    requires k < |executions| ==> !Succeeded(executions[k])
    ensures Successes(executions) == k
  {
    if k > 0 { SuccessesAre(executions[1..], k - 1); }
  }

  lemma StillRunning(s: Summary, before: Time, now: Time)
    requires RunningRecord(s, before) && before <= now
    ensures RunningRecord(s, now)
  {
  }

  lemma AllStillRunning(states: map<RunId, Summary>, before: Time, now: Time)
    requires before <= now && forall id :: id in states ==> RunningRecord(states[id], before)
    ensures forall id :: id in states ==> RunningRecord(states[id], now)
  {
    forall id | id in states ensures RunningRecord(states[id], now) { StillRunning(states[id], before, now); }
  }
}
