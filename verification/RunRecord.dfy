/** Benchmark Run records: their cross-field rules, the shape of their scenario lists, and what
    becomes of the record of a process that died. */
module RunRecord {
  import opened Options

  type Time = int
  type RunId = string

  datatype Kind = Native | Imported
  datatype RunStatus = Running | Complete | Incomplete
  datatype ScenarioStatus = Pending | Active | Completed | Failed

  datatype Metric = Metric(key: string, value: real)

  datatype Scenario = Scenario(id: string, status: ScenarioStatus, startedAt: Option<Time>, finishedAt: Option<Time>,
                               durationMs: Option<int>, metrics: seq<Metric>)

  datatype Artifact = Artifact(id: string, scenarioId: Option<string>, legacyFile: Option<string>)

  /** Why a Run is INCOMPLETE; the texts are left out. */
  datatype Cause =
    | PreparationFailed | CouldNotStart | Interrupted | NoResult | ExitedWith(code: Option<int>) | OwnerGone(pid: int)

  datatype Failure = Failure(scenarioId: Option<string>, exitStatus: Option<int>, cause: Cause)

  datatype Summary = Summary(runId: RunId, kind: Kind, status: RunStatus, startedAt: Time, finishedAt: Option<Time>,
                             durationMs: Option<int>, dataset: Option<string>, scenarios: seq<Scenario>,
                             artifacts: seq<Artifact>, failure: Option<Failure>, imported: Option<string>)

  // ---------------------------------------------------------------- the schema's own rules

  predicate NonNegative(d: Option<int>) { d.Some? ==> d.value >= 0 }

  predicate ValidRecord(s: Summary) {
    && (s.status == Running ==> s.finishedAt.None?)
    && (s.status != Running && s.kind != Imported ==> s.finishedAt.Some?)
    && (s.kind != Imported ==> forall a :: a in s.artifacts ==> a.legacyFile.None?)
    && (s.status == Complete ==> forall c :: c in s.scenarios ==> c.status == Completed)
    && (s.status == Incomplete ==> s.failure.Some?)
    && (s.kind == Imported <==> s.imported.Some?)
    && NonNegative(s.durationMs)
    && (forall c :: c in s.scenarios ==> NonNegative(c.durationMs))
  }

  // ---------------------------------------------------------------- the shape of a Run

  /** COMPLETED before scenario `k`, PENDING after it. */
  predicate At(scenarios: seq<Scenario>, k: int) {
    && 0 <= k <= |scenarios|
    && (forall j :: 0 <= j < k ==> scenarios[j].status == Completed)
    && (forall j :: k < j < |scenarios| ==> scenarios[j].status == Pending)
  }

  /** COMPLETED* (ACTIVE or FAILED)? PENDING* */
  ghost predicate InOrder(scenarios: seq<Scenario>) { exists k :: At(scenarios, k) }

  predicate TimesPast(s: Summary, now: Time) {
    && s.startedAt <= now
    && forall c :: c in s.scenarios && c.startedAt.Some? ==> c.startedAt.value <= now
  }

  /** A record that an executor keeps while it runs. */
  ghost predicate RunningRecord(s: Summary, now: Time) {
    && s.kind == Native && s.status == Running && s.failure.None?
    && ValidRecord(s) && InOrder(s.scenarios) && TimesPast(s, now)
  }

  /** A published record. */
  ghost predicate PublishedRecord(s: Summary) {
    && s.status != Running && ValidRecord(s) && InOrder(s.scenarios)
    && forall c :: c in s.scenarios ==> c.status != Active
  }

  // ---------------------------------------------------------------- recovery

  function Closed(c: Scenario, now: Time): Scenario {
    if c.status == Active then
      c.(status := Failed, finishedAt := Some(now),
         durationMs := if c.startedAt.Some? then Some(now - c.startedAt.value) else None)
    else c
  }

  function ClosedAll(scenarios: seq<Scenario>, now: Time): (r: seq<Scenario>)
    ensures |r| == |scenarios| && forall k :: 0 <= k < |r| ==> r[k] == Closed(scenarios[k], now)
  {
    if scenarios == [] then [] else [Closed(scenarios[0], now)] + ClosedAll(scenarios[1..], now)
  }

  function FirstActive(scenarios: seq<Scenario>): Option<string> {
    if scenarios == [] then None
    else if scenarios[0].status == Active then Some(scenarios[0].id)
    else FirstActive(scenarios[1..])
  }

  function Recovered(s: Summary, now: Time, pid: int): Summary {
    s.(scenarios := ClosedAll(s.scenarios, now), status := Incomplete, finishedAt := Some(now),
       durationMs := Some(now - s.startedAt),
       failure := Some(Failure(FirstActive(s.scenarios), None, OwnerGone(pid))))
  }

  /** Recovery gives a publishable record that keeps every measurement and every artifact; only
      the scenario that was running changes, and it FAILED. */
  lemma RecoveryKeepsMeasurements(s: Summary, now: Time, pid: int)
    requires RunningRecord(s, now)
    ensures var r := Recovered(s, now, pid);
            && PublishedRecord(r) && r.status == Incomplete && r.runId == s.runId
            && r.artifacts == s.artifacts && r.dataset == s.dataset && |r.scenarios| == |s.scenarios|
            && forall k :: 0 <= k < |s.scenarios| ==>
                 if s.scenarios[k].status == Active then
                   r.scenarios[k].status == Failed && r.scenarios[k].id == s.scenarios[k].id
                   && r.scenarios[k].metrics == s.scenarios[k].metrics
                   && r.failure.value.scenarioId == Some(s.scenarios[k].id)
                 else r.scenarios[k] == s.scenarios[k]
  {
    hide ValidRecord;
    var r := Recovered(s, now, pid);
    RecoveredIsValid(s, now, pid);
    var k :| At(s.scenarios, k);
    assert At(r.scenarios, k);
    if k < |s.scenarios| && s.scenarios[k].status == Active { FirstActiveAt(s.scenarios, k); }
  }

  lemma RecoveredIsValid(s: Summary, now: Time, pid: int)
    requires s.kind == Native && s.status == Running && ValidRecord(s) && TimesPast(s, now)
    ensures ValidRecord(Recovered(s, now, pid))
    ensures forall c :: c in Recovered(s, now, pid).scenarios ==> c.status != Active
  {
    var r := Recovered(s, now, pid);
    forall c | c in r.scenarios ensures NonNegative(c.durationMs) && c.status != Active {
      var j :| 0 <= j < |r.scenarios| && r.scenarios[j] == c;
      assert s.scenarios[j] in s.scenarios;
    }
  }

  lemma {:induction false} FirstActiveAt(scenarios: seq<Scenario>, k: int)
    requires 0 <= k < |scenarios| && scenarios[k].status == Active
    requires forall j :: 0 <= j < k ==> scenarios[j].status != Active
    ensures FirstActive(scenarios) == Some(scenarios[k].id)
  {
    if k > 0 { FirstActiveAt(scenarios[1..], k - 1); }
  }
}
