/** One metric across Benchmark Runs: what is comparable is a point, everything else is listed with
    its reason, and the line drawn through the points never crosses an exclusion. */
module Trend {
  import opened Options
  import RunRecord

  datatype Direction = HigherIsBetter | LowerIsBetter | Neutral
  type Kind = RunRecord.Kind

  type Dimensions = map<string, string>

  datatype Metric = Metric(key: string, title: string, unit: string, direction: Direction, dimensions: Dimensions,
                           value: real)
  datatype Scenario = Scenario(id: string, fingerprint: string, metrics: seq<Metric>)

  /** A start time as written: its place in text order, and the instant it denotes. The two orders
      agree when all are written with the same precision; nothing here assumes it. */
  datatype Stamp = Stamp(text: int, instant: int)

  /** Run ids are numbered in their text order. */
  datatype Run = Run(runId: nat, startedAt: Stamp, kind: Kind, status: RunRecord.RunStatus, environment: string,
                     dataset: string, scenarios: seq<Scenario>, failure: Option<string>)

  datatype Query = Query(scenarioId: string, metricKey: string, dimensions: Dimensions)

  datatype Reason = Changed | EnvironmentIncompatible | DatasetIncompatible | MetricNotRecorded

  datatype Point = Point(runId: nat, startedAt: Stamp, kind: Kind, value: real)
  datatype Exclusion = Exclusion(runId: nat, startedAt: Stamp, reason: Reason)
  datatype IncompleteRun = IncompleteRun(runId: nat, startedAt: Stamp, failure: Option<string>)

  datatype Labels = Labels(title: string, unit: string, direction: Direction)

  datatype Trend = Trend(labels: Option<Labels>, reference: Option<nat>, points: seq<Point>, excluded: seq<Exclusion>,
                         incomplete: seq<IncompleteRun>)

  // ---------------------------------------------------------------- chronological order

  predicate Earlier(a: Run, b: Run) {
    a.startedAt.text < b.startedAt.text || (a.startedAt.text == b.startedAt.text && a.runId <= b.runId)
  }

  predicate Chronological(runs: seq<Run>) {
    forall i, j :: 0 <= i < j < |runs| ==> Earlier(runs[i], runs[j])
  }

  function Insert(r: Run, runs: seq<Run>): seq<Run> {
    if runs == [] || Earlier(r, runs[0]) then [r] + runs else [runs[0]] + Insert(r, runs[1..])
  }

  function Sort(runs: seq<Run>): seq<Run> {
    if runs == [] then [] else Insert(runs[0], Sort(runs[1..]))
  }

  lemma {:induction false} InsertIs(r: Run, runs: seq<Run>)
    ensures multiset(Insert(r, runs)) == multiset(runs) + multiset{r}
  {
    if runs != [] && !Earlier(r, runs[0]) {
      InsertIs(r, runs[1..]);
      assert runs == [runs[0]] + runs[1..];
    }
  }

  lemma {:induction false} InsertKeeps(r: Run, runs: seq<Run>)
    requires Chronological(runs)
    ensures Chronological(Insert(r, runs))
  {
    if runs != [] && !Earlier(r, runs[0]) {
      InsertKeeps(r, runs[1..]);
      InsertIs(r, runs[1..]);
      FirstIsEarlier(runs, r, Insert(r, runs[1..]));
    }
  }

  lemma FirstIsEarlier(runs: seq<Run>, r: Run, later: seq<Run>)
    requires runs != [] && Chronological(runs) && Earlier(runs[0], r)
             && multiset(later) == multiset(runs[1..]) + multiset{r}
    ensures forall j :: 0 <= j < |later| ==> Earlier(runs[0], later[j])
  {
    forall j | 0 <= j < |later| ensures Earlier(runs[0], later[j]) {
      assert later[j] in multiset(later);
      if later[j] != r {
        assert later[j] in runs[1..];
        var k :| 0 <= k < |runs[1..]| && runs[1..][k] == later[j];
        assert runs[k + 1] == later[j];
      }
    }
  }

  lemma {:induction false} SortSorts(runs: seq<Run>)
    ensures Chronological(Sort(runs)) && multiset(Sort(runs)) == multiset(runs)
  {
    if runs != [] {
      SortSorts(runs[1..]);
      InsertKeeps(runs[0], Sort(runs[1..]));
      InsertIs(runs[0], Sort(runs[1..]));
      assert runs == [runs[0]] + runs[1..];
    }
  }

  function Filter(runs: seq<Run>, p: Run -> bool): (r: seq<Run>)
    ensures forall run :: run in r <==> run in runs && p(run)
  {
    if runs == [] then []
    else
      assert runs == [runs[0]] + runs[1..];
      (if p(runs[0]) then [runs[0]] else []) + Filter(runs[1..], p)
  }

  // ---------------------------------------------------------------- what happens to one Run

  function FindScenario(scenarios: seq<Scenario>, id: string): Option<Scenario> {
    if scenarios == [] then None
    else if scenarios[0].id == id then Some(scenarios[0])
    else FindScenario(scenarios[1..], id)
  }

  function FindMetric(metrics: seq<Metric>, q: Query): Option<Metric> {
    if metrics == [] then None
    else if metrics[0].key == q.metricKey && metrics[0].dimensions == q.dimensions then Some(metrics[0])
    else FindMetric(metrics[1..], q)
  }

  predicate Considered(q: Query, r: Run) {
    r.status.Complete? && FindScenario(r.scenarios, q.scenarioId).Some?
  }

  /** The Run measured the same thing in the same place on the same data. */
  predicate Comparable(q: Query, r: Run, reference: Run) {
    && r.environment == reference.environment && r.dataset == reference.dataset
    && Considered(q, r) && Considered(q, reference)
    && FindScenario(r.scenarios, q.scenarioId).value.fingerprint
        == FindScenario(reference.scenarios, q.scenarioId).value.fingerprint
  }

  /** The metric asked for, if the Run recorded it. */
  function Recorded(q: Query, r: Run): Option<Metric> {
    match FindScenario(r.scenarios, q.scenarioId)
    case None => None
    case Some(scenario) => FindMetric(scenario.metrics, q)
  }

  predicate IsPoint(q: Query, r: Run, reference: Run) { Comparable(q, r, reference) && Recorded(q, r).Some? }

  /** A Run is listed under the first thing that sets it apart. */
  predicate ExcludedFor(q: Query, r: Run, reference: Run, reason: Reason) {
    match reason
    case EnvironmentIncompatible => r.environment != reference.environment
    case DatasetIncompatible => r.environment == reference.environment && r.dataset != reference.dataset
    case Changed =>
      r.environment == reference.environment && r.dataset == reference.dataset && !Comparable(q, r, reference)
    case MetricNotRecorded => Comparable(q, r, reference) && Recorded(q, r).None?
  }

  ghost predicate PointOf(q: Query, r: Run, p: Point) {
    Recorded(q, r).Some? && p == Point(r.runId, r.startedAt, r.kind, Recorded(q, r).value.value)
  }

  // ---------------------------------------------------------------- buildTrend

  /** The completed Runs that have the scenario, oldest first. */
  function Candidates(q: Query, runs: seq<Run>): (r: seq<Run>)
    ensures forall run :: run in r <==> run in Sort(runs) && Considered(q, run)
  {
    Filter(Sort(runs), run => Considered(q, run))
  }

  /** The Runs that are points, or those that are not, in their order. */
  function Those(q: Query, reference: Run, runs: seq<Run>, points: bool): seq<Run> {
    if runs == [] then []
    else
      var n := |runs| - 1;
      Those(q, reference, runs[..n], points) + if IsPoint(q, runs[n], reference) == points then [runs[n]] else []
  }

  /** The points are made of exactly the Runs that are points, in order; the exclusions of all the
      others, in order. */
  ghost predicate Covers(q: Query, reference: Run, runs: seq<Run>, t: Trend) {
    var kept, left := Those(q, reference, runs, true), Those(q, reference, runs, false);
    && |t.points| == |kept| && |t.excluded| == |left|
    && (forall k :: 0 <= k < |kept| ==> IsPoint(q, kept[k], reference) && PointOf(q, kept[k], t.points[k]))
    && (forall k :: 0 <= k < |left| ==>
          t.excluded[k].runId == left[k].runId && t.excluded[k].startedAt == left[k].startedAt
          && ExcludedFor(q, left[k], reference, t.excluded[k].reason))
  }

  function Incompletes(runs: seq<Run>): seq<IncompleteRun> {
    if runs == [] then []
    else (if runs[0].status.Incomplete? then [IncompleteRun(runs[0].runId, runs[0].startedAt, runs[0].failure)] else [])
         + Incompletes(runs[1..])
  }

  lemma ThoseAdd(q: Query, reference: Run, runs: seq<Run>, r: Run, points: bool)
    ensures Those(q, reference, runs + [r], points)
            == Those(q, reference, runs, points) + if IsPoint(q, r, reference) == points then [r] else []
  {
    assert (runs + [r])[..|runs|] == runs;
  }

  lemma PointAdded(q: Query, reference: Run, runs: seq<Run>, t: Trend, r: Run, p: Point, u: Trend)
    requires Covers(q, reference, runs, t) && IsPoint(q, r, reference) && PointOf(q, r, p)
    requires u.points == t.points + [p] && u.excluded == t.excluded
    ensures Covers(q, reference, runs + [r], u)
  {
    ThoseAdd(q, reference, runs, r, true);
    ThoseAdd(q, reference, runs, r, false);
  }

  lemma ExclusionAdded(q: Query, reference: Run, runs: seq<Run>, t: Trend, r: Run, reason: Reason, u: Trend)
    requires Covers(q, reference, runs, t) && ExcludedFor(q, r, reference, reason)
    requires u.points == t.points && u.excluded == t.excluded + [Exclusion(r.runId, r.startedAt, reason)]
    ensures Covers(q, reference, runs + [r], u)
  {
    assert !IsPoint(q, r, reference);
    ThoseAdd(q, reference, runs, r, true);
    ThoseAdd(q, reference, runs, r, false);
  }

  /** The labels are those of the first point. */
  ghost predicate Labelled(q: Query, t: Trend, kept: seq<Run>) {
    && (t.labels.Some? <==> t.points != [])
    && (t.points != [] ==>
          kept != [] && Recorded(q, kept[0]).Some?
          && var m := Recorded(q, kept[0]).value; t.labels == Some(Labels(m.title, m.unit, m.direction)))
  }

  /** Every completed Run that has the scenario is either a point or excluded for the first reason
      that applies, both lists in the order of the Runs; the reference is the newest of them. */
  method BuildTrend(runs: seq<Run>, q: Query) returns (trend: Trend)
    ensures var candidates := Candidates(q, runs);
            if candidates == []
            then trend.reference.None? && trend.points == [] && trend.excluded == [] && trend.labels.None?
            else var newest := candidates[|candidates| - 1];
                 && trend.reference == Some(newest.runId) && Covers(q, newest, candidates, trend)
                 && Labelled(q, trend, Those(q, newest, candidates, true))
    ensures trend.incomplete == Incompletes(Sort(runs))
  {
    hide Sort, Incompletes, Candidates, Covers, Labelled, Considered, Those;
    var withScenario := Candidates(q, runs);
    trend := Trend(None, None, [], [], Incompletes(Sort(runs)));
    if withScenario == [] { return; }
    var newest := withScenario[|withScenario| - 1];
    assert newest in withScenario;
    trend := trend.(reference := Some(newest.runId));
    NothingYet(q, newest, trend);
    var k := 0;
    assert withScenario[..0] == [];
    while k < |withScenario|
      invariant 0 <= k <= |withScenario|
      invariant trend.reference == Some(newest.runId) && trend.incomplete == Incompletes(Sort(runs))
      invariant Covers(q, newest, withScenario[..k], trend)
                && Labelled(q, trend, Those(q, newest, withScenario[..k], true))
    {
      assert withScenario[..k + 1] == withScenario[..k] + [withScenario[k]];
      assert withScenario[k] in withScenario;
      trend := Consider(q, withScenario[k], newest, trend, withScenario[..k]);
      k := k + 1;
    }
    assert withScenario[..k] == withScenario;
  }

  lemma NothingYet(q: Query, reference: Run, t: Trend)
    requires t.points == [] && t.excluded == [] && t.labels.None?
    ensures Covers(q, reference, [], t) && Labelled(q, t, Those(q, reference, [], true))
  {
  }

  /** One turn of the loop: a point or an exclusion more. */
  method Consider(q: Query, run: Run, newest: Run, before: Trend, ghost seen: seq<Run>) returns (trend: Trend)
    requires Considered(q, run) && Considered(q, newest)
    requires Covers(q, newest, seen, before) && Labelled(q, before, Those(q, newest, seen, true))
    ensures Covers(q, newest, seen + [run], trend) && Labelled(q, trend, Those(q, newest, seen + [run], true))
    ensures trend.reference == before.reference && trend.incomplete == before.incomplete
  {
    CoversSizes(q, newest, seen, before);
    ThoseAdd(q, newest, seen, run, true);
    hide Covers, Those;
    trend := before;
    var scenario := FindScenario(run.scenarios, q.scenarioId).value;
    var referenceScenario := FindScenario(newest.scenarios, q.scenarioId).value;
    var reason := None;
    if run.environment != newest.environment {
      reason := Some(EnvironmentIncompatible);
    } else if run.dataset != newest.dataset {
      reason := Some(DatasetIncompatible);
    } else if scenario.fingerprint != referenceScenario.fingerprint {
      reason := Some(Changed);
    }
    if reason.Some? {
      trend := trend.(excluded := trend.excluded + [Exclusion(run.runId, run.startedAt, reason.value)]);
      ExclusionAdded(q, newest, seen, before, run, reason.value, trend);
      return;
    }
    var metric := FindMetric(scenario.metrics, q);
    if metric.None? {
      trend := trend.(excluded := trend.excluded + [Exclusion(run.runId, run.startedAt, MetricNotRecorded)]);
      ExclusionAdded(q, newest, seen, before, run, MetricNotRecorded, trend);
      return;
    }
    var m := metric.value;
    if trend.labels.None? { trend := trend.(labels := Some(Labels(m.title, m.unit, m.direction))); }
    var point := Point(run.runId, run.startedAt, run.kind, m.value);
    trend := trend.(points := trend.points + [point]);
    PointAdded(q, newest, seen, before, run, point, trend);
  }

  lemma CoversSizes(q: Query, reference: Run, runs: seq<Run>, t: Trend)
    requires Covers(q, reference, runs, t)
    ensures |t.points| == |Those(q, reference, runs, true)|
  {
  }

  // ---------------------------------------------------------------- what the lists mean

  lemma {:induction false} FilterKeepsOrder(runs: seq<Run>, p: Run -> bool)
    requires Chronological(runs)
    ensures Chronological(Filter(runs, p))
  {
    if runs != [] {
      FilterKeepsOrder(runs[1..], p);
      var later := Filter(runs[1..], p);
      forall j | 0 <= j < |later| ensures Earlier(runs[0], later[j]) {
        assert later[j] in runs[1..];
        var k :| 0 <= k < |runs[1..]| && runs[1..][k] == later[j];
        assert runs[k + 1] == later[j];
      }
    }
  }

  /** The reference is the newest completed Run that has the scenario. */
  lemma ReferenceIsNewest(q: Query, runs: seq<Run>, r: Run)
    requires r in runs && Considered(q, r)
    ensures var candidates := Candidates(q, runs);
            && r in candidates && candidates != []
            && candidates[|candidates| - 1] in runs && Considered(q, candidates[|candidates| - 1])
            && (r == candidates[|candidates| - 1] || Earlier(r, candidates[|candidates| - 1]))
  {
    SortSorts(runs);
    FilterKeepsOrder(Sort(runs), run => Considered(q, run));
    assert r in multiset(Sort(runs));
    var candidates := Candidates(q, runs);
    var k :| 0 <= k < |candidates| && candidates[k] == r;
    var newest := candidates[|candidates| - 1];
    assert newest in candidates;
    assert newest in multiset(runs);
  }

  ghost predicate Plotted(t: Trend, r: Run) { exists k :: 0 <= k < |t.points| && t.points[k].runId == r.runId }

  ghost predicate LeftOut(t: Trend, r: Run) { exists k :: 0 <= k < |t.excluded| && t.excluded[k].runId == r.runId }

  lemma {:induction false} ThoseAre(q: Query, reference: Run, runs: seq<Run>, r: Run)
    ensures forall b :: r in Those(q, reference, runs, b) <==> r in runs && IsPoint(q, r, reference) == b
    ensures |Those(q, reference, runs, true)| + |Those(q, reference, runs, false)| == |runs|
  {
    if runs != [] {
      var n := |runs| - 1;
      ThoseAre(q, reference, runs[..n], r);
      assert runs == runs[..n] + [runs[n]];
    }
  }

  /** Both lists are in the order of the Runs: chronological when those are. */
  lemma {:induction false} ThoseKeepOrder(q: Query, reference: Run, runs: seq<Run>, points: bool)
    requires Chronological(runs)
    ensures Chronological(Those(q, reference, runs, points))
  {
    if runs != [] {
      var n := |runs| - 1;
      var before := Those(q, reference, runs[..n], points);
      ThoseKeepOrder(q, reference, runs[..n], points);
      forall k | 0 <= k < |before| ensures Earlier(before[k], runs[n]) {
        ThoseAre(q, reference, runs[..n], before[k]);
        assert before[k] in before;
        var m :| 0 <= m < n && runs[..n][m] == before[k];
        assert runs[m] == before[k];
      }
    }
  }

  /** Every completed Run with the scenario is in exactly one of the two lists: among the points
      exactly when it is comparable with the reference and recorded the metric. */
  lemma TrendPartition(q: Query, reference: Run, runs: seq<Run>, t: Trend, r: Run)
    requires Covers(q, reference, runs, t) && r in runs
    requires forall a, b :: a in runs && b in runs && a.runId == b.runId ==> a == b
    ensures |t.points| + |t.excluded| == |runs|
    ensures Plotted(t, r) <==> IsPoint(q, r, reference)
    ensures LeftOut(t, r) <==> !IsPoint(q, r, reference)
  {
    var kept, left := Those(q, reference, runs, true), Those(q, reference, runs, false);
    ThoseAre(q, reference, runs, r);
    if r in kept {
      var k :| 0 <= k < |kept| && kept[k] == r;
      assert t.points[k].runId == r.runId;
    } else {
      assert r in left;
      var k :| 0 <= k < |left| && left[k] == r;
      assert t.excluded[k].runId == r.runId;
    }
    forall k | 0 <= k < |t.points| && t.points[k].runId == r.runId ensures IsPoint(q, r, reference) {
      ThoseAre(q, reference, runs, kept[k]);
    }
    forall k | 0 <= k < |t.excluded| && t.excluded[k].runId == r.runId ensures !IsPoint(q, r, reference) {
      ThoseAre(q, reference, runs, left[k]);
    }
  }
}
