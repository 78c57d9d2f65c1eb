/** The trend as it is drawn: one timeline of all its Runs, and the line through its points. */
module Timeline {
  import opened Trend

  datatype Entry = PointEntry(point: Point) | IncompleteEntry(run: IncompleteRun) | ExcludedEntry(exclusion: Exclusion)

  function StartOf(e: Entry): int {
    match e
    case PointEntry(p) => p.startedAt.instant
    case IncompleteEntry(r) => r.startedAt.instant
    case ExcludedEntry(x) => x.startedAt.instant
  }

  function Rank(e: Entry): nat { if e.PointEntry? then 0 else if e.IncompleteEntry? then 1 else 2 }

  function Listed(t: Trend): seq<Entry> {
    PointEntries(t.points) + IncompleteEntries(t.incomplete) + ExcludedEntries(t.excluded)
  }

  function PointEntries(points: seq<Point>): (r: seq<Entry>)
    ensures |r| == |points|
  {
    if points == [] then [] else [PointEntry(points[0])] + PointEntries(points[1..])
  }

  function IncompleteEntries(runs: seq<IncompleteRun>): seq<Entry> {
    if runs == [] then [] else [IncompleteEntry(runs[0])] + IncompleteEntries(runs[1..])
  }

  function ExcludedEntries(excluded: seq<Exclusion>): seq<Entry> {
    if excluded == [] then [] else [ExcludedEntry(excluded[0])] + ExcludedEntries(excluded[1..])
  }

  // ---------------------------------------------------------------- buildTimeline

  datatype Placed = Placed(entry: Entry, order: nat)

  function Decorated(entries: seq<Entry>, from: nat): seq<Placed> {
    if entries == [] then [] else [Placed(entries[0], from)] + Decorated(entries[1..], from + 1)
  }

  /** By start, then values first, then as listed. */
  predicate Precedes(a: Placed, b: Placed) {
    || StartOf(a.entry) < StartOf(b.entry)
    || (StartOf(a.entry) == StartOf(b.entry)
        && (Rank(a.entry) < Rank(b.entry) || (Rank(a.entry) == Rank(b.entry) && a.order <= b.order)))
  }

  function Place(p: Placed, ps: seq<Placed>): seq<Placed> {
    if ps == [] || Precedes(p, ps[0]) then [p] + ps else [ps[0]] + Place(p, ps[1..])
  }

  function PlaceAll(ps: seq<Placed>): seq<Placed> {
    if ps == [] then [] else Place(ps[0], PlaceAll(ps[1..]))
  }

  function Bare(ps: seq<Placed>): (r: seq<Entry>)
    ensures |r| == |ps| && forall k :: 0 <= k < |r| ==> r[k] == ps[k].entry
  {
    if ps == [] then [] else [ps[0].entry] + Bare(ps[1..])
  }

  function BuildTimeline(t: Trend): seq<Entry> { Bare(PlaceAll(Decorated(Listed(t), 0))) }

  predicate InOrder(ps: seq<Placed>) {
    forall i, j :: 0 <= i < j < |ps| ==> Precedes(ps[i], ps[j])
  }

  lemma {:induction false} PlaceIs(p: Placed, ps: seq<Placed>)
    ensures multiset(Place(p, ps)) == multiset(ps) + multiset{p}
  {
    if ps != [] && !Precedes(p, ps[0]) {
      PlaceIs(p, ps[1..]);
      assert ps == [ps[0]] + ps[1..];
    }
  }

  lemma {:induction false} PlaceKeeps(p: Placed, ps: seq<Placed>)
    requires InOrder(ps)
    ensures InOrder(Place(p, ps))
  {
    if ps != [] && !Precedes(p, ps[0]) {
      PlaceKeeps(p, ps[1..]);
      PlaceIs(p, ps[1..]);
      var later := Place(p, ps[1..]);
      forall j | 0 <= j < |later| ensures Precedes(ps[0], later[j]) {
        assert later[j] in multiset(later);
        if later[j] != p {
          assert later[j] in ps[1..];
          var k :| 0 <= k < |ps[1..]| && ps[1..][k] == later[j];
          assert ps[k + 1] == later[j];
        }
      }
    }
  }

  lemma {:induction false} PlaceAllSorts(ps: seq<Placed>)
    ensures InOrder(PlaceAll(ps)) && multiset(PlaceAll(ps)) == multiset(ps)
  {
    if ps != [] {
      PlaceAllSorts(ps[1..]);
      PlaceKeeps(ps[0], PlaceAll(ps[1..]));
      PlaceIs(ps[0], PlaceAll(ps[1..]));
      assert ps == [ps[0]] + ps[1..];
    }
  }

  lemma {:induction false} BarePlace(p: Placed, ps: seq<Placed>)
    ensures multiset(Bare(Place(p, ps))) == multiset(Bare(ps)) + multiset{p.entry}
  {
    if ps != [] && !Precedes(p, ps[0]) {
      BarePlace(p, ps[1..]);
      assert Bare(ps) == [ps[0].entry] + Bare(ps[1..]);
    } else {
      assert Bare([p] + ps) == [p.entry] + Bare(ps);
    }
  }

  lemma {:induction false} BarePlaceAll(ps: seq<Placed>)
    ensures multiset(Bare(PlaceAll(ps))) == multiset(Bare(ps))
  {
    if ps != [] {
      BarePlaceAll(ps[1..]);
      BarePlace(ps[0], PlaceAll(ps[1..]));
    }
  }

  lemma {:induction false} BareDecorated(entries: seq<Entry>, from: nat)
    ensures Bare(Decorated(entries, from)) == entries
  {
    if entries != [] {
      BareDecorated(entries[1..], from + 1);
      assert Decorated(entries, from)[1..] == Decorated(entries[1..], from + 1);
    }
  }

  /** The timeline has every entry of the trend once, by start time, at one time values first, and
      otherwise in the order they were listed in. */
  lemma TimelineIsOrdered(t: Trend)
    ensures multiset(BuildTimeline(t)) == multiset(Listed(t))
    ensures var line := BuildTimeline(t);
            forall i, j :: 0 <= i < j < |line| ==>
              StartOf(line[i]) < StartOf(line[j])
                || (StartOf(line[i]) == StartOf(line[j]) && Rank(line[i]) <= Rank(line[j]))
    ensures var ps := PlaceAll(Decorated(Listed(t), 0));
            Bare(ps) == BuildTimeline(t) && multiset(ps) == multiset(Decorated(Listed(t), 0))
            && forall i, j :: 0 <= i < j < |ps| && StartOf(ps[i].entry) == StartOf(ps[j].entry)
                              && Rank(ps[i].entry) == Rank(ps[j].entry) ==>
                 ps[i].order <= ps[j].order
  {
    var ps := Decorated(Listed(t), 0);
    PlaceAllSorts(ps);
    BarePlaceAll(ps);
    BareDecorated(Listed(t), 0);
    forall i, j | 0 <= i < j < |PlaceAll(ps)| ensures Precedes(PlaceAll(ps)[i], PlaceAll(ps)[j]) {}
  }

  // ---------------------------------------------------------------- lineSegments

  function PointIndexes(entries: seq<Entry>): (r: seq<nat>)
    ensures forall i :: i in r <==> 0 <= i < |entries| && entries[i].PointEntry?
    ensures forall a, b :: 0 <= a < b < |r| ==> r[a] < r[b]
  {
    if entries == [] then []
    else
      var n := |entries| - 1;
      var before := PointIndexes(entries[..n]);
      assert forall a :: 0 <= a < |before| ==> before[a] in before;
      before + if entries[n].PointEntry? then [n] else []
  }

  function Concat(segments: seq<seq<nat>>): seq<nat> {
    if segments == [] then [] else Concat(segments[..|segments| - 1]) + segments[|segments| - 1]
  }

  predicate Excluded(entries: seq<Entry>, i: int) { 0 <= i < |entries| && entries[i].ExcludedEntry? }

  ghost predicate ExcludedBetween(entries: seq<Entry>, a: int, b: int) { exists i :: a < i < b && Excluded(entries, i) }

  /** No exclusion between two points of one segment. */
  ghost predicate Unbroken(entries: seq<Entry>, segment: seq<nat>) {
    segment != [] && !ExcludedBetween(entries, segment[0], segment[|segment| - 1])
  }

  /** The segments are all points in order, cut exactly where an exclusion lies between them. */
  ghost predicate Drawn(entries: seq<Entry>, segments: seq<seq<nat>>) {
    && Concat(segments) == PointIndexes(entries)
    && (forall k :: 0 <= k < |segments| ==> Unbroken(entries, segments[k]))
    && (forall k :: 0 < k < |segments| ==>
          ExcludedBetween(entries, segments[k - 1][|segments[k - 1]| - 1], segments[k][0]))
  }

  method LineSegments(entries: seq<Entry>) returns (segments: seq<seq<nat>>)
    ensures Drawn(entries, segments)
  {
    hide InProgress, Drawn;
    segments := [];
    var current: seq<nat> := [];
    NothingInProgress();
    var n := 0;
    while n < |entries|
      invariant 0 <= n <= |entries|
      invariant InProgress(entries[..n], segments, current)
    {
      assert entries[..n + 1] == entries[..n] + [entries[n]];
      if entries[n].PointEntry? {
        PointDrawn(entries[..n], segments, current, entries[n]);
        current := current + [n];
      } else if entries[n].ExcludedEntry? && |current| > 0 {
        SegmentEnded(entries[..n], segments, current, entries[n]);
        segments := segments + [current];
        current := [];
      } else {
        NothingDrawn(entries[..n], segments, current, entries[n]);
      }
      n := n + 1;
    }
    assert entries[..n] == entries;
    SegmentsComplete(entries, segments, current);
    if |current| > 0 {
      segments := segments + [current];
    }
  }

  lemma NothingInProgress()
    ensures forall entries: seq<Entry> :: entries == [] ==> InProgress(entries, [], [])
  {
  }

  /** What has been drawn, the open segment `current` included. An exclusion has come after the last
      closed segment. */
  ghost predicate InProgress(entries: seq<Entry>, segments: seq<seq<nat>>, current: seq<nat>) {
    && Concat(segments) + current == PointIndexes(entries)
    && (forall k :: 0 <= k < |segments| ==> Unbroken(entries, segments[k]))
    && (forall k :: 0 < k < |segments| ==>
          ExcludedBetween(entries, segments[k - 1][|segments[k - 1]| - 1], segments[k][0]))
    && (current != [] ==> !ExcludedBetween(entries, current[0], |entries|))
    && (segments != [] ==>
          var last := segments[|segments| - 1];
          ExcludedBetween(entries, last[|last| - 1], if current != [] then current[0] else |entries|))
  }

  lemma ConcatAdd(segments: seq<seq<nat>>, current: seq<nat>)
    ensures Concat(segments + [current]) == Concat(segments) + current
  {
    assert (segments + [current])[..|segments|] == segments;
  }

  lemma BetweenGrows(entries: seq<Entry>, e: Entry, a: int, b: int)
    requires b <= |entries|
    ensures ExcludedBetween(entries + [e], a, b) == ExcludedBetween(entries, a, b)
    ensures ExcludedBetween(entries + [e], a, |entries| + 1)
              == (ExcludedBetween(entries, a, |entries|) || (e.ExcludedEntry? && a < |entries|))
  {
    if ExcludedBetween(entries, a, b) {
      var i :| a < i < b && Excluded(entries, i);
      assert Excluded(entries + [e], i);
    }
    if ExcludedBetween(entries + [e], a, b) {
      var i :| a < i < b && Excluded(entries + [e], i);
      assert Excluded(entries, i);
    }
    if ExcludedBetween(entries + [e], a, |entries| + 1) {
      var i :| a < i < |entries| + 1 && Excluded(entries + [e], i);
      if i < |entries| { assert Excluded(entries, i); }
    }
    if ExcludedBetween(entries, a, |entries|) {
      var i :| a < i < |entries| && Excluded(entries, i);
      assert Excluded(entries + [e], i);
    }
    if e.ExcludedEntry? && a < |entries| { assert Excluded(entries + [e], |entries|); }
  }

  lemma PointsBelow(entries: seq<Entry>, segments: seq<seq<nat>>, current: seq<nat>)
    requires InProgress(entries, segments, current)
    ensures forall k :: 0 <= k < |current| ==> current[k] < |entries|
    ensures forall k :: 0 <= k < |segments| ==>
              segments[k] != [] && forall m :: 0 <= m < |segments[k]| ==> segments[k][m] < |entries|
  {
    var all := PointIndexes(entries);
    forall k | 0 <= k < |current| ensures current[k] < |entries| {
      assert all[|Concat(segments)| + k] == current[k];
      assert current[k] in all;
    }
    forall k | 0 <= k < |segments|
      ensures segments[k] != [] && forall m :: 0 <= m < |segments[k]| ==> segments[k][m] < |entries|
    {
      assert Unbroken(entries, segments[k]);
      forall m | 0 <= m < |segments[k]| ensures segments[k][m] < |entries| {
        InConcat(segments, k, m);
        assert segments[k][m] in all;
      }
    }
  }

  lemma {:induction false} InConcat(segments: seq<seq<nat>>, k: nat, m: nat)
    requires k < |segments| && m < |segments[k]|
    ensures segments[k][m] in Concat(segments)
  {
    if k < |segments| - 1 { InConcat(segments[..|segments| - 1], k, m); }
  }

  /** The closed segments stay as they are. */
  lemma ClosedStay(entries: seq<Entry>, segments: seq<seq<nat>>, current: seq<nat>, e: Entry)
    requires InProgress(entries, segments, current)
    ensures forall k :: 0 <= k < |segments| ==> Unbroken(entries + [e], segments[k])
    ensures forall k :: 0 < k < |segments| ==>
              ExcludedBetween(entries + [e], segments[k - 1][|segments[k - 1]| - 1], segments[k][0])
  {
    PointsBelow(entries, segments, current);
    forall k | 0 <= k < |segments| ensures Unbroken(entries + [e], segments[k]) {
      BetweenGrows(entries, e, segments[k][0], segments[k][|segments[k]| - 1]);
    }
    forall k | 0 < k < |segments|
      ensures ExcludedBetween(entries + [e], segments[k - 1][|segments[k - 1]| - 1], segments[k][0])
    {
      BetweenGrows(entries, e, segments[k - 1][|segments[k - 1]| - 1], segments[k][0]);
    }
  }

  lemma PointIndexesAdd(entries: seq<Entry>, e: Entry)
    ensures PointIndexes(entries + [e]) == PointIndexes(entries) + if e.PointEntry? then [|entries|] else []
  {
    assert (entries + [e])[..|entries|] == entries;
  }

  lemma PointDrawn(entries: seq<Entry>, segments: seq<seq<nat>>, current: seq<nat>, e: Entry)
    requires InProgress(entries, segments, current) && e.PointEntry?
    ensures InProgress(entries + [e], segments, current + [|entries|])
  {
    hide ExcludedBetween, Concat, Unbroken, PointIndexes;
    var n := |entries|;
    ClosedStay(entries, segments, current, e);
    PointsBelow(entries, segments, current);
    PointIndexesAdd(entries, e);
    assert Concat(segments) + (current + [n]) == (Concat(segments) + current) + [n];
    if current == [] { NothingBetween(entries, n); }
    BetweenGrows(entries, e, if current == [] then n else current[0], n);
    if segments != [] {
      var last := segments[|segments| - 1];
      BetweenGrows(entries, e, last[|last| - 1], if current != [] then current[0] else n);
    }
  }

  lemma SegmentEnded(entries: seq<Entry>, segments: seq<seq<nat>>, current: seq<nat>, e: Entry)
    requires InProgress(entries, segments, current) && e.ExcludedEntry? && current != []
    ensures InProgress(entries + [e], segments + [current], [])
  {
    hide ExcludedBetween;
    var n := |entries|;
    ClosedStay(entries, segments, current, e);
    PointsBelow(entries, segments, current);
    assert (entries + [e])[..n] == entries;
    ConcatAdd(segments, current);
    BetweenGrows(entries, e, current[|current| - 1], n);
    BetweenGrows(entries, e, current[0], n);
    CurrentUnbroken(entries + [e], current, n);
    if segments != [] {
      var last := segments[|segments| - 1];
      BetweenGrows(entries, e, last[|last| - 1], current[0]);
    }
  }

  lemma NothingBetween(entries: seq<Entry>, a: int)
    ensures !ExcludedBetween(entries, a, a)
  {
  }

  lemma BetweenWider(entries: seq<Entry>, a: int, b: int, c: int)
    requires ExcludedBetween(entries, a, b) && b <= c
    ensures ExcludedBetween(entries, a, c)
  {
  }

  lemma CurrentUnbroken(entries: seq<Entry>, current: seq<nat>, n: nat)
    requires current != [] && !ExcludedBetween(entries, current[0], n) && current[|current| - 1] <= n
    ensures Unbroken(entries, current)
  {
    hide ExcludedBetween;
    if ExcludedBetween(entries, current[0], current[|current| - 1]) {
      BetweenWider(entries, current[0], current[|current| - 1], n);
    }
  }

  lemma NothingDrawn(entries: seq<Entry>, segments: seq<seq<nat>>, current: seq<nat>, e: Entry)
    requires InProgress(entries, segments, current) && !e.PointEntry? && (e.ExcludedEntry? ==> current == [])
    ensures InProgress(entries + [e], segments, current)
  {
    hide ExcludedBetween;
    var n := |entries|;
    ClosedStay(entries, segments, current, e);
    PointsBelow(entries, segments, current);
    assert (entries + [e])[..n] == entries;
    if current != [] { BetweenGrows(entries, e, current[0], n); }
    if segments != [] {
      var last := segments[|segments| - 1];
      BetweenGrows(entries, e, last[|last| - 1], if current != [] then current[0] else n);
    }
  }

  lemma SegmentsComplete(entries: seq<Entry>, segments: seq<seq<nat>>, current: seq<nat>)
    requires InProgress(entries, segments, current)
    ensures Drawn(entries, if current == [] then segments else segments + [current])
  {
    hide ExcludedBetween, PointIndexes, Concat, Unbroken;
    ConcatAdd(segments, current);
    PointsBelow(entries, segments, current);
    if current != [] {
      CurrentUnbroken(entries, current, |entries|);
      var all := segments + [current];
      forall k | 0 <= k < |all| ensures Unbroken(entries, all[k]) {
        assert k < |segments| ==> all[k] == segments[k];
      }
      forall k | 0 < k < |all| ensures ExcludedBetween(entries, all[k - 1][|all[k - 1]| - 1], all[k][0]) {
        assert all[k - 1] == segments[k - 1];
        assert k < |segments| ==> all[k] == segments[k];
      }
    }
  }
}
