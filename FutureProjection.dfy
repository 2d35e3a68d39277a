/**
 * The data behind the projection chart (`FutureProjectionChart`): each centre's real
 * strength (acc × power) after rounds 1..8, extended to rounds 9..12 by repeating the
 * round 7 → 8 change of acc and power (never below 0.1), the value axis's domain, and
 * the two line paths, solid for real points and dashed for predicted ones.
 */
module FutureProjection {
  import opened Common
  import opened Types
  import opened Sorting
  import DominancePeriods

  /** One point of a centre's line. */
  datatype ProjectionPoint = ProjectionPoint(round: int, year: real, acc: real, power: real, value: real, isPredicted: bool)

  /** `dataByCenter`: the centres in key order, and each centre's points. */
  datatype Projection = Projection(centers: seq<string>, points: map<string, seq<ProjectionPoint>>)

  /** Every centre appears once and has a line, and every line belongs to a centre. */
  predicate ValidProjection(pr: Projection)
  {
    && (forall a, b :: 0 <= a < b < |pr.centers| ==> pr.centers[a] != pr.centers[b])
    && pr.points.Keys == set c | c in pr.centers
  }

  /** The last round with real data. */
  const REAL_ROUNDS := 8

  /** The smallest acc or power a projection may reach. */
  const MIN_PROJECTED: real := 0.1

  /** `roundToYear` on this chart: round r ends at year r · 1000, predicted rounds included. */
  function RoundToYear(round: int): real
  {
    round as real * 1000.0
  }

  // ---------------------------------------------------------------------------
  // Real points
  // ---------------------------------------------------------------------------

  /** The real point entry k of a snapshot adds to its centre's line. */
  function RealPointAt(s: RoundSnapshot, k: nat): (p: ProjectionPoint)
    requires k < |s.areas|
    ensures p.round == s.round && !p.isPredicted && p.value == s.areas[k].acc * s.areas[k].power
    ensures p.acc == s.areas[k].acc && p.power == s.areas[k].power
  {
    var e := s.areas[k];
    ProjectionPoint(s.round, RoundToYear(s.round), e.acc, e.power, e.acc * e.power, false)
  }

  /** The real points the first n entries of a snapshot add to the line of `id`. */
  function EntryPoints(s: RoundSnapshot, id: string, n: nat): (r: seq<ProjectionPoint>)
    requires n <= |s.areas|
    ensures |r| <= n
    ensures forall p :: p in r ==> p.round == s.round && !p.isPredicted
  {
    if n == 0 then []
    else EntryPoints(s, id, n - 1) + (if s.areas[n - 1].areaId == id then [RealPointAt(s, n - 1)] else [])
  }

  /** The real points the first n snapshots of a history add to the line of `id`. */
  function HistoryPoints(history: seq<RoundSnapshot>, id: string, n: nat): (r: seq<ProjectionPoint>)
    requires n <= |history|
    ensures forall p :: p in r ==> !p.isPredicted
  {
    if n == 0 then [] else HistoryPoints(history, id, n - 1) + EntryPoints(history[n - 1], id, |history[n - 1].areas|)
  }

  /**
   * A snapshot that names a centre once adds exactly one real point to its line, carrying
   * that entry's acc, power and their product.
   */
  lemma {:induction false} OneEntryOnePoint(s: RoundSnapshot, id: string, k: nat, n: nat)
    requires k < n <= |s.areas| && s.areas[k].areaId == id
    requires forall j :: 0 <= j < n && j != k ==> s.areas[j].areaId != id
    ensures EntryPoints(s, id, n) == [RealPointAt(s, k)]
  {
    if n - 1 == k {
      NoEntryNoPoint(s, id, k);
    } else {
      OneEntryOnePoint(s, id, k, n - 1);
    }
  }

  /** A snapshot that does not name a centre adds nothing to its line. */
  lemma {:induction false} NoEntryNoPoint(s: RoundSnapshot, id: string, n: nat)
    requires n <= |s.areas|
    requires forall j :: 0 <= j < n ==> s.areas[j].areaId != id
    ensures EntryPoints(s, id, n) == []
  {
    if n > 0 {
      NoEntryNoPoint(s, id, n - 1);
    }
  }

  /** The real-data loop over one snapshot: each entry of a centre pushes its point. */
  method PushSnapshot(points: map<string, seq<ProjectionPoint>>, s: RoundSnapshot) returns (next: map<string, seq<ProjectionPoint>>)
    ensures next.Keys == points.Keys
    ensures forall c :: c in next ==> next[c] == points[c] + EntryPoints(s, c, |s.areas|)
  {
    next := points;
    for i := 0 to |s.areas|
      invariant next.Keys == points.Keys
      invariant forall c :: c in next ==> next[c] == points[c] + EntryPoints(s, c, i)
    {
      var e := s.areas[i];
      if e.areaId in next {
        var point := ProjectionPoint(s.round, RoundToYear(s.round), e.acc, e.power, e.acc * e.power, false);
        assert point == RealPointAt(s, i);
        next := next[e.areaId := next[e.areaId] + [point]];
      }
      assert forall c :: EntryPoints(s, c, i + 1) ==
                         EntryPoints(s, c, i) + (if e.areaId == c then [RealPointAt(s, i)] else []);
    }
  }

  // ---------------------------------------------------------------------------
  // Projection
  // ---------------------------------------------------------------------------

  /** `points.find(p => p.round === round)`. */
  function FindRound(points: seq<ProjectionPoint>, round: int): (r: Option<ProjectionPoint>)
    ensures r.None? <==> forall k :: 0 <= k < |points| ==> points[k].round != round
    ensures r.Some? ==> r.value.round == round && r.value in points
    ensures r.Some? ==> exists k :: 0 <= k < |points| && points[k] == r.value &&
                                    forall j :: 0 <= j < k ==> points[j].round != round
  {
    if points == [] then None
    else if points[0].round == round then Some(points[0])
    else
      var r := FindRound(points[1..], round);
      assert r.Some? ==> exists k :: 0 <= k < |points[1..]| && points[1..][k] == r.value &&
                                     forall j :: 0 <= j < k ==> points[1..][j].round != round;
      r
  }

  /** `Math.max`. */
  function Max(a: real, b: real): (m: real)
    ensures m >= a && m >= b && (m == a || m == b)
  {
    if a >= b then a else b
  }

  /**
   * A quantity k rounds after round 8: the change is added once per round, and the result
   * is raised to 0.1 whenever it falls below.
   */
  function Projected(start: real, delta: real, k: nat): (v: real)
    ensures k > 0 ==> v >= MIN_PROJECTED
    ensures k > 0 ==> v == Max(MIN_PROJECTED, Projected(start, delta, k - 1) + delta)
  {
    if k == 0 then start else Max(MIN_PROJECTED, Projected(start, delta, k - 1) + delta)
  }

  /** The predicted point for round 9 + i, given the round 8 point and the changes per round. */
  function PredictedPoint(p8: ProjectionPoint, deltaAcc: real, deltaPower: real, i: nat): (p: ProjectionPoint)
    ensures p.round == REAL_ROUNDS + 1 + i && p.isPredicted
    ensures p.acc >= MIN_PROJECTED && p.power >= MIN_PROJECTED && p.value == p.acc * p.power
  {
    var acc := Projected(p8.acc, deltaAcc, i + 1);
    var power := Projected(p8.power, deltaPower, i + 1);
    ProjectionPoint(REAL_ROUNDS + 1 + i, RoundToYear(REAL_ROUNDS + 1 + i), acc, power, acc * power, true)
  }

  /**
   * The four predicted points, for rounds 9..12, extending the change from the round 7
   * point to the round 8 point.
   */
  function PredictedPoints(p7: ProjectionPoint, p8: ProjectionPoint): (r: seq<ProjectionPoint>)
    ensures |r| == 4
    ensures forall i :: 0 <= i < 4 ==> r[i] == PredictedPoint(p8, p8.acc - p7.acc, p8.power - p7.power, i)
  {
    seq(4, i requires 0 <= i < 4 => PredictedPoint(p8, p8.acc - p7.acc, p8.power - p7.power, i))
  }

  /**
   * Each predicted acc and power is the previous one plus the round 7 → 8 change, raised
   * to 0.1 when below; the first continues from round 8.
   */
  lemma PredictedFollowsTrend(p7: ProjectionPoint, p8: ProjectionPoint, i: nat)
    requires i < 4
    ensures var r := PredictedPoints(p7, p8);
            var prevAcc := if i == 0 then p8.acc else r[i - 1].acc;
            var prevPower := if i == 0 then p8.power else r[i - 1].power;
            r[i].acc == Max(MIN_PROJECTED, prevAcc + (p8.acc - p7.acc)) &&
            r[i].power == Max(MIN_PROJECTED, prevPower + (p8.power - p7.power)) &&
            r[i].round == 9 + i && r[i].isPredicted && r[i].value == r[i].acc * r[i].power
  {
  }

  /** A line after one projection pass: extended by four points when it has rounds 7 and 8. */
  function ProjectLine(line: seq<ProjectionPoint>): seq<ProjectionPoint>
  {
    match (FindRound(line, 7), FindRound(line, 8))
    case (Some(p7), Some(p8)) => line + PredictedPoints(p7, p8)
    case _ => line
  }

  /** A projection pass adds exactly four points when the line has rounds 7 and 8, and none otherwise. */
  lemma ProjectionNeedsRounds7And8(line: seq<ProjectionPoint>)
    ensures |ProjectLine(line)| == |line| + (if FindRound(line, 7).Some? && FindRound(line, 8).Some? then 4 else 0)
    ensures ProjectLine(line)[..|line|] == line
    ensures forall k :: |line| <= k < |ProjectLine(line)| ==>
              ProjectLine(line)[k].isPredicted && ProjectLine(line)[k].round == k - |line| + 9
  {
  }

  /**
   * The loop over rounds 9..12: each round adds the changes to the running acc and power,
   * raises both to at least 0.1 and records the predicted point.
   */
  method PredictRounds(p8: ProjectionPoint, deltaAcc: real, deltaPower: real) returns (predicted: seq<ProjectionPoint>)
    ensures |predicted| == 4
    ensures forall k :: 0 <= k < 4 ==> predicted[k] == PredictedPoint(p8, deltaAcc, deltaPower, k)
  {
    predicted := [];
    var currentAcc := p8.acc;
    var currentPower := p8.power;
    for round := 9 to 13
      invariant currentAcc == Projected(p8.acc, deltaAcc, round - 9)
      invariant currentPower == Projected(p8.power, deltaPower, round - 9)
      invariant |predicted| == round - 9
      invariant forall k :: 0 <= k < round - 9 ==> predicted[k] == PredictedPoint(p8, deltaAcc, deltaPower, k)
    {
      currentAcc := currentAcc + deltaAcc;
      currentPower := currentPower + deltaPower;
      currentAcc := Max(MIN_PROJECTED, currentAcc);
      currentPower := Max(MIN_PROJECTED, currentPower);
      assert currentAcc == Projected(p8.acc, deltaAcc, round - 8);
      assert currentPower == Projected(p8.power, deltaPower, round - 8);
      var value := currentAcc * currentPower;
      var point := ProjectionPoint(round, RoundToYear(round), currentAcc, currentPower, value, true);
      PredictedPointFields(p8, deltaAcc, deltaPower, round - 9, currentAcc, currentPower);
      PredictionAppended(p8, deltaAcc, deltaPower, predicted, point);
      predicted := predicted + [point];
    }
  }

  /** The predicted point for round 9 + i is built from the projected acc and power. */
  lemma PredictedPointFields(p8: ProjectionPoint, deltaAcc: real, deltaPower: real, i: nat, acc: real, power: real)
    requires acc == Projected(p8.acc, deltaAcc, i + 1) && power == Projected(p8.power, deltaPower, i + 1)
    ensures PredictedPoint(p8, deltaAcc, deltaPower, i) ==
            ProjectionPoint(9 + i, RoundToYear(9 + i), acc, power, acc * power, true)
  {
  }

  /** Appending the next predicted point keeps the list the first predictions in order. */
  lemma PredictionAppended(p8: ProjectionPoint, deltaAcc: real, deltaPower: real, predicted: seq<ProjectionPoint>, point: ProjectionPoint)
    requires forall k :: 0 <= k < |predicted| ==> predicted[k] == PredictedPoint(p8, deltaAcc, deltaPower, k)
    requires point == PredictedPoint(p8, deltaAcc, deltaPower, |predicted|)
    ensures forall k :: 0 <= k <= |predicted| ==> (predicted + [point])[k] == PredictedPoint(p8, deltaAcc, deltaPower, k)
  {
  }

  /** The projection of one area's line: four predicted points when it has rounds 7 and 8. */
  method ProjectCenter(line: seq<ProjectionPoint>) returns (next: seq<ProjectionPoint>)
    ensures next == ProjectLine(line)
  {
    next := line;
    var round7Data := FindRound(line, 7);
    var round8Data := FindRound(line, 8);
    if round7Data.Some? && round8Data.Some? {
      var p7 := round7Data.value;
      var p8 := round8Data.value;
      var predicted := PredictRounds(p8, p8.acc - p7.acc, p8.power - p7.power);
      assert predicted == PredictedPoints(p7, p8);
      next := next + predicted;
    }
  }

  /** The lines after projection passes for the first n areas, in area order. */
  function ProjectAll(points: map<string, seq<ProjectionPoint>>, areas: seq<Area>, n: nat): (r: map<string, seq<ProjectionPoint>>)
    requires n <= |areas|
    requires forall k :: 0 <= k < |areas| ==> areas[k].id in points
    ensures r.Keys == points.Keys
  {
    if n == 0 then points
    else
      var m := ProjectAll(points, areas, n - 1);
      m[areas[n - 1].id := ProjectLine(m[areas[n - 1].id])]
  }

  /** Passes for other areas leave a centre's line alone. */
  lemma {:induction false} ProjectAllOthers(points: map<string, seq<ProjectionPoint>>, areas: seq<Area>, n: nat, c: string)
    requires n <= |areas|
    requires forall k :: 0 <= k < |areas| ==> areas[k].id in points
    requires c in points && forall k :: 0 <= k < n ==> areas[k].id != c
    ensures ProjectAll(points, areas, n)[c] == points[c]
  {
    if n > 0 {
      ProjectAllOthers(points, areas, n - 1, c);
    }
  }

  /**
   * A centre listed once among the areas is projected exactly once: its line gains the
   * four predicted points exactly when it has rounds 7 and 8.
   */
  lemma {:induction false} ProjectAllOnce(points: map<string, seq<ProjectionPoint>>, areas: seq<Area>, n: nat, k: nat)
    requires k < n <= |areas|
    requires forall j :: 0 <= j < |areas| ==> areas[j].id in points
    requires forall j :: 0 <= j < n && j != k ==> areas[j].id != areas[k].id
    ensures ProjectAll(points, areas, n)[areas[k].id] == ProjectLine(points[areas[k].id])
  {
    var id := areas[k].id;
    var m := ProjectAll(points, areas, n - 1);
    assert ProjectAll(points, areas, n) == m[areas[n - 1].id := ProjectLine(m[areas[n - 1].id])];
    if n - 1 == k {
      ProjectAllOthers(points, areas, k, id);
    } else {
      ProjectAllOnce(points, areas, n - 1, k);
      assert areas[n - 1].id != id;
    }
  }

  /** The sort key of a point, its round. */
  function PointRound(p: ProjectionPoint): real
  {
    p.round as real
  }

  /** The real lines of the given centres, from the sorted history. */
  function RealLines(centers: seq<string>, sorted: seq<RoundSnapshot>): (r: map<string, seq<ProjectionPoint>>)
    ensures r.Keys == set c | c in centers
  {
    map c | c in centers :: HistoryPoints(sorted, c, |sorted|)
  }

  /** The first loop of `centerData`: an empty line per area id, the ids in first-occurrence order. */
  method EmptyLines(areas: seq<Area>) returns (centers: seq<string>, points: map<string, seq<ProjectionPoint>>)
    ensures centers == DominancePeriods.DistinctIds(areas, |areas|)
    ensures points.Keys == set c | c in centers
    ensures forall c :: c in points ==> points[c] == []
  {
    centers := [];
    points := map[];
    for i := 0 to |areas|
      invariant centers == DominancePeriods.DistinctIds(areas, i)
      invariant forall c :: c in points <==> c in centers
      invariant forall c :: c in points ==> points[c] == []
    {
      if areas[i].id !in points {
        centers := centers + [areas[i].id];
      }
      points := points[areas[i].id := []];
    }
  }

  /** The second loop: every snapshot of the sorted history pushes its real points. */
  method PushHistory(points: map<string, seq<ProjectionPoint>>, sorted: seq<RoundSnapshot>) returns (next: map<string, seq<ProjectionPoint>>)
    requires forall c :: c in points ==> points[c] == []
    ensures next.Keys == points.Keys
    ensures forall c :: c in next ==> next[c] == HistoryPoints(sorted, c, |sorted|)
  {
    next := points;
    for j := 0 to |sorted|
      invariant next.Keys == points.Keys
      invariant forall c :: c in next ==> next[c] == HistoryPoints(sorted, c, j)
    {
      next := PushSnapshot(next, sorted[j]);
    }
  }

  /** The projection loop: one pass per area, in area order. */
  method ProjectAreas(points: map<string, seq<ProjectionPoint>>, areas: seq<Area>) returns (next: map<string, seq<ProjectionPoint>>)
    requires forall k :: 0 <= k < |areas| ==> areas[k].id in points
    ensures next == ProjectAll(points, areas, |areas|)
  {
    next := points;
    for i := 0 to |areas|
      invariant next == ProjectAll(points, areas, i)
    {
      var projected := ProjectCenter(next[areas[i].id]);
      next := next[areas[i].id := projected];
    }
  }

  /** A line sorted by round, ties in their original order. */
  function SortByRound(line: seq<ProjectionPoint>): seq<ProjectionPoint>
  {
    StableSort(line, PointRound)
  }

  /** The lines after the first n centres' lines are put through `sort`. */
  function SortAll(points: map<string, seq<ProjectionPoint>>, centers: seq<string>, n: nat,
                   sort: seq<ProjectionPoint> -> seq<ProjectionPoint>): (r: map<string, seq<ProjectionPoint>>)
    requires n <= |centers| && forall k :: 0 <= k < |centers| ==> centers[k] in points
    ensures r.Keys == points.Keys
  {
    if n == 0 then points
    else
      var m := SortAll(points, centers, n - 1, sort);
      m[centers[n - 1] := sort(m[centers[n - 1]])]
  }

  /** Sorting other centres' lines leaves a centre's line alone. */
  lemma {:induction false} SortAllOthers(points: map<string, seq<ProjectionPoint>>, centers: seq<string>, n: nat,
                                         sort: seq<ProjectionPoint> -> seq<ProjectionPoint>, c: string)
    requires n <= |centers| && forall k :: 0 <= k < |centers| ==> centers[k] in points
    requires c in points && forall k :: 0 <= k < n ==> centers[k] != c
    ensures SortAll(points, centers, n, sort)[c] == points[c]
  {
    if n > 0 {
      SortAllOthers(points, centers, n - 1, sort, c);
    }
  }

  /** A centre listed once among the first n has its line sorted exactly once. */
  lemma {:induction false} SortAllOnce(points: map<string, seq<ProjectionPoint>>, centers: seq<string>, n: nat,
                                       sort: seq<ProjectionPoint> -> seq<ProjectionPoint>, k: nat)
    requires k < n <= |centers| && forall j :: 0 <= j < |centers| ==> centers[j] in points
    requires forall j :: 0 <= j < n && j != k ==> centers[j] != centers[k]
    ensures SortAll(points, centers, n, sort)[centers[k]] == sort(points[centers[k]])
  {
    if n - 1 == k {
      SortAllOthers(points, centers, k, sort, centers[k]);
    } else {
      SortAllOnce(points, centers, n - 1, sort, k);
    }
  }

  /** The last loop: every centre's line sorted by round. */
  method SortLines(points: map<string, seq<ProjectionPoint>>, centers: seq<string>) returns (next: map<string, seq<ProjectionPoint>>)
    requires forall a, b :: 0 <= a < b < |centers| ==> centers[a] != centers[b]
    requires forall c :: c in points <==> c in centers
    ensures next.Keys == points.Keys
    ensures forall c :: c in next ==> next[c] == StableSort(points[c], PointRound)
  {
    var sort := SortByRound;
    next := points;
    for i := 0 to |centers|
      invariant next == SortAll(points, centers, i, sort)
    {
      next := next[centers[i] := sort(next[centers[i]])];
    }
    SortAllSortsEach(points, centers);
  }

  /** With distinct centres, sorting every centre's line sorts each of them exactly once. */
  lemma SortAllSortsEach(points: map<string, seq<ProjectionPoint>>, centers: seq<string>)
    requires forall a, b :: 0 <= a < b < |centers| ==> centers[a] != centers[b]
    requires forall c :: c in points <==> c in centers
    ensures forall c :: c in points ==> SortAll(points, centers, |centers|, SortByRound)[c] == StableSort(points[c], PointRound)
  {
    forall c | c in points ensures SortAll(points, centers, |centers|, SortByRound)[c] == StableSort(points[c], PointRound) {
      var k :| 0 <= k < |centers| && centers[k] == c;
      SortAllOnce(points, centers, |centers|, SortByRound, k);
    }
  }

  /**
   * `centerData`: an empty line per area id; the real points of the history sorted by
   * round; a projection pass per area; and finally every line sorted by round.
   */
  method CenterData(areas: seq<Area>, history: seq<RoundSnapshot>) returns (pr: Projection)
    ensures ValidProjection(pr)
    ensures pr.centers == DominancePeriods.DistinctIds(areas, |areas|)
    ensures forall c :: c in pr.points ==>
              pr.points[c] == StableSort(ProjectAll(RealLines(pr.centers, StableSort(history, RoundKey)), areas, |areas|)[c], PointRound)
  {
    var centers, points := EmptyLines(areas);
    var sorted := StableSort(history, RoundKey);
    points := PushHistory(points, sorted);
    assert points == RealLines(centers, sorted);
    forall k | 0 <= k < |areas| ensures areas[k].id in points {
      assert areas[k].id in centers;
    }
    var projected := ProjectAreas(points, areas);
    points := SortLines(projected, centers);
    pr := Projection(centers, points);
  }

  /** After `centerData`, every line runs in round order and holds the points it was given. */
  lemma SortedLines(line: seq<ProjectionPoint>)
    ensures var r := StableSort(line, PointRound);
            multiset(r) == multiset(line) &&
            forall a, b :: 0 <= a < b < |r| ==> r[a].round <= r[b].round
  {
    var r := StableSort(line, PointRound);
    StableSortPermutes(line, PointRound);
    forall a, b | 0 <= a < b < |r| ensures r[a].round <= r[b].round {
      assert PointRound(r[a]) <= PointRound(r[b]);
    }
  }

  // ---------------------------------------------------------------------------
  // Value axis
  // ---------------------------------------------------------------------------

  /** The least and greatest value seen so far, None before any. */
  datatype Range = Range(lo: real, hi: real)

  /** `min = Math.min(min, v); max = Math.max(max, v)` for one more value. */
  function Extend(b: Option<Range>, v: real): (r: Option<Range>)
  {
    match b
    case None => Some(Range(v, v))
    case Some(rg) => Some(Range(if v < rg.lo then v else rg.lo, Max(rg.hi, v)))
  }

  /** The running minimum and maximum over a list of values, from the first to the last. */
  function BoundsOf(values: seq<real>): Option<Range>
  {
    if values == [] then None else Extend(BoundsOf(values[..|values| - 1]), values[|values| - 1])
  }

  /** The bounds are None exactly for no values, and otherwise are the least and greatest value. */
  lemma {:induction false} BoundsAreMinAndMax(values: seq<real>)
    ensures BoundsOf(values).None? <==> values == []
    ensures BoundsOf(values).Some? ==>
              var rg := BoundsOf(values).value;
              rg.lo in values && rg.hi in values && forall v :: v in values ==> rg.lo <= v <= rg.hi
  {
    if values != [] {
      var init := values[..|values| - 1];
      BoundsAreMinAndMax(init);
      assert values == init + [values[|values| - 1]];
    }
  }

  /** The values of a line, in order. */
  function ValuesOf(points: seq<ProjectionPoint>): (r: seq<real>)
    ensures |r| == |points| && forall k :: 0 <= k < |points| ==> r[k] == points[k].value
  {
    seq(|points|, k requires 0 <= k < |points| => points[k].value)
  }

  /** The values of the first n centres' lines, centre after centre. */
  function AllValues(pr: Projection, n: nat): seq<real>
    requires ValidProjection(pr) && n <= |pr.centers|
  {
    if n == 0 then [] else AllValues(pr, n - 1) + ValuesOf(pr.points[pr.centers[n - 1]])
  }

  /** The axis domain. */
  datatype Domain = Domain(min: real, max: real)

  /**
   * The domain from the bounds: 10% of the spread added on each side (1 when the spread is
   * 0), and the lower end raised to 0. With no values at all the source's domain runs from
   * +Infinity to -Infinity; here it is None.
   */
  function DomainOf(b: Option<Range>): Option<Domain>
  {
    match b
    case None => None
    case Some(rg) =>
      var spread := (rg.hi - rg.lo) * 0.1;
      var padding := if spread == 0.0 then 1.0 else spread;
      Some(Domain(Max(0.0, rg.lo - padding), rg.hi + padding))
  }

  /** The inner loop of `yDomain`: one line's values. */
  method ExtendByLine(b: Option<Range>, seen: seq<real>, points: seq<ProjectionPoint>) returns (next: Option<Range>)
    requires b == BoundsOf(seen)
    ensures next == BoundsOf(seen + ValuesOf(points))
  {
    next := b;
    assert seen + ValuesOf(points)[..0] == seen;
    for j := 0 to |points|
      invariant next == BoundsOf(seen + ValuesOf(points)[..j])
    {
      assert seen + ValuesOf(points)[..j + 1] == (seen + ValuesOf(points)[..j]) + [points[j].value];
      next := match next
        case None => Some(Range(points[j].value, points[j].value))
        case Some(rg) => Some(Range(if points[j].value < rg.lo then points[j].value else rg.lo, Max(rg.hi, points[j].value)));
      assert (seen + ValuesOf(points)[..j + 1])[..|seen| + j] == seen + ValuesOf(points)[..j];
    }
    assert ValuesOf(points)[..|points|] == ValuesOf(points);
  }

  /** `yDomain`: the least and greatest value over every centre's line, then padded. */
  method YDomain(pr: Projection) returns (d: Option<Domain>)
    requires ValidProjection(pr)
    ensures d == DomainOf(BoundsOf(AllValues(pr, |pr.centers|)))
  {
    var b: Option<Range> := None;
    for i := 0 to |pr.centers|
      invariant b == BoundsOf(AllValues(pr, i))
    {
      b := ExtendByLine(b, AllValues(pr, i), pr.points[pr.centers[i]]);
    }
    d := DomainOf(b);
  }

  /**
   * The domain never starts below 0, ends above every value, and, when no value is
   * negative, starts at or below every value and has a positive range.
   */
  lemma DomainEnclosesValues(values: seq<real>)
    requires values != []
    ensures var d := DomainOf(BoundsOf(values)).value;
            d.min >= 0.0 && (forall v :: v in values ==> v < d.max) &&
            ((forall v :: v in values ==> v >= 0.0) ==> d.max - d.min > 0.0 && forall v :: v in values ==> d.min <= v)
  {
    BoundsAreMinAndMax(values);
  }

  /** `valueToY`: the domain's ends map to the plot's bottom (380) and top (60), a flat domain to the middle. */
  function ValueToY(d: Domain, value: real): (y: real)
    ensures d.max - d.min == 0.0 ==> y == 220.0
  {
    var range := d.max - d.min;
    if range == 0.0 then 60.0 + 320.0 / 2.0
    else
      var normalized := (value - d.min) / range;
      60.0 + 320.0 - normalized * 320.0
  }

  /**
   * On a non-empty domain the lower end is drawn at the plot's bottom (380), the upper end
   * at its top (60), every value between them inside the plot, and a larger value higher.
   */
  lemma ValueInsidePlot(d: Domain, value: real, other: real)
    requires d.min < d.max
    ensures ValueToY(d, d.min) == 380.0 && ValueToY(d, d.max) == 60.0
    ensures d.min <= value <= d.max ==> 60.0 <= ValueToY(d, value) <= 380.0
    ensures value < other ==> ValueToY(d, other) < ValueToY(d, value)
  {
    var range := d.max - d.min;
    assert (d.max - d.min) / range == 1.0;
    var normalized := (value - d.min) / range;
    assert normalized * range == value - d.min;
    if value < other {
      var normalizedOther := (other - d.min) / range;
      assert normalizedOther * range == other - d.min;
    }
  }

  // ---------------------------------------------------------------------------
  // Ticks, labels and paths
  // ---------------------------------------------------------------------------

  /** `xTicks`: every 1000 years from 0 to 12000. */
  method XTicks() returns (ticks: seq<real>)
    ensures |ticks| == 13
    ensures forall i :: 0 <= i < 13 ==> ticks[i] == i as real * 1000.0
  {
    ticks := [];
    var year := 0.0;
    while year <= 12000.0
      invariant year == |ticks| as real * 1000.0 && |ticks| <= 13
      invariant forall i :: 0 <= i < |ticks| ==> ticks[i] == i as real * 1000.0
      decreases 12000.0 - year
    {
      ticks := ticks + [year];
      year := year + 1000.0;
    }
  }

  /** A round label is styled as predicted exactly for the rounds after the last real one. */
  function IsPredictedRound(round: int): (b: bool)
    ensures b <==> round >= 9
  {
    round > REAL_ROUNDS
  }

  /** `yearToX` on this chart: years 0..12000 across the 840-unit plot that starts 80 units in. */
  function YearToX(year: real): (x: real)
    ensures year == 0.0 ==> x == 80.0
    ensures year == 12000.0 ==> x == 920.0
  {
    80.0 + (year / 12000.0) * 840.0
  }

  /** One step of a path: a move or a line to a point. */
  datatype PathCommand = MoveTo(x: real, y: real) | LineTo(x: real, y: real)

  /** `points.filter(p => p.isPredicted === predicted)`. */
  function Filter(points: seq<ProjectionPoint>, predicted: bool): (r: seq<ProjectionPoint>)
    ensures forall p :: p in r <==> p in points && p.isPredicted == predicted
    ensures |r| <= |points|
  {
    if points == [] then []
    else if points[0].isPredicted == predicted then [points[0]] + Filter(points[1..], predicted)
    else Filter(points[1..], predicted)
  }

  /** Filtering a concatenation filters each part in place: `filter` keeps order and repeats. */
  lemma {:induction false} FilterAppend(a: seq<ProjectionPoint>, b: seq<ProjectionPoint>, predicted: bool)
    ensures Filter(a + b, predicted) == Filter(a, predicted) + Filter(b, predicted)
  {
    if a == [] {
      assert a + b == b;
    } else {
      var ab := a + b;
      assert ab[0] == a[0] && ab[1..] == a[1..] + b;
      FilterAppend(a[1..], b, predicted);
      if a[0].isPredicted == predicted {
        assert Filter(ab, predicted) == [a[0]] + Filter(a[1..] + b, predicted);
      } else {
        assert Filter(ab, predicted) == Filter(a[1..] + b, predicted);
      }
    }
  }

  /** The points are in round order, as the sort leaves each line. */
  predicate RoundOrdered(points: seq<ProjectionPoint>)
  {
    forall i, j :: 0 <= i < j < |points| ==> points[i].round <= points[j].round
  }

  /** Filtering keeps a lower bound on the rounds. */
  lemma {:induction false} FilterKeepsLowerBound(points: seq<ProjectionPoint>, predicted: bool, lo: int)
    requires forall i :: 0 <= i < |points| ==> lo <= points[i].round
    ensures var r := Filter(points, predicted);
            forall i :: 0 <= i < |r| ==> lo <= r[i].round
  {
    if points != [] {
      FilterKeepsLowerBound(points[1..], predicted, lo);
    }
  }

  /** Dropping the first point keeps round order, and the first point bounds the rest. */
  lemma RoundOrderedTail(points: seq<ProjectionPoint>)
    requires RoundOrdered(points) && points != []
    ensures RoundOrdered(points[1..])
    ensures forall i :: 0 <= i < |points[1..]| ==> points[0].round <= points[1..][i].round
  {
    var tail := points[1..];
    forall i | 0 <= i < |tail| ensures points[0].round <= tail[i].round {
      assert tail[i] == points[i + 1];
    }
    forall i, j | 0 <= i < j < |tail| ensures tail[i].round <= tail[j].round {
      assert tail[i] == points[i + 1] && tail[j] == points[j + 1];
    }
  }

  /** A point no later than every point of an ordered line may go in front of it. */
  lemma RoundOrderedCons(p: ProjectionPoint, rest: seq<ProjectionPoint>)
    requires RoundOrdered(rest) && forall i :: 0 <= i < |rest| ==> p.round <= rest[i].round
    ensures RoundOrdered([p] + rest)
  {
    var r := [p] + rest;
    forall i, j | 0 <= i < j < |r| ensures r[i].round <= r[j].round {
      assert r[j] == rest[j - 1];
      if i > 0 {
        assert r[i] == rest[i - 1];
      }
    }
  }

  /** A line in round order stays in round order after filtering. */
  lemma {:induction false} FilterKeepsRoundOrder(points: seq<ProjectionPoint>, predicted: bool)
    requires RoundOrdered(points)
    ensures RoundOrdered(Filter(points, predicted))
  {
    if points != [] {
      var tail := points[1..];
      RoundOrderedTail(points);
      FilterKeepsRoundOrder(tail, predicted);
      if points[0].isPredicted == predicted {
        FilterKeepsLowerBound(tail, predicted, points[0].round);
        RoundOrderedCons(points[0], Filter(tail, predicted));
      }
    }
  }

  /** The point a path command goes to. */
  function Target(d: Domain, p: ProjectionPoint): (real, real)
  {
    (YearToX(p.year), ValueToY(d, p.value))
  }

  /** The solid path: a move to the first real point, then a line to each next one. */
  function RealPath(d: Domain, solid: seq<ProjectionPoint>): (r: seq<PathCommand>)
    ensures |r| == |solid|
    ensures forall i :: 0 <= i < |solid| ==>
              (r[i].x, r[i].y) == Target(d, solid[i]) && (r[i].MoveTo? <==> i == 0)
  {
    seq(|solid|, i requires 0 <= i < |solid| =>
      var t := Target(d, solid[i]);
      if i == 0 then MoveTo(t.0, t.1) else LineTo(t.0, t.1))
  }

  /**
   * The dashed path: a line to each predicted point; the first one, when there are real
   * points, is preceded by a move to the last real point, so the dashed line continues
   * the solid one.
   */
  function PredictedPath(d: Domain, solid: seq<ProjectionPoint>, predicted: seq<ProjectionPoint>): (r: seq<PathCommand>)
    ensures |r| == |predicted| + (if predicted != [] && solid != [] then 1 else 0)
  {
    var lines := seq(|predicted|, i requires 0 <= i < |predicted| =>
      var t := Target(d, predicted[i]);
      LineTo(t.0, t.1));
    if predicted != [] && solid != [] then
      var last := Target(d, solid[|solid| - 1]);
      [MoveTo(last.0, last.1)] + lines
    else lines
  }

  /** `generatePath`: the solid path of the real points and the dashed path of the predicted ones. */
  function GeneratePath(d: Domain, points: seq<ProjectionPoint>): (paths: (seq<PathCommand>, seq<PathCommand>))
    ensures |paths.0| == |Filter(points, false)|
    ensures points == [] ==> paths.0 == [] && paths.1 == []
  {
    var solid := Filter(points, false);
    var predicted := Filter(points, true);
    (RealPath(d, solid), PredictedPath(d, solid, predicted))
  }

  /**
   * When a line has real and predicted points, the dashed path starts exactly where the
   * solid path ends, and then visits every predicted point in order.
   */
  lemma DashedContinuesSolid(d: Domain, points: seq<ProjectionPoint>)
    requires Filter(points, false) != [] && Filter(points, true) != []
    ensures var (solid, dashed) := GeneratePath(d, points);
            var predicted := Filter(points, true);
            dashed[0].MoveTo? && (dashed[0].x, dashed[0].y) == (solid[|solid| - 1].x, solid[|solid| - 1].y) &&
            |dashed| == |predicted| + 1 &&
            forall i :: 0 <= i < |predicted| ==> dashed[i + 1].LineTo? && (dashed[i + 1].x, dashed[i + 1].y) == Target(d, predicted[i])
  {
    var solid, predicted := Filter(points, false), Filter(points, true);
    assert GeneratePath(d, points) == (RealPath(d, solid), PredictedPath(d, solid, predicted));
  }
}
