/**
 * The data behind the dominance chart (`DominancePeriodsChart`): after each round, every
 * centre's share of the round's total acc × power, and for every round the centre with
 * the greatest share, the first such centre in area order winning ties.
 */
module DominancePeriods {
  import opened Common
  import opened Types
  import opened Sorting

  /** One point of a centre's line. */
  datatype DominancePoint = DominancePoint(round: int, year: real, dominance: real, acc: real, power: real, rawValue: real)

  /**
   * `dataByCenter`: the centres in the order their keys were created, and each centre's
   * points.
   */
  datatype Series = Series(centers: seq<string>, points: map<string, seq<DominancePoint>>)

  /** Every centre appears once and has a line, and every line belongs to a centre. */
  predicate ValidSeries(sr: Series)
  {
    && (forall a, b :: 0 <= a < b < |sr.centers| ==> sr.centers[a] != sr.centers[b])
    && sr.points.Keys == set c | c in sr.centers
  }

  /** The years a round ends at: round r ends at year r · 1000. */
  function RoundToYear(round: int): real
  {
    round as real * 1000.0
  }

  /** `yearToX` on this chart: years 0..8000 across the 840-unit plot that starts 80 units in. */
  function YearToX(year: real): (x: real)
    ensures year == 0.0 ==> x == 80.0
    ensures year == 8000.0 ==> x == 920.0
  {
    80.0 + (year / 8000.0) * 840.0
  }

  // ---------------------------------------------------------------------------
  // Centres
  // ---------------------------------------------------------------------------

  /** The ids of the first n areas, each once, in the order of first occurrence. */
  function DistinctIds(areas: seq<Area>, n: nat): (ids: seq<string>)
    requires n <= |areas|
    ensures forall a, b :: 0 <= a < b < |ids| ==> ids[a] != ids[b]
    ensures forall id :: id in ids <==> exists k :: 0 <= k < n && areas[k].id == id
  {
    if n == 0 then []
    else
      var prev := DistinctIds(areas, n - 1);
      if areas[n - 1].id in prev then prev else prev + [areas[n - 1].id]
  }

  // ---------------------------------------------------------------------------
  // One snapshot's shares
  // ---------------------------------------------------------------------------

  /** An entry's raw strength, acc × power. */
  function Raw(e: AreaSnapshot): real
  {
    e.acc * e.power
  }

  /** `totalRaw`: the raw strengths of the first n entries added up, ids in `areas` or not. */
  function TotalRaw(entries: seq<AreaSnapshot>, n: nat): real
    requires n <= |entries|
  {
    if n == 0 then 0.0 else TotalRaw(entries, n - 1) + Raw(entries[n - 1])
  }

  /** The position of the last entry with the given id: the one whose raw `rawValues` keeps. */
  function LastIndex(entries: seq<AreaSnapshot>, id: string, n: nat): (r: Option<nat>)
    requires n <= |entries|
    ensures r.None? <==> forall k :: 0 <= k < n ==> entries[k].areaId != id
    ensures r.Some? ==> r.value < n && entries[r.value].areaId == id &&
                        forall j :: r.value < j < n ==> entries[j].areaId != id
  {
    if n == 0 then None
    else if entries[n - 1].areaId == id then Some(n - 1)
    else LastIndex(entries, id, n - 1)
  }

  /** `rawValues[id]` once every entry has been seen. */
  function RawOf(entries: seq<AreaSnapshot>, id: string): real
    requires LastIndex(entries, id, |entries|).Some?
  {
    Raw(entries[LastIndex(entries, id, |entries|).value])
  }

  /** `rawValues` after the first n entries: each id seen so far, with its last raw strength. */
  ghost predicate RawValuesUpTo(entries: seq<AreaSnapshot>, rawValues: map<string, real>, n: nat)
    requires n <= |entries|
  {
    && (forall id :: id in rawValues <==> LastIndex(entries, id, n).Some?)
    && (forall id :: id in rawValues ==> rawValues[id] == Raw(entries[LastIndex(entries, id, n).value]))
  }

  /** Storing entry n's raw strength under its id extends `rawValues` by one entry. */
  lemma RawValuesStep(entries: seq<AreaSnapshot>, rawValues: map<string, real>, n: nat)
    requires n < |entries| && RawValuesUpTo(entries, rawValues, n)
    ensures RawValuesUpTo(entries, rawValues[entries[n].areaId := Raw(entries[n])], n + 1)
  {
    var next := rawValues[entries[n].areaId := Raw(entries[n])];
    forall id ensures id in next <==> LastIndex(entries, id, n + 1).Some? {
      if id != entries[n].areaId {
        assert LastIndex(entries, id, n + 1) == LastIndex(entries, id, n);
      }
    }
  }

  /**
   * The first loop over a snapshot: `rawValues` (each id's last raw strength) and
   * `totalRaw`.
   */
  method SnapshotTotals(entries: seq<AreaSnapshot>) returns (rawValues: map<string, real>, totalRaw: real)
    ensures forall id :: id in rawValues <==> LastIndex(entries, id, |entries|).Some?
    ensures forall id :: id in rawValues ==> rawValues[id] == RawOf(entries, id)
    ensures totalRaw == TotalRaw(entries, |entries|)
  {
    rawValues := map[];
    totalRaw := 0.0;
    for i := 0 to |entries|
      invariant RawValuesUpTo(entries, rawValues, i)
      invariant totalRaw == TotalRaw(entries, i)
    {
      var raw := entries[i].acc * entries[i].power;
      RawValuesStep(entries, rawValues, i);
      rawValues := rawValues[entries[i].areaId := raw];
      totalRaw := totalRaw + raw;
    }
  }

  /** The share of entry k: its id's raw over the total, or 0 when the total is not positive. */
  function Dominance(s: RoundSnapshot, k: nat): real
    requires k < |s.areas|
  {
    var total := TotalRaw(s.areas, |s.areas|);
    if total > 0.0 then RawOf(s.areas, s.areas[k].areaId) / total else 0.0
  }

  /** The point that entry k of a snapshot adds to its centre's line. */
  function PointAt(s: RoundSnapshot, k: nat): (p: DominancePoint)
    requires k < |s.areas|
    ensures p.round == s.round && p.dominance == Dominance(s, k)
  {
    var e := s.areas[k];
    DominancePoint(s.round, RoundToYear(s.round), Dominance(s, k), e.acc, e.power, RawOf(s.areas, e.areaId))
  }

  /** The points the first n entries of a snapshot add to the line of `id`. */
  function EntryPoints(s: RoundSnapshot, id: string, n: nat): (r: seq<DominancePoint>)
    requires n <= |s.areas|
    ensures forall p :: p in r ==> p.round == s.round
  {
    if n == 0 then []
    else EntryPoints(s, id, n - 1) + (if s.areas[n - 1].areaId == id then [PointAt(s, n - 1)] else [])
  }

  /** The points the first n snapshots of a history add to the line of `id`. */
  function HistoryPoints(history: seq<RoundSnapshot>, id: string, n: nat): seq<DominancePoint>
    requires n <= |history|
  {
    if n == 0 then [] else HistoryPoints(history, id, n - 1) + EntryPoints(history[n - 1], id, |history[n - 1].areas|)
  }

  /** The lines after the first n entries of a snapshot have pushed their points. */
  function PushAll(points: map<string, seq<DominancePoint>>, s: RoundSnapshot, n: nat): (r: map<string, seq<DominancePoint>>)
    requires n <= |s.areas|
    ensures r.Keys == points.Keys
  {
    if n == 0 then points
    else
      var m := PushAll(points, s, n - 1);
      var id := s.areas[n - 1].areaId;
      if id in m then m[id := m[id] + [PointAt(s, n - 1)]] else m
  }

  /** Each line gains, in entry order, exactly the points of its own entries. */
  lemma {:induction false} PushAllLines(points: map<string, seq<DominancePoint>>, s: RoundSnapshot, n: nat, c: string)
    requires n <= |s.areas| && c in points
    ensures PushAll(points, s, n)[c] == points[c] + EntryPoints(s, c, n)
  {
    if n > 0 {
      PushAllLines(points, s, n - 1, c);
      var m := PushAll(points, s, n - 1);
      if s.areas[n - 1].areaId == c {
        assert PushAll(points, s, n)[c] == (points[c] + EntryPoints(s, c, n - 1)) + [PointAt(s, n - 1)];
        assert EntryPoints(s, c, n) == EntryPoints(s, c, n - 1) + [PointAt(s, n - 1)];
      } else {
        assert PushAll(points, s, n)[c] == m[c];
        assert EntryPoints(s, c, n) == EntryPoints(s, c, n - 1) + [];
      }
    }
  }

  /** The second loop over a snapshot: every entry of a centre pushes its point. */
  method PushSnapshot(points: map<string, seq<DominancePoint>>, s: RoundSnapshot) returns (next: map<string, seq<DominancePoint>>)
    ensures next.Keys == points.Keys
    ensures forall c :: c in next ==> next[c] == points[c] + EntryPoints(s, c, |s.areas|)
  {
    var rawValues, totalRaw := SnapshotTotals(s.areas);
    next := points;
    for i := 0 to |s.areas|
      invariant next == PushAll(points, s, i)
    {
      var e := s.areas[i];
      if e.areaId in next {
        assert LastIndex(s.areas, e.areaId, |s.areas|).Some?;
        var raw := rawValues[e.areaId];
        var dominance := if totalRaw > 0.0 then raw / totalRaw else 0.0;
        var point := DominancePoint(s.round, RoundToYear(s.round), dominance, e.acc, e.power, raw);
        assert point == PointAt(s, i);
        next := next[e.areaId := next[e.areaId] + [point]];
      }
    }
    forall c | c in next ensures next[c] == points[c] + EntryPoints(s, c, |s.areas|) {
      PushAllLines(points, s, |s.areas|, c);
    }
  }

  /**
   * `dominanceData`: an empty line per area id, then the history sorted by round, each
   * snapshot pushing its centres' points.
   */
  method DominanceData(areas: seq<Area>, history: seq<RoundSnapshot>) returns (sr: Series)
    ensures ValidSeries(sr)
    ensures sr.centers == DistinctIds(areas, |areas|)
    ensures forall c :: c in sr.points ==>
              sr.points[c] == HistoryPoints(StableSort(history, RoundKey), c, |history|)
  {
    var centers: seq<string> := [];
    var points: map<string, seq<DominancePoint>> := map[];
    for i := 0 to |areas|
      invariant centers == DistinctIds(areas, i)
      invariant forall c :: c in points <==> c in centers
      invariant forall c :: c in points ==> points[c] == []
    {
      if areas[i].id !in points {
        centers := centers + [areas[i].id];
      }
      points := points[areas[i].id := []];
    }
    var sorted := StableSort(history, RoundKey);
    for j := 0 to |sorted|
      invariant forall c :: c in points <==> c in centers
      invariant forall c :: c in points ==> points[c] == HistoryPoints(sorted, c, j)
    {
      points := PushSnapshot(points, sorted[j]);
    }
    sr := Series(centers, points);
  }

  /** With distinct ids, each entry's share is its own raw strength over the total. */
  lemma {:induction false} DistinctIdsOwnRaw(entries: seq<AreaSnapshot>, k: nat)
    requires forall a, b :: 0 <= a < b < |entries| ==> entries[a].areaId != entries[b].areaId
    requires k < |entries|
    ensures RawOf(entries, entries[k].areaId) == Raw(entries[k])
  {
    var last := LastIndex(entries, entries[k].areaId, |entries|).value;
    assert last == k;
  }

  /** The shares of the first n entries added up. */
  function ShareSum(s: RoundSnapshot, n: nat): real
    requires n <= |s.areas|
  {
    if n == 0 then 0.0 else ShareSum(s, n - 1) + Dominance(s, n - 1)
  }

  /** With distinct ids and a positive total, the first n shares add up to their raw part of the total. */
  lemma {:induction false} ShareSumPrefix(s: RoundSnapshot, n: nat)
    requires forall a, b :: 0 <= a < b < |s.areas| ==> s.areas[a].areaId != s.areas[b].areaId
    requires TotalRaw(s.areas, |s.areas|) > 0.0
    requires n <= |s.areas|
    ensures ShareSum(s, n) == TotalRaw(s.areas, n) / TotalRaw(s.areas, |s.areas|)
  {
    if n > 0 {
      ShareSumPrefix(s, n - 1);
      DistinctIdsOwnRaw(s.areas, n - 1);
      var total := TotalRaw(s.areas, |s.areas|);
      assert TotalRaw(s.areas, n - 1) / total + Raw(s.areas[n - 1]) / total ==
             (TotalRaw(s.areas, n - 1) + Raw(s.areas[n - 1])) / total;
    }
  }

  /**
   * When a snapshot names each area once and its total is positive, the shares of all its
   * entries add up to 1.
   */
  lemma SharesSumToOne(s: RoundSnapshot)
    requires forall a, b :: 0 <= a < b < |s.areas| ==> s.areas[a].areaId != s.areas[b].areaId
    requires TotalRaw(s.areas, |s.areas|) > 0.0
    ensures ShareSum(s, |s.areas|) == 1.0
  {
    ShareSumPrefix(s, |s.areas|);
  }

  /** With no negative raw strength, any one entry's strength is at most the total. */
  lemma {:induction false} RawAtMostTotal(entries: seq<AreaSnapshot>, k: nat, n: nat)
    requires forall j :: 0 <= j < |entries| ==> Raw(entries[j]) >= 0.0
    requires k < n <= |entries|
    ensures 0.0 <= Raw(entries[k]) <= TotalRaw(entries, n)
  {
    if k < n - 1 {
      RawAtMostTotal(entries, k, n - 1);
    } else {
      TotalNonNegative(entries, n - 1);
    }
  }

  /** With no negative raw strength, the total is not negative. */
  lemma {:induction false} TotalNonNegative(entries: seq<AreaSnapshot>, n: nat)
    requires forall j :: 0 <= j < |entries| ==> Raw(entries[j]) >= 0.0
    requires n <= |entries|
    ensures TotalRaw(entries, n) >= 0.0
  {
    if n > 0 {
      TotalNonNegative(entries, n - 1);
    }
  }

  /** With no negative raw strength, every share lies in [0, 1]. */
  lemma ShareInUnitRange(s: RoundSnapshot, k: nat)
    requires forall j :: 0 <= j < |s.areas| ==> Raw(s.areas[j]) >= 0.0
    requires k < |s.areas|
    ensures 0.0 <= Dominance(s, k) <= 1.0
  {
    var last := LastIndex(s.areas, s.areas[k].areaId, |s.areas|).value;
    RawAtMostTotal(s.areas, last, |s.areas|);
  }

  /** The points' rounds never decrease along the line. */
  predicate RoundsAscending(ps: seq<DominancePoint>)
  {
    forall a, b :: 0 <= a < b < |ps| ==> ps[a].round <= ps[b].round
  }

  /** The points of a history's first n snapshots carry rounds of those snapshots. */
  lemma {:induction false} HistoryPointRounds(history: seq<RoundSnapshot>, id: string, n: nat, p: DominancePoint)
    requires n <= |history|
    requires p in HistoryPoints(history, id, n)
    ensures exists k :: 0 <= k < n && p.round == history[k].round
  {
    var last := EntryPoints(history[n - 1], id, |history[n - 1].areas|);
    if p !in last {
      HistoryPointRounds(history, id, n - 1, p);
    }
  }

  /**
   * A centre's line follows the history's round order: on a history sorted by round, its
   * points' rounds never decrease.
   */
  lemma {:induction false} LinesFollowRounds(history: seq<RoundSnapshot>, id: string, n: nat)
    requires forall a, b :: 0 <= a < b < |history| ==> history[a].round <= history[b].round
    requires n <= |history|
    ensures RoundsAscending(HistoryPoints(history, id, n))
  {
    if n > 0 {
      LinesFollowRounds(history, id, n - 1);
      var prev := HistoryPoints(history, id, n - 1);
      var last := EntryPoints(history[n - 1], id, |history[n - 1].areas|);
      var ps := prev + last;
      forall a, b | 0 <= a < b < |ps| ensures ps[a].round <= ps[b].round {
        if b < |prev| {
          assert ps[a] == prev[a] && ps[b] == prev[b];
        } else {
          assert ps[b] == last[b - |prev|] && ps[b] in last;
          if a < |prev| {
            assert ps[a] == prev[a] && ps[a] in prev;
            HistoryPointRounds(history, id, n - 1, ps[a]);
            var k :| 0 <= k < n - 1 && ps[a].round == history[k].round;
            assert history[k].round <= history[n - 1].round;
          } else {
            assert ps[a] == last[a - |prev|] && ps[a] in last;
          }
        }
      }
    }
  }

  /** The lines `dominanceData` builds run in round order. */
  lemma DominanceLinesAscending(history: seq<RoundSnapshot>, id: string)
    ensures RoundsAscending(HistoryPoints(StableSort(history, RoundKey), id, |history|))
  {
    var sorted := StableSort(history, RoundKey);
    forall a, b | 0 <= a < b < |sorted| ensures sorted[a].round <= sorted[b].round {
      assert RoundKey(sorted[a]) <= RoundKey(sorted[b]);
    }
    LinesFollowRounds(sorted, id, |history|);
  }

  // ---------------------------------------------------------------------------
  // The dominant centre of each round
  // ---------------------------------------------------------------------------

  /** `points.find(p => p.round === round)`. */
  function FindRound(points: seq<DominancePoint>, round: int): (r: Option<DominancePoint>)
    ensures r.None? <==> forall k :: 0 <= k < |points| ==> points[k].round != round
    ensures r.Some? ==> r.value.round == round
    ensures r.Some? ==> exists k :: 0 <= k < |points| && points[k] == r.value &&
                                    forall j :: 0 <= j < k ==> points[j].round != round
  {
    if points == [] then None
    else if points[0].round == round then Some(points[0])
    else
      var r := FindRound(points[1..], round);
      assert r.Some? ==> exists k :: 0 <= k < |points[1..]| && points[1..][k] == r.value &&
                                     forall j :: 0 <= j < k ==> points[1..][j].round != round;
      r
  }

  /** The round point of the k-th centre, if it has one. */
  function PointOf(sr: Series, round: int, k: nat): Option<DominancePoint>
    requires ValidSeries(sr) && k < |sr.centers|
  {
    FindRound(sr.points[sr.centers[k]], round)
  }

  /**
   * The centre the scan over the first n centres settles on: a centre replaces the current
   * one only when its share is strictly greater (the scan starts from -1).
   */
  function LeaderIndex(sr: Series, round: int, n: nat): (r: Option<nat>)
    requires ValidSeries(sr) && n <= |sr.centers|
    ensures r.Some? ==> r.value < n && PointOf(sr, round, r.value).Some?
  {
    if n == 0 then None
    else
      var prev := LeaderIndex(sr, round, n - 1);
      var best := if prev.Some? then PointOf(sr, round, prev.value).value.dominance else -1.0;
      match PointOf(sr, round, n - 1)
      case Some(p) => if p.dominance > best then Some(n - 1) else prev
      case None => prev
  }

  /** The share the scan over the first n centres holds, -1 before any. */
  function BestShare(sr: Series, round: int, n: nat): real
    requires ValidSeries(sr) && n <= |sr.centers|
  {
    match LeaderIndex(sr, round, n)
    case None => -1.0
    case Some(k) => PointOf(sr, round, k).value.dominance
  }

  /** The id of a round's dominant centre, or "" when there is none. */
  function DominantCenterOf(sr: Series, round: int): string
    requires ValidSeries(sr)
  {
    match LeaderIndex(sr, round, |sr.centers|)
    case None => ""
    case Some(k) => sr.centers[k]
  }

  /** The k-th centre has no point in the round, or one with a share below d. */
  predicate ShareBelow(sr: Series, round: int, k: nat, d: real)
    requires ValidSeries(sr) && k < |sr.centers|
  {
    PointOf(sr, round, k).None? || PointOf(sr, round, k).value.dominance < d
  }

  /** The k-th centre has no point in the round, or one with a share of at most d. */
  predicate ShareAtMost(sr: Series, round: int, k: nat, d: real)
    requires ValidSeries(sr) && k < |sr.centers|
  {
    PointOf(sr, round, k).None? || PointOf(sr, round, k).value.dominance <= d
  }

  /**
   * Among the first n centres, the k-th has a point whose share beats every earlier
   * centre's strictly and every later centre's or ties it.
   */
  predicate FirstGreatest(sr: Series, round: int, k: nat, n: nat)
    requires ValidSeries(sr) && k < n <= |sr.centers|
  {
    && PointOf(sr, round, k).Some?
    && (forall j :: 0 <= j < k ==> ShareBelow(sr, round, j, PointOf(sr, round, k).value.dominance))
    && (forall j :: k < j < n ==> ShareAtMost(sr, round, j, PointOf(sr, round, k).value.dominance))
  }

  /**
   * The leader of the first n centres is the first greatest of them, with a share above
   * -1; without a leader no share exceeds -1.
   */
  lemma {:induction false} LeaderIsFirstGreatest(sr: Series, round: int, n: nat)
    requires ValidSeries(sr) && n <= |sr.centers|
    ensures match LeaderIndex(sr, round, n)
            case Some(k) => FirstGreatest(sr, round, k, n) && PointOf(sr, round, k).value.dominance > -1.0
            case None => forall j :: 0 <= j < n ==> ShareAtMost(sr, round, j, -1.0)
  {
    if n > 0 {
      LeaderIsFirstGreatest(sr, round, n - 1);
      var prev := LeaderIndex(sr, round, n - 1);
      var best := BestShare(sr, round, n - 1);
      assert best >= -1.0;
      forall j | 0 <= j < n - 1 ensures ShareAtMost(sr, round, j, best) {
        if prev.Some? && j < prev.value {
          assert ShareBelow(sr, round, j, best);
        }
      }
      match PointOf(sr, round, n - 1)
      case Some(p) =>
        if p.dominance > best {
          assert LeaderIndex(sr, round, n) == Some(n - 1);
          forall j | 0 <= j < n - 1 ensures ShareBelow(sr, round, j, p.dominance) {
            assert ShareAtMost(sr, round, j, best);
          }
        } else {
          assert LeaderIndex(sr, round, n) == prev;
          assert ShareAtMost(sr, round, n - 1, best);
        }
      case None =>
        assert LeaderIndex(sr, round, n) == prev;
        assert ShareAtMost(sr, round, n - 1, best);
    }
  }

  /** How a first-greatest centre's share compares with another centre's. */
  lemma FirstGreatestBeats(sr: Series, round: int, k: nat, j: nat)
    requires ValidSeries(sr) && k < |sr.centers| && j < |sr.centers|
    requires FirstGreatest(sr, round, k, |sr.centers|) && PointOf(sr, round, j).Some?
    ensures j < k ==> PointOf(sr, round, j).value.dominance < PointOf(sr, round, k).value.dominance
    ensures k < j ==> PointOf(sr, round, j).value.dominance <= PointOf(sr, round, k).value.dominance
  {
    var d := PointOf(sr, round, k).value.dominance;
    assert j < k ==> ShareBelow(sr, round, j, d);
    assert k < j ==> ShareAtMost(sr, round, j, d);
  }

  /** A round has at most one first-greatest centre: the rule picks exactly one. */
  lemma FirstGreatestUnique(sr: Series, round: int, k1: nat, k2: nat)
    requires ValidSeries(sr) && k1 < |sr.centers| && k2 < |sr.centers|
    requires FirstGreatest(sr, round, k1, |sr.centers|) && FirstGreatest(sr, round, k2, |sr.centers|)
    ensures k1 == k2
  {
    FirstGreatestBeats(sr, round, k1, k2);
    FirstGreatestBeats(sr, round, k2, k1);
  }

  /**
   * A round in which some centre's share exceeds -1 (every share does, when no raw
   * strength is negative) has a dominant centre, recorded unless its id is empty.
   */
  lemma RoundWithShareHasLeader(sr: Series, round: int, k: nat)
    requires ValidSeries(sr) && k < |sr.centers|
    requires PointOf(sr, round, k).Some? && PointOf(sr, round, k).value.dominance > -1.0
    requires forall j :: 0 <= j < |sr.centers| ==> sr.centers[j] != ""
    ensures DominantCenterOf(sr, round) != ""
  {
    LeaderIsFirstGreatest(sr, round, |sr.centers|);
    assert LeaderIndex(sr, round, |sr.centers|).None? ==> ShareAtMost(sr, round, k, -1.0);
  }

  /** The scan of `dominantByRound` for one round, over the centres in key order. */
  method FindDominant(sr: Series, round: int) returns (dominantCenter: string)
    requires ValidSeries(sr)
    ensures dominantCenter == DominantCenterOf(sr, round)
  {
    var maxDominance := -1.0;
    dominantCenter := "";
    for i := 0 to |sr.centers|
      invariant maxDominance == BestShare(sr, round, i)
      invariant dominantCenter == (match LeaderIndex(sr, round, i) case None => "" case Some(k) => sr.centers[k])
    {
      var point := FindRound(sr.points[sr.centers[i]], round);
      if point.Some? && point.value.dominance > maxDominance {
        maxDominance := point.value.dominance;
        dominantCenter := sr.centers[i];
      }
    }
  }

  /** The rounds that appear among the points of the given centres. */
  function RoundsOf(sr: Series, centers: seq<string>): set<int>
    requires forall c :: c in centers ==> c in sr.points
  {
    set c, i | c in centers && 0 <= i < |sr.points[c]| :: sr.points[c][i].round
  }

  /**
   * `dominantByRound`: for every round some point has, its dominant centre, when that
   * centre's id is not empty.
   */
  method DominantByRound(sr: Series) returns (dominant: map<int, string>)
    requires ValidSeries(sr)
    ensures forall r :: r in dominant <==> r in RoundsOf(sr, sr.centers) && DominantCenterOf(sr, r) != ""
    ensures forall r :: r in dominant ==> dominant[r] == DominantCenterOf(sr, r)
  {
    var rounds: set<int> := {};
    for i := 0 to |sr.centers|
      invariant rounds == RoundsOf(sr, sr.centers[..i])
    {
      var points := sr.points[sr.centers[i]];
      rounds := rounds + set j | 0 <= j < |points| :: points[j].round;
      assert sr.centers[..i + 1] == sr.centers[..i] + [sr.centers[i]];
    }
    assert sr.centers[..|sr.centers|] == sr.centers;
    dominant := map[];
    var left := rounds;
    while left != {}
      invariant left <= rounds
      invariant forall r :: r in dominant <==> r in rounds - left && DominantCenterOf(sr, r) != ""
      invariant forall r :: r in dominant ==> dominant[r] == DominantCenterOf(sr, r)
      decreases left
    {
      var round :| round in left;
      var dominantCenter := FindDominant(sr, round);
      if dominantCenter != "" {
        dominant := dominant[round := dominantCenter];
      }
      left := left - {round};
    }
  }

  // ---------------------------------------------------------------------------
  // Plot coordinates
  // ---------------------------------------------------------------------------

  /** `dominanceToY`: share 0 on the plot's bottom edge (y = 380), share 1 on its top (y = 60). */
  function DominanceToY(value: real): (y: real)
    ensures value == 0.0 ==> y == 380.0
    ensures value == 1.0 ==> y == 60.0
  {
    60.0 + 320.0 - value * 320.0
  }

  /** A greater share is drawn higher. */
  lemma DominanceToYDecreasing(a: real, b: real)
    requires a < b
    ensures DominanceToY(b) < DominanceToY(a)
  {
  }

  /** One highlighted segment, from (x0, y0) to (x1, y1). */
  datatype Segment = Segment(x0: real, y0: real, x1: real, y1: real)

  /**
   * `generateSegmentPath`: round 1's segment runs level from year 0 to its point; a later
   * round's segment runs from the previous round's point to its own; there is none when a
   * needed point is missing.
   */
  function GenerateSegmentPath(points: seq<DominancePoint>, round: int): (r: Option<Segment>)
    ensures r.None? <==> FindRound(points, round).None? || (round != 1 && FindRound(points, round - 1).None?)
    ensures r.Some? ==>
              var p := FindRound(points, round).value;
              r.value.x1 == YearToX(p.year) && r.value.y1 == DominanceToY(p.dominance) &&
              (round == 1 ==> r.value.x0 == YearToX(0.0) && r.value.y0 == r.value.y1) &&
              (round != 1 ==> r.value.x0 == YearToX(RoundToYear(round - 1)) &&
                              r.value.y0 == DominanceToY(FindRound(points, round - 1).value.dominance))
  {
    match FindRound(points, round)
    case None => None
    case Some(point) =>
      var x := YearToX(point.year);
      var y := DominanceToY(point.dominance);
      if round == 1 then Some(Segment(YearToX(0.0), y, x, y))
      else
        match FindRound(points, round - 1)
        case None => None
        case Some(prevPoint) =>
          Some(Segment(YearToX(RoundToYear(round - 1)), DominanceToY(prevPoint.dominance), x, y))
  }
}
