/**
 * The turn and score state of a game (`useGameState`): eight rounds, per-round stat
 * deltas for the five zones applied at most once per round, a choice bonus for the chosen
 * zone, and a per-round history of area snapshots kept sorted and free of duplicates.
 */
module GameState {
  import opened Common
  import opened Types
  import opened Sorting

  // ---------------------------------------------------------------------------
  // Round deltas
  // ---------------------------------------------------------------------------

  /** One zone's stat change for a round; a field absent from the configuration is None. */
  datatype ZoneDelta = ZoneDelta(powerDelta: Option<real>, accDelta: Option<real>)

  /** One configured step (round) and its zones' deltas, in zone order. */
  datatype StepConfig = StepConfig(step: int, zones: seq<ZoneDelta>)

  /** The number of rounds in a game. */
  const LAST_ROUND := 8

  /** The choice bonus added to the chosen zone's power and acc. */
  const CHOICE_BONUS: real := 0.05

  /** The zone ids whose choice counts are tracked from the start. */
  const ZONE_IDS: seq<string> := ["A1", "A2", "A3", "A4", "A5"]

  /** JavaScript's `%` on integers: the remainder takes the sign of the dividend. */
  function JsRem(a: int, b: int): (r: int)
    requires b > 0
    ensures a >= 0 ==> 0 <= r < b
    ensures a < 0 ==> -b < r <= 0
  {
    if a >= 0 then a % b else -((-a) % b)
  }

  /** One pass of the fallback generator's LCG. */
  function Lcg(x: int): (r: int)
    ensures x >= 0 ==> 0 <= r < 233280
  {
    JsRem(x * 9301 + 49297, 233280)
  }

  /**
   * `generateRandomDelta(step, zone)`: a deterministic delta from a seed mixing step and
   * zone, two LCG passes per component, scaled to power in [-0.8, 0.8) and acc in [0.1, 1).
   */
  function GenerateRandomDelta(stepNumber: int, zoneIndex: int): (d: ZoneDelta)
    ensures d.powerDelta.Some? && d.accDelta.Some?
    ensures stepNumber * 1000 + zoneIndex * 100 >= 0 ==>
              -0.8 <= d.powerDelta.value < 0.8 && 0.1 <= d.accDelta.value < 1.0
  {
    var seed := JsRem(stepNumber * 1000 + zoneIndex * 100, 10000);
    var random1 := Lcg(Lcg(seed));
    var normalized1 := random1 as real / 233280.0;
    var random2 := Lcg(Lcg(seed + 1));
    var normalized2 := random2 as real / 233280.0;
    ZoneDelta(Some(normalized1 * 1.6 - 0.8), Some(normalized2 * 0.9 + 0.1))
  }

  /** `Array(5).fill(null).map((_, index) => generateRandomDelta(step, index))`. */
  function GeneratedDeltas(stepNumber: int): (r: seq<ZoneDelta>)
    ensures |r| == 5
    ensures forall i :: 0 <= i < 5 ==> r[i] == GenerateRandomDelta(stepNumber, i)
  {
    seq(5, i => GenerateRandomDelta(stepNumber, i))
  }

  /** For a round of the game every generated delta is within the documented ranges. */
  lemma GeneratedDeltasInRange(stepNumber: int, i: nat)
    requires stepNumber >= 1 && i < 5
    ensures var d := GeneratedDeltas(stepNumber)[i];
            -0.8 <= d.powerDelta.value < 0.8 && 0.1 <= d.accDelta.value < 1.0
  {
  }

  /** `steps.find(s => s.step === stepNumber)`, as the position of the first match. */
  function FindStep(steps: seq<StepConfig>, stepNumber: int): (r: Option<nat>)
    ensures r.Some? ==> r.value < |steps| && steps[r.value].step == stepNumber &&
                        forall j :: 0 <= j < r.value ==> steps[j].step != stepNumber
    ensures r.None? ==> forall j :: 0 <= j < |steps| ==> steps[j].step != stepNumber
  {
    if |steps| == 0 then None
    else if steps[0].step == stepNumber then Some(0)
    else match FindStep(steps[1..], stepNumber)
      case None => None
      case Some(k) => Some(k + 1)
  }

  /**
   * `getStepDeltas(step)`: the zones of the first configured step with that number, else
   * those of the last configured step, else (no configuration yet, or an empty one) five
   * generated deltas.
   */
  function GetStepDeltas(config: Option<seq<StepConfig>>, stepNumber: int): seq<ZoneDelta>
  {
    match config
    case None => GeneratedDeltas(stepNumber)
    case Some(steps) =>
      match FindStep(steps, stepNumber)
      case Some(i) => steps[i].zones
      case None =>
        if |steps| > 0 then steps[|steps| - 1].zones else GeneratedDeltas(stepNumber)
  }

  /**
   * Which deltas a round gets: generated ones without a configuration; the zones of the
   * first configured step with the round's number; failing that, the last step's zones,
   * or generated deltas when the configuration is empty.
   */
  lemma StepDeltasChoice(config: Option<seq<StepConfig>>, stepNumber: int)
    ensures var r := GetStepDeltas(config, stepNumber);
            config.None? ==> r == GeneratedDeltas(stepNumber)
    ensures var r := GetStepDeltas(config, stepNumber);
            config.Some? && (exists i :: 0 <= i < |config.value| && config.value[i].step == stepNumber) ==>
              exists i :: 0 <= i < |config.value| && config.value[i].step == stepNumber && r == config.value[i].zones &&
                          forall j :: 0 <= j < i ==> config.value[j].step != stepNumber
    ensures var r := GetStepDeltas(config, stepNumber);
            config.Some? && (forall i :: 0 <= i < |config.value| ==> config.value[i].step != stepNumber) ==>
              if |config.value| > 0 then r == config.value[|config.value| - 1].zones else r == GeneratedDeltas(stepNumber)
  {
  }

  // ---------------------------------------------------------------------------
  // Snapshots and history
  // ---------------------------------------------------------------------------

  /** The optional population multipliers for rounds 7 and 8. */
  datatype Multipliers = Multipliers(round7: real, round8: real)

  /** The population multiplier of a round: 1 except rounds 7 and 8 when multipliers are given. */
  function RoundMultiplier(round: int, multipliers: Option<Multipliers>): (m: real)
    ensures multipliers.None? || (round != 7 && round != 8) ==> m == 1.0
    ensures multipliers.Some? && round == 7 ==> m == multipliers.value.round7
    ensures multipliers.Some? && round == 8 ==> m == multipliers.value.round8
  {
    match multipliers
    case None => 1.0
    case Some(mu) => if round == 7 then mu.round7 else if round == 8 then mu.round8 else 1.0
  }

  /** `createAreaSnapshot(areas, round)`: every area's stats and population, in area order. */
  function CreateAreaSnapshot(areas: seq<Area>, round: int, multipliers: Option<Multipliers>): (s: RoundSnapshot)
    ensures s.round == round && |s.areas| == |areas|
  {
    var m := RoundMultiplier(round, multipliers);
    RoundSnapshot(round, seq(|areas|, i requires 0 <= i < |areas| =>
      AreaSnapshot(areas[i].id, areas[i].acc, areas[i].power, areas[i].acc * areas[i].power * m)))
  }

  /** Entry i of a snapshot records area i's id, acc and power, and acc times power times the round's multiplier. */
  lemma SnapshotEntries(areas: seq<Area>, round: int, multipliers: Option<Multipliers>)
    ensures var s := CreateAreaSnapshot(areas, round, multipliers);
            s.round == round && |s.areas| == |areas| &&
            forall i :: 0 <= i < |areas| ==>
              s.areas[i].areaId == areas[i].id && s.areas[i].acc == areas[i].acc &&
              s.areas[i].power == areas[i].power &&
              s.areas[i].populationValue == areas[i].acc * areas[i].power * RoundMultiplier(round, multipliers)
  {
  }

  /** Rounds 1 to 6 (and round 0) record population as plain acc times power. */
  lemma PopulationIsAccTimesPower(areas: seq<Area>, round: int, multipliers: Option<Multipliers>, i: nat)
    requires i < |areas| && round != 7 && round != 8
    ensures CreateAreaSnapshot(areas, round, multipliers).areas[i].populationValue == areas[i].acc * areas[i].power
  {
    SnapshotEntries(areas, round, multipliers);
  }

  /** Snapshots in strictly ascending round order: sorted, at most one per round. */
  predicate StrictlyAscending(history: seq<RoundSnapshot>)
  {
    forall i, j :: 0 <= i < j < |history| ==> history[i].round < history[j].round
  }

  /** No two positions hold snapshots of the same round. */
  predicate DistinctRounds(history: seq<RoundSnapshot>)
  {
    forall i, j :: 0 <= i < j < |history| ==> history[i].round != history[j].round
  }

  /** `history.filter(s => s.round !== round)`. */
  function WithoutRound(history: seq<RoundSnapshot>, round: int): (r: seq<RoundSnapshot>)
    ensures forall s :: s in r <==> s in history && s.round != round
  {
    if |history| == 0 then []
    else if history[0].round != round then [history[0]] + WithoutRound(history[1..], round)
    else WithoutRound(history[1..], round)
  }

  /** Filtering an ascending history keeps it ascending. */
  lemma {:induction false} WithoutRoundAscending(history: seq<RoundSnapshot>, round: int)
    requires StrictlyAscending(history)
    ensures StrictlyAscending(WithoutRound(history, round))
  {
    if |history| > 0 {
      var rest := WithoutRound(history[1..], round);
      HeadBeforeTail(history);
      WithoutRoundAscending(history[1..], round);
      if history[0].round != round {
        SnapshotCons(history[0], rest);
      }
    }
  }

  /** An ascending history's tail is ascending and comes after its head. */
  lemma HeadBeforeTail(history: seq<RoundSnapshot>)
    requires StrictlyAscending(history) && |history| > 0
    ensures StrictlyAscending(history[1..])
    ensures forall s :: s in history[1..] ==> history[0].round < s.round
  {
    forall s | s in history[1..] ensures history[0].round < s.round {
      var k :| 0 <= k < |history[1..]| && history[1..][k] == s;
      assert history[k + 1] == s;
    }
  }

  /** A snapshot before an ascending history, of an earlier round than all of it, keeps it ascending. */
  lemma SnapshotCons(h: RoundSnapshot, rest: seq<RoundSnapshot>)
    requires StrictlyAscending(rest) && forall s :: s in rest ==> h.round < s.round
    ensures StrictlyAscending([h] + rest)
  {
    var r := [h] + rest;
    forall i, j | 0 <= i < j < |r| ensures r[i].round < r[j].round {
      if i > 0 {
        assert r[i] == rest[i - 1] && r[j] == rest[j - 1];
      } else {
        assert r[j] == rest[j - 1];
        assert r[j] in rest;
      }
    }
  }

  /**
   * The history update shared by `nextTurn`, `captureCurrentSnapshot` and
   * `markCurrentRoundCompleted`: drop the snapshot of the snapshot's round, append the
   * snapshot, sort by round.
   */
  function UpsertSnapshot(history: seq<RoundSnapshot>, snapshot: RoundSnapshot): seq<RoundSnapshot>
  {
    StableSort(WithoutRound(history, snapshot.round) + [snapshot], RoundKey)
  }

  /**
   * The update keeps the history strictly ascending, holds the new snapshot, keeps every
   * snapshot of another round and adds nothing else.
   */
  lemma UpsertSnapshotProperties(history: seq<RoundSnapshot>, snapshot: RoundSnapshot)
    requires StrictlyAscending(history)
    ensures var r := UpsertSnapshot(history, snapshot);
            StrictlyAscending(r) && snapshot in r &&
            (forall s :: s in history && s.round != snapshot.round ==> s in r) &&
            (forall s :: s in r ==> s == snapshot || (s in history && s.round != snapshot.round))
  {
    var kept := WithoutRound(history, snapshot.round);
    WithoutRoundAscending(history, snapshot.round);
    var source := kept + [snapshot];
    assert DistinctRounds(source) by {
      forall i, j | 0 <= i < j < |source| ensures source[i].round != source[j].round {
        if j == |source| - 1 {
          assert source[i] in kept;
        }
      }
    }
    SortDistinctAscending(source);
    SortKeepsMembers(source);
  }

  /** Sorting snapshots of distinct rounds by round gives a strictly ascending history. */
  lemma SortDistinctAscending(source: seq<RoundSnapshot>)
    requires DistinctRounds(source)
    ensures StrictlyAscending(StableSort(source, RoundKey))
  {
    var keys := KeysOf(source, RoundKey);
    var idx := SortedIndices(keys);
    var r := StableSort(source, RoundKey);
    assert r == Apply(source, idx);
    forall a, b | 0 <= a < b < |r| ensures r[a].round < r[b].round {
      SortedPositionsDistinct(keys, idx, a, b);
      assert Before(keys, idx[a], idx[b]);
      assert source[idx[a]].round != source[idx[b]].round;
    }
  }

  /** Sorting neither adds nor drops a snapshot. */
  lemma SortKeepsMembers(source: seq<RoundSnapshot>)
    ensures forall s :: s in StableSort(source, RoundKey) <==> s in source
  {
    var r := StableSort(source, RoundKey);
    StableSortPermutes(source, RoundKey);
    forall s ensures s in r <==> s in source {
      assert s in r <==> s in multiset(r);
      assert s in source <==> s in multiset(source);
    }
  }

  // ---------------------------------------------------------------------------
  // Applying deltas and the choice bonus
  // ---------------------------------------------------------------------------

  /** `ids.indexOf(id)`: the first position of id, or -1. */
  function IndexOfId(ids: seq<string>, id: string): (r: int)
    ensures -1 <= r < |ids|
    ensures r >= 0 ==> ids[r] == id && forall j :: 0 <= j < r ==> ids[j] != id
    ensures r == -1 <==> id !in ids
  {
    if |ids| == 0 then -1
    else if ids[0] == id then 0
    else
      var k := IndexOfId(ids[1..], id);
      assert id in ids[1..] ==> id in ids;
      if k == -1 then -1 else k + 1
  }

  /** `delta.field ?? 0`. */
  function OrZero(x: Option<real>): real
  {
    if x.Some? then x.value else 0.0
  }

  /** The ids of a sequence of areas, in order. */
  function AreaIds(areas: seq<Area>): (ids: seq<string>)
    ensures |ids| == |areas| && forall i :: 0 <= i < |areas| ==> ids[i] == areas[i].id
  {
    seq(|areas|, i requires 0 <= i < |areas| => areas[i].id)
  }

  /** The round delta of one area: the delta at its zone's position, if there is one. */
  function ApplyDelta(area: Area, zoneIds: seq<string>, deltas: seq<ZoneDelta>): Area
  {
    var zoneIndex := IndexOfId(zoneIds, area.id);
    if 0 <= zoneIndex < |deltas| then
      var delta := deltas[zoneIndex];
      area.(power := area.power + OrZero(delta.powerDelta), acc := area.acc + OrZero(delta.accDelta))
    else area
  }

  /** Step 1 of `selectArea`: the round deltas applied to every area. */
  function ApplyDeltas(areas: seq<Area>, zoneIds: seq<string>, deltas: seq<ZoneDelta>): (r: seq<Area>)
    ensures |r| == |areas| && forall i :: 0 <= i < |areas| ==> r[i] == ApplyDelta(areas[i], zoneIds, deltas)
  {
    seq(|areas|, i requires 0 <= i < |areas| => ApplyDelta(areas[i], zoneIds, deltas))
  }

  /** Step 2 of `selectArea`: the chosen area (every area with the chosen id) gains the bonus. */
  function ApplyBonus(areas: seq<Area>, areaId: string): (r: seq<Area>)
    ensures |r| == |areas|
  {
    seq(|areas|, i requires 0 <= i < |areas| =>
      if areas[i].id == areaId
      then areas[i].(power := areas[i].power + CHOICE_BONUS, acc := areas[i].acc + CHOICE_BONUS)
      else areas[i])
  }

  /**
   * The bonus raises the chosen zone's power and acc by 0.05 each and changes nothing
   * else; no area's id, seed or colour changes.
   */
  lemma BonusOnlyForChosen(areas: seq<Area>, areaId: string, i: nat)
    requires i < |areas|
    ensures var r := ApplyBonus(areas, areaId);
            r[i].id == areas[i].id && r[i].startX == areas[i].startX && r[i].startY == areas[i].startY &&
            r[i].color == areas[i].color &&
            (areas[i].id == areaId ==> r[i].power == areas[i].power + 0.05 && r[i].acc == areas[i].acc + 0.05) &&
            (areas[i].id != areaId ==> r[i] == areas[i])
  {
  }

  /**
   * A round's deltas add the configured (or generated) amounts to the area of the zone at
   * the same position among the initial areas; an area whose id is not among them, or
   * whose position has no delta, is unchanged.
   */
  lemma DeltaForZone(area: Area, zoneIds: seq<string>, deltas: seq<ZoneDelta>, z: nat)
    requires z < |zoneIds| && zoneIds[z] == area.id && forall j :: 0 <= j < z ==> zoneIds[j] != area.id
    ensures var r := ApplyDelta(area, zoneIds, deltas);
            r.id == area.id &&
            (z < |deltas| ==> r.power == area.power + OrZero(deltas[z].powerDelta) &&
                              r.acc == area.acc + OrZero(deltas[z].accDelta)) &&
            (z >= |deltas| ==> r == area)
  {
    assert IndexOfId(zoneIds, area.id) == z;
  }

  // ---------------------------------------------------------------------------
  // The game state
  // ---------------------------------------------------------------------------

  datatype Phase = Phase1 | Phase2 | Phase3 | Complete | FinalMap | FinalEnding

  /** `{A1: 0, ..., A5: 0}`. */
  function ResetCounts(): (m: map<string, int>)
    ensures m.Keys == {"A1", "A2", "A3", "A4", "A5"} && forall k :: k in m ==> m[k] == 0
  {
    map["A1" := 0, "A2" := 0, "A3" := 0, "A4" := 0, "A5" := 0]
  }

  /** The rounds in `log` are pairwise distinct and are exactly the rounds in `applied`. */
  ghost predicate AppliedOnce(applied: set<int>, log: seq<int>)
  {
    (forall i, j :: 0 <= i < j < |log| ==> log[i] != log[j]) &&
    (forall r :: r in applied <==> r in log)
  }

  /** Applying the deltas of a round not yet applied keeps every round applied at most once. */
  lemma ApplyRoundOnce(applied: set<int>, log: seq<int>, round: int)
    requires AppliedOnce(applied, log) && round !in applied
    ensures AppliedOnce(applied + {round}, log + [round])
  {
    var log' := log + [round];
    forall i, j | 0 <= i < j < |log'|
      ensures log'[i] != log'[j]
    {
      if j == |log| {
        assert log'[i] == log[i];
      }
    }
  }

  class Game {
    /** The hook's arguments on the latest render; the app passes [] and no multipliers until its data loads. */
    var initialAreas: seq<Area>
    var populationMultipliers: Option<Multipliers>

    var currentTurn: int
    var currentPhase: Phase
    var areas: seq<Area>
    var completedSteps: seq<int>
    var selectedArea: Option<string>
    var highlightedArea: Option<string>
    var areaHistory: seq<RoundSnapshot>

    var zoneChoiceCounts: map<string, int>
    /** The loaded steps configuration; None until the fetch settles. */
    var stepsConfig: Option<seq<StepConfig>>
    var hasInitialized: bool
    var roundsWithDeltasApplied: set<int>
    /** The rounds whose deltas were applied since the last restart, in order. */
    ghost var deltaLog: seq<int>

    /**
     * The turn stays within 1..8, the history is strictly ascending by round, and the
     * deltas of each round were applied at most once since the last restart.
     */
    ghost predicate Valid()
      reads this
    {
      1 <= currentTurn <= LAST_ROUND &&
      StrictlyAscending(areaHistory) &&
      AppliedOnce(roundsWithDeltasApplied, deltaLog)
    }

    /** The hook's first render: turn 1, phase 1, the initial areas, empty history. */
    constructor (initialAreas: seq<Area>, populationMultipliers: Option<Multipliers>)
      ensures Valid()
      ensures this.initialAreas == initialAreas && this.populationMultipliers == populationMultipliers
      ensures currentTurn == 1 && currentPhase == Phase1 && areas == initialAreas
      ensures completedSteps == [] && selectedArea == None && highlightedArea == None && areaHistory == []
      ensures zoneChoiceCounts == ResetCounts() && stepsConfig == None && !hasInitialized
      ensures roundsWithDeltasApplied == {}
    {
      this.initialAreas := initialAreas;
      this.populationMultipliers := populationMultipliers;
      currentTurn := 1;
      currentPhase := Phase1;
      areas := initialAreas;
      completedSteps := [];
      selectedArea := None;
      highlightedArea := None;
      areaHistory := [];
      zoneChoiceCounts := ResetCounts();
      stepsConfig := None;
      hasInitialized := false;
      roundsWithDeltasApplied := {};
      deltaLog := [];
    }

    /**
     * A re-render with new hook arguments, such as the loaded areas and multipliers arriving
     * after a first render with [] and none. Only the arguments change; the game state keeps
     * its values until an effect or a handler reads them.
     */
    method PropsChanged(areas: seq<Area>, multipliers: Option<Multipliers>)
      requires Valid()
      modifies this`initialAreas, this`populationMultipliers
      ensures Valid() && initialAreas == areas && populationMultipliers == multipliers
    {
      initialAreas := areas;
      populationMultipliers := multipliers;
    }

    /** The settled fetch of the steps configuration; a failed fetch passes no steps. */
    method StepsConfigLoaded(steps: seq<StepConfig>)
      requires Valid()
      modifies this`stepsConfig
      ensures Valid() && stepsConfig == Some(steps)
    {
      stepsConfig := Some(steps);
    }

    /**
     * The initialisation effect: once, when initial areas are present, take them as the
     * current areas and start the history with their round-0 snapshot.
     */
    method Initialize()
      requires Valid()
      modifies this`areas, this`hasInitialized, this`areaHistory
      ensures Valid()
      ensures old(|initialAreas| > 0 && !hasInitialized) ==>
                hasInitialized && areas == initialAreas &&
                areaHistory == [CreateAreaSnapshot(initialAreas, 0, populationMultipliers)]
      ensures !old(|initialAreas| > 0 && !hasInitialized) ==>
                hasInitialized == old(hasInitialized) && areas == old(areas) && areaHistory == old(areaHistory)
    {
      if |initialAreas| > 0 && !hasInitialized {
        areas := initialAreas;
        hasInitialized := true;
        areaHistory := [CreateAreaSnapshot(areas, 0, populationMultipliers)];
      }
    }

    /** `setPhase(phase)`. */
    method SetPhase(phase: Phase)
      requires Valid()
      modifies this`currentPhase
      ensures Valid() && currentPhase == phase
    {
      currentPhase := phase;
    }

    /** `setHighlightedArea(id)`. */
    method SetHighlightedArea(areaId: Option<string>)
      requires Valid()
      modifies this`highlightedArea
      ensures Valid() && highlightedArea == areaId
    {
      highlightedArea := areaId;
    }

    /**
     * `selectArea(areaId)`: count the choice; apply this round's deltas to every zone
     * unless they were applied already this round; add the bonus to the chosen zone;
     * select it and move to phase 3.
     */
    method SelectArea(areaId: string)
      requires Valid()
      modifies this`zoneChoiceCounts, this`areas, this`roundsWithDeltasApplied, this`deltaLog,
               this`selectedArea, this`currentPhase
      ensures Valid()
      ensures zoneChoiceCounts == old(zoneChoiceCounts)[areaId :=
                (if areaId in old(zoneChoiceCounts) then old(zoneChoiceCounts)[areaId] else 0) + 1]
      ensures currentTurn in roundsWithDeltasApplied
      ensures roundsWithDeltasApplied == old(roundsWithDeltasApplied) + {currentTurn}
      ensures old(currentTurn in roundsWithDeltasApplied) ==> areas == ApplyBonus(old(areas), areaId)
      ensures old(currentTurn !in roundsWithDeltasApplied) ==>
                areas == ApplyBonus(ApplyDeltas(old(areas), AreaIds(initialAreas),
                                                GetStepDeltas(stepsConfig, currentTurn)), areaId)
      ensures selectedArea == Some(areaId) && currentPhase == Phase3
    {
      var previous := if areaId in zoneChoiceCounts then zoneChoiceCounts[areaId] else 0;
      zoneChoiceCounts := zoneChoiceCounts[areaId := previous + 1];
      var currentRound := currentTurn;
      var areaIds := AreaIds(initialAreas);
      var deltasAlreadyApplied := currentRound in roundsWithDeltasApplied;
      var deltas := GetStepDeltas(stepsConfig, currentRound);
      var updatedAreas := areas;
      if !deltasAlreadyApplied {
        ApplyRoundOnce(roundsWithDeltasApplied, deltaLog, currentRound);
        updatedAreas := ApplyDeltas(areas, areaIds, deltas);
        roundsWithDeltasApplied := roundsWithDeltasApplied + {currentRound};
        deltaLog := deltaLog + [currentRound];
      }
      updatedAreas := ApplyBonus(updatedAreas, areaId);
      areas := updatedAreas;
      selectedArea := Some(areaId);
      currentPhase := Phase3;
    }

    /**
     * `nextTurn()`: record the round's snapshot, mark the round completed, clear the
     * selection and highlight, and advance to the next round in phase 1, or stay on the
     * last round in phase `complete`.
     */
    method NextTurn()
      requires Valid()
      modifies this`currentTurn, this`currentPhase, this`completedSteps, this`selectedArea,
               this`highlightedArea, this`areaHistory
      ensures Valid()
      ensures old(currentTurn) < LAST_ROUND ==> currentTurn == old(currentTurn) + 1 && currentPhase == Phase1
      ensures old(currentTurn) == LAST_ROUND ==> currentTurn == old(currentTurn) && currentPhase == Complete
      ensures completedSteps == old(completedSteps) + [old(currentTurn)]
      ensures selectedArea == None && highlightedArea == None
      ensures areaHistory == UpsertSnapshot(old(areaHistory), CreateAreaSnapshot(areas, old(currentTurn), populationMultipliers))
    {
      var newTurn := currentTurn + 1;
      var isComplete := newTurn > LAST_ROUND;
      var currentRoundSnapshot := CreateAreaSnapshot(areas, currentTurn, populationMultipliers);
      UpsertSnapshotProperties(areaHistory, currentRoundSnapshot);
      areaHistory := UpsertSnapshot(areaHistory, currentRoundSnapshot);
      completedSteps := completedSteps + [currentTurn];
      currentPhase := if isComplete then Complete else Phase1;
      currentTurn := if isComplete then currentTurn else newTurn;
      selectedArea := None;
      highlightedArea := None;
    }

    /**
     * `restartGame()`: zero the choice counts, forget which rounds had deltas, and return
     * to turn 1 in phase 1 with the initial areas and their round-0 snapshot.
     */
    method RestartGame()
      modifies this`zoneChoiceCounts, this`hasInitialized, this`roundsWithDeltasApplied, this`deltaLog,
               this`areas, this`areaHistory, this`currentTurn, this`currentPhase, this`completedSteps,
               this`selectedArea, this`highlightedArea
      ensures Valid()
      ensures zoneChoiceCounts == ResetCounts() && roundsWithDeltasApplied == {} && hasInitialized
      ensures currentTurn == 1 && currentPhase == Phase1 && areas == initialAreas
      ensures completedSteps == [] && selectedArea == None && highlightedArea == None
      ensures areaHistory == [CreateAreaSnapshot(initialAreas, 0, populationMultipliers)]
    {
      zoneChoiceCounts := ResetCounts();
      hasInitialized := false;
      roundsWithDeltasApplied := {};
      deltaLog := [];
      areas := initialAreas;
      hasInitialized := true;
      areaHistory := [CreateAreaSnapshot(areas, 0, populationMultipliers)];
      currentTurn := 1;
      currentPhase := Phase1;
      completedSteps := [];
      selectedArea := None;
      highlightedArea := None;
    }

    /** `captureCurrentSnapshot()`: record the current round's snapshot without advancing. */
    method CaptureCurrentSnapshot()
      requires Valid()
      modifies this`areaHistory
      ensures Valid()
      ensures areaHistory == UpsertSnapshot(old(areaHistory), CreateAreaSnapshot(areas, currentTurn, populationMultipliers))
    {
      var currentRoundSnapshot := CreateAreaSnapshot(areas, currentTurn, populationMultipliers);
      UpsertSnapshotProperties(areaHistory, currentRoundSnapshot);
      areaHistory := UpsertSnapshot(areaHistory, currentRoundSnapshot);
    }

    /**
     * `markCurrentRoundCompleted()`: if the current round is not yet completed, record its
     * snapshot and append it to the completed rounds; turn and phase never change.
     */
    method MarkCurrentRoundCompleted()
      requires Valid()
      modifies this`completedSteps, this`areaHistory
      ensures Valid()
      ensures currentTurn in completedSteps
      ensures old(currentTurn in completedSteps) ==>
                completedSteps == old(completedSteps) && areaHistory == old(areaHistory)
      ensures old(currentTurn !in completedSteps) ==>
                completedSteps == old(completedSteps) + [currentTurn] &&
                areaHistory == UpsertSnapshot(old(areaHistory), CreateAreaSnapshot(areas, currentTurn, populationMultipliers))
    {
      var currentRound := currentTurn;
      if currentRound in completedSteps {
        return;
      }
      var currentRoundSnapshot := CreateAreaSnapshot(areas, currentRound, populationMultipliers);
      UpsertSnapshotProperties(areaHistory, currentRoundSnapshot);
      areaHistory := UpsertSnapshot(areaHistory, currentRoundSnapshot);
      completedSteps := completedSteps + [currentRound];
    }
  }

  /**
   * An example scenario, not an operation of the hook: the app's first render passes no
   * areas, so the initialisation effect does nothing; once the data has loaded, the new
   * arguments arrive and the effect takes them, with their round-0 snapshot.
   */
  method DataArrivesLate(loaded: seq<Area>, multipliers: Option<Multipliers>) returns (g: Game)
    requires |loaded| > 0
    ensures g.Valid() && g.hasInitialized && g.areas == loaded
    ensures g.areaHistory == [CreateAreaSnapshot(loaded, 0, multipliers)]
  {
    g := new Game([], None);
    g.Initialize();
    assert !g.hasInitialized && g.areaHistory == [];
    g.PropsChanged(loaded, multipliers);
    g.Initialize();
  }
}
