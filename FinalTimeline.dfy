/**
 * The data behind the final timeline (`FinalTimeline`): one milestone per zone and round,
 * placed inside the round's thousand-year interval (the chosen zone first), sorted by
 * year; the short name shown for a civilization; and the milestones grouped per area.
 */
module FinalTimeline {
  import opened Common
  import opened JsString
  import opened Sorting

  /** One recorded choice: the zone (1..5) chosen in a round. */
  datatype ChoiceLogEntry = ChoiceLogEntry(round: int, zone: int)

  /** One point of the timeline. */
  datatype Milestone = Milestone(round: int, civilizationId: string, year: real, achievement: string)

  /** The length of a round's interval, in years. */
  const YEARS_PER_ROUND: real := 1000.0

  /** The game's rounds, 1 to 8. */
  const ROUND_COUNT: nat := 8

  /** The zones every round places. */
  const ALL_ZONES: seq<int> := [1, 2, 3, 4, 5]

  /** Where the unchosen zones go, as fractions of the interval, used in turn. */
  const OTHER_POSITIONS: seq<real> := [0.4, 0.6, 0.8]

  // ---------------------------------------------------------------------------
  // The chosen zone of each round
  // ---------------------------------------------------------------------------

  /**
   * The zone `chosenByRound.get(round)` gives: the zone of the last log entry for the
   * round (each `set` overwrites the one before), or None when the round has no entry.
   */
  function ChosenZone(log: seq<ChoiceLogEntry>, round: int): (r: Option<int>)
    ensures r.None? <==> forall k :: 0 <= k < |log| ==> log[k].round != round
    ensures r.Some? ==> exists k :: 0 <= k < |log| && log[k].round == round && log[k].zone == r.value &&
                                    forall j :: k < j < |log| ==> log[j].round != round
  {
    if log == [] then None
    else if log[|log| - 1].round == round then Some(log[|log| - 1].zone)
    else ChosenZone(log[..|log| - 1], round)
  }

  /** The `chosenByRound` map filled from the log in order. */
  method ChosenByRound(log: seq<ChoiceLogEntry>) returns (chosen: map<int, int>)
    ensures forall round :: round in chosen <==> ChosenZone(log, round).Some?
    ensures forall round :: round in chosen ==> chosen[round] == ChosenZone(log, round).value
  {
    chosen := map[];
    for i := 0 to |log|
      invariant forall round :: round in chosen <==> ChosenZone(log[..i], round).Some?
      invariant forall round :: round in chosen ==> chosen[round] == ChosenZone(log[..i], round).value
    {
      assert log[..i + 1][..i] == log[..i];
      chosen := chosen[log[i].round := log[i].zone];
    }
    assert log[..|log|] == log;
  }

  /** A chosen zone counts only when it is truthy: present and not 0. */
  predicate Truthy(zone: Option<int>)
  {
    zone.Some? && zone.value != 0
  }

  /** `zones.filter(z => z !== chosen)`. */
  function Without(zones: seq<int>, chosen: int): (r: seq<int>)
    ensures forall z :: z in r <==> z in zones && z != chosen
    ensures |r| <= |zones|
  {
    if zones == [] then []
    else if zones[0] == chosen then Without(zones[1..], chosen)
    else [zones[0]] + Without(zones[1..], chosen)
  }

  /** Filtering a concatenation filters each part in place: `filter` keeps order and repeats. */
  lemma {:induction false} WithoutAppend(a: seq<int>, b: seq<int>, chosen: int)
    ensures Without(a + b, chosen) == Without(a, chosen) + Without(b, chosen)
  {
    if a == [] {
      assert a + b == b;
    } else {
      var ab := a + b;
      assert ab[0] == a[0] && ab[1..] == a[1..] + b;
      WithoutAppend(a[1..], b, chosen);
      if a[0] == chosen {
        assert Without(ab, chosen) == Without(a[1..] + b, chosen);
      } else {
        assert Without(ab, chosen) == [a[0]] + Without(a[1..] + b, chosen);
      }
    }
  }

  /** The zones placed after the chosen one: all of them when none is chosen. */
  function OtherZones(chosenZone: Option<int>): seq<int>
  {
    if Truthy(chosenZone) then Without(ALL_ZONES, chosenZone.value) else ALL_ZONES
  }

  /** The area id of a zone, `A${zone}`. */
  function AreaId(zone: int): string
  {
    "A" + IntString(zone)
  }

  // ---------------------------------------------------------------------------
  // Milestone placement
  // ---------------------------------------------------------------------------

  /** The first year of a round's interval. */
  function RoundStart(round: int): real
  {
    (round - 1) as real * YEARS_PER_ROUND
  }

  /**
   * The fraction of the interval at which the index-th other zone sits: the fixed
   * positions in turn when a zone is chosen, otherwise an even spread.
   */
  function OtherPosition(chosen: bool, index: nat, count: nat): (p: real)
    requires index < count
    ensures 0.0 < p < 1.0
  {
    if chosen then OTHER_POSITIONS[index % |OTHER_POSITIONS|] else (index + 1) as real / (count + 1) as real
  }

  /** The milestones of the other zones, in zone order. */
  function OtherMilestones(round: int, others: seq<int>, chosen: bool, achievement: string): (r: seq<Milestone>)
    ensures |r| == |others|
  {
    seq(|others|, i requires 0 <= i < |others| =>
      Milestone(round, AreaId(others[i]), RoundStart(round) + OtherPosition(chosen, i, |others|) * YEARS_PER_ROUND,
                achievement))
  }

  /** The milestones pushed for one round: the chosen zone's, then the others'. */
  function RoundMilestones(round: int, chosenZone: Option<int>, achievements: seq<string>): (r: seq<Milestone>)
    requires 1 <= round <= |achievements|
  {
    var chosen := Truthy(chosenZone);
    var first := if chosen then [Milestone(round, AreaId(chosenZone.value), RoundStart(round) + 0.1 * YEARS_PER_ROUND,
                                           achievements[round - 1])]
                 else [];
    first + OtherMilestones(round, OtherZones(chosenZone), chosen, achievements[round - 1])
  }

  /** A milestone carries its round's achievement and a year inside its round's interval. */
  predicate WithinRound(m: Milestone, achievements: seq<string>)
    requires 1 <= m.round <= |achievements|
  {
    m.achievement == achievements[m.round - 1] &&
    RoundStart(m.round) <= m.year < RoundStart(m.round) + YEARS_PER_ROUND
  }

  /** Every milestone of a round has that round, its achievement, and a year inside its interval. */
  lemma RoundMilestonesInRound(round: int, chosenZone: Option<int>, achievements: seq<string>, k: nat)
    requires 1 <= round <= |achievements| && k < |RoundMilestones(round, chosenZone, achievements)|
    ensures var m := RoundMilestones(round, chosenZone, achievements)[k];
            m.round == round && WithinRound(m, achievements)
  {
    var r := RoundMilestones(round, chosenZone, achievements);
    var chosen := Truthy(chosenZone);
    var others := OtherZones(chosenZone);
    var rest := OtherMilestones(round, others, chosen, achievements[round - 1]);
    var first := if chosen then 1 else 0;
    assert YEARS_PER_ROUND == 1000.0;
    if k >= first {
      assert r[k] == rest[k - first];
      var p := OtherPosition(chosen, k - first, |others|);
      assert r[k].year == RoundStart(round) + p * 1000.0;
    }
  }

  /** The milestones of rounds 1..n in push order, before sorting. */
  function MilestonesUpTo(log: seq<ChoiceLogEntry>, achievements: seq<string>, n: nat): seq<Milestone>
    requires n <= |achievements|
  {
    if n == 0 then [] else MilestonesUpTo(log, achievements, n - 1) + RoundMilestones(n, ChosenZone(log, n), achievements)
  }

  /** The sort key of a milestone. */
  function Year(m: Milestone): real
  {
    m.year
  }

  /** The inner loop of a round: the other zones pushed in turn. */
  method PlaceOthers(round: int, otherZones: seq<int>, chosen: bool, achievement: string) returns (pushed: seq<Milestone>)
    ensures pushed == OtherMilestones(round, otherZones, chosen, achievement)
  {
    var roundStart := (round - 1) as real * YEARS_PER_ROUND;
    ghost var others := OtherMilestones(round, otherZones, chosen, achievement);
    pushed := [];
    for index := 0 to |otherZones|
      invariant pushed == others[..index]
    {
      var position := if chosen then OTHER_POSITIONS[index % |OTHER_POSITIONS|]
                      else (index + 1) as real / (|otherZones| + 1) as real;
      pushed := pushed + [Milestone(round, AreaId(otherZones[index]), roundStart + position * YEARS_PER_ROUND, achievement)];
      assert others[..index + 1] == others[..index] + [others[index]];
    }
    assert others[..|otherZones|] == others;
  }

  /** One round of the `milestones` loop: the chosen zone's push, then the others'. */
  method PlaceRound(round: int, chosenZone: Option<int>, achievements: seq<string>) returns (pushed: seq<Milestone>)
    requires 1 <= round <= |achievements|
    ensures pushed == RoundMilestones(round, chosenZone, achievements)
  {
    var chosen := chosenZone.Some? && chosenZone.value != 0;
    pushed := [];
    if chosen {
      var roundStart := (round - 1) as real * YEARS_PER_ROUND;
      assert roundStart == RoundStart(round);
      pushed := [Milestone(round, AreaId(chosenZone.value), roundStart + 0.1 * YEARS_PER_ROUND, achievements[round - 1])];
    }
    var others := PlaceOthers(round, OtherZones(chosenZone), chosen, achievements[round - 1]);
    RoundMilestonesSplit(round, chosenZone, achievements, pushed, others);
    pushed := pushed + others;
  }

  /** A round's milestones are its chosen zone's push, if any, followed by the others'. */
  lemma RoundMilestonesSplit(round: int, chosenZone: Option<int>, achievements: seq<string>,
                             first: seq<Milestone>, others: seq<Milestone>)
    requires 1 <= round <= |achievements|
    requires first == if Truthy(chosenZone) then [Milestone(round, AreaId(chosenZone.value), RoundStart(round) + 0.1 * YEARS_PER_ROUND,
                                                            achievements[round - 1])] else []
    requires others == OtherMilestones(round, OtherZones(chosenZone), Truthy(chosenZone), achievements[round - 1])
    ensures RoundMilestones(round, chosenZone, achievements) == first + others
  {
  }

  /**
   * The `milestones` computation: rounds 1..8 placed in turn, then sorted by year with
   * ties in push order.
   */
  method Milestones(log: seq<ChoiceLogEntry>, achievements: seq<string>) returns (milestones: seq<Milestone>)
    requires |achievements| == ROUND_COUNT
    ensures milestones == StableSort(MilestonesUpTo(log, achievements, ROUND_COUNT), Year)
  {
    var chosenByRound := ChosenByRound(log);
    var result: seq<Milestone> := [];
    for round := 1 to ROUND_COUNT + 1
      invariant result == MilestonesUpTo(log, achievements, round - 1)
    {
      var chosenZone := if round in chosenByRound then Some(chosenByRound[round]) else None;
      assert chosenZone == ChosenZone(log, round);
      var pushed := PlaceRound(round, chosenZone, achievements);
      result := result + pushed;
    }
    milestones := StableSort(result, Year);
  }

  /**
   * A round whose chosen zone is one of 1..5 yields exactly five milestones, one per zone:
   * the chosen zone 100 years into the interval, then the other four at 400, 600, 800 and
   * again 400 years, so the first and the last of them coincide.
   */
  lemma ChosenRoundMilestones(round: int, zone: int, achievements: seq<string>)
    requires 1 <= round <= |achievements| && 1 <= zone <= 5
    ensures var r := RoundMilestones(round, Some(zone), achievements);
            |r| == 5 &&
            r[0].civilizationId == AreaId(zone) && r[0].year == RoundStart(round) + 100.0 &&
            r[1].year == RoundStart(round) + 400.0 && r[2].year == RoundStart(round) + 600.0 &&
            r[3].year == RoundStart(round) + 800.0 && r[4].year == RoundStart(round) + 400.0 &&
            (forall z :: 1 <= z <= 5 ==> exists k :: 0 <= k < 5 && r[k].civilizationId == AreaId(z)) &&
            (forall k :: 1 <= k < 5 ==> r[k].civilizationId != AreaId(zone))
  {
    var r := RoundMilestones(round, Some(zone), achievements);
    var others := Without(ALL_ZONES, zone);
    ChosenRoundIds(round, zone, achievements);
    ChosenRoundYears(round, zone, achievements);
    OthersOfChosen(zone);
    forall z | 1 <= z <= 5 ensures exists k :: 0 <= k < 5 && r[k].civilizationId == AreaId(z) {
      if z == zone {
        assert r[0].civilizationId == AreaId(z);
      } else {
        assert z in others;
        var j :| 0 <= j < 4 && others[j] == z;
        assert r[j + 1].civilizationId == AreaId(z);
      }
    }
    forall k | 1 <= k < 5 ensures r[k].civilizationId != AreaId(zone) {
      var z := others[k - 1];
      assert z in others;
      AreaIdDistinct(z, zone);
    }
  }

  /** The zones are exactly 1..5. */
  lemma AllZones()
    ensures forall z :: z in ALL_ZONES <==> 1 <= z <= 5
    ensures |ALL_ZONES| == 5 && forall k :: 0 <= k < 5 ==> ALL_ZONES[k] == k + 1
  {
    forall z | 1 <= z <= 5 ensures z in ALL_ZONES {
      assert ALL_ZONES[z - 1] == z;
    }
  }

  /** With a zone chosen, the other zones are the four remaining ones. */
  lemma OthersOfChosen(zone: int)
    requires 1 <= zone <= 5
    ensures |Without(ALL_ZONES, zone)| == 4
    ensures forall z :: z in Without(ALL_ZONES, zone) <==> 1 <= z <= 5 && z != zone
    ensures forall i, j :: 0 <= i < j < 4 ==> Without(ALL_ZONES, zone)[i] < Without(ALL_ZONES, zone)[j]
  {
    var others := Without(ALL_ZONES, zone);
    AllZones();
    if zone == 1 { assert others == [2, 3, 4, 5]; }
    else if zone == 2 { assert others == [1, 3, 4, 5]; }
    else if zone == 3 { assert others == [1, 2, 4, 5]; }
    else if zone == 4 { assert others == [1, 2, 3, 5]; }
    else { assert others == [1, 2, 3, 4]; }
  }

  /** The five milestones of a round with a chosen zone: the chosen one, then the four others in zone order. */
  lemma ChosenRoundIds(round: int, zone: int, achievements: seq<string>)
    requires 1 <= round <= |achievements| && 1 <= zone <= 5
    ensures var r := RoundMilestones(round, Some(zone), achievements);
            var others := Without(ALL_ZONES, zone);
            |others| == 4 && |r| == 5 && r[0].civilizationId == AreaId(zone) &&
            forall k :: 1 <= k < 5 ==> r[k].civilizationId == AreaId(others[k - 1])
  {
    var r := RoundMilestones(round, Some(zone), achievements);
    var others := Without(ALL_ZONES, zone);
    OthersOfChosen(zone);
    var rest := OtherMilestones(round, others, true, achievements[round - 1]);
    assert r == [r[0]] + rest;
    forall k | 1 <= k < 5 ensures r[k].civilizationId == AreaId(others[k - 1]) {
      assert r[k] == rest[k - 1];
    }
  }

  /** The chosen zone sits 100 years into the interval, the others at 400, 600, 800 and 400. */
  lemma ChosenRoundYears(round: int, zone: int, achievements: seq<string>)
    requires 1 <= round <= |achievements| && 1 <= zone <= 5
    ensures var r := RoundMilestones(round, Some(zone), achievements);
            |r| == 5 &&
            r[0].year == RoundStart(round) + 100.0 &&
            r[1].year == RoundStart(round) + 400.0 && r[2].year == RoundStart(round) + 600.0 &&
            r[3].year == RoundStart(round) + 800.0 && r[4].year == RoundStart(round) + 400.0
  {
    var r := RoundMilestones(round, Some(zone), achievements);
    var others := Without(ALL_ZONES, zone);
    OthersOfChosen(zone);
    var rest := OtherMilestones(round, others, true, achievements[round - 1]);
    assert r == [r[0]] + rest;
    assert YEARS_PER_ROUND == 1000.0;
    assert r[1] == rest[0] && r[2] == rest[1] && r[3] == rest[2] && r[4] == rest[3];
  }

  /** Zones 1..5 have distinct area ids. */
  lemma AreaIdDistinct(a: int, b: int)
    requires 1 <= a <= 5 && 1 <= b <= 5 && a != b
    ensures AreaId(a) != AreaId(b)
  {
    assert AreaId(a)[1] == ('0' as int + a) as char;
    assert AreaId(b)[1] == ('0' as int + b) as char;
  }

  /**
   * A round without a (truthy) chosen zone yields the five zones in order, the k-th of them
   * (k + 1)/6 of the way into the interval.
   */
  lemma UnchosenRoundMilestones(round: int, chosenZone: Option<int>, achievements: seq<string>)
    requires 1 <= round <= |achievements| && !Truthy(chosenZone)
    ensures |RoundMilestones(round, chosenZone, achievements)| == 5
    ensures forall k :: 0 <= k < 5 ==> RoundMilestones(round, chosenZone, achievements)[k].civilizationId == AreaId(k + 1)
    ensures forall k :: 0 <= k < 5 ==>
              RoundMilestones(round, chosenZone, achievements)[k].year == RoundStart(round) + (k + 1) as real / 6.0 * YEARS_PER_ROUND
  {
    var r := RoundMilestones(round, chosenZone, achievements);
    assert r == OtherMilestones(round, ALL_ZONES, false, achievements[round - 1]);
    AllZones();
    EvenSpread();
  }

  /** Without a chosen zone, the k-th of the five zones sits (k + 1)/6 of the way into the interval. */
  lemma EvenSpread()
    ensures forall k :: 0 <= k < 5 ==> OtherPosition(false, k, 5) == (k + 1) as real / 6.0
  {
  }

  /** Every milestone of rounds 1..n comes from one of those rounds. */
  lemma {:induction false} MilestonesUpToFromRounds(log: seq<ChoiceLogEntry>, achievements: seq<string>, n: nat, m: Milestone)
    requires n <= |achievements|
    requires m in MilestonesUpTo(log, achievements, n)
    ensures 1 <= m.round <= n && m in RoundMilestones(m.round, ChosenZone(log, m.round), achievements)
  {
    var earlier := MilestonesUpTo(log, achievements, n - 1);
    var last := RoundMilestones(n, ChosenZone(log, n), achievements);
    assert MilestonesUpTo(log, achievements, n) == earlier + last;
    if m in earlier {
      MilestonesUpToFromRounds(log, achievements, n - 1, m);
    } else {
      var k :| 0 <= k < |last| && last[k] == m;
      assert m.round == n;
    }
  }

  /** Every milestone of the sorted timeline lies within its round's interval and has its round's achievement. */
  lemma SortedMilestonesInRounds(log: seq<ChoiceLogEntry>, achievements: seq<string>, a: nat)
    requires |achievements| == ROUND_COUNT
    requires a < |StableSort(MilestonesUpTo(log, achievements, ROUND_COUNT), Year)|
    ensures var m := StableSort(MilestonesUpTo(log, achievements, ROUND_COUNT), Year)[a];
            1 <= m.round <= ROUND_COUNT && WithinRound(m, achievements)
  {
    var unsorted := MilestonesUpTo(log, achievements, ROUND_COUNT);
    var ms := StableSort(unsorted, Year);
    var m := ms[a];
    assert m in multiset(ms);
    assert m in multiset(unsorted);
    MilestoneInItsRound(log, achievements, ROUND_COUNT, m);
  }

  /** A milestone of rounds 1..n lies within its round's interval and has its round's achievement. */
  lemma {:induction false} MilestoneInItsRound(log: seq<ChoiceLogEntry>, achievements: seq<string>, n: nat, m: Milestone)
    requires n <= |achievements| && m in MilestonesUpTo(log, achievements, n)
    ensures 1 <= m.round <= n && WithinRound(m, achievements)
  {
    var earlier := MilestonesUpTo(log, achievements, n - 1);
    var last := RoundMilestones(n, ChosenZone(log, n), achievements);
    assert MilestonesUpTo(log, achievements, n) == earlier + last;
    if m in earlier {
      MilestoneInItsRound(log, achievements, n - 1, m);
    } else {
      var k :| 0 <= k < |last| && last[k] == m;
      RoundMilestonesInRound(n, ChosenZone(log, n), achievements, k);
    }
  }

  /**
   * The sorted timeline runs in year order, and so, since each round owns its own
   * interval, in round order as well.
   */
  lemma MilestonesInOrder(log: seq<ChoiceLogEntry>, achievements: seq<string>, a: nat, b: nat)
    requires |achievements| == ROUND_COUNT
    requires a < b < |StableSort(MilestonesUpTo(log, achievements, ROUND_COUNT), Year)|
    ensures var ms := StableSort(MilestonesUpTo(log, achievements, ROUND_COUNT), Year);
            ms[a].year <= ms[b].year && ms[a].round <= ms[b].round
  {
    var ms := StableSort(MilestonesUpTo(log, achievements, ROUND_COUNT), Year);
    assert Year(ms[a]) <= Year(ms[b]);
    SortedMilestonesInRounds(log, achievements, a);
    SortedMilestonesInRounds(log, achievements, b);
  }

  /** `yearToX`: years 0..8000 across the 840-unit plot that starts 80 units in. */
  function YearToX(year: real): (x: real)
    ensures year == 0.0 ==> x == 80.0
    ensures year == 8000.0 ==> x == 920.0
  {
    80.0 + (year / 8000.0) * 840.0
  }

  /** Later years lie further right. */
  lemma YearToXIncreasing(a: real, b: real)
    requires a < b
    ensures YearToX(a) < YearToX(b)
  {
    assert (b / 8000.0) * 840.0 - (a / 8000.0) * 840.0 == (b - a) * 840.0 / 8000.0;
  }

  // ---------------------------------------------------------------------------
  // Short civilization names
  // ---------------------------------------------------------------------------

  /** `\d`: an ASCII digit. */
  predicate IsDigit(c: char)
  {
    '0' <= c <= '9'
  }

  /** The length of the run of digits that starts at `from`. */
  function DigitRun(s: string, from: nat): (n: nat)
    requires from <= |s|
    ensures from + n <= |s|
    ensures forall i :: from <= i < from + n ==> IsDigit(s[i])
    ensures from + n == |s| || !IsDigit(s[from + n])
    decreases |s| - from
  {
    if from < |s| && IsDigit(s[from]) then 1 + DigitRun(s, from + 1) else 0
  }

  /** The words the region pattern looks for before the digits. */
  const REGION_WORD: string := "Region "

  /** `/Region (\d+)/` matches at position i. */
  predicate RegionAt(caption: string, i: nat)
  {
    i + |REGION_WORD| < |caption| && caption[i..i + |REGION_WORD|] == REGION_WORD && IsDigit(caption[i + |REGION_WORD|])
  }

  /** The leftmost match of the region pattern at or after `from`. */
  function FindRegion(caption: string, from: nat): (r: Option<nat>)
    ensures r.Some? ==> from <= r.value && RegionAt(caption, r.value)
    ensures r.Some? ==> forall j :: from <= j < r.value ==> !RegionAt(caption, j)
    ensures r.None? ==> forall j :: from <= j ==> !RegionAt(caption, j)
    decreases |caption| - from
  {
    if from + |REGION_WORD| >= |caption| then None
    else if RegionAt(caption, from) then Some(from)
    else FindRegion(caption, from + 1)
  }

  /** The label shown for an area: its label when there is a non-empty one, else its id. */
  function LabelOf(areaLabels: map<string, string>, areaId: string): string
  {
    if areaId in areaLabels && areaLabels[areaId] != "" then areaLabels[areaId] else areaId
  }

  /**
   * `getCivilizationName`: "R" and the digits of the leftmost "Region <digits>" in the label;
   * otherwise the label's text before its first ':', unless that is empty, when the id.
   */
  function GetCivilizationName(areaLabels: map<string, string>, areaId: string): (name: string)
    ensures var caption := LabelOf(areaLabels, areaId);
            match FindRegion(caption, 0)
            case Some(i) =>
              var d := i + |REGION_WORD|;
              var n := |name| - 1;
              0 < n && d + n <= |caption| && name == "R" + caption[d..d + n] &&
              (forall j :: d <= j < d + n ==> IsDigit(caption[j])) &&
              (d + n == |caption| || !IsDigit(caption[d + n]))
            case None =>
              ((caption == "" || caption[0] == ':') ==> name == areaId) &&
              ((caption != "" && caption[0] != ':') ==>
                 name != "" && StartsWith(caption, name) && ':' !in name &&
                 (|name| == |caption| || caption[|name|] == ':'))
  {
    var caption := LabelOf(areaLabels, areaId);
    match FindRegion(caption, 0)
    case Some(i) =>
      var d := i + |REGION_WORD|;
      var n := DigitRun(caption, d);
      assert 0 < n;
      "R" + caption[d..d + n]
    case None =>
      var head := Split(caption, ":")[0];
      HeadEmptyIffLeadingColon(caption);
      if head != "" then head else areaId
  }

  /** The text before the first ':' is empty exactly when the string is empty or starts with ':'. */
  lemma HeadEmptyIffLeadingColon(s: string)
    ensures var head := Split(s, ":")[0];
            StartsWith(s, head) && ':' !in head && (|head| == |s| || s[|head|] == ':') &&
            (head == "" <==> s == "" || s[0] == ':')
  {
    var head := Split(s, ":")[0];
    FirstPieceBeforeSeparator(s);
    if head != "" {
      assert s[0] == head[0];
    }
  }

  /** The first piece of `split(':')` is the text before the first ':', or all of it. */
  lemma FirstPieceBeforeSeparator(s: string)
    ensures var head := Split(s, ":")[0];
            StartsWith(s, head) && ':' !in head && (|head| == |s| || s[|head|] == ':')
  {
    var head := Split(s, ":")[0];
    match IndexOf(s, ":", 0)
    case None =>
      assert head == s;
      forall j | 0 <= j < |s| ensures s[j] != ':' {
        assert !OccursAt(s, ":", j);
      }
    case Some(i) =>
      assert head == s[..i];
      assert OccursAt(s, ":", i);
      forall j | 0 <= j < i ensures s[j] != ':' {
        assert !OccursAt(s, ":", j);
        assert s[j..j + 1] == [s[j]];
      }
  }

  /** The decimal spelling of a number is all digits. */
  lemma {:induction false} DecimalDigits(n: nat)
    ensures forall i :: 0 <= i < |DecimalString(n)| ==> IsDigit(DecimalString(n)[i])
  {
    if n >= 10 {
      DecimalDigits(n / 10);
    }
  }

  /**
   * A label "Region <n>" followed by anything that does not continue the number shortens
   * to "R<n>".
   */
  lemma RegionLabelShortened(areaLabels: map<string, string>, areaId: string, n: nat, rest: string)
    requires areaId in areaLabels && areaLabels[areaId] == REGION_WORD + DecimalString(n) + rest
    requires rest == [] || !IsDigit(rest[0])
    ensures GetCivilizationName(areaLabels, areaId) == "R" + DecimalString(n)
  {
    var caption := areaLabels[areaId];
    var digits := DecimalString(n);
    var d := |REGION_WORD|;
    DecimalDigits(n);
    assert caption[..d] == REGION_WORD;
    assert caption[d] == digits[0];
    assert RegionAt(caption, 0);
    assert FindRegion(caption, 0) == Some(0);
    assert caption[d..d + |digits|] == digits;
  }

  // ---------------------------------------------------------------------------
  // Milestones per civilization
  // ---------------------------------------------------------------------------

  /** `milestones.filter(m => m.civilizationId === id)`. */
  function MilestonesOf(milestones: seq<Milestone>, id: string): (r: seq<Milestone>)
    ensures forall m :: m in r <==> m in milestones && m.civilizationId == id
    ensures |r| <= |milestones|
  {
    if milestones == [] then []
    else if milestones[0].civilizationId == id then [milestones[0]] + MilestonesOf(milestones[1..], id)
    else MilestonesOf(milestones[1..], id)
  }

  /** The milestones are in timeline order. */
  predicate YearsAscending(ms: seq<Milestone>)
  {
    forall a, b :: 0 <= a < b < |ms| ==> ms[a].year <= ms[b].year
  }

  /** Keeping the milestones of one id keeps their year order. */
  lemma {:induction false} MilestonesOfKeepsOrder(milestones: seq<Milestone>, id: string)
    requires YearsAscending(milestones)
    ensures YearsAscending(MilestonesOf(milestones, id))
  {
    if milestones != [] {
      var tail := milestones[1..];
      AscendingTail(milestones);
      MilestonesOfKeepsOrder(tail, id);
      var rest := MilestonesOf(tail, id);
      if milestones[0].civilizationId == id {
        assert MilestonesOf(milestones, id) == [milestones[0]] + rest;
        forall x | x in rest ensures milestones[0].year <= x.year {
          AscendingHeadFirst(milestones, x);
        }
        AscendingCons(milestones[0], rest);
      } else {
        assert MilestonesOf(milestones, id) == rest;
      }
    }
  }

  /** Dropping the first milestone keeps the rest in timeline order. */
  lemma AscendingTail(ms: seq<Milestone>)
    requires |ms| > 0 && YearsAscending(ms)
    ensures YearsAscending(ms[1..])
  {
    var tail := ms[1..];
    forall a, b | 0 <= a < b < |tail| ensures tail[a].year <= tail[b].year {
      assert tail[a] == ms[a + 1] && tail[b] == ms[b + 1];
    }
  }

  /** In timeline order, no later milestone is older than the first. */
  lemma AscendingHeadFirst(ms: seq<Milestone>, x: Milestone)
    requires |ms| > 0 && YearsAscending(ms) && x in ms[1..]
    ensures ms[0].year <= x.year
  {
    var j :| 0 <= j < |ms[1..]| && ms[1..][j] == x;
    assert ms[j + 1] == x;
  }

  /** A milestone no younger than any of an ordered list can go in front of it. */
  lemma AscendingCons(h: Milestone, rest: seq<Milestone>)
    requires YearsAscending(rest) && forall x :: x in rest ==> h.year <= x.year
    ensures YearsAscending([h] + rest)
  {
    var r := [h] + rest;
    forall a, b | 0 <= a < b < |r| ensures r[a].year <= r[b].year {
      assert r[b] == rest[b - 1];
      if a > 0 {
        assert r[a] == rest[a - 1];
      }
    }
  }

  /**
   * `milestonesByCivilization`: a group for every area id (a repeated id is grouped again,
   * identically), holding that id's milestones in timeline order.
   */
  method MilestonesByCivilization(areaIds: seq<string>, milestones: seq<Milestone>) returns (groups: map<string, seq<Milestone>>)
    ensures groups.Keys == set i | 0 <= i < |areaIds| :: areaIds[i]
    ensures forall id :: id in groups ==> groups[id] == MilestonesOf(milestones, id)
  {
    groups := map[];
    for i := 0 to |areaIds|
      invariant groups.Keys == set j | 0 <= j < i :: areaIds[j]
      invariant forall id :: id in groups ==> groups[id] == MilestonesOf(milestones, id)
    {
      groups := groups[areaIds[i] := MilestonesOf(milestones, areaIds[i])];
    }
  }
}
