# A verified model of the civilisation-growth game's core

The game runs eight rounds. In each round the player reads about five civilisation
centres (zones A1..A5) and picks one of them. Every zone's acceleration (acc) and power then change. The
map shows each centre's territory. It grows from a seed pixel over land and crosses rivers,
mountains and oceans depending on acc. After round 8, three charts summarise the game:
a timeline of achievements, the dominance of each centre per round, and a projection of
each centre's strength to rounds 9..12.

This project models that core in Dafny and proves properties of it, one module per source
file:

| module | models |
|---|---|
| `MapRenderer` | `src/utils/mapRenderer.ts`: the land mask, barrier measuring and classification, frontier growth of an area, ranking by power, pixel ownership with tie-breaking, painting, and hit-testing |
| `Random` | the interface of the renderer's seeded generator (the generator itself is not part of this model) |
| `GameState` | `src/hooks/useGameState.ts`: the game state as a class, its actions, the step deltas and the round history |
| `ValidateTexts` | `src/utils/validateTexts.ts`: the error list for a texts document, with a proof that it is empty exactly for a well-formed document |
| `FinalTimeline` | `src/components/FinalTimeline.tsx`: the milestone placement and sort, short civilisation names, and grouping by civilisation |
| `DominancePeriods` | `src/components/DominancePeriodsChart.tsx`: shares per round, the dominant centre per round, and the chart segments |
| `FutureProjection` | `src/components/FutureProjectionChart.tsx`: real and projected lines, the value axis, and the solid and dashed paths |
| `RoundIcons` | `src/components/RoundIconsRow.tsx`: the state of each round icon |
| `UnifiedTextBlock` | `src/components/UnifiedTextBlock.tsx`: paragraph splitting and paragraph classes |
| `RoundNarrative` | `src/components/RoundNarrative.tsx`: the screen sequence of a round as a class |

`Common`, `Types`, `JsString` and `Sorting` hold the shared pieces:
- the record shapes of `src/types.ts`;
- JavaScript's `trim`, `split` and `startsWith`;
- a stable sort for `Array.prototype.sort` with a numeric comparator. It is specified by index insertion ordered by (key, original index).

Numbers are exact reals or unbounded integers. Where JavaScript's arithmetic matters, the model writes it out: the truncating `%` in `generateRandomDelta`, and `Uint8ClampedArray` rounding for the alpha byte. Object key order is insertion order, which holds for the non-numeric ids used here (`"A1"`..`"A5"`).

`isLand` is the predicate `MapRenderer.MapRenderer.IsLand`:
- without a mask every coordinate is land;
- off-canvas is never land;
- otherwise a pixel is land when its red byte is above 128.

## Model

| member | source | states |
|---|---|---|
| MapRenderer.ClassifyBarrier | src/utils/mapRenderer.ts:86-90 | a width below 5 is a river, below 15 a mountain, otherwise an ocean; never null |
| MapRenderer.CanCrossBarrier | src/utils/mapRenderer.ts:95-108 | no barrier can always be crossed; otherwise crossing needs acc at least the barrier's threshold |
| MapRenderer.CrossingMonotoneInAcc | src/utils/mapRenderer.ts:95-108 | whatever a centre can cross, a centre with more acc can cross too |
| MapRenderer.CrossingByWidth | src/utils/mapRenderer.ts:86-108 | with ordered thresholds, crossing a wider barrier implies crossing a narrower one; acc below the mountain threshold crosses nothing 5 or wider |
| MapRenderer.HexDigits | src/utils/mapRenderer.ts:285 | the six hex digits of a colour, with the optional `#` removed |
| MapRenderer.HexPair | src/utils/mapRenderer.ts:287-289 | two hex digits parse to a byte in 0..255 |
| MapRenderer.HexToRgb | src/utils/mapRenderer.ts:284-291 | every channel is a byte; a string that is not `#`? plus six hex digits gives black |
| MapRenderer.HexRoundTrip | src/utils/mapRenderer.ts:284-291 | parsing the `#rrggbb` form of any colour gives that colour back |
| MapRenderer.HexHashOptional | src/utils/mapRenderer.ts:285 | the `#` is optional: the six digits alone parse to the same colour |
| MapRenderer.HexDigitEitherCase | src/utils/mapRenderer.ts:285 | a hex digit has the same value in either case (the `i` flag) |
| MapRenderer.HexCaseInsensitive | src/utils/mapRenderer.ts:285-290 | upper-casing a colour string does not change the colour it parses to, valid or not |
| MapRenderer.HexUpperRoundTrip | src/utils/mapRenderer.ts:284-291 | the upper-case `#RRGGBB` form of any colour parses back to that colour |
| MapRenderer.ToUint8Clamped | src/utils/mapRenderer.ts:274 | storing into the image byte clamps to 0..255 and rounds to within half a unit |
| MapRenderer.HighlightIsOpaque | src/utils/mapRenderer.ts:264-274 | a highlighted owner is painted with alpha 255 |
| MapRenderer.RankOpacity | src/utils/mapRenderer.ts:193-194 | the configured opacity of a rank, or 0.5 when it is missing or 0 (`\|\|`) |
| MapRenderer.RankOrderDescending | src/utils/mapRenderer.ts:189 | the sorted order is by descending power, and equal powers keep their input order |
| MapRenderer.FirstRankedIsStrongest | src/utils/mapRenderer.ts:189-195 | the first ranked area has the greatest power |
| MapRenderer.StrongestRanksFirst | src/utils/mapRenderer.ts:189 | an area strictly stronger than all others ranks first |
| MapRenderer.StepLength | src/utils/mapRenderer.ts:153 | a step to one of the eight neighbours has length at least 1 |
| MapRenderer.Claimants | src/utils/mapRenderer.ts:234-236 | exactly the areas whose overlay holds the pixel |
| MapRenderer.MaxPower | src/utils/mapRenderer.ts:243 | the greatest power among the claimants, attained by one of them |
| MapRenderer.PowerEquals | src/utils/mapRenderer.ts:244 | exactly the claimants with the given power |
| MapRenderer.Top | src/utils/mapRenderer.ts:243-244 | the claimants of greatest power, never empty |
| MapRenderer.WinnerIsStrongest | src/utils/mapRenderer.ts:241-254 | the winner is a claimant and no claimant is stronger |
| MapRenderer.StrictlyStrongestWins | src/utils/mapRenderer.ts:241-254 | a claimant strictly stronger than all others wins without a draw |
| MapRenderer.Paint | src/utils/mapRenderer.ts:259-274 | the painted pixel has the owner's colour and an alpha byte in 0..255 |
| MapRenderer.RankTableKeys | src/utils/mapRenderer.ts:192-196 | the opacity map has exactly the ids of the ranked areas |
| MapRenderer.RankTableLastWins | src/utils/mapRenderer.ts:192-196 | for an id ranked several times, the last rank's opacity is kept |
| MapRenderer.OpacityTableKeys | src/utils/mapRenderer.ts:188-198 | `rankAreas` gives an opacity to every area id and to nothing else |
| MapRenderer.StrongestGetsRankOneOpacity | src/utils/mapRenderer.ts:188-198 | a strictly strongest area with a unique id gets rank 1's opacity |
| MapRenderer.RowTiesAt | src/utils/mapRenderer.ts:230-249 | flag i of a row's tie flags says whether pixel (i, y) needs the tie-break draw |
| MapRenderer.LastSetIsLast | src/utils/mapRenderer.ts:230-249 | the index found is a set flag with no set flag after it, or there is no set flag at all |
| MapRenderer.LastTieUpToIsLast | src/utils/mapRenderer.ts:229-249 | the pixel found is tied, on the canvas, and no tied pixel comes after it in scan order (rows top to bottom, columns left to right) |
| MapRenderer.LastTieUpToNone | src/utils/mapRenderer.ts:229-249 | finding no pixel means no pixel of the rows so far is tied |
| MapRenderer.GridAt | src/utils/mapRenderer.ts:229-230 | row j of the flag grid is row j's tie flags |
| MapRenderer.LastInGridIsLastTie | src/utils/mapRenderer.ts:229-249 | the last set flag of the grid is the last tied pixel of the canvas |
| MapRenderer.TieStepInRow | src/utils/mapRenderer.ts:246-249 | after one more pixel, the generator is reseeded for the last tied pixel of the row so far and drawn from once, or untouched if none was tied |
| MapRenderer.TieStepRows | src/utils/mapRenderer.ts:229-249 | after one more row, the generator is reseeded for the last tied pixel of the rows so far and drawn from once, or untouched if none was tied |
| MapRenderer.PaintedStep | src/utils/mapRenderer.ts:230-274 | painting one pixel extends the painted prefix of the scan by that pixel |
| MapRenderer.PaintedNextRow | src/utils/mapRenderer.ts:229-276 | a finished row moves the painted prefix to the start of the next row |
| MapRenderer.MapRenderer.constructor | src/utils/mapRenderer.ts:17-25 | a renderer of the canvas size, with no mask, no hit-test map and a generator seeded as given |
| MapRenderer.MapRenderer.LoadLandMask | src/utils/mapRenderer.ts:30-45 | the mask becomes the decoded red channel; nothing else changes |
| MapRenderer.MapRenderer.MeasureBarrier | src/utils/mapRenderer.ts:61-81 | the loop's result equals the march specification |
| MapRenderer.MapRenderer.MarchBounds | src/utils/mapRenderer.ts:61-81 | the width is maxDist, or at least one step and less than maxDist plus one step |
| MapRenderer.MapRenderer.MarchFindsLand | src/utils/mapRenderer.ts:66-77 | a width below maxDist is k steps to the first land pixel on the ray, with only in-canvas water before it |
| MapRenderer.MapRenderer.MarchReachesFirstLand | src/utils/mapRenderer.ts:66-77 | when the k-th pixel is the first land and the ray stays in range, the width is k steps |
| MapRenderer.MapRenderer.FrontPop | src/utils/mapRenderer.ts:133-135 | taking the queue head into the grown set keeps the growth invariant |
| MapRenderer.MapRenderer.FrontPush | src/utils/mapRenderer.ts:177-178 | queueing a reachable land neighbour keeps the growth invariant |
| MapRenderer.MapRenderer.FrontCorridor | src/utils/mapRenderer.ts:169-173 | admitting a crossable narrow water pixel keeps the growth invariant |
| MapRenderer.MapRenderer.TryCorridor | src/utils/mapRenderer.ts:160-174 | a water neighbour is added to both visited and grown, or to neither, and the invariant holds |
| MapRenderer.MapRenderer.Explore | src/utils/mapRenderer.ts:144-179 | one neighbour keeps the invariant, grows nothing away and does not increase the termination measure |
| MapRenderer.MapRenderer.ExploreNeighbours | src/utils/mapRenderer.ts:137-179 | the eight neighbours keep the invariant and the measure |
| MapRenderer.MapRenderer.GenerateAreaOverlay | src/utils/mapRenderer.ts:113-183 | a seed on water gives no pixels and no draws; otherwise the seed is grown, and every grown pixel was reached from an adjacent grown land pixel within the radius, water only as an allowed corridor |
| MapRenderer.MapRenderer.RankAreas | src/utils/mapRenderer.ts:188-199 | the loop builds the opacity table of the stable descending-power ranking |
| MapRenderer.MapRenderer.Owner | src/utils/mapRenderer.ts:233-254 | a pixel has an owner exactly when some area claims it |
| MapRenderer.MapRenderer.ResolveWinner | src/utils/mapRenderer.ts:241-254 | the winner is the specified one, using the draw made after reseeding with x*1000+y+turns; the generator is left reseeded with x*1000+y+turns and drawn once exactly when the pixel is tied, untouched otherwise |
| MapRenderer.MapRenderer.GrowOverlays | src/utils/mapRenderer.ts:217-222 | one overlay per id, the last area with that id winning, each empty on a water seed, else holding the seed with every pixel reached by the growth rules (`Grown`); the generator seed is kept |
| MapRenderer.MapRenderer.PaintPixel | src/utils/mapRenderer.ts:231-274 | an unclaimed pixel changes nothing; a claimed one maps to its owner's id and is painted for it; a tied pixel leaves the generator reseeded for it and drawn once, any other leaves it untouched |
| MapRenderer.MapRenderer.PaintRow | src/utils/mapRenderer.ts:230-275 | after a row, every pixel of the rows so far is mapped and painted for its owner, and the generator reflects the row's last tied pixel, or is untouched |
| MapRenderer.MapRenderer.PaintAreas | src/utils/mapRenderer.ts:224-276 | the whole canvas is mapped and painted for the owners, and the generator is left reseeded for the last tied pixel in scan order and drawn once, or untouched |
| MapRenderer.MapRenderer.RenderAreas | src/utils/mapRenderer.ts:204-279 | the hit-test map and the image hold exactly the owners and paint of all claimed canvas pixels, the overlays are grown regions, and the generator ends reseeded for the canvas's last tied pixel, or keeps its seed |
| MapRenderer.MapRenderer.GetAreaAtPixel | src/utils/mapRenderer.ts:297-308 | the id mapped at the floored pixel when it is on the canvas and non-empty, else null |
| MapRenderer.MapRenderer.HitTestFindsOwner | src/utils/mapRenderer.ts:297-308 | after rendering, a click finds the owner of the clicked pixel, or null |
| Random.ScaleDraw | src/utils/mapRenderer.ts:249 | `nextInt(lo, hi)` lies in lo..hi-1 |
| Random.SeededRandom.constructor | src/utils/mapRenderer.ts:24 | the generator starts its sequence from the given seed |
| Random.SeededRandom.SetSeed | src/utils/mapRenderer.ts:248 | reseeding restarts the sequence from the new seed |
| Random.SeededRandom.Next | src/utils/mapRenderer.ts:154 | the next value of the sequence, in [0, 1) |
| Random.SeededRandom.NextInt | src/utils/mapRenderer.ts:249 | one draw scaled to lo..hi-1 |
| GameState.JsRem | src/hooks/useGameState.ts:119-125 | JavaScript's `%` takes the sign of the dividend and stays below the divisor in size |
| GameState.Lcg | src/hooks/useGameState.ts:120-121 | one generator step maps a non-negative seed into 0..233279 |
| GameState.GenerateRandomDelta | src/hooks/useGameState.ts:116-134 | for a non-negative seed, the power delta is in [-0.8, 0.8) and the acc delta in [0.1, 1.0) |
| GameState.GeneratedDeltas | src/hooks/useGameState.ts:142 | five generated deltas, one per zone index |
| GameState.GeneratedDeltasInRange | src/hooks/useGameState.ts:128-133 | every generated delta for a step 1..8 is in its promised range |
| GameState.FindStep | src/hooks/useGameState.ts:146 | the first configured step with the number, or none |
| GameState.StepDeltasChoice | src/hooks/useGameState.ts:139-162 | generated deltas without a config; the first matching step's zones; else the last step's zones; generated deltas for an empty config |
| GameState.RoundMultiplier | src/hooks/useGameState.ts:92-101 | 1.0 except rounds 7 and 8 with multipliers given, which use them |
| GameState.SnapshotEntries | src/hooks/useGameState.ts:88-112 | one entry per area, in order, with its id, acc, power and acc·power·multiplier |
| GameState.PopulationIsAccTimesPower | src/hooks/useGameState.ts:83-85 | outside rounds 7 and 8 the population value is acc·power |
| GameState.WithoutRound | src/hooks/useGameState.ts:299 | exactly the snapshots of other rounds |
| GameState.WithoutRoundAscending | src/hooks/useGameState.ts:299 | filtering an ascending history keeps it ascending |
| GameState.UpsertSnapshotProperties | src/hooks/useGameState.ts:298-300 | the history stays strictly ascending by round, holds the new snapshot, and replaces only that round's |
| GameState.SortDistinctAscending | src/hooks/useGameState.ts:300 | sorting snapshots of distinct rounds by round gives a strictly ascending history |
| GameState.SortKeepsMembers | src/hooks/useGameState.ts:300 | the sort neither adds nor drops a snapshot |
| GameState.IndexOfId | src/hooks/useGameState.ts:245 | the first index of the id, or -1 exactly when absent |
| GameState.AreaIds | src/hooks/useGameState.ts:233 | the ids of the initial areas, in order |
| GameState.ApplyDeltas | src/hooks/useGameState.ts:243-258 | each area is updated by its zone's delta |
| GameState.ApplyBonus | src/hooks/useGameState.ts:265-274 | the bonus keeps the number of areas |
| GameState.BonusOnlyForChosen | src/hooks/useGameState.ts:264-274 | the chosen area gains 0.05 power and acc; every other area is unchanged |
| GameState.DeltaForZone | src/hooks/useGameState.ts:244-257 | an area with a delta gains it (missing fields count 0); an area without one is unchanged |
| GameState.ApplyRoundOnce | src/hooks/useGameState.ts:236-261 | recording a round not yet applied keeps every round applied at most once, the set matching the log |
| GameState.ResetCounts | src/hooks/useGameState.ts:321 | counts of zero for A1..A5 |
| GameState.Game.constructor | src/hooks/useGameState.ts:24-78 | turn 1, phase 1, the initial areas, empty history and zero counts |
| GameState.Game.StepsConfigLoaded | src/hooks/useGameState.ts:59-67 | the config becomes the loaded steps (empty after a failed fetch) |
| GameState.Game.PropsChanged | src/hooks/useGameState.ts:19-21 | a render with new hook arguments replaces the initial areas and multipliers and nothing else |
| GameState.Game.Initialize | src/hooks/useGameState.ts:180-204 | once, with areas present: the initial areas and a round 0 snapshot; otherwise nothing |
| GameState.Game.SetPhase | src/hooks/useGameState.ts:209-211 | the phase becomes the given one |
| GameState.DataArrivesLate | src/hooks/useGameState.ts:177-204 | example scenario, not a source operation: a first render without areas leaves the game uninitialised, and the areas arriving later initialise it with their round 0 snapshot |
| GameState.Game.SetHighlightedArea | src/hooks/useGameState.ts:213-215 | the highlight becomes the given id |
| GameState.Game.SelectArea | src/hooks/useGameState.ts:219-286 | the choice count rises by one; the round's deltas are applied only the first time in a round; the bonus goes to the chosen area; phase 3 |
| GameState.Game.NextTurn | src/hooks/useGameState.ts:288-317 | the snapshot is upserted and the turn advances, or the game completes after turn 8 |
| GameState.Game.RestartGame | src/hooks/useGameState.ts:319-356 | everything back to the start, with a round 0 snapshot and no applied deltas |
| GameState.Game.CaptureCurrentSnapshot | src/hooks/useGameState.ts:360-373 | the current round's snapshot is upserted into the history |
| GameState.Game.MarkCurrentRoundCompleted | src/hooks/useGameState.ts:377-396 | a round not yet completed is appended with its snapshot; otherwise nothing changes |
| ValidateTexts.ArrayIndex | src/utils/validateTexts.ts:23 | a key indexes an array only when it is all digits |
| ValidateTexts.Get | src/utils/validateTexts.ts:23 | a property lookup on an object finds exactly its own fields; on null, a boolean or a number it is undefined |
| ValidateTexts.GetIndexed | src/utils/validateTexts.ts:23 | indexing an array or a string is defined exactly for a canonical index below the length, giving the element or the one-character string there |
| ValidateTexts.VisibleIffNotBlank | src/utils/validateTexts.ts:30 | a string has a visible character exactly when its trim is not empty |
| ValidateTexts.Messages | src/utils/validateTexts.ts:11-118 | one message per error, in order |
| ValidateTexts.ConcatEmpty | src/utils/validateTexts.ts:21-52 | a loop reports nothing exactly when no iteration reports anything |
| ValidateTexts.ValidationErrors | src/utils/validateTexts.ts:7-18 | missing texts and missing rounds each give exactly their one error |
| ValidateTexts.KeysEmpty | src/utils/validateTexts.ts:59-63 | a key loop reports nothing exactly when every key holds a non-empty string |
| ValidateTexts.KeySectionEmpty | src/utils/validateTexts.ts:55-76 | a section reports nothing exactly when it exists and has every key |
| ValidateTexts.ZoneErrorsEmpty | src/utils/validateTexts.ts:45-50 | the zone loop reports nothing exactly when each zone text is a non-blank string |
| ValidateTexts.ZoneTextErrorsEmpty | src/utils/validateTexts.ts:42-51 | a round's zone texts report nothing exactly when they are well-formed |
| ValidateTexts.RoundErrorEmpty | src/utils/validateTexts.ts:22-51 | a round reports nothing exactly when it is well-formed |
| ValidateTexts.RoundsEmptyUpTo | src/utils/validateTexts.ts:21-52 | rounds 1..n report nothing exactly when each of them is well-formed |
| ValidateTexts.AllRoundsEmpty | src/utils/validateTexts.ts:21-52 | the rounds report nothing exactly when rounds 1..8 are well-formed |
| ValidateTexts.RoundTitleErrorsEmpty | src/utils/validateTexts.ts:91-96 | the title loop reports nothing exactly when each title is a non-blank string |
| ValidateTexts.RoundTitlesErrorsEmpty | src/utils/validateTexts.ts:88-97 | the round titles report nothing exactly when they are well-formed |
| ValidateTexts.HeaderEmpty | src/utils/validateTexts.ts:79-98 | the header reports nothing exactly when it is well-formed |
| ValidateTexts.TimelineEmpty | src/utils/validateTexts.ts:101-122 | the timeline reports nothing exactly when it is well-formed |
| ValidateTexts.NoErrorsIffWellFormed | src/utils/validateTexts.ts:7-125 | the error list is empty exactly for a well-formed document |
| ValidateTexts.CheckKeys | src/utils/validateTexts.ts:59-63 | the key loop appends the specified errors |
| ValidateTexts.CheckRoundTexts | src/utils/validateTexts.ts:30-40 | the three text checks append the specified errors |
| ValidateTexts.CheckZoneTexts | src/utils/validateTexts.ts:42-51 | the zone checks append the specified errors |
| ValidateTexts.CheckRound | src/utils/validateTexts.ts:22-51 | one round's checks append the specified errors |
| ValidateTexts.CheckRoundTitles | src/utils/validateTexts.ts:88-97 | the title checks append the specified errors |
| ValidateTexts.CheckHeader | src/utils/validateTexts.ts:79-98 | the header checks append the specified errors |
| ValidateTexts.CheckKeySection | src/utils/validateTexts.ts:55-76 | a key section's checks append the specified errors |
| ValidateTexts.CheckTimeline | src/utils/validateTexts.ts:101-122 | the timeline checks append the specified errors |
| ValidateTexts.ValidateTextsStructure | src/utils/validateTexts.ts:7-125 | the specified error list, which is empty exactly for a well-formed document |
| FinalTimeline.ChosenZone | src/components/FinalTimeline.tsx:48-51 | a round's chosen zone is the last log entry's for that round, none without one |
| FinalTimeline.ChosenByRound | src/components/FinalTimeline.tsx:48-51 | the map holds exactly the logged rounds, each with its last entry's zone |
| FinalTimeline.Without | src/components/FinalTimeline.tsx:63-65 | exactly the zones other than the chosen one |
| FinalTimeline.WithoutAppend | src/components/FinalTimeline.tsx:63-65 | filtering a concatenation filters each part in place, so the kept zones keep their order and repeats |
| FinalTimeline.OthersOfChosen | src/components/FinalTimeline.tsx:63-65 | a chosen zone 1..5 leaves exactly the four other zones, in ascending zone order |
| FinalTimeline.OtherPosition | src/components/FinalTimeline.tsx:86-88 | every position lies strictly inside the round's interval |
| FinalTimeline.OtherMilestones | src/components/FinalTimeline.tsx:81-96 | one milestone per other zone |
| FinalTimeline.RoundMilestonesInRound | src/components/FinalTimeline.tsx:54-96 | every milestone of a round has that round, its achievement, and a year inside its 1000-year interval |
| FinalTimeline.PlaceOthers | src/components/FinalTimeline.tsx:82-96 | the loop pushes the specified milestones |
| FinalTimeline.PlaceRound | src/components/FinalTimeline.tsx:55-96 | one round pushes the specified milestones |
| FinalTimeline.RoundMilestonesSplit | src/components/FinalTimeline.tsx:55-96 | a round pushes its chosen zone's milestone, if any, and then the other zones' |
| FinalTimeline.Milestones | src/components/FinalTimeline.tsx:43-100 | the milestones of rounds 1..8, stably sorted by year |
| FinalTimeline.ChosenRoundMilestones | src/components/FinalTimeline.tsx:67-96 | with zone z chosen: z first at +100 years, the others at +400, +600, +800 and +400 again; all five zones appear |
| FinalTimeline.AreaIdDistinct | src/components/FinalTimeline.tsx:69 | different zones 1..5 have different ids |
| FinalTimeline.UnchosenRoundMilestones | src/components/FinalTimeline.tsx:86-88 | with no valid choice, A1..A5 sit at 1/6..5/6 of the interval |
| FinalTimeline.MilestonesUpToFromRounds | src/components/FinalTimeline.tsx:54-97 | every milestone comes from one round's placement |
| FinalTimeline.MilestoneInItsRound | src/components/FinalTimeline.tsx:54-97 | every milestone of rounds 1..n has one of those rounds, that round's achievement and a year inside its interval |
| FinalTimeline.SortedMilestonesInRounds | src/components/FinalTimeline.tsx:54-99 | after the sort each milestone still lies in its round's interval, with its round's achievement |
| FinalTimeline.MilestonesInOrder | src/components/FinalTimeline.tsx:99 | the sorted milestones ascend by year and hence by round |
| FinalTimeline.YearToX | src/components/FinalTimeline.tsx:114-116 | year 0 maps to 80 and year 8000 to 920 |
| FinalTimeline.YearToXIncreasing | src/components/FinalTimeline.tsx:114-116 | later years lie further right |
| FinalTimeline.DigitRun | src/components/FinalTimeline.tsx:122 | the maximal run of digits at a position |
| FinalTimeline.FindRegion | src/components/FinalTimeline.tsx:122 | the leftmost "Region " followed by a digit, or none |
| FinalTimeline.GetCivilizationName | src/components/FinalTimeline.tsx:119-127 | "R" plus the region number when the label has one; else the id when the label is empty or starts with ':', and otherwise the label's non-empty, colon-free part before the first ':' |
| FinalTimeline.HeadEmptyIffLeadingColon | src/components/FinalTimeline.tsx:126 | the part before the first ':' is empty exactly when the label is empty or starts with ':' |
| FinalTimeline.FirstPieceBeforeSeparator | src/components/FinalTimeline.tsx:126 | the first piece of a split on ':' is a colon-free prefix ending at the first ':' |
| FinalTimeline.RegionLabelShortened | src/components/FinalTimeline.tsx:122-125 | a label "Region n…" not followed by more digits shortens to "Rn" |
| FinalTimeline.MilestonesOf | src/components/FinalTimeline.tsx:133 | exactly the milestones of the civilisation |
| FinalTimeline.MilestonesOfKeepsOrder | src/components/FinalTimeline.tsx:133 | filtering sorted milestones keeps them sorted by year |
| FinalTimeline.MilestonesByCivilization | src/components/FinalTimeline.tsx:130-136 | one group per area id, each holding exactly its milestones |
| DominancePeriods.DistinctIds | src/components/DominancePeriodsChart.tsx:87-89 | the area ids without repeats, in first-occurrence order |
| DominancePeriods.LastIndex | src/components/DominancePeriodsChart.tsx:100-104 | the last entry with the id, whose raw value the record keeps |
| DominancePeriods.RawValuesStep | src/components/DominancePeriodsChart.tsx:100-104 | recording one more entry keeps the map equal to the last raw value per id |
| DominancePeriods.SnapshotTotals | src/components/DominancePeriodsChart.tsx:97-104 | raw values keyed by present ids, each the last entry's acc·power, and the total of all entries |
| DominancePeriods.PointAt | src/components/DominancePeriodsChart.tsx:106-119 | an entry's point has the snapshot's round and the id's share |
| DominancePeriods.EntryPoints | src/components/DominancePeriodsChart.tsx:107-121 | a snapshot adds points of its own round only |
| DominancePeriods.PushSnapshot | src/components/DominancePeriodsChart.tsx:95-121 | each line gains the points of its entries in the snapshot |
| DominancePeriods.PushAll | src/components/DominancePeriodsChart.tsx:107-121 | pushing the entries of a snapshot keeps the set of lines |
| DominancePeriods.PushAllLines | src/components/DominancePeriodsChart.tsx:107-121 | each line gains, in entry order, exactly the points of its own entries |
| DominancePeriods.DominanceData | src/components/DominancePeriodsChart.tsx:76-125 | one line per distinct area id, holding the points of the history sorted by round |
| DominancePeriods.DistinctIdsOwnRaw | src/components/DominancePeriodsChart.tsx:100-110 | with distinct ids each entry's share uses its own raw value |
| DominancePeriods.ShareSumPrefix | src/components/DominancePeriodsChart.tsx:106-110 | the shares of the first n entries sum to their raw total over the whole total |
| DominancePeriods.SharesSumToOne | src/components/DominancePeriodsChart.tsx:19-21 | with distinct ids and a positive total, a snapshot's shares sum to 1 |
| DominancePeriods.RawAtMostTotal | src/components/DominancePeriodsChart.tsx:101-103 | with non-negative raw values, each is at most the total |
| DominancePeriods.TotalNonNegative | src/components/DominancePeriodsChart.tsx:98-103 | non-negative raw values give a non-negative total |
| DominancePeriods.ShareInUnitRange | src/components/DominancePeriodsChart.tsx:110 | with non-negative raw values each share lies in [0, 1] |
| DominancePeriods.HistoryPointRounds | src/components/DominancePeriodsChart.tsx:95-121 | every point's round is some snapshot's round |
| DominancePeriods.LinesFollowRounds | src/components/DominancePeriodsChart.tsx:95-121 | a history ascending by round gives lines ascending by round |
| DominancePeriods.DominanceLinesAscending | src/components/DominancePeriodsChart.tsx:92-121 | every line of the chart ascends by round |
| DominancePeriods.FindRound | src/components/DominancePeriodsChart.tsx:142 | the first point of the round, or none exactly when there is none |
| DominancePeriods.LeaderIndex | src/components/DominancePeriodsChart.tsx:141-147 | the leader so far is a centre with a point in the round |
| DominancePeriods.LeaderIsFirstGreatest | src/components/DominancePeriodsChart.tsx:138-147 | the loop's leader is the first centre of greatest share above -1; with none, no share exceeds -1 |
| DominancePeriods.FirstGreatestBeats | src/components/DominancePeriodsChart.tsx:143 | centres before the leader have strictly smaller shares, centres after it no greater ones |
| DominancePeriods.FirstGreatestUnique | src/components/DominancePeriodsChart.tsx:138-147 | there is only one first greatest centre |
| DominancePeriods.RoundWithShareHasLeader | src/components/DominancePeriodsChart.tsx:143-151 | when the ids are non-empty, a round in which some centre's share exceeds -1 has a dominant centre |
| DominancePeriods.FindDominant | src/components/DominancePeriodsChart.tsx:137-151 | the loop finds the specified dominant centre of a round |
| DominancePeriods.DominantByRound | src/components/DominancePeriodsChart.tsx:128-155 | exactly the rounds with points and a dominant centre, each mapped to that centre |
| DominancePeriods.YearToX | src/components/DominancePeriodsChart.tsx:71-73 | year 0 maps to 80 and year 8000 to 920 |
| DominancePeriods.DominanceToY | src/components/DominancePeriodsChart.tsx:159-162 | share 0 sits at the plot's bottom (380) and 1 at its top (60) |
| DominancePeriods.DominanceToYDecreasing | src/components/DominancePeriodsChart.tsx:159-162 | a larger share is drawn higher |
| DominancePeriods.GenerateSegmentPath | src/components/DominancePeriodsChart.tsx:193-220 | null exactly without the round's point or, after round 1, the previous round's; else from year 0 level (round 1) or the previous point to the point |
| FutureProjection.RealPointAt | src/components/FutureProjectionChart.tsx:114-121 | a real point of the entry's round, acc and power, with value acc·power |
| FutureProjection.EntryPoints | src/components/FutureProjectionChart.tsx:112-123 | a snapshot adds real points of its own round, at most one per entry |
| FutureProjection.HistoryPoints | src/components/FutureProjectionChart.tsx:111-124 | the history adds real points only |
| FutureProjection.OneEntryOnePoint | src/components/FutureProjectionChart.tsx:112-123 | a snapshot naming a centre once adds exactly that entry's point |
| FutureProjection.NoEntryNoPoint | src/components/FutureProjectionChart.tsx:112-123 | a snapshot not naming a centre adds nothing to its line |
| FutureProjection.PushSnapshot | src/components/FutureProjectionChart.tsx:112-123 | each line gains the real points of its entries |
| FutureProjection.FindRound | src/components/FutureProjectionChart.tsx:132-133 | the first point of the round in the line, or none exactly when there is none |
| FutureProjection.Max | src/components/FutureProjectionChart.tsx:151-152 | `Math.max`: the larger of the two |
| FutureProjection.Projected | src/components/FutureProjectionChart.tsx:145-152 | each projected round adds the change to the previous value and raises it to at least 0.1 |
| FutureProjection.PredictedPoint | src/components/FutureProjectionChart.tsx:145-164 | the point of round 9+i is predicted, with acc and power at least 0.1 and value acc·power |
| FutureProjection.PredictedPoints | src/components/FutureProjectionChart.tsx:145-165 | four points, for rounds 9..12 in order |
| FutureProjection.PredictRounds | src/components/FutureProjectionChart.tsx:145-164 | the loop over rounds 9..12 yields the four specified predicted points |
| FutureProjection.PredictedFollowsTrend | src/components/FutureProjectionChart.tsx:137-164 | each predicted acc and power is the previous one (round 8's first) plus the round 7→8 change, at least 0.1 |
| FutureProjection.ProjectionNeedsRounds7And8 | src/components/FutureProjectionChart.tsx:132-166 | a pass adds four predicted points, rounds 9..12, exactly when the line has rounds 7 and 8, and keeps the existing points |
| FutureProjection.ProjectCenter | src/components/FutureProjectionChart.tsx:129-166 | the projection loop for one area gives the specified line |
| FutureProjection.ProjectAll | src/components/FutureProjectionChart.tsx:128-167 | the passes for all areas keep the set of centres |
| FutureProjection.ProjectAllOthers | src/components/FutureProjectionChart.tsx:128-167 | passes for other areas leave a line alone |
| FutureProjection.ProjectAllOnce | src/components/FutureProjectionChart.tsx:128-167 | a centre listed once is projected exactly once |
| FutureProjection.RealLines | src/components/FutureProjectionChart.tsx:108-124 | a real line for exactly the given centres |
| FutureProjection.EmptyLines | src/components/FutureProjectionChart.tsx:103-105 | an empty line per distinct area id, in first-occurrence order |
| FutureProjection.PushHistory | src/components/FutureProjectionChart.tsx:111-124 | each line holds the real points of the sorted history |
| FutureProjection.ProjectAreas | src/components/FutureProjectionChart.tsx:128-167 | the loop over the areas performs the specified passes |
| FutureProjection.SortLines | src/components/FutureProjectionChart.tsx:170-172 | every line is stably sorted by round |
| FutureProjection.SortAll | src/components/FutureProjectionChart.tsx:170-172 | sorting the first n centres' lines keeps the set of lines |
| FutureProjection.SortAllOthers | src/components/FutureProjectionChart.tsx:170-172 | sorting other centres' lines leaves a line alone |
| FutureProjection.SortAllOnce | src/components/FutureProjectionChart.tsx:170-172 | a centre listed once has its line sorted exactly once |
| FutureProjection.SortAllSortsEach | src/components/FutureProjectionChart.tsx:170-172 | with distinct centres, every line ends up stably sorted by round |
| FutureProjection.CenterData | src/components/FutureProjectionChart.tsx:92-175 | one line per distinct area id: the real points of the sorted history, projected per area, then sorted by round |
| FutureProjection.SortedLines | src/components/FutureProjectionChart.tsx:170-172 | a sorted line ascends by round and holds the same points |
| FutureProjection.BoundsAreMinAndMax | src/components/FutureProjectionChart.tsx:179-187 | the running bounds are none exactly for no values, else the least and greatest value |
| FutureProjection.ValuesOf | src/components/FutureProjectionChart.tsx:183-186 | the values of a line, in order |
| FutureProjection.ExtendByLine | src/components/FutureProjectionChart.tsx:183-186 | the inner loop extends the bounds by one line's values |
| FutureProjection.YDomain | src/components/FutureProjectionChart.tsx:178-195 | the padded domain of all values of all lines |
| FutureProjection.DomainEnclosesValues | src/components/FutureProjectionChart.tsx:189-194 | the domain starts at 0 or above and ends above every value; with non-negative values it also starts below every value and has positive range |
| FutureProjection.ValueToY | src/components/FutureProjectionChart.tsx:198-203 | a flat domain draws every value at the middle (220) |
| FutureProjection.ValueInsidePlot | src/components/FutureProjectionChart.tsx:198-203 | the domain's ends map to 380 and 60, values inside it inside the plot, larger values higher |
| FutureProjection.XTicks | src/components/FutureProjectionChart.tsx:217-223 | thirteen ticks, every 1000 years from 0 to 12000 |
| FutureProjection.IsPredictedRound | src/components/FutureProjectionChart.tsx:378 | a round label is predicted exactly from round 9 on |
| FutureProjection.YearToX | src/components/FutureProjectionChart.tsx:78-80 | year 0 maps to 80 and year 12000 to 920 |
| FutureProjection.Filter | src/components/FutureProjectionChart.tsx:234-235 | exactly the points with the given predicted flag |
| FutureProjection.FilterAppend | src/components/FutureProjectionChart.tsx:234-235 | filtering a concatenation filters each part in place, so the kept points keep their order and repeats |
| FutureProjection.FilterKeepsRoundOrder | src/components/FutureProjectionChart.tsx:234-235 | a line in round order stays in round order after filtering |
| FutureProjection.RealPath | src/components/FutureProjectionChart.tsx:237-241 | a move to the first real point, then a line to each next one |
| FutureProjection.PredictedPath | src/components/FutureProjectionChart.tsx:243-254 | one command per predicted point, plus a leading move when real points exist |
| FutureProjection.GeneratePath | src/components/FutureProjectionChart.tsx:229-260 | one solid command per real point; no points give two empty paths |
| FutureProjection.DashedContinuesSolid | src/components/FutureProjectionChart.tsx:243-254 | the dashed path starts where the solid one ends and then visits each predicted point |
| RoundIcons.GetIconState | src/components/RoundIconsRow.tsx:25-45 | completed when listed or earlier than the current round; active when the current round and not listed; locked when later and not listed |
| RoundIcons.Icons | src/components/RoundIconsRow.tsx:49-51 | eight icons, round i+1 with the i-th image and its state |
| RoundIcons.AtMostOneActive | src/components/RoundIconsRow.tsx:25-45 | at most one icon is active, the current round's |
| RoundIcons.ActiveIconOfCurrentRound | src/components/RoundIconsRow.tsx:28-36 | a listed current round has no active icon; otherwise a current round 1..8 is active |
| RoundIcons.IconStatesAroundCurrent | src/components/RoundIconsRow.tsx:38-44 | earlier rounds are completed; later ones are locked exactly when not listed |
| UnifiedTextBlock.NonBlank | src/components/UnifiedTextBlock.tsx:39 | exactly the pieces whose trim is not empty |
| UnifiedTextBlock.NonBlankSingle | src/components/UnifiedTextBlock.tsx:39 | a single piece is kept exactly when it is not blank |
| UnifiedTextBlock.NonBlankAppend | src/components/UnifiedTextBlock.tsx:39 | filtering a concatenation filters each part in place, so the paragraphs keep the pieces' original order and repeats |
| UnifiedTextBlock.ParagraphsClean | src/components/UnifiedTextBlock.tsx:39 | no paragraph is blank or holds a blank line |
| UnifiedTextBlock.BlankTextHasNoParagraphs | src/components/UnifiedTextBlock.tsx:39 | a blank text has no paragraphs |
| UnifiedTextBlock.ParagraphsRejoin | src/components/UnifiedTextBlock.tsx:39 | when no piece is blank, the paragraphs joined by a blank line give the text back |
| UnifiedTextBlock.PlainParagraphClass | src/components/UnifiedTextBlock.tsx:60-64 | a plain paragraph has only the paragraph class |
| UnifiedTextBlock.EmphasizedParagraphClass | src/components/UnifiedTextBlock.tsx:60-64 | an emphasised paragraph adds the emphasis class after one space |
| UnifiedTextBlock.NumberedParagraphClass | src/components/UnifiedTextBlock.tsx:60-64 | a numbered paragraph adds the numbered class after two spaces |
| UnifiedTextBlock.EmphasizedNumberedParagraphClass | src/components/UnifiedTextBlock.tsx:60-64 | both classes, each after one space |
| UnifiedTextBlock.ContainerClassShape | src/components/UnifiedTextBlock.tsx:42 | a blank class name gives "json-text-block"; a trimmed one is appended after one space |
| UnifiedTextBlock.Render | src/components/UnifiedTextBlock.tsx:41-72 | one paragraph element per paragraph, in order, with its text and class |
| UnifiedTextBlock.EmphasisOnlyFirst | src/components/UnifiedTextBlock.tsx:45-52 | paragraphs after the first, or without the option, are never emphasised |
| UnifiedTextBlock.NumberedOnlyWhenEnabled | src/components/UnifiedTextBlock.tsx:54-55 | with numbering off no paragraph is numbered |
| RoundNarrative.NextScreen | src/components/RoundNarrative.tsx:126-178 | intro leads to zone 1, zone k<5 to zone k+1, zone 5 to the choice screen |
| RoundNarrative.ClicksFromIntro | src/components/RoundNarrative.tsx:126-178 | from the intro, presses 1..5 show zones 1..5 and the sixth reaches the choice screen |
| RoundNarrative.HighlightFor | src/components/RoundNarrative.tsx:88-96 | a zone screen highlights its area, the choice screen clears it, other screens keep it |
| RoundNarrative.MapImageRound | src/components/RoundNarrative.tsx:246 | rounds 1..8 use their own map image, any other round round 1's |
| RoundNarrative.Narrative.constructor | src/components/RoundNarrative.tsx:55-57 | the component starts on the intro, with no highlight and no choice |
| RoundNarrative.Narrative.SetRound | src/components/RoundNarrative.tsx:61-65 | a new round resets to the intro, clearing the choice and the highlight; the same round changes nothing |
| RoundNarrative.Narrative.ClickButton | src/components/RoundNarrative.tsx:71-260 | the error screen's and the post-choice screen's button complete the round; intro and zone buttons advance and set the highlight |
| RoundNarrative.Narrative.SelectZone | src/components/RoundNarrative.tsx:191-201 | the first choice of a round is passed on and moves past the choice screen; later ones are ignored |
| RoundNarrative.Narrative.Hover | src/components/RoundNarrative.tsx:215 | hovering on the choice screen sets the highlight |
| RoundNarrative.Narrative.ChoiceScreenHasNoChoice | src/components/RoundNarrative.tsx:194-196 | on the choice screen no choice has been made, so the guard never rejects a first choice |
| RoundNarrative.PlayRound | src/components/RoundNarrative.tsx:126-260 | example scenario, not a source operation: on the path of six presses, two choices and a press, the round passes on exactly the first choice and completes once |
| JsString.TrimStart | src/components/UnifiedTextBlock.tsx:39 | the leading whitespace is removed, and only that |
| JsString.TrimEnd | src/components/UnifiedTextBlock.tsx:39 | the trailing whitespace is removed, and only that |
| JsString.BlankIffAllWhitespace | src/components/UnifiedTextBlock.tsx:39 | `trim() === ''` exactly when every character is whitespace |
| JsString.IndexOf | src/components/UnifiedTextBlock.tsx:39 | the leftmost occurrence of the separator from a position |
| JsString.JoinSplit | src/components/UnifiedTextBlock.tsx:39 | joining the pieces of a split with the separator gives the string back |
| JsString.SplitPiecesFree | src/components/UnifiedTextBlock.tsx:39 | no piece of a split contains the separator |
| Sorting.SortedIndices | src/utils/mapRenderer.ts:189 | a permutation of the indices ordered by (key, index) |
| Sorting.StableSort | src/utils/mapRenderer.ts:189 | the same number of elements, ascending by key |
| Sorting.StableSortPermutes | src/utils/mapRenderer.ts:189 | the sort is a permutation of its input |
| Sorting.StableSortKeepsTies | src/utils/mapRenderer.ts:189 | equal keys keep their input order |

## Left out

- Canvas, `Image` and `ImageData`: decoding the mask image, `clearRect`, `createImageData` and `putImageData` are browser APIs. The mask is given as rows of red bytes and the image is a map from pixel to colour.
- `src/utils/seededRandom.ts` is not part of this model. `next()` is an arbitrary fixed function of the seed and of the number of draws since seeding. `nextInt(lo, hi)` is assumed to be `lo + floor(next() * (hi - lo))`.
- `Math.pow` in the growth radius is a function parameter. The step lengths (1 and the square root of 2) enter as given reals.
- Floating-point rounding: all arithmetic on acc, power, shares and coordinates is exact real arithmetic. The exact equality used to detect power ties is exact real equality.
- The steps-config fetch is modelled by its two outcomes: the loaded steps, or an empty list after a failed fetch.
- The React plumbing around the hooks and components is not modelled. This covers effect scheduling, refs, `useMemo` and re-rendering. Each handler and each effect is one atomic method.
- `RoundNarrative` calls hooks after its early error return, which React's rules forbid. The model treats the error screen as a state of the component.
- SVG markup and number formatting are not modelled. Paths are lists of move and line commands, not strings.
- `yTicks` of the projection chart, the timeline's tick list and the fixed dominance `yTicks` are drawing constants.
- With no points at all, the projection chart's domain runs from +Infinity to -Infinity. The model returns None instead.
- Strings are sequences of characters (Unicode scalar values), not of UTF-16 code units. For text outside the Basic Multilingual Plane, indexing, `length` and `split` positions differ from JavaScript's.
- NaN is not modelled. Values are never NaN, so JavaScript's truthiness reduces to "non-zero" for numbers and "non-empty" for strings.
- Integer-like object keys, which JavaScript would order numerically, do not occur: the ids are "A1".."A5" and the round map keys are numbers of a `Map`.
- Clone seeding and a landmass index are not in the code. `clonePowerThreshold` is declared but never read.
- MapRenderer.MapRenderer.GenerateAreaOverlay: states that every grown pixel is justified by the growth rules, not which pixels are grown. The latter depends on the random perturbation draws.
- MapRenderer.MapRenderer.GrowOverlays: states that each overlay is a region grown by the growth rules, not its exact contents, for the same reason.
- MapRenderer.MapRenderer.RenderAreas: states the painted image and hit-test map in terms of the overlays it grew, which are returned as a ghost value and are constrained as in GrowOverlays. With no tied pixel it states the generator's seed, not its draw count, which the growth draws change.
- GameState.PopulationIsAccTimesPower: covers rounds other than 7 and 8 only; rounds 7 and 8 use the configured multiplier, stated in GameState.SnapshotEntries.
- GameState.GenerateRandomDelta: states the ranges only for a non-negative seed. A negative step number makes JavaScript's `%` negative and the ranges do not hold.
- DominancePeriods.SharesSumToOne: assumes distinct ids in a snapshot. With a repeated id every entry uses the last entry's raw value, so the shares need not sum to 1.
- FutureProjection.ProjectAllOnce: covers a centre listed once among the areas. A centre listed twice is projected twice, as in the source: `ProjectAll` models that, and its line gains eight predicted points.
- UnifiedTextBlock.ParagraphsRejoin: holds only when no piece between blank lines is itself blank, because the filter drops blank pieces.
