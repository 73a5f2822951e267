# Predictive-maintenance dashboard: verified decision core

This project models the data logic of a React dashboard for predictive maintenance on a plant of five machines (`Machine_1` .. `Machine_5`). Each machine has three pieces of equipment (`Machine_i_Equipment_j`). The dashboard polls two feeds:

- a batch feed of sensor rows (machine, equipment, operational status, fault prediction, vibration, temperature, noise frequency, timestamp);
- a stream feed of events (good count, cycle time, performance, OEE, label).

The model covers what each component computes from those feeds:

- **EquipmentConditionDetail**: classifies each of the fifteen pieces of equipment by its share of fault predictions (more than 50% is critical, more than 30% is a warning) and derives a replacement due date 30 or 60 days ahead. It also computes the CSS class of a status and filters the table by status.
- **Dashboard**: groups rows by machine. A machine requires attention once more than a sixth of its predictions are faults. The result is projected onto the five machines, with "Unknown" for a machine without rows. Per-machine means of the three readings are computed for the machines present.
- **FactoryLayout**: groups predictions per equipment key (the first space replaced by `_`) and registers fifteen status lights. It colours each light by its tier, tallies the tiers for the legend, and decides which lights blink.
- **RealTime**: merges a stream batch into the latest event per machine (strictly later timestamps win; ties keep the first), highlights the machines of the batch, and computes the OEE, cycle-time and performance means.
- **RealTimeUpdate**: overlays a fixed table of fifteen cards with the first event of each card's id, handles success and failure responses, and filters the grid by machine.
- **OperatingEnvironment**: keeps an append-only history of rows and shows one chart per machine. Each chart is narrowed by a start/end filter and a relative display window (last 60 minutes, 24 hours, 7 days, 4 weeks or 12 months). The per-machine filter and option maps are updated one key at a time.
- **StaticMatrix**: reduces the per-machine averages to one chart point: the mean across machines plus a random fluctuation. The point is appended unless all three values are zero. The history is shown narrowed by a start/end filter and a display window; this component has no weekly window.

## How the source is modelled

- **Files and modules.** Each component file is one module. `Collections`, `Plant`, `Tiering` and `TimeWindows` hold what several components share: filters and sums, the plant's names and records, the three-tier thresholds, and the time windows and bounds.
- **Loops become methods.** Where the source fills a dictionary or updates counters in a loop, the model is a `method` with that loop. Its invariant ties the partial result to a recursive function of the rows seen so far (`Grouping`, `Accumulated`, `Grouped`, `LightsUpTo`, `ColoursUpTo`, `MergeLatest`, `Sum`). Lemmas then relate that function to an independent description: membership, first occurrence, latest event or mean.
- **Pure code becomes functions.** Pure `map`/`filter`/`find` code and React state updates become functions on immutable state.
- **Percentages.** The comparisons `(w / n) * 100 > 50` become `100 * w > 50 * n`. `Tiering.TierMatchesPercentage` proves this agrees with the real-valued percentage whenever `n > 0`. For `n = 0` the source computes NaN, and both comparisons are false there too.
- **Means.** Means are taken over exact `real`s.
- **Time.** Timestamps are integer milliseconds. The current time (`new Date()`), seven calendar days, four calendar weeks and twelve calendar months back (`subDays`, `subWeeks`, `subMonths`) and today's day number are parameters (`TimeWindows.Clock`, `today`). Sixty minutes and twenty-four hours back are exact millisecond offsets, as `subMinutes` and `subHours` are.

## Model

| member | source | states |
|---|---|---|
| EquipmentConditionDetail.ProcessEquipmentConditions | src/components/EquipmentConditionDetail/EquipmentConditionDetail.js:30-53 | the nested loops build exactly the fifteen entries of `Classified`: equipment names in loop order, each with its tier status and recommendation |
| EquipmentConditionDetail.ClassifiedKeys | src/components/EquipmentConditionDetail/EquipmentConditionDetail.js:31-52 | the result has exactly fifteen keys, pairwise distinct and in loop order, and a text is a key iff it is `Machine_i_Equipment_j` for some i in 1..5, j in 1..3 |
| EquipmentConditionDetail.ClassifiedAt | src/components/EquipmentConditionDetail/EquipmentConditionDetail.js:46-49 | the entry at equipment (i, j)'s place carries that equipment's name and classification |
| EquipmentConditionDetail.WarningCountExact | src/components/EquipmentConditionDetail/EquipmentConditionDetail.js:34-36 | a row is counted as a warning iff it is in the data with matching machine and equipment and prediction 1; the number of warning rows is at most the group size, which is at most the row count |
| EquipmentConditionDetail.GetReplacementRecommendation | src/components/EquipmentConditionDetail/EquipmentConditionDetail.js:55-65 | a replacement date is given iff the status is Critical or Warn off; it lies 30 to 60 days ahead, and it is the 30-day date iff the status is Critical |
| EquipmentConditionDetail.ConditionBands | src/components/EquipmentConditionDetail/EquipmentConditionDetail.js:37-65 | an empty group is Normal; for a non-empty group the percentage lies in [0, 100] and the status is Critical iff pct > 50, Warn off iff 30 < pct <= 50, Normal iff pct <= 30; the recommendation is due today+30 iff Critical, today+60 iff Warn off, and absent iff Normal |
| EquipmentConditionDetail.SixOfTenIsCritical | src/components/EquipmentConditionDetail/EquipmentConditionDetail.js:37-44 | six fault predictions among ten rows of one piece of equipment give Critical, due in 30 days |
| EquipmentConditionDetail.SixOfTenRows | src/components/EquipmentConditionDetail/EquipmentConditionDetail.js:34-35 | in that example all ten rows belong to equipment (1, 1) and six of them are warnings |
| EquipmentConditionDetail.GetStatusClass | src/components/EquipmentConditionDetail/EquipmentConditionDetail.js:67-76 | the class is one of the three status classes or empty, and it is non-empty iff the status is one of the three statuses |
| EquipmentConditionDetail.StatusClassDistinct | src/components/EquipmentConditionDetail/EquipmentConditionDetail.js:67-76 | the class is non-empty iff the status is one of the three statuses, and the three statuses get three different classes |
| EquipmentConditionDetail.FilteredConditions | src/components/EquipmentConditionDetail/EquipmentConditionDetail.js:82-86 | at most the table's entries are listed, each of them from the table, and for a non-empty filter each has the filter as its status |
| EquipmentConditionDetail.FilteredConditionsExact | src/components/EquipmentConditionDetail/EquipmentConditionDetail.js:82-86 | the empty filter lists every entry; a non-empty filter lists, as an order-preserving subsequence, exactly the entries whose status equals it, with their multiplicities |
| EquipmentConditionDetail.OnBatchResponse | src/components/EquipmentConditionDetail/EquipmentConditionDetail.js:14-19 | a body with a `data` array replaces the rows and their classification and keeps the filter; anything else leaves the state unchanged |
| Tiering.TierOf | src/components/FactoryLayout/FactoryLayout.js:187-202 | Critical iff `100 f > 50 n`, Normal iff `100 f <= 30 n` (so Warning iff in between), and no faults is Normal |
| Tiering.TierMatchesPercentage | src/components/EquipmentConditionDetail/EquipmentConditionDetail.js:37-44 | for a non-empty group the cross-multiplied tier agrees with the real percentage: Critical iff > 50, Warning iff in (30, 50], Normal iff <= 30, and the percentage lies in [0, 100] |
| Tiering.CrossMultiply | src/components/FactoryLayout/FactoryLayout.js:187-194 | `(f / n) * 100 > b` holds iff `100 f > b n`, for n > 0 |
| Tiering.PercentageRange | src/components/FactoryLayout/FactoryLayout.js:187 | a share of at most all rows gives a percentage in [0, 100] |
| Tiering.EmptyGroupIsNormal | src/components/EquipmentConditionDetail/EquipmentConditionDetail.js:37-44 | a group with no rows (NaN percentage) compares false with both thresholds and is Normal |
| Tiering.BlinkIsWarningOrCritical | src/components/FactoryLayout/FactoryLayout.js:222 | `pct > 50 \|\| pct > 30` is equivalent to `pct > 30`, which holds iff the tier is not Normal |
| Plant.MachineName | src/components/EquipmentConditionDetail/EquipmentConditionDetail.js:34 | `Machine_${i}` has nine characters and ends in the digit i |
| Plant.EquipmentName | src/components/EquipmentConditionDetail/EquipmentConditionDetail.js:34 | `Machine_${i}_Equipment_${j}` begins with the machine's name and carries the digits i and j |
| Plant.MachineNameInjective | src/components/Dashboard/Dashboard.js:79 | two machine names are equal iff their indices are |
| Plant.EquipmentNameInjective | src/components/FactoryLayout/FactoryLayout.js:106 | two equipment names are equal iff both indices are |
| Plant.Position | src/components/FactoryLayout/FactoryLayout.js:104-105 | the place of (i, j) in the loop order is in 0..14 and maps back to i and j |
| Plant.EquipmentNamesExact | src/components/FactoryLayout/FactoryLayout.js:104-106 | the fifteen loop names are pairwise distinct, there are fifteen of them as a set, and a text is among them iff it is some `Machine_i_Equipment_j` |
| Plant.EquipmentNamesAt | src/components/FactoryLayout/FactoryLayout.js:104-106 | the name at equipment (i, j)'s place is its name |
| Plant.EquipmentNamesDistinct | src/components/FactoryLayout/FactoryLayout.js:104-106 | names at different places differ |
| Plant.MachineNames | src/components/Dashboard/Dashboard.js:79 | the selected-machines list has five entries |
| Plant.EquipmentNames | src/components/FactoryLayout/FactoryLayout.js:104-106 | the enumeration has fifteen entries |
| Plant.DistinctCard | src/components/FactoryLayout/FactoryLayout.js:104-106 | a list without repetitions has as many distinct elements as entries |
| Plant.PredictionsSnoc | src/components/FactoryLayout/FactoryLayout.js:23 | one more row appends its prediction |
| Dashboard.GroupByMachine | src/components/Dashboard/Dashboard.js:56-69 | the first pass records exactly the machines that have rows, each with its first row's status, its predictions in feed order and condition Normal |
| Dashboard.GroupingCollects | src/components/Dashboard/Dashboard.js:58-69 | the recursive description of that pass has exactly those keys and records |
| Dashboard.ProcessEquipmentConditions | src/components/Dashboard/Dashboard.js:55-81 | the result has five entries, entry k being the condition of `Machine_{k+1}` as `MachineConditionOf` describes it |
| Dashboard.OneSixth | src/components/Dashboard/Dashboard.js:73 | `oneCount > length / 6` over reals holds iff `6 * oneCount > length` |
| Dashboard.MachineConditionExact | src/components/Dashboard/Dashboard.js:58-80 | an entry is Unknown (status and condition 'Unknown') iff no row has that machine; otherwise its status is that of the machine's first row, it holds one prediction per row of the machine in feed order, and its condition is 'Attention Required' iff 6 * oneCount > length, else 'Normal' |
| Dashboard.OneSixthBoundary | src/components/Dashboard/Dashboard.js:71-76 | of six predictions, one fault stays Normal and two require attention |
| Dashboard.MachineRowsSnoc | src/components/Dashboard/Dashboard.js:58-59 | one more row joins the rows of its own machine only |
| Dashboard.MachinesSnoc | src/components/Dashboard/Dashboard.js:86-90 | one more row adds its machine to the machine set |
| Dashboard.TotalsAbsent | src/components/Dashboard/Dashboard.js:88-89 | a machine without rows has zero totals |
| Dashboard.TotalsSnocSame | src/components/Dashboard/Dashboard.js:91-94 | one more row adds one to the count of its machine and its readings to that machine's sums |
| Dashboard.TotalsSnocOther | src/components/Dashboard/Dashboard.js:91-94 | one more row leaves every other machine's totals unchanged |
| Dashboard.AccumulatedTotals | src/components/Dashboard/Dashboard.js:86-95 | the accumulated `machineData` has exactly the machines that occur, each with its row count and the sums of its three readings |
| Dashboard.AccumulateTotals | src/components/Dashboard/Dashboard.js:84-95 | the `forEach` pass yields those keys and totals |
| Dashboard.TotalsGiveMeans | src/components/Dashboard/Dashboard.js:98-104 | for a machine that occurs, the count is at least 1 and sum / count is the mean of its readings |
| Dashboard.CalculateAverages | src/components/Dashboard/Dashboard.js:83-107 | the keys are exactly the machines that occur, not zero-filled, and each value holds the means of that machine's vibration, temperature and noise frequency |
| Dashboard.MeanWithinReadings | src/components/Dashboard/Dashboard.js:100 | a mean lies between the smallest and largest reading it averages |
| Dashboard.VibrationExample | src/components/Dashboard/Dashboard.js:91-101 | vibrations 1 and 3 of one machine average to 2 |
| Dashboard.OnBatchResponse | src/components/Dashboard/Dashboard.js:20-27 | a body with a `data` array sets rows, the five conditions and the averages together; anything else changes nothing |
| FactoryLayout.FirstSpace | src/components/FactoryLayout/FactoryLayout.js:21 | the index found is the first space, or the length when there is none |
| FactoryLayout.ReplaceFirstSpace | src/components/FactoryLayout/FactoryLayout.js:21 | the key has the equipment text's length, `_` at the first space and every other character unchanged |
| FactoryLayout.NoSpaceUnchanged | src/components/FactoryLayout/FactoryLayout.js:21 | a text without a space is its own key |
| FactoryLayout.GroupKey | src/components/FactoryLayout/FactoryLayout.js:21 | the key has the equipment text's length and differs from it only where a space became `_` |
| FactoryLayout.KeyRowsSnoc | src/components/FactoryLayout/FactoryLayout.js:21-23 | one more row joins only the rows of its key |
| FactoryLayout.KeysOfSnoc | src/components/FactoryLayout/FactoryLayout.js:22 | one more row adds its key to the key set |
| FactoryLayout.GroupPredictions | src/components/FactoryLayout/FactoryLayout.js:20-25 | the `reduce` yields exactly the rows' keys, under each key the predictions of that key's rows in feed order, and as many predictions in total as rows |
| FactoryLayout.GroupedKeys | src/components/FactoryLayout/FactoryLayout.js:20-25 | the grouping's keys are the rows' keys |
| FactoryLayout.GroupedLists | src/components/FactoryLayout/FactoryLayout.js:22-23 | each list is the predictions of its key's rows, in feed order |
| FactoryLayout.GroupedTotal | src/components/FactoryLayout/FactoryLayout.js:20-25 | the lists together hold one prediction per row |
| FactoryLayout.TotalLengthRemove | src/components/FactoryLayout/FactoryLayout.js:20-25 | the total length of a grouping does not depend on which key is counted first |
| FactoryLayout.TotalLengthUpdate | src/components/FactoryLayout/FactoryLayout.js:22-23 | replacing one key's list changes the total by the difference in length |
| FactoryLayout.RegisterStatusLights | src/components/FactoryLayout/FactoryLayout.js:104-124 | exactly the fifteen lights `Machine_i_Equipment_j` are registered, each grey, at its table position when the model has that object and at the default position otherwise |
| FactoryLayout.LightsUpToSpec | src/components/FactoryLayout/FactoryLayout.js:104-124 | after the first n lights of the loops the registry holds exactly their names, each grey at its placement |
| FactoryLayout.LightsUpToKeys | src/components/FactoryLayout/FactoryLayout.js:117-121 | the registry's names after n lights are the first n names |
| FactoryLayout.LightsUpToValues | src/components/FactoryLayout/FactoryLayout.js:107-121 | each of the first n names maps to a grey light at its placement |
| FactoryLayout.LightsUpToNext | src/components/FactoryLayout/FactoryLayout.js:113-122 | registering light (i, j) extends the registry by that one light, placed from the table iff its object is found |
| FactoryLayout.RegisteredSnoc | src/components/FactoryLayout/FactoryLayout.js:117 | the n+1 registered names are the first n plus the next one |
| FactoryLayout.RegisteredAll | src/components/FactoryLayout/FactoryLayout.js:104-106 | the fifteen registered names are the equipment names, fifteen distinct names |
| FactoryLayout.LightTier | src/components/FactoryLayout/FactoryLayout.js:184-206 | a light has a tier iff its name has a non-empty status list |
| FactoryLayout.UpdateStatusLights | src/components/FactoryLayout/FactoryLayout.js:172-211 | every visited light, and no other, gets the colour of its tier (red, orange, green; grey without data), and the counters equal the per-tier counts over the visited lights |
| FactoryLayout.CountsSnoc | src/components/FactoryLayout/FactoryLayout.js:190-202 | one more light adds one to the counter of its tier and nothing for a light without data |
| FactoryLayout.ColoursUpToSpec | src/components/FactoryLayout/FactoryLayout.js:177-208 | the colour map's keys are the visited names and each colour is that of the name's tier |
| FactoryLayout.VisitSnoc | src/components/FactoryLayout/FactoryLayout.js:177-206 | visiting one more light sets its colour and tallies its tier |
| FactoryLayout.CountsPartition | src/components/FactoryLayout/FactoryLayout.js:184-206 | normal + warning + critical equals the number of lights with non-empty data, and is at most the number of lights |
| FactoryLayout.CountsAtMostFifteen | src/components/FactoryLayout/FactoryLayout.js:172-211 | over the fifteen registered lights the tallies add up to at most 15 |
| FactoryLayout.Blinks | src/components/FactoryLayout/FactoryLayout.js:217-224 | a light blinks only when its name has a non-empty status list |
| FactoryLayout.BlinksExactly | src/components/FactoryLayout/FactoryLayout.js:217-224 | a light blinks iff its tier is warning or critical, that is iff it is orange or red |
| FactoryLayout.Startup | src/components/FactoryLayout/FactoryLayout.js:34-41 | a cached map is displayed and no initial fetch is made; without one the display starts empty and an initial fetch is made (the 5-second polling starts either way) |
| FactoryLayout.OnFetch | src/components/FactoryLayout/FactoryLayout.js:19-29 | a body with a `data` array displays the grouping of its rows and caches the same map; anything else changes nothing |
| RealTime.IndexOf | src/components/RealTime/RealTime.js:39 | the lookup `newData[machine]` finds the first entry of that machine, or none |
| RealTime.Step | src/components/RealTime/RealTime.js:39-41 | one item adds at most one entry, and every entry afterwards is an earlier entry or the item |
| RealTime.MergeLatest | src/components/RealTime/RealTime.js:37-43 | the merge is empty iff the batch is: it starts empty and every item leaves an entry for its machine |
| RealTime.UpdateRealTimeData | src/components/RealTime/RealTime.js:33-46 | the loop builds `newData` as `MergeLatest` of the batch alone and highlights exactly the batch's machines |
| RealTime.LoopTurn | src/components/RealTime/RealTime.js:37-43 | each of the loop's three branches takes `newData` and the highlights from those of n items to those of n + 1 items |
| RealTime.MergeLatestSpec | src/components/RealTime/RealTime.js:37-43 | the merge has one entry per machine, its keys are exactly the batch's machines, and each entry is its machine's event with the greatest timestamp, the first in feed order on ties |
| RealTime.StepKeys | src/components/RealTime/RealTime.js:39-41 | a new machine is appended to the keys and a known one keeps its place |
| RealTime.KeysAppended | src/components/RealTime/RealTime.js:40 | storing a new machine appends its key |
| RealTime.KeysReplaced | src/components/RealTime/RealTime.js:40 | replacing a machine's event keeps the key order |
| RealTime.StepDistinct | src/components/RealTime/RealTime.js:39-40 | one step keeps the machines of the entries distinct |
| RealTime.StepKeySet | src/components/RealTime/RealTime.js:37-43 | after one step the keys are exactly the machines seen |
| RealTime.StepLatest | src/components/RealTime/RealTime.js:39-40 | after one step every entry is still the latest event of its machine |
| RealTime.AppendedAreLatest | src/components/RealTime/RealTime.js:39-40 | the first event of a machine becomes its latest and the other entries stay latest |
| RealTime.ReplacedAreLatest | src/components/RealTime/RealTime.js:39-40 | a strictly later event replaces its machine's entry and becomes its latest |
| RealTime.KeptAreLatest | src/components/RealTime/RealTime.js:39-40 | an event no later than the stored one leaves every entry latest |
| RealTime.LatestExtendOther | src/components/RealTime/RealTime.js:39 | an event of another machine does not change which event is latest |
| RealTime.LatestExtendOlder | src/components/RealTime/RealTime.js:39 | an event of the same machine that is not strictly later keeps the stored event latest (first wins on ties) |
| RealTime.LatestNew | src/components/RealTime/RealTime.js:39-40 | an event strictly later than every earlier event of its machine is its latest |
| RealTime.LatestBound | src/components/RealTime/RealTime.js:39 | an event strictly later than the latest is later than every event of that machine |
| RealTime.MachinesOfSnoc | src/components/RealTime/RealTime.js:41 | one more event adds its machine to the machine set |
| RealTime.EntryMachineSeen | src/components/RealTime/RealTime.js:39-41 | every stored entry belongs to a machine already highlighted |
| RealTime.MergeSnoc | src/components/RealTime/RealTime.js:37-43 | one more event is one more step of the merge |
| RealTime.HighlightsAreKeys | src/components/RealTime/RealTime.js:41-46 | the highlighted machines are exactly the keys of `newData` |
| RealTime.TwoEvents | src/components/RealTime/RealTime.js:39-40 | of two events of one machine the strictly later one wins, and on equal timestamps the first stays |
| RealTime.StreamAverages | src/components/RealTime/RealTime.js:49-60 | with k > 0 machines, OEE and performance are 100 times their means and cycle time its mean; with none the previous averages are kept |
| RealTime.AveragesArePercentages | src/components/RealTime/RealTime.js:55-59 | OEE and performance fractions in [0, 1] give averages in [0, 100] |
| RealTime.OnKafkaResponse | src/components/RealTime/RealTime.js:17-22 | one poll applies a success body to the state and ignores anything else |
| RealTime.ApplyIdempotent | src/components/RealTime/RealTime.js:34-46 | the table and highlights come from the batch alone, so applying the same response twice equals applying it once |
| RealTime.ClearHighlights | src/components/RealTime/RealTime.js:63-65 | the timer clears every highlight and keeps the table and averages |
| RealTimeUpdate.ToCardUpdate | src/components/RealTimeUpdate/RealTimeUpdate.js:44-55 | the update's id and equipment are the payload's equipment, and its machine is the payload's machine |
| RealTimeUpdate.ParseBatch | src/components/RealTimeUpdate/RealTimeUpdate.js:41-56 | one update per event, in feed order |
| RealTimeUpdate.InitialCards | src/components/RealTimeUpdate/RealTimeUpdate.js:16-32 | the blank table has fifteen cards |
| RealTimeUpdate.Overlay | src/components/RealTimeUpdate/RealTimeUpdate.js:66 | the overlaid card keeps its own status text and takes id, machine, equipment, status, operational status and timestamp from the update |
| RealTimeUpdate.FindUpdate | src/components/RealTimeUpdate/RealTimeUpdate.js:65 | none is found iff no update has the id; a found update is one of the batch's and has the id |
| RealTimeUpdate.MergeCards | src/components/RealTimeUpdate/RealTimeUpdate.js:64-67 | the merge has one card per card, and card k keeps card k's id and status text |
| RealTimeUpdate.MergeCardsSpec | src/components/RealTimeUpdate/RealTimeUpdate.js:64-67 | the merge keeps the card count and id order; a card without an update of its id is unchanged; otherwise it takes the fields of the first such update in feed order and keeps its status text |
| RealTimeUpdate.MergedInitialCard | src/components/RealTimeUpdate/RealTimeUpdate.js:16-67 | card k of the merged blank table has id `Machine_i_Equipment_j` and is the blank card, or the blank card overlaid with the first update of its id |
| RealTimeUpdate.FilterCards | src/components/RealTimeUpdate/RealTimeUpdate.js:94 | at most the grid's cards are shown, each of them from the grid, and for a zone other than 'all' each belongs to that machine |
| RealTimeUpdate.FilterCardsExact | src/components/RealTimeUpdate/RealTimeUpdate.js:94 | zone 'all' shows every card; another zone shows exactly that machine's cards, in grid order and with their multiplicities |
| RealTimeUpdate.Mount | src/components/RealTimeUpdate/RealTimeUpdate.js:6-14 | zone 'all', the saved cards or none, and the saved update time or the empty text |
| RealTimeUpdate.OnKafkaResponse | src/components/RealTimeUpdate/RealTimeUpdate.js:40-74 | a `success` body replaces the grid with the merged blank table and sets and stores the update time; anything else leaves state and storage unchanged |
| RealTimeUpdate.SuccessfulResponse | src/components/RealTimeUpdate/RealTimeUpdate.js:58-81 | after a success the grid has the fifteen cards in table order, a remount reads back the same grid and time, and no immediate refetch is made |
| Collections.Filter | src/components/RealTimeUpdate/RealTimeUpdate.js:94 | a filter never lengthens its input |
| Collections.FilterSpec | src/components/RealTimeUpdate/RealTimeUpdate.js:94 | `filter` keeps exactly the elements satisfying the predicate, each as often as in the input, as an order-preserving subsequence |
| Collections.FilterKeeps | src/components/RealTimeUpdate/RealTimeUpdate.js:94 | every element kept is an element of the input satisfying the predicate |
| Collections.FilterMembers | src/components/RealTimeUpdate/RealTimeUpdate.js:94 | an element is kept iff it is in the input and satisfies the predicate |
| Collections.FilterCounts | src/components/RealTimeUpdate/RealTimeUpdate.js:94 | an element satisfying the predicate is kept as often as it occurs, any other not at all |
| Collections.FilterSubsequence | src/components/RealTimeUpdate/RealTimeUpdate.js:94 | the kept elements are an order-preserving subsequence of the input |
| Collections.FilterFilter | src/components/OperatingEnvironment/OperatingEnvironment.js:36-44 | two filters in a row are one filter by the conjunction |
| Collections.FilterEmpty | src/components/FactoryLayout/FactoryLayout.js:186 | a filter keeps nothing iff no element satisfies the predicate |
| Collections.FilterHead | src/components/Dashboard/Dashboard.js:60-67 | the first element kept is the first element that satisfies the predicate |
| Collections.FilterAll | src/components/FactoryLayout/FactoryLayout.js:186 | a filter whose predicate holds everywhere returns its input |
| Collections.FilterSnoc | src/components/FactoryLayout/FactoryLayout.js:186 | filtering one more element at the end |
| Collections.FilterAppend | src/components/EquipmentConditionDetail/EquipmentConditionDetail.js:35 | filtering distributes over concatenation |
| Collections.SubsequenceRefl | src/components/OperatingEnvironment/OperatingEnvironment.js:29 | returning the data unchanged is an order-preserving subsequence |
| Collections.FindFirst | src/components/RealTimeUpdate/RealTimeUpdate.js:65 | `find` returns nothing iff no element matches, else the first matching element in order |
| Collections.SumSnoc | src/components/RealTime/RealTime.js:51-53 | a `reduce` sum grows by the next element |
| Collections.SumBounds | src/components/Dashboard/Dashboard.js:92-94 | a sum of n readings in [lo, hi] lies in [n lo, n hi] |
| Collections.MeanBounds | src/components/StaticMatrix/StaticMatrix.js:74-76 | a mean lies between the bounds of its samples |
| TimeWindows.WithinBoundsExact | src/components/OperatingEnvironment/OperatingEnvironment.js:38-41 | an empty bound imposes nothing, and two set bounds give the closed interval between them |
| TimeWindows.AtOrAfter | src/components/OperatingEnvironment/OperatingEnvironment.js:19 | the window test holds iff the entry's time is at or after the window start |
| TimeWindows.KeepFrom | src/components/OperatingEnvironment/OperatingEnvironment.js:16-31 | the window never lengthens the data, and every entry kept is from the data and, with a start, at or after it |
| TimeWindows.KeepFromExact | src/components/OperatingEnvironment/OperatingEnvironment.js:16-31 | without a window start the data is unchanged; with one, exactly the entries at or after it are kept, in order and with their multiplicities |
| OperatingEnvironment.WindowStart | src/components/OperatingEnvironment/OperatingEnvironment.js:17-30 | an option has a window start iff it is one of the five known options; on an ordered clock every start lies at least an hour before now |
| OperatingEnvironment.FormatData | src/components/OperatingEnvironment/OperatingEnvironment.js:16-31 | at most the given rows are kept, each of them from the input, and for a known option each at or after the window start |
| OperatingEnvironment.FormatDataExact | src/components/OperatingEnvironment/OperatingEnvironment.js:16-31 | the result is an order-preserving subsequence, unknown options return the data unchanged, a known option keeps exactly the entries at or after its start, and the starts are now minus 3600000 and 86400000 ms, and seven calendar days, four calendar weeks and twelve calendar months back |
| OperatingEnvironment.WindowsNested | src/components/OperatingEnvironment/OperatingEnvironment.js:18-27 | on a clock whose calendar steps back are ordered by length, each window shows at least what the next shorter one shows |
| OperatingEnvironment.OfMachineInRange | src/components/OperatingEnvironment/OperatingEnvironment.js:36-42 | the row test is the machine match and the truthy start/end bounds |
| OperatingEnvironment.FilterData | src/components/OperatingEnvironment/OperatingEnvironment.js:34-45 | at most the history's rows are charted, each from the history, of the machine and within the date filter |
| OperatingEnvironment.FilterDataExact | src/components/OperatingEnvironment/OperatingEnvironment.js:34-45 | a row is charted iff it is in the history, belongs to the machine, lies within the date filter and, for a known option, within the window; the chart is an order-preserving subsequence |
| OperatingEnvironment.FilterDataBounds | src/components/OperatingEnvironment/OperatingEnvironment.js:36-42 | with both dates empty the machine's rows are all kept; with both set it keeps the rows in the closed interval |
| OperatingEnvironment.HandleFilterChange | src/components/OperatingEnvironment/OperatingEnvironment.js:176-188 | only `filters[machine][type]` gets the value; the other field and every other machine are unchanged, and a machine without an entry gets one |
| OperatingEnvironment.FilterChangeRestores | src/components/OperatingEnvironment/OperatingEnvironment.js:176-188 | writing a field's own value back leaves the filters as they were |
| OperatingEnvironment.HandleDisplayOptionChange | src/components/OperatingEnvironment/OperatingEnvironment.js:190-199 | only the given machine's option changes |
| OperatingEnvironment.DefaultsCoverMachines | src/components/OperatingEnvironment/OperatingEnvironment.js:154-174 | the default filters and options hold exactly the five machines, each with empty dates and 'hourly' |
| OperatingEnvironment.Mount | src/components/OperatingEnvironment/OperatingEnvironment.js:149-174 | each of history, filters and options is the saved copy when present, else the empty history or the defaults |
| OperatingEnvironment.ChartFor | src/components/OperatingEnvironment/OperatingEnvironment.js:243-282 | a machine's chart exists iff the filters have an entry for it |
| OperatingEnvironment.DefaultChart | src/components/OperatingEnvironment/OperatingEnvironment.js:243-250 | with the defaults, machine i's chart shows exactly its rows of the last 24 hours |
| OperatingEnvironment.ProcessData | src/components/OperatingEnvironment/OperatingEnvironment.js:230-234 | the new history has the old one as prefix, the batch as suffix, and the sum of their lengths |
| OperatingEnvironment.OnFetch | src/components/OperatingEnvironment/OperatingEnvironment.js:201-214 | a `success` body whose `data` is an array appends it; anything else leaves the state unchanged; the settings never change |
| OperatingEnvironment.HistoryAppendOnly | src/components/OperatingEnvironment/OperatingEnvironment.js:230-234 | the history only grows, and two successful responses append their batches in arrival order |
| StaticMatrix.NewPoints | src/components/StaticMatrix/StaticMatrix.js:73-91 | at most one point; none without machines; otherwise one iff some noisy mean is non-zero, carrying those means and the current time |
| StaticMatrix.SumsSnoc | src/components/StaticMatrix/StaticMatrix.js:66-71 | each of the three sums grows by the next machine's value |
| StaticMatrix.ProcessData | src/components/StaticMatrix/StaticMatrix.js:47-99 | the pass leaves `averages` zero without machines and the per-field mean plus noise otherwise, and appends exactly `NewPoints` to the history |
| StaticMatrix.PointWithinValues | src/components/StaticMatrix/StaticMatrix.js:73-77 | without noise, a point's vibration lies between the smallest and largest machine value |
| StaticMatrix.WindowStart | src/components/StaticMatrix/StaticMatrix.js:17-30 | an option has a window start iff it is one of the four known options; 'daily' starts seven calendar days back |
| StaticMatrix.WindowsAsPerMachineCharts | src/components/StaticMatrix/StaticMatrix.js:17-30 | the windows agree with the per-machine charts' except that 'weekly' is unknown here |
| StaticMatrix.FormatData | src/components/StaticMatrix/StaticMatrix.js:17-30 | at most the given points are kept, each of them from the input, and for a known option each at or after the window start |
| StaticMatrix.FormatDataExact | src/components/StaticMatrix/StaticMatrix.js:17-30 | 'weekly' and every unknown option return the points unchanged; a known option keeps, in order, exactly the points at or after its start (for 'daily', seven calendar days back) |
| StaticMatrix.InRange | src/components/StaticMatrix/StaticMatrix.js:105-111 | the point test is the truthy start/end bounds on the point's time |
| StaticMatrix.FilterData | src/components/StaticMatrix/StaticMatrix.js:104-113 | at most the history's points are shown, each from the history and within the date filter |
| StaticMatrix.FilterDataExact | src/components/StaticMatrix/StaticMatrix.js:104-113 | a point is shown iff it lies within the date filter and, for a known option, the window; the result is an order-preserving subsequence |
| StaticMatrix.Mount | src/components/StaticMatrix/StaticMatrix.js:33-42 | saved history or none, no date filter, and the saved option unless missing or empty, else 'hourly' |
| StaticMatrix.HandleDisplayOptionChange | src/components/StaticMatrix/StaticMatrix.js:133-137 | only the option changes |
| StaticMatrix.OnDataChange | src/components/StaticMatrix/StaticMatrix.js:46-102 | a change of the averages appends exactly `NewPoints` to the history and changes nothing else |
| StaticMatrix.HistoryGrowsByAtMostOne | src/components/StaticMatrix/StaticMatrix.js:85-97 | the old history is a prefix, it grows by at most one point, and not at all without machines |

## Left out

- Network access (`fetch`, the HTTP endpoints) and `JSON.parse` of messages: outside the model. Each response is an input value, `FetchResult`: a rejected promise, or a body with a status and an optional `data` array of already decoded records.
- Polling with `setInterval` and `setTimeout`: timers and asynchrony. This covers the 5-second highlight clear (modelled only as the effect `RealTime.ClearHighlights`) and the 500 ms blink timer (modelled only as the predicate `FactoryLayout.Blinks`).
- The three.js scene, GLTF loading, camera, orbit controls, resizing and the animation loop: rendering through a foreign library. Light registration is modelled on the set of object names the loaded model contains.
- Browser storage, beyond whether a saved copy is present, and its JSON serialisation. Both chart components read and write the same `chartData` entry with different record shapes; each is modelled with its own history.
- Date parsing and formatting (`toLocaleString`, `toDateString`, date-fns `format` and `isValid`, `formatXAxis`): timestamps are integer milliseconds and the due date is a day number. A date-time text that does not parse is an empty bound (`None`).
- `subDays(new Date(), 7)`, `subWeeks(new Date(), 4)` and `subMonths(new Date(), 12)`: local-calendar arithmetic, which is not a fixed number of milliseconds across a daylight-saving change. The three results are the clock readings `Clock.sevenDaysAgo`, `Clock.fourWeeksAgo` and `Clock.twelveMonthsAgo`.
- `Math.random`: nondeterminism. The three fluctuations are the `StaticMatrix.Noise` parameter.
- Floating point: means and percentages are exact reals. NaN and rounding are not modelled; the one NaN case (an empty group) compares the same way in the model.
- The wheel and scroll handler of the trend chart, and the JSX and CSS layout: DOM events and presentation.
- The rows rendered from `realTimeData` for the five machines: presentation of the merged table.
- `handleFilterChange` of the condition table, `handleZoneChange` and the start/end inputs of the trend chart: plain state setters. They are modelled as the `filter`, `zone` and bound arguments of the filtering functions.
- Records with missing fields: every record carries every field.
- Object property order: a dictionary whose iteration order the source relies on is a sequence in insertion order.
- src/App.js, src/components/Sidebar/Sidebar.js, src/components/RealTimeUpdate/Card.js, src/components/EquipmentCondition/EquipmentCondition.js and src/replace-url.js are not part of this model: routing, navigation, presentation and a build-time script.
- OperatingEnvironment.ProcessData: does not convert each timestamp to the `en-US` locale text that is later parsed back, because date formatting is outside the model. The history keeps the integer instants.
- RealTimeUpdate.ToCardUpdate: keeps good count, cycle time, performance and OEE as numbers rather than the `toFixed(2)` texts, because float formatting is outside the model.
- StaticMatrix.NewPoints: the point's values are not rounded to two decimals (`parseFloat(x.toFixed(2))`), and its time is the instant rather than its locale text.
- StaticMatrix.HandleDisplayOptionChange: does not model storing the new option.
- OperatingEnvironment.HandleFilterChange: does not model writing the new filters to browser storage.
- OperatingEnvironment.HandleDisplayOptionChange: does not model writing the new options to browser storage.
- OperatingEnvironment.ProcessData: does not model writing the new history to browser storage.
- OperatingEnvironment.ChartFor: where the render would crash reading the dates of a machine without a filter entry, the model returns `None`.
- FactoryLayout.Startup: a cache is present when storage holds a non-empty text; the model takes its decoded map as given.
