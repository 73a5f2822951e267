/** The equipment condition table: every batch poll classifies each of the
    fifteen pieces of equipment by its share of fault predictions, derives a
    replacement due date, and the table can be narrowed to one status. */
module EquipmentConditionDetail {
  import opened Collections
  import opened Plant
  import opened Tiering

  const CriticalStatus: string := "Critical (replace immediately)"
  const WarnStatus: string := "Warn off (Replace soon)"
  const NormalStatus: string := "Normal"

  /** `Please replace part by <date>` with the date as a day number, or the
      empty string. */
  datatype Recommendation = NoRecommendation | ReplaceBy(dueDay: int)

  datatype EquipmentCondition = EquipmentCondition(status: string, recommendation: Recommendation)

  /** The `conditions` object as its entries in insertion order, which is the
      order `Object.entries` lists them in. */
  type Conditions = seq<(string, EquipmentCondition)>

  function StatusLabel(t: Tier): string
  {
    match t
    case Critical => CriticalStatus
    case Warning => WarnStatus
    case Normal => NormalStatus
  }

  /** `data.filter(d => d.machine === machine && d.equipment === equipment)`. */
  function GroupRows(data: seq<Reading>, machine: string, equipment: string): seq<Reading>
  {
    Filter(data, (d: Reading) => d.machine == machine && d.equipment == equipment)
  }

  /** `rows.filter(d => d.prediction === 1)`. */
  function WarningRows(rows: seq<Reading>): seq<Reading>
  {
    Filter(rows, (d: Reading) => d.prediction == 1)
  }

  /** The rows of equipment (i, j). */
  function EquipmentRows(data: seq<Reading>, i: int, j: int): seq<Reading>
    requires 1 <= i <= NumMachines && 1 <= j <= EquipmentPerMachine
  {
    GroupRows(data, MachineName(i), EquipmentName(i, j))
  }

  function GroupTier(rows: seq<Reading>): Tier
  {
    TierOf(|WarningRows(rows)|, |rows|)
  }

  /** `getReplacementRecommendation`, with today's date as a day number. */
  function GetReplacementRecommendation(status: string, today: int): (r: Recommendation)
    ensures r.ReplaceBy? <==> status in {CriticalStatus, WarnStatus}
    ensures r.ReplaceBy? ==> today + 30 <= r.dueDay <= today + 60
    ensures r.ReplaceBy? ==> (r.dueDay == today + 30 <==> status == CriticalStatus)
  {
    if status == CriticalStatus then ReplaceBy(today + 30)
    else if status == WarnStatus then ReplaceBy(today + 60)
    else NoRecommendation
  }

  /** The entry stored for equipment (i, j). */
  function ConditionOf(data: seq<Reading>, i: int, j: int, today: int): EquipmentCondition
    requires 1 <= i <= NumMachines && 1 <= j <= EquipmentPerMachine
  {
    var status := StatusLabel(GroupTier(EquipmentRows(data, i, j)));
    EquipmentCondition(status, GetReplacementRecommendation(status, today))
  }

  /** The fifteen entries, keyed and ordered as the nested loops insert them. */
  function Classified(data: seq<Reading>, today: int): Conditions
  {
    seq(NumEquipment, k requires 0 <= k < NumEquipment =>
      (EquipmentNames()[k], ConditionOf(data, MachineIndex(k), EquipmentIndex(k), today)))
  }

  /** `processEquipmentConditions`: the nested loops over i in 1..5 and j in
      1..3 that fill the `conditions` object. */
  method ProcessEquipmentConditions(data: seq<Reading>, today: int) returns (conditions: Conditions)
    ensures conditions == Classified(data, today)
  {
    conditions := [];
    for i := 1 to NumMachines + 1
      invariant |conditions| == EquipmentPerMachine * (i - 1)
      invariant conditions == Classified(data, today)[..|conditions|]
    {
      for j := 1 to EquipmentPerMachine + 1
        invariant |conditions| == EquipmentPerMachine * (i - 1) + (j - 1)
        invariant conditions == Classified(data, today)[..|conditions|]
      {
        var equipmentData := GroupRows(data, MachineName(i), EquipmentName(i, j));
        var warningCount := |WarningRows(equipmentData)|;
        var totalCount := |equipmentData|;
        var status := NormalStatus;
        if 100 * warningCount > 50 * totalCount {
          status := CriticalStatus;
        } else if 100 * warningCount > 30 * totalCount {
          status := WarnStatus;
        }
        assert status == StatusLabel(GroupTier(EquipmentRows(data, i, j)));
        ClassifiedAt(data, today, i, j);
        assert Position(i, j) == |conditions|;
        conditions := conditions + [(EquipmentName(i, j), EquipmentCondition(status, GetReplacementRecommendation(status, today)))];
      }
    }
  }

  /** `Object.keys` of a condition table, in order. */
  function Keys(entries: Conditions): seq<string>
  {
    seq(|entries|, k requires 0 <= k < |entries| => entries[k].0)
  }

  /** The result has exactly the fifteen keys `Machine_i_Equipment_j`, each
      once, in loop order. */
  lemma ClassifiedKeys(data: seq<Reading>, today: int)
    ensures Keys(Classified(data, today)) == EquipmentNames()
    ensures |Classified(data, today)| == NumEquipment
    ensures forall k, k' :: 0 <= k < k' < NumEquipment ==>
              Keys(Classified(data, today))[k] != Keys(Classified(data, today))[k']
    ensures forall name :: name in Keys(Classified(data, today)) <==>
              exists i, j :: 1 <= i <= NumMachines && 1 <= j <= EquipmentPerMachine && name == EquipmentName(i, j)
  {
    EquipmentNamesExact();
  }

  /** The entry stored under the name of equipment (i, j) is that
      equipment's classification. */
  lemma ClassifiedAt(data: seq<Reading>, today: int, i: int, j: int)
    requires 1 <= i <= NumMachines && 1 <= j <= EquipmentPerMachine
    ensures Classified(data, today)[Position(i, j)] == (EquipmentName(i, j), ConditionOf(data, i, j, today))
  {
    EquipmentNamesAt(i, j);
  }

  /** The warning count counts exactly the rows whose machine and equipment
      both match and whose prediction is 1, so it never exceeds the group. */
  lemma WarningCountExact(data: seq<Reading>, i: int, j: int)
    requires 1 <= i <= NumMachines && 1 <= j <= EquipmentPerMachine
    ensures |WarningRows(EquipmentRows(data, i, j))| <= |EquipmentRows(data, i, j)| <= |data|
    ensures forall d :: d in WarningRows(EquipmentRows(data, i, j)) <==>
              d in data && d.machine == MachineName(i) && d.equipment == EquipmentName(i, j) && d.prediction == 1
  {
    var rows := EquipmentRows(data, i, j);
    FilterSpec(data, (d: Reading) => d.machine == MachineName(i) && d.equipment == EquipmentName(i, j));
    FilterSpec(rows, (d: Reading) => d.prediction == 1);
  }

  /** For a non-empty group the status is Critical iff the percentage exceeds
      50, "Warn off" iff it lies in (30, 50], Normal iff it is at most 30; an
      empty group is Normal. The recommendation is due 30 days from today for
      Critical, 60 days for "Warn off", and absent for Normal. */
  lemma ConditionBands(data: seq<Reading>, i: int, j: int, today: int)
    requires 1 <= i <= NumMachines && 1 <= j <= EquipmentPerMachine
    ensures var rows := EquipmentRows(data, i, j);
            var c := ConditionOf(data, i, j, today);
            && (|rows| == 0 ==> c.status == NormalStatus)
            && (|rows| > 0 ==>
                  var pct := Percentage(|WarningRows(rows)|, |rows|);
                  && 0.0 <= pct <= 100.0
                  && (c.status == CriticalStatus <==> pct > 50.0)
                  && (c.status == WarnStatus <==> 30.0 < pct <= 50.0)
                  && (c.status == NormalStatus <==> pct <= 30.0))
            && (c.status == CriticalStatus <==> c.recommendation == ReplaceBy(today + 30))
            && (c.status == WarnStatus <==> c.recommendation == ReplaceBy(today + 60))
            && (c.status == NormalStatus <==> c.recommendation == NoRecommendation)
  {
    var rows := EquipmentRows(data, i, j);
    WarningCountExact(data, i, j);
    if |rows| > 0 {
      TierMatchesPercentage(|WarningRows(rows)|, |rows|);
    }
  }

  /** Six fault predictions in ten rows is Critical, due in 30 days. */
  lemma SixOfTenIsCritical(today: int)
    ensures var bad := Reading("Machine_1", "Machine_1_Equipment_1", "Running", 1, 0.0, 0.0, 0.0, 0);
            var good := bad.(prediction := 0);
            var rows := seq(6, _ => bad) + seq(4, _ => good);
            ConditionOf(rows, 1, 1, today) == EquipmentCondition(CriticalStatus, ReplaceBy(today + 30))
  {
    var bad := Reading("Machine_1", "Machine_1_Equipment_1", "Running", 1, 0.0, 0.0, 0.0, 0);
    var good := bad.(prediction := 0);
    var rows := seq(6, _ => bad) + seq(4, _ => good);
    SixOfTenRows(bad, good);
    assert GroupTier(EquipmentRows(rows, 1, 1)) == TierOf(6, 10);
  }

  /** The rows of the example: all of equipment (1, 1), six of them faulty. */
  lemma SixOfTenRows(bad: Reading, good: Reading)
    requires bad == Reading("Machine_1", "Machine_1_Equipment_1", "Running", 1, 0.0, 0.0, 0.0, 0)
    requires good == bad.(prediction := 0)
    ensures var rows := seq(6, _ => bad) + seq(4, _ => good);
            EquipmentRows(rows, 1, 1) == rows && |rows| == 10 && |WarningRows(rows)| == 6
  {
    var faulty, healthy := seq(6, _ => bad), seq(4, _ => good);
    var rows := faulty + healthy;
    assert MachineName(1) == "Machine_1";
    assert EquipmentName(1, 1) == "Machine_1_Equipment_1";
    FilterAll(rows, (d: Reading) => d.machine == MachineName(1) && d.equipment == EquipmentName(1, 1));
    FilterAppend(faulty, healthy, (d: Reading) => d.prediction == 1);
    FilterAll(faulty, (d: Reading) => d.prediction == 1);
    FilterEmpty(healthy, (d: Reading) => d.prediction == 1);
  }

  /** `getStatusClass`. */
  function GetStatusClass(status: string): (cls: string)
    ensures cls in {"status-critical", "status-warn-off", "status-normal", ""}
    ensures cls != "" <==> status in {CriticalStatus, WarnStatus, NormalStatus}
  {
    if status == CriticalStatus then "status-critical"
    else if status == WarnStatus then "status-warn-off"
    else if status == NormalStatus then "status-normal"
    else ""
  }

  /** The three statuses get three distinct, non-empty classes; any other
      text gets the empty class. */
  lemma StatusClassDistinct(s: string, s': string)
    ensures GetStatusClass(s) != "" <==> s in {CriticalStatus, WarnStatus, NormalStatus}
    ensures GetStatusClass(s) != "" && GetStatusClass(s) == GetStatusClass(s') ==> s == s'
  {
  }

  /** `filteredConditions`: every entry for the empty filter, otherwise the
      entries whose status equals the filter text. */
  function FilteredConditions(entries: Conditions, filter: string): (listed: Conditions)
    ensures |listed| <= |entries|
    ensures forall k :: 0 <= k < |listed| ==> listed[k] in entries && (filter != "" ==> listed[k].1.status == filter)
  {
    if filter == "" then entries
    else
      var hasStatus := (e: (string, EquipmentCondition)) => e.1.status == filter;
      FilterKeeps(entries, hasStatus);
      Filter(entries, hasStatus)
  }

  /** An empty filter lists every entry; a non-empty one lists exactly the
      entries with that status, each as often as in the table and in table
      order. */
  lemma FilteredConditionsExact(entries: Conditions, filter: string)
    ensures filter == "" ==> FilteredConditions(entries, filter) == entries
    ensures filter != "" ==>
              && IsSubsequence(FilteredConditions(entries, filter), entries)
              && (forall e :: e in FilteredConditions(entries, filter) <==> e in entries && e.1.status == filter)
              && (forall e: (string, EquipmentCondition) :: e.1.status == filter ==>
                    multiset(FilteredConditions(entries, filter))[e] == multiset(entries)[e])
  {
    if filter != "" {
      FilterSpec(entries, (e: (string, EquipmentCondition)) => e.1.status == filter);
    }
  }

  /** The component's state: the last rows, their classification and the
      chosen filter. */
  datatype DetailState = DetailState(data: seq<Reading>, equipmentConditions: Conditions, filter: string)

  const InitialDetailState: DetailState := DetailState([], [], "")

  /** One poll of the batch feed: a body with a `data` array replaces the rows
      and the classification; anything else leaves the state as it was. */
  method OnBatchResponse(state: DetailState, response: FetchResult<Reading>, today: int)
    returns (next: DetailState)
    ensures response.Body? && response.data.Some? ==>
              next == DetailState(response.data.value, Classified(response.data.value, today), state.filter)
    ensures !(response.Body? && response.data.Some?) ==> next == state
  {
    if response.Body? && response.data.Some? {
      var rows := response.data.value;
      var conditions := ProcessEquipmentConditions(rows, today);
      next := state.(data := rows, equipmentConditions := conditions);
    } else {
      next := state;
    }
  }
}
