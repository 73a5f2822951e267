/** The main dashboard's batch processing: a coarse condition per machine
    (attention is required once more than a sixth of its predictions are
    faults) and per-machine means of vibration, temperature and noise. */
module Dashboard {
  import opened Collections
  import opened Plant

  const AttentionRequired: string := "Attention Required"
  const NormalCondition: string := "Normal"
  const UnknownText: string := "Unknown"

  /** One value of the `machineConditions` object. */
  datatype MachineRecord = MachineRecord(machine: string, status: string, predictions: seq<int>, condition: string)

  /** One entry of the returned list: the record of a machine that has rows,
      or `{ machine, status: 'Unknown', condition: 'Unknown' }`. */
  datatype MachineCondition = Known(record: MachineRecord) | Unknown(name: string)
  {
    function Machine(): string
    {
      if Known? then record.machine else name
    }

    function Status(): string
    {
      if Known? then record.status else UnknownText
    }

    function Condition(): string
    {
      if Known? then record.condition else UnknownText
    }
  }

  /** The rows of machine `m`, in feed order. */
  function MachineRows(data: seq<Reading>, m: string): seq<Reading>
  {
    Filter(data, (r: Reading) => r.machine == m)
  }

  lemma MachineRowsSnoc(data: seq<Reading>, row: Reading, m: string)
    ensures MachineRows(data + [row], m) == MachineRows(data, m) + (if row.machine == m then [row] else [])
  {
    FilterSnoc(data, row, (r: Reading) => r.machine == m);
  }

  /** `predictions.filter(prediction => prediction === 1)`. */
  function Ones(predictions: seq<int>): seq<int>
  {
    Filter(predictions, (x: int) => x == 1)
  }

  /** `oneCount > predictions.length / 6`, without division. */
  function ConditionFor(predictions: seq<int>): string
  {
    if 6 * |Ones(predictions)| > |predictions| then AttentionRequired else NormalCondition
  }

  /** The record collected for machine `m` by the first pass, before the
      condition pass (condition still 'Normal'). */
  function Collected(data: seq<Reading>, m: string): MachineRecord
    requires MachineRows(data, m) != []
  {
    var rows := MachineRows(data, m);
    MachineRecord(m, rows[0].operationalStatus, Predictions(rows), NormalCondition)
  }

  /** The entry reported for machine `m`. */
  function MachineConditionOf(data: seq<Reading>, m: string): MachineCondition
  {
    var rows := MachineRows(data, m);
    if rows == [] then Unknown(m)
    else Known(MachineRecord(m, rows[0].operationalStatus, Predictions(rows), ConditionFor(Predictions(rows))))
  }

  /** The `machineConditions` object after the first pass has seen the rows
      `prefix`. */
  function Grouping(prefix: seq<Reading>): map<string, MachineRecord>
    decreases |prefix|
  {
    if prefix == [] then map[]
    else
      var before := Grouping(prefix[..|prefix| - 1]);
      var row := prefix[|prefix| - 1];
      var base := if row.machine in before then before
                  else before[row.machine := MachineRecord(row.machine, row.operationalStatus, [], NormalCondition)];
      base[row.machine := base[row.machine].(predictions := base[row.machine].predictions + [row.prediction])]
  }

  /** The first pass records exactly the machines that have rows, each with
      its first row's status and all its predictions in feed order. */
  lemma {:induction false} GroupingCollects(prefix: seq<Reading>)
    ensures forall m :: m in Grouping(prefix) <==> MachineRows(prefix, m) != []
    ensures forall m :: m in Grouping(prefix) ==> Grouping(prefix)[m] == Collected(prefix, m)
    decreases |prefix|
  {
    if prefix != [] {
      var shorter := prefix[..|prefix| - 1];
      var row := prefix[|prefix| - 1];
      assert prefix == shorter + [row];
      GroupingCollects(shorter);
      forall m ensures m in Grouping(prefix) <==> MachineRows(prefix, m) != [] {
        MachineRowsSnoc(shorter, row, m);
      }
      forall m | m in Grouping(prefix) ensures Grouping(prefix)[m] == Collected(prefix, m) {
        MachineRowsSnoc(shorter, row, m);
        var rows := MachineRows(shorter, m);
        if m == row.machine {
          PredictionsSnoc(rows, row);
          if rows == [] {
            assert MachineRows(prefix, m) == [row];
          } else {
            assert MachineRows(prefix, m)[0] == rows[0];
          }
        } else {
          assert MachineRows(prefix, m) == rows;
        }
      }
    }
  }

  /** The first pass of `processEquipmentConditions`: it groups the rows by
      machine, keeping the first row's status and every prediction. */
  method GroupByMachine(data: seq<Reading>) returns (machineConditions: map<string, MachineRecord>)
    ensures forall m :: m in machineConditions <==> MachineRows(data, m) != []
    ensures forall m :: m in machineConditions ==> machineConditions[m] == Collected(data, m)
  {
    machineConditions := map[];
    for n := 0 to |data|
      invariant machineConditions == Grouping(data[..n])
    {
      var row := data[n];
      var machine := row.machine;
      assert data[..n + 1][..n] == data[..n];
      if machine !in machineConditions {
        machineConditions := machineConditions[machine := MachineRecord(machine, row.operationalStatus, [], NormalCondition)];
      }
      var c := machineConditions[machine];
      machineConditions := machineConditions[machine := c.(predictions := c.predictions + [row.prediction])];
    }
    assert data[..|data|] == data;
    GroupingCollects(data);
  }

  /** `processEquipmentConditions`: the grouping pass, one pass that sets each
      machine's condition, and the projection onto Machine_1 .. Machine_5. */
  method ProcessEquipmentConditions(data: seq<Reading>) returns (result: seq<MachineCondition>)
    ensures |result| == NumMachines
    ensures forall k :: 0 <= k < NumMachines ==> result[k] == MachineConditionOf(data, MachineNames()[k])
  {
    var machineConditions := GroupByMachine(data);
    ghost var grouped := machineConditions;
    var pending := machineConditions.Keys;
    while pending != {}
      invariant pending <= machineConditions.Keys == grouped.Keys
      invariant forall m :: m in machineConditions ==>
                  machineConditions[m] == if m in pending then grouped[m]
                                          else grouped[m].(condition := ConditionFor(grouped[m].predictions))
      decreases pending
    {
      var m :| m in pending;
      var condition := machineConditions[m];
      var oneCount := |Ones(condition.predictions)|;
      OneSixth(oneCount, |condition.predictions|);
      if (oneCount as real) > (|condition.predictions| as real) / 6.0 {
        machineConditions := machineConditions[m := condition.(condition := AttentionRequired)];
      }
      pending := pending - {m};
    }

    result := seq(NumMachines, k requires 0 <= k < NumMachines =>
      if MachineNames()[k] in machineConditions then Known(machineConditions[MachineNames()[k]])
      else Unknown(MachineNames()[k]));
  }

  /** The source compares with a real sixth; that is `6 * oneCount > length`. */
  lemma OneSixth(oneCount: nat, length: nat)
    ensures (oneCount as real) > (length as real) / 6.0 <==> 6 * oneCount > length
  {
  }

  /** What the entry for a machine says about the rows: it is Unknown exactly
      when the machine has no row; otherwise its status is that of the
      machine's first row, its predictions are the machine's predictions in
      feed order (one per row), and it requires attention exactly when more
      than a sixth of them are 1. */
  lemma MachineConditionExact(data: seq<Reading>, m: string)
    ensures MachineConditionOf(data, m).Machine() == m
    ensures MachineConditionOf(data, m).Unknown? <==> forall i :: 0 <= i < |data| ==> data[i].machine != m
    ensures MachineConditionOf(data, m).Unknown? ==>
              MachineConditionOf(data, m).Status() == UnknownText && MachineConditionOf(data, m).Condition() == UnknownText
    ensures MachineConditionOf(data, m).Known? ==>
              var r := MachineConditionOf(data, m).record;
              && (exists i :: 0 <= i < |data| && data[i].machine == m && r.status == data[i].operationalStatus &&
                              forall j :: 0 <= j < i ==> data[j].machine != m)
              && |r.predictions| == |MachineRows(data, m)|
              && (forall k :: 0 <= k < |r.predictions| ==> r.predictions[k] == MachineRows(data, m)[k].prediction)
              && (r.condition == AttentionRequired <==> 6 * |Ones(r.predictions)| > |r.predictions|)
              && (r.condition != AttentionRequired <==> r.condition == NormalCondition)
  {
    var p := (r: Reading) => r.machine == m;
    FilterSpec(data, p);
    if MachineRows(data, m) != [] {
      FilterHead(data, p);
    } else {
      forall i | 0 <= i < |data| ensures data[i].machine != m {
        assert data[i] in data;
      }
    }
  }

  /** Of six predictions, one fault stays Normal and two require attention. */
  lemma OneSixthBoundary(predictions: seq<int>)
    requires |predictions| == 6
    ensures |Ones(predictions)| == 1 ==> ConditionFor(predictions) == NormalCondition
    ensures |Ones(predictions)| == 2 ==> ConditionFor(predictions) == AttentionRequired
  {
  }

  /** Per-machine means, one value of the `averages` object. */
  datatype MachineAverages = MachineAverages(vibration: real, temperature: real, noiseFrequency: real)

  /** One value of the `machineData` object: a row count and three sums. */
  datatype Totals = Totals(count: nat, vibration: real, temperature: real, noiseFrequency: real)

  function Vibrations(rows: seq<Reading>): seq<real>
  {
    seq(|rows|, k requires 0 <= k < |rows| => rows[k].vibration)
  }

  function Temperatures(rows: seq<Reading>): seq<real>
  {
    seq(|rows|, k requires 0 <= k < |rows| => rows[k].temperature)
  }

  function NoiseFrequencies(rows: seq<Reading>): seq<real>
  {
    seq(|rows|, k requires 0 <= k < |rows| => rows[k].noiseFrequency)
  }

  /** The totals the first pass has collected for machine `m`. */
  function TotalsOf(data: seq<Reading>, m: string): Totals
  {
    var rows := MachineRows(data, m);
    Totals(|rows|, Sum(Vibrations(rows)), Sum(Temperatures(rows)), Sum(NoiseFrequencies(rows)))
  }

  /** The means over a non-empty group of rows. */
  function MeanOf(rows: seq<Reading>): MachineAverages
    requires |rows| > 0
  {
    MachineAverages(Mean(Vibrations(rows)), Mean(Temperatures(rows)), Mean(NoiseFrequencies(rows)))
  }

  /** The machines that occur in the rows. */
  function Machines(data: seq<Reading>): set<string>
  {
    set r | r in data :: r.machine
  }

  lemma MachinesSnoc(data: seq<Reading>, row: Reading)
    ensures Machines(data + [row]) == Machines(data) + {row.machine}
  {
    forall m | m in Machines(data + [row]) ensures m in Machines(data) + {row.machine} {
      var r :| r in data + [row] && r.machine == m;
      if r != row {
        assert r in data;
      }
    }
    forall m | m in Machines(data) ensures m in Machines(data + [row]) {
      var r :| r in data && r.machine == m;
      assert r in data + [row];
    }
    assert row in data + [row];
  }

  /** A machine without rows has zero totals. */
  lemma TotalsAbsent(data: seq<Reading>, m: string)
    requires m !in Machines(data)
    ensures TotalsOf(data, m) == Totals(0, 0.0, 0.0, 0.0)
  {
    FilterSpec(data, (r: Reading) => r.machine == m);
  }

  /** One more row adds itself to its machine's totals ... */
  lemma TotalsSnocSame(data: seq<Reading>, row: Reading)
    ensures TotalsOf(data + [row], row.machine) == AddRow(TotalsOf(data, row.machine), row)
  {
    MachineRowsSnoc(data, row, row.machine);
    var rows := MachineRows(data, row.machine);
    assert Vibrations(rows + [row]) == Vibrations(rows) + [row.vibration];
    assert Temperatures(rows + [row]) == Temperatures(rows) + [row.temperature];
    assert NoiseFrequencies(rows + [row]) == NoiseFrequencies(rows) + [row.noiseFrequency];
    SumSnoc(Vibrations(rows), row.vibration);
    SumSnoc(Temperatures(rows), row.temperature);
    SumSnoc(NoiseFrequencies(rows), row.noiseFrequency);
  }

  /** ... and to no other machine's. */
  lemma TotalsSnocOther(data: seq<Reading>, row: Reading, m: string)
    requires m != row.machine
    ensures TotalsOf(data + [row], m) == TotalsOf(data, m)
  {
    MachineRowsSnoc(data, row, m);
    assert MachineRows(data + [row], m) == MachineRows(data, m);
  }

  /** The running totals with one more row of the same machine. */
  function AddRow(t: Totals, row: Reading): Totals
  {
    Totals(t.count + 1, t.vibration + row.vibration, t.temperature + row.temperature,
           t.noiseFrequency + row.noiseFrequency)
  }

  /** `machineData` describes the rows `prefix`. */
  ghost predicate Accumulates(prefix: seq<Reading>, machineData: map<string, Totals>)
  {
    && machineData.Keys == Machines(prefix)
    && forall m :: m in machineData ==> machineData[m] == TotalsOf(prefix, m)
  }

  /** The `machineData` object after the first pass has seen the rows `prefix`. */
  function Accumulated(prefix: seq<Reading>): map<string, Totals>
    decreases |prefix|
  {
    if prefix == [] then map[]
    else
      var before := Accumulated(prefix[..|prefix| - 1]);
      var row := prefix[|prefix| - 1];
      var base := if row.machine in before then before else before[row.machine := Totals(0, 0.0, 0.0, 0.0)];
      base[row.machine := AddRow(base[row.machine], row)]
  }

  /** The first pass's `machineData` holds, for exactly the machines that
      occur, their row count and the sums of their readings. */
  lemma {:induction false} AccumulatedTotals(prefix: seq<Reading>)
    ensures Accumulates(prefix, Accumulated(prefix))
    decreases |prefix|
  {
    if prefix != [] {
      var shorter := prefix[..|prefix| - 1];
      var row := prefix[|prefix| - 1];
      assert prefix == shorter + [row];
      AccumulatedTotals(shorter);
      var before := Accumulated(shorter);
      MachinesSnoc(shorter, row);
      TotalsSnocSame(shorter, row);
      if row.machine !in before {
        TotalsAbsent(shorter, row.machine);
      }
      forall m | m in Accumulated(prefix) ensures Accumulated(prefix)[m] == TotalsOf(prefix, m) {
        if m != row.machine {
          TotalsSnocOther(shorter, row, m);
        }
      }
    }
  }

  /** The second pass's division of each sum by the count. */
  function Divided(t: Totals): MachineAverages
    requires t.count >= 1
  {
    MachineAverages(t.vibration / t.count as real, t.temperature / t.count as real,
                    t.noiseFrequency / t.count as real)
  }

  /** Dividing the totals of a machine that has rows gives its means. */
  lemma TotalsGiveMeans(data: seq<Reading>, m: string)
    requires m in Machines(data)
    ensures |MachineRows(data, m)| >= 1
    ensures TotalsOf(data, m).count >= 1
    ensures MeanOf(MachineRows(data, m)) == Divided(TotalsOf(data, m))
  {
    FilterSpec(data, (r: Reading) => r.machine == m);
    var w :| w in data && w.machine == m;
    assert w in MachineRows(data, m);
  }

  /** The first pass of `calculateAverages`: it accumulates, per machine,
      the row count and the three sums. */
  method AccumulateTotals(data: seq<Reading>) returns (machineData: map<string, Totals>)
    ensures machineData.Keys == Machines(data)
    ensures forall m :: m in machineData ==> machineData[m] == TotalsOf(data, m)
  {
    machineData := map[];
    for n := 0 to |data|
      invariant machineData == Accumulated(data[..n])
    {
      var row := data[n];
      var machine := row.machine;
      assert data[..n + 1][..n] == data[..n];
      if machine !in machineData {
        machineData := machineData[machine := Totals(0, 0.0, 0.0, 0.0)];
      }
      var t := machineData[machine];
      machineData := machineData[machine := Totals(t.count + 1, t.vibration + row.vibration,
                                                   t.temperature + row.temperature,
                                                   t.noiseFrequency + row.noiseFrequency)];
    }
    assert data[..|data|] == data;
    AccumulatedTotals(data);
  }

  /** `calculateAverages`: the accumulating pass, then one division per
      machine. Only machines with rows get an entry. */
  method CalculateAverages(data: seq<Reading>) returns (averages: map<string, MachineAverages>)
    ensures averages.Keys == Machines(data)
    ensures forall m :: m in averages ==> |MachineRows(data, m)| >= 1 && averages[m] == MeanOf(MachineRows(data, m))
  {
    var machineData := AccumulateTotals(data);
    averages := map[];
    var pending := machineData.Keys;
    while pending != {}
      invariant pending <= machineData.Keys
      invariant averages.Keys == machineData.Keys - pending
      invariant forall m :: m in averages ==> machineData[m].count >= 1 && averages[m] == Divided(machineData[m])
      decreases pending
    {
      var machine :| machine in pending;
      var t := machineData[machine];
      TotalsGiveMeans(data, machine);
      averages := averages[machine := MachineAverages(t.vibration / t.count as real,
                                                      t.temperature / t.count as real,
                                                      t.noiseFrequency / t.count as real)];
      pending := pending - {machine};
    }
    forall m | m in averages
      ensures |MachineRows(data, m)| >= 1 && averages[m] == MeanOf(MachineRows(data, m))
    {
      TotalsGiveMeans(data, m);
    }
  }

  /** Each mean lies between the smallest and largest reading it averages. */
  lemma MeanWithinReadings(rows: seq<Reading>, lo: real, hi: real)
    requires |rows| > 0
    requires forall k :: 0 <= k < |rows| ==> lo <= rows[k].vibration <= hi
    ensures lo <= MeanOf(rows).vibration <= hi
  {
    MeanBounds(Vibrations(rows), lo, hi);
  }

  /** Vibrations 1 and 3 average to 2. */
  lemma VibrationExample(a: Reading, b: Reading)
    requires a.machine == b.machine && a.vibration == 1.0 && b.vibration == 3.0
    ensures MachineRows([a, b], a.machine) == [a, b]
    ensures MeanOf(MachineRows([a, b], a.machine)).vibration == 2.0
  {
    FilterAll([a, b], (r: Reading) => r.machine == a.machine);
    assert Vibrations([a, b]) == [1.0, 3.0];
    assert [1.0, 3.0][..1] == [1.0];
    assert [1.0][..0] == [];
    assert Sum([1.0]) == 1.0;
    assert Sum([1.0, 3.0]) == 4.0;
  }

  /** The dashboard's batch-derived state. */
  datatype DashboardState = DashboardState(
    data: seq<Reading>,
    equipmentConditions: seq<MachineCondition>,
    averageValues: map<string, MachineAverages>)

  const InitialDashboardState: DashboardState := DashboardState([], [], map[])

  /** One batch poll: a body with a `data` array replaces rows, conditions and
      averages together; a failed fetch or a body without `data` changes
      nothing. */
  method OnBatchResponse(state: DashboardState, response: FetchResult<Reading>) returns (next: DashboardState)
    ensures response.Body? && response.data.Some? ==>
              var rows := response.data.value;
              && next.data == rows
              && |next.equipmentConditions| == NumMachines
              && (forall k :: 0 <= k < NumMachines ==> next.equipmentConditions[k] == MachineConditionOf(rows, MachineNames()[k]))
              && next.averageValues.Keys == Machines(rows)
              && (forall m :: m in next.averageValues ==> |MachineRows(rows, m)| >= 1 && next.averageValues[m] == MeanOf(MachineRows(rows, m)))
    ensures !(response.Body? && response.data.Some?) ==> next == state
  {
    if response.Body? && response.data.Some? {
      var rows := response.data.value;
      var conditions := ProcessEquipmentConditions(rows);
      var averages := CalculateAverages(rows);
      next := DashboardState(rows, conditions, averages);
    } else {
      next := state;
    }
  }
}
