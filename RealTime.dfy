/** The real-time operating-status table: each stream batch is reduced to
    the latest event per machine, the machines updated by the batch are
    highlighted, and the table's OEE, cycle-time and performance means are
    recomputed. */
module RealTime {
  import opened Collections
  import opened Plant

  /** The `newData` object as its values in insertion order; a key that is
      assigned again keeps its place. */
  type Latest = seq<Payload>

  /** `Object.keys(newData)`. */
  function Keys(entries: Latest): seq<string>
  {
    seq(|entries|, k requires 0 <= k < |entries| => entries[k].machine)
  }

  /** The place of `machine` among the keys, or `|entries|` when absent. */
  function IndexOf(entries: Latest, machine: string): (i: nat)
    ensures i <= |entries|
    ensures i < |entries| ==> entries[i].machine == machine
    ensures forall j :: 0 <= j < i ==> entries[j].machine != machine
    decreases |entries|
  {
    if entries == [] then 0
    else if entries[0].machine == machine then 0
    else 1 + IndexOf(entries[1..], machine)
  }

  /** One turn of the `forEach`: the item is stored when its machine is absent
      or its timestamp is strictly later than the stored one. */
  function Step(entries: Latest, item: Payload): (r: Latest)
    ensures |entries| <= |r| <= |entries| + 1
    ensures forall e :: e in r ==> e in entries || e == item
  {
    var i := IndexOf(entries, item.machine);
    if i == |entries| then entries + [item]
    else if item.timestamp > entries[i].timestamp then entries[i := item]
    else entries
  }

  /** `newData` after the items `prefix`; it starts empty, so nothing is
      carried over from earlier batches. */
  function MergeLatest(prefix: seq<Payload>): (r: Latest)
    ensures r == [] <==> prefix == []
    decreases |prefix|
  {
    if prefix == [] then []
    else Step(MergeLatest(prefix[..|prefix| - 1]), prefix[|prefix| - 1])
  }

  /** The machines of a batch. */
  function MachinesOf(data: seq<Payload>): set<string>
  {
    set item | item in data :: item.machine
  }

  /** `e` is the event of its machine with the greatest timestamp in `data`,
      and the first one in feed order among those with that timestamp. */
  ghost predicate IsLatest(data: seq<Payload>, e: Payload)
  {
    exists i :: 0 <= i < |data| && data[i] == e &&
      (forall j :: 0 <= j < |data| && data[j].machine == e.machine ==> data[j].timestamp <= e.timestamp) &&
      (forall j :: 0 <= j < i && data[j].machine == e.machine ==> data[j].timestamp < e.timestamp)
  }

  lemma LatestExtendOther(data: seq<Payload>, x: Payload, e: Payload)
    requires IsLatest(data, e) && x.machine != e.machine
    ensures IsLatest(data + [x], e)
  {
    var i :| 0 <= i < |data| && data[i] == e &&
      (forall j :: 0 <= j < |data| && data[j].machine == e.machine ==> data[j].timestamp <= e.timestamp) &&
      (forall j :: 0 <= j < i && data[j].machine == e.machine ==> data[j].timestamp < e.timestamp);
    assert (data + [x])[i] == e;
  }

  lemma LatestExtendOlder(data: seq<Payload>, x: Payload, e: Payload)
    requires IsLatest(data, e) && x.machine == e.machine && x.timestamp <= e.timestamp
    ensures IsLatest(data + [x], e)
  {
    var i :| 0 <= i < |data| && data[i] == e &&
      (forall j :: 0 <= j < |data| && data[j].machine == e.machine ==> data[j].timestamp <= e.timestamp) &&
      (forall j :: 0 <= j < i && data[j].machine == e.machine ==> data[j].timestamp < e.timestamp);
    assert (data + [x])[i] == e;
  }

  lemma LatestNew(data: seq<Payload>, x: Payload)
    requires forall j :: 0 <= j < |data| && data[j].machine == x.machine ==> data[j].timestamp < x.timestamp
    ensures IsLatest(data + [x], x)
  {
    assert (data + [x])[|data|] == x;
  }

  /** An event strictly later than the latest of its machine is later than
      every event of that machine. */
  lemma LatestBound(data: seq<Payload>, e: Payload, x: Payload)
    requires IsLatest(data, e) && x.machine == e.machine && x.timestamp > e.timestamp
    ensures forall j :: 0 <= j < |data| && data[j].machine == x.machine ==> data[j].timestamp < x.timestamp
  {
  }

  lemma MachinesOfSnoc(data: seq<Payload>, x: Payload)
    ensures MachinesOf(data + [x]) == MachinesOf(data) + {x.machine}
  {
    forall m | m in MachinesOf(data + [x]) ensures m in MachinesOf(data) + {x.machine} {
      var item :| item in data + [x] && item.machine == m;
      if item != x {
        assert item in data;
      }
    }
    forall m | m in MachinesOf(data) ensures m in MachinesOf(data + [x]) {
      var item :| item in data && item.machine == m;
      assert item in data + [x];
    }
    assert x in data + [x];
  }

  /** No machine has two entries. */
  predicate DistinctKeys(entries: Latest)
  {
    forall a, b :: 0 <= a < b < |entries| ==> entries[a].machine != entries[b].machine
  }

  /** Every entry is the latest event of its machine. */
  ghost predicate AllLatest(data: seq<Payload>, entries: Latest)
  {
    forall k :: 0 <= k < |entries| ==> IsLatest(data, entries[k])
  }

  lemma KeysAppended(before: Latest, x: Payload)
    ensures Keys(before + [x]) == Keys(before) + [x.machine]
  {
  }

  lemma KeysReplaced(before: Latest, i: int, x: Payload)
    requires 0 <= i < |before| && before[i].machine == x.machine
    ensures Keys(before[i := x]) == Keys(before)
  {
  }

  /** How one step changes the key order: a new machine is appended, a
      known one keeps its place. */
  lemma StepKeys(before: Latest, x: Payload)
    ensures IndexOf(before, x.machine) == |before| ==> Keys(Step(before, x)) == Keys(before) + [x.machine]
    ensures IndexOf(before, x.machine) < |before| ==> Keys(Step(before, x)) == Keys(before)
  {
    var i := IndexOf(before, x.machine);
    if i == |before| {
      KeysAppended(before, x);
    } else if x.timestamp > before[i].timestamp {
      KeysReplaced(before, i, x);
    }
  }

  lemma StepDistinct(before: Latest, x: Payload)
    requires DistinctKeys(before)
    ensures DistinctKeys(Step(before, x))
  {
    StepKeys(before, x);
    var after := Step(before, x);
    assert forall k :: 0 <= k < |after| ==> after[k].machine == Keys(after)[k];
    assert forall k :: 0 <= k < |before| ==> before[k].machine == Keys(before)[k];
  }

  lemma StepKeySet(data: seq<Payload>, before: Latest, x: Payload)
    requires forall m :: m in Keys(before) <==> m in MachinesOf(data)
    ensures forall m :: m in Keys(Step(before, x)) <==> m in MachinesOf(data + [x])
  {
    StepKeys(before, x);
    MachinesOfSnoc(data, x);
    var i := IndexOf(before, x.machine);
    if i < |before| {
      assert Keys(before)[i] == x.machine;
    }
  }

  /** After the first event of a machine, the earlier entries are still
      latest and the event is the latest of its machine. */
  lemma AppendedAreLatest(data: seq<Payload>, x: Payload, before: Latest, after: Latest)
    requires forall k :: 0 <= k < |before| ==> before[k].machine != x.machine
    requires AllLatest(data, before)
    requires forall j :: 0 <= j < |data| && data[j].machine == x.machine ==> data[j].timestamp < x.timestamp
    requires after == before + [x]
    ensures AllLatest(data + [x], after)
  {
    forall k | 0 <= k < |after| ensures IsLatest(data + [x], after[k]) {
      if k < |before| {
        LatestExtendOther(data, x, before[k]);
      } else {
        LatestNew(data, x);
      }
    }
  }

  /** After a strictly later event of entry i's machine, the other entries
      are still latest and the event is the latest of its machine. */
  lemma ReplacedAreLatest(data: seq<Payload>, x: Payload, before: Latest, i: int, after: Latest)
    requires 0 <= i < |before| && before[i].machine == x.machine && x.timestamp > before[i].timestamp
    requires after == before[i := x]
    requires DistinctKeys(before) && AllLatest(data, before)
    ensures AllLatest(data + [x], after)
  {
    forall k | 0 <= k < |after| ensures IsLatest(data + [x], after[k]) {
      if k != i {
        assert before[k].machine != x.machine;
        LatestExtendOther(data, x, before[k]);
      } else {
        LatestBound(data, before[i], x);
        LatestNew(data, x);
      }
    }
  }

  /** After an event no later than entry i of the same machine, every
      entry is still latest. */
  lemma KeptAreLatest(data: seq<Payload>, x: Payload, before: Latest, i: int)
    requires 0 <= i < |before| && before[i].machine == x.machine && x.timestamp <= before[i].timestamp
    requires DistinctKeys(before) && AllLatest(data, before)
    ensures AllLatest(data + [x], before)
  {
    forall k | 0 <= k < |before| ensures IsLatest(data + [x], before[k]) {
      if k != i {
        assert before[k].machine != x.machine;
        LatestExtendOther(data, x, before[k]);
      } else {
        LatestExtendOlder(data, x, before[k]);
      }
    }
  }

  /** One step keeps every entry latest. */
  lemma StepLatest(data: seq<Payload>, before: Latest, x: Payload)
    requires DistinctKeys(before) && AllLatest(data, before)
    requires forall m :: m in Keys(before) <==> m in MachinesOf(data)
    ensures AllLatest(data + [x], Step(before, x))
  {
    var i := IndexOf(before, x.machine);
    if i == |before| {
      assert x.machine !in Keys(before);
      assert forall j :: 0 <= j < |data| ==> data[j].machine in MachinesOf(data);
      AppendedAreLatest(data, x, before, before + [x]);
    } else if x.timestamp > before[i].timestamp {
      ReplacedAreLatest(data, x, before, i, before[i := x]);
    } else {
      KeptAreLatest(data, x, before, i);
    }
  }

  /** The merge keeps one entry per machine of the batch, with no other keys,
      and each entry is that machine's latest event (first on ties). */
  lemma {:induction false} MergeLatestSpec(data: seq<Payload>)
    ensures forall a, b :: 0 <= a < b < |MergeLatest(data)| ==> MergeLatest(data)[a].machine != MergeLatest(data)[b].machine
    ensures forall m :: m in Keys(MergeLatest(data)) <==> m in MachinesOf(data)
    ensures forall k :: 0 <= k < |MergeLatest(data)| ==> IsLatest(data, MergeLatest(data)[k])
    decreases |data|
  {
    if data != [] {
      var shorter := data[..|data| - 1];
      var x := data[|data| - 1];
      assert data == shorter + [x];
      MergeLatestSpec(shorter);
      var before := MergeLatest(shorter);
      StepDistinct(before, x);
      StepKeySet(shorter, before, x);
      StepLatest(shorter, before, x);
    } else {
      assert Keys([]) == [];
    }
  }

  /** Every stored entry belongs to a machine of the batch. */
  lemma EntryMachineSeen(prefix: seq<Payload>, i: int)
    requires 0 <= i < |MergeLatest(prefix)|
    ensures MergeLatest(prefix)[i].machine in MachinesOf(prefix)
  {
    MergeLatestSpec(prefix);
    assert Keys(MergeLatest(prefix))[i] == MergeLatest(prefix)[i].machine;
  }

  /** The merge and the machine set after one more item of the batch. */
  lemma MergeSnoc(data: seq<Payload>, n: int)
    requires 0 <= n < |data|
    ensures MergeLatest(data[..n + 1]) == Step(MergeLatest(data[..n]), data[n])
    ensures MachinesOf(data[..n + 1]) == MachinesOf(data[..n]) + {data[n].machine}
  {
    assert data[..n + 1][..n] == data[..n];
    assert data[..n + 1] == data[..n] + [data[n]];
    MachinesOfSnoc(data[..n], data[n]);
  }

  /** One turn of the loop keeps its two invariants, in each of its three
      branches. */
  lemma LoopTurn(data: seq<Payload>, n: int, newData: Latest, highlighted: set<string>)
    requires 0 <= n < |data|
    requires newData == MergeLatest(data[..n]) && highlighted == MachinesOf(data[..n])
    ensures var item := data[n];
            var i := IndexOf(newData, item.machine);
            && (i == |newData| ==>
                  newData + [item] == MergeLatest(data[..n + 1]) && highlighted + {item.machine} == MachinesOf(data[..n + 1]))
            && (i < |newData| && item.timestamp > newData[i].timestamp ==>
                  newData[i := item] == MergeLatest(data[..n + 1]) && highlighted + {item.machine} == MachinesOf(data[..n + 1]))
            && (i < |newData| && item.timestamp <= newData[i].timestamp ==>
                  newData == MergeLatest(data[..n + 1]) && highlighted == MachinesOf(data[..n + 1]))
  {
    MergeSnoc(data, n);
    var i := IndexOf(newData, data[n].machine);
    if i < |newData| {
      // A machine already stored was highlighted when it was stored.
      EntryMachineSeen(data[..n], i);
    }
  }

  /** `updateRealTimeData`'s loop: it builds `newData` and the highlight
      set from the batch alone. */
  method UpdateRealTimeData(data: seq<Payload>) returns (newData: Latest, highlighted: set<string>)
    ensures newData == MergeLatest(data)
    ensures highlighted == MachinesOf(data)
  {
    newData := [];
    highlighted := {};
    for n := 0 to |data|
      invariant newData == MergeLatest(data[..n])
      invariant highlighted == MachinesOf(data[..n])
    {
      var item := data[n];
      var machine := item.machine;
      LoopTurn(data, n, newData, highlighted);
      var i := IndexOf(newData, machine);
      if i == |newData| {
        newData := newData + [item];
        highlighted := highlighted + {machine};
      } else if item.timestamp > newData[i].timestamp {
        newData := newData[i := item];
        highlighted := highlighted + {machine};
      }
    }
    assert data[..|data|] == data;
  }

  /** The highlight set is exactly the key set of `newData`. */
  lemma HighlightsAreKeys(data: seq<Payload>)
    ensures forall m :: m in MachinesOf(data) <==> m in Keys(MergeLatest(data))
  {
    MergeLatestSpec(data);
  }

  /** Two events for one machine: the later one wins; on equal timestamps the
      first one stays. */
  lemma TwoEvents(a: Payload, b: Payload)
    requires a.machine == b.machine
    ensures b.timestamp > a.timestamp ==> MergeLatest([a, b]) == [b]
    ensures b.timestamp <= a.timestamp ==> MergeLatest([a, b]) == [a]
  {
    assert [a, b][..1] == [a];
    assert [a][..0] == [];
    assert MergeLatest([a]) == [a];
    assert IndexOf([a], b.machine) == 0;
  }

  /** The `averages` state. */
  datatype Averages = Averages(oee: real, cycleTime: real, performance: real)

  const InitialAverages: Averages := Averages(0.0, 0.0, 0.0)

  function Oees(entries: Latest): seq<real>
  {
    seq(|entries|, k requires 0 <= k < |entries| => entries[k].oee)
  }

  function CycleTimes(entries: Latest): seq<real>
  {
    seq(|entries|, k requires 0 <= k < |entries| => entries[k].cycleTime)
  }

  function Performances(entries: Latest): seq<real>
  {
    seq(|entries|, k requires 0 <= k < |entries| => entries[k].performance)
  }

  /** The averages after a batch: with at least one machine, the means over
      the machines of OEE and performance times 100 and of cycle time; with
      none, the previous averages. */
  function StreamAverages(previous: Averages, entries: Latest): (r: Averages)
    ensures |entries| == 0 ==> r == previous
    ensures |entries| > 0 ==> r == Averages(100.0 * Mean(Oees(entries)), Mean(CycleTimes(entries)),
                                            100.0 * Mean(Performances(entries)))
  {
    var machineCount := |entries|;
    if machineCount > 0 then
      Averages((Sum(Oees(entries)) / machineCount as real) * 100.0,
               Sum(CycleTimes(entries)) / machineCount as real,
               (Sum(Performances(entries)) / machineCount as real) * 100.0)
    else previous
  }

  /** With every OEE and performance a fraction in [0, 1], the displayed
      percentages lie in [0, 100]. */
  lemma AveragesArePercentages(previous: Averages, entries: Latest)
    requires |entries| > 0
    requires forall k :: 0 <= k < |entries| ==> 0.0 <= entries[k].oee <= 1.0 && 0.0 <= entries[k].performance <= 1.0
    ensures 0.0 <= StreamAverages(previous, entries).oee <= 100.0
    ensures 0.0 <= StreamAverages(previous, entries).performance <= 100.0
  {
    MeanBounds(Oees(entries), 0.0, 1.0);
    MeanBounds(Performances(entries), 0.0, 1.0);
  }

  /** The component's state. */
  datatype RealTimeState = RealTimeState(realTimeData: Latest, highlightedFields: set<string>, averages: Averages)

  const InitialRealTimeState: RealTimeState := RealTimeState([], {}, InitialAverages)

  /** What one poll does to the state: a `success` body with a `data` array
      replaces the table and the highlights and recomputes the averages;
      anything else changes nothing. */
  function Apply(state: RealTimeState, response: FetchResult<Payload>): RealTimeState
  {
    if response.Body? && response.status == "success" && response.data.Some? then
      var entries := MergeLatest(response.data.value);
      RealTimeState(entries, MachinesOf(response.data.value), StreamAverages(state.averages, entries))
    else state
  }

  /** One poll of the stream endpoint. */
  method OnKafkaResponse(state: RealTimeState, response: FetchResult<Payload>) returns (next: RealTimeState)
    ensures next == Apply(state, response)
  {
    if response.Body? && response.status == "success" && response.data.Some? {
      var newData, highlighted := UpdateRealTimeData(response.data.value);
      next := RealTimeState(newData, highlighted, StreamAverages(state.averages, newData));
    } else {
      next := state;
    }
  }

  /** The table and highlights do not depend on the previous state, so the
      same response applied twice gives the same state as applied once. */
  lemma ApplyIdempotent(s: RealTimeState, s': RealTimeState, response: FetchResult<Payload>)
    ensures Apply(Apply(s, response), response) == Apply(s, response)
    ensures response.Body? && response.status == "success" && response.data.Some? ==>
              Apply(s, response).realTimeData == Apply(s', response).realTimeData &&
              Apply(s, response).highlightedFields == Apply(s', response).highlightedFields
  {
    if response.Body? && response.status == "success" && response.data.Some? {
      var entries := MergeLatest(response.data.value);
      if |entries| == 0 {
        assert StreamAverages(Apply(s, response).averages, entries) == Apply(s, response).averages;
      }
    }
  }

  /** The highlight timer's effect: all highlights cleared. */
  function ClearHighlights(state: RealTimeState): (r: RealTimeState)
    ensures r.highlightedFields == {}
    ensures r.realTimeData == state.realTimeData && r.averages == state.averages
  {
    state.(highlightedFields := {})
  }
}
