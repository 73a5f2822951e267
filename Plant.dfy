/** The plant the dashboard monitors and the records its two feeds deliver:
    five machines `Machine_1` .. `Machine_5`, each with equipment
    `Machine_i_Equipment_1` .. `Machine_i_Equipment_3`. */
module Plant {
  import opened Collections

  const NumMachines: nat := 5
  const EquipmentPerMachine: nat := 3
  const NumEquipment: nat := 15

  /** The decimal digit `d` as a character. */
  function Digit(d: int): char
    requires 0 <= d <= 9
  {
    (('0' as int) + d) as char
  }

  /** The template literal `Machine_${i}`. */
  function MachineName(i: int): (name: string)
    requires 1 <= i <= NumMachines
    ensures |name| == 9 && name[8] == Digit(i)
  {
    "Machine_" + [Digit(i)]
  }

  /** The template literal `Machine_${i}_Equipment_${j}`. */
  function EquipmentName(i: int, j: int): (name: string)
    requires 1 <= i <= NumMachines && 1 <= j <= EquipmentPerMachine
    ensures |name| == 21 && name[8] == Digit(i) && name[20] == Digit(j)
    ensures name[..9] == MachineName(i)
  {
    MachineName(i) + "_Equipment_" + [Digit(j)]
  }

  lemma MachineNameInjective(i: int, i': int)
    requires 1 <= i <= NumMachines && 1 <= i' <= NumMachines
    ensures MachineName(i) == MachineName(i') <==> i == i'
  {
    if MachineName(i) == MachineName(i') {
      assert MachineName(i)[8] == MachineName(i')[8];
    }
  }

  lemma EquipmentNameInjective(i: int, j: int, i': int, j': int)
    requires 1 <= i <= NumMachines && 1 <= j <= EquipmentPerMachine
    requires 1 <= i' <= NumMachines && 1 <= j' <= EquipmentPerMachine
    ensures EquipmentName(i, j) == EquipmentName(i', j') <==> i == i' && j == j'
  {
    if EquipmentName(i, j) == EquipmentName(i', j') {
      assert EquipmentName(i, j)[8] == EquipmentName(i', j')[8];
      assert EquipmentName(i, j)[20] == EquipmentName(i', j')[20];
    }
  }

  /** Machine and equipment index of the k-th equipment in the order the
      components enumerate them (`for i in 1..5 { for j in 1..3 }`). */
  function MachineIndex(k: int): int
    requires 0 <= k < NumEquipment
  {
    k / EquipmentPerMachine + 1
  }

  function EquipmentIndex(k: int): int
    requires 0 <= k < NumEquipment
  {
    k % EquipmentPerMachine + 1
  }

  /** The position of equipment (i, j) in that enumeration. */
  function Position(i: int, j: int): (k: int)
    requires 1 <= i <= NumMachines && 1 <= j <= EquipmentPerMachine
    ensures 0 <= k < NumEquipment && MachineIndex(k) == i && EquipmentIndex(k) == j
  {
    EquipmentPerMachine * (i - 1) + (j - 1)
  }

  /** `['Machine_1', ..., 'Machine_5']`. */
  function MachineNames(): (names: seq<string>)
    ensures |names| == NumMachines
  {
    seq(NumMachines, k requires 0 <= k < NumMachines => MachineName(k + 1))
  }

  /** The fifteen equipment names, machine by machine. */
  function EquipmentNames(): (names: seq<string>)
    ensures |names| == NumEquipment
  {
    seq(NumEquipment, k requires 0 <= k < NumEquipment => EquipmentName(MachineIndex(k), EquipmentIndex(k)))
  }

  lemma EquipmentNamesAt(i: int, j: int)
    requires 1 <= i <= NumMachines && 1 <= j <= EquipmentPerMachine
    ensures EquipmentNames()[Position(i, j)] == EquipmentName(i, j)
  {
  }

  lemma EquipmentNamesDistinct(k: int, k': int)
    requires 0 <= k < k' < NumEquipment
    ensures EquipmentNames()[k] != EquipmentNames()[k']
  {
    EquipmentNameInjective(MachineIndex(k), EquipmentIndex(k), MachineIndex(k'), EquipmentIndex(k'));
  }

  /** The fifteen names are pairwise distinct, and they are exactly the names
      `Machine_i_Equipment_j` for i in 1..5 and j in 1..3. */
  lemma EquipmentNamesExact()
    ensures |EquipmentNames()| == NumEquipment
    ensures forall k, k' :: 0 <= k < k' < NumEquipment ==> EquipmentNames()[k] != EquipmentNames()[k']
    ensures forall name :: name in EquipmentNames() <==>
              exists i, j :: 1 <= i <= NumMachines && 1 <= j <= EquipmentPerMachine && name == EquipmentName(i, j)
    ensures |set name | name in EquipmentNames()| == NumEquipment
  {
    forall k, k' | 0 <= k < k' < NumEquipment
      ensures EquipmentNames()[k] != EquipmentNames()[k']
    {
      EquipmentNamesDistinct(k, k');
    }
    forall name | name in EquipmentNames()
      ensures exists i, j :: 1 <= i <= NumMachines && 1 <= j <= EquipmentPerMachine && name == EquipmentName(i, j)
    {
      var k :| 0 <= k < NumEquipment && EquipmentNames()[k] == name;
      assert name == EquipmentName(MachineIndex(k), EquipmentIndex(k));
    }
    forall i, j | 1 <= i <= NumMachines && 1 <= j <= EquipmentPerMachine
      ensures EquipmentName(i, j) in EquipmentNames()
    {
      EquipmentNamesAt(i, j);
    }
    DistinctCard(EquipmentNames());
  }

  /** A sequence without repetitions has as many distinct elements as entries. */
  lemma {:induction false} DistinctCard<T>(s: seq<T>)
    requires forall k, k' :: 0 <= k < k' < |s| ==> s[k] != s[k']
    ensures |set x | x in s| == |s|
    decreases |s|
  {
    if s != [] {
      var s' := s[..|s| - 1];
      DistinctCard(s');
      assert (set x | x in s) == (set x | x in s') + {s[|s| - 1]};
      assert s[|s| - 1] !in s';
    }
  }

  /** One row of the batch (relational) feed, already decoded from JSON. A row
      without an equipment field carries the text `undefined`, as the
      components' template literals render it. */
  datatype Reading = Reading(
    machine: string,
    equipment: string,
    operationalStatus: string,
    prediction: int,
    vibration: real,
    temperature: real,
    noiseFrequency: real,
    timestamp: int)

  /** The `prediction` field of each row, in order. */
  function Predictions(rows: seq<Reading>): seq<int>
  {
    seq(|rows|, k requires 0 <= k < |rows| => rows[k].prediction)
  }

  lemma PredictionsSnoc(rows: seq<Reading>, row: Reading)
    ensures Predictions(rows + [row]) == Predictions(rows) + [row.prediction]
  {
  }

  /** The `payload` of one stream (message-queue) message, already decoded. */
  datatype Payload = Payload(
    machine: string,
    equipment: string,
    operationalStatus: string,
    goodCount: real,
    cycleTime: real,
    performance: real,
    oee: real,
    temperature: real,
    classification: int,
    timestamp: int)

  /** What one `fetch(...).then(r => r.json())` delivers: either the promise
      rejects (network error, malformed JSON, a message that does not decode),
      or a body with a `status` text and a `data` field that is either an array
      of records or missing (`None`). */
  datatype FetchResult<T> =
    | FetchFailed
    | Body(status: string, data: Option<seq<T>>)
}
