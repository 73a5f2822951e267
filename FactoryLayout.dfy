/** The digital-twin view: the batch rows are grouped into prediction lists
    per equipment key, fifteen status lights are registered, and each light
    is coloured by the tier of its list while the legend counts the lights
    per tier. The three.js scene itself is not modelled. */
module FactoryLayout {
  import opened Collections
  import opened Plant
  import opened Tiering

  /** The index of the first space of `s`, or `|s|` when there is none. */
  function FirstSpace(s: string): (i: nat)
    ensures i <= |s|
    ensures i < |s| ==> s[i] == ' '
    ensures forall j :: 0 <= j < i ==> s[j] != ' '
    decreases |s|
  {
    if s == [] then 0
    else if s[0] == ' ' then 0
    else 1 + FirstSpace(s[1..])
  }

  /** `s.replace(' ', '_')` with a string pattern: only the first space is
      replaced, every other character is kept. */
  function ReplaceFirstSpace(s: string): (r: string)
    ensures |r| == |s|
    ensures forall k :: 0 <= k < |s| ==> r[k] == if k == FirstSpace(s) then '_' else s[k]
    decreases |s|
  {
    if s == [] then []
    else if s[0] == ' ' then "_" + s[1..]
    else [s[0]] + ReplaceFirstSpace(s[1..])
  }

  /** A text without a space is its own key. */
  lemma NoSpaceUnchanged(s: string)
    requires ' ' !in s
    ensures ReplaceFirstSpace(s) == s
  {
  }

  /** The grouping key of a row: its equipment text with the first space
      replaced. */
  function GroupKey(row: Reading): (key: string)
    ensures |key| == |row.equipment|
    ensures forall k :: 0 <= k < |key| ==> key[k] == row.equipment[k] || (key[k] == '_' && row.equipment[k] == ' ')
  {
    ReplaceFirstSpace(row.equipment)
  }

  /** The rows filed under `key`, in feed order. */
  function KeyRows(data: seq<Reading>, key: string): seq<Reading>
  {
    Filter(data, (r: Reading) => GroupKey(r) == key)
  }

  lemma KeyRowsSnoc(data: seq<Reading>, row: Reading, key: string)
    ensures KeyRows(data + [row], key) == KeyRows(data, key) + (if GroupKey(row) == key then [row] else [])
  {
    FilterSnoc(data, row, (r: Reading) => GroupKey(r) == key);
  }

  /** The keys that occur in the rows. */
  function KeysOf(data: seq<Reading>): set<string>
  {
    set r | r in data :: GroupKey(r)
  }

  lemma KeysOfSnoc(data: seq<Reading>, row: Reading)
    ensures KeysOf(data + [row]) == KeysOf(data) + {GroupKey(row)}
  {
    forall key | key in KeysOf(data + [row]) ensures key in KeysOf(data) + {GroupKey(row)} {
      var r :| r in data + [row] && GroupKey(r) == key;
      if r != row {
        assert r in data;
      }
    }
    forall key | key in KeysOf(data) ensures key in KeysOf(data + [row]) {
      var r :| r in data && GroupKey(r) == key;
      assert r in data + [row];
    }
    assert row in data + [row];
  }

  /** The accumulator of the `reduce` after the rows `prefix`. */
  function Grouped(prefix: seq<Reading>): map<string, seq<int>>
    decreases |prefix|
  {
    if prefix == [] then map[]
    else
      var before := Grouped(prefix[..|prefix| - 1]);
      var row := prefix[|prefix| - 1];
      var key := GroupKey(row);
      var base := if key in before then before else before[key := []];
      base[key := base[key] + [row.prediction]]
  }

  /** The number of predictions held by a group map, over all keys. */
  ghost function TotalLength(m: map<string, seq<int>>): nat
    decreases |m.Keys|
  {
    if m.Keys == {} then 0
    else
      var k :| k in m;
      |m[k]| + TotalLength(m - {k})
  }

  /** The total does not depend on which key is taken out first. */
  lemma {:induction false} TotalLengthRemove(m: map<string, seq<int>>, k: string)
    requires k in m
    ensures TotalLength(m) == |m[k]| + TotalLength(m - {k})
    decreases |m.Keys|
  {
    var j :| j in m && TotalLength(m) == |m[j]| + TotalLength(m - {j});
    if j != k {
      assert |(m - {j}).Keys| < |m.Keys| by {
        assert (m - {j}).Keys < m.Keys;
      }
      assert |(m - {k}).Keys| < |m.Keys| by {
        assert (m - {k}).Keys < m.Keys;
      }
      TotalLengthRemove(m - {j}, k);
      TotalLengthRemove(m - {k}, j);
      assert m - {j} - {k} == m - {k} - {j};
    }
  }

  /** Replacing the list under one key changes the total by the difference. */
  lemma TotalLengthUpdate(m: map<string, seq<int>>, k: string, v: seq<int>)
    ensures TotalLength(m[k := v]) + (if k in m then |m[k]| else 0) == TotalLength(m) + |v|
  {
    TotalLengthRemove(m[k := v], k);
    assert m[k := v] - {k} == m - {k};
    if k in m {
      TotalLengthRemove(m, k);
    } else {
      assert m - {k} == m;
    }
  }

  /** The grouping has exactly the rows' keys. */
  lemma {:induction false} GroupedKeys(prefix: seq<Reading>)
    ensures Grouped(prefix).Keys == KeysOf(prefix)
    decreases |prefix|
  {
    if prefix != [] {
      var shorter := prefix[..|prefix| - 1];
      var row := prefix[|prefix| - 1];
      assert prefix == shorter + [row];
      GroupedKeys(shorter);
      KeysOfSnoc(shorter, row);
    }
  }

  /** Each list is the predictions of that key's rows, in feed order. */
  lemma {:induction false} GroupedLists(prefix: seq<Reading>)
    ensures forall key :: key in Grouped(prefix) ==> Grouped(prefix)[key] == Predictions(KeyRows(prefix, key))
    decreases |prefix|
  {
    if prefix != [] {
      var shorter := prefix[..|prefix| - 1];
      var row := prefix[|prefix| - 1];
      var key := GroupKey(row);
      assert prefix == shorter + [row];
      GroupedLists(shorter);
      forall other | other in Grouped(prefix)
        ensures Grouped(prefix)[other] == Predictions(KeyRows(prefix, other))
      {
        KeyRowsSnoc(shorter, row, other);
        if other == key {
          PredictionsSnoc(KeyRows(shorter, key), row);
          if key !in Grouped(shorter) {
            GroupedKeys(shorter);
            FilterSpec(shorter, (r: Reading) => GroupKey(r) == key);
            assert KeyRows(shorter, key) == [];
          }
        } else {
          assert KeyRows(prefix, other) == KeyRows(shorter, other);
        }
      }
    }
  }

  /** Together the lists hold one prediction per row. */
  lemma {:induction false} GroupedTotal(prefix: seq<Reading>)
    ensures TotalLength(Grouped(prefix)) == |prefix|
    decreases |prefix|
  {
    if prefix != [] {
      var shorter := prefix[..|prefix| - 1];
      var row := prefix[|prefix| - 1];
      var key := GroupKey(row);
      GroupedTotal(shorter);
      var before := Grouped(shorter);
      var base := if key in before then before else before[key := []];
      TotalLengthUpdate(base, key, base[key] + [row.prediction]);
      if key !in before {
        TotalLengthUpdate(before, key, []);
      }
    }
  }

  /** The `reduce` in `fetchData` that builds `parsedData`. */
  method GroupPredictions(data: seq<Reading>) returns (parsed: map<string, seq<int>>)
    ensures parsed.Keys == KeysOf(data)
    ensures forall key :: key in parsed ==> parsed[key] == Predictions(KeyRows(data, key))
    ensures TotalLength(parsed) == |data|
  {
    parsed := map[];
    for n := 0 to |data|
      invariant parsed == Grouped(data[..n])
    {
      var item := data[n];
      var key := ReplaceFirstSpace(item.equipment);
      assert data[..n + 1][..n] == data[..n];
      if key !in parsed {
        parsed := parsed[key := []];
      }
      parsed := parsed[key := parsed[key] + [item.prediction]];
    }
    assert data[..|data|] == data;
    GroupedKeys(data);
    GroupedLists(data);
    GroupedTotal(data);
  }

  const Grey: int := 0x808080
  const Red: int := 0xff0000
  const Orange: int := 0xffa500
  const Green: int := 0x00ff00

  /** Where a light was placed: at its table position when the model has an
      object of that name, otherwise at the scene's default position. */
  datatype Placement = AtPosition(x: real, y: real, z: real) | AtDefault

  datatype Light = Light(placement: Placement, colour: int)

  /** The `positions` table, in enumeration order. */
  const LightPositions: seq<(real, real, real)> := [
    (-30.0, 5.0, -8.0), (-30.0, 5.0, -5.0), (-32.5, 7.0, -6.0),
    (-26.0, 5.0, -10.0), (-22.5, 5.0, -9.0), (-15.5, 6.0, -9.0),
    (-4.5, 4.0, -7.0), (-1.0, 3.0, -7.0), (1.0, 4.0, -7.0),
    (12.0, 18.0, -12.0), (15.0, 18.0, -12.0), (13.0, 12.0, -12.0),
    (27.0, 10.0, -4.0), (27.0, 10.0, -8.0), (34.0, 5.0, -8.0)]

  /** The placement of the k-th light given the names of the objects the
      loaded model contains. */
  function PlacementAt(found: set<string>, k: int): Placement
    requires 0 <= k < NumEquipment
  {
    if EquipmentNames()[k] in found then
      var p := LightPositions[k];
      AtPosition(p.0, p.1, p.2)
    else AtDefault
  }

  /** The names of the first n lights of the enumeration. */
  function Registered(n: int): set<string>
    requires 0 <= n <= NumEquipment
  {
    set k | 0 <= k < n :: EquipmentNames()[k]
  }

  lemma RegisteredSnoc(n: int)
    requires 0 <= n < NumEquipment
    ensures Registered(n + 1) == Registered(n) + {EquipmentNames()[n]}
  {
  }

  /** All fifteen registered names are the fifteen equipment names. */
  lemma RegisteredAll()
    ensures Registered(NumEquipment) == set name | name in EquipmentNames()
    ensures |Registered(NumEquipment)| == NumEquipment
  {
    EquipmentNamesExact();
    assert Registered(NumEquipment) == set name | name in EquipmentNames();
  }

  /** The registry after the first n lights of the enumeration. */
  function LightsUpTo(found: set<string>, n: int): map<string, Light>
    requires 0 <= n <= NumEquipment
  {
    if n == 0 then map[]
    else LightsUpTo(found, n - 1)[EquipmentNames()[n - 1] := Light(PlacementAt(found, n - 1), Grey)]
  }

  /** The first n lights are registered, each grey at its placement. */
  lemma LightsUpToSpec(found: set<string>, n: int)
    requires 0 <= n <= NumEquipment
    ensures LightsUpTo(found, n).Keys == Registered(n)
    ensures forall k :: 0 <= k < n ==> LightsUpTo(found, n)[EquipmentNames()[k]] == Light(PlacementAt(found, k), Grey)
  {
    LightsUpToKeys(found, n);
    LightsUpToValues(found, n);
  }

  lemma {:induction false} LightsUpToKeys(found: set<string>, n: int)
    requires 0 <= n <= NumEquipment
    ensures LightsUpTo(found, n).Keys == Registered(n)
  {
    if n > 0 {
      LightsUpToKeys(found, n - 1);
      RegisteredSnoc(n - 1);
    }
  }

  lemma {:induction false} LightsUpToValues(found: set<string>, n: int)
    requires 0 <= n <= NumEquipment
    ensures forall k :: 0 <= k < n ==> EquipmentNames()[k] in LightsUpTo(found, n)
    ensures forall k :: 0 <= k < n ==> LightsUpTo(found, n)[EquipmentNames()[k]] == Light(PlacementAt(found, k), Grey)
  {
    if n > 0 {
      LightsUpToValues(found, n - 1);
      forall k | 0 <= k < n - 1
        ensures LightsUpTo(found, n)[EquipmentNames()[k]] == Light(PlacementAt(found, k), Grey)
      {
        EquipmentNamesDistinct(k, n - 1);
      }
    }
  }

  /** Registering light (i, j) extends the registry of the lights before it. */
  lemma LightsUpToNext(found: set<string>, i: int, j: int)
    requires 1 <= i <= NumMachines && 1 <= j <= EquipmentPerMachine
    ensures var k := Position(i, j);
            LightsUpTo(found, k + 1) == LightsUpTo(found, k)[EquipmentName(i, j) := Light(PlacementAt(found, k), Grey)]
    ensures var k := Position(i, j);
            PlacementAt(found, k) ==
              if EquipmentName(i, j) in found then AtPosition(LightPositions[k].0, LightPositions[k].1, LightPositions[k].2)
              else AtDefault
  {
    EquipmentNamesAt(i, j);
  }

  /** The light-registration loops run once the model has loaded; `found` is
      the set of object names `getObjectByName` finds. Every light starts
      grey and is registered whether or not its object was found. */
  method RegisterStatusLights(found: set<string>) returns (lights: map<string, Light>)
    ensures lights.Keys == Registered(NumEquipment)
    ensures forall k :: 0 <= k < NumEquipment ==> lights[EquipmentNames()[k]] == Light(PlacementAt(found, k), Grey)
  {
    lights := map[];
    for i := 1 to NumMachines + 1
      invariant lights == LightsUpTo(found, EquipmentPerMachine * (i - 1))
    {
      for j := 1 to EquipmentPerMachine + 1
        invariant lights == LightsUpTo(found, EquipmentPerMachine * (i - 1) + (j - 1))
      {
        var lightName := EquipmentName(i, j);
        var k := Position(i, j);
        LightsUpToNext(found, i, j);
        if lightName in found {
          var p := LightPositions[k];
          lights := lights[lightName := Light(AtPosition(p.0, p.1, p.2), Grey)];
        } else {
          lights := lights[lightName := Light(AtDefault, Grey)];
        }
      }
    }
    LightsUpToSpec(found, NumEquipment);
  }

  /** The tier of a light, or None when `statusData` has no list for it or
      an empty one. */
  function LightTier(statusData: map<string, seq<int>>, name: string): (tier: Option<Tier>)
    ensures tier.Some? <==> name in statusData && |statusData[name]| > 0
  {
    if name in statusData && |statusData[name]| > 0 then
      var statuses := statusData[name];
      Some(TierOf(|Filter(statuses, (s: int) => s == 1)|, |statuses|))
    else None
  }

  function ColourOf(tier: Option<Tier>): int
  {
    match tier
    case None => Grey
    case Some(Critical) => Red
    case Some(Warning) => Orange
    case Some(Normal) => Green
  }

  predicate HasTier(statusData: map<string, seq<int>>, name: string, t: Tier)
  {
    LightTier(statusData, name) == Some(t)
  }

  predicate HasData(statusData: map<string, seq<int>>, name: string)
  {
    LightTier(statusData, name).Some?
  }

  /** The legend's `statusCounts`. */
  datatype StatusCounts = StatusCounts(normal: nat, warning: nat, critical: nat)

  /** The tallies over the lights `names`. */
  function CountsOf(statusData: map<string, seq<int>>, names: seq<string>): StatusCounts
  {
    StatusCounts(Count(names, (n: string) => HasTier(statusData, n, Normal)),
                 Count(names, (n: string) => HasTier(statusData, n, Warning)),
                 Count(names, (n: string) => HasTier(statusData, n, Critical)))
  }

  /** The tallies after one more light of the given tier. */
  function Tally(c: StatusCounts, tier: Option<Tier>): StatusCounts
  {
    match tier
    case None => c
    case Some(Normal) => c.(normal := c.normal + 1)
    case Some(Warning) => c.(warning := c.warning + 1)
    case Some(Critical) => c.(critical := c.critical + 1)
  }

  lemma CountsSnoc(statusData: map<string, seq<int>>, names: seq<string>, name: string)
    ensures CountsOf(statusData, names + [name]) == Tally(CountsOf(statusData, names), LightTier(statusData, name))
  {
    FilterSnoc(names, name, (n: string) => HasTier(statusData, n, Normal));
    FilterSnoc(names, name, (n: string) => HasTier(statusData, n, Warning));
    FilterSnoc(names, name, (n: string) => HasTier(statusData, n, Critical));
  }

  /** The colours after the first lights of `prefix` have been visited. */
  function ColoursUpTo(statusData: map<string, seq<int>>, prefix: seq<string>): map<string, int>
    decreases |prefix|
  {
    if prefix == [] then map[]
    else
      var name := prefix[|prefix| - 1];
      ColoursUpTo(statusData, prefix[..|prefix| - 1])[name := ColourOf(LightTier(statusData, name))]
  }

  /** Every visited light is coloured by its tier, and no other. */
  lemma {:induction false} ColoursUpToSpec(statusData: map<string, seq<int>>, names: seq<string>)
    ensures ColoursUpTo(statusData, names).Keys == set name | name in names
    ensures forall name :: name in ColoursUpTo(statusData, names) ==>
              ColoursUpTo(statusData, names)[name] == ColourOf(LightTier(statusData, name))
    decreases |names|
  {
    if names != [] {
      var shorter := names[..|names| - 1];
      ColoursUpToSpec(statusData, shorter);
      assert names == shorter + [names[|names| - 1]];
      assert (set name | name in names) == (set name | name in shorter) + {names[|names| - 1]};
    }
  }

  /** One visited light: its colour and the tallies it adds to. */
  lemma VisitSnoc(statusData: map<string, seq<int>>, names: seq<string>, n: int)
    requires 0 <= n < |names|
    ensures ColoursUpTo(statusData, names[..n + 1]) ==
              ColoursUpTo(statusData, names[..n])[names[n] := ColourOf(LightTier(statusData, names[n]))]
    ensures CountsOf(statusData, names[..n + 1]) == Tally(CountsOf(statusData, names[..n]), LightTier(statusData, names[n]))
  {
    assert names[..n + 1][..n] == names[..n];
    assert names[..n + 1] == names[..n] + [names[n]];
    CountsSnoc(statusData, names[..n], names[n]);
  }

  /** The effect that recolours every registered light, in `Object.keys`
      order `names`, and tallies the tiers. */
  method UpdateStatusLights(names: seq<string>, statusData: map<string, seq<int>>)
    returns (colours: map<string, int>, counts: StatusCounts)
    ensures colours.Keys == set name | name in names
    ensures forall name :: name in colours ==> colours[name] == ColourOf(LightTier(statusData, name))
    ensures counts == CountsOf(statusData, names)
  {
    var normalCount, warningCount, criticalCount := 0, 0, 0;
    colours := map[];
    for n := 0 to |names|
      invariant colours == ColoursUpTo(statusData, names[..n])
      invariant StatusCounts(normalCount, warningCount, criticalCount) == CountsOf(statusData, names[..n])
    {
      var name := names[n];
      VisitSnoc(statusData, names, n);
      if name in statusData && |statusData[name]| > 0 {
        var statuses := statusData[name];
        var count := |statuses|;
        var criticalPredCount := |Filter(statuses, (s: int) => s == 1)|;
        if 100 * criticalPredCount > 50 * count {
          colours := colours[name := Red];
          criticalCount := criticalCount + 1;
        } else if 100 * criticalPredCount > 30 * count {
          colours := colours[name := Orange];
          warningCount := warningCount + 1;
        } else {
          colours := colours[name := Green];
          normalCount := normalCount + 1;
        }
      } else {
        colours := colours[name := Grey];
      }
    }
    assert names[..|names|] == names;
    ColoursUpToSpec(statusData, names);
    counts := StatusCounts(normalCount, warningCount, criticalCount);
  }

  /** Every light with data counts toward exactly one tier, and a light
      without data toward none. */
  lemma {:induction false} CountsPartition(statusData: map<string, seq<int>>, names: seq<string>)
    ensures var c := CountsOf(statusData, names);
            c.normal + c.warning + c.critical == Count(names, (n: string) => HasData(statusData, n)) <= |names|
    decreases |names|
  {
    if names != [] {
      CountsPartition(statusData, names[..|names| - 1]);
    }
  }

  /** With the fifteen registered lights the tallies add up to at most 15. */
  lemma CountsAtMostFifteen(statusData: map<string, seq<int>>)
    ensures var c := CountsOf(statusData, EquipmentNames());
            c.normal + c.warning + c.critical <= NumEquipment
  {
    CountsPartition(statusData, EquipmentNames());
  }

  /** The blink test of the 500 ms timer. */
  predicate Blinks(statusData: map<string, seq<int>>, name: string): (blinking: bool)
    ensures blinking ==> name in statusData && |statusData[name]| > 0
  {
    name in statusData && |statusData[name]| > 0 &&
    var statuses := statusData[name];
    var criticalPredCount := |Filter(statuses, (s: int) => s == 1)|;
    AboveCritical(criticalPredCount, |statuses|) || AboveWarning(criticalPredCount, |statuses|)
  }

  /** A light blinks exactly when it is orange or red. */
  lemma BlinksExactly(statusData: map<string, seq<int>>, name: string)
    ensures Blinks(statusData, name) <==> LightTier(statusData, name) in {Some(Warning), Some(Critical)}
    ensures Blinks(statusData, name) <==> ColourOf(LightTier(statusData, name)) in {Orange, Red}
  {
    if name in statusData && |statusData[name]| > 0 {
      var statuses := statusData[name];
      BlinkIsWarningOrCritical(|Filter(statuses, (s: int) => s == 1)|, |statuses|);
    }
  }

  /** The component's data state: the displayed `statusData` and the map
      cached in browser storage, if any. */
  datatype LayoutState = LayoutState(statusData: map<string, seq<int>>, cache: Option<map<string, seq<int>>>)

  /** The mount effect: a cached map is displayed and no initial fetch is
      made; without one the display starts empty and an initial fetch is
      made (the second component). The 5-second polling starts in both
      cases. */
  function Startup(cache: Option<map<string, seq<int>>>): (r: (LayoutState, bool))
    ensures cache.Some? ==> r.0.statusData == cache.value && !r.1
    ensures cache.None? ==> r.0.statusData == map[] && r.1
    ensures r.0.cache == cache
  {
    match cache
    case Some(saved) => (LayoutState(saved, cache), false)
    case None => (LayoutState(map[], cache), true)
  }

  /** One response to `fetchData`: a body with a `data` array is grouped,
      displayed and cached; anything else changes nothing. */
  method OnFetch(state: LayoutState, response: FetchResult<Reading>) returns (next: LayoutState)
    ensures response.Body? && response.data.Some? ==>
              && next.cache == Some(next.statusData)
              && next.statusData.Keys == KeysOf(response.data.value)
              && (forall key :: key in next.statusData ==>
                    next.statusData[key] == Predictions(KeyRows(response.data.value, key)))
    ensures !(response.Body? && response.data.Some?) ==> next == state
  {
    if response.Body? && response.data.Some? {
      var parsedData := GroupPredictions(response.data.value);
      next := LayoutState(parsedData, Some(parsedData));
    } else {
      next := state;
    }
  }
}
