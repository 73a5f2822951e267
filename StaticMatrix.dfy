/** The environment trend chart of the dashboard: each new set of
    per-machine averages is reduced to one point (the means across machines
    plus a random fluctuation), appended to the chart history unless all
    three values are zero, and the history is shown narrowed by one
    start/end filter and a relative display window. */
module StaticMatrix {
  import opened Collections
  import opened TimeWindows
  import D = Dashboard
  import OE = OperatingEnvironment

  /** One chart point; `time` is the instant the point was made. */
  datatype ChartPoint = ChartPoint(time: int, vibration: real, temperature: real, noiseFrequency: real)

  /** The three fluctuations `(Math.random() - 0.5) * k` added to the means,
      with k = 0.5, 2 and 5. */
  datatype Noise = Noise(vibration: real, temperature: real, noiseFrequency: real)

  function Vibrations(values: seq<D.MachineAverages>): seq<real>
  {
    seq(|values|, k requires 0 <= k < |values| => values[k].vibration)
  }

  function Temperatures(values: seq<D.MachineAverages>): seq<real>
  {
    seq(|values|, k requires 0 <= k < |values| => values[k].temperature)
  }

  function NoiseFrequencies(values: seq<D.MachineAverages>): seq<real>
  {
    seq(|values|, k requires 0 <= k < |values| => values[k].noiseFrequency)
  }

  /** The `averages` object once the pass is done: all zero when there is no
      machine, otherwise the means across the machines plus the noise. */
  function Averaged(values: seq<D.MachineAverages>, noise: Noise): D.MachineAverages
  {
    if |values| == 0 then D.MachineAverages(0.0, 0.0, 0.0)
    else D.MachineAverages(Mean(Vibrations(values)) + noise.vibration,
                           Mean(Temperatures(values)) + noise.temperature,
                           Mean(NoiseFrequencies(values)) + noise.noiseFrequency)
  }

  predicate NonZero(a: D.MachineAverages)
  {
    a.vibration != 0.0 || a.temperature != 0.0 || a.noiseFrequency != 0.0
  }

  /** `newData`: the points the pass produces. There is at most one; with no
      machine there is none, whatever the noise; otherwise there is one
      exactly when some noisy mean is non-zero, and it carries those means. */
  function NewPoints(values: seq<D.MachineAverages>, noise: Noise, now: int): (points: seq<ChartPoint>)
    ensures |points| <= 1
    ensures |values| == 0 ==> points == []
    ensures |values| > 0 ==>
              (points != [] <==>
                 || Mean(Vibrations(values)) + noise.vibration != 0.0
                 || Mean(Temperatures(values)) + noise.temperature != 0.0
                 || Mean(NoiseFrequencies(values)) + noise.noiseFrequency != 0.0)
    ensures points != [] ==>
              && points[0].time == now
              && points[0].vibration == Mean(Vibrations(values)) + noise.vibration
              && points[0].temperature == Mean(Temperatures(values)) + noise.temperature
              && points[0].noiseFrequency == Mean(NoiseFrequencies(values)) + noise.noiseFrequency
  {
    var a := Averaged(values, noise);
    if NonZero(a) then [ChartPoint(now, a.vibration, a.temperature, a.noiseFrequency)] else []
  }

  /** The three running sums after one more machine. */
  lemma SumsSnoc(values: seq<D.MachineAverages>, n: int)
    requires 0 <= n < |values|
    ensures Sum(Vibrations(values[..n + 1])) == Sum(Vibrations(values[..n])) + values[n].vibration
    ensures Sum(Temperatures(values[..n + 1])) == Sum(Temperatures(values[..n])) + values[n].temperature
    ensures Sum(NoiseFrequencies(values[..n + 1])) == Sum(NoiseFrequencies(values[..n])) + values[n].noiseFrequency
  {
    assert Vibrations(values[..n + 1]) == Vibrations(values[..n]) + [values[n].vibration];
    assert Temperatures(values[..n + 1]) == Temperatures(values[..n]) + [values[n].temperature];
    assert NoiseFrequencies(values[..n + 1]) == NoiseFrequencies(values[..n]) + [values[n].noiseFrequency];
    SumSnoc(Vibrations(values[..n]), values[n].vibration);
    SumSnoc(Temperatures(values[..n]), values[n].temperature);
    SumSnoc(NoiseFrequencies(values[..n]), values[n].noiseFrequency);
  }

  /** `processData`: one pass over `Object.values(data)` summing the three
      fields and counting machines, then the division, the noise and the
      conditional append. */
  method ProcessData(chartData: seq<ChartPoint>, values: seq<D.MachineAverages>, noise: Noise, now: int)
    returns (updated: seq<ChartPoint>, averages: D.MachineAverages)
    ensures averages == Averaged(values, noise)
    ensures updated == chartData + NewPoints(values, noise, now)
  {
    var vibration, temperature, noiseFrequency := 0.0, 0.0, 0.0;
    var count: nat := 0;
    for n := 0 to |values|
      invariant count == n
      invariant vibration == Sum(Vibrations(values[..n]))
      invariant temperature == Sum(Temperatures(values[..n]))
      invariant noiseFrequency == Sum(NoiseFrequencies(values[..n]))
    {
      SumsSnoc(values, n);
      vibration := vibration + values[n].vibration;
      temperature := temperature + values[n].temperature;
      noiseFrequency := noiseFrequency + values[n].noiseFrequency;
      count := count + 1;
    }
    assert values[..|values|] == values;
    if count > 0 {
      vibration := vibration / (count as real);
      temperature := temperature / (count as real);
      noiseFrequency := noiseFrequency / (count as real);
      vibration := vibration + noise.vibration;
      temperature := temperature + noise.temperature;
      noiseFrequency := noiseFrequency + noise.noiseFrequency;
    }
    averages := D.MachineAverages(vibration, temperature, noiseFrequency);
    var newData: seq<ChartPoint> := [];
    if vibration != 0.0 || temperature != 0.0 || noiseFrequency != 0.0 {
      newData := newData + [ChartPoint(now, vibration, temperature, noiseFrequency)];
      updated := chartData + newData;
    } else {
      updated := chartData;
    }
  }

  /** Without noise, a point lies within the range of the machines' values:
      if every machine's vibration lies in [lo, hi], so does the point's. */
  lemma PointWithinValues(values: seq<D.MachineAverages>, now: int, lo: real, hi: real)
    requires |values| > 0
    requires forall k :: 0 <= k < |values| ==> lo <= values[k].vibration <= hi
    ensures var points := NewPoints(values, Noise(0.0, 0.0, 0.0), now);
            points != [] ==> lo <= points[0].vibration <= hi
  {
    MeanBounds(Vibrations(values), lo, hi);
  }

  /** The display window of an option. The switch here has no 'weekly'
      case, so that option shows everything. */
  function WindowStart(option: string, clock: Clock): (start: Option<int>)
    ensures start.Some? <==> KnownOption(option)
    ensures option == "daily" ==> start == Some(clock.sevenDaysAgo)
  {
    match option
    case "minute" => Some(clock.now - 60 * MinuteMs)
    case "hourly" => Some(clock.now - 24 * HourMs)
    case "daily" => Some(clock.sevenDaysAgo)
    case "monthly" => Some(clock.twelveMonthsAgo)
    case _ => None
  }

  predicate KnownOption(option: string)
  {
    option in {"minute", "hourly", "daily", "monthly"}
  }

  /** The windows agree with those of the per-machine charts except that
      'weekly' is unknown here. */
  lemma WindowsAsPerMachineCharts(option: string, clock: Clock)
    ensures option != "weekly" ==> WindowStart(option, clock) == OE.WindowStart(option, clock)
    ensures WindowStart("weekly", clock).None? && OE.WindowStart("weekly", clock).Some?
    ensures KnownOption(option) <==> OE.KnownOption(option) && option != "weekly"
  {
  }

  function Time(p: ChartPoint): int
  {
    p.time
  }

  /** `formatData`. */
  function FormatData(data: seq<ChartPoint>, option: string, clock: Clock): (shown: seq<ChartPoint>)
    ensures |shown| <= |data|
    ensures forall k :: 0 <= k < |shown| ==>
              shown[k] in data && (KnownOption(option) ==> shown[k].time >= WindowStart(option, clock).value)
  {
    KeepFrom(data, Time, WindowStart(option, clock))
  }

  /** 'weekly' and every other unknown option return the points unchanged;
      a known option keeps, in order, exactly the points at or after its
      window start. */
  lemma FormatDataExact(data: seq<ChartPoint>, option: string, clock: Clock)
    ensures IsSubsequence(FormatData(data, option, clock), data)
    ensures FormatData(data, "weekly", clock) == data
    ensures !KnownOption(option) ==> FormatData(data, option, clock) == data
    ensures KnownOption(option) ==>
              && WindowStart(option, clock).Some?
              && forall p :: p in FormatData(data, option, clock) <==> p in data && p.time >= WindowStart(option, clock).value
  {
    KeepFromExact(data, Time, WindowStart(option, clock));
  }

  /** The points the start/end filter keeps. */
  function InRange(start: Bound, end: Bound): (test: ChartPoint -> bool)
    ensures forall p :: test(p) == WithinBounds(p.time, start, end)
  {
    (p: ChartPoint) => WithinBounds(p.time, start, end)
  }

  /** `filterData`: the points inside the start/end filter, then inside the
      display window. */
  function FilterData(chartData: seq<ChartPoint>, start: Bound, end: Bound, option: string, clock: Clock)
    : (shown: seq<ChartPoint>)
    ensures |shown| <= |chartData|
    ensures forall k :: 0 <= k < |shown| ==> shown[k] in chartData && WithinBounds(shown[k].time, start, end)
  {
    FilterKeeps(chartData, InRange(start, end));
    FormatData(Filter(chartData, InRange(start, end)), option, clock)
  }

  /** A point is shown exactly when it lies within the filter (an empty
      bound imposes nothing) and within the display window, in history
      order. */
  lemma FilterDataExact(chartData: seq<ChartPoint>, start: Bound, end: Bound, option: string, clock: Clock)
    ensures IsSubsequence(FilterData(chartData, start, end, option, clock), chartData)
    ensures forall p :: p in FilterData(chartData, start, end, option, clock) <==>
              && p in chartData
              && WithinBounds(p.time, start, end)
              && (KnownOption(option) ==> p.time >= WindowStart(option, clock).value)
  {
    var inRange := InRange(start, end);
    var shown := FilterData(chartData, start, end, option, clock);
    if KnownOption(option) {
      var w := WindowStart(option, clock).value;
      var q := AtOrAfter(Time, w);
      var both := (p: ChartPoint) => inRange(p) && q(p);
      assert shown == Filter(Filter(chartData, inRange), q);
      FilterFilter(chartData, inRange, q, both);
      FilterSpec(chartData, both);
    } else {
      assert shown == Filter(chartData, inRange);
      FilterSpec(chartData, inRange);
    }
  }

  datatype MatrixState = MatrixState(chartData: seq<ChartPoint>, startDate: Bound, endDate: Bound, displayOption: string)

  /** The state on mount: the saved history or none, no date filter, and the
      saved option unless it is missing or empty, then 'hourly'. */
  function Mount(savedChart: Option<seq<ChartPoint>>, savedOption: Option<string>): (s: MatrixState)
    ensures s.startDate.None? && s.endDate.None?
    ensures s.chartData == (if savedChart.Some? then savedChart.value else [])
    ensures s.displayOption == (if savedOption.Some? && savedOption.value != "" then savedOption.value else "hourly")
  {
    MatrixState(match savedChart case Some(c) => c case None => [], None, None,
                match savedOption case Some(o) => (if o != "" then o else "hourly") case None => "hourly")
  }

  /** `handleDisplayOptionChange`: only the option changes. */
  function HandleDisplayOptionChange(state: MatrixState, value: string): (r: MatrixState)
    ensures r.displayOption == value
    ensures r.chartData == state.chartData && r.startDate == state.startDate && r.endDate == state.endDate
  {
    state.(displayOption := value)
  }

  /** The effect run whenever the averages change. */
  method OnDataChange(state: MatrixState, values: seq<D.MachineAverages>, noise: Noise, now: int)
    returns (next: MatrixState)
    ensures next == state.(chartData := state.chartData + NewPoints(values, noise, now))
  {
    var updated, _ := ProcessData(state.chartData, values, noise, now);
    next := state.(chartData := updated);
  }

  /** The history only grows, by at most one point per change, and a change
      with no machines leaves it as it was. */
  lemma HistoryGrowsByAtMostOne(chartData: seq<ChartPoint>, values: seq<D.MachineAverages>, noise: Noise, now: int)
    ensures var updated := chartData + NewPoints(values, noise, now);
            && updated[..|chartData|] == chartData
            && |chartData| <= |updated| <= |chartData| + 1
            && (|values| == 0 ==> updated == chartData)
  {
  }
}
