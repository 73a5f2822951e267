/** The operating-environment charts: an append-only history of sensor
    rows, one chart per machine narrowed by that machine's start/end
    filter and relative display window, and the per-machine settings maps
    the controls update one key at a time. */
module OperatingEnvironment {
  import opened Collections
  import opened Plant
  import opened TimeWindows

  /** The window start of a display option, or None for an option the
      switch does not know (which shows everything). */
  function WindowStart(option: string, clock: Clock): (start: Option<int>)
    ensures start.Some? <==> KnownOption(option)
    ensures SaneClock(clock) && start.Some? ==> start.value <= clock.now - 60 * MinuteMs
  {
    match option
    case "minute" => Some(clock.now - 60 * MinuteMs)
    case "hourly" => Some(clock.now - 24 * HourMs)
    case "daily" => Some(clock.sevenDaysAgo)
    case "weekly" => Some(clock.fourWeeksAgo)
    case "monthly" => Some(clock.twelveMonthsAgo)
    case _ => None
  }

  predicate KnownOption(option: string)
  {
    option in {"minute", "hourly", "daily", "weekly", "monthly"}
  }

  function Timestamp(e: Reading): int
  {
    e.timestamp
  }

  /** `formatData`: the rows inside the display window. */
  function FormatData(data: seq<Reading>, option: string, clock: Clock): (shown: seq<Reading>)
    ensures |shown| <= |data|
    ensures forall k :: 0 <= k < |shown| ==>
              shown[k] in data && (KnownOption(option) ==> shown[k].timestamp >= WindowStart(option, clock).value)
  {
    KeepFrom(data, Timestamp, WindowStart(option, clock))
  }

  /** The display windows are the last 60 minutes and 24 hours, and the
      last 7 calendar days, 4 calendar weeks and 12 calendar months; an
      unknown option returns the rows unchanged; a known one keeps, in
      order, exactly the rows at or after its start. */
  lemma FormatDataExact(data: seq<Reading>, option: string, clock: Clock)
    ensures IsSubsequence(FormatData(data, option, clock), data)
    ensures !KnownOption(option) ==> FormatData(data, option, clock) == data
    ensures KnownOption(option) ==>
              && WindowStart(option, clock).Some?
              && forall e :: e in FormatData(data, option, clock) <==> e in data && e.timestamp >= WindowStart(option, clock).value
    ensures option == "minute" ==> WindowStart(option, clock) == Some(clock.now - 3600000)
    ensures option == "hourly" ==> WindowStart(option, clock) == Some(clock.now - 86400000)
    ensures option == "daily" ==> WindowStart(option, clock) == Some(clock.sevenDaysAgo)
    ensures option == "weekly" ==> WindowStart(option, clock) == Some(clock.fourWeeksAgo)
    ensures option == "monthly" ==> WindowStart(option, clock) == Some(clock.twelveMonthsAgo)
  {
    KeepFromExact(data, Timestamp, WindowStart(option, clock));
  }

  /** The calendar steps back are ordered as their lengths are: twelve
      months back lies before four weeks back, which lies before seven days
      back, which lies at least a day before now (a local calendar day is
      never shorter than 23 hours). */
  predicate SaneClock(clock: Clock)
  {
    && clock.twelveMonthsAgo <= clock.fourWeeksAgo
    && clock.fourWeeksAgo <= clock.sevenDaysAgo
    && clock.sevenDaysAgo <= clock.now - 24 * HourMs
  }

  /** Each window shows at least what the next shorter one shows. */
  lemma WindowsNested(data: seq<Reading>, clock: Clock, e: Reading)
    requires SaneClock(clock)
    ensures e in FormatData(data, "minute", clock) ==> e in FormatData(data, "hourly", clock)
    ensures e in FormatData(data, "hourly", clock) ==> e in FormatData(data, "daily", clock)
    ensures e in FormatData(data, "daily", clock) ==> e in FormatData(data, "weekly", clock)
    ensures e in FormatData(data, "weekly", clock) ==> e in FormatData(data, "monthly", clock)
    ensures e in FormatData(data, "monthly", clock) ==> e in data
  {
    FormatDataExact(data, "minute", clock);
    FormatDataExact(data, "hourly", clock);
    FormatDataExact(data, "daily", clock);
    FormatDataExact(data, "weekly", clock);
    FormatDataExact(data, "monthly", clock);
  }

  /** One machine's date filter; each bound is the parsed value of its
      date-time text, None for the empty text. */
  datatype DateRange = DateRange(startDate: Bound, endDate: Bound)

  datatype DateField = StartDate | EndDate

  function Field(range: DateRange, field: DateField): Bound
  {
    match field
    case StartDate => range.startDate
    case EndDate => range.endDate
  }

  /** `MachineChart.filterData`: the rows of this machine inside its date
      filter, then inside its display window. */
  function FilterData(data: seq<Reading>, machine: string, range: DateRange, option: string, clock: Clock)
    : (shown: seq<Reading>)
    ensures |shown| <= |data|
    ensures forall k :: 0 <= k < |shown| ==>
              && shown[k] in data && shown[k].machine == machine
              && WithinBounds(shown[k].timestamp, range.startDate, range.endDate)
  {
    FilterKeeps(data, OfMachineInRange(machine, range));
    FormatData(Filter(data, OfMachineInRange(machine, range)), option, clock)
  }

  /** The row test of `filterData`. */
  function OfMachineInRange(machine: string, range: DateRange): (test: Reading -> bool)
    ensures forall e :: test(e) == (e.machine == machine && WithinBounds(e.timestamp, range.startDate, range.endDate))
  {
    (e: Reading) => e.machine == machine && WithinBounds(e.timestamp, range.startDate, range.endDate)
  }

  /** A row is charted exactly when it belongs to the machine, lies within
      the date filter (an empty bound imposes nothing) and within the display
      window; the chart keeps the history's order. */
  lemma FilterDataExact(data: seq<Reading>, machine: string, range: DateRange, option: string, clock: Clock)
    ensures IsSubsequence(FilterData(data, machine, range, option, clock), data)
    ensures forall e :: e in FilterData(data, machine, range, option, clock) <==>
              && e in data && e.machine == machine
              && WithinBounds(e.timestamp, range.startDate, range.endDate)
              && (KnownOption(option) ==> e.timestamp >= WindowStart(option, clock).value)
  {
    var p := OfMachineInRange(machine, range);
    var shown := FilterData(data, machine, range, option, clock);
    if KnownOption(option) {
      var w := WindowStart(option, clock).value;
      var q := AtOrAfter(Timestamp, w);
      var pq := (e: Reading) => p(e) && q(e);
      assert shown == Filter(Filter(data, p), q);
      FilterFilter(data, p, q, pq);
      FilterSpec(data, pq);
    } else {
      assert shown == Filter(data, p);
      FilterSpec(data, p);
    }
  }

  /** With both dates empty and an unknown option the chart is exactly the
      machine's rows; with both dates set it is the rows in the closed
      interval. */
  lemma FilterDataBounds(data: seq<Reading>, machine: string, range: DateRange, clock: Clock, e: Reading)
    ensures range == DateRange(None, None) ==>
              (e in FilterData(data, machine, range, "", clock) <==> e in data && e.machine == machine)
    ensures range.startDate.Some? && range.startDate.value != 0 && range.endDate.Some? && range.endDate.value != 0 ==>
              (e in FilterData(data, machine, range, "", clock) <==>
                 e in data && e.machine == machine && range.startDate.value <= e.timestamp <= range.endDate.value)
  {
    FilterDataExact(data, machine, range, "", clock);
    WithinBoundsExact(e.timestamp, range.startDate, range.endDate);
  }

  type Filters = map<string, DateRange>
  type DisplayOptions = map<string, string>

  /** `handleFilterChange`: the machine's entry gets the new value in the
      given field; a machine without an entry gets one whose other field is
      unset. */
  function HandleFilterChange(filters: Filters, machine: string, field: DateField, value: Bound): (r: Filters)
    ensures r.Keys == filters.Keys + {machine}
    ensures Field(r[machine], field) == value
    ensures forall other :: other != field ==>
              Field(r[machine], other) == (if machine in filters then Field(filters[machine], other) else None)
    ensures forall m :: m in filters && m != machine ==> r[m] == filters[m]
  {
    var base := if machine in filters then filters[machine] else DateRange(None, None);
    var updated := match field
      case StartDate => base.(startDate := value)
      case EndDate => base.(endDate := value);
    filters[machine := updated]
  }

  /** `handleDisplayOptionChange`: only the given machine's option changes. */
  function HandleDisplayOptionChange(options: DisplayOptions, machine: string, value: string): (r: DisplayOptions)
    ensures r.Keys == options.Keys + {machine}
    ensures r[machine] == value
    ensures forall m :: m in options && m != machine ==> r[m] == options[m]
  {
    options[machine := value]
  }

  /** Setting a field back to what it was leaves an existing entry as it was. */
  lemma FilterChangeRestores(filters: Filters, machine: string, field: DateField)
    requires machine in filters
    ensures HandleFilterChange(filters, machine, field, Field(filters[machine], field)) == filters
  {
    var r := HandleFilterChange(filters, machine, field, Field(filters[machine], field));
    assert r[machine] == filters[machine] by {
      assert forall other :: Field(r[machine], other) == Field(filters[machine], other);
      assert r[machine].startDate == Field(r[machine], StartDate);
      assert r[machine].endDate == Field(r[machine], EndDate);
    }
  }

  /** The settings used when storage holds none. */
  function DefaultFilters(): Filters
  {
    map m | m in MachineNames() :: DateRange(None, None)
  }

  function DefaultDisplayOptions(): DisplayOptions
  {
    map m | m in MachineNames() :: "hourly"
  }

  /** The defaults hold exactly the five machines, each with empty dates and
      the 'hourly' option. */
  lemma DefaultsCoverMachines()
    ensures DefaultFilters().Keys == DefaultDisplayOptions().Keys
    ensures |DefaultFilters().Keys| == NumMachines
    ensures forall i :: 1 <= i <= NumMachines ==>
              && MachineName(i) in DefaultFilters() && DefaultFilters()[MachineName(i)] == DateRange(None, None)
              && MachineName(i) in DefaultDisplayOptions() && DefaultDisplayOptions()[MachineName(i)] == "hourly"
    ensures forall m :: m in DefaultFilters() ==> exists i :: 1 <= i <= NumMachines && m == MachineName(i)
  {
    var names := MachineNames();
    forall k, k' | 0 <= k < k' < |names| ensures names[k] != names[k'] {
      MachineNameInjective(k + 1, k' + 1);
    }
    DistinctCard(names);
    assert DefaultFilters().Keys == set m | m in names;
    forall i | 1 <= i <= NumMachines ensures MachineName(i) in names {
      assert names[i - 1] == MachineName(i);
    }
    forall m | m in DefaultFilters() ensures exists i :: 1 <= i <= NumMachines && m == MachineName(i) {
      var k :| 0 <= k < |names| && names[k] == m;
      assert m == MachineName(k + 1);
    }
  }

  datatype EnvironmentState = EnvironmentState(chartData: seq<Reading>, filters: Filters, displayOptions: DisplayOptions)

  /** The state on mount: each of chart history, filters and options is the
      saved copy when there is one, else the empty history or the default. */
  function Mount(savedChart: Option<seq<Reading>>, savedFilters: Option<Filters>, savedOptions: Option<DisplayOptions>)
    : (s: EnvironmentState)
    ensures savedChart.None? ==> s.chartData == []
    ensures savedFilters.None? ==> s.filters == DefaultFilters()
    ensures savedOptions.None? ==> s.displayOptions == DefaultDisplayOptions()
    ensures savedChart.Some? ==> s.chartData == savedChart.value
    ensures savedFilters.Some? ==> s.filters == savedFilters.value
    ensures savedOptions.Some? ==> s.displayOptions == savedOptions.value
  {
    EnvironmentState(
      match savedChart case Some(c) => c case None => [],
      match savedFilters case Some(f) => f case None => DefaultFilters(),
      match savedOptions case Some(o) => o case None => DefaultDisplayOptions())
  }

  /** The chart of one machine, or None where the render would read the date
      filter of a machine that has no entry. A missing option is undefined,
      which the window switch treats as unknown. */
  function ChartFor(state: EnvironmentState, machine: string, clock: Clock): (r: Option<seq<Reading>>)
    ensures r.Some? <==> machine in state.filters
  {
    if machine !in state.filters then None
    else
      var option := if machine in state.displayOptions then state.displayOptions[machine] else "";
      Some(FilterData(state.chartData, machine, state.filters[machine], option, clock))
  }

  /** With the default settings, machine i's chart shows exactly its rows of
      the last 24 hours. */
  lemma DefaultChart(data: seq<Reading>, i: int, clock: Clock, e: Reading)
    requires 1 <= i <= NumMachines
    ensures var chart := ChartFor(EnvironmentState(data, DefaultFilters(), DefaultDisplayOptions()), MachineName(i), clock);
            chart.Some? &&
            (e in chart.value <==> e in data && e.machine == MachineName(i) && e.timestamp >= clock.now - 86400000)
  {
    DefaultsCoverMachines();
    FilterDataExact(data, MachineName(i), DateRange(None, None), "hourly", clock);
  }

  /** `processData`: the batch appended to the history. */
  function ProcessData(history: seq<Reading>, batch: seq<Reading>): (r: seq<Reading>)
    ensures |r| == |history| + |batch|
    ensures r[..|history|] == history
    ensures r[|history|..] == batch
  {
    history + batch
  }

  /** One response of the history endpoint: a `success` body whose `data` is
      an array appends it; anything else leaves the state as it was. */
  function OnFetch(state: EnvironmentState, response: FetchResult<Reading>): (next: EnvironmentState)
    ensures next.filters == state.filters && next.displayOptions == state.displayOptions
    ensures response.Body? && response.status == "success" && response.data.Some? ==>
              next.chartData == ProcessData(state.chartData, response.data.value)
    ensures !(response.Body? && response.status == "success" && response.data.Some?) ==> next == state
  {
    if response.Body? && response.status == "success" && response.data.Some? then
      state.(chartData := ProcessData(state.chartData, response.data.value))
    else state
  }

  /** The history only grows: what was charted before a response is still a
      prefix afterwards, and two successful responses append their batches
      in arrival order. */
  lemma HistoryAppendOnly(state: EnvironmentState, r1: FetchResult<Reading>, r2: FetchResult<Reading>)
    ensures state.chartData <= OnFetch(state, r1).chartData
    ensures r1.Body? && r1.status == "success" && r1.data.Some? && r2.Body? && r2.status == "success" && r2.data.Some? ==>
              OnFetch(OnFetch(state, r1), r2).chartData == state.chartData + r1.data.value + r2.data.value
  {
  }
}
