/** The computational parts of `ProjectUI`: the time-window checks run
    before any history is collected, the "Total Clients" series of the
    chart, and the rows of the chart's CSV export. */
module ProjectUi {
  import opened Common
  import opened HistoryCollection

  // ---------------------------------------------------------------------
  // Time-window validation; instants are UTC times in microseconds

  const MICROSECONDS_PER_DAY: int := 86_400_000_000

  /** `timedelta(days=31)`: both the longest look-back and the longest span. */
  const MAX_WINDOW: int := 31 * MICROSECONDS_PER_DAY

  /** Which of the four ordered checks rejected the window, if any. */
  datatype WindowVerdict = Accepted | EndNotAfterStart | EndInFuture | StartTooOld | SpanTooLong

  /** The checks of `ui_collect_and_display`, in order: the end must follow
      the start, must not lie in the future, the start must not lie more than
      31 days back, and the span must not exceed 31 days. */
  function ValidateTimeWindow(start: int, end: int, now: int): (v: WindowVerdict)
    ensures v == EndNotAfterStart <==> end <= start
    ensures v == EndInFuture <==> start < end && now < end
    ensures v == StartTooOld <==> start < end <= now && start < now - MAX_WINDOW
    ensures v == Accepted <==> start < end <= now && now - MAX_WINDOW <= start
    ensures v == Accepted ==> end - start <= MAX_WINDOW
  {
    if end <= start then EndNotAfterStart
    else if end > now then EndInFuture
    else if start < now - MAX_WINDOW then StartTooOld
    else if end > start + MAX_WINDOW then SpanTooLong
    else Accepted
  }

  /** Once the end is not in the future and the start is within the
      look-back, the span is at most 31 days, so the fourth check can never
      reject. */
  lemma SpanCheckNeverFires(start: int, end: int, now: int)
    ensures ValidateTimeWindow(start, end, now) != SpanTooLong
  {
    if start < end <= now && now - MAX_WINDOW <= start {
      assert end - start <= now - (now - MAX_WINDOW);
    }
  }

  /** The bounds are inclusive: a window may end exactly now, and may start
      exactly 31 days before now. A window of exactly 31 days passes only
      when it ends now; ending earlier, it starts too far back. */
  lemma BoundariesAccepted(start: int, end: int, now: int)
    ensures end == now && now - MAX_WINDOW <= start < now ==> ValidateTimeWindow(start, end, now) == Accepted
    ensures start == now - MAX_WINDOW && start < end <= now ==> ValidateTimeWindow(start, end, now) == Accepted
    ensures ValidateTimeWindow(start, start + MAX_WINDOW, now) == Accepted ==> start + MAX_WINDOW == now
  {
  }

  /** `ui_collect_and_display` from the parsed window on: validates the
      window, collects the histories only when every check passes, and
      builds the chart from them. */
  method CollectAndDisplay(logic: ProjectLogic, networks: seq<NetworkRef>, fetches: seq<Outcome<Sample>>,
                           start: int, end: int, now: int)
    returns (verdict: WindowVerdict, collected: Option<GraphData>, chart: Option<Chart>)
    requires |fetches| == |networks|
    requires logic.api.Valid()
    ensures verdict == ValidateTimeWindow(start, end, now)
    ensures collected.Some? <==> verdict == Accepted
    ensures collected.Some? ==>
      collected.value == (if logic.api.hasDashboard then Collected(networks, fetches) else [])
    ensures chart.Some? <==> collected.Some? && FirstHistory(collected.value) != []
  {
    collected, chart := None, None;
    if end <= start {
      return EndNotAfterStart, collected, chart;
    }
    if end > now {
      return EndInFuture, collected, chart;
    }
    var maxLookbackStart := now - MAX_WINDOW;
    if start < maxLookbackStart {
      return StartTooOld, collected, chart;
    }
    var maxEndFromStart := start + MAX_WINDOW;
    if end > maxEndFromStart {
      // unreachable, see SpanCheckNeverFires; kept as the source has it
      return SpanTooLong, collected, chart;
    }
    verdict := Accepted;
    var graphData := logic.CollectNetworkDataHistory(networks, fetches);
    collected := Some(graphData);
    chart := DisplayGraph(graphData);
  }

  // ---------------------------------------------------------------------
  // The chart of `display_graph`

  /** One plotted line. */
  datatype Series = Series(name: string, counts: seq<int>)

  /** What `display_graph` plots: the x axis, one line per network whose
      history has the x axis' length, and the "Total Clients" line. */
  datatype Chart = Chart(timestamps: seq<string>, series: seq<Series>, total: seq<int>)

  /** `network_info.get('name', f"Network ID: {network_id}")` */
  function DisplayName(e: Entry): string {
    e.info.name.GetOr("Network ID: " + e.id)
  }

  /** A sample's client count for the chart: `None` or absent counts as 0. */
  function CountOrZero(c: ClientCount): int {
    if c.Count? then c.n else 0
  }

  function SampleCount(s: Sample): int {
    CountOrZero(s.clientCount)
  }

  function SampleStart(s: Sample): string {
    s.startTs
  }

  /** The history of the first network (in dictionary order) whose history
      is non-empty; `[]` when there is none. */
  function FirstHistory(g: GraphData): (h: seq<Sample>)
    ensures h == [] <==> forall j :: 0 <= j < |g| ==> g[j].info.history == []
    ensures h != [] ==> exists j :: 0 <= j < |g| && g[j].info.history == h &&
                                    forall k :: 0 <= k < j ==> g[k].info.history == []
  {
    if g == [] then []
    else if g[0].info.history != [] then g[0].info.history
    else
      var h := FirstHistory(g[1..]);
      assert forall j :: 0 < j < |g| ==> g[j] == g[1..][j - 1];
      if h != [] then
        var j :| 0 <= j < |g[1..]| && g[1..][j].info.history == h &&
                 forall k :: 0 <= k < j ==> g[1..][k].info.history == [];
        assert g[j + 1].info.history == h;
        h
      else h
  }

  /** Whether a network's line is plotted and added to the total: a
      non-empty history of exactly the x axis' length. */
  predicate Plotted(e: Entry, length: nat) {
    e.info.history != [] && |e.info.history| == length
  }

  /** The lines `display_graph` adds, in dictionary order. */
  function PlottedSeries(g: GraphData, length: nat): (r: seq<Series>)
    ensures forall s :: s in r ==> |s.counts| == length
  {
    if g == [] then []
    else
      var last := g[|g| - 1];
      PlottedSeries(g[..|g| - 1], length)
        + (if Plotted(last, length) then [Series(DisplayName(last), MapSeq(SampleCount, last.info.history))] else [])
  }

  /** `total_client_counts[i]`: the sum of the i-th counts of the networks
      whose history has exactly the x axis' length; other networks add nothing. */
  function ColumnTotal(g: GraphData, length: nat, i: nat): (total: int)
    ensures i >= length ==> total == 0
    ensures (forall k :: 0 <= k < |g| ==> !Plotted(g[k], length)) ==> total == 0
  {
    if g == [] then 0
    else
      var last := g[|g| - 1];
      ColumnTotal(g[..|g| - 1], length, i)
        + (if Plotted(last, length) && i < length then SampleCount(last.info.history[i]) else 0)
  }

  /** The i-th point summed over plotted lines. */
  function SumAt(series: seq<Series>, i: nat): int {
    if series == [] then 0
    else
      var last := series[|series| - 1];
      SumAt(series[..|series| - 1], i) + (if i < |last.counts| then last.counts[i] else 0)
  }

  /** The "Total Clients" line is the pointwise sum of the plotted lines. */
  lemma {:induction false} TotalIsSumOfSeries(g: GraphData, length: nat, i: nat)
    requires i < length
    ensures ColumnTotal(g, length, i) == SumAt(PlottedSeries(g, length), i)
  {
    if g != [] {
      var init := g[..|g| - 1];
      var last := g[|g| - 1];
      TotalIsSumOfSeries(init, length, i);
      var p := PlottedSeries(init, length);
      if Plotted(last, length) {
        var s := Series(DisplayName(last), MapSeq(SampleCount, last.info.history));
        assert PlottedSeries(g, length) == p + [s];
        assert (p + [s])[..|p + [s]| - 1] == p;
        assert SumAt(p + [s], i) == SumAt(p, i) + s.counts[i];
      } else {
        assert PlottedSeries(g, length) == p;
      }
    }
  }

  /** With non-negative counts, the total is never below any plotted line. */
  lemma {:induction false} TotalDominatesSeries(g: GraphData, length: nat, i: nat, k: nat)
    requires i < length
    requires forall e, s :: e in g && s in e.info.history ==> SampleCount(s) >= 0
    requires k < |PlottedSeries(g, length)|
    ensures PlottedSeries(g, length)[k].counts[i] <= ColumnTotal(g, length, i)
  {
    var init := g[..|g| - 1];
    var last := g[|g| - 1];
    ColumnNonNegative(init, length, i);
    if k < |PlottedSeries(init, length)| {
      TotalDominatesSeries(init, length, i, k);
    }
  }

  lemma {:induction false} ColumnNonNegative(g: GraphData, length: nat, i: nat)
    requires forall e, s :: e in g && s in e.info.history ==> SampleCount(s) >= 0
    ensures ColumnTotal(g, length, i) >= 0
  {
    if g != [] {
      ColumnNonNegative(g[..|g| - 1], length, i);
    }
  }

  /** A network with a non-empty history of the given length is plotted, so
      the list of lines is not empty. */
  lemma {:induction false} SomeSeriesPlotted(g: GraphData, length: nat, j: nat)
    requires j < |g| && Plotted(g[j], length)
    ensures PlottedSeries(g, length) != []
  {
    if j < |g| - 1 {
      SomeSeriesPlotted(g[..|g| - 1], length, j);
    }
  }

  /** The loop of `display_graph` that looks for the first network (in
      dictionary order) with a non-empty history. */
  method FindFirstHistory(graph: GraphData) returns (first: seq<Sample>, index: nat)
    ensures first == FirstHistory(graph)
    ensures first != [] ==> index < |graph| && graph[index].info.history == first
  {
    first, index := [], 0;
    while index < |graph|
      invariant 0 <= index <= |graph|
      invariant FirstHistory(graph) == FirstHistory(graph[index..])
    {
      assert graph[index..][0] == graph[index];
      assert graph[index..][1..] == graph[index + 1..];
      if graph[index].info.history != [] {
        first := graph[index].info.history;
        return;
      }
      index := index + 1;
    }
  }

  /** `for i, count in enumerate(client_counts): total_client_counts[i] += count` */
  method AddCounts(total: array<int>, counts: seq<int>)
    requires |counts| == total.Length
    modifies total
    ensures forall m :: 0 <= m < total.Length ==> total[m] == old(total[m]) + counts[m]
  {
    for i := 0 to total.Length
      invariant forall m :: 0 <= m < i ==> total[m] == old(total[m]) + counts[m]
      invariant forall m :: i <= m < total.Length ==> total[m] == old(total[m])
    {
      total[i] := total[i] + counts[i];
    }
  }

  /** The loop of `display_graph` over all networks: adds a line for each
      network whose history has the x axis' length and sums those lines
      into the total. */
  method PlotNetworks(graph: GraphData, dataLength: nat) returns (series: seq<Series>, total: seq<int>)
    ensures series == PlottedSeries(graph, dataLength)
    ensures |total| == dataLength
    ensures forall m :: 0 <= m < dataLength ==> total[m] == ColumnTotal(graph, dataLength, m)
  {
    var totals := new int[dataLength](_ => 0);
    series := [];
    for j := 0 to |graph|
      invariant series == PlottedSeries(graph[..j], dataLength)
      invariant forall m :: 0 <= m < dataLength ==> totals[m] == ColumnTotal(graph[..j], dataLength, m)
    {
      var entry := graph[j];
      assert graph[..j + 1][..j] == graph[..j];
      assert graph[..j + 1][j] == entry;
      var history := entry.info.history;
      if history != [] {
        var counts := MapSeq(SampleCount, history);
        if |counts| == dataLength {
          series := series + [Series(DisplayName(entry), counts)];
          AddCounts(totals, counts);
        }
      }
    }
    assert graph[..|graph|] == graph;
    total := totals[..];
  }

  /** `display_graph`: nothing is plotted (`None`) when no network has a
      non-empty history; otherwise the x axis comes from the first non-empty
      history, one line is drawn per network of that length, and the
      "Total Clients" line is their pointwise sum. */
  method DisplayGraph(graph: GraphData) returns (chart: Option<Chart>)
    ensures chart.None? <==> FirstHistory(graph) == []
    ensures chart.Some? ==>
      var first := FirstHistory(graph);
      chart.value.timestamps == MapSeq(SampleStart, first) &&
      chart.value.series == PlottedSeries(graph, |first|) &&
      chart.value.series != [] &&
      |chart.value.total| == |first| &&
      (forall i :: 0 <= i < |first| ==> chart.value.total[i] == ColumnTotal(graph, |first|, i)) &&
      (forall i :: 0 <= i < |first| ==> chart.value.total[i] == SumAt(chart.value.series, i))
  {
    if graph == [] {
      return None;
    }
    var firstHistory, firstIndex := FindFirstHistory(graph);
    if firstHistory == [] {
      return None;
    }

    var timestamps: seq<string> := [];
    for k := 0 to |firstHistory|
      invariant |timestamps| == k
      invariant forall m :: 0 <= m < k ==> timestamps[m] == SampleStart(firstHistory[m])
    {
      timestamps := timestamps + [firstHistory[k].startTs];
    }
    // `if not timestamps` cannot fire: the first history is not empty
    var dataLength := |firstHistory|;

    var series, total := PlotNetworks(graph, dataLength);
    // the first non-empty history has the x axis' own length, so it is
    // plotted and `has_data_to_plot` always ends up true
    SomeSeriesPlotted(graph, dataLength, firstIndex);

    chart := Some(Chart(timestamps, series, total));
    forall i | 0 <= i < dataLength
      ensures total[i] == SumAt(series, i)
    {
      TotalIsSumOfSeries(graph, dataLength, i);
    }
  }

  // ---------------------------------------------------------------------
  // The CSV export of `download_csv`

  /** A CSV cell; `Blank` is what the CSV writer prints for `None`. */
  datatype Cell = Text(text: string) | Number(n: int) | Blank

  /** The cell of one network at one timestamp: 0 past the end of its
      history or when the entry has no `clientCount`, else the stored value. */
  function CsvCell(history: seq<Sample>, i: nat): (c: Cell)
    ensures !c.Text?
    ensures c.Blank? <==> i < |history| && history[i].clientCount.Null?
    ensures c.Number? ==> c.n == (if i < |history| then SampleCount(history[i]) else 0)
  {
    if i < |history| && !history[i].clientCount.Missing? then
      match history[i].clientCount
      case Count(n) => Number(n)
      case Null => Blank
    else Number(0)
  }

  /** The header row: "Timestamp" and one name per dictionary entry. */
  function CsvHeader(graph: GraphData): (header: seq<Cell>)
    ensures |header| == |graph| + 1
    ensures header[0] == Text("Timestamp")
    ensures forall j :: 0 <= j < |graph| ==> header[j + 1] == Text(DisplayName(graph[j]))
  {
    [Text("Timestamp")] + MapSeq((e: Entry) => Text(DisplayName(e)), graph)
  }

  /** One data row of `download_csv`: the timestamp, then one cell per network. */
  method CsvRow(graph: GraphData, timestamp: string, i: nat) returns (row: seq<Cell>)
    ensures |row| == |graph| + 1 && row[0] == Text(timestamp)
    ensures forall j :: 0 <= j < |graph| ==> row[j + 1] == CsvCell(graph[j].info.history, i)
  {
    row := [Text(timestamp)];
    for j := 0 to |graph|
      invariant |row| == j + 1 && row[0] == Text(timestamp)
      invariant forall m :: 0 <= m < j ==> row[m + 1] == CsvCell(graph[m].info.history, i)
    {
      row := row + [CsvCell(graph[j].info.history, i)];
    }
  }

  /** `download_csv`: a header and one row per timestamp, each row holding
      the timestamp and one cell per network, empty histories included. */
  method DownloadCsv(graph: GraphData, timestamps: seq<string>) returns (rows: seq<seq<Cell>>)
    ensures |rows| == |timestamps| + 1
    ensures forall r :: 0 <= r < |rows| ==> |rows[r]| == |graph| + 1
    ensures rows[0] == CsvHeader(graph)
    ensures forall i :: 0 <= i < |timestamps| ==> rows[i + 1][0] == Text(timestamps[i])
    ensures forall i, j :: 0 <= i < |timestamps| && 0 <= j < |graph| ==>
      rows[i + 1][j + 1] == CsvCell(graph[j].info.history, i)
  {
    rows := [CsvHeader(graph)];
    for i := 0 to |timestamps|
      invariant |rows| == i + 1
      invariant rows[0] == CsvHeader(graph)
      invariant forall r :: 0 <= r < |rows| ==> |rows[r]| == |graph| + 1
      invariant forall r :: 1 <= r < |rows| ==> rows[r][0] == Text(timestamps[r - 1])
      invariant forall r, j :: 1 <= r < |rows| && 0 <= j < |graph| ==>
        rows[r][j + 1] == CsvCell(graph[j].info.history, r - 1)
    {
      var row := CsvRow(graph, timestamps[i], i);
      rows := rows + [row];
    }
  }

  /** The "Download Data as CSV" button of the chart: the export of the
      chart's own x axis, so one row per sample of the first non-empty
      history; there is no button when no chart is shown. */
  method DownloadChartCsv(graph: GraphData) returns (rows: Option<seq<seq<Cell>>>)
    ensures rows.None? <==> FirstHistory(graph) == []
    ensures rows.Some? ==>
      var first := FirstHistory(graph);
      |rows.value| == |first| + 1 &&
      (forall r :: 0 <= r < |rows.value| ==> |rows.value[r]| == |graph| + 1) &&
      rows.value[0] == CsvHeader(graph) &&
      (forall i :: 0 <= i < |first| ==> rows.value[i + 1][0] == Text(first[i].startTs)) &&
      (forall i, j :: 0 <= i < |first| && 0 <= j < |graph| ==>
         rows.value[i + 1][j + 1] == CsvCell(graph[j].info.history, i))
  {
    var chart := DisplayGraph(graph);
    if chart.None? {
      return None;
    }
    var csv := DownloadCsv(graph, chart.value.timestamps);
    rows := Some(csv);
  }
}
