/** The data analyst's tools. Each one reads the current dataset and runs a fixed chain of
    checks (dataset present and not empty, then the named columns present, then their
    types); a chart tool writes one artifact, under a fresh id, only after every check
    passes. The artifact store stands in for the `charts` table; figures, statistics and
    renderings are library output and enter as opaque strings or tables. */
module DataAnalysisTool {
  import opened Common
  import opened Exceptions
  import opened Tables

  /** A stored chart: the figure's JSON and the metadata text describing it. */
  datatype Graph = Graph(figure: string, metadata: string)

  /** What a chart tool returns: a message string, or the dictionary of `response`,
      `graph_id` and `metadata`. */
  datatype ChartAnswer = Message(text: string) | Chart(response: string, graphId: string, metadata: string)

  /** What a reading tool returns: a message string, or the library's text rendering of a
      summary, of selected rows, of a correlation matrix, or of the outlier rows. */
  datatype Report =
    | Note(text: string)
    | Summary(of: Table)
    | Rows(view: Table)
    | Correlation(columns: seq<Column>)
    | Outliers(column: string, count: nat, view: Table)

  const EmptyMsg := "DataFrame empty, no data to analyse."
  const ColumnPrefix := "Error: Column \""
  const NotFoundSuffix := "\" not found in the dataset."
  const NotNumericSuffix := "\" is not numeric."
  const BarToolName := "create_bar_chart"
  const HistogramToolName := "create_histogram"
  const UseBarLead := "\" is not numeric. Use "
  const UseBarTail := " for categorical columns."
  const UseBarSuffix := UseBarLead + BarToolName + UseBarTail
  const UseHistogramLead := "\" is numeric. Use "
  const UseHistogramTail := " for numeric columns."
  const UseHistogramSuffix := UseHistogramLead + HistogramToolName + UseHistogramTail
  const BoxNotNumericSuffix := "\" must be numeric for a box plot."
  const GroupingPrefix := "Error: Grouping column \""
  const PairNotFoundMsg := "Error: One or both columns not found in the dataset."
  const HeatmapNeedsTwoMsg := "Error: At least two numeric columns are required to create a correlation heatmap."
  const ClusterPrefix := "Error: Columns \""
  const ClusterMiddle := "\" and \""
  const ClusterSuffix := "\" must be numeric for clustering."
  const NoNumericMsg := "No numeric columns found to calculate correlation."
  const RowsCountMsg := "Error: Number of rows (n_rows) must be a positive integer."
  const SampleMethodMsg := "Error: Invalid sample_method. Choose from 'head', 'tail', or 'random'."
  const NoOutliersPrefix := "No outliers detected in column \""
  const NoOutliersSuffix := "\"."
  const HeadMethod := "head"
  const TailMethod := "tail"
  const RandomMethod := "random"
  const DefaultRowCount := 10
  /** The class name of the database error a repeated key raises. */
  const IntegrityError := "IntegrityError"

  /** `df is None or df.empty` */
  predicate NoData(df: Option<Table>)
  {
    df.None? || IsEmpty(df.value)
  }

  function ColumnMessage(column: string, suffix: string): string
  {
    ColumnPrefix + column + suffix
  }

  // ---- The check chains: the message a tool answers with, or None when it may draw ----

  function HistogramCheck(df: Option<Table>, column: string): Option<string>
  {
    if NoData(df) then Some(EmptyMsg)
    else if !HasColumn(df.value, column) then Some(ColumnMessage(column, NotFoundSuffix))
    else if !IsNumericColumn(df.value, column) then Some(ColumnMessage(column, UseBarSuffix))
    else None
  }

  function BarCheck(df: Option<Table>, column: string): Option<string>
  {
    if NoData(df) then Some(EmptyMsg)
    else if !HasColumn(df.value, column) then Some(ColumnMessage(column, NotFoundSuffix))
    else if IsNumericColumn(df.value, column) then Some(ColumnMessage(column, UseHistogramSuffix))
    else None
  }

  /** Scatter and line plots need only both columns. */
  function PairCheck(df: Option<Table>, x: string, y: string): Option<string>
  {
    if NoData(df) then Some(EmptyMsg)
    else if !HasColumn(df.value, x) || !HasColumn(df.value, y) then Some(PairNotFoundMsg)
    else None
  }

  /** `if x_column:` — a grouping column is used when given and not empty. */
  predicate Grouped(x: Option<string>)
  {
    x.Some? && x.value != ""
  }

  /** The box plot checks its numeric column, and then, after building its metadata, the
      grouping column. */
  function BoxCheck(df: Option<Table>, y: string, x: Option<string>): Option<string>
  {
    if NoData(df) then Some(EmptyMsg)
    else if !HasColumn(df.value, y) then Some(ColumnMessage(y, NotFoundSuffix))
    else if !IsNumericColumn(df.value, y) then Some(ColumnMessage(y, BoxNotNumericSuffix))
    else if Grouped(x) && !HasColumn(df.value, x.value) then Some(GroupingPrefix + x.value + NotFoundSuffix)
    else None
  }

  function HeatmapCheck(df: Option<Table>): Option<string>
  {
    if NoData(df) then Some(EmptyMsg)
    else if |NumericColumns(df.value.columns)| < 2 then Some(HeatmapNeedsTwoMsg)
    else None
  }

  function ClusterCheck(df: Option<Table>, x: string, y: string): Option<string>
  {
    if NoData(df) then Some(EmptyMsg)
    else if !HasColumn(df.value, x) || !HasColumn(df.value, y) then Some(PairNotFoundMsg)
    else if !IsNumericColumn(df.value, x) || !IsNumericColumn(df.value, y) then
      Some(ClusterPrefix + x + ClusterMiddle + y + ClusterSuffix)
    else None
  }

  /** `df[column].describe()` has no `mean` for a boolean column (it counts values
      instead), so the statistics text formats the fallback "N/A" with `:.2f`. */
  predicate NoMean(df: Option<Table>, column: string)
  {
    df.Some? &&
    var i := ColumnIndex(df.value.columns, column);
    i.Some? && df.value.columns[i.value].kind == Boolean
  }

  /** What formatting the text "N/A" with `:.2f` raises. */
  const StatsFormatError := Other(LibError("ValueError", "Unknown format code 'f' for object of type 'str'"))

  // ---- Metadata and responses of the chart tools ----

  const HistogramMetaA := "Graph Type: Histogram for the '"
  const HistogramMetaB := "' column. Visualizes the frequency distribution of the column. Key statistics: "
  const HistogramMetaC := " The X-axis is '"
  const HistogramMetaD := "' and the Y-axis is the count of occurrences."

  /** `stats` is the formatted `Mean=…, Median=…, Max=…, Min=….` text. */
  function HistogramMetadata(column: string, stats: string): string
  {
    HistogramMetaA + column + HistogramMetaB + stats + HistogramMetaC + column + HistogramMetaD
  }

  const ScatterMetaA := "Graph Type: Scatter Plot between '"
  const ScatterMetaB := "' and '"
  const ScatterMetaC := "'. Visualizes the relationship between the two variables. The X-axis represents '"
  const ScatterMetaD := "' and the Y-axis represents '"
  const ScatterMetaE := "'. Each point corresponds to an observation in the data."

  function ScatterMetadata(x: string, y: string): string
  {
    ScatterMetaA + x + ScatterMetaB + y + ScatterMetaC + x + ScatterMetaD + y + ScatterMetaE
  }

  const BarMetaA := "Graph Type: Bar Chart for the '"
  const BarMetaB := "' column. Visualizes the count of each category in the column. The X-axis represents the categories of '"
  const BarMetaC := "' and the Y-axis represents the frequency (count)."

  function BarMetadata(column: string): string
  {
    BarMetaA + column + BarMetaB + column + BarMetaC
  }

  const LineMetaA := "Graph Type: Line Plot of '"
  const LineMetaB := "' over '"
  const LineMetaC := "'. Visualizes the trend of the '"
  const LineMetaD := "' variable along '"
  const LineMetaE := "'. Ideal for visualizing data over time."

  function LineMetadata(x: string, y: string): string
  {
    LineMetaA + y + LineMetaB + x + LineMetaC + y + LineMetaD + x + LineMetaE
  }

  const BoxMetaA := "Graph Type: Box Plot for the '"
  const BoxMetaB := "' column. Visualizes the distribution and identifies outliers. Key statistics: "
  const BoxMetaGrouped := " Optionally grouped by the categorical column '"
  const BoxMetaGroupedEnd := "' on the X-axis."

  /** `stats` is the formatted `Mean=…, Q1=…, Median=…, Q3=…, Max=…, Min=….` text. */
  function BoxMetadata(y: string, x: Option<string>, stats: string): string
  {
    var base := BoxMetaA + y + BoxMetaB + stats;
    if Grouped(x) then base + BoxMetaGrouped + x.value + BoxMetaGroupedEnd else base
  }

  const HeatmapMetadata := "Graph Type: Correlation Heatmap. Visualizes the correlation matrix for the numeric columns of the dataset. The colors indicate the strength and direction of the linear correlation between pairs of variables."

  const ClusterMetaA := "Graph Type: Scatter Plot with Clusters. Runs the K-Means algorithm to find "
  const ClusterMetaB := " clusters in the data based on the '"
  const ClusterMetaC := "' and '"
  const ClusterMetaD := "' columns. The colors represent the identified clusters."

  function ClusterMetadata(x: string, y: string, clusters: int): string
  {
    ClusterMetaA + IntToString(clusters) + ClusterMetaB + x + ClusterMetaC + y + ClusterMetaD
  }

  const CreatedSuffix := "\" created successfully."

  function HistogramResponse(column: string): string
  {
    "Histogram for \"" + column + CreatedSuffix
  }

  function ScatterResponse(x: string, y: string): string
  {
    "Scatter plot for \"" + x + "\" vs \"" + y + CreatedSuffix
  }

  function BarResponse(column: string): string
  {
    "Bar chart for \"" + column + CreatedSuffix
  }

  function LineResponse(x: string, y: string): string
  {
    "Line plot for \"" + y + "\" over \"" + x + CreatedSuffix
  }

  function BoxResponse(y: string): string
  {
    "Box plot for \"" + y + CreatedSuffix
  }

  const HeatmapResponse := "Correlation heatmap created successfully."

  function ClusterResponse(x: string, y: string, clusters: int): string
  {
    "Cluster plot for \"" + x + "\" vs \"" + y + "\" with " + IntToString(clusters) + " clusters created successfully. 📊"
  }

  /** The effect every chart tool has on the store: a failed check answers with its message
      and writes nothing; otherwise one artifact is added under the new id, which the tool
      returns together with the metadata it stored. Inserting an id the store already holds
      violates the key and raises, writing nothing. */
  predicate ChartStep(before: map<string, Graph>, after: map<string, Graph>, r: Result<ChartAnswer, Raised>,
                      check: Option<string>, response: string, metadata: string, figure: string, newId: string)
  {
    match check
    case Some(msg) => r == Ok(Message(msg)) && after == before
    case None =>
      if newId in before then r == Err(Other(LibError(IntegrityError, newId))) && after == before
      else r == Ok(Chart(response, newId, metadata)) && after == before[newId := Graph(figure, metadata)]
  }

  /** The `charts` table. */
  class ArtifactStore {
    var graphs: map<string, Graph>

    constructor()
      ensures graphs == map[]
    {
      graphs := map[];
    }

    /** `_save_graph_to_db`: `newId` stands for the `uuid4` the source draws. */
    method SaveGraph(figure: string, metadata: string, newId: string) returns (r: Result<string, Raised>)
      modifies this
      ensures newId !in old(graphs) ==> r == Ok(newId) && graphs == old(graphs)[newId := Graph(figure, metadata)]
      ensures newId in old(graphs) ==> r == Err(Other(LibError(IntegrityError, newId))) && graphs == old(graphs)
    {
      if newId in graphs {
        r := Err(Other(LibError(IntegrityError, newId)));
      } else {
        graphs := graphs[newId := Graph(figure, metadata)];
        r := Ok(newId);
      }
    }

    /** Runs the check, then draws and saves. */
    method Draw(check: Option<string>, response: string, metadata: string, figure: string, newId: string)
      returns (r: Result<ChartAnswer, Raised>)
      modifies this
      ensures ChartStep(old(graphs), graphs, r, check, response, metadata, figure, newId)
    {
      if check.Some? {
        return Ok(Message(check.value));
      }
      var saved := SaveGraph(figure, metadata, newId);
      match saved
      case Err(e) =>
        r := Err(e);
      case Ok(id) =>
        r := Ok(Chart(response, id, metadata));
    }

    /** `stats` is the statistics text of a column whose summary has a mean; for a boolean
        column building it raises after the checks and before anything is saved. */
    method CreateHistogram(df: Option<Table>, column: string, stats: string, figure: string, newId: string)
      returns (r: Result<ChartAnswer, Raised>)
      modifies this
      ensures HistogramCheck(df, column).None? && NoMean(df, column) ==>
        r == Err(StatsFormatError) && graphs == old(graphs)
      ensures HistogramCheck(df, column).Some? || !NoMean(df, column) ==>
        ChartStep(old(graphs), graphs, r, HistogramCheck(df, column), HistogramResponse(column),
                  HistogramMetadata(column, stats), figure, newId)
    {
      var check := HistogramCheck(df, column);
      if check.None? && NoMean(df, column) {
        return Err(StatsFormatError);
      }
      r := Draw(check, HistogramResponse(column), HistogramMetadata(column, stats), figure, newId);
    }

    method CreateScatterPlot(df: Option<Table>, x: string, y: string, figure: string, newId: string)
      returns (r: Result<ChartAnswer, Raised>)
      modifies this
      ensures ChartStep(old(graphs), graphs, r, PairCheck(df, x, y), ScatterResponse(x, y), ScatterMetadata(x, y), figure, newId)
    {
      r := Draw(PairCheck(df, x, y), ScatterResponse(x, y), ScatterMetadata(x, y), figure, newId);
    }

    method CreateBarChart(df: Option<Table>, column: string, figure: string, newId: string)
      returns (r: Result<ChartAnswer, Raised>)
      modifies this
      ensures ChartStep(old(graphs), graphs, r, BarCheck(df, column), BarResponse(column), BarMetadata(column), figure, newId)
    {
      r := Draw(BarCheck(df, column), BarResponse(column), BarMetadata(column), figure, newId);
    }

    method CreateLinePlot(df: Option<Table>, x: string, y: string, figure: string, newId: string)
      returns (r: Result<ChartAnswer, Raised>)
      modifies this
      ensures ChartStep(old(graphs), graphs, r, PairCheck(df, x, y), LineResponse(x, y), LineMetadata(x, y), figure, newId)
    {
      r := Draw(PairCheck(df, x, y), LineResponse(x, y), LineMetadata(x, y), figure, newId);
    }

    /** The statistics text is built after the checks on `y` and before the grouping column
        is looked at (`BoxCheck(df, y, None)` is the chain without it), so a boolean `y`
        raises whatever the grouping column is. */
    method CreateBoxPlot(df: Option<Table>, y: string, x: Option<string>, stats: string, figure: string, newId: string)
      returns (r: Result<ChartAnswer, Raised>)
      modifies this
      ensures BoxCheck(df, y, None).None? && NoMean(df, y) ==> r == Err(StatsFormatError) && graphs == old(graphs)
      ensures BoxCheck(df, y, None).Some? || !NoMean(df, y) ==>
        ChartStep(old(graphs), graphs, r, BoxCheck(df, y, x), BoxResponse(y), BoxMetadata(y, x, stats), figure, newId)
    {
      if BoxCheck(df, y, None).None? && NoMean(df, y) {
        return Err(StatsFormatError);
      }
      r := Draw(BoxCheck(df, y, x), BoxResponse(y), BoxMetadata(y, x, stats), figure, newId);
    }

    method CreateCorrelationHeatmap(df: Option<Table>, figure: string, newId: string)
      returns (r: Result<ChartAnswer, Raised>)
      modifies this
      ensures ChartStep(old(graphs), graphs, r, HeatmapCheck(df), HeatmapResponse, HeatmapMetadata, figure, newId)
    {
      r := Draw(HeatmapCheck(df), HeatmapResponse, HeatmapMetadata, figure, newId);
    }

    /** `fit` is what `KMeans.fit_predict` did: an invalid cluster count makes it raise after
        the checks and before anything is saved. */
    method FindClustersAndPlot(df: Option<Table>, x: string, y: string, clusters: int, fit: Outcome<Raised>,
                               figure: string, newId: string)
      returns (r: Result<ChartAnswer, Raised>)
      modifies this
      ensures ClusterCheck(df, x, y).None? && fit.Fail? ==> r == Err(fit.error) && graphs == old(graphs)
      ensures ClusterCheck(df, x, y).Some? || fit.Pass? ==>
        ChartStep(old(graphs), graphs, r, ClusterCheck(df, x, y), ClusterResponse(x, y, clusters),
                  ClusterMetadata(x, y, clusters), figure, newId)
    {
      var check := ClusterCheck(df, x, y);
      if check.None? && fit.Fail? {
        return Err(fit.error);
      }
      r := Draw(check, ClusterResponse(x, y, clusters), ClusterMetadata(x, y, clusters), figure, newId);
    }
  }

  /** `get_graph_metadata`, the lookup behind the `get_graph_metadata` tool: `{'metadata': …}`, None for an unknown id. */
  function GetMetadata(graphs: map<string, Graph>, graphId: string): (r: Option<string>)
    ensures r.Some? <==> graphId in graphs
    ensures r.Some? ==> r.value == graphs[graphId].metadata
  {
    if graphId in graphs then Some(graphs[graphId].metadata) else None
  }

  /** A successful chart adds exactly one artifact, under an id not used before, and its
      metadata can be read back under the returned id. */
  lemma ChartAddsOneArtifact(before: map<string, Graph>, after: map<string, Graph>, r: Result<ChartAnswer, Raised>,
                             check: Option<string>, response: string, metadata: string, figure: string, newId: string)
    requires ChartStep(before, after, r, check, response, metadata, figure, newId)
    requires r.Ok? && r.value.Chart?
    ensures check.None? && r.value.graphId == newId && newId !in before
    ensures after.Keys == before.Keys + {newId} && |after.Keys| == |before.Keys| + 1
    ensures after[newId] == Graph(figure, r.value.metadata) && r.value.metadata == metadata
    ensures forall id :: id in before ==> after[id] == before[id]
    ensures GetMetadata(after, r.value.graphId) == Some(r.value.metadata)
  {
  }

  /** Any answer other than a chart leaves the store as it was. */
  lemma NoChartNoWrite(before: map<string, Graph>, after: map<string, Graph>, r: Result<ChartAnswer, Raised>,
                       check: Option<string>, response: string, metadata: string, figure: string, newId: string)
    requires ChartStep(before, after, r, check, response, metadata, figure, newId)
    requires !(r.Ok? && r.value.Chart?)
    ensures after == before
  {
  }

  /** Without a dataset, or with an empty one, every tool answers with the same sentence
      before looking at its arguments. */
  lemma EmptyDatasetChecksFirst(df: Option<Table>, column: string, x: string, y: string, group: Option<string>)
    requires NoData(df)
    ensures HistogramCheck(df, column) == Some(EmptyMsg) && BarCheck(df, column) == Some(EmptyMsg)
    ensures PairCheck(df, x, y) == Some(EmptyMsg) && BoxCheck(df, y, group) == Some(EmptyMsg)
    ensures HeatmapCheck(df) == Some(EmptyMsg) && ClusterCheck(df, x, y) == Some(EmptyMsg)
  {
  }

  /** For a present column exactly one of the histogram and the bar chart may be drawn, and
      the refusal of each names the other tool. */
  lemma HistogramAndBarAreDual(t: Table, column: string)
    requires !IsEmpty(t) && HasColumn(t, column)
    ensures HistogramCheck(Some(t), column).None? <==> BarCheck(Some(t), column).Some?
    ensures HistogramCheck(Some(t), column).None? <==> IsNumericColumn(t, column)
    ensures HistogramCheck(Some(t), column).Some? ==> Contains(HistogramCheck(Some(t), column).value, BarToolName)
    ensures BarCheck(Some(t), column).Some? ==> Contains(BarCheck(Some(t), column).value, HistogramToolName)
  {
    MessageNamesTool(column, UseBarLead, BarToolName, UseBarTail);
    MessageNamesTool(column, UseHistogramLead, HistogramToolName, UseHistogramTail);
  }

  lemma MessageNamesTool(column: string, lead: string, tool: string, tail: string)
    ensures Contains(ColumnMessage(column, lead + tool + tail), tool)
  {
    ContainsWithin(ColumnPrefix + column + lead, tool, tail);
    assert ColumnMessage(column, lead + tool + tail) == ColumnPrefix + column + lead + tool + tail;
  }

  /** What each chart tool demands of a non-empty dataset before it draws. */
  lemma ChecksPassExactly(t: Table, column: string, x: string, y: string, group: Option<string>)
    requires !IsEmpty(t)
    ensures PairCheck(Some(t), x, y).None? <==> HasColumn(t, x) && HasColumn(t, y)
    ensures ClusterCheck(Some(t), x, y).None? <==> IsNumericColumn(t, x) && IsNumericColumn(t, y)
    ensures BoxCheck(Some(t), y, group).None? <==>
      IsNumericColumn(t, y) && (!Grouped(group) || HasColumn(t, group.value))
    ensures HeatmapCheck(Some(t)).None? <==> |NumericColumns(t.columns)| >= 2
  {
    NumericColumnExists(t, x);
    NumericColumnExists(t, y);
  }

  /** A boolean column passes the numeric checks of the histogram and of the box plot, so
      both tools go on to build the statistics text, which raises; a number column is drawn. */
  lemma BooleanColumnsPassToStatistics(t: Table, column: string, group: Option<string>)
    requires !IsEmpty(t) && HasColumn(t, column)
    ensures NoMean(Some(t), column) ==>
      HistogramCheck(Some(t), column).None? && BoxCheck(Some(t), column, None).None?
    ensures IsNumericColumn(t, column) && !NoMean(Some(t), column) ==>
      HistogramCheck(Some(t), column).None? && (BoxCheck(Some(t), column, group).None? <==> !Grouped(group) || HasColumn(t, group.value))
  {
  }

  /** A numeric column is in particular a present one. */
  lemma NumericColumnExists(t: Table, name: string)
    ensures IsNumericColumn(t, name) ==> HasColumn(t, name)
  {
  }

  // ---- The reading tools ----

  function GetDataSummary(df: Option<Table>): (r: Report)
    ensures NoData(df) <==> r == Note(EmptyMsg)
    ensures !NoData(df) ==> r == Summary(df.value)
  {
    if NoData(df) then Note(EmptyMsg) else Summary(df.value)
  }

  function GetCorrelationMatrix(df: Option<Table>): (r: Report)
    ensures NoData(df) ==> r == Note(EmptyMsg)
    ensures !NoData(df) ==>
      (r == Note(NoNumericMsg) <==> forall k :: 0 <= k < |df.value.columns| ==> df.value.columns[k].kind != Number)
    ensures !NoData(df) && r != Note(NoNumericMsg) ==> r == Correlation(NumericColumns(df.value.columns))
  {
    if NoData(df) then Note(EmptyMsg)
    else
      NoNumberColumns(df.value.columns);
      if NumericColumns(df.value.columns) == [] then Note(NoNumericMsg)
    else Correlation(NumericColumns(df.value.columns))
  }

  /** `select_dtypes(include='number')` keeps nothing exactly when no column is a number
      column. */
  lemma NoNumberColumns(columns: seq<Column>)
    ensures NumericColumns(columns) == [] <==> forall k :: 0 <= k < |columns| ==> columns[k].kind != Number
  {
    var numbers := set k: nat | k < |columns| && columns[k].kind == Number;
    if NumericColumns(columns) != [] {
      var k :| k in numbers;
    } else {
      assert forall k: nat :: k < |columns| && columns[k].kind == Number ==> k in numbers;
    }
  }

  /** Row positions for `df.sample(n=count)`: the source draws them at random; here they are
      `count` consecutive positions, wrapping around, from a position the `seed` chooses. */
  function SamplePositions(size: nat, count: nat, seed: nat): (r: seq<nat>)
    requires count <= size
    ensures |r| == count
    ensures forall j :: 0 <= j < |r| ==> r[j] < size
    ensures forall i, j :: 0 <= i < j < |r| ==> r[i] != r[j]
  {
    var start := if size == 0 then 0 else seed % size;
    seq(count, j requires 0 <= j < count => if start + j < size then start + j else start + j - size)
  }

  function RowsAt(rows: seq<Row>, positions: seq<nat>): (r: seq<Row>)
    requires forall j :: 0 <= j < |positions| ==> positions[j] < |rows|
    ensures |r| == |positions|
    ensures forall j :: 0 <= j < |r| ==> r[j] == rows[positions[j]]
  {
    seq(|positions|, j requires 0 <= j < |positions| => rows[positions[j]])
  }

  /** `get_data_rows(n_rows=10, sample_method='head')` */
  function GetDataRows(df: Option<Table>, count: int := DefaultRowCount, sampleMethod: string := HeadMethod,
                       seed: nat := 0): (r: Report)
    ensures NoData(df) <==> r == Note(EmptyMsg)
    ensures r.Rows? ==> !NoData(df) && r.view.columns == df.value.columns && 0 < |r.view.rows| <= count
  {
    if NoData(df) then Note(EmptyMsg)
    else if count <= 0 then Note(RowsCountMsg)
    else if sampleMethod == HeadMethod then Rows(Head(df.value, count))
    else if sampleMethod == TailMethod then Rows(Tail(df.value, count))
    else if sampleMethod == RandomMethod then
      var t := df.value;
      Rows(Table(t.columns, RowsAt(t.rows, SamplePositions(|t.rows|, Min(count, |t.rows|), seed))))
    else Note(SampleMethodMsg)
  }

  /** Called with no arguments on a non-empty frame, the tool shows its first ten rows. */
  lemma DefaultDataRows(t: Table)
    requires !IsEmpty(t)
    ensures GetDataRows(Some(t)) == Rows(Table(t.columns, t.rows[..Min(10, |t.rows|)]))
  {
  }

  /** The count is checked before the method: a non-positive count is refused whatever the
      method; `head` and `tail` give the first and the last min(n, len) rows, `random` is
      described by `RandomRowsSelection`, and any other method is refused. */
  lemma DataRowsSelection(t: Table, count: int, sampleMethod: string, seed: nat)
    requires !IsEmpty(t)
    ensures count <= 0 ==> GetDataRows(Some(t), count, sampleMethod, seed) == Note(RowsCountMsg)
    ensures count > 0 && sampleMethod == HeadMethod ==>
      GetDataRows(Some(t), count, sampleMethod, seed) == Rows(Table(t.columns, t.rows[..Min(count, |t.rows|)]))
    ensures count > 0 && sampleMethod == TailMethod ==>
      GetDataRows(Some(t), count, sampleMethod, seed) == Rows(Table(t.columns, t.rows[|t.rows| - Min(count, |t.rows|)..]))
    ensures count > 0 && sampleMethod !in {HeadMethod, TailMethod, RandomMethod} ==>
      GetDataRows(Some(t), count, sampleMethod, seed) == Note(SampleMethodMsg)
  {
  }

  /** With a positive count, `random` gives min(n, len) rows from distinct positions. */
  lemma RandomRowsSelection(t: Table, count: int, seed: nat)
    requires !IsEmpty(t) && count > 0
    ensures var r := GetDataRows(Some(t), count, RandomMethod, seed);
      r.Rows? && r.view.columns == t.columns && |r.view.rows| == Min(count, |t.rows|) &&
      exists positions: seq<nat> ::
        |positions| == |r.view.rows| &&
        (forall j :: 0 <= j < |positions| ==> positions[j] < |t.rows| && r.view.rows[j] == t.rows[positions[j]]) &&
        (forall i, j :: 0 <= i < j < |positions| ==> positions[i] != positions[j])
  {
    var positions := SamplePositions(|t.rows|, Min(count, |t.rows|), seed);
    RandomRowsAt(t, count, seed);
    RowsAtDistinct(t.rows, positions);
  }

  lemma RandomRowsAt(t: Table, count: int, seed: nat)
    requires !IsEmpty(t) && count > 0
    ensures GetDataRows(Some(t), count, RandomMethod, seed) ==
      Rows(Table(t.columns, RowsAt(t.rows, SamplePositions(|t.rows|, Min(count, |t.rows|), seed))))
  {
    assert RandomMethod[0] != HeadMethod[0] && RandomMethod[0] != TailMethod[0];
  }

  lemma RowsAtDistinct(rows: seq<Row>, positions: seq<nat>)
    requires forall j :: 0 <= j < |positions| ==> positions[j] < |rows|
    requires forall i, j :: 0 <= i < j < |positions| ==> positions[i] != positions[j]
    ensures exists ps: seq<nat> ::
      |ps| == |RowsAt(rows, positions)| &&
      (forall j :: 0 <= j < |ps| ==> ps[j] < |rows| && RowsAt(rows, positions)[j] == rows[ps[j]]) &&
      (forall i, j :: 0 <= i < j < |ps| ==> ps[i] != ps[j])
  {
    assert |positions| == |RowsAt(rows, positions)|;
  }

  /** A cell beyond the fences: a number strictly below the lower or strictly above the
      upper one. A missing value compares false both ways and is never an outlier. */
  predicate Beyond(c: Cell, lower: real, upper: real)
  {
    c.Num? && (c.value < lower || c.value > upper)
  }

  /** `(df[column] < lower) | (df[column] > upper)`: which rows lie beyond the fences in
      column position `i`. */
  function BeyondMask(rows: seq<Row>, i: nat, lower: real, upper: real): (m: seq<bool>)
    ensures |m| == |rows|
    ensures forall k :: 0 <= k < |m| ==> (m[k] <==> Beyond(CellAt(rows[k], i), lower, upper))
  {
    seq(|rows|, k requires 0 <= k < |rows| => Beyond(CellAt(rows[k], i), lower, upper))
  }

  /** The rows beyond the fences, `df[mask]`: in their order, each once (a repeated row is
      reported as often as it occurs), and as many as there are positions beyond. */
  function RowsBeyond(rows: seq<Row>, i: nat, lower: real, upper: real): (r: seq<Row>)
    ensures IsSelection(rows, BeyondMask(rows, i, lower, upper), r)
    ensures |r| == |set k: nat | k < |rows| && Beyond(CellAt(rows[k], i), lower, upper)|
  {
    SelectIsSelection(rows, BeyondMask(rows, i, lower, upper));
    BeyondPositions(rows, i, lower, upper);
    Select(rows, BeyondMask(rows, i, lower, upper))
  }

  lemma BeyondPositions(rows: seq<Row>, i: nat, lower: real, upper: real)
    ensures TrueSet(BeyondMask(rows, i, lower, upper)) ==
      set k: nat | k < |rows| && Beyond(CellAt(rows[k], i), lower, upper)
  {
    var m := BeyondMask(rows, i, lower, upper);
    forall k: nat
      ensures k in TrueSet(m) <==> k < |rows| && Beyond(CellAt(rows[k], i), lower, upper)
    {
    }
  }

  /** `detect_outliers_iqr(column)` with the column's quartiles `q1` and `q3` given. */
  function DetectOutliers(df: Option<Table>, column: string, q1: real, q3: real): (r: Report)
    ensures NoData(df) ==> r == Note(EmptyMsg)
    ensures !NoData(df) && !HasColumn(df.value, column) ==> r == Note(ColumnMessage(column, NotFoundSuffix))
    ensures !NoData(df) && HasColumn(df.value, column) && !IsNumericColumn(df.value, column) ==>
      r == Note(ColumnMessage(column, NotNumericSuffix))
  {
    if NoData(df) then Note(EmptyMsg)
    else if !HasColumn(df.value, column) then Note(ColumnMessage(column, NotFoundSuffix))
    else if !IsNumericColumn(df.value, column) then Note(ColumnMessage(column, NotNumericSuffix))
    else
      var t := df.value;
      var iqr := q3 - q1;
      var outliers := RowsBeyond(t.rows, ColumnIndex(t.columns, column).value, q1 - 1.5 * iqr, q3 + 1.5 * iqr);
      if outliers == [] then Note(NoOutliersPrefix + column + NoOutliersSuffix)
      else Outliers(column, |outliers|, Table(t.columns, outliers))
  }

  /** For a numeric column, outliers are reported exactly when some row lies strictly
      outside [q1 - 1.5 IQR, q3 + 1.5 IQR] (a value on a fence is not an outlier); the rows
      reported are those rows, in the frame's order, and the count is the number of them;
      otherwise the answer is the no-outlier message. */
  lemma OutliersAreBeyondFences(t: Table, column: string, q1: real, q3: real)
    requires !IsEmpty(t) && IsNumericColumn(t, column)
    ensures var i := ColumnIndex(t.columns, column).value;
      var lower, upper := q1 - 1.5 * (q3 - q1), q3 + 1.5 * (q3 - q1);
      var r := DetectOutliers(Some(t), column, q1, q3);
      && (r.Outliers? <==> exists k :: 0 <= k < |t.rows| && Beyond(CellAt(t.rows[k], i), lower, upper))
      && (!r.Outliers? ==> r == Note(NoOutliersPrefix + column + NoOutliersSuffix))
      && (r.Outliers? ==> r.column == column && r.view.columns == t.columns)
      && (r.Outliers? ==> IsSelection(t.rows, BeyondMask(t.rows, i, lower, upper), r.view.rows))
      && (r.Outliers? ==> r.count == |set k: nat | k < |t.rows| && Beyond(CellAt(t.rows[k], i), lower, upper)|)
  {
    NumericColumnExists(t, column);
    var i := ColumnIndex(t.columns, column).value;
    RowsBeyondEmpty(t.rows, i, q1 - 1.5 * (q3 - q1), q3 + 1.5 * (q3 - q1));
  }

  /** No row is selected exactly when no row lies beyond the fences. */
  lemma RowsBeyondEmpty(rows: seq<Row>, i: nat, lower: real, upper: real)
    ensures RowsBeyond(rows, i, lower, upper) == [] <==>
      forall k :: 0 <= k < |rows| ==> !Beyond(CellAt(rows[k], i), lower, upper)
  {
    var beyond := set k: nat | k < |rows| && Beyond(CellAt(rows[k], i), lower, upper);
    if RowsBeyond(rows, i, lower, upper) != [] {
      var k :| k in beyond;
    } else {
      assert forall k: nat :: k < |rows| && Beyond(CellAt(rows[k], i), lower, upper) ==> k in beyond;
    }
  }
}
