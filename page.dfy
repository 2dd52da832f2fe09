/**
 * The browser page (static/js/script.js): the module-level state `uploadedData`,
 * `columnTypes` and `chart`, the controls the handlers write to, and the handlers themselves.
 * The fetch round trip is split in two: `BeginUpload` decides whether a request is sent,
 * `FinishUpload` applies what came back.
 */
module Page {
  import opened Wrappers
  import opened ColumnTypes
  import opened UploadServer
  import opened FileIntake
  import opened Aggregation
  import opened Registry

  // ---------------------------------------------------------------------------
  // <select> controls
  // ---------------------------------------------------------------------------

  /** The position of the first option whose value is `v`, or -1. */
  function IndexOf(options: seq<string>, v: string): (i: int)
    ensures -1 <= i < |options|
    ensures i == -1 <==> v !in options
    ensures 0 <= i ==> options[i] == v && forall j :: 0 <= j < i ==> options[j] != v
  {
    if options == [] then -1
    else if options[0] == v then 0
    else
      var rest := IndexOf(options[1..], v);
      assert forall j :: 1 <= j < |options| ==> options[j] == options[1..][j - 1];
      if rest == -1 then -1 else rest + 1
  }

  /** A single-choice select: the values of its options and the selected index (-1: none). */
  datatype Select = Select(options: seq<string>, selected: int) {
    predicate Valid()
    {
      -1 <= selected < |options|
    }

    /** `select.value`: the selected option's value, or "" when none is selected. */
    function Value(): (v: string)
      requires Valid()
      ensures selected == -1 ==> v == ""
      ensures selected != -1 ==> v in options
    {
      if selected == -1 then "" else options[selected]
    }

    /** `appendChild(option)`: a select with nothing selected selects its first option. */
    function Append(option: string): (s: Select)
      requires Valid()
      ensures s.Valid() && s.options == options + [option]
      ensures s.selected == if selected == -1 then 0 else selected
    {
      Select(options + [option], if selected == -1 then 0 else selected)
    }

    /** `select.value = v`: selects the first option with that value, or none. */
    function SetValue(v: string): (s: Select)
      ensures s.Valid() && s.options == options
      ensures v in options ==> s.Value() == v
      ensures v !in options ==> s.Value() == ""
    {
      Select(options, IndexOf(options, v))
    }
  }

  const EmptySelect := Select([], -1)

  /** `innerHTML = ''` followed by one appended option per column. */
  function Filled(columns: seq<string>): (s: Select)
    ensures s.Valid()
  {
    if columns == [] then EmptySelect else Filled(columns[..|columns| - 1]).Append(columns[|columns| - 1])
  }

  /** A filled select offers exactly the columns and shows the first one. */
  lemma {:induction false} FilledShowsFirst(columns: seq<string>)
    ensures Filled(columns).options == columns
    ensures Filled(columns).selected == if columns == [] then -1 else 0
    ensures Filled(columns).Value() == if columns == [] then "" else columns[0]
  {
    if columns != [] {
      var init := columns[..|columns| - 1];
      var last := columns[|columns| - 1];
      FilledShowsFirst(init);
      assert init + [last] == columns;
      assert Filled(columns) == Filled(init).Append(last);
      assert Filled(columns).options[0] == columns[0];
    }
  }

  /** The Y-axis / pie value select after populateColumnSelects. */
  function ValueSelect(columns: seq<string>, types: map<string, string>): (s: Select)
    ensures s.Valid()
  {
    match DefaultValueColumn(columns, types)
    case None => Filled(columns)
    case Some(c) => Filled(columns).SetValue(c)
  }

  /**
   * After populateColumnSelects the value select offers every column and shows the first
   * numeric column, or, when no column is numeric, the first column as appending left it.
   */
  lemma ValueSelectShows(columns: seq<string>, types: map<string, string>)
    ensures ValueSelect(columns, types).options == columns
    ensures DefaultValueColumn(columns, types).Some? ==>
      ValueSelect(columns, types).Value() == DefaultValueColumn(columns, types).value
    ensures DefaultValueColumn(columns, types).None? ==>
      ValueSelect(columns, types) == Filled(columns)
  {
    FilledShowsFirst(columns);
    if DefaultValueColumn(columns, types).Some? {
      DefaultIsFirstNumeric(columns, types);
    }
  }

  /** The `forEach` of populateColumnSelects: one option per column appended to each of the four emptied selects. */
  method AppendColumns(columns: seq<string>) returns (x: Select, y: Select, l: Select, v: Select)
    ensures x == y == l == v == Filled(columns)
  {
    x, y, l, v := EmptySelect, EmptySelect, EmptySelect, EmptySelect;
    for i := 0 to |columns|
      invariant x == y == l == v == Filled(columns[..i])
    {
      assert columns[..i + 1][..i] == columns[..i];
      x := x.Append(columns[i]);
      y := y.Append(columns[i]);
      l := l.Append(columns[i]);
      v := v.Append(columns[i]);
    }
    assert columns[..|columns|] == columns;
  }

  /** The `forEach` of displayColumns on the emptied list: one badge appended per column. */
  method AppendBadges(columns: seq<string>, types: map<string, string>) returns (badges: seq<Badge>)
    ensures badges == Badges(columns, types)
  {
    badges := [];
    for i := 0 to |columns|
      invariant badges == Badges(columns[..i], types)
    {
      assert columns[..i + 1][..i] == columns[..i];
      badges := badges + [BadgeFor(columns[i], types)];
    }
    assert columns[..|columns|] == columns;
  }

  /**
   * The select part of populateColumnSelects: the four selects list the columns, then the
   * Y-axis and pie value selects are set to the first numeric column when there is one.
   */
  method FillSelects(columns: seq<string>, types: map<string, string>) returns (x: Select, y: Select, l: Select, v: Select)
    ensures x == l == Filled(columns)
    ensures y == v == ValueSelect(columns, types)
  {
    x, y, l, v := AppendColumns(columns);
    var numeric := NumericColumns(columns, types);
    if |numeric| > 0 {
      y := y.SetValue(numeric[0]);
      v := v.SetValue(numeric[0]);
    }
  }

  // ---------------------------------------------------------------------------
  // The server's answer as the browser sees it
  // ---------------------------------------------------------------------------

  /** What `await response.json()` yields, or `NoReply` when fetch or the JSON parse rejects. */
  datatype Reply =
    | ErrorReply(error: string)
    | DataReply(data: seq<Row>, columns: seq<string>, columnTypes: map<string, string>)
    | NoReply

  /** The JSON body of a server response; `rows` are the `data` records the server sends along. */
  function ReplyFor(response: Response, rows: seq<Row>): (reply: Reply)
    ensures response.Error? ==> reply == ErrorReply(response.error)
    ensures response.Processed? ==>
      reply.DataReply? && reply.columns == response.columns && reply.data == rows
      && reply.columnTypes.Keys == response.columnTypes.Keys
      && forall k :: k in response.columnTypes ==> reply.columnTypes[k] == response.columnTypes[k].Code()
  {
    match response
    case Error(e) => ErrorReply(e)
    case Processed(columns, types, _) => DataReply(rows, columns, Codes(types))
  }

  // ---------------------------------------------------------------------------
  // Chart instances
  // ---------------------------------------------------------------------------

  /** A chart drawn on the canvas; it stays live until destroyed. */
  class ChartInstance {
    const kind: ChartKind
    const data: ChartData
    var live: bool

    constructor (kind: ChartKind, data: ChartData)
      ensures this.kind == kind && this.data == data && live
    {
      this.kind := kind;
      this.data := data;
      live := true;
    }

    /** `chart.destroy()`. */
    method Destroy()
      modifies this
      ensures !live
    {
      live := false;
    }
  }

  // ---------------------------------------------------------------------------
  // The page
  // ---------------------------------------------------------------------------

  /** Everything the handlers read or write, as one value. */
  datatype PageState = PageState(
    file: Option<string>,
    fileLabel: string,
    uploadDisabled: bool,
    uploadedData: Option<seq<Row>>,
    columnTypes: Option<map<string, string>>,
    badges: seq<Badge>,
    chartKind: ChartKind,
    xAxis: Select,
    yAxis: Select,
    labelColumn: Select,
    valueColumn: Select,
    xHidden: bool,
    yHidden: bool,
    labelHidden: bool,
    valueHidden: bool,
    chart: ChartInstance?,
    instances: set<ChartInstance>)

  const NoFileLabel := "Choose a file"

  class PageModel {
    /** `fileUpload.files[0]`, by name. */
    var file: Option<string>
    var fileLabel: string
    var uploadDisabled: bool
    /** `uploadedData`: null or undefined is `None`. */
    var uploadedData: Option<seq<Row>>
    /** `columnTypes`: undefined is `None`. */
    var columnTypes: Option<map<string, string>>
    /** The entries of the column list. */
    var badges: seq<Badge>
    /** The chart-type select's value. */
    var chartKind: ChartKind
    var xAxis: Select
    var yAxis: Select
    var labelColumn: Select
    var valueColumn: Select
    /** The `hidden` class of the x, y, label and value groups. */
    var xHidden: bool
    var yHidden: bool
    var labelHidden: bool
    var valueHidden: bool
    /** `chart`: the current chart, or null. */
    var chart: ChartInstance?
    /** Every chart this page has created. */
    ghost var instances: set<ChartInstance>

    ghost function State(): PageState
      reads this
    {
      PageState(file, fileLabel, uploadDisabled, uploadedData, columnTypes, badges, chartKind,
                xAxis, yAxis, labelColumn, valueColumn, xHidden, yHidden, labelHidden, valueHidden,
                chart, instances)
    }

    /** The charts still drawn. */
    ghost function LiveCharts(): set<ChartInstance>
      reads this, instances
    {
      set c | c in instances && c.live
    }

    ghost predicate Valid()
      reads this, instances
    {
      && xAxis.Valid() && yAxis.Valid() && labelColumn.Valid() && valueColumn.Valid()
      && (chart != null ==> chart in instances)
      && (forall c :: c in instances ==> (c.live <==> c == chart))
    }

    /** The page as loaded: the markup's initial control state, no data and no chart. */
    constructor (initialLabel: string, disabled: bool, kind: ChartKind, hideAxes: bool, hidePie: bool)
      ensures Valid()
      ensures State() == PageState(None, initialLabel, disabled, None, Some(map[]), [], kind,
                                   EmptySelect, EmptySelect, EmptySelect, EmptySelect,
                                   hideAxes, hideAxes, hidePie, hidePie, null, {})
    {
      file := None;
      fileLabel := initialLabel;
      uploadDisabled := disabled;
      uploadedData := None;
      columnTypes := Some(map[]);
      badges := [];
      chartKind := kind;
      xAxis, yAxis, labelColumn, valueColumn := EmptySelect, EmptySelect, EmptySelect, EmptySelect;
      xHidden, yHidden, labelHidden, valueHidden := hideAxes, hideAxes, hidePie, hidePie;
      chart := null;
      instances := {};
    }

    /** The window `load` handler: the file label reads "Choose a file" and the button is disabled. */
    method Load()
      requires Valid()
      modifies this
      ensures Valid()
      ensures State() == old(State()).(fileLabel := NoFileLabel, uploadDisabled := true)
    {
      fileLabel := NoFileLabel;
      uploadDisabled := true;
    }

    /** handleFileSelection: show the chosen name and enable the button, or reset both. */
    method SelectFile(chosen: Option<string>)
      requires Valid()
      modifies this
      ensures Valid()
      ensures State() == old(State()).(
        file := chosen,
        fileLabel := if chosen.Some? then chosen.value else NoFileLabel,
        uploadDisabled := chosen.None?)
    {
      file := chosen;
      if chosen.Some? {
        fileLabel := chosen.value;
        uploadDisabled := false;
      } else {
        fileLabel := NoFileLabel;
        uploadDisabled := true;
      }
    }

    /**
     * The synchronous part of uploadFile: the request is sent, and the button disabled,
     * only for a chosen file whose extension the browser accepts; otherwise nothing changes.
     */
    method BeginUpload() returns (sent: Option<string>)
      requires Valid()
      modifies this
      ensures Valid()
      ensures sent.Some? <==> file.Some? && ClientAccepts(file.value)
      ensures sent.Some? ==> sent == file && State() == old(State()).(uploadDisabled := true)
      ensures sent.None? ==> State() == old(State())
    {
      if file.None? {
        return None;
      }
      var name := file.value;
      if !ClientAccepts(name) {
        return None;
      }
      uploadDisabled := true;
      return Some(name);
    }

    /** displayColumns: one badge per column, in column order. */
    method DisplayColumns(columns: seq<string>, types: map<string, string>)
      requires Valid()
      modifies this
      ensures Valid()
      ensures State() == old(State()).(badges := Badges(columns, types))
    {
      badges := AppendBadges(columns, types);
    }

    /** updateChartOptions: the pie shows label/value and hides x/y; the others the reverse. */
    method UpdateChartOptions()
      requires Valid()
      modifies this
      ensures Valid()
      ensures State() == old(State()).(
        xHidden := chartKind == Pie, yHidden := chartKind == Pie,
        labelHidden := chartKind != Pie, valueHidden := chartKind != Pie)
      ensures xHidden == yHidden && labelHidden == valueHidden && xHidden != labelHidden
    {
      if chartKind == Pie {
        xHidden := true;
        yHidden := true;
        labelHidden := false;
        valueHidden := false;
      } else {
        xHidden := false;
        yHidden := false;
        labelHidden := true;
        valueHidden := true;
      }
    }

    /** The chart-type select's change event. */
    method ChangeChartKind(kind: ChartKind)
      requires Valid()
      modifies this
      ensures Valid()
      ensures State() == old(State()).(
        chartKind := kind,
        xHidden := kind == Pie, yHidden := kind == Pie,
        labelHidden := kind != Pie, valueHidden := kind != Pie)
    {
      chartKind := kind;
      UpdateChartOptions();
    }

    /**
     * populateColumnSelects: all four selects list the columns; the Y-axis and pie value
     * selects then show the first numeric column when there is one.
     */
    method PopulateColumnSelects(columns: seq<string>, types: map<string, string>)
      requires Valid()
      modifies this
      ensures Valid()
      ensures State() == old(State()).(
        xAxis := Filled(columns), yAxis := ValueSelect(columns, types),
        labelColumn := Filled(columns), valueColumn := ValueSelect(columns, types),
        xHidden := chartKind == Pie, yHidden := chartKind == Pie,
        labelHidden := chartKind != Pie, valueHidden := chartKind != Pie)
    {
      xAxis, yAxis, labelColumn, valueColumn := FillSelects(columns, types);
      UpdateChartOptions();
    }

    /** The success path of uploadFile: store the rows and types, list the columns, fill the selects. */
    method AcceptData(data: seq<Row>, columns: seq<string>, types: map<string, string>)
      requires Valid()
      modifies this
      ensures Valid()
      ensures State() == old(State()).(
        uploadedData := Some(data), columnTypes := Some(types),
        badges := Badges(columns, types),
        xAxis := Filled(columns), yAxis := ValueSelect(columns, types),
        labelColumn := Filled(columns), valueColumn := ValueSelect(columns, types),
        xHidden := chartKind == Pie, yHidden := chartKind == Pie,
        labelHidden := chartKind != Pie, valueHidden := chartKind != Pie)
    {
      uploadedData := Some(data);
      columnTypes := Some(types);
      DisplayColumns(columns, types);
      PopulateColumnSelects(columns, types);
    }

    /**
     * The rest of uploadFile, once the request settles. An error reply re-enables the
     * button and leaves the data alone. A reply whose `error` is the empty string is falsy,
     * so it takes the success path: the data and types become undefined, the column list is
     * cleared, and the failure of `undefined.forEach` lands in the catch, which re-enables
     * the button. A data reply is accepted and leaves the button as it was (disabled, unless
     * a file was chosen again during the upload). A failed request re-enables the button.
     */
    method FinishUpload(reply: Reply)
      requires Valid()
      modifies this
      ensures Valid()
      ensures reply.NoReply? ==> State() == old(State()).(uploadDisabled := false)
      ensures reply.ErrorReply? && reply.error != "" ==> State() == old(State()).(uploadDisabled := false)
      ensures reply.ErrorReply? && reply.error == "" ==>
        State() == old(State()).(uploadedData := None, columnTypes := None, badges := [], uploadDisabled := false)
      ensures reply.DataReply? ==> State() == old(State()).(
        uploadedData := Some(reply.data), columnTypes := Some(reply.columnTypes),
        badges := Badges(reply.columns, reply.columnTypes),
        xAxis := Filled(reply.columns), yAxis := ValueSelect(reply.columns, reply.columnTypes),
        labelColumn := Filled(reply.columns), valueColumn := ValueSelect(reply.columns, reply.columnTypes),
        xHidden := chartKind == Pie, yHidden := chartKind == Pie,
        labelHidden := chartKind != Pie, valueHidden := chartKind != Pie)
    {
      match reply
      case NoReply =>
        ReenableUpload();
      case ErrorReply(e) =>
        if e != "" {
          ReenableUpload();
        } else {
          AcceptMissingData();
        }
      case DataReply(data, columns, types) =>
        AcceptData(data, columns, types);
    }

    /** The error branch and the catch block of uploadFile: `uploadButton.disabled = false`. */
    method ReenableUpload()
      requires Valid()
      modifies this
      ensures Valid()
      ensures State() == old(State()).(uploadDisabled := false)
    {
      uploadDisabled := false;
    }

    /**
     * The success path on a reply without `data`: the data and types become undefined,
     * displayColumns clears the list and then throws on `undefined.forEach`, and the catch
     * re-enables the button.
     */
    method AcceptMissingData()
      requires Valid()
      modifies this
      ensures Valid()
      ensures State() == old(State()).(uploadedData := None, columnTypes := None, badges := [], uploadDisabled := false)
    {
      uploadedData, columnTypes, badges := None, None, [];
      ReenableUpload();
    }

    /** createChart: destroy the current chart, if any, then draw the new one. */
    method CreateChart(kind: ChartKind, data: ChartData)
      requires Valid()
      modifies this, chart
      ensures Valid()
      ensures fresh(chart) && chart.kind == kind && chart.data == data
      ensures State() == old(State()).(chart := chart, instances := old(instances) + {chart})
      ensures LiveCharts() == {chart}
    {
      if chart != null {
        chart.Destroy();
      }
      assert forall c :: c in instances ==> !c.live;
      chart := new ChartInstance(kind, data);
      instances := instances + {chart};
      assert forall c :: c in instances ==> (c.live <==> c == chart);
      assert LiveCharts() == {chart};
    }

    /**
     * generateChart: nothing happens without rows; otherwise the pie groups the label column
     * and sums the value column, bar and line group the X column and average the Y column,
     * and the result replaces the current chart.
     */
    method GenerateChart(parse: Parser)
      requires Valid()
      modifies this, chart
      ensures Valid()
      ensures (uploadedData.None? || uploadedData.value == []) ==>
        State() == old(State()) && (chart != null ==> chart.live == old(chart.live))
      ensures uploadedData.Some? && uploadedData.value != [] ==>
        && fresh(chart)
        && chart.kind == chartKind
        && chart.data == (if chartKind == Pie
                          then PreparePie(uploadedData.value, labelColumn.Value(), valueColumn.Value(), parse)
                          else PrepareAxis(chartKind, uploadedData.value, xAxis.Value(), yAxis.Value(), parse))
        && State() == old(State()).(chart := chart, instances := old(instances) + {chart})
        && LiveCharts() == {chart}
    {
      if uploadedData.None? || uploadedData.value == [] {
        return;
      }
      var rows := uploadedData.value;
      var data;
      if chartKind == Pie {
        data := PreparePie(rows, labelColumn.Value(), valueColumn.Value(), parse);
      } else {
        data := PrepareAxis(chartKind, rows, xAxis.Value(), yAxis.Value(), parse);
      }
      CreateChart(chartKind, data);
    }
  }
}
