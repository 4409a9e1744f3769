/**
 * The A-index chart script: the daily rows the store returns are reshaped,
 * read back column by column, and each day's average A-index is given a
 * bar colour from a cascade of strict thresholds.
 */
module AIndex {

  /** A calendar day, as parsed from the store's `YYYY-MM-DD` column. */
  type Day = int

  /** A row of the daily query: `(MAX(A), AVG(A), MIN(A), date)`. */
  type StoreRow = (real, real, real, Day)

  /** A row as `get_wwv` returns it: `(date, max, avg, min)`. */
  type DayRow = (Day, real, real, real)

  /** The bar colours of the chart. */
  datatype Color = LightGreen | DarkOrange | Red | DarkRed | DarkMagenta

  /** The matplotlib colour name of each bar colour. */
  function ColorName(c: Color): string {
    match c
    case LightGreen => "lightgreen"
    case DarkOrange => "darkorange"
    case Red => "red"
    case DarkRed => "darkred"
    case DarkMagenta => "darkmagenta"
  }

  /** Distinct colours have distinct names, so a bar's name tells its colour. */
  lemma ColorNamesDistinct(c: Color, d: Color)
    requires c != d
    ensures ColorName(c) != ColorName(d)
  {
  }

  /**
   * The colour of one daily average. Every bound is strict, so the exact
   * values 20, 30 and 50 fall through to light green, while 100 is dark
   * magenta.
   */
  function Classify(val: real): (c: Color)
    ensures c == DarkOrange <==> 20.0 < val < 30.0
    ensures c == Red <==> 30.0 < val < 50.0
    ensures c == DarkRed <==> 50.0 < val < 100.0
    ensures c == DarkMagenta <==> val >= 100.0
    ensures c == LightGreen <==> val <= 20.0 || val == 30.0 || val == 50.0
  {
    if 20.0 < val < 30.0 then DarkOrange
    else if 30.0 < val < 50.0 then Red
    else if 50.0 < val < 100.0 then DarkRed
    else if val >= 100.0 then DarkMagenta
    else LightGreen
  }

  /** The boundary values: 20, 30 and 50 are light green, 100 is dark magenta. */
  lemma ClassifyAtBounds()
    ensures Classify(20.0) == LightGreen && Classify(30.0) == LightGreen && Classify(50.0) == LightGreen
    ensures Classify(100.0) == DarkMagenta
    ensures Classify(19.999) == LightGreen && Classify(20.001) == DarkOrange
    ensures Classify(29.999) == DarkOrange && Classify(49.999) == Red && Classify(99.999) == DarkRed
  {
  }

  /** A store row with its date moved to the front and its three figures kept in order. */
  function Reshape(res: StoreRow): (row: DayRow)
    ensures (row.1, row.2, row.3, row.0) == res
  {
    (res.3, res.0, res.1, res.2)
  }

  /** `get_wwv`'s loop: one reshaped tuple per store row, in the store's order. */
  method GetWwv(results: seq<StoreRow>) returns (data: seq<DayRow>)
    ensures |data| == |results|
    ensures forall i :: 0 <= i < |results| ==> data[i] == Reshape(results[i])
  {
    data := [];
    for i := 0 to |results|
      invariant |data| == i
      invariant forall j :: 0 <= j < i ==> data[j] == Reshape(results[j])
    {
      data := data + [Reshape(results[i])];
    }
  }

  /** The four columns `graph` reads out of the rows: index 0 date, 1 max, 3 min, 2 average. */
  datatype Columns = Columns(dates: seq<Day>, maxes: seq<real>, mins: seq<real>, avgs: seq<real>)

  /** `columns` holds, position by position, the date, max, min and average of `data`. */
  ghost predicate IsColumnsOf(data: seq<DayRow>, columns: Columns) {
    && |columns.dates| == |data| && |columns.maxes| == |data|
    && |columns.mins| == |data| && |columns.avgs| == |data|
    && forall i :: 0 <= i < |data| ==>
      && columns.dates[i] == data[i].0 && columns.maxes[i] == data[i].1
      && columns.mins[i] == data[i].3 && columns.avgs[i] == data[i].2
  }

  /** The four list comprehensions at the start of `graph`. */
  method ReadColumns(data: seq<DayRow>) returns (columns: Columns)
    ensures IsColumnsOf(data, columns)
  {
    var dates, maxes, mins, avgs := [], [], [], [];
    for i := 0 to |data|
      invariant |dates| == i && |maxes| == i && |mins| == i && |avgs| == i
      invariant forall j :: 0 <= j < i ==>
        dates[j] == data[j].0 && maxes[j] == data[j].1 && mins[j] == data[j].3 && avgs[j] == data[j].2
    {
      dates, maxes, mins, avgs := dates + [data[i].0], maxes + [data[i].1], mins + [data[i].3], avgs + [data[i].2];
    }
    columns := Columns(dates, maxes, mins, avgs);
  }

  /** `columns` holds, position by position, the date, max, average and min of each store row. */
  ghost predicate ShowsStoreRows(results: seq<StoreRow>, columns: Columns) {
    && |columns.dates| == |results| && |columns.maxes| == |results|
    && |columns.mins| == |results| && |columns.avgs| == |results|
    && forall i :: 0 <= i < |results| ==>
      && columns.dates[i] == results[i].3 && columns.maxes[i] == results[i].0
      && columns.avgs[i] == results[i].1 && columns.mins[i] == results[i].2
  }

  /**
   * Reading back the reshaped rows recovers each column of the store: the
   * maxima, averages, minima and dates come out where they went in.
   */
  lemma ReadBackRecoversStoreColumns(results: seq<StoreRow>, data: seq<DayRow>, columns: Columns)
    requires |data| == |results| && forall i :: 0 <= i < |results| ==> data[i] == Reshape(results[i])
    requires IsColumnsOf(data, columns)
    ensures ShowsStoreRows(results, columns)
  {
  }

  /**
   * The colour loop of `graph`: a list of light green as long as the
   * averages, each position then overwritten by the cascade applied to the
   * average at that position.
   */
  method BarColors(aavg: seq<real>) returns (colors: seq<string>)
    ensures |colors| == |aavg|
    ensures forall i :: 0 <= i < |aavg| ==> colors[i] == ColorName(Classify(aavg[i]))
  {
    colors := seq(|aavg|, _ => "lightgreen");
    for pos := 0 to |aavg|
      invariant |colors| == |aavg|
      invariant forall i :: 0 <= i < pos ==> colors[i] == ColorName(Classify(aavg[i]))
      invariant forall i :: pos <= i < |aavg| ==> colors[i] == "lightgreen"
    {
      var val := aavg[pos];
      if 20.0 < val < 30.0 {
        colors := colors[pos := "darkorange"];
      } else if 30.0 < val < 50.0 {
        colors := colors[pos := "red"];
      } else if 50.0 < val < 100.0 {
        colors := colors[pos := "darkred"];
      } else if val >= 100.0 {
        colors := colors[pos := "darkmagenta"];
      }
    }
  }

  /** What `graph` hands to the renderer: the columns, the bar colour names and the forecast caption. */
  datatype Chart = Chart(columns: Columns, colors: seq<string>, forecast: string)

  /**
   * The data side of `graph`. It needs at least one row: the y-axis limit
   * takes `max(amax)`, which raises on an empty list.
   */
  method Graph(data: seq<DayRow>, condition: string) returns (chart: Chart)
    requires |data| > 0
    ensures IsColumnsOf(data, chart.columns)
    ensures |chart.colors| == |data|
    ensures forall i :: 0 <= i < |data| ==> chart.colors[i] == ColorName(Classify(data[i].2))
    ensures chart.forecast == condition
  {
    var columns := ReadColumns(data);
    var colors := BarColors(columns.avgs);
    chart := Chart(columns, colors, condition);
  }

  /** The end of `main`: a chart, or the "No data collected" warning and no chart. */
  datatype Report = Rendered(chart: Chart) | NoDataCollected

  /**
   * `main` from the query on: the store rows are reshaped, and a chart is
   * made only when there is at least one row; each bar then shows one store
   * row, coloured by its average.
   */
  method RunReport(results: seq<StoreRow>, condition: string) returns (report: Report)
    ensures report.Rendered? <==> |results| > 0
    ensures report.Rendered? ==>
      && ShowsStoreRows(results, report.chart.columns)
      && |report.chart.colors| == |results|
      && (forall i :: 0 <= i < |results| ==> report.chart.colors[i] == ColorName(Classify(results[i].1)))
      && report.chart.forecast == condition
  {
    var data := GetWwv(results);
    if |data| > 0 {
      var chart := Graph(data, condition);
      ReadBackRecoversStoreColumns(results, data, chart.columns);
      report := Rendered(chart);
    } else {
      report := NoDataCollected;
    }
  }
}
