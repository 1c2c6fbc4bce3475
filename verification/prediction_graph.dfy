/**
 * `create_1d_prediction_graph` and `create_prediction_graph`: a grid of
 * subplots with one row per model that has predictions (in the order the
 * models were first met) and one column per task. Every tensor of the
 * "base" model is drawn faintly across the whole domain in every cell;
 * then, cell by cell, every per-task prediction of the row's model is
 * drawn in the row's colour, across the whole domain when it has as many
 * points as the baseline and across the cell's own task otherwise.
 * A drawn line is a `Placement`: its cell, its owner, its colour, the
 * x interval its points are spread over, and the points themselves.
 */
module PredictionGraph {
  import opened Wrappers
  import opened Dicts
  import opened ResultGroups
  import opened Colors
  import opened BaselineScan
  import opened Arith

  /** The x interval `T.linspace(lo, hi, n)` spreads a line's points over. */
  datatype Span = Span(lo: real, hi: real)

  /** One `add_trace` call: the line `points` drawn in subplot (`row`, `col`), counted from 0. */
  datatype Placement = Placement(row: nat, col: nat, model: string, metric: string, color: string, span: Span, points: seq<real>)

  /** The figure: its grid, its shared y range, and its lines in drawing order. */
  datatype Graph = Graph(rows: nat, cols: nat, yRange: Span, traces: seq<Placement>)

  /** The colour of the faint baseline lines. */
  const Background: string := "lightblue"

  /** The model whose results hold the baselines. */
  const BaseModel: string := "base"

  /** The whole domain: from 0 to the number of tasks. */
  function Domain(b: Baseline): Span
  {
    Span(0.0, b.numTasks as real)
  }

  /** The axis-placement rule for a prediction with `len` points in column `col`. */
  function TaskSpan(b: Baseline, len: nat, col: nat): Span
  {
    if len == b.numPoints then Domain(b) else Span(col as real, col as real + 1.0)
  }

  /** A placed line stays within the domain and covers its own task's interval. */
  lemma TaskSpanInDomain(b: Baseline, len: nat, col: nat)
    requires col < b.numTasks
    ensures var s := TaskSpan(b, len, col); 0.0 <= s.lo <= col as real && col as real + 1.0 <= s.hi <= b.numTasks as real
    ensures len != b.numPoints ==> TaskSpan(b, len, col).hi - TaskSpan(b, len, col).lo == 1.0
  {
  }

  // ---- The faint baseline lines -------------------------------------------

  /** The baseline tensor `metric` drawn in every column of row `row`. */
  function BackgroundRow(b: Baseline, metric: string, points: seq<real>, row: nat): seq<Placement>
  {
    seq(b.numTasks, col requires 0 <= col < b.numTasks => Placement(row, col, BaseModel, metric, Background, Domain(b), points))
  }

  /** The baseline tensor `metric` drawn in every cell of the first `rows` rows. */
  function BackgroundGrid(b: Baseline, metric: string, points: seq<real>, rows: nat): seq<Placement>
    decreases rows
  {
    if rows == 0 then []
    else BackgroundGrid(b, metric, points, rows - 1) + BackgroundRow(b, metric, points, rows - 1)
  }

  /** Every tensor among the baselines, in insertion order, drawn in every cell. */
  function Backgrounds(b: Baseline, base: Dict<string, Value>, rows: nat): seq<Placement>
    decreases |base|
  {
    if base == [] then []
    else
      var n := |base| - 1;
      Backgrounds(b, base[..n], rows) +
      match base[n].1
      case Tensor(points) => BackgroundGrid(b, base[n].0, points, rows)
      case TensorList(_) => []
  }

  // ---- The prediction lines -----------------------------------------------

  /** The line of one per-task prediction. */
  function Placed(b: Baseline, row: nat, col: nat, model: string, color: string, metric: string, points: seq<real>): Placement
  {
    Placement(row, col, model, metric, color, TaskSpan(b, |points|, col), points)
  }

  /** The innermost loop: each list-valued result of the row's model, in insertion order, for column `col`. */
  function CellTraces(b: Baseline, row: nat, col: nat, model: string, color: string, taskData: Dict<string, Value>): Result<seq<Placement>, ViewError>
    decreases |taskData|
  {
    if taskData == [] then Ok([])
    else
      var n := |taskData| - 1;
      match CellTraces(b, row, col, model, color, taskData[..n])
      case Err(e) => Err(e)
      case Ok(ps) =>
        match taskData[n].1
        case Tensor(_) => Ok(ps)
        case TensorList(items) =>
          if col < |items| then Ok(ps + [Placed(b, row, col, model, color, taskData[n].0, items[col])])
          else Err(MissingTask(model, taskData[n].0))
  }

  /** The loop over the first `cols` columns of a row. */
  function RowTraces(b: Baseline, row: nat, model: string, color: string, taskData: Dict<string, Value>, cols: nat): Result<seq<Placement>, ViewError>
    decreases cols
  {
    if cols == 0 then Ok([])
    else match RowTraces(b, row, model, color, taskData, cols - 1)
      case Err(e) => Err(e)
      case Ok(ps) =>
        match CellTraces(b, row, cols - 1, model, color, taskData)
        case Err(e) => Err(e)
        case Ok(qs) => Ok(ps + qs)
  }

  /** The loop over the first `rows` models, zipped with the colour cycle. */
  function GridTraces(b: Baseline, preds: Groups, rows: nat): Result<seq<Placement>, ViewError>
    requires rows <= |preds|
    decreases rows
  {
    if rows == 0 then Ok([])
    else match GridTraces(b, preds, rows - 1)
      case Err(e) => Err(e)
      case Ok(ps) =>
        var row := rows - 1;
        match RowTraces(b, row, preds[row].0, Cycle(Palette, |preds|)[row], preds[row].1, b.numTasks)
        case Err(e) => Err(e)
        case Ok(qs) => Ok(ps + qs)
  }

  /** `create_1d_prediction_graph`: the figure, or the exception it raises. */
  function Prediction1D(data: Data): Result<Graph, ViewError>
  {
    match Group(ByModel, data)
    case Err(e) => Err(e)
    case Ok(preds) =>
      match Get(preds, BaseModel)
      case None => Err(MissingBase)
      case Some(base) =>
        match BaselineOf(base)
        case Err(e) => Err(e)
        case Ok(b) =>
          match GridTraces(b, preds, |preds|)
          case Err(e) => Err(e)
          case Ok(ts) => Ok(Graph(|preds|, b.numTasks, Span(b.lo, b.hi), Backgrounds(b, base, |preds|) + ts))
  }

  // ---- The loops ----------------------------------------------------------

  /** The two inner loops drawing one baseline tensor in every cell. */
  method DrawBackgroundGrid(b: Baseline, metric: string, points: seq<real>, rows: nat) returns (ts: seq<Placement>)
    ensures ts == BackgroundGrid(b, metric, points, rows)
  {
    ts := [];
    for row := 0 to rows
      invariant ts == BackgroundGrid(b, metric, points, row)
    {
      ghost var before := ts;
      for col := 0 to b.numTasks
        invariant ts == before + BackgroundRow(b, metric, points, row)[..col]
      {
        assert BackgroundRow(b, metric, points, row)[..col + 1] == BackgroundRow(b, metric, points, row)[..col] + [Placement(row, col, BaseModel, metric, Background, Domain(b), points)];
        ts := ts + [Placement(row, col, BaseModel, metric, Background, Span(0.0, b.numTasks as real), points)];
      }
      assert BackgroundRow(b, metric, points, row)[..b.numTasks] == BackgroundRow(b, metric, points, row);
    }
  }

  /** The loop over the baselines, drawing each tensor in every cell. */
  method DrawBackgrounds(b: Baseline, base: Dict<string, Value>, rows: nat) returns (ts: seq<Placement>)
    ensures ts == Backgrounds(b, base, rows)
  {
    ts := [];
    for i := 0 to |base|
      invariant ts == Backgrounds(b, base[..i], rows)
    {
      assert base[..i + 1][..i] == base[..i];
      var (metric, values) := base[i];
      if values.Tensor? {
        var grid := DrawBackgroundGrid(b, metric, values.points, rows);
        ts := ts + grid;
      }
    }
    assert base[..|base|] == base;
  }

  /** Once a cell has raised, later results change nothing. */
  lemma {:induction false} CellErrorStays(b: Baseline, row: nat, col: nat, model: string, color: string, taskData: Dict<string, Value>, n: nat)
    requires n <= |taskData| && CellTraces(b, row, col, model, color, taskData[..n]).Err?
    ensures CellTraces(b, row, col, model, color, taskData) == CellTraces(b, row, col, model, color, taskData[..n])
    decreases |taskData| - n
  {
    if n < |taskData| {
      var front := taskData[..|taskData| - 1];
      assert front[..n] == taskData[..n];
      CellErrorStays(b, row, col, model, color, front, n);
    } else {
      assert taskData[..n] == taskData;
    }
  }

  /** The innermost loop: `values[col_idx]` of every list-valued result, with its x interval. */
  method DrawCell(b: Baseline, row: nat, col: nat, model: string, color: string, taskData: Dict<string, Value>)
    returns (r: Result<seq<Placement>, ViewError>)
    ensures r == CellTraces(b, row, col, model, color, taskData)
  {
    var ps: seq<Placement> := [];
    for i := 0 to |taskData|
      invariant CellTraces(b, row, col, model, color, taskData[..i]) == Ok(ps)
    {
      assert taskData[..i + 1][..i] == taskData[..i];
      var (metric, values) := taskData[i];
      if values.TensorList? {
        if col >= |values.items| {
          CellErrorStays(b, row, col, model, color, taskData, i + 1);
          return Err(MissingTask(model, metric));
        }
        var y := values.items[col];
        var x: Span;
        if |y| == b.numPoints {
          x := Span(0.0, b.numTasks as real);
        } else {
          x := Span(col as real, col as real + 1.0);
        }
        ps := ps + [Placement(row, col, model, metric, color, x, y)];
      }
    }
    assert taskData[..|taskData|] == taskData;
    r := Ok(ps);
  }

  /** Once a row has raised, later columns change nothing. */
  lemma {:induction false} RowErrorStays(b: Baseline, row: nat, model: string, color: string, taskData: Dict<string, Value>, c: nat, cols: nat)
    requires c <= cols && RowTraces(b, row, model, color, taskData, c).Err?
    ensures RowTraces(b, row, model, color, taskData, cols) == RowTraces(b, row, model, color, taskData, c)
    decreases cols
  {
    if c < cols {
      RowErrorStays(b, row, model, color, taskData, c, cols - 1);
    }
  }

  /** The loop over the columns of one row. */
  method DrawRow(b: Baseline, row: nat, model: string, color: string, taskData: Dict<string, Value>)
    returns (r: Result<seq<Placement>, ViewError>)
    ensures r == RowTraces(b, row, model, color, taskData, b.numTasks)
  {
    var ps: seq<Placement> := [];
    for col := 0 to b.numTasks
      invariant RowTraces(b, row, model, color, taskData, col) == Ok(ps)
    {
      var cell := DrawCell(b, row, col, model, color, taskData);
      if cell.Err? {
        RowErrorStays(b, row, model, color, taskData, col + 1, b.numTasks);
        return Err(cell.error);
      }
      ps := ps + cell.value;
    }
    r := Ok(ps);
  }

  /** Once the grid has raised, later rows change nothing. */
  lemma {:induction false} GridErrorStays(b: Baseline, preds: Groups, r: nat, rows: nat)
    requires r <= rows <= |preds| && GridTraces(b, preds, r).Err?
    ensures GridTraces(b, preds, rows) == GridTraces(b, preds, r)
    decreases rows
  {
    if r < rows {
      GridErrorStays(b, preds, r, rows - 1);
    }
  }

  /** One more row of the grid, drawn in the colour the generator yields at that row. */
  lemma GridStep(b: Baseline, preds: Groups, row: nat, ts: seq<Placement>)
    requires row < |preds| && GridTraces(b, preds, row) == Ok(ts)
    ensures GridTraces(b, preds, row + 1) ==
      match RowTraces(b, row, preds[row].0, Palette[row % 3], preds[row].1, b.numTasks)
      case Err(e) => Err(e)
      case Ok(qs) => Ok(ts + qs)
  {
    ColorAt(|preds|, row);
  }

  /** The loop over the models, each drawn in the colour the generator yields next. */
  method DrawGrid(b: Baseline, preds: Groups) returns (r: Result<seq<Placement>, ViewError>)
    ensures r == GridTraces(b, preds, |preds|)
  {
    var ts: seq<Placement> := [];
    var pos := 0;
    for row := 0 to |preds|
      invariant pos == row % 3
      invariant GridTraces(b, preds, row) == Ok(ts)
    {
      var (model, taskData) := preds[row];
      var drawn := DrawRow(b, row, model, Palette[pos], taskData);
      GridStep(b, preds, row, ts);
      if drawn.Err? {
        GridErrorStays(b, preds, row + 1, |preds|);
        return Err(drawn.error);
      }
      ts := ts + drawn.value;
      ModNext(row, 3);
      pos := (pos + 1) % 3;
    }
    r := Ok(ts);
  }

  /** `create_1d_prediction_graph` itself. */
  method Create1DPredictionGraph(data: Data) returns (r: Result<Graph, ViewError>)
    ensures r == Prediction1D(data)
  {
    var grouped := GroupEntries(ByModel, data);
    if grouped.Err? {
      return Err(grouped.error);
    }
    var preds := grouped.value;
    var found := Get(preds, BaseModel);
    if found.None? {
      return Err(MissingBase);
    }
    var base := found.value;
    var baseline := DeriveBaseline(base);
    if baseline.Err? {
      return Err(baseline.error);
    }
    var b := baseline.value;
    var backgrounds := DrawBackgrounds(b, base, |preds|);
    var grid := DrawGrid(b, preds);
    if grid.Err? {
      return Err(grid.error);
    }
    r := Ok(Graph(|preds|, b.numTasks, Span(b.lo, b.hi), backgrounds + grid.value));
  }

  /** `ExperimentDataType`: the kind of function an experiment learns. */
  datatype ExperimentDataType = Function1D | Function2D

  /** `create_prediction_graph`: the 1-D figure, or nothing for a 2-D experiment. */
  method CreatePredictionGraph(dtype: ExperimentDataType, data: Data) returns (r: Result<Option<Graph>, ViewError>)
    ensures dtype.Function2D? ==> r == Ok(None)
    ensures dtype.Function1D? ==> (r.Ok? <==> Prediction1D(data).Ok?)
    ensures dtype.Function1D? && r.Ok? ==> r.value == Some(Prediction1D(data).value)
    ensures dtype.Function1D? && r.Err? ==> r.error == Prediction1D(data).error
  {
    match dtype {
      case Function1D =>
        var graph := Create1DPredictionGraph(data);
        if graph.Err? {
          return Err(graph.error);
        }
        r := Ok(Some(graph.value));
      case Function2D =>
        r := Ok(None);
    }
  }
}
