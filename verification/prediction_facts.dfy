/**
 * What the prediction figure shows, stated against the grouped results:
 * when it can be built, that every line drawn comes from a result and sits
 * in its own cell, and that every result is drawn in every cell it belongs
 * to.
 */
module PredictionFacts {
  import opened Wrappers
  import opened Dicts
  import opened ResultGroups
  import opened Colors
  import opened BaselineScan
  import opened PredictionGraph

  /** Every list-valued result in `taskData` has at least `cols` per-task tensors. */
  ghost predicate LongEnough(taskData: Dict<string, Value>, cols: nat)
  {
    forall i :: 0 <= i < |taskData| && taskData[i].1.TensorList? ==> cols <= |taskData[i].1.items|
  }

  /** `p` is the line of column `col` of some list-valued result in `taskData`, owned by `model`, in `color`. */
  ghost predicate Drawn(b: Baseline, row: nat, col: nat, model: string, color: string, taskData: Dict<string, Value>, p: Placement)
  {
    exists i :: 0 <= i < |taskData| && taskData[i].1.TensorList? && col < |taskData[i].1.items| &&
      p == Placed(b, row, col, model, color, taskData[i].0, taskData[i].1.items[col])
  }

  // ---- One cell -----------------------------------------------------------

  /** A cell is drawn exactly when every list-valued result reaches its column. */
  lemma {:induction false} CellOkIff(b: Baseline, row: nat, col: nat, model: string, color: string, taskData: Dict<string, Value>)
    ensures CellTraces(b, row, col, model, color, taskData).Ok? <==> LongEnough(taskData, col + 1)
    decreases |taskData|
  {
    if taskData != [] {
      var front := taskData[..|taskData| - 1];
      CellOkIff(b, row, col, model, color, front);
      assert forall i :: 0 <= i < |front| ==> front[i] == taskData[i];
    }
  }

  /** Every line of a cell is some list-valued result's tensor for that column. */
  lemma {:induction false} CellSound(b: Baseline, row: nat, col: nat, model: string, color: string, taskData: Dict<string, Value>, ps: seq<Placement>)
    requires CellTraces(b, row, col, model, color, taskData) == Ok(ps)
    ensures forall p :: p in ps ==> Drawn(b, row, col, model, color, taskData, p)
    decreases |taskData|
  {
    if taskData != [] {
      var n := |taskData| - 1;
      var front := taskData[..n];
      var ps0 := CellTraces(b, row, col, model, color, front).value;
      CellSound(b, row, col, model, color, front, ps0);
      forall p | p in ps ensures Drawn(b, row, col, model, color, taskData, p) {
        if p in ps0 {
          var i :| 0 <= i < |front| && front[i].1.TensorList? && col < |front[i].1.items| &&
            p == Placed(b, row, col, model, color, front[i].0, front[i].1.items[col]);
          assert taskData[i] == front[i];
        } else {
          assert p == Placed(b, row, col, model, color, taskData[n].0, taskData[n].1.items[col]);
        }
      }
    }
  }

  /** Every list-valued result is drawn in the cell. */
  lemma {:induction false} CellComplete(b: Baseline, row: nat, col: nat, model: string, color: string, taskData: Dict<string, Value>, ps: seq<Placement>, i: nat)
    requires CellTraces(b, row, col, model, color, taskData) == Ok(ps)
    requires i < |taskData| && taskData[i].1.TensorList?
    ensures col < |taskData[i].1.items|
    ensures Placed(b, row, col, model, color, taskData[i].0, taskData[i].1.items[col]) in ps
    decreases |taskData|
  {
    var n := |taskData| - 1;
    var front := taskData[..n];
    var ps0 := CellTraces(b, row, col, model, color, front).value;
    if i < n {
      assert front[i] == taskData[i];
      CellComplete(b, row, col, model, color, front, ps0, i);
    }
  }

  // ---- One row ------------------------------------------------------------

  /** The first `cols` cells of a row are drawn exactly when every list-valued result has `cols` tasks. */
  lemma {:induction false} RowOkIff(b: Baseline, row: nat, model: string, color: string, taskData: Dict<string, Value>, cols: nat)
    ensures RowTraces(b, row, model, color, taskData, cols).Ok? <==> LongEnough(taskData, cols)
    decreases cols
  {
    if cols > 0 {
      RowOkIff(b, row, model, color, taskData, cols - 1);
      CellOkIff(b, row, cols - 1, model, color, taskData);
    }
  }

  lemma {:induction false} RowSound(b: Baseline, row: nat, model: string, color: string, taskData: Dict<string, Value>, cols: nat, ps: seq<Placement>)
    requires RowTraces(b, row, model, color, taskData, cols) == Ok(ps)
    ensures forall p :: p in ps ==> p.col < cols && Drawn(b, row, p.col, model, color, taskData, p)
    decreases cols
  {
    if cols > 0 {
      var ps0 := RowTraces(b, row, model, color, taskData, cols - 1).value;
      var qs := CellTraces(b, row, cols - 1, model, color, taskData).value;
      RowSound(b, row, model, color, taskData, cols - 1, ps0);
      CellSound(b, row, cols - 1, model, color, taskData, qs);
      assert forall p :: p in ps ==> p in ps0 || p in qs;
    }
  }

  lemma {:induction false} RowComplete(b: Baseline, row: nat, model: string, color: string, taskData: Dict<string, Value>, cols: nat, ps: seq<Placement>, col: nat, i: nat)
    requires RowTraces(b, row, model, color, taskData, cols) == Ok(ps)
    requires col < cols && i < |taskData| && taskData[i].1.TensorList?
    ensures col < |taskData[i].1.items|
    ensures Placed(b, row, col, model, color, taskData[i].0, taskData[i].1.items[col]) in ps
    decreases cols
  {
    var ps0 := RowTraces(b, row, model, color, taskData, cols - 1).value;
    var qs := CellTraces(b, row, cols - 1, model, color, taskData).value;
    if col < cols - 1 {
      RowComplete(b, row, model, color, taskData, cols - 1, ps0, col, i);
    } else {
      CellComplete(b, row, col, model, color, taskData, qs, i);
    }
  }

  // ---- The grid -----------------------------------------------------------

  /** The first `rows` rows are drawn exactly when each of their models' list-valued results covers every task. */
  lemma {:induction false} GridOkIff(b: Baseline, preds: Groups, rows: nat)
    requires rows <= |preds|
    ensures GridTraces(b, preds, rows).Ok? <==> forall r :: 0 <= r < rows ==> LongEnough(preds[r].1, b.numTasks)
    decreases rows
  {
    if rows > 0 {
      GridOkIff(b, preds, rows - 1);
      RowOkIff(b, rows - 1, preds[rows - 1].0, Cycle(Palette, |preds|)[rows - 1], preds[rows - 1].1, b.numTasks);
    }
  }

  /**
   * Every prediction line sits in a cell of the grid and is the tensor,
   * for that cell's task, of a list-valued result of the row's model,
   * drawn in the row's colour.
   */
  lemma {:induction false} GridSound(b: Baseline, preds: Groups, rows: nat, ts: seq<Placement>)
    requires rows <= |preds| && GridTraces(b, preds, rows) == Ok(ts)
    ensures forall p :: p in ts ==> (p.row < rows && p.col < b.numTasks &&
      Drawn(b, p.row, p.col, preds[p.row].0, Palette[p.row % 3], preds[p.row].1, p))
    decreases rows
  {
    if rows > 0 {
      var row := rows - 1;
      var ps0 := GridTraces(b, preds, row).value;
      var qs := RowTraces(b, row, preds[row].0, Cycle(Palette, |preds|)[row], preds[row].1, b.numTasks).value;
      GridSound(b, preds, row, ps0);
      RowSound(b, row, preds[row].0, Cycle(Palette, |preds|)[row], preds[row].1, b.numTasks, qs);
      ColorAt(|preds|, row);
      assert forall p :: p in ts ==> p in ps0 || p in qs;
    }
  }

  /** Every list-valued result of every model is drawn in every column of its row. */
  lemma {:induction false} GridComplete(b: Baseline, preds: Groups, rows: nat, ts: seq<Placement>, row: nat, col: nat, i: nat)
    requires rows <= |preds| && GridTraces(b, preds, rows) == Ok(ts)
    requires row < rows && col < b.numTasks && i < |preds[row].1| && preds[row].1[i].1.TensorList?
    ensures col < |preds[row].1[i].1.items|
    ensures Placed(b, row, col, preds[row].0, Palette[row % 3], preds[row].1[i].0, preds[row].1[i].1.items[col]) in ts
    decreases rows
  {
    var ps0 := GridTraces(b, preds, rows - 1).value;
    var color := Cycle(Palette, |preds|)[rows - 1];
    var qs := RowTraces(b, rows - 1, preds[rows - 1].0, color, preds[rows - 1].1, b.numTasks).value;
    if row < rows - 1 {
      GridComplete(b, preds, rows - 1, ps0, row, col, i);
    } else {
      ColorAt(|preds|, row);
      RowComplete(b, row, preds[row].0, color, preds[row].1, b.numTasks, qs, col, i);
    }
  }

  // ---- The baseline lines -------------------------------------------------

  lemma {:induction false} BackgroundGridCells(b: Baseline, metric: string, points: seq<real>, rows: nat, row: nat, col: nat)
    requires row < rows && col < b.numTasks
    ensures Placement(row, col, BaseModel, metric, Background, Domain(b), points) in BackgroundGrid(b, metric, points, rows)
    decreases rows
  {
    if row < rows - 1 {
      BackgroundGridCells(b, metric, points, rows - 1, row, col);
    } else {
      assert BackgroundRow(b, metric, points, row)[col] == Placement(row, col, BaseModel, metric, Background, Domain(b), points);
    }
  }

  lemma {:induction false} BackgroundGridOnly(b: Baseline, metric: string, points: seq<real>, rows: nat)
    ensures forall p :: p in BackgroundGrid(b, metric, points, rows) ==>
      (p.row < rows && p.col < b.numTasks && p == Placement(p.row, p.col, BaseModel, metric, Background, Domain(b), points))
    decreases rows
  {
    if rows > 0 {
      BackgroundGridOnly(b, metric, points, rows - 1);
    }
  }

  /** Every faint line lies in the grid and is a baseline tensor drawn across the whole domain. */
  lemma {:induction false} BackgroundsSound(b: Baseline, base: Dict<string, Value>, rows: nat)
    ensures forall p :: p in Backgrounds(b, base, rows) ==>
      (p.row < rows && p.col < b.numTasks && p.model == BaseModel && p.color == Background && p.span == Domain(b) &&
       exists i :: 0 <= i < |base| && base[i] == (p.metric, Tensor(p.points)))
    decreases |base|
  {
    if base != [] {
      var n := |base| - 1;
      var front := base[..n];
      var last := if base[n].1.Tensor? then BackgroundGrid(b, base[n].0, base[n].1.points, rows) else [];
      assert Backgrounds(b, base, rows) == Backgrounds(b, front, rows) + last;
      BackgroundsSound(b, front, rows);
      assert forall i :: 0 <= i < n ==> front[i] == base[i];
      if base[n].1.Tensor? {
        BackgroundGridOnly(b, base[n].0, base[n].1.points, rows);
      }
    }
  }

  /** Every baseline tensor is drawn across the whole domain in every cell. */
  lemma {:induction false} BackgroundsComplete(b: Baseline, base: Dict<string, Value>, rows: nat)
    ensures forall i, row, col :: 0 <= i < |base| && base[i].1.Tensor? && 0 <= row < rows && 0 <= col < b.numTasks ==>
      Placement(row, col, BaseModel, base[i].0, Background, Domain(b), base[i].1.points) in Backgrounds(b, base, rows)
    decreases |base|
  {
    if base != [] {
      var n := |base| - 1;
      var front := base[..n];
      var last := if base[n].1.Tensor? then BackgroundGrid(b, base[n].0, base[n].1.points, rows) else [];
      assert Backgrounds(b, base, rows) == Backgrounds(b, front, rows) + last;
      BackgroundsComplete(b, front, rows);
      assert forall i :: 0 <= i < n ==> front[i] == base[i];
      if base[n].1.Tensor? {
        forall row, col | 0 <= row < rows && 0 <= col < b.numTasks
          ensures Placement(row, col, BaseModel, base[n].0, Background, Domain(b), base[n].1.points) in last
        {
          BackgroundGridCells(b, base[n].0, base[n].1.points, rows, row, col);
        }
      }
    }
  }

  /**
   * The faint lines are exactly the baseline tensors, each drawn across the
   * whole domain in every cell: every one lies in the grid and comes from a
   * baseline tensor, and every baseline tensor is drawn in every cell.
   */
  lemma BackgroundsExact(b: Baseline, base: Dict<string, Value>, rows: nat)
    ensures forall p :: p in Backgrounds(b, base, rows) ==>
      (p.row < rows && p.col < b.numTasks && p.model == BaseModel && p.color == Background && p.span == Domain(b) &&
       exists i :: 0 <= i < |base| && base[i] == (p.metric, Tensor(p.points)))
    ensures forall i, row, col :: 0 <= i < |base| && base[i].1.Tensor? && 0 <= row < rows && 0 <= col < b.numTasks ==>
      Placement(row, col, BaseModel, base[i].0, Background, Domain(b), base[i].1.points) in Backgrounds(b, base, rows)
  {
    BackgroundsSound(b, base, rows);
    BackgroundsComplete(b, base, rows);
  }

  // ---- The figure ---------------------------------------------------------

  /**
   * The figure is built exactly when the grouping loop completes, a "base"
   * model has predictions, its baseline yields all three quantities, and
   * every model's list-valued predictions cover every task.
   */
  lemma Prediction1DOkIff(data: Data)
    ensures Prediction1D(data).Ok? <==>
      (Group(ByModel, data).Ok? && Get(Group(ByModel, data).value, BaseModel).Some? &&
       BaselineOf(Get(Group(ByModel, data).value, BaseModel).value).Ok? &&
       forall r :: 0 <= r < |Group(ByModel, data).value| ==>
         LongEnough(Group(ByModel, data).value[r].1, BaselineOf(Get(Group(ByModel, data).value, BaseModel).value).value.numTasks))
  {
    if Group(ByModel, data).Ok? {
      var preds := Group(ByModel, data).value;
      if Get(preds, BaseModel).Some? && BaselineOf(Get(preds, BaseModel).value).Ok? {
        GridOkIff(BaselineOf(Get(preds, BaseModel).value).value, preds, |preds|);
      }
    }
  }

  /**
   * Every line of the figure lies in a cell of the grid (the grid has at
   * least the "base" row) and its x interval stays within the domain while
   * covering its own cell's task; lines are light blue or a palette colour.
   */
  lemma Prediction1DInGrid(data: Data, gr: Graph)
    requires Prediction1D(data) == Ok(gr)
    ensures gr.rows >= 1
    ensures forall p :: p in gr.traces ==>
      (p.row < gr.rows && p.col < gr.cols &&
       0.0 <= p.span.lo <= p.col as real && p.col as real + 1.0 <= p.span.hi <= gr.cols as real &&
       (p.color == Background || p.color in Palette))
  {
    var preds := Group(ByModel, data).value;
    var base := Get(preds, BaseModel).value;
    var b := BaselineOf(base).value;
    var ts := GridTraces(b, preds, |preds|).value;
    BackgroundsExact(b, base, |preds|);
    GridSound(b, preds, |preds|, ts);
    forall p | p in gr.traces
      ensures p.row < gr.rows && p.col < gr.cols &&
        0.0 <= p.span.lo <= p.col as real && p.col as real + 1.0 <= p.span.hi <= gr.cols as real &&
        (p.color == Background || p.color in Palette)
    {
      if p in ts {
        TaskSpanInDomain(b, |p.points|, p.col);
      }
    }
  }
}
