/**
 * `create_loss_graphs`: one figure per loss metric, holding one line per
 * model, coloured from a fresh `plotly_colors` cycle for each figure.
 * Titles, legend names and the rendering itself are not modelled; a figure
 * is its metric and its lines in drawing order.
 */
module LossGraphs {
  import opened Wrappers
  import opened Dicts
  import opened ResultKeys
  import opened ResultGroups
  import opened Colors
  import opened Arith

  /** One `go.Scatter` line: a model's loss values for the figure's metric, and its colour. */
  datatype Trace = Trace(model: string, values: Value, color: string)

  /** One `go.Figure`: every model's line for one metric. */
  datatype Figure = Figure(metric: string, traces: seq<Trace>)

  /** The figure for `metric`, zipping the models with the colour cycle. */
  function FigureOf(metric: string, byModel: Dict<string, Value>): Figure
  {
    var colors := Cycle(Palette, |byModel|);
    Figure(metric, seq(|byModel|, j requires 0 <= j < |byModel| => Trace(byModel[j].0, byModel[j].1, colors[j])))
  }

  /** One figure per metric, in the order the metrics were first met. */
  function Figures(g: Groups): seq<Figure>
  {
    seq(|g|, i requires 0 <= i < |g| => FigureOf(g[i].0, g[i].1))
  }

  /** The whole view: the figures, or the exception the grouping loop raises. */
  function LossGraphs(data: Data): Result<seq<Figure>, ViewError>
  {
    match Group(ByMetric, data)
    case Err(e) => Err(e)
    case Ok(g) => Ok(Figures(g))
  }

  /** The inner loop: the generator advances one colour per model. */
  method BuildFigure(metric: string, byModel: Dict<string, Value>) returns (f: Figure)
    ensures f == FigureOf(metric, byModel)
  {
    var traces: seq<Trace> := [];
    var pos := 0;
    for j := 0 to |byModel|
      invariant pos == j % 3
      invariant traces == FigureOf(metric, byModel).traces[..j]
    {
      ColorAt(|byModel|, j);
      var (model, values) := byModel[j];
      traces := traces + [Trace(model, values, Palette[pos])];
      ModNext(j, 3);
      pos := (pos + 1) % 3;
    }
    f := Figure(metric, traces);
  }

  /** `create_loss_graphs` itself: the grouping loop, then one figure per metric. */
  method CreateLossGraphs(data: Data) returns (r: Result<seq<Figure>, ViewError>)
    ensures r == LossGraphs(data)
  {
    var grouped := GroupEntries(ByMetric, data);
    if grouped.Err? {
      return Err(grouped.error);
    }
    var g := grouped.value;
    var plots := DrawFigures(g);
    r := Ok(plots);
  }

  /** The outer loop: one figure per metric. */
  method DrawFigures(g: Groups) returns (plots: seq<Figure>)
    ensures plots == Figures(g)
  {
    plots := [];
    for i := 0 to |g|
      invariant plots == Figures(g)[..i]
    {
      var f := BuildFigure(g[i].0, g[i].1);
      plots := plots + [f];
    }
  }

  /** A key that `create_loss_graphs` draws under `metric`. */
  ghost predicate LossKeyOf(k: string, metric: string)
  {
    EndsWith(k, "loss") && RSplit2(k).Some? && RSplit2(k).value.metric == metric
  }

  /** The view is built exactly when every loss key holds two underscores and every loss value is a tensor. */
  lemma LossGraphsOkIff(data: Data)
    ensures LossGraphs(data).Ok? <==>
      forall i :: 0 <= i < |data| && EndsWith(data[i].0, "loss") ==> TwoUnderscores(data[i].0) && data[i].1.Tensor?
  {
    GroupOkIff(Rule(ByMetric), data);
    forall i | 0 <= i < |data|
      ensures Rule(ByMetric)(data[i].0, data[i].1).Raise? <==>
        (EndsWith(data[i].0, "loss") && !(TwoUnderscores(data[i].0) && data[i].1.Tensor?))
    {
      ClassifyRaise(ByMetric, data[i].0, data[i].1);
    }
  }

  /** The metrics of the figures are the first-level keys of the loss grouping, so none repeats. */
  lemma LossFigureMetricsDistinct(data: Data, figs: seq<Figure>)
    requires LossGraphs(data) == Ok(figs)
    ensures forall i, j :: 0 <= i < j < |figs| ==> figs[i].metric != figs[j].metric
  {
    var g := Group(ByMetric, data).value;
    GroupOuterKeys(Rule(ByMetric), data, g, "");
    assert forall i :: 0 <= i < |figs| ==> figs[i].metric == g[i].0;
  }

  /** A metric gets a figure exactly when some loss key names it. */
  lemma LossFigureMetrics(data: Data, figs: seq<Figure>, metric: string)
    requires LossGraphs(data) == Ok(figs)
    ensures (exists i :: 0 <= i < |figs| && figs[i].metric == metric) <==>
      (exists i :: 0 <= i < |data| && LossKeyOf(data[i].0, metric))
  {
    if exists i :: 0 <= i < |data| && LossKeyOf(data[i].0, metric) {
      var i :| 0 <= i < |data| && LossKeyOf(data[i].0, metric);
      FigureOfLossKey(data, figs, i, metric);
    }
    if exists i :: 0 <= i < |figs| && figs[i].metric == metric {
      var i :| 0 <= i < |figs| && figs[i].metric == metric;
      LossKeyOfFigure(data, figs, i);
    }
  }

  lemma FigureOfLossKey(data: Data, figs: seq<Figure>, i: nat, metric: string)
    requires LossGraphs(data) == Ok(figs) && i < |data| && LossKeyOf(data[i].0, metric)
    ensures exists f :: 0 <= f < |figs| && figs[f].metric == metric
  {
    var g := Group(ByMetric, data).value;
    LossKeyFiled(data, i, metric);
    GroupOuterKeys(Rule(ByMetric), data, g, metric);
    var f := Find(g, metric).value;
    assert figs[f].metric == metric;
  }

  lemma LossKeyOfFigure(data: Data, figs: seq<Figure>, f: nat)
    requires LossGraphs(data) == Ok(figs) && f < |figs|
    ensures exists i :: 0 <= i < |data| && LossKeyOf(data[i].0, figs[f].metric)
  {
    var g := Group(ByMetric, data).value;
    var metric := figs[f].metric;
    assert Keys(g)[f] == metric;
    var i := GroupOuterWitness(Rule(ByMetric), data, g, metric);
    var filing := Classify(ByMetric, data[i].0, data[i].1);
    ClassifyFile(ByMetric, data[i].0, data[i].1, filing.outer, filing.inner);
  }

  /** In a view that was built, a loss key naming `metric` is filed under it. */
  lemma LossKeyFiled(data: Data, i: nat, metric: string)
    requires LossGraphs(data).Ok? && i < |data| && LossKeyOf(data[i].0, metric)
    ensures Rule(ByMetric)(data[i].0, data[i].1).File? && Rule(ByMetric)(data[i].0, data[i].1).outer == metric
  {
    GroupOkIff(Rule(ByMetric), data);
    assert !Rule(ByMetric)(data[i].0, data[i].1).Raise?;
  }

  /** The j-th line of every figure is red, blue, green, red, ... by position. */
  lemma LossTraceColor(data: Data, figs: seq<Figure>, i: nat, j: nat)
    requires LossGraphs(data) == Ok(figs) && i < |figs| && j < |figs[i].traces|
    ensures figs[i].traces[j].color == Palette[j % 3]
    ensures j + 1 < |figs[i].traces| ==> figs[i].traces[j + 1].color != figs[i].traces[j].color
  {
    var g := Group(ByMetric, data).value;
    ColorAt(|g[i].1|, j);
    if j + 1 < |figs[i].traces| {
      ColorsAlternate(|g[i].1|, j);
    }
  }

  /**
   * Each line draws a tensor: the value of the last loss entry whose key
   * unpacks to the line's model and the figure's metric.
   */
  lemma LossTraceValues(data: Data, figs: seq<Figure>, i: nat, j: nat)
    requires LossGraphs(data) == Ok(figs) && i < |figs| && j < |figs[i].traces|
    ensures figs[i].traces[j].values.Tensor?
    ensures exists k :: (0 <= k < |data| && LastFiled(Rule(ByMetric), data, k, figs[i].metric, figs[i].traces[j].model) &&
      data[k].1 == figs[i].traces[j].values)
  {
    var g := Group(ByMetric, data).value;
    GroupOuterKeys(Rule(ByMetric), data, g, g[i].0);
    GetAt(g, i);
    GetAt(g[i].1, j);
    assert Get2(g, g[i].0, g[i].1[j].0) == Some(g[i].1[j].1);
    LossGroupsHoldTensors(data, g, g[i].0, g[i].1[j].0);
    GroupLookup(Rule(ByMetric), data, g, g[i].0, g[i].1[j].0);
  }

  /** Every loss entry is drawn: its metric has a figure holding a line for its model. */
  lemma LossEntryDrawn(data: Data, figs: seq<Figure>, k: nat)
    requires LossGraphs(data) == Ok(figs) && k < |data| && EndsWith(data[k].0, "loss")
    ensures RSplit2(data[k].0).Some?
    ensures exists i, j :: (0 <= i < |figs| && 0 <= j < |figs[i].traces| &&
      figs[i].metric == RSplit2(data[k].0).value.metric && figs[i].traces[j].model == RSplit2(data[k].0).value.model)
  {
    var g := Group(ByMetric, data).value;
    GroupReachable(ByMetric, data, g, k);
    var p := RSplit2(data[k].0).value;
    var inner := Get(g, p.metric).value;
    GetStored(g, p.metric, inner);
    var i :| 0 <= i < |g| && g[i] == (p.metric, inner);
    GetStored(inner, p.model, Get(inner, p.model).value);
    var j :| 0 <= j < |inner| && inner[j] == (p.model, Get(inner, p.model).value);
    assert figs[i].metric == p.metric && figs[i].traces[j].model == p.model;
  }
}
