/**
 * The bookkeeping of `train_model`: the rolling loss, the iteration
 * counter, the logging cadence and the per-dataset result series.
 *
 * The network, the optimiser and the data loaders are abstracted away. A
 * training batch contributes only its evaluation loss, a `real`. An
 * evaluation pass over a dataset contributes the list of its per-batch
 * evaluation losses. Which losses an evaluation pass yields depends on the
 * state of the model, which is determined by how many batches it has been
 * trained on, so the passes of a whole run are given as a function of the
 * iteration count and the dataset name.
 */
module Training {
  import opened Wrappers
  import opened Arith

  const TrainName: string := "train"

  datatype TrainError =
    | MissingTrainDataset  // `datasets["train"]` raises KeyError
    | ZeroLoggingFreq      // `iteration % logging_freq` divides by zero
    | EmptyEvalDataset     // `sum(losses) / len(losses)` over a dataset with no batches

  /** The datasets that get an evaluation data loader. */
  function EvalNames(datasets: set<string>): set<string>
  {
    datasets - {TrainName}
  }

  function Sum(xs: seq<real>): real
    decreases |xs|
  {
    if xs == [] then 0.0 else Sum(xs[..|xs| - 1]) + xs[|xs| - 1]
  }

  /** `sum(losses) / len(losses)` */
  function Mean(xs: seq<real>): real
    requires |xs| > 0
  {
    Sum(xs) / |xs| as real
  }

  /** `min(iteration, logging_freq)` */
  function Window(i: nat, loggingFreq: nat): nat
  {
    if i < loggingFreq then i else loggingFreq
  }

  /** The rolling-loss update at 0-based iteration `i` with evaluation loss `e`. */
  function RollingStep(r: real, i: nat, loggingFreq: nat, e: real): real
    requires loggingFreq >= 1
  {
    if i == 0 then e
    else
      var n := Window(i, loggingFreq);
      (r * ((n - 1) as real) + e) / (n as real)
  }

  /** The rolling loss after the batches whose evaluation losses are `es`, from 0. */
  function Rolling(loggingFreq: nat, es: seq<real>): real
    requires loggingFreq >= 1
    decreases |es|
  {
    if es == [] then 0.0
    else RollingStep(Rolling(loggingFreq, es[..|es| - 1]), |es| - 1, loggingFreq, es[|es| - 1])
  }

  /**
   * The `"train"` series after the batches `es`: the rolling loss is
   * appended whenever the incremented iteration count is a multiple of the
   * logging frequency.
   */
  function TrainSeries(loggingFreq: nat, es: seq<real>): seq<real>
    requires loggingFreq >= 1
    decreases |es|
  {
    if es == [] then []
    else
      var before := TrainSeries(loggingFreq, es[..|es| - 1]);
      if |es| % loggingFreq == 0 then before + [Rolling(loggingFreq, es)] else before
  }

  /** Every evaluation pass that a run of `count` batches makes over `name` sees a batch. */
  ghost predicate PassesSeeBatches(name: string, loggingFreq: nat, count: nat, evalLosses: (nat, string) -> seq<real>)
    requires loggingFreq >= 1
  {
    forall i: nat :: 1 <= i <= count && i % loggingFreq == 0 ==> |evalLosses(i, name)| > 0
  }

  /** Every evaluation pass of a run of `count` batches sees a batch of every dataset it visits. */
  ghost predicate PassesOk(datasets: set<string>, loggingFreq: nat, count: nat, evalLosses: (nat, string) -> seq<real>)
    requires loggingFreq >= 1
  {
    forall i: nat, name :: 1 <= i <= count && i % loggingFreq == 0 && name in EvalNames(datasets) ==> |evalLosses(i, name)| > 0
  }

  /** One evaluation pass sees a batch of every dataset in `names`. */
  ghost predicate PassNonEmpty(evalPass: string -> seq<real>, names: set<string>)
  {
    forall name :: name in names ==> |evalPass(name)| > 0
  }

  /** The series of an evaluation dataset after `count` batches: one mean per logging point. */
  function EvalSeries(name: string, loggingFreq: nat, count: nat, evalLosses: (nat, string) -> seq<real>): seq<real>
    requires loggingFreq >= 1
    requires PassesSeeBatches(name, loggingFreq, count, evalLosses)
    decreases count
  {
    if count == 0 then []
    else
      var before := EvalSeries(name, loggingFreq, count - 1, evalLosses);
      if count % loggingFreq == 0 then before + [Mean(evalLosses(count, name))] else before
  }

  /** The result map after the batches `es`. */
  ghost function Results(datasets: set<string>, loggingFreq: nat, es: seq<real>, evalLosses: (nat, string) -> seq<real>): map<string, seq<real>>
    requires loggingFreq >= 1
    requires PassesOk(datasets, loggingFreq, |es|, evalLosses)
  {
    map name | name in datasets ::
      if name == TrainName then TrainSeries(loggingFreq, es) else EvalSeries(name, loggingFreq, |es|, evalLosses)
  }

  /** Every dataset's series with one more mean appended: one evaluation pass. */
  ghost function AppendMeans(results: map<string, seq<real>>, names: set<string>, evalPass: string -> seq<real>): map<string, seq<real>>
    requires PassNonEmpty(evalPass, names)
  {
    map name | name in results :: if name in names then results[name] + [Mean(evalPass(name))] else results[name]
  }

  /** The evaluation losses of all training batches, epoch after epoch. */
  function Flatten(epochs: seq<seq<real>>): seq<real>
    decreases |epochs|
  {
    if epochs == [] then [] else Flatten(epochs[..|epochs| - 1]) + epochs[|epochs| - 1]
  }

  /**
   * What `train_model` returns, or the error it raises, when the training
   * batches have the evaluation losses `es`.
   */
  ghost function Run(datasets: set<string>, loggingFreq: nat, es: seq<real>, evalLosses: (nat, string) -> seq<real>): Result<map<string, seq<real>>, TrainError>
  {
    if TrainName !in datasets then Err(MissingTrainDataset)
    else if loggingFreq == 0 then
      if es == [] then Ok(map name | name in datasets :: []) else Err(ZeroLoggingFreq)
    else if !PassesOk(datasets, loggingFreq, |es|, evalLosses) then Err(EmptyEvalDataset)
    else Ok(Results(datasets, loggingFreq, es, evalLosses))
  }

  /** The state `train_model` keeps while it runs. */
  class TrainingRun {
    const datasets: set<string>
    const loggingFreq: nat
    var iteration: nat
    var rollingLoss: real
    var results: map<string, seq<real>>
    /** The evaluation losses of the training batches consumed so far. */
    ghost var seen: seq<real>

    ghost predicate Valid()
      reads this
    {
      && TrainName in datasets
      && loggingFreq >= 1
      && results.Keys == datasets
      && iteration == |seen|
      && rollingLoss == Rolling(loggingFreq, seen)
      && results[TrainName] == TrainSeries(loggingFreq, seen)
      && forall name :: name in results ==> |results[name]| == iteration / loggingFreq
    }

    /** The state before the first epoch: every series empty, both counters at 0. */
    constructor (datasets: set<string>, loggingFreq: nat)
      requires TrainName in datasets && loggingFreq >= 1
      ensures Valid()
      ensures this.datasets == datasets && this.loggingFreq == loggingFreq
      ensures seen == [] && iteration == 0 && rollingLoss == 0.0
      ensures results == map name | name in datasets :: []
    {
      this.datasets := datasets;
      this.loggingFreq := loggingFreq;
      results := map name | name in datasets :: [];
      rollingLoss := 0.0;
      iteration := 0;
      seen := [];
    }

    /**
     * The evaluation pass: one mean of per-batch losses appended to the
     * series of every dataset other than `"train"`. It fails when some
     * dataset yields no batch.
     */
    method EvaluateAll(evalPass: string -> seq<real>) returns (ok: bool)
      requires results.Keys == datasets
      modifies this`results
      ensures ok <==> PassNonEmpty(evalPass, EvalNames(datasets))
      ensures ok ==> results == AppendMeans(old(results), EvalNames(datasets), evalPass)
    {
      var pending := EvalNames(datasets);
      ghost var done: set<string> := {};
      while pending != {}
        invariant pending !! done && pending + done == EvalNames(datasets)
        invariant PassNonEmpty(evalPass, done)
        invariant results == AppendMeans(old(results), done, evalPass)
        decreases pending
      {
        var name :| name in pending;
        var losses := evalPass(name);
        if |losses| == 0 {
          return false;
        }
        results := results[name := results[name] + [Mean(losses)]];
        pending := pending - {name};
        done := done + {name};
      }
      return true;
    }

    /** The rolling-loss update for a batch whose evaluation loss is `evalLoss`. */
    method UpdateRollingLoss(evalLoss: real)
      requires loggingFreq >= 1
      modifies this`rollingLoss
      ensures rollingLoss == RollingStep(old(rollingLoss), iteration, loggingFreq, evalLoss)
    {
      if iteration == 0 {
        rollingLoss := evalLoss;
      } else {
        var n := Window(iteration, loggingFreq);
        rollingLoss := (rollingLoss * ((n - 1) as real) + evalLoss) / (n as real);
      }
    }

    /** A logging point: the rolling loss joins the `"train"` series, then the evaluation pass runs. */
    method LogPoint(evalPass: string -> seq<real>) returns (ok: bool)
      requires results.Keys == datasets && TrainName in datasets
      modifies this`results
      ensures ok <==> PassNonEmpty(evalPass, EvalNames(datasets))
      ensures ok ==> results == AppendMeans(old(results)[TrainName := old(results)[TrainName] + [rollingLoss]], EvalNames(datasets), evalPass)
    {
      results := results[TrainName := results[TrainName] + [rollingLoss]];
      ok := EvaluateAll(evalPass);
    }

    /**
     * One training batch whose evaluation loss is `evalLoss`: the rolling
     * loss is updated, the iteration counter incremented, and at a logging
     * point the rolling loss is recorded and `evalPass` is consumed.
     */
    method TrainBatch(evalLoss: real, evalPass: string -> seq<real>) returns (ok: bool)
      requires Valid()
      modifies this
      ensures ok ==> Valid()
      ensures seen == old(seen) + [evalLoss]
      ensures iteration == old(iteration) + 1
      ensures rollingLoss == RollingStep(old(rollingLoss), old(iteration), loggingFreq, evalLoss)
      ensures ok <==> (iteration % loggingFreq == 0 ==> PassNonEmpty(evalPass, EvalNames(datasets)))
      ensures ok && iteration % loggingFreq != 0 ==> results == old(results)
      ensures ok && iteration % loggingFreq == 0 ==>
        results == AppendMeans(old(results)[TrainName := old(results)[TrainName] + [rollingLoss]], EvalNames(datasets), evalPass)
    {
      UpdateRollingLoss(evalLoss);
      iteration := iteration + 1;
      seen := seen + [evalLoss];
      RollingSnoc(loggingFreq, old(seen), evalLoss);
      TrainSeriesSnoc(loggingFreq, old(seen), evalLoss);
      DivStep(iteration - 1, loggingFreq);
      ok := true;
      if iteration % loggingFreq == 0 {
        ok := LogPoint(evalPass);
      }
      if ok {
        assert rollingLoss == Rolling(loggingFreq, seen);
        assert results[TrainName] == TrainSeries(loggingFreq, seen);
        LengthsAfterBatch(old(results), results, iteration, loggingFreq, EvalNames(datasets), evalPass, rollingLoss);
      }
    }

    /**
     * One batch seen against the whole run's evaluation losses: the batch
     * index the passes are made at is the incremented iteration count.
     */
    method TrainStep(evalLoss: real, evalLosses: (nat, string) -> seq<real>) returns (ok: bool)
      requires Valid()
      requires PassesOk(datasets, loggingFreq, |seen|, evalLosses)
      requires results == Results(datasets, loggingFreq, seen, evalLosses)
      modifies this
      ensures seen == old(seen) + [evalLoss]
      ensures ok ==> Valid() && PassesOk(datasets, loggingFreq, |seen|, evalLosses)
      ensures ok ==> results == Results(datasets, loggingFreq, seen, evalLosses)
      ensures !ok ==> !PassesOk(datasets, loggingFreq, |seen|, evalLosses)
    {
      ghost var before := seen;
      var next := iteration + 1;
      var evalPass := name => evalLosses(next, name);
      ok := TrainBatch(evalLoss, evalPass);
      if !ok {
        ghost var name :| name in EvalNames(datasets) && |evalPass(name)| == 0;
        assert |evalLosses(next, name)| == 0;
        return;
      }
      ResultsStep(datasets, loggingFreq, before, evalLoss, evalLosses, evalPass);
    }

    /** One epoch: `for X_batch, Y_batch in train_dataloader`. */
    method TrainEpoch(batches: seq<real>, evalLosses: (nat, string) -> seq<real>) returns (ok: bool)
      requires Valid()
      requires PassesOk(datasets, loggingFreq, |seen|, evalLosses)
      requires results == Results(datasets, loggingFreq, seen, evalLosses)
      modifies this
      ensures ok ==> Valid() && seen == old(seen) + batches
      ensures ok ==> PassesOk(datasets, loggingFreq, |seen|, evalLosses)
      ensures ok ==> results == Results(datasets, loggingFreq, seen, evalLosses)
      ensures !ok ==> !PassesOk(datasets, loggingFreq, |old(seen)| + |batches|, evalLosses)
    {
      for b := 0 to |batches|
        invariant Valid() && seen == old(seen) + batches[..b]
        invariant PassesOk(datasets, loggingFreq, |seen|, evalLosses)
        invariant results == Results(datasets, loggingFreq, seen, evalLosses)
      {
        TakeSnoc(batches, b);
        ok := TrainStep(batches[b], evalLosses);
        if !ok {
          PassesOkPrefix(datasets, loggingFreq, |seen|, |old(seen)| + |batches|, evalLosses);
          return;
        }
      }
      assert batches[..|batches|] == batches;
      ok := true;
    }
  }

  /** `train_model` on training batches whose evaluation losses are `epochs`, epoch by epoch. */
  method TrainModel(datasets: set<string>, loggingFreq: nat, epochs: seq<seq<real>>, evalLosses: (nat, string) -> seq<real>)
    returns (r: Result<map<string, seq<real>>, TrainError>)
    ensures r == Run(datasets, loggingFreq, Flatten(epochs), evalLosses)
  {
    if TrainName !in datasets {
      return Err(MissingTrainDataset);
    }
    if loggingFreq == 0 {
      // The first batch, if there is one, reaches `iteration % logging_freq`.
      if Flatten(epochs) == [] {
        return Ok(map name | name in datasets :: []);
      }
      return Err(ZeroLoggingFreq);
    }
    var run := new TrainingRun(datasets, loggingFreq);
    for e := 0 to |epochs|
      invariant run.Valid() && run.datasets == datasets && run.loggingFreq == loggingFreq
      invariant run.seen == Flatten(epochs[..e])
      invariant PassesOk(datasets, loggingFreq, |run.seen|, evalLosses)
      invariant run.results == Results(datasets, loggingFreq, run.seen, evalLosses)
    {
      var ok := run.TrainEpoch(epochs[e], evalLosses);
      if !ok {
        FlattenPrefixLength(epochs, e);
        PassesOkPrefix(datasets, loggingFreq, |Flatten(epochs[..e])| + |epochs[e]|, |Flatten(epochs)|, evalLosses);
        return Err(EmptyEvalDataset);
      }
      assert epochs[..e + 1][..e] == epochs[..e];
    }
    assert epochs[..|epochs|] == epochs;
    return Ok(run.results);
  }

  // ---------------------------------------------------------------------
  // Arithmetic helpers

  /**
   * After a batch every series still holds one entry per logging point:
   * either nothing was appended, or the rolling loss and one mean each.
   */
  lemma LengthsAfterBatch(before: map<string, seq<real>>, after: map<string, seq<real>>, iteration: nat, loggingFreq: nat,
                          names: set<string>, evalPass: string -> seq<real>, r: real)
    requires loggingFreq >= 1 && iteration >= 1 && TrainName in before && TrainName !in names
    requires forall name :: name in before ==> |before[name]| == (iteration - 1) / loggingFreq
    requires iteration % loggingFreq != 0 ==> after == before
    requires iteration % loggingFreq == 0 ==>
      (PassNonEmpty(evalPass, names) && names + {TrainName} == before.Keys &&
       after == AppendMeans(before[TrainName := before[TrainName] + [r]], names, evalPass))
    ensures forall name :: name in after ==> |after[name]| == iteration / loggingFreq
  {
    DivStep(iteration - 1, loggingFreq);
  }

  lemma TakeSnoc<T>(xs: seq<T>, b: nat)
    requires b < |xs|
    ensures xs[..b + 1] == xs[..b] + [xs[b]]
  {
  }

  // ---------------------------------------------------------------------
  // How the result map grows, batch by batch

  lemma {:induction false} ResultsStep(datasets: set<string>, loggingFreq: nat, es: seq<real>, e: real,
                                       evalLosses: (nat, string) -> seq<real>, evalPass: string -> seq<real>)
    requires loggingFreq >= 1 && TrainName in datasets
    requires PassesOk(datasets, loggingFreq, |es|, evalLosses)
    requires forall name :: evalPass(name) == evalLosses(|es| + 1, name)
    requires (|es| + 1) % loggingFreq == 0 ==> PassNonEmpty(evalPass, EvalNames(datasets))
    ensures PassesOk(datasets, loggingFreq, |es| + 1, evalLosses)
    ensures (|es| + 1) % loggingFreq != 0 ==>
      Results(datasets, loggingFreq, es + [e], evalLosses) == Results(datasets, loggingFreq, es, evalLosses)
    ensures (|es| + 1) % loggingFreq == 0 ==>
      var before := Results(datasets, loggingFreq, es, evalLosses);
      Results(datasets, loggingFreq, es + [e], evalLosses)
        == AppendMeans(before[TrainName := before[TrainName] + [Rolling(loggingFreq, es + [e])]], EvalNames(datasets), evalPass)
  {
    var es' := es + [e];
    assert es'[..|es'| - 1] == es;
    assert PassesOk(datasets, loggingFreq, |es'|, evalLosses) by {
      forall i: nat, name | 1 <= i <= |es'| && i % loggingFreq == 0 && name in EvalNames(datasets)
        ensures |evalLosses(i, name)| > 0
      {
        if i == |es'| { assert evalPass(name) == evalLosses(i, name); }
      }
    }
    var before := Results(datasets, loggingFreq, es, evalLosses);
    var after := Results(datasets, loggingFreq, es', evalLosses);
    TrainSeriesSnoc(loggingFreq, es, e);
    assert after[TrainName] == TrainSeries(loggingFreq, es');
    assert before[TrainName] == TrainSeries(loggingFreq, es);
    forall name | name in EvalNames(datasets)
      ensures after[name] == if |es'| % loggingFreq == 0 then before[name] + [Mean(evalPass(name))] else before[name]
    {
      assert after[name] == EvalSeries(name, loggingFreq, |es'|, evalLosses);
      assert before[name] == EvalSeries(name, loggingFreq, |es|, evalLosses);
      assert evalPass(name) == evalLosses(|es'|, name);
    }
  }

  lemma RollingSnoc(loggingFreq: nat, es: seq<real>, e: real)
    requires loggingFreq >= 1
    ensures Rolling(loggingFreq, es + [e]) == RollingStep(Rolling(loggingFreq, es), |es|, loggingFreq, e)
  {
    assert (es + [e])[..|es|] == es;
  }

  lemma TrainSeriesSnoc(loggingFreq: nat, es: seq<real>, e: real)
    requires loggingFreq >= 1
    ensures TrainSeries(loggingFreq, es + [e]) ==
      if (|es| + 1) % loggingFreq == 0 then TrainSeries(loggingFreq, es) + [Rolling(loggingFreq, es + [e])]
      else TrainSeries(loggingFreq, es)
  {
    assert (es + [e])[..|es|] == es;
  }

  /** A failed evaluation pass within the first `count` batches is one of the first `count'`. */
  lemma PassesOkPrefix(datasets: set<string>, loggingFreq: nat, count: nat, count': nat, evalLosses: (nat, string) -> seq<real>)
    requires loggingFreq >= 1 && count <= count'
    requires !PassesOk(datasets, loggingFreq, count, evalLosses)
    ensures !PassesOk(datasets, loggingFreq, count', evalLosses)
  {
  }

  lemma {:induction false} FlattenPrefixLength(epochs: seq<seq<real>>, e: nat)
    requires e < |epochs|
    ensures |Flatten(epochs[..e])| + |epochs[e]| <= |Flatten(epochs)|
    decreases |epochs|
  {
    var last := |epochs| - 1;
    if e < last {
      FlattenPrefixLength(epochs[..last], e);
      assert epochs[..last][..e] == epochs[..e];
    } else {
      assert epochs[..last] == epochs[..e];
    }
  }

  // ---------------------------------------------------------------------
  // Properties of the recurrence and of the result series

  /** At the first batch the rolling loss is that batch's evaluation loss. */
  lemma RollingFirstBatch(loggingFreq: nat, e: real)
    requires loggingFreq >= 1
    ensures Rolling(loggingFreq, [e]) == e
  {
    RollingSnoc(loggingFreq, [], e);
  }

  /**
   * At iteration 1 the window is `min(1, logging_freq) == 1`: the rolling
   * loss becomes the second batch's loss and the first one is discarded.
   */
  lemma RollingSecondBatch(loggingFreq: nat, e0: real, e1: real)
    requires loggingFreq >= 1
    ensures Rolling(loggingFreq, [e0, e1]) == e1
  {
    RollingSnoc(loggingFreq, [], e0);
    RollingSnoc(loggingFreq, [e0], e1);
  }

  /**
   * Up to iteration `logging_freq` the rolling loss is the plain mean of
   * every evaluation loss except the first.
   */
  lemma {:induction false} RollingIsMeanAfterFirst(loggingFreq: nat, es: seq<real>)
    requires loggingFreq >= 1 && 2 <= |es| <= loggingFreq + 1
    ensures Rolling(loggingFreq, es) == Mean(es[1..])
    decreases |es|
  {
    var m := |es| - 1;
    var front := es[..m];
    assert es == front + [es[m]];
    RollingSnoc(loggingFreq, front, es[m]);
    if m == 1 {
      RollingSnoc(loggingFreq, [], es[0]);
      assert front == [] + [es[0]];
      assert Sum(es[1..]) == Sum(es[1..][..0]) + es[1];
    } else {
      RollingIsMeanAfterFirst(loggingFreq, front);
      var tail := front[1..];
      assert es[1..] == tail + [es[m]];
      MeanSnocStep(loggingFreq, tail, es[m], m);
    }
  }

  /** Within the first window, one rolling update extends the plain mean by one value. */
  lemma MeanSnocStep(loggingFreq: nat, xs: seq<real>, e: real, i: nat)
    requires loggingFreq >= 1 && |xs| > 0 && i == |xs| + 1 && i <= loggingFreq
    ensures RollingStep(Mean(xs), i, loggingFreq, e) == Mean(xs + [e])
  {
    var j := |xs| as real;
    assert (xs + [e])[..|xs|] == xs;
    assert Sum(xs + [e]) == Sum(xs) + e;
    assert RollingStep(Mean(xs), i, loggingFreq, e) == (Sum(xs) / j * j + e) / (j + 1.0);
    MeanStep(Sum(xs), j, e);
  }

  /** Growing a mean of `j` values by one more value. */
  lemma MeanStep(s: real, j: real, e: real)
    requires j > 0.0
    ensures (s / j * j + e) / (j + 1.0) == (s + e) / (j + 1.0)
  {
    assert s / j * j == s;
  }

  /** The rolling loss never leaves the range of the losses it has seen. */
  lemma {:induction false} RollingBounds(loggingFreq: nat, es: seq<real>, lo: real, hi: real)
    requires loggingFreq >= 1 && |es| > 0
    requires forall i :: 0 <= i < |es| ==> lo <= es[i] <= hi
    ensures lo <= Rolling(loggingFreq, es) <= hi
    decreases |es|
  {
    var m := |es| - 1;
    var front := es[..m];
    assert es == front + [es[m]];
    RollingSnoc(loggingFreq, front, es[m]);
    if m > 0 {
      RollingBounds(loggingFreq, front, lo, hi);
      StepBounds(Rolling(loggingFreq, front), m, loggingFreq, es[m], lo, hi);
    }
  }

  /** The update is a weighted mean of the previous value and the new loss. */
  lemma StepBounds(r: real, i: nat, loggingFreq: nat, e: real, lo: real, hi: real)
    requires loggingFreq >= 1 && lo <= r <= hi && lo <= e <= hi
    ensures lo <= RollingStep(r, i, loggingFreq, e) <= hi
  {
    if i > 0 {
      var n := Window(i, loggingFreq);
      var k := (n - 1) as real;
      assert RollingStep(r, i, loggingFreq, e) == (r * k + e) / (n as real);
      assert (n as real) == k + 1.0;
      WeightedMean(r, e, k, lo, hi);
    }
  }

  lemma WeightedMean(r: real, e: real, k: real, lo: real, hi: real)
    requires k >= 0.0 && lo <= r <= hi && lo <= e <= hi
    ensures lo <= (r * k + e) / (k + 1.0) <= hi
  {
    var x := r * k + e;
    assert lo * k <= r * k <= hi * k;
    assert lo * (k + 1.0) <= x <= hi * (k + 1.0);
    assert x / (k + 1.0) * (k + 1.0) == x;
  }

  /** With `logging_freq == 1` the rolling loss is the latest batch's loss. */
  lemma RollingFreqOne(es: seq<real>)
    requires |es| > 0
    ensures Rolling(1, es) == es[|es| - 1]
  {
    assert es == es[..|es| - 1] + [es[|es| - 1]];
    RollingSnoc(1, es[..|es| - 1], es[|es| - 1]);
  }

  /** With `logging_freq == 1` the `"train"` series is the raw per-batch evaluation losses. */
  lemma {:induction false} TrainSeriesFreqOne(es: seq<real>)
    ensures TrainSeries(1, es) == es
    decreases |es|
  {
    if es != [] {
      var front := es[..|es| - 1];
      TrainSeriesFreqOne(front);
      assert es == front + [es[|es| - 1]];
      TrainSeriesSnoc(1, front, es[|es| - 1]);
      RollingFreqOne(es);
    }
  }

  /** One `"train"` entry per completed block of `logging_freq` batches. */
  lemma {:induction false} TrainSeriesLength(loggingFreq: nat, es: seq<real>)
    requires loggingFreq >= 1
    ensures |TrainSeries(loggingFreq, es)| == |es| / loggingFreq
    decreases |es|
  {
    if es != [] {
      var front := es[..|es| - 1];
      TrainSeriesLength(loggingFreq, front);
      assert es == front + [es[|es| - 1]];
      TrainSeriesSnoc(loggingFreq, front, es[|es| - 1]);
      DivStep(|front|, loggingFreq);
    }
  }

  /** The `"train"` series only grows: the series after a prefix of the batches is a prefix of it. */
  lemma {:induction false} TrainSeriesPrefix(loggingFreq: nat, es: seq<real>, p: nat)
    requires loggingFreq >= 1 && p <= |es|
    ensures TrainSeries(loggingFreq, es[..p]) <= TrainSeries(loggingFreq, es)
    decreases |es|
  {
    if p < |es| {
      var front := es[..|es| - 1];
      TrainSeriesPrefix(loggingFreq, front, p);
      assert front[..p] == es[..p];
      assert es == front + [es[|es| - 1]];
      TrainSeriesSnoc(loggingFreq, front, es[|es| - 1]);
    } else {
      assert es[..p] == es;
    }
  }

  /** The k-th `"train"` entry is the rolling loss after `(k + 1) * logging_freq` batches. */
  lemma TrainSeriesAt(loggingFreq: nat, es: seq<real>, k: nat)
    requires loggingFreq >= 1 && k < |es| / loggingFreq
    ensures (k + 1) * loggingFreq <= |es|
    ensures |TrainSeries(loggingFreq, es)| == |es| / loggingFreq
    ensures TrainSeries(loggingFreq, es)[k] == Rolling(loggingFreq, es[..(k + 1) * loggingFreq])
  {
    DivMulBound(|es|, loggingFreq, k);
    MulAtLeast(k + 1, loggingFreq);
    var p := (k + 1) * loggingFreq;
    MulDiv(k + 1, loggingFreq);
    DivStep(p - 1, loggingFreq);
    var part := es[..p];
    assert part == part[..p - 1] + [part[p - 1]];
    TrainSeriesSnoc(loggingFreq, part[..p - 1], part[p - 1]);
    TrainSeriesLength(loggingFreq, part[..p - 1]);
    TrainSeriesPrefix(loggingFreq, es, p);
    TrainSeriesLength(loggingFreq, es);
  }

  /** One entry per logging point for every evaluation dataset too. */
  lemma {:induction false} EvalSeriesLength(name: string, loggingFreq: nat, count: nat, evalLosses: (nat, string) -> seq<real>)
    requires loggingFreq >= 1 && PassesSeeBatches(name, loggingFreq, count, evalLosses)
    ensures |EvalSeries(name, loggingFreq, count, evalLosses)| == count / loggingFreq
    decreases count
  {
    if count > 0 {
      EvalSeriesLength(name, loggingFreq, count - 1, evalLosses);
      DivStep(count - 1, loggingFreq);
    }
  }

  /** An evaluation series only grows with the number of batches. */
  lemma {:induction false} EvalSeriesPrefix(name: string, loggingFreq: nat, count: nat, evalLosses: (nat, string) -> seq<real>, c: nat)
    requires loggingFreq >= 1 && PassesSeeBatches(name, loggingFreq, count, evalLosses) && c <= count
    ensures PassesSeeBatches(name, loggingFreq, c, evalLosses)
    ensures EvalSeries(name, loggingFreq, c, evalLosses) <= EvalSeries(name, loggingFreq, count, evalLosses)
    decreases count
  {
    if c < count {
      EvalSeriesPrefix(name, loggingFreq, count - 1, evalLosses, c);
    }
  }

  /** The k-th entry of an evaluation series is the mean loss of the pass after `(k + 1) * logging_freq` batches. */
  lemma EvalSeriesAt(name: string, loggingFreq: nat, count: nat, evalLosses: (nat, string) -> seq<real>, k: nat)
    requires loggingFreq >= 1 && PassesSeeBatches(name, loggingFreq, count, evalLosses)
    requires k < count / loggingFreq
    ensures 1 <= (k + 1) * loggingFreq <= count
    ensures |evalLosses((k + 1) * loggingFreq, name)| > 0
    ensures |EvalSeries(name, loggingFreq, count, evalLosses)| == count / loggingFreq
    ensures EvalSeries(name, loggingFreq, count, evalLosses)[k] == Mean(evalLosses((k + 1) * loggingFreq, name))
  {
    DivMulBound(count, loggingFreq, k);
    MulAtLeast(k + 1, loggingFreq);
    var p := (k + 1) * loggingFreq;
    MulDiv(k + 1, loggingFreq);
    DivStep(p - 1, loggingFreq);
    EvalSeriesPrefix(name, loggingFreq, count, evalLosses, p);
    EvalSeriesLength(name, loggingFreq, p - 1, evalLosses);
    EvalSeriesLength(name, loggingFreq, count, evalLosses);
  }

  /**
   * What a successful run returns: exactly the given dataset names as
   * keys, all empty when no batch was consumed with a zero logging
   * frequency, and otherwise the series of `Results`, which the lemmas
   * below take apart.
   */
  lemma RunResult(datasets: set<string>, loggingFreq: nat, es: seq<real>, evalLosses: (nat, string) -> seq<real>,
                  res: map<string, seq<real>>)
    requires Run(datasets, loggingFreq, es, evalLosses) == Ok(res)
    ensures res.Keys == datasets && TrainName in datasets
    ensures loggingFreq == 0 ==> es == [] && forall name :: name in res ==> res[name] == []
    ensures loggingFreq >= 1 ==> PassesOk(datasets, loggingFreq, |es|, evalLosses)
    ensures loggingFreq >= 1 ==> res == Results(datasets, loggingFreq, es, evalLosses)
  {
  }

  /** Every series holds one value per logging point: `total batches / logging_freq`. */
  lemma ResultsLengths(datasets: set<string>, loggingFreq: nat, es: seq<real>, evalLosses: (nat, string) -> seq<real>)
    requires loggingFreq >= 1 && PassesOk(datasets, loggingFreq, |es|, evalLosses)
    ensures forall name :: name in datasets ==>
      |Results(datasets, loggingFreq, es, evalLosses)[name]| == |es| / loggingFreq
  {
    var res := Results(datasets, loggingFreq, es, evalLosses);
    forall name | name in datasets ensures |res[name]| == |es| / loggingFreq {
      if name == TrainName { TrainSeriesLength(loggingFreq, es); }
      else { EvalSeriesLength(name, loggingFreq, |es|, evalLosses); }
    }
  }

  /** The `k`-th `"train"` value is the rolling loss after the `k`-th logging point's batch. */
  lemma ResultsTrainEntry(datasets: set<string>, loggingFreq: nat, es: seq<real>, evalLosses: (nat, string) -> seq<real>, k: nat)
    requires loggingFreq >= 1 && PassesOk(datasets, loggingFreq, |es|, evalLosses) && TrainName in datasets
    requires k < |es| / loggingFreq
    ensures (k + 1) * loggingFreq <= |es|
    ensures k < |Results(datasets, loggingFreq, es, evalLosses)[TrainName]|
    ensures Results(datasets, loggingFreq, es, evalLosses)[TrainName][k] == Rolling(loggingFreq, es[..(k + 1) * loggingFreq])
  {
    assert Results(datasets, loggingFreq, es, evalLosses)[TrainName] == TrainSeries(loggingFreq, es);
    TrainSeriesAt(loggingFreq, es, k);
  }

  /**
   * The `k`-th value of an evaluation dataset is the mean loss of the pass
   * made at the `k`-th logging point, and that pass saw at least one batch.
   */
  lemma ResultsEvalEntry(datasets: set<string>, loggingFreq: nat, es: seq<real>, evalLosses: (nat, string) -> seq<real>,
                         name: string, k: nat)
    requires loggingFreq >= 1 && PassesOk(datasets, loggingFreq, |es|, evalLosses) && name in EvalNames(datasets)
    requires k < |es| / loggingFreq
    ensures 1 <= (k + 1) * loggingFreq <= |es| && |evalLosses((k + 1) * loggingFreq, name)| > 0
    ensures k < |Results(datasets, loggingFreq, es, evalLosses)[name]|
    ensures Results(datasets, loggingFreq, es, evalLosses)[name][k] == Mean(evalLosses((k + 1) * loggingFreq, name))
  {
    assert Results(datasets, loggingFreq, es, evalLosses)[name] == EvalSeries(name, loggingFreq, |es|, evalLosses);
    EvalSeriesAt(name, loggingFreq, |es|, evalLosses, k);
  }

  /** The iteration counter ends at the number of batches: `epochs * batches_per_epoch` for equal epochs. */
  lemma {:induction false} FlattenUniform(epochs: seq<seq<real>>, batchesPerEpoch: nat)
    requires forall e :: 0 <= e < |epochs| ==> |epochs[e]| == batchesPerEpoch
    ensures |Flatten(epochs)| == |epochs| * batchesPerEpoch
    decreases |epochs|
  {
    if epochs != [] {
      FlattenUniform(epochs[..|epochs| - 1], batchesPerEpoch);
      assert (|epochs| - 1) * batchesPerEpoch + batchesPerEpoch == |epochs| * batchesPerEpoch;
    }
  }

  /** Every series of a successful run over equal epochs has `epochs * batches / logging_freq` entries. */
  lemma SeriesLengthUniformEpochs(datasets: set<string>, loggingFreq: nat, epochs: seq<seq<real>>, batchesPerEpoch: nat,
                                  evalLosses: (nat, string) -> seq<real>, res: map<string, seq<real>>)
    requires loggingFreq >= 1
    requires forall e :: 0 <= e < |epochs| ==> |epochs[e]| == batchesPerEpoch
    requires Run(datasets, loggingFreq, Flatten(epochs), evalLosses) == Ok(res)
    ensures forall name :: name in res ==> |res[name]| == (|epochs| * batchesPerEpoch) / loggingFreq
  {
    FlattenUniform(epochs, batchesPerEpoch);
    RunResult(datasets, loggingFreq, Flatten(epochs), evalLosses, res);
    ResultsLengths(datasets, loggingFreq, Flatten(epochs), evalLosses);
  }

  /**
   * The losses 4, 2, 3 give the rolling losses 4, 2 and 2.5: the first
   * batch's loss does not enter the average.
   */
  lemma WorkedExample(loggingFreq: nat)
    requires loggingFreq >= 2
    ensures Rolling(loggingFreq, [4.0]) == 4.0
    ensures Rolling(loggingFreq, [4.0, 2.0]) == 2.0
    ensures Rolling(loggingFreq, [4.0, 2.0, 3.0]) == 2.5
  {
    RollingSnoc(loggingFreq, [], 4.0);
    assert [4.0, 2.0] == [4.0] + [2.0];
    RollingSnoc(loggingFreq, [4.0], 2.0);
    assert [4.0, 2.0, 3.0] == [4.0, 2.0] + [3.0];
    RollingSnoc(loggingFreq, [4.0, 2.0], 3.0);
  }

  /** With `logging_freq == 3` the one `"train"` entry after those three batches is 2.5. */
  lemma WorkedExampleSeries()
    ensures TrainSeries(3, [4.0, 2.0, 3.0]) == [2.5]
  {
    WorkedExample(3);
    TrainSeriesLength(3, [4.0, 2.0, 3.0]);
    TrainSeriesAt(3, [4.0, 2.0, 3.0], 0);
    assert [4.0, 2.0, 3.0][..3] == [4.0, 2.0, 3.0];
  }
}
