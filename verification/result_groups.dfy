/**
 * The grouping loops of the dashboard. Both walk the stored results in
 * insertion order, skip the keys without the wanted suffix, split each
 * remaining key into model, metric and kind, and file the value in a
 * two-level dictionary:
 *   - `create_loss_graphs` files the keys ending in "loss" as
 *     `metric -> model -> value` and asserts every such value is a tensor;
 *   - `create_1d_prediction_graph` files the keys ending in "predictions"
 *     as `model -> metric -> value`.
 * The facts about the loop are proved once, for any rule deciding what one
 * pass of the loop body does with an entry (`GroupWith`), and then read
 * for the two rules the dashboard uses (`Classify`).
 */
module ResultGroups {
  import opened Wrappers
  import opened Dicts
  import opened ResultKeys

  /** A stored result: one tensor (its values in order) or a list of tensors, one per task. */
  datatype Value = Tensor(points: seq<real>) | TensorList(items: seq<seq<real>>)

  /** `ExperimentReader.data`: the stored results in insertion order. */
  type Data = Dict<string, Value>

  /** The exceptions building a view can raise. */
  datatype ViewError =
    | MalformedKey(key: string)                  // the three-way unpacking of `rsplit` fails
    | NotATensor(key: string)                    // `assert isinstance(v, T.Tensor)` fails
    | MissingBase                                // `assert "base" in predictions` fails
    | EmptyBaseline(metric: string)              // `T.min` of an empty baseline tensor
    | IncompleteBaseline                         // a baseline quantity was never found
    | MissingTask(model: string, metric: string) // `values[col_idx]` is out of range

  /** Which of the two loops: losses by metric, or predictions by model. */
  datatype GroupBy = ByMetric | ByModel

  type Groups = Dict<string, Dict<string, Value>>

  /** What one pass of the loop body does with an entry. */
  datatype Filing = Skip | Raise(error: ViewError) | File(outer: string, inner: string)

  function Suffix(grp: GroupBy): string
  {
    if grp.ByMetric? then "loss" else "predictions"
  }

  /** The first-level key an entry is filed under. */
  function Outer(grp: GroupBy, p: KeyParts): string
  {
    if grp.ByMetric? then p.metric else p.model
  }

  /** The second-level key an entry is filed under. */
  function Inner(grp: GroupBy, p: KeyParts): string
  {
    if grp.ByMetric? then p.model else p.metric
  }

  /**
   * The decision the loop body makes for the entry `k: v`: skip a key
   * without the suffix, raise on a key that does not unpack (or, for
   * losses, on a value that is not a tensor), file the rest.
   */
  function Classify(grp: GroupBy, k: string, v: Value): Filing
  {
    if !EndsWith(k, Suffix(grp)) then Skip
    else match RSplit2(k)
      case None => Raise(MalformedKey(k))
      case Some(p) =>
        if grp.ByMetric? && !v.Tensor? then Raise(NotATensor(k))
        else File(Outer(grp, p), Inner(grp, p))
  }

  /** An entry is filed under `a` and `b` exactly when it is selected, its key unpacks to them and (for losses) it holds a tensor. */
  lemma ClassifyFile(grp: GroupBy, k: string, v: Value, a: string, b: string)
    ensures Classify(grp, k, v) == File(a, b) <==>
      (EndsWith(k, Suffix(grp)) && RSplit2(k).Some? && a == Outer(grp, RSplit2(k).value) &&
       b == Inner(grp, RSplit2(k).value) && (grp.ByMetric? ==> v.Tensor?))
  {
  }

  /**
   * An entry raises exactly when it is selected and its key holds fewer
   * than two underscores or (for losses) its value is not a tensor; the
   * error names the key.
   */
  lemma ClassifyRaise(grp: GroupBy, k: string, v: Value)
    ensures Classify(grp, k, v).Raise? <==>
      (EndsWith(k, Suffix(grp)) && (!TwoUnderscores(k) || (grp.ByMetric? && !v.Tensor?)))
    ensures Classify(grp, k, v).Raise? ==>
      Classify(grp, k, v).error == (if !TwoUnderscores(k) then MalformedKey(k) else NotATensor(k))
  {
    RSplit2FailsIff(k);
  }

  /** One pass of the loop body. */
  function AddEntry(g: Groups, f: Filing, v: Value): Result<Groups, ViewError>
  {
    match f
    case Skip => Ok(g)
    case Raise(e) => Err(e)
    case File(a, b) => Ok(Put2(g, a, b, v))
  }

  /** The whole loop under the rule `file`: the grouped dictionary, or the first exception raised. */
  function GroupWith(file: (string, Value) -> Filing, data: Data): Result<Groups, ViewError>
    decreases |data|
  {
    if data == [] then Ok([])
    else match GroupWith(file, data[..|data| - 1])
      case Err(e) => Err(e)
      case Ok(g) => AddEntry(g, file(data[|data| - 1].0, data[|data| - 1].1), data[|data| - 1].1)
  }

  /** The rule of one of the two loops. */
  function Rule(grp: GroupBy): (string, Value) -> Filing
  {
    (k: string, v: Value) => Classify(grp, k, v)
  }

  /** The loop of `create_loss_graphs` (ByMetric) or of `create_1d_prediction_graph` (ByModel). */
  function Group(grp: GroupBy, data: Data): Result<Groups, ViewError>
  {
    GroupWith(Rule(grp), data)
  }

  /** Once the loop has raised, later entries change nothing. */
  lemma {:induction false} GroupErrorStays(file: (string, Value) -> Filing, data: Data, n: nat)
    requires n <= |data| && GroupWith(file, data[..n]).Err?
    ensures GroupWith(file, data) == GroupWith(file, data[..n])
    decreases |data| - n
  {
    if n < |data| {
      var front := data[..|data| - 1];
      assert front[..n] == data[..n];
      GroupErrorStays(file, front, n);
    } else {
      assert data[..n] == data;
    }
  }

  /** One more pass of the loop body. */
  lemma GroupStep(file: (string, Value) -> Filing, data: Data, i: nat, g: Groups)
    requires i < |data| && GroupWith(file, data[..i]) == Ok(g)
    ensures GroupWith(file, data[..i + 1]) == AddEntry(g, file(data[i].0, data[i].1), data[i].1)
  {
    assert data[..i + 1][..i] == data[..i];
  }

  /** The loop itself, with the dictionary updated as it goes. */
  method GroupEntries(grp: GroupBy, data: Data) returns (r: Result<Groups, ViewError>)
    ensures r == Group(grp, data)
  {
    var g: Groups := [];
    for i := 0 to |data|
      invariant GroupWith(Rule(grp), data[..i]) == Ok(g)
    {
      GroupStep(Rule(grp), data, i, g);
      var (k, v) := data[i];
      if !EndsWith(k, Suffix(grp)) {
        continue;
      }
      var parts := RSplit2(k);
      if parts.None? {
        GroupErrorStays(Rule(grp), data, i + 1);
        return Err(MalformedKey(k));
      }
      var p := parts.value;
      if grp.ByMetric? && !v.Tensor? {
        GroupErrorStays(Rule(grp), data, i + 1);
        return Err(NotATensor(k));
      }
      g := Put2(g, Outer(grp, p), Inner(grp, p), v);
    }
    assert data[..|data|] == data;
    r := Ok(g);
  }

  /** The state of the loop before the last entry, when the loop completes. */
  lemma GroupFront(file: (string, Value) -> Filing, data: Data, g: Groups)
    requires data != [] && GroupWith(file, data) == Ok(g)
    ensures GroupWith(file, data[..|data| - 1]).Ok?
    ensures AddEntry(GroupWith(file, data[..|data| - 1]).value, file(data[|data| - 1].0, data[|data| - 1].1), data[|data| - 1].1) == Ok(g)
  {
  }

  /** The loop completes exactly when its run up to the last entry completes and that entry does not raise. */
  lemma GroupOkSnoc(file: (string, Value) -> Filing, data: Data)
    requires data != []
    ensures GroupWith(file, data).Ok? <==>
      GroupWith(file, data[..|data| - 1]).Ok? && !file(data[|data| - 1].0, data[|data| - 1].1).Raise?
  {
  }

  /** No entry raises exactly when none before the last does and the last does not. */
  lemma NoRaiseSnoc(file: (string, Value) -> Filing, data: Data, front: Data)
    requires data != [] && front == data[..|data| - 1]
    ensures (forall i :: 0 <= i < |data| ==> !file(data[i].0, data[i].1).Raise?) <==>
      (forall i :: 0 <= i < |front| ==> !file(front[i].0, front[i].1).Raise?) &&
      !file(data[|data| - 1].0, data[|data| - 1].1).Raise?
  {
    assert forall i :: 0 <= i < |front| ==> front[i] == data[i];
  }

  /** The loop completes exactly when no entry raises, both ways round. */
  lemma {:induction false} GroupOkIff(file: (string, Value) -> Filing, data: Data)
    ensures GroupWith(file, data).Ok? <==> forall i :: 0 <= i < |data| ==> !file(data[i].0, data[i].1).Raise?
    decreases |data|
  {
    if data != [] {
      var front := data[..|data| - 1];
      GroupOkIff(file, front);
      GroupOkSnoc(file, data);
      NoRaiseSnoc(file, data, front);
    }
  }

  /** The exception raised is the one of the first entry that raises. */
  lemma {:induction false} GroupErrorFirst(file: (string, Value) -> Filing, data: Data)
    requires GroupWith(file, data).Err?
    ensures exists i :: (0 <= i < |data| && file(data[i].0, data[i].1) == Raise(GroupWith(file, data).error) &&
      (forall j :: 0 <= j < i ==> !file(data[j].0, data[j].1).Raise?))
    decreases |data|
  {
    var front := data[..|data| - 1];
    assert forall i :: 0 <= i < |front| ==> front[i] == data[i];
    if GroupWith(file, front).Err? {
      GroupErrorFirst(file, front);
    } else {
      GroupOkIff(file, front);
    }
  }

  /** One pass of the loop body changes `g[a][b]` only for an entry filed under `a` and `b`. */
  lemma AddEntryGet2(g: Groups, f: Filing, v: Value, a: string, b: string)
    requires !f.Raise?
    ensures Get2(AddEntry(g, f, v).value, a, b) == if f == File(a, b) then Some(v) else Get2(g, a, b)
  {
    if f.File? {
      GetPut2(g, f.outer, f.inner, v, a, b);
    }
  }

  /** No entry is filed under `a` and `b` exactly when none before the last is and the last is not. */
  lemma NotFiledSnoc(file: (string, Value) -> Filing, data: Data, front: Data, a: string, b: string)
    requires data != [] && front == data[..|data| - 1]
    ensures (forall i :: 0 <= i < |data| ==> file(data[i].0, data[i].1) != File(a, b)) <==>
      (forall i :: 0 <= i < |front| ==> file(front[i].0, front[i].1) != File(a, b)) &&
      file(data[|data| - 1].0, data[|data| - 1].1) != File(a, b)
  {
    assert forall i :: 0 <= i < |front| ==> front[i] == data[i];
  }

  /** `g[a][b]` after the loop is absent exactly when no entry is filed under `a` and `b`. */
  lemma {:induction false} GroupLookupNone(file: (string, Value) -> Filing, data: Data, g: Groups, a: string, b: string)
    requires GroupWith(file, data) == Ok(g)
    ensures Get2(g, a, b).None? <==> forall i :: 0 <= i < |data| ==> file(data[i].0, data[i].1) != File(a, b)
    decreases |data|
  {
    if data != [] {
      var n := |data| - 1;
      var front := data[..n];
      GroupFront(file, data, g);
      var g0 := GroupWith(file, front).value;
      GroupLookupNone(file, front, g0, a, b);
      AddEntryGet2(g0, file(data[n].0, data[n].1), data[n].1, a, b);
      NotFiledSnoc(file, data, front, a, b);
    }
  }

  /** Entry `i` is filed under `a` and `b`, and no later entry is. */
  ghost predicate LastFiled(file: (string, Value) -> Filing, data: Data, i: nat, a: string, b: string)
    requires i < |data|
  {
    file(data[i].0, data[i].1) == File(a, b) &&
    forall j :: i < j < |data| ==> file(data[j].0, data[j].1) != File(a, b)
  }

  /** Otherwise `g[a][b]` holds the value of the last entry filed there. */
  lemma {:induction false} GroupLookup(file: (string, Value) -> Filing, data: Data, g: Groups, a: string, b: string)
    requires GroupWith(file, data) == Ok(g) && Get2(g, a, b).Some?
    ensures exists i :: 0 <= i < |data| && LastFiled(file, data, i, a, b) && data[i].1 == Get2(g, a, b).value
    decreases |data|
  {
    var n := |data| - 1;
    var front := data[..n];
    GroupFront(file, data, g);
    var g0 := GroupWith(file, front).value;
    AddEntryGet2(g0, file(data[n].0, data[n].1), data[n].1, a, b);
    if file(data[n].0, data[n].1) == File(a, b) {
      assert LastFiled(file, data, n, a, b);
    } else {
      GroupLookup(file, front, g0, a, b);
      var i :| 0 <= i < |front| && LastFiled(file, front, i, a, b) && front[i].1 == Get2(g0, a, b).value;
      LastFiledSnoc(file, data, i, a, b);
    }
  }

  /** An entry last filed under `a` and `b` stays last when a differently filed entry follows. */
  lemma LastFiledSnoc(file: (string, Value) -> Filing, data: Data, i: nat, a: string, b: string)
    requires i < |data| - 1 && LastFiled(file, data[..|data| - 1], i, a, b)
    requires file(data[|data| - 1].0, data[|data| - 1].1) != File(a, b)
    ensures LastFiled(file, data, i, a, b) && data[i] == data[..|data| - 1][i]
  {
    var front := data[..|data| - 1];
    forall j | i <= j < |front| ensures data[j] == front[j] { }
  }

  /** A value found after the loop was filed there by some entry. */
  lemma GroupLookupWitness(file: (string, Value) -> Filing, data: Data, g: Groups, a: string, b: string) returns (i: nat)
    requires GroupWith(file, data) == Ok(g) && Get2(g, a, b).Some?
    ensures i < |data| && file(data[i].0, data[i].1) == File(a, b) && data[i].1 == Get2(g, a, b).value
  {
    GroupLookup(file, data, g, a, b);
    i :| 0 <= i < |data| && LastFiled(file, data, i, a, b) && data[i].1 == Get2(g, a, b).value;
  }

  /** One pass of the loop body adds at most the entry's own first-level key, and no repeats. */
  lemma AddEntryKeys(g: Groups, f: Filing, v: Value, a: string)
    requires !f.Raise? && Distinct2(g)
    ensures Distinct2(AddEntry(g, f, v).value)
    ensures a in Keys(AddEntry(g, f, v).value) <==> a in Keys(g) || (f.File? && f.outer == a)
  {
    if f.File? {
      Distinct2Put2(g, f.outer, f.inner, v);
    }
  }

  /** Some entry is filed under the first-level key `a` exactly when one before the last is or the last is. */
  lemma OuterFiledSnoc(file: (string, Value) -> Filing, data: Data, front: Data, a: string)
    requires data != [] && front == data[..|data| - 1]
    ensures (exists i :: 0 <= i < |data| && file(data[i].0, data[i].1).File? && file(data[i].0, data[i].1).outer == a) <==>
      (exists i :: 0 <= i < |front| && file(front[i].0, front[i].1).File? && file(front[i].0, front[i].1).outer == a) ||
      (file(data[|data| - 1].0, data[|data| - 1].1).File? && file(data[|data| - 1].0, data[|data| - 1].1).outer == a)
  {
    assert forall i :: 0 <= i < |front| ==> front[i] == data[i];
    if exists i :: 0 <= i < |data| && file(data[i].0, data[i].1).File? && file(data[i].0, data[i].1).outer == a {
      var i :| 0 <= i < |data| && file(data[i].0, data[i].1).File? && file(data[i].0, data[i].1).outer == a;
      if i < |front| {
        assert front[i] == data[i];
      }
    }
  }

  /**
   * The first-level keys after the loop: no key twice at either level, and
   * `a` is a key exactly when some entry is filed under it.
   */
  lemma {:induction false} GroupOuterKeys(file: (string, Value) -> Filing, data: Data, g: Groups, a: string)
    requires GroupWith(file, data) == Ok(g)
    ensures Distinct2(g)
    ensures a in Keys(g) <==> exists i :: 0 <= i < |data| && file(data[i].0, data[i].1).File? && file(data[i].0, data[i].1).outer == a
    decreases |data|
  {
    if data != [] {
      var n := |data| - 1;
      var front := data[..n];
      GroupFront(file, data, g);
      var g0 := GroupWith(file, front).value;
      GroupOuterKeys(file, front, g0, a);
      AddEntryKeys(g0, file(data[n].0, data[n].1), data[n].1, a);
      OuterFiledSnoc(file, data, front, a);
    }
  }

  /** A first-level key after the loop was filed by some entry. */
  lemma GroupOuterWitness(file: (string, Value) -> Filing, data: Data, g: Groups, a: string) returns (i: nat)
    requires GroupWith(file, data) == Ok(g) && a in Keys(g)
    ensures i < |data| && file(data[i].0, data[i].1).File? && file(data[i].0, data[i].1).outer == a
  {
    GroupOuterKeys(file, data, g, a);
    i :| 0 <= i < |data| && file(data[i].0, data[i].1).File? && file(data[i].0, data[i].1).outer == a;
  }

  /** Every selected entry of a completed loop can be found under its parsed keys. */
  lemma GroupReachable(grp: GroupBy, data: Data, g: Groups, i: nat)
    requires Group(grp, data) == Ok(g) && i < |data| && EndsWith(data[i].0, Suffix(grp))
    ensures RSplit2(data[i].0).Some?
    ensures Get2(g, Outer(grp, RSplit2(data[i].0).value), Inner(grp, RSplit2(data[i].0).value)).Some?
  {
    GroupOkIff(Rule(grp), data);
    assert !Rule(grp)(data[i].0, data[i].1).Raise?;
    var p := RSplit2(data[i].0).value;
    GroupLookupNone(Rule(grp), data, g, Outer(grp, p), Inner(grp, p));
    assert Rule(grp)(data[i].0, data[i].1) == File(Outer(grp, p), Inner(grp, p));
  }

  /** The loss grouping holds tensors only. */
  lemma LossGroupsHoldTensors(data: Data, g: Groups, a: string, b: string)
    requires Group(ByMetric, data) == Ok(g) && Get2(g, a, b).Some?
    ensures Get2(g, a, b).value.Tensor?
  {
    var i := GroupLookupWitness(Rule(ByMetric), data, g, a, b);
    ClassifyFile(ByMetric, data[i].0, data[i].1, a, b);
  }
}
