/**
 * The baseline scan of `create_1d_prediction_graph`: a walk over the
 * "base" model's predictions that keeps the number of tasks (the length of
 * the last list of per-task tensors), the number of points (the length of
 * the last whole-domain tensor) and the y range (that tensor's minimum and
 * maximum widened by 0.25), then insists that all three were found.
 */
module BaselineScan {
  import opened Wrappers
  import opened Dicts
  import opened ResultGroups

  /** `T.min(v).item()` of a non-empty one-dimensional tensor. */
  function Min(s: seq<real>): (m: real)
    requires |s| > 0
    ensures m in s && forall x :: x in s ==> m <= x
    decreases |s|
  {
    if |s| == 1 then s[0]
    else
      var m := Min(s[1..]);
      assert s == [s[0]] + s[1..];
      if s[0] <= m then s[0] else m
  }

  /** `T.max(v).item()` of a non-empty one-dimensional tensor. */
  function Max(s: seq<real>): (m: real)
    requires |s| > 0
    ensures m in s && forall x :: x in s ==> x <= m
    decreases |s|
  {
    if |s| == 1 then s[0]
    else
      var m := Max(s[1..]);
      assert s == [s[0]] + s[1..];
      if s[0] >= m then s[0] else m
  }

  /** The margin added on either side of the baseline's values. */
  const Margin: real := 0.25

  /** The three quantities while the walk is under way; `None` is Python's `None`. */
  datatype Found = Found(numTasks: Option<nat>, numPoints: Option<nat>, range: Option<(real, real)>)

  /** The quantities the graph is laid out by, once all were found. */
  datatype Baseline = Baseline(numTasks: nat, numPoints: nat, lo: real, hi: real)

  /** One pass of the walk: a list sets the number of tasks, a tensor the point count and the range. */
  function ScanEntry(acc: Found, metric: string, v: Value): Result<Found, ViewError>
  {
    match v
    case TensorList(items) => Ok(acc.(numTasks := Some(|items|)))
    case Tensor(points) =>
      if points == [] then Err(EmptyBaseline(metric))
      else Ok(acc.(numPoints := Some(|points|), range := Some(RangeOf(points))))
  }

  /** The walk over the baseline entries in insertion order. */
  function Scan(base: Dict<string, Value>): Result<Found, ViewError>
    decreases |base|
  {
    if base == [] then Ok(Found(None, None, None))
    else match Scan(base[..|base| - 1])
      case Err(e) => Err(e)
      case Ok(acc) => ScanEntry(acc, base[|base| - 1].0, base[|base| - 1].1)
  }

  /** The walk followed by the assertion that every quantity was found. */
  function BaselineOf(base: Dict<string, Value>): Result<Baseline, ViewError>
  {
    match Scan(base)
    case Err(e) => Err(e)
    case Ok(acc) =>
      if acc.numTasks.Some? && acc.numPoints.Some? && acc.range.Some? then
        Ok(Baseline(acc.numTasks.value, acc.numPoints.value, acc.range.value.0, acc.range.value.1))
      else Err(IncompleteBaseline)
  }

  /** Once the walk has raised, later entries change nothing. */
  lemma {:induction false} ScanErrorStays(base: Dict<string, Value>, n: nat)
    requires n <= |base| && Scan(base[..n]).Err?
    ensures Scan(base) == Scan(base[..n])
    decreases |base| - n
  {
    if n < |base| {
      var front := base[..|base| - 1];
      assert front[..n] == base[..n];
      ScanErrorStays(front, n);
    } else {
      assert base[..n] == base;
    }
  }

  /** The loop itself. */
  method DeriveBaseline(base: Dict<string, Value>) returns (r: Result<Baseline, ViewError>)
    ensures r == BaselineOf(base)
  {
    var numTasks: Option<nat> := None;
    var numPoints: Option<nat> := None;
    var range: Option<(real, real)> := None;
    for i := 0 to |base|
      invariant Scan(base[..i]) == Ok(Found(numTasks, numPoints, range))
    {
      assert base[..i + 1][..i] == base[..i];
      var (metric, v) := base[i];
      match v {
        case TensorList(items) =>
          numTasks := Some(|items|);
        case Tensor(points) =>
          if points == [] {
            ScanErrorStays(base, i + 1);
            return Err(EmptyBaseline(metric));
          }
          numPoints := Some(|points|);
          range := Some((Min(points) - Margin, Max(points) + Margin));
      }
    }
    assert base[..|base|] == base;
    if numTasks.None? || numPoints.None? || range.None? {
      return Err(IncompleteBaseline);
    }
    r := Ok(Baseline(numTasks.value, numPoints.value, range.value.0, range.value.1));
  }

  /** Entry `i` is a list of per-task tensors and no later entry is. */
  ghost predicate LastList(base: Dict<string, Value>, i: nat)
    requires i < |base|
  {
    base[i].1.TensorList? && forall j :: i < j < |base| ==> !base[j].1.TensorList?
  }

  /** Entry `i` is a tensor and no later entry is. */
  ghost predicate LastTensor(base: Dict<string, Value>, i: nat)
    requires i < |base|
  {
    base[i].1.Tensor? && forall j :: i < j < |base| ==> !base[j].1.Tensor?
  }

  /** The walk completes exactly when no baseline tensor is empty. */
  lemma {:induction false} ScanOkIff(base: Dict<string, Value>)
    ensures Scan(base).Ok? <==> forall i :: 0 <= i < |base| ==> base[i].1 != Tensor([])
    decreases |base|
  {
    if base != [] {
      var front := base[..|base| - 1];
      ScanOkIff(front);
      assert forall i :: 0 <= i < |front| ==> front[i] == base[i];
    }
  }

  /** The walk raises on the first empty tensor, naming its metric. */
  lemma {:induction false} ScanErrorFirst(base: Dict<string, Value>)
    requires Scan(base).Err?
    ensures exists i :: (0 <= i < |base| && base[i].1 == Tensor([]) && Scan(base).error == EmptyBaseline(base[i].0) &&
      forall j :: 0 <= j < i ==> base[j].1 != Tensor([]))
    decreases |base|
  {
    var front := base[..|base| - 1];
    assert forall i :: 0 <= i < |front| ==> front[i] == base[i];
    if Scan(front).Err? {
      ScanErrorFirst(front);
    } else {
      ScanOkIff(front);
    }
  }

  /** The number of tasks is found exactly when some entry is a list, and it is the length of the last one. */
  lemma {:induction false} ScanTasks(base: Dict<string, Value>, acc: Found)
    requires Scan(base) == Ok(acc)
    ensures acc.numTasks.None? <==> forall i :: 0 <= i < |base| ==> !base[i].1.TensorList?
    ensures acc.numTasks.Some? ==> exists i :: (0 <= i < |base| && LastList(base, i) &&
      acc.numTasks.value == |base[i].1.items|)
    decreases |base|
  {
    if base != [] {
      var n := |base| - 1;
      var front := base[..n];
      var acc0 := Scan(front).value;
      ScanTasks(front, acc0);
      assert forall i :: 0 <= i < n ==> front[i] == base[i];
      if !base[n].1.TensorList? && acc.numTasks.Some? {
        var i :| 0 <= i < n && LastList(front, i) && acc0.numTasks.value == |front[i].1.items|;
        assert LastList(base, i);
      }
      if base[n].1.TensorList? {
        assert LastList(base, n);
      }
    }
  }

  /** The y range `[min - 0.25, max + 0.25]` of a non-empty tensor. */
  function RangeOf(points: seq<real>): (real, real)
    requires points != []
  {
    (Min(points) - Margin, Max(points) + Margin)
  }

  /** The point count and the range are found together, exactly when some entry is a tensor. */
  lemma {:induction false} ScanPointsFound(base: Dict<string, Value>, acc: Found)
    requires Scan(base) == Ok(acc)
    ensures acc.numPoints.Some? <==> acc.range.Some?
    ensures acc.numPoints.None? <==> forall i :: 0 <= i < |base| ==> !base[i].1.Tensor?
    decreases |base|
  {
    if base != [] {
      var n := |base| - 1;
      var front := base[..n];
      ScanPointsFound(front, Scan(front).value);
      assert forall i :: 0 <= i < n ==> front[i] == base[i];
    }
  }

  /** Both come from the last tensor. */
  lemma {:induction false} ScanPoints(base: Dict<string, Value>, acc: Found)
    requires Scan(base) == Ok(acc) && acc.numPoints.Some?
    ensures exists i :: (0 <= i < |base| && LastTensor(base, i) && base[i].1.points != [] &&
      acc.numPoints.value == |base[i].1.points| && acc.range == Some(RangeOf(base[i].1.points)))
    decreases |base|
  {
    var n := |base| - 1;
    var front := base[..n];
    var acc0 := Scan(front).value;
    if base[n].1.Tensor? {
      assert LastTensor(base, n);
    } else {
      ScanPoints(front, acc0);
      var i :| 0 <= i < n && LastTensor(front, i) && front[i].1.points != [] &&
        acc0.numPoints.value == |front[i].1.points| && acc0.range == Some(RangeOf(front[i].1.points));
      forall j | i <= j < |base| ensures j < n ==> base[j] == front[j] { }
      assert LastTensor(base, i);
    }
  }

  /**
   * The baseline is derived exactly when the "base" predictions hold a
   * list, a tensor, and no empty tensor; otherwise the error is the first
   * empty tensor's or, failing that, the missing quantity's.
   */
  lemma BaselineOkIff(base: Dict<string, Value>)
    ensures BaselineOf(base).Ok? <==>
      (exists i :: 0 <= i < |base| && base[i].1.TensorList?) &&
      (exists i :: 0 <= i < |base| && base[i].1.Tensor?) &&
      (forall i :: 0 <= i < |base| ==> base[i].1 != Tensor([]))
    ensures BaselineOf(base).Err? ==>
      BaselineOf(base).error == IncompleteBaseline ||
      exists i :: 0 <= i < |base| && base[i].1 == Tensor([]) && BaselineOf(base).error == EmptyBaseline(base[i].0)
  {
    ScanOkIff(base);
    if Scan(base).Ok? {
      ScanTasks(base, Scan(base).value);
      ScanPointsFound(base, Scan(base).value);
    } else {
      ScanErrorFirst(base);
    }
  }

  /** Two entries that are both the last tensor are the same entry. */
  lemma LastTensorUnique(base: Dict<string, Value>, i: nat, j: nat)
    requires i < |base| && j < |base| && LastTensor(base, i) && LastTensor(base, j)
    ensures i == j
  {
  }

  /**
   * The derived quantities: the number of tasks is the last list's length, the
   * point count the last tensor's, and the range strictly contains every
   * value of that tensor, with the margin on either side.
   */
  lemma BaselineFromLast(base: Dict<string, Value>, b: Baseline)
    requires BaselineOf(base) == Ok(b)
    ensures exists i :: 0 <= i < |base| && LastList(base, i) && b.numTasks == |base[i].1.items|
    ensures exists i :: (0 <= i < |base| && LastTensor(base, i) && b.numPoints == |base[i].1.points| > 0 &&
      (b.lo, b.hi) == RangeOf(base[i].1.points))
  {
    ScanTasks(base, Scan(base).value);
    ScanPointsFound(base, Scan(base).value);
    ScanPoints(base, Scan(base).value);
  }

  /** The y range holds the last tensor's values strictly inside it. */
  lemma BaselineRange(base: Dict<string, Value>, b: Baseline, i: nat)
    requires BaselineOf(base) == Ok(b) && i < |base| && LastTensor(base, i)
    ensures b.lo + 2.0 * Margin <= b.hi
    ensures forall x :: x in base[i].1.points ==> b.lo < x < b.hi
  {
    BaselineFromLast(base, b);
    var j :| 0 <= j < |base| && LastTensor(base, j) && b.numPoints == |base[j].1.points| > 0 &&
      (b.lo, b.hi) == RangeOf(base[j].1.points);
    LastTensorUnique(base, i, j);
    var points := base[i].1.points;
    assert Min(points) <= points[0] <= Max(points);
  }
}
