/**
 * The naming protocol of stored results: every key has the form
 * `{model}_{metric}_{kind}`. The dashboard selects keys by the suffix of
 * the whole key and recovers the three parts with `k.rsplit("_", 2)`,
 * which splits at the last two underscores only: the model may contain
 * underscores, the metric and the kind may not.
 */
module ResultKeys {
  import opened Wrappers

  datatype KeyParts = KeyParts(model: string, metric: string, kind: string)

  /** `s.endswith(suffix)` */
  predicate EndsWith(s: string, suffix: string)
  {
    |suffix| <= |s| && s[|s| - |suffix|..] == suffix
  }

  /** How a producer writes a key. */
  function JoinKey(p: KeyParts): string
  {
    p.model + "_" + p.metric + "_" + p.kind
  }

  /** The key holds at least two underscores. */
  ghost predicate TwoUnderscores(k: string)
  {
    exists i, j :: 0 <= i < j < |k| && k[i] == '_' && k[j] == '_'
  }

  /** `s.rfind("_", 0, n)`: the position of the last underscore before position `n`. */
  function RFind(s: string, n: nat): (r: Option<nat>)
    requires n <= |s|
    ensures r.Some? ==> r.value < n && s[r.value] == '_'
    decreases n
  {
    if n == 0 then None
    else if s[n - 1] == '_' then Some(n - 1)
    else RFind(s, n - 1)
  }

  /** `rfind` finds nothing exactly when there is no underscore, and none follows the one it finds. */
  lemma {:induction false} RFindIsLast(s: string, n: nat)
    requires n <= |s|
    ensures RFind(s, n).None? <==> forall m :: 0 <= m < n ==> s[m] != '_'
    ensures RFind(s, n).Some? ==> forall m :: RFind(s, n).value < m < n ==> s[m] != '_'
    decreases n
  {
    if n > 0 && s[n - 1] != '_' {
      RFindIsLast(s, n - 1);
    }
  }

  /** An underscore with none after it (before `n`) is the one `rfind` reports. */
  lemma RFindAt(s: string, n: nat, j: nat)
    requires j < n <= |s| && s[j] == '_'
    requires forall m :: j < m < n ==> s[m] != '_'
    ensures RFind(s, n) == Some(j)
  {
    RFindIsLast(s, n);
  }

  /**
   * `model, metric, kind = k.rsplit("_", 2)`: None where the unpacking into
   * three names raises, because the key has fewer than two underscores.
   */
  function RSplit2(k: string): (r: Option<KeyParts>)
    ensures r.Some? ==> JoinKey(r.value) == k
  {
    match RFind(k, |k|)
    case None => None
    case Some(j) =>
      match RFind(k, j)
      case None => None
      case Some(i) =>
        assert k[..j] == k[..i] + "_" + k[i + 1..j];
        assert k == k[..j] + "_" + k[j + 1..];
        Some(KeyParts(k[..i], k[i + 1..j], k[j + 1..]))
  }

  /** The metric and the kind read back never contain an underscore. */
  lemma RSplit2Parts(k: string)
    requires RSplit2(k).Some?
    ensures '_' !in RSplit2(k).value.metric && '_' !in RSplit2(k).value.kind
  {
    var j := RFind(k, |k|).value;
    var i := RFind(k, j).value;
    RFindIsLast(k, |k|);
    RFindIsLast(k, j);
    var metric, kind := k[i + 1..j], k[j + 1..];
    forall m | 0 <= m < |metric| ensures metric[m] != '_' { assert metric[m] == k[i + 1 + m]; }
    forall m | 0 <= m < |kind| ensures kind[m] != '_' { assert kind[m] == k[j + 1 + m]; }
  }

  /** Parsing fails exactly for the keys with fewer than two underscores. */
  lemma RSplit2FailsIff(k: string)
    ensures RSplit2(k).None? <==> !TwoUnderscores(k)
  {
    RFindIsLast(k, |k|);
    if RFind(k, |k|).Some? {
      RFindIsLast(k, RFind(k, |k|).value);
    }
  }

  /** Parsing a key that was written from parts recovers the parts. */
  lemma JoinThenSplit(p: KeyParts)
    requires '_' !in p.metric && '_' !in p.kind
    ensures RSplit2(JoinKey(p)) == Some(p)
  {
    var k := JoinKey(p);
    var i := |p.model|;
    var j := i + 1 + |p.metric|;
    assert k == p.model + "_" + p.metric + "_" + p.kind;
    forall m | j < m < |k| ensures k[m] != '_' { assert k[m] == p.kind[m - j - 1]; }
    RFindAt(k, |k|, j);
    forall m | i < m < j ensures k[m] != '_' { assert k[m] == p.metric[m - i - 1]; }
    RFindAt(k, j, i);
    assert k[..i] == p.model;
    assert k[i + 1..j] == p.metric;
    assert k[j + 1..] == p.kind;
  }

  /** A loss key of a trained model, read back. */
  lemma LossKeyExample()
    ensures RSplit2("mlp_train_loss") == Some(KeyParts("mlp", "train", "loss"))
  {
    var p := KeyParts("mlp", "train", "loss");
    assert JoinKey(p) == "mlp_train_loss";
    JoinThenSplit(p);
  }

  /** A key without two underscores cannot be unpacked. */
  lemma ShortKeyExample()
    ensures RSplit2("fooloss") == None
  {
    assert '_' !in "fooloss";
  }

  /**
   * A metric written with an underscore is not recovered: its first part
   * is read as part of the model name.
   */
  lemma MetricWithUnderscoreMisparses()
    ensures RSplit2(JoinKey(KeyParts("mlp", "held_out", "loss"))) == Some(KeyParts("mlp_held", "out", "loss"))
  {
    var p := KeyParts("mlp_held", "out", "loss");
    assert JoinKey(p) == JoinKey(KeyParts("mlp", "held_out", "loss"));
    JoinThenSplit(p);
  }
}
