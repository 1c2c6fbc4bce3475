/**
 * `plotly_colors`: an endless cycle through three distinctive colours.
 * Each figure (and the prediction grid) draws from a fresh cycle, zipped
 * with a finite list of items, so only a prefix of the cycle is ever used.
 */
module Colors {
  import opened Arith

  const Palette: seq<string> := ["red", "blue", "green"]

  /** The first `n` values of `itertools.cycle(p)`: `p` repeated as often as needed. */
  function Cycle<T>(p: seq<T>, n: nat): (r: seq<T>)
    requires |p| > 0
    ensures |r| == n
    decreases n
  {
    if n <= |p| then p[..n] else p + Cycle(p, n - |p|)
  }

  lemma ModShift(k: nat, d: nat)
    requires d >= 1 && k >= d
    ensures (k - d) % d == k % d
  {
    var q, r := (k - d) / d, (k - d) % d;
    assert k == (q + 1) * d + r;
    DivUnique(k, d, q + 1, r);
  }

  /** The k-th value drawn from the cycle is `p[k mod |p|]`. */
  lemma {:induction false} CycleAt<T>(p: seq<T>, n: nat, k: nat)
    requires |p| > 0 && k < n
    ensures Cycle(p, n)[k] == p[k % |p|]
    decreases n
  {
    if n > |p| && k >= |p| {
      CycleAt(p, n - |p|, k - |p|);
      ModShift(k, |p|);
    }
  }

  /** The k-th colour `plotly_colors` yields: red, blue, green, red, ... */
  lemma ColorAt(n: nat, k: nat)
    requires k < n
    ensures Cycle(Palette, n)[k] == Palette[k % 3]
    ensures Cycle(Palette, n)[k] in {"red", "blue", "green"}
  {
    CycleAt(Palette, n, k);
  }

  /** Consecutive items get different colours, and every third item repeats one. */
  lemma ColorsAlternate(n: nat, k: nat)
    requires k + 1 < n
    ensures Cycle(Palette, n)[k] != Cycle(Palette, n)[k + 1]
    ensures k + 3 < n ==> Cycle(Palette, n)[k] == Cycle(Palette, n)[k + 3]
  {
    ColorAt(n, k);
    ColorAt(n, k + 1);
    if k + 3 < n {
      ColorAt(n, k + 3);
      ModShift(k + 3, 3);
    }
  }
}
