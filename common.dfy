/** Definitions shared by the mobile and the desktop animation: the four
    distribution families, histogram arithmetic, bin selection, cycling
    through a fixed list, and the per-frame "update every particle, keep
    the live ones" pass. */
module Common {

  datatype Distribution = Uniform | Exponential | Bimodal | Skewed

  /** `Math.min` and `Math.max` on integers. */
  function Min(a: int, b: int): int { if a < b then a else b }
  function Max(a: int, b: int): int { if a < b then b else a }

  // ---------------------------------------------------------------------
  // Histograms

  /** Total of all bin counts. */
  function Sum(h: seq<nat>): nat
  {
    if h == [] then 0 else h[0] + Sum(h[1..])
  }

  /** Incrementing one bin raises the total by exactly one. */
  lemma {:induction false} SumIncrement(h: seq<nat>, i: nat)
    requires i < |h|
    ensures Sum(h[i := h[i] + 1]) == Sum(h) + 1
  {
    if i == 0 {
      assert h[i := h[i] + 1][1..] == h[1..];
    } else {
      assert h[i := h[i] + 1][1..] == h[1..][i - 1 := h[i] + 1];
      SumIncrement(h[1..], i - 1);
    }
  }

  /** A histogram of zeros has total zero. */
  lemma {:induction false} SumAllZero(h: seq<nat>)
    requires forall i :: 0 <= i < |h| ==> h[i] == 0
    ensures Sum(h) == 0
  {
    if h != [] {
      SumAllZero(h[1..]);
    }
  }

  /** No single bin exceeds the total, so no bin exceeds the sample count. */
  lemma {:induction false} BinAtMostSum(h: seq<nat>, i: nat)
    requires i < |h|
    ensures h[i] <= Sum(h)
  {
    if i > 0 {
      BinAtMostSum(h[1..], i - 1);
    }
  }

  /** `max` is a usable vertical scale for the bars of `h`: never below 1
      (so dividing by it is safe) and at least every bin. */
  ghost predicate ScaleBounds(h: seq<nat>, max: nat)
  {
    1 <= max && forall i :: 0 <= i < |h| ==> h[i] <= max
  }

  /** `Math.max(0, Math.min(b, bins - 1))`. */
  function ClampIndex(b: int, bins: nat): (r: nat)
    requires 0 < bins
    ensures r < bins
    ensures 0 <= b < bins ==> r == b
    ensures b < 0 ==> r == 0
    ensures bins <= b ==> r == bins - 1
  {
    Max(0, Min(b, bins - 1))
  }

  /** The bin of a value: `floor(x * scale)` clamped into `[0, bins - 1]`. */
  function BinIndex(x: real, scale: nat, bins: nat): (r: nat)
    requires 0 < bins
    ensures r < bins
  {
    ClampIndex((x * scale as real).Floor, bins)
  }

  /** Bin `k` receives exactly the values whose scaled value lies in
      `[k, k + 1)`, except that the first bin also takes everything below
      and the last bin everything above. */
  lemma BinInterval(x: real, scale: nat, bins: nat, k: nat)
    requires 0 < bins && k < bins
    ensures BinIndex(x, scale, bins) == k <==>
      (k == 0 || k as real <= x * scale as real) &&
      (k == bins - 1 || x * scale as real < (k + 1) as real)
  {
  }

  // ---------------------------------------------------------------------
  // Cycling through a fixed list (`indexOf` and wrap-around)

  /** `xs.indexOf(x)`: the first position of `x`, or -1 when absent. */
  function IndexOf<T(==)>(xs: seq<T>, x: T): (r: int)
    ensures -1 <= r < |xs|
    ensures r == -1 <==> x !in xs
    ensures 0 <= r ==> xs[r] == x && x !in xs[..r]
  {
    if xs == [] then -1
    else if xs[0] == x then 0
    else
      var i := IndexOf(xs[1..], x);
      if i == -1 then -1
      else
        assert xs[..i + 1] == [xs[0]] + xs[1..][..i];
        i + 1
  }

  /** `xs[(xs.indexOf(x) + 1) % xs.length]`: the element after the first
      occurrence of `x`, wrapping from the last to the first; the first
      element when `x` is absent. */
  function CyclicSuccessor<T(==)>(xs: seq<T>, x: T): (r: T)
    requires |xs| > 0
    ensures r in xs
    ensures x !in xs ==> r == xs[0]
    ensures forall i :: 0 <= i < |xs| && xs[i] == x && x !in xs[..i] ==> r == xs[(i + 1) % |xs|]
  {
    var j := IndexOf(xs, x);
    xs[(j + 1) % |xs|]
  }

  // ---------------------------------------------------------------------
  // Per-frame particle pass

  /** Every element is stepped once and kept only when `keep` accepts it,
      survivors staying in their original order. */
  function KeepMap<T>(s: seq<T>, step: T -> T, keep: T -> bool): (r: seq<T>)
    ensures |r| <= |s|
  {
    if s == [] then [] else (if keep(s[0]) then [step(s[0])] else []) + KeepMap(s[1..], step, keep)
  }

  /** Number of elements `keep` accepts. */
  function CountKept<T>(s: seq<T>, keep: T -> bool): nat
  {
    if s == [] then 0 else (if keep(s[0]) then 1 else 0) + CountKept(s[1..], keep)
  }

  /** The pass never adds: it returns one element per kept input. */
  lemma {:induction false} KeepMapLength<T>(s: seq<T>, step: T -> T, keep: T -> bool)
    ensures |KeepMap(s, step, keep)| == CountKept(s, keep) <= |s|
  {
    if s != [] {
      KeepMapLength(s[1..], step, keep);
    }
  }

  /** Every kept input appears, stepped, at the position given by the
      number of kept inputs before it: survivors keep their order. */
  lemma {:induction false} KeepMapAt<T>(s: seq<T>, step: T -> T, keep: T -> bool, j: nat)
    requires j < |s| && keep(s[j])
    ensures CountKept(s[..j], keep) < |KeepMap(s, step, keep)|
    ensures KeepMap(s, step, keep)[CountKept(s[..j], keep)] == step(s[j])
  {
    if j == 0 {
      assert s[..j] == [];
    } else {
      assert s[..j][1..] == s[1..][..j - 1];
      KeepMapAt(s[1..], step, keep, j - 1);
    }
  }

  /** Every output is a kept input, stepped, at the position the number of
      kept inputs before it dictates: nothing else appears. */
  lemma {:induction false} KeepMapFrom<T>(s: seq<T>, step: T -> T, keep: T -> bool, k: nat)
    requires k < |KeepMap(s, step, keep)|
    ensures exists j :: 0 <= j < |s| && keep(s[j]) && CountKept(s[..j], keep) == k &&
                        KeepMap(s, step, keep)[k] == step(s[j])
  {
    assert s != [];
    var rest := KeepMap(s[1..], step, keep);
    if keep(s[0]) && k == 0 {
      assert s[..0] == [];
      assert CountKept(s[..0], keep) == 0;
    } else {
      var k' := if keep(s[0]) then k - 1 else k;
      KeepMapFrom(s[1..], step, keep, k');
      var j' :| 0 <= j' < |s[1..]| && keep(s[1..][j']) && CountKept(s[1..][..j'], keep) == k' &&
                rest[k'] == step(s[1..][j']);
      assert s[..j' + 1][1..] == s[1..][..j'];
      assert CountKept(s[..j' + 1], keep) == k;
    }
  }
}
