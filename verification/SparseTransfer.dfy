/**
 tempo/sparse_transfer.py: pick the tokens worth sending by their attention weight, pack their rows,
 and unpack them at the receiver.  A row is a value; exponentials of the logits are inputs.
 */
module SparseTransfer {
  import opened Basics

  // ---------------------------------------------------------------------------------------
  // Attention weights
  // ---------------------------------------------------------------------------------------

  ghost predicate Positive(s: seq<real>) {
    forall i | 0 <= i < |s| :: s[i] > 0.0
  }

  lemma {:induction false} SumPositive(s: seq<real>)
    requires Positive(s)
    ensures Sum(s) >= 0.0 && (s != [] ==> Sum(s) > 0.0)
  {
    if s != [] { SumPositive(s[..|s| - 1]); }
  }

  function Scaled(s: seq<real>, total: real): (r: seq<real>)
    requires total > 0.0
    ensures |r| == |s|
  {
    seq(|s|, i requires 0 <= i < |s| => s[i] / total)
  }

  lemma {:induction false} SumScaled(s: seq<real>, total: real)
    requires total > 0.0
    ensures Sum(Scaled(s, total)) == Sum(s) / total
  {
    if s != [] {
      var n := |s| - 1;
      SumScaled(s[..n], total);
      assert Scaled(s, total)[..n] == Scaled(s[..n], total);
    }
  }

  ghost predicate Weights(scores: seq<real>) {
    (forall i | 0 <= i < |scores| :: scores[i] >= 0.0) && Sum(scores) == 1.0
  }

  /** Scaling by the sum gives weights in the same order. */
  lemma ScaledAreWeights(s: seq<real>)
    requires s != [] && Positive(s)
    ensures Sum(s) > 0.0 && Weights(Scaled(s, Sum(s)))
    ensures forall i, j | 0 <= i < |s| && 0 <= j < |s| ::
              s[i] <= s[j] <==> Scaled(s, Sum(s))[i] <= Scaled(s, Sum(s))[j]
  {
    SumPositive(s);
    SumScaled(s, Sum(s));
    OwnShare(Sum(s));
    var w := Scaled(s, Sum(s));
    forall i | 0 <= i < |s| ensures w[i] >= 0.0 { DivideKeepsOrder(0.0, s[i], Sum(s)); }
    forall i, j | 0 <= i < |s| && 0 <= j < |s| ensures s[i] <= s[j] <==> w[i] <= w[j] {
      DivideKeepsOrder(s[i], s[j], Sum(s));
    }
  }

  predicate IsShare(score: real, total: real, x: real) { score * total == x }

  /** Each score is its part of the sum of all exponentials. */
  ghost predicate Shares(exps: seq<real>, scores: seq<real>) {
    |scores| == |exps| && forall i | 0 <= i < |exps| :: IsShare(scores[i], Sum(exps), exps[i])
  }

  lemma ShareOf(x: real, total: real)
    requires total > 0.0
    ensures IsShare(x / total, total, x)
  {
  }

  lemma ScaledAreShares(s: seq<real>)
    requires Sum(s) > 0.0
    ensures Shares(s, Scaled(s, Sum(s)))
  {
    forall i | 0 <= i < |s| ensures IsShare(Scaled(s, Sum(s))[i], Sum(s), s[i]) { ShareOf(s[i], Sum(s)); }
  }

  method Total(s: seq<real>) returns (total: real)
    ensures total == Sum(s)
  {
    total := 0.0;
    var k := 0;
    while k < |s|
      invariant 0 <= k <= |s| && total == Sum(s[..k])
    {
      assert s[..k + 1][..k] == s[..k];
      total := total + s[k];
      k := k + 1;
    }
    assert s[..|s|] == s;
  }

  /** The softmax: divide the exponentials by their sum. */
  method Softmax(exps: seq<real>) returns (scores: seq<real>)
    requires exps != [] && Positive(exps)
    ensures |scores| == |exps| && Weights(scores)
    ensures forall i, j | 0 <= i < |exps| && 0 <= j < |exps| :: exps[i] <= exps[j] <==> scores[i] <= scores[j]
    ensures Shares(exps, scores)
  {
    var total := Total(exps);
    ScaledAreWeights(exps);
    ScaledAreShares(exps);
    scores := Scaled(exps, total);
  }

  lemma OwnShare(x: real)
    requires x > 0.0
    ensures x / x == 1.0
  {
    assert (x / x) * x == x;
  }

  lemma DivideKeepsOrder(x: real, y: real, total: real)
    requires total > 0.0
    ensures x <= y <==> x / total <= y / total
    ensures 0.0 / total == 0.0
  {
    assert (x / total) * total == x && (y / total) * total == y;
  }

  // ---------------------------------------------------------------------------------------
  // Masks
  // ---------------------------------------------------------------------------------------

  function Count(mask: seq<bool>): (n: nat)
    ensures n <= |mask|
  {
    if mask == [] then 0 else Count(mask[..|mask| - 1]) + (if mask[|mask| - 1] then 1 else 0)
  }

  /** Every token of a is one of b. */
  ghost predicate Within(a: seq<bool>, b: seq<bool>) {
    |a| == |b| && forall i | 0 <= i < |a| && a[i] :: b[i]
  }

  lemma {:induction false} CountWithin(a: seq<bool>, b: seq<bool>)
    requires Within(a, b)
    ensures Count(a) <= Count(b)
    ensures Count(a) == Count(b) ==> a == b
  {
    if a != [] {
      var n := |a| - 1;
      CountWithin(a[..n], b[..n]);
      assert a == a[..n] + [a[n]] && b == b[..n] + [b[n]];
    }
  }

  lemma {:induction false} CountSet(mask: seq<bool>, i: nat)
    requires i < |mask| && !mask[i]
    ensures Count(mask[i := true]) == Count(mask) + 1
  {
    var n := |mask| - 1;
    if i < n {
      CountSet(mask[..n], i);
      assert mask[i := true][..n] == mask[..n][i := true];
    } else {
      assert mask[i := true][..n] == mask[..n];
    }
  }

  lemma {:induction false} CountAll(mask: seq<bool>)
    ensures Count(mask) == |mask| <==> forall i | 0 <= i < |mask| :: mask[i]
  {
    if mask != [] {
      var n := |mask| - 1;
      CountAll(mask[..n]);
      assert forall i | 0 <= i < n :: mask[i] == mask[..n][i];
    }
  }

  lemma {:induction false} CountNone(mask: seq<bool>)
    ensures Count(mask) == 0 <==> forall i | 0 <= i < |mask| :: !mask[i]
  {
    if mask != [] {
      var n := |mask| - 1;
      CountNone(mask[..n]);
      assert forall i | 0 <= i < n :: mask[i] == mask[..n][i];
    }
  }

  /** The positions set in a mask, ascending, as `np.where` lists them. */
  function Where(mask: seq<bool>): (w: seq<nat>)
    ensures |w| == Count(mask)
  {
    if mask == [] then []
    else Where(mask[..|mask| - 1]) + (if mask[|mask| - 1] then [|mask| - 1] else [])
  }

  lemma {:induction false} WhereAscends(mask: seq<bool>)
    ensures forall i | 0 <= i < |Where(mask)| :: Where(mask)[i] < |mask| && mask[Where(mask)[i]]
    ensures forall i, j | 0 <= i < j < |Where(mask)| :: Where(mask)[i] < Where(mask)[j]
  {
    if mask != [] { WhereAscends(mask[..|mask| - 1]); }
  }

  lemma {:induction false} WhereHas(mask: seq<bool>, p: nat)
    requires p < |mask| && mask[p]
    ensures p in Where(mask)
  {
    if p < |mask| - 1 { WhereHas(mask[..|mask| - 1], p); }
  }

  /** The listing has every position set, and only those, in order. */
  lemma WhereLists(mask: seq<bool>)
    ensures forall i | 0 <= i < |Where(mask)| :: Where(mask)[i] < |mask| && mask[Where(mask)[i]]
    ensures forall i, j | 0 <= i < j < |Where(mask)| :: Where(mask)[i] < Where(mask)[j]
    ensures forall p | 0 <= p < |mask| && mask[p] :: p in Where(mask)
  {
    WhereAscends(mask);
    forall p | 0 <= p < |mask| && mask[p] ensures p in Where(mask) { WhereHas(mask, p); }
  }

  // ---------------------------------------------------------------------------------------
  // Selection
  // ---------------------------------------------------------------------------------------

  function Hot(scores: seq<real>, threshold: real): (m: seq<bool>)
    ensures |m| == |scores|
  {
    seq(|scores|, i requires 0 <= i < |scores| => scores[i] >= threshold)
  }

  /** `int(x)` for a non-negative x, and the cap on the number of hot tokens. */
  function MaxCount(n: nat, minTokens: nat, maxRatio: real): (k: nat)
    requires maxRatio >= 0.0
    ensures k >= minTokens && (k + 1) as real > n as real * maxRatio
    ensures k == minTokens || k as real <= n as real * maxRatio
  {
    var share := (n as real * maxRatio).Floor;
    if share > minTokens then share else minTokens
  }

  /** The mask sets k tokens, and none outside scores more than one inside. */
  ghost predicate TopMask(scores: seq<real>, k: nat, mask: seq<bool>) {
    |mask| == |scores| && Count(mask) == k
    && forall i, j | 0 <= i < |mask| && 0 <= j < |mask| && mask[i] && !mask[j] :: scores[j] <= scores[i]
  }

  /** Before recency: the hot tokens, or some top k of them; the slice `[-0:]` takes everything. */
  ghost predicate Capped(scores: seq<real>, threshold: real, k: nat, mask: seq<bool>) {
    if Count(Hot(scores, threshold)) <= k then mask == Hot(scores, threshold)
    else if k == 0 then |mask| == |scores| && Count(mask) == |mask|
    else TopMask(scores, k, mask)
  }

  /** Where `[-m:]` starts in a list longer than m. */
  function TailStart(n: nat, m: nat): nat
    requires n > m
  {
    if m == 0 then 0 else n - m
  }

  function Recent(mask: seq<bool>, m: nat): (r: seq<bool>)
    ensures |r| == |mask|
  {
    seq(|mask|, i requires 0 <= i < |mask| => mask[i] || (|mask| > m && i >= TailStart(|mask|, m)))
  }

  ghost predicate Selected(scores: seq<real>, threshold: real, k: nat, m: nat, capped: seq<bool>, hot: seq<nat>) {
    Capped(scores, threshold, k, capped) && hot == Where(Recent(capped, m))
  }

  /** The highest-scoring token not yet taken. */
  method BestLeft(scores: seq<real>, mask: seq<bool>) returns (best: nat)
    requires |mask| == |scores| && Count(mask) < |mask|
    ensures best < |mask| && !mask[best]
    ensures forall j | 0 <= j < |mask| && !mask[j] :: scores[j] <= scores[best]
  {
    CountAll(mask);
    var b, i := -1, 0;
    while i < |mask|
      invariant 0 <= i <= |mask| && -1 <= b < i
      invariant b == -1 ==> forall j | 0 <= j < i :: mask[j]
      invariant b >= 0 ==> !mask[b] && forall j | 0 <= j < i && !mask[j] :: scores[j] <= scores[b]
    {
      if !mask[i] && (b < 0 || scores[i] > scores[b]) { b := i; }
      i := i + 1;
    }
    best := b;
  }

  /** Some k top-scoring tokens; which of equal ones is left open, as for `argpartition`. */
  method TopTokens(scores: seq<real>, k: nat) returns (mask: seq<bool>)
    requires k <= |scores|
    ensures TopMask(scores, k, mask)
  {
    mask := seq(|scores|, i => false);
    CountNone(mask);
    var c := 0;
    while c < k
      invariant 0 <= c <= k && TopMask(scores, c, mask)
    {
      var best := BestLeft(scores, mask);
      CountSet(mask, best);
      mask := mask[best := true];
      c := c + 1;
    }
  }

  /** Mark the tokens at or above the threshold. */
  method MarkHot(scores: seq<real>, threshold: real, mask: array<bool>) returns (count: nat)
    requires mask.Length == |scores|
    modifies mask
    ensures mask[..] == Hot(scores, threshold) && count == Count(mask[..])
  {
    count := 0;
    var i := 0;
    while i < |scores|
      invariant 0 <= i <= |scores|
      invariant mask[..i] == Hot(scores, threshold)[..i] && count == Count(mask[..i])
    {
      mask[i] := scores[i] >= threshold;
      assert mask[..i + 1][..i] == mask[..i];
      if mask[i] { count := count + 1; }
      i := i + 1;
    }
    assert mask[..|scores|] == mask[..];
  }

  /** The tokens to send, ascending. */
  method SelectHot(scores: seq<real>, threshold: real, minTokens: nat, maxRatio: real)
    returns (hot: seq<nat>)
    requires maxRatio >= 0.0
    ensures exists capped ::
              Selected(scores, threshold, MaxCount(|scores|, minTokens, maxRatio), minTokens, capped, hot)
  {
    var n := |scores|;
    var mask := new bool[n];
    var count := MarkHot(scores, threshold, mask);
    var k := MaxCount(n, minTokens, maxRatio);
    if count > k {
      var top := if k == 0 then seq(n, i => true) else [];
      if k > 0 { top := TopTokens(scores, k); }
      if k == 0 { CountAll(top); }
      mask := new bool[n](i requires 0 <= i < n => top[i]);
      assert mask[..] == top;
    }
    ghost var capped := mask[..];
    if n > minTokens {
      var i := TailStart(n, minTokens);
      while i < n
        invariant TailStart(n, minTokens) <= i <= n
        invariant forall j | 0 <= j < n :: mask[j] == (capped[j] || TailStart(n, minTokens) <= j < i)
      {
        mask[i] := true;
        i := i + 1;
      }
    }
    assert mask[..] == Recent(capped, minTokens);
    hot := Where(mask[..]);
    assert Selected(scores, threshold, k, minTokens, capped, hot);
  }

  // ---------------------------------------------------------------------------------------
  // What is selected
  // ---------------------------------------------------------------------------------------

  /** If at least k tokens are hot, the top k all are. */
  lemma TopAreHot(scores: seq<real>, threshold: real, k: nat, mask: seq<bool>)
    requires TopMask(scores, k, mask) && Count(Hot(scores, threshold)) >= k
    ensures Within(mask, Hot(scores, threshold))
  {
    var hot := Hot(scores, threshold);
    if i: nat :| i < |mask| && mask[i] && !hot[i] {
      forall j | 0 <= j < |hot| && hot[j] ensures mask[j] {
        assert scores[i] < scores[j];
      }
      CountWithin(hot, mask);
    }
  }

  lemma {:induction false} HotOutweighs(scores: seq<real>, threshold: real)
    requires forall i | 0 <= i < |scores| :: scores[i] >= 0.0
    ensures Count(Hot(scores, threshold)) as real * threshold <= Sum(scores)
  {
    if scores != [] {
      var n := |scores| - 1;
      HotOutweighs(scores[..n], threshold);
      assert Hot(scores, threshold)[..n] == Hot(scores[..n], threshold);
      var c := Count(Hot(scores[..n], threshold));
      assert (c + 1) as real * threshold == c as real * threshold + threshold;
    }
  }

  lemma FactorOrder(p: real, q: real, y: real)
    requires y > 0.0 && p * y <= q * y
    ensures p <= q
  {
    assert (q - p) * y >= 0.0;
  }

  lemma QuotientFloor(c: nat, threshold: real)
    requires threshold > 0.0 && c as real * threshold <= 1.0
    ensures c <= (1.0 / threshold).Floor
  {
    var q := 1.0 / threshold;
    assert q * threshold == 1.0;
    FactorOrder(c as real, q, threshold);
  }

  /** Attention weights leave at most 1 / threshold tokens hot. */
  lemma FewTokensAreHot(scores: seq<real>, threshold: real)
    requires Weights(scores) && threshold > 0.0
    ensures Count(Hot(scores, threshold)) <= (1.0 / threshold).Floor
  {
    HotOutweighs(scores, threshold);
    QuotientFloor(Count(Hot(scores, threshold)), threshold);
  }

  /** Before recency at most min(1 / threshold, k) tokens are chosen, all of them hot; if fewer than k,
      then every hot one, and otherwise no hot token left out outscores one that is chosen. */
  lemma CappedIsHotAndBest(scores: seq<real>, threshold: real, k: nat, mask: seq<bool>)
    requires Weights(scores) && threshold > 0.0 && k > 0 && Capped(scores, threshold, k, mask)
    ensures Within(mask, Hot(scores, threshold))
    ensures Count(mask) <= k && Count(mask) <= (1.0 / threshold).Floor
    ensures Count(mask) < k ==> forall i | 0 <= i < |mask| :: mask[i] <==> scores[i] >= threshold
    ensures forall i, j | 0 <= i < |mask| && 0 <= j < |mask| && mask[i] && !mask[j] && scores[j] >= threshold ::
              scores[j] <= scores[i]
  {
    FewTokensAreHot(scores, threshold);
    if Count(Hot(scores, threshold)) > k { TopAreHot(scores, threshold, k, mask); }
    CountWithin(mask, Hot(scores, threshold));
  }

  lemma {:induction false} RecentAdds(mask: seq<bool>, start: nat, n: nat)
    requires start <= n <= |mask|
    ensures Count(seq(n, i requires 0 <= i < n => mask[i] || i >= start)) <= Count(mask[..n]) + (n - start)
  {
    var r := seq(n, i requires 0 <= i < n => mask[i] || i >= start);
    if n == start {
      assert r == mask[..n];
    } else {
      RecentAdds(mask, start, n - 1);
      assert r[..n - 1] == seq(n - 1, i requires 0 <= i < n - 1 => mask[i] || i >= start);
      assert mask[..n][..n - 1] == mask[..n - 1];
    }
  }

  /** Recency adds at most m tokens. */
  lemma RecentCount(mask: seq<bool>, m: nat)
    requires m > 0
    ensures Count(Recent(mask, m)) <= Count(mask) + m
  {
    var n := |mask|;
    if n > m {
      RecentAdds(mask, n - m, n);
      assert mask[..n] == mask;
      assert Recent(mask, m) == seq(n, i requires 0 <= i < n => mask[i] || i >= n - m);
    } else {
      assert Recent(mask, m) == mask;
    }
  }

  /** At most k + m tokens are sent. */
  lemma SelectionIsSmall(scores: seq<real>, threshold: real, k: nat, m: nat, capped: seq<bool>, hot: seq<nat>)
    requires m > 0 && k > 0 && Selected(scores, threshold, k, m, capped, hot)
    ensures |hot| <= Count(capped) + m <= k + m
  {
    RecentCount(capped, m);
  }

  /** The positions from low to n are all listed. */
  ghost predicate AllIn(w: seq<nat>, low: nat, n: nat) {
    forall p | low <= p < n :: p in w
  }

  /**
   The last min(m, n) tokens are all sent, except that a sequence no longer than m loses its tokens
   below the threshold.
   */
  lemma RecencyExactly(scores: seq<real>, threshold: real, k: nat, m: nat, capped: seq<bool>, hot: seq<nat>)
    requires m > 0 && k >= m && Selected(scores, threshold, k, m, capped, hot)
    ensures var n := |scores|;
            AllIn(hot, if n > m then n - m else 0, n)
            <==> n > m || forall i | 0 <= i < n :: scores[i] >= threshold
  {
    var r := Recent(capped, m);
    WhereLists(r);
    if |scores| > m {
      forall p | |scores| - m <= p < |scores| ensures p in hot { assert r[p]; }
    } else {
      assert r == capped;
      forall p: nat | p < |scores| ensures p in hot <==> scores[p] >= threshold {
        if p in hot { assert r[p]; }
        if scores[p] >= threshold { assert r[p]; }
      }
    }
  }

  /** With no minimum, the tail slice `[-0:]` marks the whole sequence: nothing is left out. */
  lemma NoMinimumSendsEverything(scores: seq<real>, threshold: real, k: nat, capped: seq<bool>, hot: seq<nat>)
    requires Selected(scores, threshold, k, 0, capped, hot)
    ensures |hot| == |scores| && forall p: nat | p < |scores| :: p in hot
  {
    CountAll(Recent(capped, 0));
    WhereLists(Recent(capped, 0));
  }

  /** A token is sent exactly when it was chosen by score or is recent. */
  lemma SentExactlyWhen(scores: seq<real>, threshold: real, k: nat, m: nat, capped: seq<bool>, hot: seq<nat>, p: nat)
    requires Selected(scores, threshold, k, m, capped, hot) && p < |scores|
    ensures p in hot <==> capped[p] || (|scores| > m && p >= TailStart(|scores|, m))
    ensures forall i, j | 0 <= i < j < |hot| :: hot[i] < hot[j] < |scores|
  {
    WhereLists(Recent(capped, m));
  }

  // ---------------------------------------------------------------------------------------
  // Packing and unpacking
  // ---------------------------------------------------------------------------------------

  datatype SparseBlock<T> = SparseBlock(k: seq<T>, v: seq<T>, hot: seq<nat>, contextLen: nat, layer: nat,
                                        reduction: real)

  /** Distinct positions of a sequence of length n, ascending. */
  ghost predicate Positions(hot: seq<nat>, n: nat) {
    (forall i | 0 <= i < |hot| :: hot[i] < n) && (forall i, j | 0 <= i < j < |hot| :: hot[i] < hot[j])
  }

  /** `rows[hot]`. */
  function Pack<T>(rows: seq<T>, hot: seq<nat>): (p: seq<T>)
    requires Positions(hot, |rows|)
    ensures |p| == |hot| && forall i | 0 <= i < |hot| :: p[i] == rows[hot[i]]
  {
    seq(|hot|, i requires 0 <= i < |hot| => rows[hot[i]])
  }

  /** `full(n, fill)` with `dense[hot] = packed`. */
  function Unpack<T>(packed: seq<T>, hot: seq<nat>, n: nat, fill: T): (d: seq<T>)
    requires |packed| == |hot| && Positions(hot, n)
    ensures |d| == n
  {
    if hot == [] then seq(n, i => fill)
    else
      var m := |hot| - 1;
      Unpack(packed[..m], hot[..m], n, fill)[hot[m] := packed[m]]
  }

  lemma {:induction false} UnpackHas<T>(packed: seq<T>, hot: seq<nat>, n: nat, fill: T, i: nat)
    requires |packed| == |hot| && Positions(hot, n) && i < |hot|
    ensures Unpack(packed, hot, n, fill)[hot[i]] == packed[i]
  {
    var m := |hot| - 1;
    if i < m { UnpackHas(packed[..m], hot[..m], n, fill, i); }
  }

  lemma {:induction false} UnpackFills<T>(packed: seq<T>, hot: seq<nat>, n: nat, fill: T, p: nat)
    requires |packed| == |hot| && Positions(hot, n) && p < n && p !in hot
    ensures Unpack(packed, hot, n, fill)[p] == fill
  {
    if hot != [] {
      var m := |hot| - 1;
      UnpackFills(packed[..m], hot[..m], n, fill, p);
    }
  }

  lemma UnpackIs<T>(packed: seq<T>, hot: seq<nat>, n: nat, fill: T)
    requires |packed| == |hot| && Positions(hot, n)
    ensures forall i | 0 <= i < |hot| :: Unpack(packed, hot, n, fill)[hot[i]] == packed[i]
    ensures forall p: nat | p < n && p !in hot :: Unpack(packed, hot, n, fill)[p] == fill
  {
    forall i | 0 <= i < |hot| ensures Unpack(packed, hot, n, fill)[hot[i]] == packed[i] {
      UnpackHas(packed, hot, n, fill, i);
    }
    forall p: nat | p < n && p !in hot ensures Unpack(packed, hot, n, fill)[p] == fill {
      UnpackFills(packed, hot, n, fill, p);
    }
  }

  /** The share of tokens left out. */
  function Reduction(sent: nat, n: nat): (r: real)
    requires sent <= n && n > 0
    ensures 0.0 <= r <= 1.0
    ensures r == 0.0 <==> sent == n
    ensures IsShare(1.0 - r, n as real, sent as real)
  {
    DivideKeepsOrder(0.0, sent as real, n as real);
    DivideKeepsOrder(sent as real, n as real, n as real);
    DivideKeepsOrder(n as real, sent as real, n as real);
    OwnShare(n as real);
    ShareOf(sent as real, n as real);
    1.0 - sent as real / n as real
  }

  function PackBlock<T>(k: seq<T>, v: seq<T>, hot: seq<nat>, layer: nat): SparseBlock<T>
    requires |k| == |v| > 0 && Positions(hot, |k|) && |hot| <= |k|
  {
    SparseBlock(Pack(k, hot), Pack(v, hot), hot, |k|, layer, Reduction(|hot|, |k|))
  }

  /** Unpacking what was packed gives the original rows at the hot positions and the fill elsewhere. */
  lemma RoundTrip<T>(rows: seq<T>, hot: seq<nat>, fill: T, p: nat)
    requires Positions(hot, |rows|) && p < |rows|
    ensures Unpack(Pack(rows, hot), hot, |rows|, fill)[p] == if p in hot then rows[p] else fill
  {
    UnpackIs(Pack(rows, hot), hot, |rows|, fill);
  }

  lemma BlockIs<T>(k: seq<T>, v: seq<T>, hot: seq<nat>, layer: nat)
    requires |k| == |v| > 0 && Positions(hot, |k|) && |hot| <= |k|
    ensures var b := PackBlock(k, v, hot, layer);
            && b.k == Pack(k, hot) && b.v == Pack(v, hot) && b.hot == hot && b.contextLen == |k| && b.layer == layer
            && IsShare(1.0 - b.reduction, |k| as real, |hot| as real)
  {
  }

  /** A packed block gives back both tensors in this way, at their full length. */
  lemma BlockRoundTrip<T>(k: seq<T>, v: seq<T>, hot: seq<nat>, layer: nat, fill: T, p: nat)
    requires |k| == |v| > 0 && Positions(hot, |k|) && |hot| <= |k| && p < |k|
    ensures var b := PackBlock(k, v, hot, layer);
            && |b.k| == |b.v| == |b.hot| && b.contextLen == |k| && Positions(b.hot, b.contextLen)
            && Unpack(b.k, b.hot, b.contextLen, fill)[p] == (if p in hot then k[p] else fill)
            && Unpack(b.v, b.hot, b.contextLen, fill)[p] == (if p in hot then v[p] else fill)
  {
    BlockIs(k, v, hot, layer);
    RoundTrip(k, hot, fill, p);
    RoundTrip(v, hot, fill, p);
  }

  /** So the rows come back whole exactly when every dropped row equals the fill. */
  lemma RoundTripIsExactWhen<T>(rows: seq<T>, hot: seq<nat>, fill: T)
    requires Positions(hot, |rows|)
    ensures Unpack(Pack(rows, hot), hot, |rows|, fill) == rows
       <==> forall p: nat | p < |rows| && p !in hot :: rows[p] == fill
  {
    forall p: nat | p < |rows| ensures Unpack(Pack(rows, hot), hot, |rows|, fill)[p] == if p in hot then rows[p] else fill {
      RoundTrip(rows, hot, fill, p);
    }
  }

  /** Packing what was unpacked gives the packed rows back. */
  lemma PackUndoesUnpack<T>(packed: seq<T>, hot: seq<nat>, n: nat, fill: T)
    requires |packed| == |hot| && Positions(hot, n)
    ensures Pack(Unpack(packed, hot, n, fill), hot) == packed
  {
    UnpackIs(packed, hot, n, fill);
  }

  /** Fill an array, then write the packed rows into their places. */
  method Spread<T(0)>(packed: seq<T>, hot: seq<nat>, n: nat, fill: T) returns (dense: array<T>)
    requires |packed| == |hot| && Positions(hot, n)
    ensures fresh(dense) && dense[..] == Unpack(packed, hot, n, fill)
  {
    dense := new T[n](_ => fill);
    var i := 0;
    while i < |hot|
      invariant 0 <= i <= |hot|
      invariant dense[..] == Unpack(packed[..i], hot[..i], n, fill)
    {
      assert packed[..i + 1][..i] == packed[..i] && hot[..i + 1][..i] == hot[..i];
      dense[hot[i]] := packed[i];
      i := i + 1;
    }
    assert packed[..|hot|] == packed && hot[..|hot|] == hot;
  }

  method Reconstruct<T(0)>(b: SparseBlock<T>, fill: T) returns (k: array<T>, v: array<T>)
    requires |b.k| == |b.hot| && |b.v| == |b.hot| && Positions(b.hot, b.contextLen)
    ensures fresh(k) && fresh(v)
    ensures k[..] == Unpack(b.k, b.hot, b.contextLen, fill) && v[..] == Unpack(b.v, b.hot, b.contextLen, fill)
  {
    k := Spread(b.k, b.hot, b.contextLen, fill);
    v := Spread(b.v, b.hot, b.contextLen, fill);
  }

  // ---------------------------------------------------------------------------------------
  // The object
  // ---------------------------------------------------------------------------------------

  class SparseTransferFilter {
    const threshold: real
    const maxRatio: real
    const minTokens: nat
    var calls: nat
    var totalTokens: nat
    var hotTokens: nat

    ghost predicate Valid()
      reads this
    {
      maxRatio >= 0.0 && hotTokens <= totalTokens
    }

    constructor (threshold: real, maxRatio: real, minTokens: nat)
      requires maxRatio >= 0.0
      ensures Valid() && this.threshold == threshold && this.maxRatio == maxRatio && this.minTokens == minTokens
      ensures calls == 0 && totalTokens == 0 && hotTokens == 0
    {
      this.threshold, this.maxRatio, this.minTokens := threshold, maxRatio, minTokens;
      calls, totalTokens, hotTokens := 0, 0, 0;
    }

    /** `exps` are the exponentials of the probe's logits, one per row. */
    method Filter<T>(k: seq<T>, v: seq<T>, exps: seq<real>, layer: nat)
      returns (b: SparseBlock<T>, ghost scores: seq<real>, ghost capped: seq<bool>)
      requires Valid() && |k| == |v| == |exps| && exps != [] && Positive(exps)
      modifies this
      ensures Valid() && Weights(scores) && Shares(exps, scores)
      ensures Selected(scores, threshold, MaxCount(|k|, minTokens, maxRatio), minTokens, capped, b.hot)
      ensures Positions(b.hot, |k|) && |b.hot| <= |k| && b == PackBlock(k, v, b.hot, layer)
      ensures calls == old(calls) + 1 && totalTokens == old(totalTokens) + |k|
      ensures hotTokens == old(hotTokens) + |b.hot|
    {
      var s := Softmax(exps);
      var hot := SelectHot(s, threshold, minTokens, maxRatio);
      capped :| Selected(s, threshold, MaxCount(|s|, minTokens, maxRatio), minTokens, capped, hot);
      scores := s;
      WhereLists(Recent(capped, minTokens));
      b := PackBlock(k, v, hot, layer);
      calls, totalTokens, hotTokens := calls + 1, totalTokens + |k|, hotTokens + |hot|;
    }
  }
}
