/**
 tempo/nexus_coordinator.py: the ranks share their loads by an all-reduce MAX, sort them stably, and
 flush in staggered windows.  Loads, flush times and the fate of the gossip are inputs.
 */
module Nexus {
  import opened Basics

  type Rank = nat

  // ---------------------------------------------------------------------------------------
  // Gossip
  // ---------------------------------------------------------------------------------------

  /** The tensor a rank fills in: zeros, and its own load in its own slot. */
  function Tensor(n: nat, rank: Rank, load: real): (t: seq<real>)
    ensures |t| == n
  {
    seq(n, i => if i == rank then load else 0.0)
  }

  function Zeros(n: nat): (t: seq<real>)
    ensures |t| == n && forall i | 0 <= i < n :: t[i] == 0.0
  {
    seq(n, i => 0.0)
  }

  lemma OwnSlot(n: nat, rank: Rank, load: real)
    requires rank < n
    ensures Zeros(n)[rank := load] == Tensor(n, rank, load)
  {
  }

  /** Slot r of the maximum over the tensors of ranks 0 to k. */
  function MaxSlot(loads: seq<real>, k: nat, r: Rank): real
    requires k < |loads| && r < |loads|
  {
    var own := Tensor(|loads|, k, loads[k])[r];
    if k == 0 then own else Max(MaxSlot(loads, k - 1, r), own)
  }

  /** What every rank holds after a successful all-reduce. */
  function Gossip(loads: seq<real>): (g: seq<real>)
    ensures |g| == |loads|
  {
    seq(|loads|, r requires 0 <= r < |loads| => MaxSlot(loads, |loads| - 1, r))
  }

  lemma {:induction false} MaxSlotIs(loads: seq<real>, k: nat, r: Rank)
    requires k < |loads| && r < |loads|
    ensures MaxSlot(loads, k, r)
         == if k < r then 0.0 else if k == 0 then loads[r] else Max(0.0, loads[r])
  {
    if k > 0 { MaxSlotIs(loads, k - 1, r); }
  }

  /** All ranks see each other's load; with two or more of them a negative one reads as zero. */
  lemma GossipSharesLoads(loads: seq<real>, r: Rank)
    requires r < |loads|
    ensures Gossip(loads)[r] == if |loads| == 1 then loads[r] else Max(0.0, loads[r])
  {
    MaxSlotIs(loads, |loads| - 1, r);
  }

  // ---------------------------------------------------------------------------------------
  // Positions
  // ---------------------------------------------------------------------------------------

  /** Lower load first, ties by rank. */
  predicate Before(loads: seq<real>, q: Rank, r: Rank)
    requires q < |loads| && r < |loads|
  {
    loads[q] < loads[r] || (loads[q] == loads[r] && q < r)
  }

  /** s lists ranks of the world. */
  ghost predicate Listed(s: seq<Rank>, n: nat) {
    forall i | 0 <= i < |s| :: s[i] < n
  }

  /** Insert r behind every rank with no greater load, as a stable sort does. */
  function Insert(loads: seq<real>, s: seq<Rank>, r: Rank): (t: seq<Rank>)
    requires r < |loads| && Listed(s, |loads|)
    ensures |t| == |s| + 1
    ensures forall q :: q in t <==> q in s || q == r
  {
    if s == [] then [r]
    else
      var n := |s| - 1;
      assert s == s[..n] + [s[n]];
      if loads[s[n]] <= loads[r] then s + [r] else Insert(loads, s[..n], r) + [s[n]]
  }

  /** The first n ranks, sorted by load. */
  function SortedRanks(loads: seq<real>, n: nat): (s: seq<Rank>)
    requires n <= |loads|
    ensures |s| == n && Listed(s, n)
    ensures forall q: Rank :: q in s <==> q < n
  {
    if n == 0 then []
    else
      var t := Insert(loads, SortedRanks(loads, n - 1), n - 1);
      assert forall i | 0 <= i < |t| :: t[i] in t;
      t
  }

  ghost predicate Ascending(loads: seq<real>, s: seq<Rank>)
    requires Listed(s, |loads|)
  {
    forall i, j | 0 <= i < j < |s| :: Before(loads, s[i], s[j])
  }

  lemma InsertListed(loads: seq<real>, s: seq<Rank>, r: Rank)
    requires r < |loads| && Listed(s, |loads|)
    ensures Listed(Insert(loads, s, r), |loads|)
  {
    var t := Insert(loads, s, r);
    forall i | 0 <= i < |t| ensures t[i] < |loads| { assert t[i] in t; }
  }

  lemma {:induction false} InsertAscends(loads: seq<real>, s: seq<Rank>, r: Rank)
    requires r < |loads| && Listed(s, r) && Ascending(loads, s)
    ensures Listed(Insert(loads, s, r), |loads|) && Ascending(loads, Insert(loads, s, r))
  {
    InsertListed(loads, s, r);
    if s != [] {
      var n := |s| - 1;
      if loads[s[n]] <= loads[r] {
        var t := s + [r];
        forall i, j | 0 <= i < j < |t| ensures Before(loads, t[i], t[j]) {
          if j == |s| && i < n { assert Before(loads, s[i], s[n]); }
        }
      } else {
        var front := s[..n];
        InsertAscends(loads, front, r);
        var t := Insert(loads, front, r);
        forall i | 0 <= i < |t| ensures Before(loads, t[i], s[n]) {
          assert t[i] in t;
          if t[i] != r {
            var k :| 0 <= k < n && front[k] == t[i];
            assert Before(loads, s[k], s[n]);
          }
        }
      }
    }
  }

  lemma {:induction false} SortedAscends(loads: seq<real>, n: nat)
    requires n <= |loads|
    ensures Listed(SortedRanks(loads, n), |loads|) && Ascending(loads, SortedRanks(loads, n))
  {
    if n > 0 {
      SortedAscends(loads, n - 1);
      InsertAscends(loads, SortedRanks(loads, n - 1), n - 1);
    }
  }

  /** `list.index`. */
  function IndexOf(s: seq<Rank>, r: Rank): (i: nat)
    requires r in s
    ensures i < |s| && s[i] == r && r !in s[..i]
  {
    if s[0] == r then 0 else 1 + IndexOf(s[1..], r)
  }

  function Position(loads: seq<real>, r: Rank): (p: nat)
    requires r < |loads|
    ensures p < |loads|
  {
    IndexOf(SortedRanks(loads, |loads|), r)
  }

  /** Positions follow the order of loads, ties by rank. */
  lemma PositionsFollowLoads(loads: seq<real>, q: Rank, r: Rank)
    requires q < |loads| && r < |loads|
    ensures Position(loads, q) < Position(loads, r) <==> Before(loads, q, r)
  {
    SortedAscends(loads, |loads|);
    var s := SortedRanks(loads, |loads|);
    var i, j := Position(loads, q), Position(loads, r);
    assert s[i] == q && s[j] == r;
    if i < j { assert Before(loads, s[i], s[j]); }
    if j < i { assert Before(loads, s[j], s[i]); }
  }

  /** Every position belongs to exactly one rank. */
  lemma PositionsArePermutation(loads: seq<real>, p: nat)
    requires p < |loads|
    ensures exists r: Rank :: r < |loads| && Position(loads, r) == p
                     && forall q: Rank | q < |loads| && Position(loads, q) == p :: q == r
  {
    var s := SortedRanks(loads, |loads|);
    var r := s[p];
    assert r in s;
    var i := Position(loads, r);
    SortedAscends(loads, |loads|);
    assert s[i] == s[p];
    forall j, k | 0 <= j < k < |s| ensures s[j] != s[k] { assert Before(loads, s[j], s[k]); }
    forall q: Rank | q < |loads| && Position(loads, q) == p ensures q == r {
      assert s[Position(loads, q)] == q;
    }
  }

  /** With non-negative loads that every rank has received, the less loaded rank flushes first. */
  lemma LessLoadedFlushFirst(loads: seq<real>, q: Rank, r: Rank)
    requires q < |loads| && r < |loads| && forall i | 0 <= i < |loads| :: loads[i] >= 0.0
    ensures Position(Gossip(loads), q) < Position(Gossip(loads), r) <==> Before(loads, q, r)
  {
    PositionsFollowLoads(Gossip(loads), q, r);
    GossipSharesLoads(loads, q);
    GossipSharesLoads(loads, r);
  }

  // ---------------------------------------------------------------------------------------
  // Failed gossip
  // ---------------------------------------------------------------------------------------

  /** Equal loads leave the ranks in their own order. */
  lemma {:induction false} EqualLoadsKeepOrder(loads: seq<real>, n: nat)
    requires n <= |loads| && forall i | 0 <= i < |loads| :: loads[i] == 0.0
    ensures forall i | 0 <= i < n :: SortedRanks(loads, n)[i] == i
  {
    if n > 0 {
      EqualLoadsKeepOrder(loads, n - 1);
      assert Insert(loads, SortedRanks(loads, n - 1), n - 1) == SortedRanks(loads, n - 1) + [n - 1];
    }
  }

  /** A rank left with only its own load puts itself last, at its own number, or first. */
  lemma FallbackPosition(n: nat, r: Rank, load: real)
    requires r < n
    ensures Position(Tensor(n, r, load), r) == if load > 0.0 then n - 1 else if load == 0.0 then r else 0
  {
    var t := Tensor(n, r, load);
    var s, p := SortedRanks(t, n), Position(t, r);
    if load == 0.0 {
      EqualLoadsKeepOrder(t, n);
    } else if load > 0.0 && p < n - 1 {
      NextComesLater(t, r, n - 1);
    } else if load < 0.0 && p > 0 {
      NextComesLater(t, s[0], p);
    }
  }

  /** The rank at a later position is a different one, and comes later. */
  lemma NextComesLater(loads: seq<real>, r: Rank, p: nat)
    requires r < |loads| && Position(loads, r) < p < |loads|
    ensures var q := SortedRanks(loads, |loads|)[p]; q != r && q < |loads| && Before(loads, r, q)
  {
    SortedAscends(loads, |loads|);
    var s := SortedRanks(loads, |loads|);
    assert s[Position(loads, r)] == r;
    assert Before(loads, s[Position(loads, r)], s[p]);
  }

  /** The position a rank computes when its gossip works, and when it fails. */
  function PositionOf(loads: seq<real>, r: Rank, gossipWorks: bool): (p: nat)
    requires r < |loads|
    ensures p < |loads|
  {
    if gossipWorks then Position(Gossip(loads), r) else Position(Tensor(|loads|, r, loads[r]), r)
  }

  ghost predicate NoTwoAlike(loads: seq<real>, gossipWorks: bool) {
    forall q: Rank, r: Rank | q < |loads| && r < |loads| && q != r ::
      PositionOf(loads, q, gossipWorks) != PositionOf(loads, r, gossipWorks)
  }

  /** With the gossip every rank has a position of its own. */
  lemma GossipSeparatesRanks(loads: seq<real>)
    ensures NoTwoAlike(loads, true)
  {
    forall q: Rank, r: Rank | q < |loads| && r < |loads| && q != r
      ensures PositionOf(loads, q, true) != PositionOf(loads, r, true)
    {
      PositionsFollowLoads(Gossip(loads), q, r);
      PositionsFollowLoads(Gossip(loads), r, q);
    }
  }

  /** Without it, only if every rank but the last is idle: a rank with load believes it comes last. */
  lemma FallbackSeparatesExactlyIdleRanks(loads: seq<real>)
    requires forall i | 0 <= i < |loads| :: loads[i] >= 0.0
    ensures NoTwoAlike(loads, false) <==> forall r: Rank | r + 1 < |loads| :: loads[r] == 0.0
  {
    forall r: Rank | r < |loads|
      ensures PositionOf(loads, r, false) == if loads[r] > 0.0 then |loads| - 1 else r
    {
      FallbackPosition(|loads|, r, loads[r]);
    }
    if NoTwoAlike(loads, false) {
      forall r: Rank | r + 1 < |loads| ensures loads[r] == 0.0 {
        assert PositionOf(loads, r, false) != PositionOf(loads, |loads| - 1, false);
      }
    }
  }

  // ---------------------------------------------------------------------------------------
  // Windows
  // ---------------------------------------------------------------------------------------

  /** `overlap` is the fraction by which neighbouring windows may overlap.  Times in milliseconds. */
  function Delay(p: nat, window: real, overlap: real): real {
    p as real * Slot(window, overlap)
  }

  function Slot(window: real, overlap: real): real { window * (1.0 - overlap) }

  predicate Active(p: nat, window: real, overlap: real, t: real) {
    Delay(p, window, overlap) <= t < Delay(p, window, overlap) + window
  }

  lemma Times(k: nat, x: real, m: nat)
    requires m <= k && x >= 0.0
    ensures k as real * x == m as real * x + (k - m) as real * x && m as real * x <= k as real * x
  {
  }

  /** k slots cover a window exactly when k (1 - overlap) >= 1. */
  lemma SlotsCover(k: nat, window: real, overlap: real)
    requires window > 0.0 && 0.0 <= overlap < 1.0
    ensures Slot(window, overlap) > 0.0
    ensures Delay(k, window, overlap) >= window <==> k as real * (1.0 - overlap) >= 1.0
  {
    var share := k as real * (1.0 - overlap);
    assert Delay(k, window, overlap) == share * window;
    if share < 1.0 { assert share * window < 1.0 * window; } else { assert share * window >= 1.0 * window; }
  }

  lemma DelayGap(p: nat, q: nat, window: real, overlap: real)
    requires p <= q
    ensures Delay(q, window, overlap) == Delay(p, window, overlap) + Delay(q - p, window, overlap)
  {
    assert q as real == p as real + (q - p) as real;
  }

  lemma DelayGrows(j: nat, k: nat, window: real, overlap: real)
    requires j <= k && Slot(window, overlap) > 0.0
    ensures 0.0 <= Delay(j, window, overlap) <= Delay(k, window, overlap)
  {
    Times(k, Slot(window, overlap), j);
    Times(j, Slot(window, overlap), 0);
  }

  /** Two windows k or more positions apart never overlap once k slots cover a window. */
  lemma FarApart(p: nat, q: nat, k: nat, window: real, overlap: real, t: real)
    requires window > 0.0 && 0.0 <= overlap < 1.0 && k as real * (1.0 - overlap) >= 1.0
    requires Active(p, window, overlap, t) && Active(q, window, overlap, t) && p <= q
    ensures q - p < k
  {
    SlotsCover(k, window, overlap);
    DelayGap(p, q, window, overlap);
    if q - p >= k { DelayGrows(k, q - p, window, overlap); }
  }

  /** The positions below n whose windows contain moment t. */
  ghost function ActiveBelow(n: nat, window: real, overlap: real, t: real): set<nat> {
    set p: nat | p < n && Active(p, window, overlap, t)
  }

  lemma {:induction false} SpanCard(s: set<nat>, low: nat, k: nat)
    requires forall p | p in s :: low <= p < low + k
    ensures |s| <= k
  {
    if k == 0 {
      assert s == {};
    } else {
      SpanCard(s - {low + k - 1}, low, k - 1);
    }
  }

  lemma Least(s: set<nat>) returns (low: nat)
    requires s != {}
    ensures low in s && forall p | p in s :: low <= p
  {
    var x :| x in s;
    low := x;
    var rest := s - {x};
    if rest != {} {
      var y := Least(rest);
      low := if y < x then y else x;
    }
    forall p | p in s ensures low <= p {
      if p != x { assert p in rest; }
    }
  }

  /** At no moment are more than K ranks inside their windows, for any K with K (1 - overlap) >= 1. */
  lemma AtMostKActive(n: nat, k: nat, window: real, overlap: real, t: real)
    requires window > 0.0 && 0.0 <= overlap < 1.0 && k as real * (1.0 - overlap) >= 1.0
    ensures |ActiveBelow(n, window, overlap, t)| <= k
  {
    var s := ActiveBelow(n, window, overlap, t);
    if s != {} {
      var low := Least(s);
      forall p | p in s ensures low <= p < low + k { FarApart(low, p, k, window, overlap, t); }
      SpanCard(s, low, k);
    }
  }

  /** The bound is exact: if K - 1 slots do not cover a window, some moment has K ranks active. */
  lemma KActiveHappens(n: nat, k: nat, p: nat, window: real, overlap: real)
    requires p < k <= n && window > 0.0 && 0.0 <= overlap < 1.0 && (k - 1) as real * (1.0 - overlap) < 1.0
    ensures p in ActiveBelow(n, window, overlap, Delay(k - 1, window, overlap))
  {
    SlotsCover(k - 1, window, overlap);
    DelayGap(p, k - 1, window, overlap);
    DelayGrows(k - 1 - p, k - 1, window, overlap);
  }

  lemma {:induction false} SlotAt(n: nat, window: real, t: real) returns (p: nat)
    requires window > 0.0 && 0.0 <= t < n as real * window
    ensures p < n && Active(p, window, 0.0, t)
  {
    assert n as real * window == (n - 1) as real * window + window;
    if t >= (n - 1) as real * window { p := n - 1; } else { p := SlotAt(n - 1, window, t); }
  }

  /** The moment t lies in [0, n w). */
  predicate Inside(n: nat, window: real, t: real) {
    0.0 <= t < n as real * window
  }

  /** Without overlap the windows tile [0, N w): one rank at each moment inside, none outside. */
  lemma WindowsTile(n: nat, window: real, t: real)
    requires window > 0.0
    ensures |ActiveBelow(n, window, 0.0, t)| == if Inside(n, window, t) then 1 else 0
  {
    AtMostKActive(n, 1, window, 0.0, t);
    var s := ActiveBelow(n, window, 0.0, t);
    if 0.0 <= t < n as real * window {
      var p := SlotAt(n, window, t);
      assert p in s;
    } else {
      forall p: nat | p < n ensures !Active(p, window, 0.0, t) {
        Times(n, window, p + 1);
        assert (p + 1) as real * window == p as real * window + window;
        assert p as real * window >= 0.0;
      }
      assert s == {};
    }
  }

  // ---------------------------------------------------------------------------------------
  // Ranks in their windows
  // ---------------------------------------------------------------------------------------

  datatype Window = Window(rank: Rank, step: nat, delaySeconds: real, windowMs: real,
                           load: real, peerLoads: seq<real>, position: nat)

  /** The window of a rank that has gathered the given loads. */
  function WindowFor(rank: Rank, step: nat, load: real, seen: seq<real>, windowMs: real, overlap: real): (w: Window)
    requires rank < |seen|
    ensures w.position == Position(seen, rank) && w.windowMs == windowMs
    ensures w.delaySeconds * 1000.0 == Delay(w.position, windowMs, overlap)
  {
    var position := IndexOf(SortedRanks(seen, |seen|), rank);
    var slot := Slot(windowMs, overlap);
    Window(rank, step, position as real * slot / 1000.0, windowMs, load, seen, position)
  }

  /** A rank that waits its delay and then flushes for its window is flushing at t milliseconds. */
  predicate Flushing(w: Window, t: real) {
    w.delaySeconds * 1000.0 <= t < w.delaySeconds * 1000.0 + w.windowMs
  }

  /** The ranks that flush at t after a successful gossip, each in the window it was given. */
  ghost function ActiveRanks(step: nat, loads: seq<real>, window: real, overlap: real, t: real): set<Rank> {
    set r: Rank | r < |loads| && Flushing(WindowFor(r, step, loads[r], Gossip(loads), window, overlap), t)
  }

  lemma FlushingIsActive(step: nat, loads: seq<real>, window: real, overlap: real, t: real, r: Rank)
    ensures r in ActiveRanks(step, loads, window, overlap, t)
       <==> r < |loads| && Active(PositionOf(loads, r, true), window, overlap, t)
  {
  }

  lemma {:induction false} SameCard(a: set<nat>, b: set<nat>, f: nat -> nat)
    requires forall x | x in a :: f(x) in b
    requires forall x, y | x in a && y in a && x != y :: f(x) != f(y)
    ensures |a| <= |b|
    decreases a
  {
    if a != {} {
      var x :| x in a;
      SameCard(a - {x}, b - {f(x)}, f);
    }
  }

  /**
   After a successful gossip, with a common window estimate: at any moment at most K ranks flush, for
   any K with K (1 - overlap) >= 1.
   */
  lemma AtMostKRanksFlush(step: nat, loads: seq<real>, k: nat, window: real, overlap: real, t: real)
    requires window > 0.0 && 0.0 <= overlap < 1.0 && k as real * (1.0 - overlap) >= 1.0
    ensures |ActiveRanks(step, loads, window, overlap, t)| <= k
  {
    var n := |loads|;
    AtMostKActive(n, k, window, overlap, t);
    GossipSeparatesRanks(loads);
    var f: nat -> nat := (r: nat) => if r < n then PositionOf(loads, r, true) else 0;
    var a := ActiveRanks(step, loads, window, overlap, t);
    forall x | x in a ensures x < n && f(x) in ActiveBelow(n, window, overlap, t) {
      FlushingIsActive(step, loads, window, overlap, t, x);
    }
    forall x, y | x in a && y in a && x != y ensures f(x) != f(y) {
      assert PositionOf(loads, x, true) != PositionOf(loads, y, true);
    }
    SameCard(a, ActiveBelow(n, window, overlap, t), f);
  }

  lemma SomeRankFlushes(step: nat, loads: seq<real>, window: real, overlap: real, t: real)
    ensures ActiveRanks(step, loads, window, overlap, t) == {} <==> ActiveBelow(|loads|, window, overlap, t) == {}
  {
    var a, s := ActiveRanks(step, loads, window, overlap, t), ActiveBelow(|loads|, window, overlap, t);
    if p :| p in s {
      PositionsArePermutation(Gossip(loads), p);
      var r: Rank :| r < |loads| && Position(Gossip(loads), r) == p;
      FlushingIsActive(step, loads, window, overlap, t, r);
    }
    if r :| r in a {
      FlushingIsActive(step, loads, window, overlap, t, r);
      assert PositionOf(loads, r, true) in s;
    }
  }

  /** Without overlap and with a common estimate, the ranks' windows tile [0, N w): after a gossip
      exactly one rank flushes at each moment inside, none outside. */
  lemma RanksTile(step: nat, loads: seq<real>, window: real, t: real)
    requires window > 0.0
    ensures |ActiveRanks(step, loads, window, 0.0, t)| == if Inside(|loads|, window, t) then 1 else 0
  {
    WindowsTile(|loads|, window, t);
    AtMostOneRank(step, loads, window, t);
    SomeRankFlushes(step, loads, window, 0.0, t);
  }

  lemma AtMostOneRank(step: nat, loads: seq<real>, window: real, t: real)
    requires window > 0.0
    ensures |ActiveRanks(step, loads, window, 0.0, t)| <= 1
  {
    AtMostKRanksFlush(step, loads, 1, window, 0.0, t);
  }

  /** Two ranks, each with an estimate of its own, are never inside their windows together exactly when
      one window ends before the other begins, whichever is first. */
  lemma EstimatesMustAgree(p: nat, wp: real, q: nat, wq: real, overlap: real)
    requires wp > 0.0 && wq > 0.0
    ensures (forall t :: !(Active(p, wp, overlap, t) && Active(q, wq, overlap, t)))
       <==> Delay(p, wp, overlap) + wp <= Delay(q, wq, overlap) || Delay(q, wq, overlap) + wq <= Delay(p, wp, overlap)
  {
    var t := Max(Delay(p, wp, overlap), Delay(q, wq, overlap));
    if Delay(q, wq, overlap) < Delay(p, wp, overlap) + wp && Delay(p, wp, overlap) < Delay(q, wq, overlap) + wq {
      assert Active(p, wp, overlap, t) && Active(q, wq, overlap, t);
    }
  }

  lemma Successor(p: nat, w: real)
    ensures Delay(p, w, 0.0) + w == (p + 1) as real * w && Delay(p, w, 0.0) == p as real * w
  {
    assert Slot(w, 0.0) == w;
    assert (p + 1) as real * w == p as real * w + w;
  }

  /** Without overlap: (p + 1) wp <= q wq, or (q + 1) wq <= p wp. */
  lemma DisjointWithoutOverlap(p: nat, wp: real, q: nat, wq: real)
    requires wp > 0.0 && wq > 0.0
    ensures (forall t :: !(Active(p, wp, 0.0, t) && Active(q, wq, 0.0, t)))
       <==> (p + 1) as real * wp <= q as real * wq || (q + 1) as real * wq <= p as real * wp
  {
    EstimatesMustAgree(p, wp, q, wq, 0.0);
    Successor(p, wp);
    Successor(q, wq);
  }

  // ---------------------------------------------------------------------------------------
  // Window estimate
  // ---------------------------------------------------------------------------------------

  const MIN_WINDOW := 50.0
  const MAX_WINDOW := 2000.0
  const ALPHA := 0.25

  function Smoothed(ema: real, elapsed: real): real {
    ALPHA * Max(MIN_WINDOW, Min(MAX_WINDOW, elapsed)) + (1.0 - ALPHA) * ema
  }

  /** A flush time moves the estimate a quarter of the way towards it, counted as 50 ms if it is
      shorter and as 2000 ms if it is longer. */
  lemma EstimateMovesAQuarter(ema: real, ms: real)
    ensures ms < 50.0 ==> Smoothed(ema, ms) - ema == 0.25 * (50.0 - ema)
    ensures 50.0 <= ms <= 2000.0 ==> Smoothed(ema, ms) - ema == 0.25 * (ms - ema)
    ensures 2000.0 < ms ==> Smoothed(ema, ms) - ema == 0.25 * (2000.0 - ema)
  {
  }

  /** The estimate after a list of flush times. */
  function Ema(start: real, times: seq<real>): real {
    if times == [] then start else Smoothed(Ema(start, times[..|times| - 1]), times[|times| - 1])
  }

  /** Whatever the flushes took, the estimate stays between the limits and its first value. */
  lemma {:induction false} EmaIsBounded(start: real, times: seq<real>)
    ensures Min(start, MIN_WINDOW) <= Ema(start, times) <= Max(start, MAX_WINDOW)
  {
    if times != [] { EmaIsBounded(start, times[..|times| - 1]); }
  }

  function Power(n: nat): real {
    if n == 0 then 1.0 else 0.75 * Power(n - 1)
  }

  /** Two ranks that record the same flush times forget a quarter of their difference each time. */
  lemma {:induction false} EstimatesConverge(a: real, b: real, times: seq<real>)
    ensures Ema(a, times) - Ema(b, times) == Power(|times|) * (a - b)
  {
    if times != [] {
      EstimatesConverge(a, b, times[..|times| - 1]);
    }
  }

  // ---------------------------------------------------------------------------------------
  // The object
  // ---------------------------------------------------------------------------------------

  class NexusCoordinator {
    const rank: Rank
    const worldSize: nat
    const overlap: real
    var windowMs: real
    var gossip: seq<real>
    var flushTimes: seq<real>

    /** The first estimate and the flush times recorded since. */
    ghost const first: real

    ghost predicate Valid()
      reads this
    {
      rank < worldSize && |gossip| == worldSize && windowMs == Ema(first, flushTimes)
    }

    constructor (rank: Rank, worldSize: nat, baseWindowMs: real, overlap: real)
      requires rank < worldSize
      ensures Valid() && this.rank == rank && this.worldSize == worldSize && this.overlap == overlap
      ensures first == baseWindowMs && flushTimes == []
    {
      this.rank, this.worldSize, this.overlap := rank, worldSize, overlap;
      windowMs, first, flushTimes := baseWindowMs, baseWindowMs, [];
      gossip := Zeros(worldSize);
    }

    /** `others` are the loads all ranks bring to the all-reduce; None if it fails. */
    method ComputeWindow(step: nat, load: real, others: seq<real>, gossipWorks: bool) returns (w: Window)
      requires Valid() && |others| == worldSize && others[rank] == load
      modifies this`gossip
      ensures Valid()
      ensures gossip == if gossipWorks then Gossip(others) else Tensor(worldSize, rank, load)
      ensures w == WindowFor(rank, step, load, gossip, windowMs, overlap)
      ensures w.position == PositionOf(others, rank, gossipWorks) && w.windowMs == windowMs
      ensures w.delaySeconds * 1000.0 == Delay(w.position, windowMs, overlap)
      ensures w.rank == rank && w.step == step && w.load == load && w.peerLoads == gossip
    {
      gossip := Zeros(worldSize)[rank := load];
      OwnSlot(worldSize, rank, load);
      if gossipWorks {
        gossip := Gossip(others);
      }
      w := WindowFor(rank, step, load, gossip, windowMs, overlap);
    }

    method RecordFlushTime(elapsed: real)
      requires Valid()
      modifies this`windowMs, this`flushTimes
      ensures Valid() && flushTimes == old(flushTimes) + [elapsed * 1000.0]
      ensures windowMs == Smoothed(old(windowMs), elapsed * 1000.0)
    {
      var ms := elapsed * 1000.0;
      var clamped := Max(MIN_WINDOW, Min(MAX_WINDOW, ms));
      windowMs := ALPHA * clamped + (1.0 - ALPHA) * windowMs;
      flushTimes := flushTimes + [ms];
      assert flushTimes[..|flushTimes| - 1] == old(flushTimes);
    }
  }
}
