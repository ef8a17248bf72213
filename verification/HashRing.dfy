/**
 The consistent hash ring of tempo/p2p_cache.py.  MD5 is an arbitrary function on points
 (rank, index) and one on keys; where collisions matter the lemma says so.
 */
module HashRing {
  import opened Arithmetic

  type Rank = int

  /** Hash point to owning rank. */
  type Ring = map<nat, Rank>

  type PointHash = (Rank, nat) -> nat

  // ---------------------------------------------------------------------------------------
  // Sorting a set of points
  // ---------------------------------------------------------------------------------------

  lemma {:induction false} FindMax(s: set<nat>) returns (m: nat)
    requires s != {}
    ensures m in s && forall x | x in s :: x <= m
  {
    m :| m in s;
    var rest := s - {m};
    assert forall x | x in s :: x == m || x in rest;
    if rest != {} {
      var m' := FindMax(rest);
      if m' > m { m := m'; }
    }
  }

  lemma MaxExists(s: set<nat>)
    requires s != {}
    ensures exists m :: m in s && forall x | x in s :: x <= m
  {
    var m := FindMax(s);
  }

  function Max(s: set<nat>): (m: nat)
    requires s != {}
    ensures m in s && forall x | x in s :: x <= m
  {
    MaxExists(s);
    var m :| m in s && forall x | x in s :: x <= m;
    m
  }

  /** What Python's `sorted` makes of a set of integers. */
  function Sorted(s: set<nat>): (q: seq<nat>)
    ensures |q| == |s|
  {
    if s == {} then [] else Sorted(s - {Max(s)}) + [Max(s)]
  }

  ghost predicate Increasing(q: seq<nat>) {
    forall i, j | 0 <= i < j < |q| :: q[i] < q[j]
  }

  lemma {:induction false} SortedIsSorted(s: set<nat>)
    ensures Increasing(Sorted(s)) && forall x :: x in Sorted(s) <==> x in s
  {
    if s != {} {
      SortedIsSorted(s - {Max(s)});
      var q := Sorted(s - {Max(s)});
      forall i | 0 <= i < |q| ensures q[i] < Max(s) {
        assert q[i] in q;
      }
    }
  }

  ghost predicate Lists(q: seq<nat>, s: set<nat>) {
    Increasing(q) && forall x :: x in q <==> x in s
  }

  lemma DropLargest(q: seq<nat>, s: set<nat>)
    requires q != [] && Lists(q, s)
    ensures s != {} && Max(s) == q[|q| - 1]
    ensures Lists(q[..|q| - 1], s - {Max(s)})
  {
    var n := |q| - 1;
    assert q[n] in q;
    assert Max(s) in q;
    forall x | x in s - {q[n]} ensures x in q[..n] {
      var k :| 0 <= k < |q| && q[k] == x;
      assert q[..n][k] == x;
    }
  }

  /** There is only one increasing listing of a set. */
  lemma {:induction false} SortedIsUnique(q: seq<nat>, s: set<nat>)
    requires Lists(q, s)
    ensures q == Sorted(s)
  {
    if q == [] {
      assert forall x | x in s :: x in q;
    } else {
      var p := q[..|q| - 1];
      DropLargest(q, s);
      assert q == p + [Max(s)];
      SortedIsUnique(p, s - {Max(s)});
    }
  }

  /** The points that belong to a set, in the same order. */
  function Keep(q: seq<nat>, s: set<nat>): seq<nat> {
    if q == [] then []
    else Keep(q[..|q| - 1], s) + (if q[|q| - 1] in s then [q[|q| - 1]] else [])
  }

  lemma KeepStep(q: seq<nat>, x: nat, s: set<nat>)
    ensures Keep(q + [x], s) == Keep(q, s) + (if x in s then [x] else [])
  {
    assert (q + [x])[..|q + [x]| - 1] == q;
  }

  lemma {:induction false} KeepConcat(p: seq<nat>, q: seq<nat>, s: set<nat>)
    ensures Keep(p + q, s) == Keep(p, s) + Keep(q, s)
  {
    if q == [] {
      assert p + q == p;
    } else {
      var n := |q| - 1;
      KeepConcat(p, q[..n], s);
      assert p + q == (p + q[..n]) + [q[n]];
      KeepStep(p + q[..n], q[n], s);
    }
  }

  lemma {:induction false} KeepSorted(t: set<nat>, s: set<nat>)
    ensures Keep(Sorted(t), s) == Sorted(t * s)
  {
    if t == {} {
      assert t * s == {};
    } else {
      var m := Max(t);
      KeepSorted(t - {m}, s);
      KeepStep(Sorted(t - {m}), m, s);
      if m in s {
        assert t * s - {m} == (t - {m}) * s;
        assert Max(t * s) == m;
      } else {
        assert t * s == (t - {m}) * s;
      }
    }
  }

  // ---------------------------------------------------------------------------------------
  // Owners in clockwise order
  // ---------------------------------------------------------------------------------------

  function From(keys: set<nat>, h: nat): set<nat> {
    set x | x in keys && x >= h
  }

  function Before(keys: set<nat>, h: nat): set<nat> {
    set x | x in keys && x < h
  }

  /** The points met going clockwise from h: first those at or after h, then the rest. */
  function Clockwise(keys: set<nat>, h: nat): seq<nat> {
    Sorted(From(keys, h)) + Sorted(Before(keys, h))
  }

  function OwnersOf(ring: Ring, points: seq<nat>): (o: seq<Rank>)
    requires forall p | p in points :: p in ring
    ensures |o| == |points| && forall k | 0 <= k < |points| :: o[k] == ring[points[k]]
  {
    seq(|points|, k requires 0 <= k < |points| => ring[points[k]])
  }

  /** Each rank once, at its first occurrence. */
  function Distinct(o: seq<Rank>): seq<Rank> {
    if o == [] then []
    else
      var d := Distinct(o[..|o| - 1]);
      if o[|o| - 1] in d then d else d + [o[|o| - 1]]
  }

  function Delete(o: seq<Rank>, r: Rank): seq<Rank> {
    if o == [] then []
    else Delete(o[..|o| - 1], r) + (if o[|o| - 1] == r then [] else [o[|o| - 1]])
  }

  lemma ClockwisePoints(keys: set<nat>, h: nat)
    ensures |Clockwise(keys, h)| == |keys|
    ensures forall p :: p in Clockwise(keys, h) <==> p in keys
  {
    SortedIsSorted(From(keys, h));
    SortedIsSorted(Before(keys, h));
    assert From(keys, h) + Before(keys, h) == keys;
    assert From(keys, h) !! Before(keys, h);
  }

  /** All ranks, nearest first, in the clockwise order of a key that hashes to h. */
  function Owners(ring: Ring, h: nat): seq<Rank> {
    ClockwisePoints(ring.Keys, h);
    Distinct(OwnersOf(ring, Clockwise(ring.Keys, h)))
  }

  lemma {:induction false} DistinctProperties(o: seq<Rank>)
    ensures forall r :: r in Distinct(o) <==> r in o
    ensures forall i, j | 0 <= i < j < |Distinct(o)| :: Distinct(o)[i] != Distinct(o)[j]
    ensures |Distinct(o)| <= |o|
  {
    if o != [] {
      DistinctProperties(o[..|o| - 1]);
      assert o == o[..|o| - 1] + [o[|o| - 1]];
    }
  }

  lemma {:induction false} DistinctSize(d: seq<Rank>, s: set<Rank>)
    requires forall i, j | 0 <= i < j < |d| :: d[i] != d[j]
    requires forall r :: r in d <==> r in s
    ensures |d| == |s|
  {
    if d == [] {
      assert forall r | r in s :: r in d;
      assert s == {};
    } else {
      var n := |d| - 1;
      assert d[n] in d;
      forall r ensures r in d[..n] <==> r in s - {d[n]} {
        if r in s - {d[n]} {
          var k :| 0 <= k < |d| && d[k] == r;
          assert d[..n][k] == r;
        }
      }
      DistinctSize(d[..n], s - {d[n]});
    }
  }

  /** Every rank of the ring appears exactly once in the owner list of every key. */
  lemma OwnersAreTheNodes(ring: Ring, h: nat)
    ensures |Owners(ring, h)| == |ring.Values|
    ensures forall r :: r in Owners(ring, h) <==> r in ring.Values
    ensures forall i, j | 0 <= i < j < |Owners(ring, h)| :: Owners(ring, h)[i] != Owners(ring, h)[j]
  {
    ClockwisePoints(ring.Keys, h);
    var points := Clockwise(ring.Keys, h);
    var o := OwnersOf(ring, points);
    DistinctProperties(o);
    forall r ensures r in o <==> r in ring.Values {
      if r in ring.Values {
        var p :| p in ring && ring[p] == r;
        assert p in points;
        var k :| 0 <= k < |points| && points[k] == p;
        assert o[k] == r;
      }
      if r in o {
        var k :| 0 <= k < |o| && o[k] == r;
        assert points[k] in points;
      }
    }
    DistinctSize(Owners(ring, h), ring.Values);
  }

  /** Going clockwise from h, point p comes before point q. */
  predicate Nearer(p: nat, q: nat, h: nat) {
    if p >= h then q < h || p < q else q < h && p < q
  }

  /** Two listings, the first of points at or after h, the second of points before it. */
  lemma HalvesAreByDistance(a: seq<nat>, b: seq<nat>, h: nat, i: nat, j: nat)
    requires Increasing(a) && Increasing(b) && i < j < |a + b|
    requires (forall p | p in a :: p >= h) && (forall p | p in b :: p < h)
    ensures Nearer((a + b)[i], (a + b)[j], h)
  {
    if i < |a| { assert a[i] in a; }
    if j < |a| { assert a[j] in a; } else { assert b[j - |a|] in b; }
    if i >= |a| { assert b[i - |a|] in b; }
  }

  /** The clockwise list has every point once, nearest first. */
  lemma ClockwiseIsByDistance(keys: set<nat>, h: nat)
    ensures forall p :: p in Clockwise(keys, h) <==> p in keys
    ensures forall i, j | 0 <= i < j < |Clockwise(keys, h)| :: Nearer(Clockwise(keys, h)[i], Clockwise(keys, h)[j], h)
  {
    ClockwisePoints(keys, h);
    SortedIsSorted(From(keys, h));
    SortedIsSorted(Before(keys, h));
    var c := Clockwise(keys, h);
    forall i, j | 0 <= i < j < |c| ensures Nearer(c[i], c[j], h) {
      HalvesAreByDistance(Sorted(From(keys, h)), Sorted(Before(keys, h)), h, i, j);
    }
  }

  /** Rank x is listed before y ever is. */
  ghost predicate ListedFirst(o: seq<Rank>, x: Rank, y: Rank) {
    exists k | 0 <= k < |o| :: o[k] == x && forall l | 0 <= l < |o| && o[l] == y :: k < l
  }

  lemma ListedFirstStays(o: seq<Rank>, x: Rank, y: Rank, z: Rank)
    requires ListedFirst(o, x, y)
    ensures ListedFirst(o + [z], x, y)
  {
    var k :| 0 <= k < |o| && o[k] == x && forall l | 0 <= l < |o| && o[l] == y :: k < l;
    assert (o + [z])[k] == x;
  }

  lemma {:induction false} DistinctKeepsOrder(o: seq<Rank>, i: nat, j: nat)
    requires i < j < |Distinct(o)|
    ensures ListedFirst(o, Distinct(o)[i], Distinct(o)[j])
  {
    var front, x := o[..|o| - 1], o[|o| - 1];
    assert o == front + [x];
    DistinctStep(front, x);
    DistinctProperties(front);
    var d := Distinct(front);
    if j < |d| {
      DistinctKeepsOrder(front, i, j);
      ListedFirstStays(front, d[i], d[j], x);
    } else {
      assert x !in front && d[i] in front by {
        assert d[i] in d && x !in d;
        assert forall r :: r in d <==> r in front;
      }
      var k :| 0 <= k < |front| && front[k] == d[i];
      assert o[k] == d[i];
    }
  }

  /** Some point of x comes before every point of y. */
  ghost predicate OwnsNearer(ring: Ring, h: nat, x: Rank, y: Rank) {
    exists p | p in ring :: ring[p] == x && forall q | q in ring && ring[q] == y :: Nearer(p, q, h)
  }

  /** The owners of a key are ordered by their nearest point clockwise from the key's hash. */
  lemma OwnersAreByDistance(ring: Ring, h: nat, i: nat, j: nat)
    requires i < j < |Owners(ring, h)|
    ensures OwnsNearer(ring, h, Owners(ring, h)[i], Owners(ring, h)[j])
  {
    var points := Clockwise(ring.Keys, h);
    ClockwisePoints(ring.Keys, h);
    ClockwiseIsByDistance(ring.Keys, h);
    var all := OwnersOf(ring, points);
    DistinctKeepsOrder(all, i, j);
    var x, y := Owners(ring, h)[i], Owners(ring, h)[j];
    var k :| 0 <= k < |all| && all[k] == x && forall l | 0 <= l < |all| && all[l] == y :: k < l;
    var p := points[k];
    assert p in points && ring[p] == x;
    forall q | q in ring && ring[q] == y ensures Nearer(p, q, h) {
      assert q in points;
      var l :| 0 <= l < |points| && points[l] == q;
      assert all[l] == y;
    }
  }

  /** The replicas are the first max(n, 1) owners, or all of them. */
  lemma ReplicasAreTheFirst(ring: Ring, h: nat, n: int)
    ensures Replicas(ring, h, n) <= Owners(ring, h)
    ensures |Replicas(ring, h, n)| == var most := if n < 1 then 1 else n;
                                      if |ring.Values| < most then |ring.Values| else most
  {
    OwnersAreTheNodes(ring, h);
  }

  // ---------------------------------------------------------------------------------------
  // Adding and removing a node
  // ---------------------------------------------------------------------------------------

  /** The first `n` virtual nodes of rank r. */
  function Points(hash: PointHash, r: Rank, n: nat): set<nat> {
    set i | 0 <= i < n :: hash(r, i)
  }

  lemma PointsStep(hash: PointHash, r: Rank, n: nat)
    ensures Points(hash, r, n + 1) == Points(hash, r, n) + {hash(r, n)}
  {
  }

  function Added(ring: Ring, hash: PointHash, r: Rank, n: nat): Ring {
    ring + map p | p in Points(hash, r, n) :: r
  }

  function Removed(ring: Ring, hash: PointHash, r: Rank, n: nat): Ring {
    ring - Points(hash, r, n)
  }

  /** A point of r is r's, any other point is whose it was; */
  lemma AddedExactly(ring: Ring, hash: PointHash, r: Rank, n: nat, p: nat)
    ensures (exists i: nat | i < n :: hash(r, i) == p) ==>
              p in Added(ring, hash, r, n) && Added(ring, hash, r, n)[p] == r
    ensures !(exists i: nat | i < n :: hash(r, i) == p) ==>
              (p in Added(ring, hash, r, n) <==> p in ring) && (p in ring ==> Added(ring, hash, r, n)[p] == ring[p])
  {
  }

  /** and removing r takes away exactly its points, whoever has them. */
  lemma RemovedExactly(ring: Ring, hash: PointHash, r: Rank, n: nat, p: nat)
    ensures p in Removed(ring, hash, r, n) <==> p in ring && !(exists i: nat | i < n :: hash(r, i) == p)
    ensures p in Removed(ring, hash, r, n) ==> Removed(ring, hash, r, n)[p] == ring[p]
  {
  }

  lemma AddedStep(ring: Ring, hash: PointHash, r: Rank, n: nat)
    ensures Added(ring, hash, r, n + 1) == Added(ring, hash, r, n)[hash(r, n) := r]
  {
    PointsStep(hash, r, n);
  }

  lemma RemovedStep(ring: Ring, hash: PointHash, r: Rank, n: nat)
    ensures Removed(ring, hash, r, n + 1) == Removed(ring, hash, r, n) - {hash(r, n)}
  {
    PointsStep(hash, r, n);
  }

  /** No point of rank r is already on the ring. */
  predicate Fresh(ring: Ring, hash: PointHash, r: Rank, n: nat) {
    forall i | 0 <= i < n :: hash(r, i) !in ring
  }

  /** Removing a node undoes adding it if and only if none of its points was taken before. */
  lemma RemoveUndoesAdd(ring: Ring, hash: PointHash, r: Rank, n: nat)
    ensures Removed(Added(ring, hash, r, n), hash, r, n) == ring <==> Fresh(ring, hash, r, n)
  {
    var back := Removed(Added(ring, hash, r, n), hash, r, n);
    if !Fresh(ring, hash, r, n) {
      var i :| 0 <= i < n && hash(r, i) in ring;
      assert hash(r, i) in Points(hash, r, n);
      assert hash(r, i) !in back;
    } else {
      assert forall p | p in Points(hash, r, n) :: p !in ring;
      assert back == ring;
    }
  }

  /** The ring holds only virtual nodes of its own ranks. */
  ghost predicate Built(ring: Ring, hash: PointHash, n: nat) {
    forall p | p in ring :: exists i | 0 <= i < n :: hash(ring[p], i) == p
  }

  lemma AddedIsBuilt(ring: Ring, hash: PointHash, r: Rank, n: nat)
    requires Built(ring, hash, n)
    ensures Built(Added(ring, hash, r, n), hash, n)
  {
  }

  /** No two of the given ranks share a point. */
  ghost predicate Apart(hash: PointHash, ranks: set<Rank>, n: nat) {
    forall r, i, q, j | r in ranks && q in ranks && 0 <= i < n && 0 <= j < n && hash(r, i) == hash(q, j) :: r == q
  }

  lemma OwnPoint(ring: Ring, hash: PointHash, n: nat, r: Rank, i: nat)
    requires Built(ring, hash, n) && Apart(hash, ring.Values + {r}, n) && i < n && hash(r, i) in ring
    ensures r in ring.Values
  {
    var q := ring[hash(r, i)];
    assert q in ring.Values;
    var j :| 0 <= j < n && hash(q, j) == hash(r, i);
  }

  /** A rank that is not on the ring, and shares no point with those that are, is fresh. */
  lemma NewRankIsFresh(ring: Ring, hash: PointHash, r: Rank, n: nat)
    requires Built(ring, hash, n) && Apart(hash, ring.Values + {r}, n) && r !in ring.Values
    ensures Fresh(ring, hash, r, n)
  {
    forall i | 0 <= i < n ensures hash(r, i) !in ring {
      if hash(r, i) in ring {
        OwnPoint(ring, hash, n, r, i);
      }
    }
  }

  // ---------------------------------------------------------------------------------------
  // The ring of a world
  // ---------------------------------------------------------------------------------------

  /** The ring of ranks 0 to world - 1, with n points each. */
  function World(hash: PointHash, world: nat, n: nat): Ring {
    if world == 0 then map[] else Added(World(hash, world - 1, n), hash, world - 1, n)
  }

  lemma {:induction false} WorldIsBuilt(hash: PointHash, world: nat, n: nat)
    ensures Built(World(hash, world, n), hash, n)
  {
    if world > 0 {
      WorldIsBuilt(hash, world - 1, n);
      AddedIsBuilt(World(hash, world - 1, n), hash, world - 1, n);
    }
  }

  /** The i-th point of rank r is not taken by a rank that joins later. */
  ghost predicate Keeps(hash: PointHash, world: nat, n: nat, r: nat, i: nat) {
    forall q: nat, j: nat | r < q < world && j < n :: hash(q, j) != hash(r, i)
  }

  /** A point belongs to the last rank that has it. */
  ghost predicate LastOwner(hash: PointHash, world: nat, n: nat, p: nat, r: Rank) {
    0 <= r < world && exists i: nat | i < n :: hash(r, i) == p && Keeps(hash, world, n, r, i)
  }

  lemma OwnerKeeps(hash: PointHash, world: nat, n: nat, p: nat, r: Rank)
    requires LastOwner(hash, world, n, p, r) && p !in Points(hash, world, n)
    ensures LastOwner(hash, world + 1, n, p, r)
  {
    var i: nat :| i < n && hash(r, i) == p && Keeps(hash, world, n, r, i);
    forall q: nat, j: nat | r < q < world + 1 && j < n ensures hash(q, j) != hash(r, i) {
      if q == world { assert hash(world, j) in Points(hash, world, n); }
    }
    assert Keeps(hash, world + 1, n, r, i);
  }

  lemma {:induction false} PointsHaveLastOwners(hash: PointHash, world: nat, n: nat, p: nat)
    requires p in World(hash, world, n)
    ensures LastOwner(hash, world, n, p, World(hash, world, n)[p])
  {
    if p in Points(hash, world - 1, n) {
      var i: nat :| i < n && hash(world - 1, i) == p;
      assert Keeps(hash, world, n, world - 1, i);
    } else {
      PointsHaveLastOwners(hash, world - 1, n, p);
      OwnerKeeps(hash, world - 1, n, p, World(hash, world - 1, n)[p]);
    }
  }

  lemma {:induction false} LastOwnersHavePoints(hash: PointHash, world: nat, n: nat, r: nat, i: nat)
    requires r < world && i < n && Keeps(hash, world, n, r, i)
    ensures hash(r, i) in World(hash, world, n) && World(hash, world, n)[hash(r, i)] == r
  {
    if r == world - 1 {
      assert hash(r, i) in Points(hash, r, n);
    } else {
      LastOwnersHavePoints(hash, world - 1, n, r, i);
      assert hash(r, i) !in Points(hash, world - 1, n);
    }
  }

  /**
   With any hash, the owners of a key on the ring of ranks 0 to world - 1 are exactly the ranks that
   keep a point of their own.
   */
  lemma OwnersKeepAPoint(hash: PointHash, world: nat, n: nat, h: nat, r: Rank)
    ensures r in Owners(World(hash, world, n), h)
       <==> 0 <= r < world && exists i: nat | i < n :: Keeps(hash, world, n, r, i)
  {
    var ring := World(hash, world, n);
    OwnersAreTheNodes(ring, h);
    if r in ring.Values {
      var p :| p in ring && ring[p] == r;
      PointsHaveLastOwners(hash, world, n, p);
    }
    if 0 <= r < world && exists i: nat | i < n :: Keeps(hash, world, n, r, i) {
      var i: nat :| i < n && Keeps(hash, world, n, r, i);
      LastOwnersHavePoints(hash, world, n, r, i);
    }
  }

  function Ranks(world: nat): (s: set<Rank>)
    ensures forall r: Rank :: r in s <==> 0 <= r < world
  {
    if world == 0 then {} else Ranks(world - 1) + {world - 1}
  }

  /** If those ranks share no point, and have one, the owners of any key are all of them. */
  lemma OwnersAreTheWorld(hash: PointHash, world: nat, n: nat, h: nat)
    requires n > 0 && Apart(hash, Ranks(world), n)
    ensures forall r :: r in Owners(World(hash, world, n), h) <==> 0 <= r < world
  {
    forall r: Rank ensures r in Owners(World(hash, world, n), h) <==> 0 <= r < world {
      OwnersKeepAPoint(hash, world, n, h, r);
      if 0 <= r < world {
        forall q: nat, j: nat | r < q < world && j < n ensures hash(q, j) != hash(r, 0) {
          assert q in Ranks(world) && r in Ranks(world);
        }
        assert Keeps(hash, world, n, r, 0);
      }
    }
  }

  lemma DeleteStep(o: seq<Rank>, x: Rank, r: Rank)
    ensures Delete(o + [x], r) == Delete(o, r) + (if x == r then [] else [x])
  {
    assert (o + [x])[..|o + [x]| - 1] == o;
  }

  lemma DistinctStep(o: seq<Rank>, x: Rank)
    ensures Distinct(o + [x]) == if x in Distinct(o) then Distinct(o) else Distinct(o) + [x]
  {
    assert (o + [x])[..|o + [x]| - 1] == o;
  }

  lemma {:induction false} DeleteMembers(o: seq<Rank>, r: Rank)
    ensures forall x :: x in Delete(o, r) <==> x in o && x != r
  {
    if o != [] {
      DeleteMembers(o[..|o| - 1], r);
      assert o == o[..|o| - 1] + [o[|o| - 1]];
    }
  }

  lemma {:induction false} DistinctCommutesWithDelete(o: seq<Rank>, r: Rank)
    ensures Delete(Distinct(o), r) == Distinct(Delete(o, r))
  {
    if o != [] {
      var p := o[..|o| - 1];
      DistinctCommutesWithDelete(p, r);
      OneMoreOwner(p, o[|o| - 1], r);
      assert o == p + [o[|o| - 1]];
    }
  }

  lemma OneMoreOwner(p: seq<Rank>, x: Rank, r: Rank)
    requires Delete(Distinct(p), r) == Distinct(Delete(p, r))
    ensures Delete(Distinct(p + [x]), r) == Distinct(Delete(p + [x], r))
  {
    var d := Distinct(p);
    DistinctStep(p, x);
    DeleteStep(p, x, r);
    DeleteMembers(d, r);
    if x == r {
      DeleteStep(d, x, r);
      assert Delete(p + [x], r) == Delete(p, r);
    } else {
      DistinctStep(Delete(p, r), x);
      DeleteStep(d, x, r);
    }
  }

  lemma {:induction false} KeepMembers(q: seq<nat>, s: set<nat>)
    ensures forall x :: x in Keep(q, s) <==> x in q && x in s
  {
    if q != [] {
      KeepMembers(q[..|q| - 1], s);
      assert q == q[..|q| - 1] + [q[|q| - 1]];
    }
  }

  lemma OwnersOfStep(ring: Ring, points: seq<nat>, x: nat)
    requires x in ring && forall p | p in points :: p in ring
    ensures OwnersOf(ring, points + [x]) == OwnersOf(ring, points) + [ring[x]]
  {
  }

  /** The clockwise points of the larger ring, r's among them. */
  ghost predicate Joined(ring: Ring, ring': Ring, r: Rank, points: seq<nat>) {
    && (forall p | p in points :: p in ring')
    && (forall p | p in points && p in ring' :: if p in ring then ring[p] == ring'[p] != r else ring'[p] == r)
  }

  lemma OneMorePoint(ring: Ring, ring': Ring, r: Rank, points: seq<nat>, x: nat)
    requires Joined(ring, ring', r, points + [x]) && Joined(ring, ring', r, points)
    requires forall p | p in Keep(points, ring.Keys) :: p in ring
    requires Delete(OwnersOf(ring', points), r) == OwnersOf(ring, Keep(points, ring.Keys))
    ensures forall p | p in Keep(points + [x], ring.Keys) :: p in ring
    ensures Delete(OwnersOf(ring', points + [x]), r) == OwnersOf(ring, Keep(points + [x], ring.Keys))
  {
    assert x in points + [x];
    KeepStep(points, x, ring.Keys);
    OwnersOfStep(ring', points, x);
    DeleteStep(OwnersOf(ring', points), ring'[x], r);
    if x in ring {
      OwnersOfStep(ring, Keep(points, ring.Keys), x);
    }
  }

  /** Dropping the points of a fresh node drops exactly its entries from the owners. */
  lemma {:induction false} DeleteIsKeep(ring: Ring, ring': Ring, r: Rank, points: seq<nat>)
    requires Joined(ring, ring', r, points)
    ensures forall p | p in Keep(points, ring.Keys) :: p in ring
    ensures Delete(OwnersOf(ring', points), r) == OwnersOf(ring, Keep(points, ring.Keys))
  {
    KeepMembers(points, ring.Keys);
    if points != [] {
      var p := points[..|points| - 1];
      assert points == p + [points[|points| - 1]];
      assert forall x | x in p :: x in points;
      DeleteIsKeep(ring, ring', r, p);
      OneMorePoint(ring, ring', r, p, points[|points| - 1]);
    }
  }

  lemma KeepClockwise(ring: Ring, ring': Ring, h: nat)
    requires ring.Keys <= ring'.Keys
    ensures Keep(Clockwise(ring'.Keys, h), ring.Keys) == Clockwise(ring.Keys, h)
  {
    KeepConcat(Sorted(From(ring'.Keys, h)), Sorted(Before(ring'.Keys, h)), ring.Keys);
    KeepSorted(From(ring'.Keys, h), ring.Keys);
    KeepSorted(Before(ring'.Keys, h), ring.Keys);
    assert From(ring'.Keys, h) * ring.Keys == From(ring.Keys, h);
    assert Before(ring'.Keys, h) * ring.Keys == Before(ring.Keys, h);
  }

  /** Consistent hashing moves the minimum: for every key, the owner list after a fresh node joins
      is the old owner list with the new node inserted somewhere. */
  lemma MinimalMovement(ring: Ring, hash: PointHash, r: Rank, n: nat, h: nat)
    requires Fresh(ring, hash, r, n) && r !in ring.Values
    ensures Delete(Owners(Added(ring, hash, r, n), h), r) == Owners(ring, h)
  {
    var ring' := Added(ring, hash, r, n);
    var points := Clockwise(ring'.Keys, h);
    ClockwisePoints(ring'.Keys, h);
    ClockwisePoints(ring.Keys, h);
    forall p | p in points ensures if p in ring then ring[p] == ring'[p] != r else ring'[p] == r {
      if p in ring {
        assert ring[p] in ring.Values;
      }
    }
    assert Joined(ring, ring', r, points);
    DistinctCommutesWithDelete(OwnersOf(ring', points), r);
    DeleteIsKeep(ring, ring', r, points);
    KeepClockwise(ring, ring', h);
  }

  /** The first n owners, of which there is at least one if there is any node: the source tests
      the count after it has appended. */
  function Replicas(ring: Ring, h: nat, n: int): seq<Rank> {
    Cut(Owners(ring, h), if n < 1 then 1 else n)
  }

  lemma {:induction false} DeleteNothing(o: seq<Rank>, r: Rank)
    requires r !in o
    ensures Delete(o, r) == o
  {
    if o != [] {
      DeleteNothing(o[..|o| - 1], r);
      assert o[|o| - 1] in o;
    }
  }

  lemma {:induction false} DeleteConcat(o: seq<Rank>, q: seq<Rank>, r: Rank)
    ensures Delete(o + q, r) == Delete(o, r) + Delete(q, r)
  {
    if q == [] {
      assert o + q == o;
    } else {
      var front, x := q[..|q| - 1], q[|q| - 1];
      DeleteConcat(o, front, r);
      assert o + q == (o + front) + [x] && q == front + [x];
      DeleteStep(o + front, x, r);
      DeleteStep(front, x, r);
    }
  }

  lemma {:induction false} DeleteLength(o: seq<Rank>, r: Rank)
    requires forall i, j | 0 <= i < j < |o| :: o[i] != o[j]
    ensures |Delete(o, r)| == |o| - (if r in o then 1 else 0)
  {
    if o != [] {
      DeleteLength(o[..|o| - 1], r);
      assert o == o[..|o| - 1] + [o[|o| - 1]];
    }
  }

  /** Cutting the longer list where it has k entries, r among them or not. */
  lemma CutAndDelete(o: seq<Rank>, o': seq<Rank>, r: Rank, k: nat)
    requires k <= |o'| && Delete(o', r) == o
    requires forall i, j | 0 <= i < j < |o'| :: o'[i] != o'[j]
    ensures Delete(o'[..k], r) <= o && |Delete(o'[..k], r)| == k - (if r in o'[..k] then 1 else 0)
    ensures |o| == |o'| - (if r in o' then 1 else 0)
    ensures r !in o'[..k] ==> k <= |o| && o'[..k] == o[..k]
  {
    assert o' == o'[..k] + o'[k..];
    DeleteConcat(o'[..k], o'[k..], r);
    DeleteLength(o'[..k], r);
    DeleteLength(o', r);
    if r !in o'[..k] { DeleteNothing(o'[..k], r); }
  }

  /** In particular when the next rank joins the ring of a world with which it shares no point. */
  lemma NextRankMovesTheMinimum(hash: PointHash, world: nat, n: nat, h: nat)
    requires Apart(hash, Ranks(world + 1), n)
    ensures Delete(Owners(World(hash, world + 1, n), h), world) == Owners(World(hash, world, n), h)
  {
    var ring := World(hash, world, n);
    WorldIsBuilt(hash, world, n);
    forall r | r in ring.Values ensures 0 <= r < world {
      var p :| p in ring && ring[p] == r;
      PointsHaveLastOwners(hash, world, n, p);
    }
    assert forall r | r in ring.Values + {world} :: r in Ranks(world + 1);
    NewRankIsFresh(ring, hash, world, n);
    MinimalMovement(ring, hash, world, n, h);
  }

  /** So the replicas of a key after a join are the old ones, or the new node in place of at most
      the last of the old ones. */
  lemma ReplicasChangeByOne(ring: Ring, hash: PointHash, r: Rank, n: nat, h: nat, m: int)
    requires Fresh(ring, hash, r, n) && r !in ring.Values
    ensures var before, after := Replicas(ring, h, m), Replicas(Added(ring, hash, r, n), h, m);
            && Delete(after, r) <= before
            && |before| - 1 <= |Delete(after, r)|
            && (r !in after ==> after == before)
  {
    var o, o' := Owners(ring, h), Owners(Added(ring, hash, r, n), h);
    MinimalMovement(ring, hash, r, n, h);
    OwnersAreTheNodes(Added(ring, hash, r, n), h);
    ReplicasOfLists(o, o', r, if m < 1 then 1 else m);
  }

  function Cut(o: seq<Rank>, m: nat): seq<Rank> {
    if |o| <= m then o else o[..m]
  }

  lemma ReplicasOfLists(o: seq<Rank>, o': seq<Rank>, r: Rank, m: nat)
    requires m > 0 && Delete(o', r) == o
    requires forall i, j | 0 <= i < j < |o'| :: o'[i] != o'[j]
    ensures Delete(Cut(o', m), r) <= Cut(o, m)
    ensures |Cut(o, m)| - 1 <= |Delete(Cut(o', m), r)|
    ensures r !in Cut(o', m) ==> Cut(o', m) == Cut(o, m)
  {
    var k := if |o'| <= m then |o'| else m;
    CutAndDelete(o, o', r, k);
    assert Cut(o', m) == o'[..k];
  }

  // ---------------------------------------------------------------------------------------
  // The object
  // ---------------------------------------------------------------------------------------

  class ConsistentHashRing {
    const virtualNodes: nat
    const pointHash: PointHash
    const keyHash: string -> nat
    var ring: Ring
    var sortedKeys: seq<nat>

    ghost predicate Valid()
      reads this
    {
      sortedKeys == Sorted(ring.Keys)
    }

    constructor (virtualNodes: nat, pointHash: PointHash, keyHash: string -> nat)
      ensures Valid() && ring == map[]
      ensures this.virtualNodes == virtualNodes && this.pointHash == pointHash && this.keyHash == keyHash
    {
      this.virtualNodes := virtualNodes;
      this.pointHash := pointHash;
      this.keyHash := keyHash;
      ring := map[];
      sortedKeys := [];
    }

    method AddNode(rank: Rank)
      modifies this
      ensures Valid() && ring == Added(old(ring), pointHash, rank, virtualNodes)
    {
      for i := 0 to virtualNodes
        invariant ring == Added(old(ring), pointHash, rank, i)
      {
        AddedStep(old(ring), pointHash, rank, i);
        ring := ring[pointHash(rank, i) := rank];
      }
      sortedKeys := Sorted(ring.Keys);
    }

    method RemoveNode(rank: Rank)
      modifies this
      ensures Valid() && ring == Removed(old(ring), pointHash, rank, virtualNodes)
    {
      for i := 0 to virtualNodes
        invariant ring == Removed(old(ring), pointHash, rank, i)
      {
        RemovedStep(old(ring), pointHash, rank, i);
        ring := ring - {pointHash(rank, i)};
      }
      sortedKeys := Sorted(ring.Keys);
    }

    /** The first point at or after h, wrapping to the first point of all. */
    method Bisect(h: nat) returns (idx: nat)
      requires Valid() && sortedKeys != []
      ensures idx < |sortedKeys|
      ensures sortedKeys[idx..] + sortedKeys[..idx] == Clockwise(ring.Keys, h)
    {
      SortedIsSorted(ring.Keys);
      var lo := LowerBound(sortedKeys, h);
      idx := lo % (if |sortedKeys| > 1 then |sortedKeys| else 1);
      RotatedIsClockwise(sortedKeys, ring.Keys, h, lo);
    }

    /** The first n distinct owners clockwise from the key's hash. */
    method GetNodes(key: string, n: int) returns (owners: seq<Rank>)
      requires Valid()
      ensures owners == Replicas(ring, keyHash(key), n)
    {
      if sortedKeys == [] {
        EmptyRing(ring, keyHash(key));
        return [];
      }
      var h := keyHash(key);
      var idx := Bisect(h);
      ClockwisePoints(ring.Keys, h);
      owners := Walk(ring, sortedKeys, idx, n);
    }
  }

  /** The binary search of `_bisect`. */
  method LowerBound(keys: seq<nat>, h: nat) returns (lo: nat)
    requires Increasing(keys)
    ensures lo <= |keys|
    ensures forall k | 0 <= k < lo :: keys[k] < h
    ensures forall k | lo <= k < |keys| :: keys[k] >= h
  {
    var hi := |keys|;
    lo := 0;
    while lo < hi
      invariant 0 <= lo <= hi <= |keys|
      invariant forall k | 0 <= k < lo :: keys[k] < h
      invariant forall k | hi <= k < |keys| :: keys[k] >= h
    {
      var mid := (lo + hi) / 2;
      if keys[mid] < h {
        lo := mid + 1;
      } else {
        hi := mid;
      }
    }
  }

  ghost predicate OnRing(ring: Ring, points: seq<nat>) {
    forall p | p in points :: p in ring
  }

  /** The owner of the i-th point clockwise from idx. */
  method NodeAt(ring: Ring, keys: seq<nat>, idx: nat, i: nat) returns (node: Rank)
    requires idx < |keys| && i < |keys| && OnRing(ring, keys[idx..] + keys[..idx])
    ensures OnRing(ring, keys[idx..] + keys[..idx]) && node == OwnersOf(ring, keys[idx..] + keys[..idx])[i]
  {
    RotatedAt(keys, idx, i);
    assert (keys[idx..] + keys[..idx])[i] in keys[idx..] + keys[..idx];
    node := ring[keys[(idx + i) % |keys|]];
  }

  lemma OneMoreNode(all: seq<Rank>, i: nat)
    requires i < |all|
    ensures var d := Distinct(all[..i]); Distinct(all[..i + 1]) == if all[i] in d then d else d + [all[i]]
  {
    assert all[..i + 1] == all[..i] + [all[i]];
    DistinctStep(all[..i], all[i]);
  }

  /** The loop of `get_nodes`: once round the ring from idx, stopping as soon as n owners are found. */
  method Walk(ring: Ring, keys: seq<nat>, idx: nat, n: int) returns (owners: seq<Rank>)
    requires idx < |keys| && OnRing(ring, keys[idx..] + keys[..idx])
    ensures OnRing(ring, keys[idx..] + keys[..idx])
    ensures owners == Cut(Distinct(OwnersOf(ring, keys[idx..] + keys[..idx])), if n < 1 then 1 else n)
  {
    ghost var all := OwnersOf(ring, keys[idx..] + keys[..idx]);
    owners := [];
    var seen: set<Rank> := {};
    var i := 0;
    while i < |keys|
      invariant 0 <= i <= |keys| == |all|
      invariant owners == Distinct(all[..i]) && forall r :: r in seen <==> r in owners
      invariant |owners| == 0 <==> i == 0
      invariant i > 0 ==> |owners| < n
    {
      var node := NodeAt(ring, keys, idx, i);
      OneMoreNode(all, i);
      if node !in seen {
        owners := owners + [node];
        seen := seen + {node};
      }
      i := i + 1;
      if |owners| >= n {
        break;
      }
    }
    EnoughOwners(all, i, n);
  }

  /** Stopping at the first prefix with n distinct owners gives the first n distinct owners. */
  lemma EnoughOwners(all: seq<Rank>, i: nat, n: int)
    requires 0 < i <= |all|
    requires i < |all| ==> |Distinct(all[..i])| >= n
    requires |Distinct(all[..i])| <= (if n < 1 then 1 else n)
    requires |Distinct(all[..i])| > 0
    ensures Distinct(all[..i]) == Cut(Distinct(all), if n < 1 then 1 else n)
  {
    DistinctPrefix(all, i);
    assert all[..|all|] == all;
  }

  /** Cutting the listing at the first point at or after h and swapping the halves. */
  lemma RotatedIsClockwise(q: seq<nat>, keys: set<nat>, h: nat, lo: nat)
    requires q == Sorted(keys) && lo <= |q| && q != []
    requires forall k | 0 <= k < lo :: q[k] < h
    requires forall k | lo <= k < |q| :: q[k] >= h
    ensures lo % |q| < |q| && q[lo % |q|..] + q[..lo % |q|] == Clockwise(keys, h)
  {
    SplitSorted(q, keys, h, lo);
    Wrap(lo, |q|);
    if lo == |q| {
      assert q[lo..] == [] && q[..lo] == q == q[0..] + q[..0];
    }
  }

  lemma RotatedAt(q: seq<nat>, idx: nat, i: nat)
    requires idx < |q| && i < |q|
    ensures (idx + i) % |q| < |q| && (q[idx..] + q[..idx])[i] == q[(idx + i) % |q|]
  {
    Wrap(idx + i, |q|);
  }

  /** A cut of a sorted listing at h is the two listings around h. */
  lemma SplitSorted(q: seq<nat>, keys: set<nat>, h: nat, lo: nat)
    requires q == Sorted(keys) && lo <= |q|
    requires forall k | 0 <= k < lo :: q[k] < h
    requires forall k | lo <= k < |q| :: q[k] >= h
    ensures q[lo..] == Sorted(From(keys, h)) && q[..lo] == Sorted(Before(keys, h))
  {
    SortedIsSorted(keys);
    UpperHalf(q, keys, h, lo);
    LowerHalf(q, keys, h, lo);
  }

  lemma UpperHalf(q: seq<nat>, keys: set<nat>, h: nat, lo: nat)
    requires Increasing(q) && lo <= |q| && forall x :: x in q <==> x in keys
    requires forall k | 0 <= k < lo :: q[k] < h
    requires forall k | lo <= k < |q| :: q[k] >= h
    ensures q[lo..] == Sorted(From(keys, h))
  {
    forall x | x in From(keys, h) ensures x in q[lo..] {
      var k :| 0 <= k < |q| && q[k] == x;
      assert q[lo..][k - lo] == x;
    }
    SortedIsUnique(q[lo..], From(keys, h));
  }

  lemma LowerHalf(q: seq<nat>, keys: set<nat>, h: nat, lo: nat)
    requires Increasing(q) && lo <= |q| && forall x :: x in q <==> x in keys
    requires forall k | 0 <= k < lo :: q[k] < h
    requires forall k | lo <= k < |q| :: q[k] >= h
    ensures q[..lo] == Sorted(Before(keys, h))
  {
    forall x | x in Before(keys, h) ensures x in q[..lo] {
      var k :| 0 <= k < |q| && q[k] == x;
      assert q[..lo][k] == x;
    }
    SortedIsUnique(q[..lo], Before(keys, h));
  }

  lemma EmptyRing(ring: Ring, h: nat)
    requires Sorted(ring.Keys) == []
    ensures Owners(ring, h) == []
  {
    ClockwisePoints(ring.Keys, h);
  }

  /** The owners of a prefix are a prefix of the owners. */
  lemma {:induction false} DistinctPrefix(o: seq<Rank>, i: nat)
    requires i <= |o|
    ensures Distinct(o[..i]) <= Distinct(o)
  {
    if i < |o| {
      DistinctPrefix(o[..|o| - 1], i);
      assert o[..|o| - 1][..i] == o[..i];
    } else {
      assert o[..i] == o;
    }
  }
}
