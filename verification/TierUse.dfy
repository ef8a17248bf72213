/**
 The two-tier store's policy over whole runs: which entries an eviction takes and when it stops, what
 an access leaves behind, and that the recorded sizes and times are the true ones.
 */
module TierUse {
  import opened Basics
  import opened TierStore
  import opened TierTheorems
  import opened TierMap

  // ---------------------------------------------------------------------------------------
  // One spill
  // ---------------------------------------------------------------------------------------

  /** What a write of the data leaves in the file. */
  predicate Written(before: Option<Data>, after: Option<Data>, data: Data, io: Io) {
    match io
    case Works => after == Some(data)
    case OpenFails => after == before
    case WriteStops(residue) => after == Some(residue)
  }

  function FileAt(s: Tier, p: Path): Option<Data> {
    if p in s.files then Some(s.files[p]) else None
  }

  /** A victim is indexed exactly if NVMe has room for its size, and its file is then written. */
  lemma SpillIsIndexedExactlyWhen(s: Tier, v: Key, path: Key -> Path, io: Key -> Io, k: Key)
    requires v in s.dram
    ensures var t := Spilled(s, v, path, io);
            && v !in t.dram && (k != v ==> (k in t.dram <==> k in s.dram) && (k in s.dram ==> t.dram[k] == s.dram[k]))
            && if s.nvmeBytes + s.dram[v].size <= s.nvmeLimit
               then v in t.index && t.index[v] == s.dram[v]
                    && (path(k) == path(v) ==>
                          Written(FileAt(s, path(k)), FileAt(t, path(k)), s.dram[v].data, io(v)))
                    && (path(k) != path(v) ==> FileAt(t, path(k)) == FileAt(s, path(k)))
               else t.index == s.index && t.files == s.files && t.nvmeBytes == s.nvmeBytes
  {
  }

  /** What a get that goes to NVMe finds. */
  lemma ReadFindsTheFile(s: Tier, k: Key, path: Key -> Path, io: Key -> Io)
    requires k !in s.dram
    ensures Visible(s, k, path, io) == if k in s.index && !io(k).OpenFails? then FileAt(s, path(k)) else None
  {
  }

  // ---------------------------------------------------------------------------------------
  // One eviction
  // ---------------------------------------------------------------------------------------

  lemma VictimIsLeast(s: Tier, k: Key)
    requires s.Ordered() && k in s.dram
    ensures s.order != [] && AllResident(s.order, s.dram)
    ensures s.dram[Victim(s.order, s.dram)].lastAccess <= s.dram[k].lastAccess
  {
    OrderNotEmpty(s);
    VictimIsLru(s.order, s.dram);
    var i: nat :| LruAt(s.order, s.dram, i) && s.order[i] == Victim(s.order, s.dram);
    var j :| 0 <= j < |s.order| && s.order[j] == k;
  }

  lemma {:induction false} EvictedKeeps(s: Tier, needed: nat, path: Key -> Path, io: Key -> Io, k: Key)
    requires s.Ordered()
    ensures var t := Evicted(s, needed, path, io); k in t.dram ==> k in s.dram && t.dram[k] == s.dram[k]
    decreases |s.dram|
  {
    if MustEvict(s, needed) {
      EvictedStep(s, needed, path, io);
      EvictedKeeps(Spilled(s, Victim(s.order, s.dram), path, io), needed, path, io, k);
    }
  }

  /** No evicted entry was accessed later than one that is kept. */
  lemma {:induction false} EvictsTheLeastRecent(s: Tier, needed: nat, path: Key -> Path, io: Key -> Io, v: Key, k: Key)
    requires s.Ordered() && v in s.dram
    requires v !in Evicted(s, needed, path, io).dram && k in Evicted(s, needed, path, io).dram
    ensures k in s.dram && s.dram[v].lastAccess <= s.dram[k].lastAccess
    decreases |s.dram|
  {
    EvictedKeeps(s, needed, path, io, k);
    EvictedStep(s, needed, path, io);
    VictimIsLeast(s, k);
    var x := Victim(s.order, s.dram);
    if v != x { EvictsTheLeastRecent(Spilled(s, x, path, io), needed, path, io, v, k); }
  }

  /** Eviction takes nothing if the bytes fit, and no entry more than it has to: without the last one
      taken they did not fit. */
  lemma {:induction false} EvictsNoMoreThanNeeded(s: Tier, needed: nat, path: Key -> Path, io: Key -> Io)
    requires s.Ordered()
    ensures var t := Evicted(s, needed, path, io);
            && (s.dramBytes + needed <= s.dramLimit ==> t == s)
            && (t.dramBytes + needed <= s.dramLimit || t.dram == map[])
            && (t.dram.Keys != s.dram.Keys ==>
                  exists v :: v in s.dram && v !in t.dram && t.dramBytes + s.dram[v].size + needed > s.dramLimit)
    decreases |s.dram|
  {
    if MustEvict(s, needed) {
      EvictedStep(s, needed, path, io);
      var v := Victim(s.order, s.dram);
      var n, t := Spilled(s, v, path, io), Evicted(s, needed, path, io);
      EvictsNoMoreThanNeeded(n, needed, path, io);
      if t.dram.Keys == n.dram.Keys {
        EvictedStops(n, needed, path, io);
        assert v in s.dram && v !in t.dram;
      } else {
        var u :| u in n.dram && u !in t.dram && t.dramBytes + n.dram[u].size + needed > n.dramLimit;
        assert u in s.dram;
      }
    }
  }

  lemma EvictedStops(s: Tier, needed: nat, path: Key -> Path, io: Key -> Io)
    requires s.Ordered() && Evicted(s, needed, path, io).dram.Keys == s.dram.Keys
    ensures Evicted(s, needed, path, io) == s
  {
    if MustEvict(s, needed) {
      EvictedStep(s, needed, path, io);
      VictimGoes(s, needed, path, io);
    }
  }

  lemma VictimGoes(s: Tier, needed: nat, path: Key -> Path, io: Key -> Io)
    requires s.Ordered() && MustEvict(s, needed)
    ensures s.order != [] && Victim(s.order, s.dram) in s.dram.Keys
    ensures Victim(s.order, s.dram) !in Evicted(s, needed, path, io).dram.Keys
  {
    EvictedStep(s, needed, path, io);
    var v := Victim(s.order, s.dram);
    EvictedElsewhere(Spilled(s, v, path, io), needed, path, io, v);
  }

  // ---------------------------------------------------------------------------------------
  // Last use
  // ---------------------------------------------------------------------------------------

  /** The call uses key k: it puts it, or finds it. */
  predicate Uses(s: Tier, op: Op, path: Key -> Path, k: Key) {
    match op
    case DoPut(j, _, _, _) => j == k
    case DoGet(j, _, io) => j == k && Visible(s, k, path, io).Some?
    case DoDrop(_) => false
  }

  /** The clock reading of the last use of k. */
  function LastUse(r: Run, path: Key -> Path, k: Key): int {
    match r
    case Start(_, _, _) => 0
    case Then(before, op) =>
      if !op.DoDrop? && Uses(End(before, path), op, path, k) then op.now else LastUse(before, path, k)
  }

  lemma StepTouches(s: Tier, op: Op, path: Key -> Path, k: Key)
    requires s.Ordered() && k in Step(s, op, path).dram
    ensures var e := Step(s, op, path).dram[k];
            if !op.DoDrop? && Uses(s, op, path, k) then e.lastAccess == op.now
            else k in s.dram && e.lastAccess == s.dram[k].lastAccess
  {
    match op
    case DoPut(j, data, now, io) => if j != k { EvictedKeeps(s, |data|, path, io, k); }
    case DoGet(j, now, io) =>
      if j !in s.dram && Visible(s, j, path, io).Some? && j != k {
        EvictedKeeps(s, |Visible(s, j, path, io).value|, path, io, k);
      }
    case DoDrop(_) =>
  }

  /** Every entry in DRAM carries the time of its last use. */
  lemma {:induction false} AccessIsLastUse(r: Run, path: Key -> Path, k: Key)
    requires k in End(r, path).dram
    ensures End(r, path).dram[k].lastAccess == LastUse(r, path, k)
  {
    match r
    case Start(_, _, _) =>
    case Then(before, op) =>
      StepTouches(End(before, path), op, path, k);
      if op.DoDrop? || !Uses(End(before, path), op, path, k) { AccessIsLastUse(before, path, k); }
  }

  /** So after any run an eviction for any number of bytes takes the keys whose last use is longest ago. */
  lemma EvictsTheLeastRecentlyUsed(r: Run, needed: nat, path: Key -> Path, io: Key -> Io, v: Key, k: Key)
    requires var s := End(r, path); var t := Evicted(s, needed, path, io);
             v in s.dram && v !in t.dram && k in t.dram
    ensures LastUse(r, path, v) <= LastUse(r, path, k)
  {
    EvictsTheLeastRecent(End(r, path), needed, path, io, v, k);
    AccessIsLastUse(r, path, v);
    AccessIsLastUse(r, path, k);
  }

  // ---------------------------------------------------------------------------------------
  // Insertion order
  // ---------------------------------------------------------------------------------------

  function Calls(r: Run): nat {
    match r
    case Start(_, _, _) => 0
    case Then(before, _) => Calls(before) + 1
  }

  /** The keys still in DRAM when the call inserts. */
  function Kept(s: Tier, op: Op, path: Key -> Path): Tier
    requires s.Ordered()
  {
    match op
    case DoPut(k, data, _, io) => Evicted(s, |data|, path, io)
    case DoGet(k, _, io) =>
      if k !in s.dram && Visible(s, k, path, io).Some? then Evicted(s, |Visible(s, k, path, io).value|, path, io) else s
    case DoDrop(k) => Dropped(s, k)
  }

  /** The number of the call that last brought k into DRAM. */
  function Entered(r: Run, path: Key -> Path, k: Key): nat {
    match r
    case Start(_, _, _) => 0
    case Then(before, op) =>
      if k in End(r, path).dram && k !in Kept(End(before, path), op, path).dram then Calls(r)
      else Entered(before, path, k)
  }

  /** The keys of the list entered in its order, all of them by call n. */
  ghost predicate ByEntry(order: seq<Key>, r: Run, path: Key -> Path, n: nat) {
    (forall i, j | 0 <= i < j < |order| :: Entered(r, path, order[i]) < Entered(r, path, order[j]))
    && (forall i | 0 <= i < |order| :: Entered(r, path, order[i]) <= n)
  }

  /** The second list has the first one's keys in the same order, or fewer. */
  ghost predicate Thins(o: seq<Key>, p: seq<Key>, at: seq<nat>) {
    |at| == |p| && (forall i | 0 <= i < |at| :: at[i] < |o| && p[i] == o[at[i]])
    && (forall i, j | 0 <= i < j < |at| :: at[i] < at[j])
  }

  lemma {:induction false} WithoutThins(o: seq<Key>, v: Key) returns (at: seq<nat>)
    ensures Thins(o, Without(o, v), at)
  {
    if o == [] {
      at := [];
    } else {
      var n := |o| - 1;
      at := WithoutThins(o[..n], v);
      if o[n] != v { at := at + [n]; }
    }
  }

  lemma ThinningIsTransitive(o: seq<Key>, p: seq<Key>, q: seq<Key>, a: seq<nat>, b: seq<nat>) returns (c: seq<nat>)
    requires Thins(o, p, a) && Thins(p, q, b)
    ensures Thins(o, q, c)
  {
    c := seq(|b|, i requires 0 <= i < |b| => a[b[i]]);
  }

  lemma {:induction false} EvictedThins(s: Tier, needed: nat, path: Key -> Path, io: Key -> Io) returns (at: seq<nat>)
    requires s.Ordered()
    ensures Thins(s.order, Evicted(s, needed, path, io).order, at)
    decreases |s.dram|
  {
    if MustEvict(s, needed) {
      EvictedStep(s, needed, path, io);
      var v := Victim(s.order, s.dram);
      var a := WithoutThins(s.order, v);
      var b := EvictedThins(Spilled(s, v, path, io), needed, path, io);
      at := ThinningIsTransitive(s.order, Spilled(s, v, path, io).order, Evicted(s, needed, path, io).order, a, b);
    } else {
      at := seq(|s.order|, i => i);
    }
  }

  lemma KeptThins(s: Tier, op: Op, path: Key -> Path) returns (at: seq<nat>)
    requires s.Ordered()
    ensures Kept(s, op, path).Ordered() && Thins(s.order, Kept(s, op, path).order, at)
  {
    match op
    case DoPut(_, data, _, io) => at := EvictedThins(s, |data|, path, io);
    case DoGet(k, _, io) =>
      if k !in s.dram && Visible(s, k, path, io).Some? {
        at := EvictedThins(s, |Visible(s, k, path, io).value|, path, io);
      } else {
        at := seq(|s.order|, i => i);
      }
    case DoDrop(k) => at := WithoutThins(s.order, k);
  }

  /** A call appends the key it brings in, and moves no other. */
  lemma StepAppends(s: Tier, op: Op, path: Key -> Path)
    requires s.Ordered()
    ensures var k, t := Kept(s, op, path), Step(s, op, path);
            && k.Ordered() && t.Ordered()
            && (t.order == k.order || (!op.DoDrop? && op.key !in k.dram && t.order == k.order + [op.key]))
            && t.dram.Keys == k.dram.Keys + if t.order == k.order then {} else {op.key}
  {
  }

  /** The dictionary lists the keys in the order in which they came into DRAM, as ties are broken. */
  lemma {:induction false} OrderIsByEntry(r: Run, path: Key -> Path)
    ensures ByEntry(End(r, path).order, r, path, Calls(r))
  {
    match r
    case Start(_, _, _) =>
    case Then(before, op) =>
      OrderIsByEntry(before, path);
      var s := End(before, path);
      var kept := Kept(s, op, path);
      var at := KeptThins(s, op, path);
      StepAppends(s, op, path);
      forall i | 0 <= i < |kept.order|
        ensures Entered(r, path, kept.order[i]) == Entered(before, path, s.order[at[i]])
      {
        assert kept.order[i] in kept.order;
      }
      var t := End(r, path);
      if t.order != kept.order {
        assert op.key in t.dram.Keys;
        assert Entered(r, path, op.key) == Calls(r);
      }
  }

  // ---------------------------------------------------------------------------------------
  // Sizes and promotion
  // ---------------------------------------------------------------------------------------

  ghost predicate TrueSizes(m: map<Key, Entry>) {
    forall k | k in m :: m[k].size == |m[k].data|
  }

  lemma {:induction false} EvictedKeepsSizes(s: Tier, needed: nat, path: Key -> Path, io: Key -> Io)
    requires s.Ordered() && TrueSizes(s.dram) && TrueSizes(s.index)
    ensures TrueSizes(Evicted(s, needed, path, io).dram) && TrueSizes(Evicted(s, needed, path, io).index)
    decreases |s.dram|
  {
    if MustEvict(s, needed) {
      EvictedStep(s, needed, path, io);
      EvictedKeepsSizes(Spilled(s, Victim(s.order, s.dram), path, io), needed, path, io);
    }
  }

  lemma StepKeepsSizes(s: Tier, op: Op, path: Key -> Path)
    requires s.Ordered() && TrueSizes(s.dram) && TrueSizes(s.index)
    ensures TrueSizes(Step(s, op, path).dram) && TrueSizes(Step(s, op, path).index)
  {
    match op
    case DoPut(_, data, _, io) => EvictedKeepsSizes(s, |data|, path, io);
    case DoGet(k, _, io) =>
      if k !in s.dram && Visible(s, k, path, io).Some? {
        EvictedKeepsSizes(s, |Visible(s, k, path, io).value|, path, io);
      }
    case DoDrop(_) =>
  }

  /** In every run each entry's recorded size is the length of its data, so the byte budgets count bytes. */
  lemma {:induction false} SizesAreTrue(r: Run, path: Key -> Path)
    ensures TrueSizes(End(r, path).dram) && TrueSizes(End(r, path).index)
  {
    match r
    case Start(_, _, _) =>
    case Then(before, op) =>
      SizesAreTrue(before, path);
      StepKeepsSizes(End(before, path), op, path);
  }

  /** A get that finds its key in NVMe moves it: it is in DRAM with what was read, and off the index and its
      counter; a hit in DRAM changes neither tier's contents. */
  lemma HitsMoveToDram(s: Tier, k: Key, now: int, path: Key -> Path, io: Key -> Io)
    requires s.Ordered() && Visible(s, k, path, io).Some?
    ensures var t := AfterGet(s, k, now, path, io);
            && k in t.dram && Some(t.dram[k].data) == Visible(s, k, path, io)
            && if k in s.dram
               then t.index == s.index && t.nvmeBytes == s.nvmeBytes && t.files == s.files
                    && t.dram.Keys == s.dram.Keys && t.dram[k].size == s.dram[k].size
               else k !in t.index && NvmeDrift(t) == NvmeDrift(Evicted(s, |t.dram[k].data|, path, io))
  {
    if k !in s.dram {
      var n := |Visible(s, k, path, io).value|;
      EvictedElsewhere(s, n, path, io, k);
      TotalRemove(Evicted(s, n, path, io).index, k);
    }
  }
}
