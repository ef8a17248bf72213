/**
 What the two-tier store promises over whole runs: its byte budgets, and that it answers as a plain
 map would.
 */
module TierTheorems {
  import opened Basics
  import opened TierStore

  // ---------------------------------------------------------------------------------------
  // Runs
  // ---------------------------------------------------------------------------------------

  /** One call on the store, with the clock reading it takes and the outcome of its file operations. */
  datatype Op =
    | DoPut(key: Key, data: Data, now: int, io: Key -> Io)
    | DoGet(key: Key, now: int, io: Key -> Io)
    | DoDrop(key: Key)

  /** The directory may hold files of an earlier process; the index starts empty. */
  datatype Run =
    | Start(dramLimit: nat, nvmeLimit: nat, files: map<Path, Data>)
    | Then(before: Run, op: Op)

  function Step(s: Tier, op: Op, path: Key -> Path): (t: Tier)
    requires s.Ordered()
    ensures t.Ordered()
  {
    match op
    case DoPut(k, data, now, io) => Put(s, k, data, now, path, io)
    case DoGet(k, now, io) => AfterGet(s, k, now, path, io)
    case DoDrop(k) => Dropped(s, k)
  }

  function End(r: Run, path: Key -> Path): (t: Tier)
    ensures t.Ordered()
  {
    match r
    case Start(dramLimit, nvmeLimit, files) => Tier(dramLimit, nvmeLimit, [], map[], 0, map[], 0, files)
    case Then(before, op) => Step(End(before, path), op, path)
  }

  // ---------------------------------------------------------------------------------------
  // Byte counts
  // ---------------------------------------------------------------------------------------

  ghost function Total(m: map<Key, Entry>): nat {
    if m == map[] then 0 else var k :| k in m; m[k].size + Total(m - {k})
  }

  lemma {:induction false} TotalRemove(m: map<Key, Entry>, k: Key)
    requires k in m
    ensures Total(m) == m[k].size + Total(m - {k})
    decreases |m|
  {
    var j :| j in m && Total(m) == m[j].size + Total(m - {j});
    if j != k {
      TotalRemove(m - {j}, k);
      TotalRemove(m - {k}, j);
      assert m - {j} - {k} == m - {k} - {j};
    }
  }

  lemma TotalInsert(m: map<Key, Entry>, k: Key, e: Entry)
    ensures Total(m[k := e]) == e.size + Total(m - {k})
  {
    TotalRemove(m[k := e], k);
    assert m[k := e] - {k} == m - {k};
  }

  lemma TotalWithout(m: map<Key, Entry>, k: Key)
    ensures Total(m - {k}) == Total(m) - SizeAt(m, k)
  {
    if k in m { TotalRemove(m, k); } else { assert m - {k} == m; }
  }

  function SizeAt(m: map<Key, Entry>, k: Key): nat {
    if k in m then m[k].size else 0
  }

  /** By how much the DRAM counter overstates what is resident. */
  ghost function Drift(s: Tier): int {
    s.dramBytes - Total(s.dram)
  }

  ghost function NvmeDrift(s: Tier): int {
    s.nvmeBytes - Total(s.index)
  }

  lemma SpilledBytes(s: Tier, v: Key, path: Key -> Path, io: Key -> Io)
    requires v in s.dram
    ensures var t := Spilled(s, v, path, io);
            && Drift(t) == Drift(s)
            && NvmeDrift(t) == NvmeDrift(s) + (if SpillFits(s, v) then SizeAt(s.index, v) else 0)
            && (s.nvmeBytes <= s.nvmeLimit ==> t.nvmeBytes <= t.nvmeLimit)
  {
    TotalRemove(s.dram, v);
    TotalInsert(s.index, v, s.dram[v]);
    TotalWithout(s.index, v);
  }

  lemma {:induction false} EvictedBytes(s: Tier, needed: nat, path: Key -> Path, io: Key -> Io)
    requires s.Ordered()
    ensures var t := Evicted(s, needed, path, io);
            && Drift(t) == Drift(s) && NvmeDrift(t) >= NvmeDrift(s)
            && (s.nvmeBytes <= s.nvmeLimit ==> t.nvmeBytes <= t.nvmeLimit)
    decreases |s.dram|
  {
    if MustEvict(s, needed) {
      EvictedStep(s, needed, path, io);
      var v := Victim(s.order, s.dram);
      SpilledBytes(s, v, path, io);
      EvictedBytes(Spilled(s, v, path, io), needed, path, io);
    }
  }

  /** Eviction never touches the index entry of a key that is not in DRAM. */
  lemma {:induction false} EvictedElsewhere(s: Tier, needed: nat, path: Key -> Path, io: Key -> Io, k: Key)
    requires s.Ordered() && k !in s.dram
    ensures var t := Evicted(s, needed, path, io);
            k !in t.dram && (k in t.index <==> k in s.index) && (k in s.index ==> t.index[k] == s.index[k])
    decreases |s.dram|
  {
    if MustEvict(s, needed) {
      EvictedStep(s, needed, path, io);
      EvictedElsewhere(Spilled(s, Victim(s.order, s.dram), path, io), needed, path, io, k);
    }
  }

  /** What one call adds to the drift: the entry a put overwrites, and the entry a drop forgets. */
  function Overcharge(s: Tier, op: Op, path: Key -> Path): nat
    requires s.Ordered()
  {
    match op
    case DoPut(k, data, now, io) => SizeAt(Evicted(s, |data|, path, io).dram, k)
    case DoGet(_, _, _) => 0
    case DoDrop(k) => SizeAt(s.dram, k)
  }

  /** Eviction stops when the bytes fit or nothing is left, so an insertion leaves the budget kept
      or one lone entry. */
  ghost predicate WithinBudget(s: Tier) {
    Total(s.dram) <= s.dramLimit || |s.dram| == 1
  }

  lemma InsertBytes(s: Tier, k: Key, e: Entry)
    requires s.dram == map[] || s.dramBytes + e.size <= s.dramLimit
    requires Drift(s) >= 0
    ensures var t := Insert(s, k, e); Drift(t) == Drift(s) + SizeAt(s.dram, k) && WithinBudget(t)
  {
    TotalInsert(s.dram, k, e);
    TotalWithout(s.dram, k);
    if s.dram == map[] { assert s.dram[k := e].Keys == {k}; assert |s.dram[k := e]| == |{k}|; }
  }

  ghost predicate Budgets(s: Tier) {
    Drift(s) >= 0 && 0 <= NvmeDrift(s) && s.nvmeBytes <= s.nvmeLimit && WithinBudget(s)
  }

  lemma PutBytes(s: Tier, k: Key, data: Data, now: int, path: Key -> Path, io: Key -> Io)
    requires s.Ordered() && Budgets(s)
    ensures var t := Put(s, k, data, now, path, io);
            && Budgets(t) && NvmeDrift(t) >= NvmeDrift(s)
            && Drift(t) == Drift(s) + SizeAt(Evicted(s, |data|, path, io).dram, k)
  {
    EvictedBytes(s, |data|, path, io);
    InsertBytes(Evicted(s, |data|, path, io), k, Entry(data, |data|, now));
  }

  lemma GetBytes(s: Tier, k: Key, now: int, path: Key -> Path, io: Key -> Io)
    requires s.Ordered() && Budgets(s)
    ensures var t := AfterGet(s, k, now, path, io);
            Budgets(t) && NvmeDrift(t) >= NvmeDrift(s) && Drift(t) == Drift(s)
  {
    if k in s.dram {
      var e := s.dram[k].(lastAccess := now);
      TotalInsert(s.dram, k, e);
      TotalWithout(s.dram, k);
      assert s.dram[k := e].Keys == s.dram.Keys;
      assert |s.dram[k := e]| == |s.dram.Keys|;
    } else if Visible(s, k, path, io).Some? {
      var data := Visible(s, k, path, io).value;
      EvictedBytes(s, |data|, path, io);
      EvictedElsewhere(s, |data|, path, io, k);
      var t := Evicted(s, |data|, path, io);
      InsertBytes(t, k, Entry(data, |data|, now));
      TotalRemove(t.index, k);
    }
  }

  lemma LoneEntry(m: map<Key, Entry>, k: Key)
    requires |m| == 1
    ensures k in m ==> m - {k} == map[]
    ensures k !in m ==> m - {k} == m
  {
    if k in m {
      assert m.Keys == {k} + (m.Keys - {k});
      assert |m.Keys - {k}| == 0;
      assert (m - {k}).Keys == {};
    }
  }

  lemma DropBytes(s: Tier, k: Key)
    requires s.Ordered() && Budgets(s)
    ensures var t := Dropped(s, k);
            Budgets(t) && NvmeDrift(t) == NvmeDrift(s) && Drift(t) == Drift(s) + SizeAt(s.dram, k)
  {
    TotalWithout(s.dram, k);
    if |s.dram| == 1 { LoneEntry(s.dram, k); }
  }

  lemma StepBytes(s: Tier, op: Op, path: Key -> Path)
    requires s.Ordered() && Budgets(s)
    ensures var t := Step(s, op, path);
            Budgets(t) && Drift(t) == Drift(s) + Overcharge(s, op, path) && NvmeDrift(t) >= NvmeDrift(s)
  {
    match op
    case DoPut(k, data, now, io) => PutBytes(s, k, data, now, path, io);
    case DoGet(k, now, io) => GetBytes(s, k, now, path, io);
    case DoDrop(k) => DropBytes(s, k);
  }

  function Overcharges(r: Run, path: Key -> Path): nat {
    match r
    case Start(_, _, _) => 0
    case Then(before, op) => Overcharges(before, path) + Overcharge(End(before, path), op, path)
  }

  /**
   In every run, whatever the file system does: the DRAM counter exceeds the resident bytes by exactly
   the entries overwritten in place and dropped so far, the NVMe counter stays between the indexed
   bytes and its limit, and the residents fit the DRAM limit unless there is just one.
   */
  lemma {:induction false} BudgetsHold(r: Run, path: Key -> Path)
    ensures var s := End(r, path);
            && s.dramBytes == Total(s.dram) + Overcharges(r, path)
            && 0 <= Total(s.index) <= s.nvmeBytes <= s.nvmeLimit
            && (Total(s.dram) <= s.dramLimit || |s.dram| == 1)
  {
    match r
    case Start(_, _, _) =>
    case Then(before, op) =>
      BudgetsHold(before, path);
      StepBytes(End(before, path), op, path);
  }

  /** Once the drift exceeds the DRAM budget, every put leaves DRAM with nothing but its own entry. */
  lemma DriftEmptiesDram(r: Run, path: Key -> Path, k: Key, data: Data, now: int, io: Key -> Io)
    requires Overcharges(r, path) > End(r, path).dramLimit
    ensures End(Then(r, DoPut(k, data, now, io)), path).dram == map[k := Entry(data, |data|, now)]
  {
    BudgetsHold(r, path);
    EvictedBytes(End(r, path), |data|, path, io);
  }
}
