/**
 The two-tier store of tempo/p2p_cache.py: a DRAM dictionary with LRU eviction, an NVMe index, and
 the files behind it.  MD5 file names are an arbitrary function of the key; clock readings and the
 outcome of file operations are inputs.
 */
module TierStore {
  import opened Basics

  datatype Key = Key(name: string)
  type Path = nat
  datatype Entry = Entry(data: Data, size: nat, lastAccess: int)

  /**
   How a file operation goes: it works, the file cannot be opened, or a write stops half way.  One
   store operation touches the file of a key at most once, so its outcomes are a `Key -> Io`.
   */
  datatype Io = Works | OpenFails | WriteStops(residue: Data)

  /** `order` is the insertion order of the DRAM dictionary. */
  datatype Tier = Tier(
    dramLimit: nat, nvmeLimit: nat,
    order: seq<Key>, dram: map<Key, Entry>, dramBytes: int,
    index: map<Key, Entry>, nvmeBytes: int, files: map<Path, Data>)
  {
    ghost predicate Ordered() {
      forall k :: k in order <==> k in dram
    }
  }

  // ---------------------------------------------------------------------------------------
  // Eviction
  // ---------------------------------------------------------------------------------------

  ghost predicate AllResident(order: seq<Key>, dram: map<Key, Entry>) {
    forall i | 0 <= i < |order| :: order[i] in dram
  }

  /** The first key of least access time, as Python's `min` finds it. */
  function Victim(order: seq<Key>, dram: map<Key, Entry>): (v: Key)
    requires order != [] && AllResident(order, dram)
    ensures v in order
  {
    var n := |order| - 1;
    if n == 0 then order[0]
    else
      var v := Victim(order[..n], dram);
      assert order == order[..n] + [order[n]];
      if dram[order[n]].lastAccess < dram[v].lastAccess then order[n] else v
  }

  /** Position i holds a least recently accessed key, and no earlier position does. */
  ghost predicate LruAt(order: seq<Key>, dram: map<Key, Entry>, i: nat)
    requires AllResident(order, dram)
  {
    i < |order|
    && (forall j | 0 <= j < i :: dram[order[i]].lastAccess < dram[order[j]].lastAccess)
    && (forall j | i <= j < |order| :: dram[order[i]].lastAccess <= dram[order[j]].lastAccess)
  }

  lemma LruExtends(front: seq<Key>, k: Key, dram: map<Key, Entry>, i: nat)
    requires k in dram && AllResident(front, dram) && LruAt(front, dram, i)
    ensures AllResident(front + [k], dram)
    ensures dram[k].lastAccess < dram[front[i]].lastAccess ==> LruAt(front + [k], dram, |front|)
    ensures dram[k].lastAccess >= dram[front[i]].lastAccess ==> LruAt(front + [k], dram, i)
  {
    var o := front + [k];
    assert o[|front|] == k && forall j | 0 <= j < |front| :: o[j] == front[j];
  }

  /** Eviction picks the least recently accessed entry, the oldest inserted of equals. */
  lemma {:induction false} VictimIsLru(order: seq<Key>, dram: map<Key, Entry>)
    requires order != [] && AllResident(order, dram)
    ensures exists i: nat :: LruAt(order, dram, i) && order[i] == Victim(order, dram)
  {
    var n := |order| - 1;
    if n == 0 {
      assert LruAt(order, dram, 0);
    } else {
      var front, k := order[..n], order[n];
      assert front + [k] == order;
      VictimIsLru(front, dram);
      var i: nat :| LruAt(front, dram, i) && front[i] == Victim(front, dram);
      LruExtends(front, k, dram, i);
      assert order[n] == k && order[i] == front[i];
    }
  }

  lemma VictimStep(order: seq<Key>, k: Key, dram: map<Key, Entry>)
    requires order != [] && k in dram && AllResident(order, dram)
    ensures Victim(order + [k], dram) ==
              var v := Victim(order, dram); if dram[k].lastAccess < dram[v].lastAccess then k else v
  {
    assert (order + [k])[..|order|] == order;
  }

  function Without(order: seq<Key>, v: Key): (o: seq<Key>)
    ensures forall k :: k in o <==> k in order && k != v
  {
    if order == [] then []
    else
      var n := |order| - 1;
      assert order == order[..n] + [order[n]];
      Without(order[..n], v) + (if order[n] == v then [] else [order[n]])
  }

  function WriteFile(files: map<Path, Data>, p: Path, data: Data, io: Io): map<Path, Data> {
    match io
    case Works => files[p := data]
    case OpenFails => files
    case WriteStops(residue) => files[p := residue]
  }

  function ReadFile(files: map<Path, Data>, p: Path, io: Io): Option<Data> {
    if io.OpenFails? || p !in files then None else Some(files[p])
  }

  /** Does the spill of the victim fit into the NVMe budget? */
  predicate SpillFits(s: Tier, v: Key)
    requires v in s.dram
  {
    s.nvmeBytes + s.dram[v].size <= s.nvmeLimit
  }

  /** Take a key out of DRAM. */
  function Popped(s: Tier, v: Key): Tier
    requires v in s.dram
  {
    s.(order := Without(s.order, v), dram := s.dram - {v}, dramBytes := s.dramBytes - s.dram[v].size)
  }

  /** Pop a key from DRAM and, if the budget allows, write it to NVMe. */
  function Spilled(s: Tier, v: Key, path: Key -> Path, io: Key -> Io): Tier
    requires v in s.dram
  {
    var e := s.dram[v];
    var t := Popped(s, v);
    if SpillFits(s, v)
    then t.(files := WriteFile(s.files, path(v), e.data, io(v)), index := s.index[v := e],
            nvmeBytes := s.nvmeBytes + e.size)
    else t
  }

  predicate MustEvict(s: Tier, needed: nat) {
    s.dramBytes + needed > s.dramLimit && s.dram != map[]
  }

  lemma OrderNotEmpty(s: Tier)
    requires s.Ordered() && s.dram != map[]
    ensures s.order != []
  {
    var k :| k in s.dram;
    assert k in s.order;
  }

  function Evicted(s: Tier, needed: nat, path: Key -> Path, io: Key -> Io): (t: Tier)
    requires s.Ordered()
    ensures t.Ordered() && !MustEvict(t, needed)
    ensures t.dramLimit == s.dramLimit && t.nvmeLimit == s.nvmeLimit
    ensures t.dram.Keys <= s.dram.Keys
    decreases |s.dram|
  {
    if MustEvict(s, needed) then
      OrderNotEmpty(s);
      Evicted(Spilled(s, Victim(s.order, s.dram), path, io), needed, path, io)
    else s
  }

  lemma EvictedStep(s: Tier, needed: nat, path: Key -> Path, io: Key -> Io)
    requires s.Ordered() && MustEvict(s, needed)
    ensures s.order != []
    ensures var t := Spilled(s, Victim(s.order, s.dram), path, io);
            t.Ordered() && |t.dram| < |s.dram| && Evicted(s, needed, path, io) == Evicted(t, needed, path, io)
  {
    OrderNotEmpty(s);
  }

  // ---------------------------------------------------------------------------------------
  // Operations
  // ---------------------------------------------------------------------------------------

  function Insert(s: Tier, k: Key, e: Entry): Tier {
    s.(order := if k in s.dram then s.order else s.order + [k], dram := s.dram[k := e],
       dramBytes := s.dramBytes + e.size)
  }

  function Put(s: Tier, k: Key, data: Data, now: int, path: Key -> Path, io: Key -> Io): (t: Tier)
    requires s.Ordered()
    ensures t.Ordered()
  {
    Insert(Evicted(s, |data|, path, io), k, Entry(data, |data|, now))
  }

  /** What a reader of k gets right now. */
  function Visible(s: Tier, k: Key, path: Key -> Path, io: Key -> Io): Option<Data> {
    if k in s.dram then Some(s.dram[k].data)
    else if k in s.index then ReadFile(s.files, path(k), io(k))
    else None
  }

  /** A hit in DRAM is touched, a hit in NVMe is promoted, a miss changes nothing. */
  function AfterGet(s: Tier, k: Key, now: int, path: Key -> Path, io: Key -> Io): (t: Tier)
    requires s.Ordered()
    ensures t.Ordered()
  {
    if k in s.dram then s.(dram := s.dram[k := s.dram[k].(lastAccess := now)])
    else
      match Visible(s, k, path, io)
      case None => s
      case Some(data) =>
        var t := Insert(Evicted(s, |data|, path, io), k, Entry(data, |data|, now));
        t.(index := t.index - {k}, nvmeBytes := t.nvmeBytes - s.index[k].size)
  }

  /** Explicit eviction pops the DRAM entry and leaves the counter as it is. */
  function Dropped(s: Tier, k: Key): (t: Tier)
    requires s.Ordered()
    ensures t.Ordered()
  {
    s.(order := Without(s.order, k), dram := s.dram - {k})
  }

  /** `min` over the dictionary: the least recently accessed key. */
  method FindVictim(order: seq<Key>, dram: map<Key, Entry>) returns (v: Key)
    requires order != [] && AllResident(order, dram)
    ensures v == Victim(order, dram)
  {
    v := order[0];
    var i := 1;
    assert order[..1] == [order[0]];
    while i < |order|
      invariant 1 <= i <= |order| && v == Victim(order[..i], dram)
    {
      VictimStep(order[..i], order[i], dram);
      assert order[..i + 1] == order[..i] + [order[i]];
      if dram[order[i]].lastAccess < dram[v].lastAccess {
        v := order[i];
      }
      i := i + 1;
    }
    assert order[..|order|] == order;
  }

  // ---------------------------------------------------------------------------------------
  // The object
  // ---------------------------------------------------------------------------------------

  class LocalTierStore {
    const dramLimit: nat
    const nvmeLimit: nat
    const path: Key -> Path
    var order: seq<Key>
    var dram: map<Key, Entry>
    var dramBytes: int
    var nvmeIndex: map<Key, Entry>
    var nvmeBytes: int
    var files: map<Path, Data>

    function Abs(): Tier
      reads this
    {
      Tier(dramLimit, nvmeLimit, order, dram, dramBytes, nvmeIndex, nvmeBytes, files)
    }

    constructor (dramLimit: nat, nvmeLimit: nat, path: Key -> Path, files: map<Path, Data>)
      ensures Abs() == Tier(dramLimit, nvmeLimit, [], map[], 0, map[], 0, files) && this.path == path
      ensures Abs().Ordered()
    {
      this.dramLimit := dramLimit;
      this.nvmeLimit := nvmeLimit;
      this.path := path;
      order, dram, dramBytes := [], map[], 0;
      nvmeIndex, nvmeBytes := map[], 0;
      this.files := files;
    }

    method Pop(v: Key)
      requires v in dram
      modifies this`order, this`dram, this`dramBytes
      ensures Abs() == old(Popped(Abs(), v))
    {
      dramBytes := dramBytes - dram[v].size;
      order, dram := Without(order, v), dram - {v};
    }

    /** Spill the least recently accessed entry. */
    method SpillVictim(io: Key -> Io)
      requires Abs().Ordered() && order != []
      modifies this
      ensures Abs() == old(Spilled(Abs(), Victim(order, dram), path, io))
    {
      var v := FindVictim(order, dram);
      var e := dram[v];
      Pop(v);
      if nvmeBytes + e.size <= nvmeLimit {
        files := WriteFile(files, path(v), e.data, io(v));
        nvmeIndex := nvmeIndex[v := e];
        nvmeBytes := nvmeBytes + e.size;
      }
    }

    method EvictDramIfNeeded(needed: nat, io: Key -> Io)
      requires Abs().Ordered()
      modifies this
      ensures Abs() == old(Evicted(Abs(), needed, path, io)) && Abs().Ordered()
    {
      ghost var goal := Evicted(Abs(), needed, path, io);
      while dramBytes + needed > dramLimit && dram != map[]
        invariant Abs().Ordered() && Evicted(Abs(), needed, path, io) == goal
        decreases |dram|
      {
        EvictedStep(Abs(), needed, path, io);
        SpillVictim(io);
      }
      assert Evicted(Abs(), needed, path, io) == Abs();
    }

    method PutEntry(k: Key, data: Data, now: int, io: Key -> Io)
      requires Abs().Ordered()
      modifies this
      ensures Abs() == old(Put(Abs(), k, data, now, path, io)) && Abs().Ordered()
    {
      var size := |data|;
      EvictDramIfNeeded(size, io);
      if k !in dram { order := order + [k]; }
      dram := dram[k := Entry(data, size, now)];
      dramBytes := dramBytes + size;
    }

    method GetEntry(k: Key, now: int, io: Key -> Io) returns (r: Option<Data>)
      requires Abs().Ordered()
      modifies this
      ensures r == old(Visible(Abs(), k, path, io))
      ensures Abs() == old(AfterGet(Abs(), k, now, path, io)) && Abs().Ordered()
    {
      if k in dram {
        dram := dram[k := dram[k].(lastAccess := now)];
        return Some(dram[k].data);
      }
      if k in nvmeIndex {
        var e := nvmeIndex[k];
        r := ReadFile(files, path(k), io(k));
        if r.Some? {
          EvictDramIfNeeded(|r.value|, io);
          if k !in dram { order := order + [k]; }
          dram := dram[k := Entry(r.value, |r.value|, now)];
          dramBytes := dramBytes + |r.value|;
          nvmeIndex := nvmeIndex - {k};
          nvmeBytes := nvmeBytes - e.size;
        }
        return;
      }
      return None;
    }

    method Evict(k: Key)
      requires Abs().Ordered()
      modifies this
      ensures Abs() == old(Dropped(Abs(), k)) && Abs().Ordered()
    {
      order, dram := Without(order, k), dram - {k};
    }
  }
}
