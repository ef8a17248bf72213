/**
 The two-tier store against a plain map: exactly when each call keeps them equal, what a whole run
 of such calls answers, and what a hit means when a spill was rejected.
 */
module TierMap {
  import opened Basics
  import opened TierStore
  import opened TierTheorems

  /** No two of the given keys share a file name. */
  ghost predicate Apart(path: Key -> Path, keys: set<Key>) {
    forall j, k | j in keys && k in keys && path(j) == path(k) :: j == k
  }

  /** The store holds none but the given keys. */
  ghost predicate Only(s: Tier, keys: set<Key>) {
    s.dram.Keys <= keys && s.index.Keys <= keys
  }

  ghost predicate AllWork(io: Key -> Io) {
    forall k :: io(k) == Works
  }

  ghost predicate Working(op: Op) {
    match op
    case DoPut(_, _, _, io) => AllWork(io)
    case DoGet(_, _, io) => AllWork(io)
    case DoDrop(_) => true
  }

  /** Every indexed entry has its data in its file. */
  ghost predicate Backed(s: Tier, path: Key -> Path) {
    forall k | k in s.index :: path(k) in s.files && s.files[path(k)] == s.index[k].data
  }

  /** The value the two dictionaries hold for a key, DRAM first. */
  function Held(s: Tier, k: Key): Option<Data> {
    if k in s.dram then Some(s.dram[k].data)
    else if k in s.index then Some(s.index[k].data)
    else None
  }

  lemma VisibleIsHeld(s: Tier, k: Key, path: Key -> Path, io: Key -> Io)
    requires Backed(s, path) && AllWork(io)
    ensures Visible(s, k, path, io) == Held(s, k)
  {
  }

  // ---------------------------------------------------------------------------------------
  // Files keep up with the index
  // ---------------------------------------------------------------------------------------

  lemma SpilledBacked(s: Tier, v: Key, path: Key -> Path, io: Key -> Io, keys: set<Key>)
    requires v in s.dram && Backed(s, path) && Only(s, keys) && Apart(path, keys) && AllWork(io)
    ensures Backed(Spilled(s, v, path, io), path) && Only(Spilled(s, v, path, io), keys)
  {
    var t := Spilled(s, v, path, io);
    forall k | k in t.index ensures path(k) in t.files && t.files[path(k)] == t.index[k].data {
      assert io(v) == Works;
      assert k in keys && v in keys;
    }
  }

  lemma {:induction false} EvictedBacked(s: Tier, needed: nat, path: Key -> Path, io: Key -> Io, keys: set<Key>)
    requires s.Ordered() && Backed(s, path) && Only(s, keys) && Apart(path, keys) && AllWork(io)
    ensures Backed(Evicted(s, needed, path, io), path) && Only(Evicted(s, needed, path, io), keys)
    decreases |s.dram|
  {
    if MustEvict(s, needed) {
      EvictedStep(s, needed, path, io);
      var v := Victim(s.order, s.dram);
      SpilledBacked(s, v, path, io, keys);
      EvictedBacked(Spilled(s, v, path, io), needed, path, io, keys);
    }
  }

  lemma StepBacked(s: Tier, op: Op, path: Key -> Path, keys: set<Key>)
    requires s.Ordered() && Backed(s, path) && Only(s, keys) && Apart(path, keys) && Working(op)
    requires op.DoPut? ==> op.key in keys
    ensures Backed(Step(s, op, path), path) && Only(Step(s, op, path), keys)
  {
    match op
    case DoPut(k, data, now, io) => EvictedBacked(s, |data|, path, io, keys);
    case DoGet(k, now, io) =>
      if k !in s.dram && Visible(s, k, path, io).Some? {
        EvictedBacked(s, |Visible(s, k, path, io).value|, path, io, keys);
      }
    case DoDrop(k) =>
  }

  // ---------------------------------------------------------------------------------------
  // When eviction forgets a value
  // ---------------------------------------------------------------------------------------

  /** A spill loses the victim's value unless it fits or NVMe already has the same bytes. */
  predicate SpillSafe(s: Tier, v: Key)
    requires v in s.dram
  {
    SpillFits(s, v) || (v in s.index && s.index[v].data == s.dram[v].data)
  }

  /** If eviction reaches key k, its spill is safe. */
  predicate KeyKept(s: Tier, needed: nat, path: Key -> Path, io: Key -> Io, k: Key)
    requires s.Ordered()
    decreases |s.dram|
  {
    if MustEvict(s, needed) then
      EvictedStep(s, needed, path, io);
      var v := Victim(s.order, s.dram);
      if v == k then SpillSafe(s, k) else KeyKept(Spilled(s, v, path, io), needed, path, io, k)
    else true
  }

  lemma SpilledHeld(s: Tier, v: Key, path: Key -> Path, io: Key -> Io, k: Key)
    requires v in s.dram
    ensures Held(Spilled(s, v, path, io), k) == Held(s, k) <==> (k == v ==> SpillSafe(s, v))
  {
  }

  lemma HeldElsewhere(s: Tier, needed: nat, path: Key -> Path, io: Key -> Io, k: Key)
    requires s.Ordered() && k !in s.dram
    ensures Held(Evicted(s, needed, path, io), k) == Held(s, k)
  {
    EvictedElsewhere(s, needed, path, io, k);
  }

  lemma {:induction false} KeptExactlyWhenSafe(s: Tier, needed: nat, path: Key -> Path, io: Key -> Io, k: Key)
    requires s.Ordered()
    ensures KeyKept(s, needed, path, io, k) <==> Held(Evicted(s, needed, path, io), k) == Held(s, k)
    decreases |s.dram|
  {
    if MustEvict(s, needed) {
      EvictedStep(s, needed, path, io);
      var v := Victim(s.order, s.dram);
      var t := Spilled(s, v, path, io);
      SpilledHeld(s, v, path, io, k);
      if v == k {
        HeldElsewhere(t, needed, path, io, k);
      } else {
        KeptExactlyWhenSafe(t, needed, path, io, k);
      }
    }
  }

  /** A key outside DRAM is never at risk. */
  lemma {:induction false} OutsideIsKept(s: Tier, needed: nat, path: Key -> Path, io: Key -> Io, k: Key)
    requires s.Ordered() && k !in s.dram
    ensures KeyKept(s, needed, path, io, k)
  {
    EvictedElsewhere(s, needed, path, io, k);
    KeptExactlyWhenSafe(s, needed, path, io, k);
  }

  // ---------------------------------------------------------------------------------------
  // Agreement with a map
  // ---------------------------------------------------------------------------------------

  function Lookup(m: map<Key, Data>, k: Key): Option<Data> {
    if k in m then Some(m[k]) else None
  }

  ghost predicate Agrees(s: Tier, m: map<Key, Data>) {
    forall k :: Held(s, k) == Lookup(m, k)
  }

  function Updated(m: map<Key, Data>, op: Op): map<Key, Data> {
    match op
    case DoPut(k, data, _, _) => m[k := data]
    case DoGet(_, _, _) => m
    case DoDrop(k) => m - {k}
  }

  /**
   What a call must meet to act as on a map: its evictions lose nothing (a put may lose the value it
   replaces), and a dropped key has no NVMe copy to come back.
   */
  ghost predicate OpSafe(s: Tier, op: Op, path: Key -> Path)
    requires s.Ordered()
  {
    match op
    case DoPut(k, data, _, io) => forall x :: x == k || KeyKept(s, |data|, path, io, x)
    case DoGet(k, _, io) =>
      k !in s.dram && k in s.index ==> forall x :: KeyKept(s, |s.index[k].data|, path, io, x)
    case DoDrop(k) => k !in s.index
  }

  lemma PutHeld(s: Tier, k: Key, data: Data, now: int, path: Key -> Path, io: Key -> Io, x: Key)
    requires s.Ordered()
    ensures Held(Put(s, k, data, now, path, io), x)
         == if x == k then Some(data) else Held(Evicted(s, |data|, path, io), x)
  {
  }

  lemma GetHeld(s: Tier, k: Key, now: int, path: Key -> Path, io: Key -> Io, x: Key)
    requires s.Ordered() && Backed(s, path) && AllWork(io)
    ensures Held(AfterGet(s, k, now, path, io), x)
         == if k !in s.dram && k in s.index && x != k
            then Held(Evicted(s, |s.index[k].data|, path, io), x) else Held(s, x)
  {
    VisibleIsHeld(s, k, path, io);
    if k !in s.dram && k in s.index { EvictedElsewhere(s, |s.index[k].data|, path, io, k); }
  }

  lemma PutAgrees(s: Tier, m: map<Key, Data>, op: Op, path: Key -> Path)
    requires s.Ordered() && op.DoPut? && Agrees(s, m)
    ensures Agrees(Step(s, op, path), Updated(m, op)) <==> OpSafe(s, op, path)
  {
    var t, n := Step(s, op, path), Updated(m, op);
    forall x ensures Held(t, x) == Lookup(n, x)
                 <==> (x == op.key || KeyKept(s, |op.data|, path, op.io, x)) {
      PutHeld(s, op.key, op.data, op.now, path, op.io, x);
      KeptExactlyWhenSafe(s, |op.data|, path, op.io, x);
    }
  }

  lemma GetAgrees(s: Tier, m: map<Key, Data>, op: Op, path: Key -> Path)
    requires s.Ordered() && op.DoGet? && Agrees(s, m) && Backed(s, path) && Working(op)
    ensures Agrees(Step(s, op, path), Updated(m, op)) <==> OpSafe(s, op, path)
  {
    var t, k := Step(s, op, path), op.key;
    var moves := k !in s.dram && k in s.index;
    forall x ensures Held(t, x) == Lookup(m, x)
                 <==> (moves ==> KeyKept(s, |s.index[k].data|, path, op.io, x)) {
      GetHeld(s, k, op.now, path, op.io, x);
      if moves {
        KeptExactlyWhenSafe(s, |s.index[k].data|, path, op.io, x);
        OutsideIsKept(s, |s.index[k].data|, path, op.io, k);
      }
    }
  }

  lemma DropAgrees(s: Tier, m: map<Key, Data>, op: Op, path: Key -> Path)
    requires s.Ordered() && op.DoDrop? && Agrees(s, m)
    ensures Agrees(Step(s, op, path), Updated(m, op)) <==> OpSafe(s, op, path)
  {
    var t, n := Step(s, op, path), Updated(m, op);
    forall x | x != op.key ensures Held(t, x) == Lookup(n, x) {
      assert Held(t, x) == Held(s, x);
    }
    assert Held(t, op.key) == Lookup(n, op.key) <==> op.key !in s.index;
  }

  /** One call on a store that agrees with a map agrees with it afterwards exactly when it is safe. */
  lemma StepAgrees(s: Tier, m: map<Key, Data>, op: Op, path: Key -> Path)
    requires s.Ordered() && Agrees(s, m) && Backed(s, path) && Working(op)
    ensures Agrees(Step(s, op, path), Updated(m, op)) <==> OpSafe(s, op, path)
  {
    match op
    case DoPut(_, _, _, _) => PutAgrees(s, m, op, path);
    case DoGet(_, _, _) => GetAgrees(s, m, op, path);
    case DoDrop(_) => DropAgrees(s, m, op, path);
  }

  /** A spill that fits is safe, so a store whose budget takes every spill is a map. */
  lemma {:induction false} RoomIsEnough(s: Tier, needed: nat, path: Key -> Path, io: Key -> Io, k: Key)
    requires s.Ordered() && s.nvmeBytes + Total(s.dram) <= s.nvmeLimit
    ensures KeyKept(s, needed, path, io, k)
    decreases |s.dram|
  {
    if MustEvict(s, needed) {
      EvictedStep(s, needed, path, io);
      var v := Victim(s.order, s.dram);
      TotalRemove(s.dram, v);
      if v != k { RoomIsEnough(Spilled(s, v, path, io), needed, path, io, k); }
    }
  }

  // ---------------------------------------------------------------------------------------
  // Whole runs
  // ---------------------------------------------------------------------------------------

  ghost predicate IoWorks(r: Run) {
    match r
    case Start(_, _, _) => true
    case Then(before, op) => IoWorks(before) && Working(op)
  }

  ghost predicate Safe(r: Run, path: Key -> Path) {
    match r
    case Start(_, _, _) => true
    case Then(before, op) => Safe(before, path) && OpSafe(End(before, path), op, path)
  }

  /** The map that the same calls would have built. */
  function Map(r: Run): map<Key, Data> {
    match r
    case Start(_, _, _) => map[]
    case Then(before, op) => Updated(Map(before), op)
  }

  /** The keys put in a run. */
  function PutKeys(r: Run): set<Key> {
    match r
    case Start(_, _, _) => {}
    case Then(before, op) => PutKeys(before) + if op.DoPut? then {op.key} else {}
  }

  lemma {:induction false} FilesKeepUp(r: Run, path: Key -> Path, keys: set<Key>)
    requires PutKeys(r) <= keys && Apart(path, keys) && IoWorks(r)
    ensures Backed(End(r, path), path) && Only(End(r, path), keys)
  {
    match r
    case Start(_, _, _) =>
    case Then(before, op) =>
      FilesKeepUp(before, path, keys);
      StepBacked(End(before, path), op, path, keys);
  }

  /** The store agrees with its map after every call. */
  ghost predicate AgreesThroughout(r: Run, path: Key -> Path) {
    Agrees(End(r, path), Map(r)) && (r.Then? ==> AgreesThroughout(r.before, path))
  }

  lemma {:induction false} AgreesWhileSafe(r: Run, path: Key -> Path, keys: set<Key>)
    requires PutKeys(r) <= keys && Apart(path, keys) && IoWorks(r)
    ensures AgreesThroughout(r, path) <==> Safe(r, path)
  {
    match r
    case Start(_, _, _) =>
    case Then(before, op) =>
      AgreesWhileSafe(before, path, keys);
      if AgreesThroughout(before, path) {
        FilesKeepUp(before, path, keys);
        StepAgrees(End(before, path), Map(before), op, path);
      }
  }

  /** Exactly the safe runs agree with their map at every moment. */
  lemma AgreesExactlyWhenSafe(r: Run, path: Key -> Path)
    requires Apart(path, PutKeys(r)) && IoWorks(r)
    ensures AgreesThroughout(r, path) <==> Safe(r, path)
  {
    AgreesWhileSafe(r, path, PutKeys(r));
  }

  /**
   The store refines a map: after any safe run of puts, gets, spills, promotions and drops, a get
   answers the last value put under its key, or nothing if there is none.
   */
  lemma TheStoreIsAMap(r: Run, path: Key -> Path, k: Key, io: Key -> Io)
    requires Apart(path, PutKeys(r)) && IoWorks(r) && Safe(r, path) && AllWork(io)
    ensures Visible(End(r, path), k, path, io) == Lookup(Map(r), k)
  {
    AgreesExactlyWhenSafe(r, path);
    FilesKeepUp(r, path, PutKeys(r));
    VisibleIsHeld(End(r, path), k, path, io);
  }

  // ---------------------------------------------------------------------------------------
  // What a hit means in any run
  // ---------------------------------------------------------------------------------------

  predicate EverPut(r: Run, k: Key, d: Data) {
    match r
    case Start(_, _, _) => false
    case Then(before, op) => EverPut(before, k, d) || (op.DoPut? && op.key == k && op.data == d)
  }

  function LastPut(r: Run, k: Key): Option<Data> {
    match r
    case Start(_, _, _) => None
    case Then(before, op) => if op.DoPut? && op.key == k then Some(op.data) else LastPut(before, k)
  }

  /** Either dictionary holds data d under key k. */
  predicate Somewhere(s: Tier, k: Key, d: Data) {
    (k in s.dram && s.dram[k].data == d) || (k in s.index && s.index[k].data == d)
  }

  lemma {:induction false} EvictedInvents(s: Tier, needed: nat, path: Key -> Path, io: Key -> Io, k: Key, d: Data)
    requires s.Ordered()
    ensures Somewhere(Evicted(s, needed, path, io), k, d) ==> Somewhere(s, k, d)
    decreases |s.dram|
  {
    if MustEvict(s, needed) {
      EvictedStep(s, needed, path, io);
      EvictedInvents(Spilled(s, Victim(s.order, s.dram), path, io), needed, path, io, k, d);
    }
  }

  lemma StepInvents(s: Tier, op: Op, path: Key -> Path, k: Key, d: Data)
    requires s.Ordered() && Backed(s, path) && Working(op) && Somewhere(Step(s, op, path), k, d)
    ensures Somewhere(s, k, d) || (op.DoPut? && op.key == k && op.data == d)
  {
    match op
    case DoPut(j, data, now, io) => EvictedInvents(s, |data|, path, io, k, d);
    case DoGet(j, now, io) =>
      VisibleIsHeld(s, j, path, io);
      if j !in s.dram && j in s.index { EvictedInvents(s, |s.index[j].data|, path, io, k, d); }
    case DoDrop(_) =>
  }

  lemma {:induction false} NothingIsInvented(r: Run, path: Key -> Path, k: Key, d: Data, keys: set<Key>)
    requires PutKeys(r) <= keys && Apart(path, keys) && IoWorks(r) && Somewhere(End(r, path), k, d)
    ensures EverPut(r, k, d)
  {
    match r
    case Start(_, _, _) =>
    case Then(before, op) =>
      FilesKeepUp(before, path, keys);
      StepInvents(End(before, path), op, path, k, d);
      if Somewhere(End(before, path), k, d) { NothingIsInvented(before, path, k, d, keys); }
  }

  /** Whatever was rejected or dropped, a hit is a value once put under that very key. */
  lemma HitsWereOncePut(r: Run, path: Key -> Path, k: Key, io: Key -> Io)
    requires Apart(path, PutKeys(r)) && IoWorks(r) && AllWork(io)
    ensures var v := Visible(End(r, path), k, path, io); v.Some? ==> EverPut(r, k, v.value)
  {
    FilesKeepUp(r, path, PutKeys(r));
    VisibleIsHeld(End(r, path), k, path, io);
    var v := Visible(End(r, path), k, path, io);
    if v.Some? { NothingIsInvented(r, path, k, v.value, PutKeys(r)); }
  }

  lemma {:induction false} LastPutWasPut(r: Run, k: Key, d: Data)
    ensures EverPut(r, k, d) ==> LastPut(r, k).Some?
    ensures LastPut(r, k).Some? ==> EverPut(r, k, LastPut(r, k).value)
  {
    match r
    case Start(_, _, _) =>
    case Then(before, _) =>
      LastPutWasPut(before, k, d);
  }

  /** So with keys that always carry the same value, a hit is right in every run. */
  lemma WriteOnceHitsAreRight(r: Run, path: Key -> Path, k: Key, io: Key -> Io)
    requires Apart(path, PutKeys(r)) && IoWorks(r) && AllWork(io)
    requires forall c, d :: EverPut(r, k, c) && EverPut(r, k, d) ==> c == d
    ensures var v := Visible(End(r, path), k, path, io); v.Some? ==> LastPut(r, k) == v
  {
    HitsWereOncePut(r, path, k, io);
    var v := Visible(End(r, path), k, path, io);
    if v.Some? { LastPutWasPut(r, k, v.value); }
  }

  // ---------------------------------------------------------------------------------------
  // A stale answer
  // ---------------------------------------------------------------------------------------

  function Smooth(k: Key): Io { Works }

  function Put1(r: Run, name: string, b: Byte): Run {
    Then(r, DoPut(Key(name), [b], 0, Smooth))
  }

  /** A store with room for one byte, full with key v. */
  predicate Lone(s: Tier, v: Key, b: Byte) {
    s.order == [v] && s.dram == map[v := Entry([b], 1, 0)] && s.dramBytes == 1
    && s.dramLimit == 1 && s.nvmeLimit == 1
  }

  lemma LoneSpill(s: Tier, v: Key, b: Byte, path: Key -> Path)
    requires Lone(s, v, b) && s.Ordered()
    ensures s.order != [] && v in s.dram && Victim(s.order, s.dram) == v && MustEvict(s, 1)
    ensures var t := Spilled(s, v, path, Smooth); t.order == [] && t.dram == map[] && t.dramBytes == 0
  {
    assert v in s.dram;
    assert s.order[..0] == [] && Without(s.order, v) == Without([], v) + [];
    assert s.dram - {v} == map[];
  }

  lemma LonePut(s: Tier, k: Key, c: Byte, path: Key -> Path, v: Key, b: Byte)
    requires Lone(s, v, b) && s.Ordered()
    ensures Put(s, k, [c], 0, path, Smooth) == Insert(Spilled(s, v, path, Smooth), k, Entry([c], 1, 0))
    ensures Lone(Put(s, k, [c], 0, path, Smooth), k, c)
  {
    var t := Spilled(s, v, path, Smooth);
    LoneSpill(s, v, b, path);
    EvictedStep(s, 1, path, Smooth);
    assert Evicted(t, 1, path, Smooth) == t;
  }

  lemma FirstPut(path: Key -> Path, k: Key, b: Byte)
    ensures var t := Put(End(Start(1, 1, map[]), path), k, [b], 0, path, Smooth);
            Lone(t, k, b) && t.index == map[] && t.nvmeBytes == 0
  {
  }

  /** NVMe is full with the value b of key a. */
  predicate OldCopy(s: Tier, path: Key -> Path, a: Key, b: Byte) {
    s.nvmeBytes == 1 && a in s.index && path(a) in s.files && s.files[path(a)] == [b]
  }

  lemma CopyIsMade(s: Tier, path: Key -> Path, a: Key, b: Byte, k: Key, c: Byte)
    requires s.Ordered() && Lone(s, a, b) && s.index == map[] && s.nvmeBytes == 0
    ensures OldCopy(Put(s, k, [c], 0, path, Smooth), path, a, b)
  {
    LonePut(s, k, c, path, a, b);
  }

  lemma CopyStays(s: Tier, path: Key -> Path, a: Key, b: Byte, v: Key, d: Byte, k: Key, c: Byte)
    requires s.Ordered() && Lone(s, v, d) && OldCopy(s, path, a, b)
    ensures OldCopy(Put(s, k, [c], 0, path, Smooth), path, a, b)
  {
    LonePut(s, k, c, path, v, d);
  }

  lemma OldCopySurfaces(s: Tier, path: Key -> Path, a: Key, b: Key, c: Key)
    requires a != c && s.Ordered() && Lone(s, a, 1) && s.index == map[] && s.nvmeBytes == 0
    ensures var t := Put(Put(Put(s, b, [2], 0, path, Smooth), a, [3], 0, path, Smooth), c, [4], 0, path, Smooth);
            Lone(t, c, 4) && OldCopy(t, path, a, 1)
  {
    LonePut(s, b, 2, path, a, 1);
    CopyIsMade(s, path, a, 1, b, 2);
    var s2 := Put(s, b, [2], 0, path, Smooth);
    LonePut(s2, a, 3, path, b, 2);
    CopyStays(s2, path, a, 1, b, 2, a, 3);
    var s3 := Put(s2, a, [3], 0, path, Smooth);
    LonePut(s3, c, 4, path, a, 3);
    CopyStays(s3, path, a, 1, a, 3, c, 4);
  }

  /**
   One byte of DRAM and one of NVMe: a is put and spilled, put again, and its second spill is
   rejected.  The next get answers the first value although every file operation worked.
   */
  lemma RejectedSpillShowsOldValue(path: Key -> Path)
    ensures var r := Put1(Put1(Put1(Put1(Start(1, 1, map[]), "a", 1), "b", 2), "a", 3), "c", 4);
            && Visible(End(r, path), Key("a"), path, Smooth) == Some([1])
            && LastPut(r, Key("a")) == Some([3])
  {
    assert Key("a") != Key("c") by {
      assert "a"[0] != "c"[0];
    }
    var r1 := Put1(Start(1, 1, map[]), "a", 1);
    FirstPut(path, Key("a"), 1);
    OldCopySurfaces(End(r1, path), path, Key("a"), Key("b"), Key("c"));
  }
}
