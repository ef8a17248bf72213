/**
 One rank of the peer-to-peer cache of tempo/p2p_cache.py: the ring says who owns a key, the rank's
 own share goes to its two-tier store, and what the other ranks answer is an input.
 */
module P2PCache {
  import opened Basics
  import opened TierStore
  import opened TierTheorems
  import opened TierMap
  import HashRing

  type Rank = HashRing.Rank

  /** The clock reading and the file outcomes met while serving one owner. */
  datatype Env = Env(now: int, io: Key -> Io)

  // ---------------------------------------------------------------------------------------
  // Put
  // ---------------------------------------------------------------------------------------

  /** The run of the local store after putting for each owner that is local. */
  function PutRun(r: Run, owners: seq<Rank>, local: Rank -> bool, k: Key, data: Data, env: nat -> Env): Run {
    if owners == [] then r
    else
      var n := |owners| - 1;
      var q := PutRun(r, owners[..n], local, k, data, env);
      if local(owners[n]) then Then(q, DoPut(k, data, env(n).now, env(n).io)) else q
  }

  /** The ranks reported: this rank for each local owner, and the owners that were reached. */
  function StoredOn(owners: seq<Rank>, local: Rank -> bool, self: Rank, reached: Rank -> bool): seq<Rank> {
    if owners == [] then []
    else
      var n := |owners| - 1;
      var q := StoredOn(owners[..n], local, self, reached);
      if local(owners[n]) then q + [self] else if reached(owners[n]) then q + [owners[n]] else q
  }

  lemma {:induction false} NoLocalPut(
    r: Run, owners: seq<Rank>, local: Rank -> bool, k: Key, data: Data, env: nat -> Env)
    requires forall i | 0 <= i < |owners| :: !local(owners[i])
    ensures PutRun(r, owners, local, k, data, env) == r
  {
    if owners != [] { NoLocalPut(r, owners[..|owners| - 1], local, k, data, env); }
  }

  /** The last put is the one of the last local owner, in the circumstances met there. */
  lemma {:induction false} LastPutIsTheLastLocal(
    r: Run, owners: seq<Rank>, i: nat, local: Rank -> bool, k: Key, data: Data, env: nat -> Env)
    requires i < |owners| && local(owners[i]) && forall j | i < j < |owners| :: !local(owners[j])
    ensures PutRun(r, owners, local, k, data, env)
         == Then(PutRun(r, owners[..i], local, k, data, env), DoPut(k, data, env(i).now, env(i).io))
  {
    var n := |owners| - 1;
    if i < n {
      LastPutIsTheLastLocal(r, owners[..n], i, local, k, data, env);
      assert owners[..n][..i] == owners[..i];
    }
  }

  /** The report goes through the owners in their order. */
  lemma {:induction false} ReportSplits(
    a: seq<Rank>, b: seq<Rank>, local: Rank -> bool, self: Rank, reached: Rank -> bool)
    ensures StoredOn(a + b, local, self, reached)
            == StoredOn(a, local, self, reached) + StoredOn(b, local, self, reached)
  {
    if b == [] {
      assert a + b == a;
    } else {
      var n := |b| - 1;
      ReportSplits(a, b[..n], local, self, reached);
      assert (a + b)[..|a| + n] == a + b[..n];
    }
  }

  /** A rank is reported exactly if it is this one and some owner is local, or an owner that is not local
      and was reached. */
  lemma {:induction false} ReportedExactlyWhen(
    owners: seq<Rank>, local: Rank -> bool, self: Rank, reached: Rank -> bool, x: Rank)
    ensures x in StoredOn(owners, local, self, reached)
            <==> (x == self && SomeLocal(owners, local)) || (x in owners && !local(x) && reached(x))
  {
    if owners != [] {
      var n := |owners| - 1;
      ReportedExactlyWhen(owners[..n], local, self, reached, x);
      assert owners == owners[..n] + [owners[n]];
      SomeLocalStep(owners, local);
    }
  }

  ghost predicate SomeLocal(owners: seq<Rank>, local: Rank -> bool) {
    exists i | 0 <= i < |owners| :: local(owners[i])
  }

  lemma SomeLocalStep(owners: seq<Rank>, local: Rank -> bool)
    requires owners != []
    ensures SomeLocal(owners, local)
       <==> SomeLocal(owners[..|owners| - 1], local) || local(owners[|owners| - 1])
  {
    var n := |owners| - 1;
    if i :| 0 <= i < n && local(owners[i]) { assert local(owners[..n][i]); }
  }

  /** The owners that are neither local nor reached. */
  ghost function Unreached(owners: seq<Rank>, local: Rank -> bool, reached: Rank -> bool): set<nat> {
    set i: nat | i < |owners| && !local(owners[i]) && !reached(owners[i])
  }

  lemma UnreachedStep(owners: seq<Rank>, local: Rank -> bool, reached: Rank -> bool)
    requires owners != []
    ensures var n := |owners| - 1;
            var was, all := Unreached(owners[..n], local, reached), Unreached(owners, local, reached);
            |all| == |was| + if local(owners[n]) || reached(owners[n]) then 0 else 1
  {
    var n := |owners| - 1;
    var was := Unreached(owners[..n], local, reached);
    assert Unreached(owners, local, reached) == if local(owners[n]) || reached(owners[n]) then was else was + {n};
  }

  /** Every owner but those is reported once. */
  lemma {:induction false} ReportedOnce(owners: seq<Rank>, local: Rank -> bool, self: Rank, reached: Rank -> bool)
    ensures |StoredOn(owners, local, self, reached)| == |owners| - |Unreached(owners, local, reached)|
  {
    if owners != [] {
      var n := |owners| - 1;
      ReportedOnce(owners[..n], local, self, reached);
      UnreachedStep(owners, local, reached);
    }
  }

  /** After a put with a local owner the value is the last put and the one a reader sees. */
  lemma {:induction false} PutIsVisible(
    r: Run, owners: seq<Rank>, local: Rank -> bool, k: Key, data: Data, env: nat -> Env,
    path: Key -> Path, io: Key -> Io)
    requires exists i :: 0 <= i < |owners| && local(owners[i])
    ensures var q := PutRun(r, owners, local, k, data, env);
            LastPut(q, k) == Some(data) && Visible(End(q, path), k, path, io) == Some(data)
  {
    var n := |owners| - 1;
    if !local(owners[n]) {
      var i :| 0 <= i < |owners| && local(owners[i]);
      assert owners[..n][i] == owners[i];
      PutIsVisible(r, owners[..n], local, k, data, env, path, io);
    }
  }

  /** No other key's last value is touched. */
  lemma {:induction false} PutLeavesOthers(
    r: Run, owners: seq<Rank>, local: Rank -> bool, k: Key, data: Data, env: nat -> Env, other: Key)
    requires other != k
    ensures LastPut(PutRun(r, owners, local, k, data, env), other) == LastPut(r, other)
  {
    if owners != [] { PutLeavesOthers(r, owners[..|owners| - 1], local, k, data, env, other); }
  }

  /** The bytes of m copies. */
  function Copies(m: nat, size: nat): nat {
    if m == 0 then 0 else Copies(m - 1, size) + size
  }

  ghost predicate AllLocal(owners: seq<Rank>, local: Rank -> bool) {
    forall i | 0 <= i < |owners| :: local(owners[i])
  }

  /** The m-th copy has just been put: m copies are charged, one is there. */
  ghost predicate Charged(s: Tier, t: Tier, k: Key, size: nat, m: nat) {
    t.dramBytes == s.dramBytes + Copies(m, size) && t.dramLimit == s.dramLimit
    && SizeAt(t.dram, k) == if m == 0 then 0 else size
  }

  lemma OneMoreCharge(s: Tier, t: Tier, k: Key, data: Data, now: int, path: Key -> Path, io: Key -> Io, m: nat)
    requires t.Ordered() && Charged(s, t, k, |data|, m) && s.dramBytes + Copies(m + 1, |data|) <= s.dramLimit
    ensures Charged(s, Put(t, k, data, now, path, io), k, |data|, m + 1)
    ensures Overcharge(t, DoPut(k, data, now, io), path) == if m == 0 then 0 else |data|
  {
    RoomyPut(t, k, data, now, path, io);
  }

  /**
   In simulation mode every owner is local, so a new key is put once per replica, and each put after
   the first charges its bytes to the DRAM counter once more.
   */
  lemma {:induction false} ReplicasAreChargedAgain(
    r: Run, owners: seq<Rank>, local: Rank -> bool, k: Key, data: Data, env: nat -> Env, path: Key -> Path)
    requires AllLocal(owners, local) && k !in End(r, path).dram
    requires End(r, path).dramBytes + Copies(|owners|, |data|) <= End(r, path).dramLimit
    ensures var q := PutRun(r, owners, local, k, data, env);
            && Charged(End(r, path), End(q, path), k, |data|, |owners|)
            && Overcharges(q, path)
               == Overcharges(r, path) + if owners == [] then 0 else Copies(|owners| - 1, |data|)
  {
    if owners != [] {
      var n := |owners| - 1;
      var front := owners[..n];
      assert AllLocal(front, local) by { assert forall i | 0 <= i < n :: front[i] == owners[i]; }
      assert local(owners[n]);
      ReplicasAreChargedAgain(r, front, local, k, data, env, path);
      var q := PutRun(r, front, local, k, data, env);
      OneMoreCharge(End(r, path), End(q, path), k, data, env(n).now, path, env(n).io, n);
    }
  }

  lemma RoomyPut(s: Tier, k: Key, data: Data, now: int, path: Key -> Path, io: Key -> Io)
    requires s.Ordered() && s.dramBytes + |data| <= s.dramLimit
    ensures var t := Put(s, k, data, now, path, io);
            && t.dramBytes == s.dramBytes + |data| && t.dramLimit == s.dramLimit
            && k in t.dram && t.dram[k].size == |data|
            && Overcharge(s, DoPut(k, data, now, io), path) == SizeAt(s.dram, k)
  {
  }

  // ---------------------------------------------------------------------------------------
  // Get
  // ---------------------------------------------------------------------------------------

  /** What the i-th owner would answer. */
  function Answer(s: Tier, owners: seq<Rank>, i: nat, local: Rank -> bool, k: Key, path: Key -> Path,
                  env: nat -> Env, remote: Rank -> Option<Data>): Option<Data>
    requires i < |owners|
  {
    if local(owners[i]) then Visible(s, k, path, env(i).io) else remote(owners[i])
  }

  /** None of the first n owners has the key. */
  ghost predicate AllMiss(s: Tier, owners: seq<Rank>, n: nat, local: Rank -> bool, k: Key, path: Key -> Path,
                          env: nat -> Env, remote: Rank -> Option<Data>)
    requires n <= |owners|
  {
    forall j | 0 <= j < n :: Answer(s, owners, j, local, k, path, env, remote) == None
  }

  /** r is the answer of owner `from`, the first that has the key, or there is none. */
  ghost predicate FirstHit(s: Tier, owners: seq<Rank>, from: nat, r: Option<Data>, local: Rank -> bool, k: Key,
                           path: Key -> Path, env: nat -> Env, remote: Rank -> Option<Data>)
  {
    from <= |owners| && AllMiss(s, owners, from, local, k, path, env, remote)
    && if from == |owners| then r == None
       else r.Some? && r == Answer(s, owners, from, local, k, path, env, remote)
  }

  /** An owner that is local answers what the local store shows, any other what it sends. */
  ghost predicate Has(s: Tier, owners: seq<Rank>, i: nat, rank: Rank, simulation: bool, k: Key, path: Key -> Path,
                      env: nat -> Env, remote: Rank -> Option<Data>)
    requires i < |owners|
  {
    if owners[i] == rank || simulation then Visible(s, k, path, env(i).io).Some? else remote(owners[i]).Some?
  }

  ghost predicate SomeHas(s: Tier, owners: seq<Rank>, rank: Rank, simulation: bool, k: Key, path: Key -> Path,
                          env: nat -> Env, remote: Rank -> Option<Data>)
  {
    exists i: nat | i < |owners| :: Has(s, owners, i, rank, simulation, k, path, env, remote)
  }

  /** A get answers exactly if some owner has the key. */
  lemma HitExactlyWhen(s: Tier, owners: seq<Rank>, from: nat, r: Option<Data>, local: Rank -> bool, rank: Rank,
                       simulation: bool, k: Key, path: Key -> Path, env: nat -> Env, remote: Rank -> Option<Data>)
    requires FirstHit(s, owners, from, r, local, k, path, env, remote)
    requires forall o :: local(o) <==> o == rank || simulation
    ensures r.Some? <==> SomeHas(s, owners, rank, simulation, k, path, env, remote)
  {
    forall i: nat | i < |owners|
      ensures Has(s, owners, i, rank, simulation, k, path, env, remote)
              <==> Answer(s, owners, i, local, k, path, env, remote).Some?
    {
      assert local(owners[i]) <==> owners[i] == rank || simulation;
    }
  }

  lemma MissChangesNothing(s: Tier, k: Key, now: int, path: Key -> Path, io: Key -> Io)
    requires s.Ordered() && Visible(s, k, path, io) == None
    ensures AfterGet(s, k, now, path, io) == s
  {
  }

  // ---------------------------------------------------------------------------------------
  // The object
  // ---------------------------------------------------------------------------------------

  class P2PCacheStore {
    const rank: Rank
    const replication: int
    const simulation: bool
    const ring: HashRing.ConsistentHashRing
    const store: LocalTierStore

    /** The calls made on the local store so far. */
    ghost var history: Run

    function Local(): Rank -> bool {
      (owner: Rank) => owner == rank || simulation
    }

    function Owners(key: string): seq<Rank>
      reads ring
    {
      HashRing.Replicas(ring.ring, ring.keyHash(key), replication)
    }

    ghost predicate Valid()
      reads this, ring, store
    {
      ring.Valid() && store.Abs() == End(history, store.path)
    }

    /** The ring gets ranks 0 to worldSize - 1; `files` is what the NVMe directory already holds. */
    constructor (rank: Rank, worldSize: nat, replication: int, simulation: bool, virtualNodes: nat,
                 pointHash: HashRing.PointHash, keyHash: string -> nat,
                 dramLimit: nat, nvmeLimit: nat, path: Key -> Path, files: map<Path, Data>)
      ensures Valid() && history == Start(dramLimit, nvmeLimit, files) && store.path == path
      ensures this.rank == rank && this.replication == replication && this.simulation == simulation
      ensures ring.ring == HashRing.World(pointHash, worldSize, virtualNodes) && ring.keyHash == keyHash
      ensures fresh(ring) && fresh(store)
    {
      var nodes := new HashRing.ConsistentHashRing(virtualNodes, pointHash, keyHash);
      for r := 0 to worldSize
        invariant nodes.Valid() && nodes.ring == HashRing.World(pointHash, r, virtualNodes)
        invariant fresh(nodes)
      {
        nodes.AddNode(r);
      }
      var local := new LocalTierStore(dramLimit, nvmeLimit, path, files);
      this.rank, this.replication, this.simulation := rank, replication, simulation;
      ring, store := nodes, local;
      history := Start(dramLimit, nvmeLimit, files);
    }

    method PutLocal(k: Key, data: Data, env: Env)
      requires Valid()
      modifies this, store
      ensures Valid() && history == Then(old(history), DoPut(k, data, env.now, env.io))
    {
      store.PutEntry(k, data, env.now, env.io);
      history := Then(history, DoPut(k, data, env.now, env.io));
    }

    /** A miss leaves the store as it was and is not recorded. */
    method GetLocal(k: Key, env: Env) returns (r: Option<Data>)
      requires Valid()
      modifies this, store
      ensures Valid() && r == old(Visible(store.Abs(), k, store.path, env.io))
      ensures r == None ==> history == old(history) && store.Abs() == old(store.Abs())
      ensures r.Some? ==> history == Then(old(history), DoGet(k, env.now, env.io))
    {
      ghost var s := store.Abs();
      r := store.GetEntry(k, env.now, env.io);
      if r.Some? {
        history := Then(history, DoGet(k, env.now, env.io));
      } else {
        MissChangesNothing(s, k, env.now, store.path, env.io);
      }
    }

    method PutOwners(owners: seq<Rank>, k: Key, data: Data, env: nat -> Env, reached: Rank -> bool)
      returns (storedOn: seq<Rank>)
      requires Valid()
      modifies this, store
      ensures Valid() && history == PutRun(old(history), owners, Local(), k, data, env)
      ensures storedOn == StoredOn(owners, Local(), rank, reached)
    {
      storedOn := [];
      for i := 0 to |owners|
        invariant Valid() && history == PutRun(old(history), owners[..i], Local(), k, data, env)
        invariant storedOn == StoredOn(owners[..i], Local(), rank, reached)
      {
        assert owners[..i + 1][..i] == owners[..i];
        if owners[i] == rank || simulation {
          PutLocal(k, data, env(i));
          storedOn := storedOn + [rank];
        } else if reached(owners[i]) {
          storedOn := storedOn + [owners[i]];
        }
      }
      assert owners[..|owners|] == owners;
    }

    method PutKey(key: string, data: Data, env: nat -> Env, reached: Rank -> bool) returns (storedOn: seq<Rank>)
      requires Valid()
      modifies this, store
      ensures Valid() && history == PutRun(old(history), old(Owners(key)), Local(), Key(key), data, env)
      ensures storedOn == StoredOn(old(Owners(key)), Local(), rank, reached)
      ensures rank in old(Owners(key)) || (simulation && old(Owners(key)) != []) ==>
                forall io :: Visible(store.Abs(), Key(key), store.path, io) == Some(data)
      ensures rank !in old(Owners(key)) && !simulation ==> store.Abs() == old(store.Abs())
    {
      var owners := ring.GetNodes(key, replication);
      storedOn := PutOwners(owners, Key(key), data, env, reached);
      if rank !in owners && !simulation { NoLocalPut(old(history), owners, Local(), Key(key), data, env); }
      if rank in owners || (simulation && owners != []) {
        assert Local()(owners[0]) || exists i :: 0 <= i < |owners| && Local()(owners[i]);
        forall io ensures Visible(store.Abs(), Key(key), store.path, io) == Some(data) {
          PutIsVisible(old(history), owners, Local(), Key(key), data, env, store.path, io);
        }
      }
    }

    /** Ask one owner after the other; only a local hit changes the local store. */
    method AskOwners(owners: seq<Rank>, k: Key, env: nat -> Env, remote: Rank -> Option<Data>)
      returns (r: Option<Data>, ghost from: nat)
      requires Valid()
      modifies this, store
      ensures Valid() && FirstHit(old(store.Abs()), owners, from, r, Local(), k, store.path, env, remote)
      ensures history == if from < |owners| && Local()(owners[from])
                         then Then(old(history), DoGet(k, env(from).now, env(from).io)) else old(history)
    {
      ghost var s := store.Abs();
      for i := 0 to |owners|
        invariant Valid() && history == old(history) && store.Abs() == s
        invariant AllMiss(s, owners, i, Local(), k, store.path, env, remote)
      {
        if owners[i] == rank || simulation {
          r := GetLocal(k, env(i));
        } else {
          r := remote(owners[i]);
        }
        if r.Some? { return r, i; }
      }
      return None, |owners|;
    }

    method GetKey(key: string, env: nat -> Env, remote: Rank -> Option<Data>) returns (r: Option<Data>, ghost from: nat)
      requires Valid()
      modifies this, store
      ensures Valid()
      ensures FirstHit(old(store.Abs()), old(Owners(key)), from, r, Local(), Key(key), store.path, env, remote)
      ensures r.Some?
              <==> SomeHas(old(store.Abs()), old(Owners(key)), rank, simulation, Key(key), store.path, env, remote)
      ensures history == if from < |old(Owners(key))| && Local()(old(Owners(key))[from])
                         then Then(old(history), DoGet(Key(key), env(from).now, env(from).io)) else old(history)
    {
      var owners := ring.GetNodes(key, replication);
      ghost var s := store.Abs();
      r, from := AskOwners(owners, Key(key), env, remote);
      HitExactlyWhen(s, owners, from, r, Local(), rank, simulation, Key(key), store.path, env, remote);
    }

    /** Explicit eviction, if this rank is an owner. */
    method EvictKey(key: string)
      requires Valid()
      modifies this, store
      ensures Valid()
      ensures history == if rank in old(Owners(key)) || simulation then Then(old(history), DoDrop(Key(key)))
                         else old(history)
    {
      var owners := ring.GetNodes(key, replication);
      if rank in owners || simulation {
        store.Evict(Key(key));
        history := Then(history, DoDrop(Key(key)));
      }
    }
  }
}
