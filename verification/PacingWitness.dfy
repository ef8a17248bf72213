/**
 Runs in which partial grants let the daemon submit far more than burst + rate * elapsed: one producer,
 one block at a time, and a bucket that gains a byte between two throttle steps.
 */
module PacingWitness {
  import opened Basics
  import R = SpikeRing
  import RI = SpikeRingInvariant
  import M = AttentionMonitor
  import B = TokenBucketModel
  import T = SpikeRingTheorems
  import A = SpikeAbsorberModel
  import opened PacingDaemon
  import opened PacingTheorems

  lemma Next(r: Run, a: Action)
    requires Legal(r) && Enabled(End(r), a)
    ensures Legal(Then(r, a)) && End(Then(r, a)) == Apply(End(r), a)
    ensures BucketRun(Then(r, a))
         == if a.DaemonMove? && End(r).daemon.Throttle?
            then B.Then(BucketRun(r), a.now, End(r).daemon.blk.sizeBytes) else BucketRun(r)
  {
  }

  /** A move of the daemon that nothing disturbs. */
  function Move(now: nat, b: KVBlock): Action {
    DaemonMove(now, false, b, false, true)
  }

  // ---------------------------------------------------------------------------------------
  // One block into the ring
  // ---------------------------------------------------------------------------------------

  /** Steps of another producer on the ring are moves of the system. */
  lemma {:induction false} Lift(r: Run, t: T.Run, t': T.Run, i: nat) returns (q: Run)
    requires Legal(r) && T.Legal(t) && T.Legal(t') && A.By(t', t, i) && i != 0
    requires WellFormed(End(r)) && End(r).ring == T.End(t)
    ensures Legal(q) && End(q) == End(r).(ring := T.End(t')) && BucketRun(q) == BucketRun(r)
    ensures WellFormed(End(q))
    decreases t'
  {
    if t' == t {
      q := r;
    } else {
      q := Lift(r, t, t'.before, i);
      KeepsShape(T.End(t'.before), t'.act);
      Next(q, Producer(t'.act));
      q := Then(q, Producer(t'.act));
    }
  }

  lemma KeepsShape(s: R.State, x: R.Action)
    requires s.Capacity() > 0 && R.Enabled(s, x) && 0 < |s.producers|
    ensures R.Apply(s, x).Capacity() == s.Capacity() && |R.Apply(s, x).producers| == |s.producers|
  {
  }

  /** The daemon is at its loop head with no gate, the ring is empty and its threads rest. */
  ghost predicate Quiet(s: System) {
    && WellFormed(s) && s.running && !s.strictGate && s.daemon.LoopHead? && s.monitor.waiters[0].Away?
    && |s.ring.producers| == 2 && s.ring.producers[0].Idle? && s.ring.producers[1].Idle?
    && s.ring.consumer == R.Resting && s.ring.enq == s.ring.deq
  }

  /** Producer 1 absorbs b. */
  lemma Fill(r: Run, b: KVBlock) returns (q: Run)
    requires Legal(r) && Quiet(End(r))
    ensures Legal(q) && WellFormed(End(q)) && BucketRun(q) == BucketRun(r)
    ensures |End(r).ring.log| == End(r).ring.enq
    ensures End(q) == End(r).(ring := A.Absorbed(End(r).ring, 1, b))
  {
    RingRunIsLegal(r);
    var t := RingRun(r);
    A.Tail(t);
    T.RunKeepsInv(t);
    var t' := A.AbsorbAlone(t, 1, b);
    q := Lift(r, t, t', 1);
  }

  // ---------------------------------------------------------------------------------------
  // One block out of the ring
  // ---------------------------------------------------------------------------------------

  /** The daemon drains: another step of the consumer. */
  lemma DrainOne(r: Run, b: KVBlock) returns (q: Run)
    requires Legal(r) && WellFormed(End(r)) && End(r).daemon.Draining?
    ensures Legal(q) && End(q) == DrainStep(End(r)) && BucketRun(q) == BucketRun(r)
    ensures WellFormed(End(q))
  {
    ConsumerFrame(End(r).ring);
    Next(r, Move(0, b));
    q := Then(r, Move(0, b));
  }

  /** Short of its return, only the ring changes. */
  lemma DrainTwo(r: Run, b: KVBlock) returns (q: Run)
    requires Legal(r) && WellFormed(End(r)) && End(r).daemon.Draining?
    requires !End(r).ring.consumer.Drained? && !R.ConsumerStep(End(r).ring).consumer.Drained?
    ensures R.ConsumerStep(End(r).ring).Capacity() > 0
    ensures Legal(q) && WellFormed(End(q)) && BucketRun(q) == BucketRun(r)
    ensures End(q) == End(r).(ring := R.ConsumerStep(R.ConsumerStep(End(r).ring)))
  {
    q := DrainOne(r, b);
    q := DrainOne(q, b);
  }

  lemma PeekSteps(s: R.State, b: KVBlock)
    requires s.Capacity() > 0 && s.consumer == R.Resting && RI.SlotOf(s.slots, s.deq) == R.Slot(s.deq + 1, b)
    ensures R.ConsumerStep(s).Capacity() > 0 && !R.ConsumerStep(s).consumer.Drained?
    ensures R.ConsumerStep(R.ConsumerStep(s)) == s.(consumer := R.Copy(s.deq))
  {
  }

  lemma FreeSteps(s: R.State, b: KVBlock)
    requires s.Capacity() > 0 && s.consumer == R.Release(s.deq, b)
    ensures R.ConsumerStep(s).Capacity() > 0 && !R.ConsumerStep(s).consumer.Drained?
    ensures R.ConsumerStep(R.ConsumerStep(s))
         == A.HeadTaken(s).(consumer := R.CountDrained(b), drained := s.drained)
  {
  }

  lemma DrainOut(r: Run, b: KVBlock) returns (q: Run)
    requires Legal(r) && WellFormed(End(r)) && End(r).daemon.Draining? && End(r).ring.consumer == R.Resting
    requires RI.SlotOf(End(r).ring.slots, End(r).ring.deq) == R.Slot(End(r).ring.deq + 1, b)
    ensures Legal(q) && WellFormed(End(q)) && BucketRun(q) == BucketRun(r)
    ensures End(q) == End(r).(ring := End(r).ring.(consumer := R.Release(End(r).ring.deq, b)))
  {
    PeekSteps(End(r).ring, b);
    q := DrainTwo(r, b);
    q := DrainOne(q, b);
  }

  lemma FreeSlot(r: Run, b: KVBlock) returns (q: Run)
    requires Legal(r) && WellFormed(End(r)) && End(r).daemon.Draining?
    requires End(r).ring.consumer == R.Release(End(r).ring.deq, b)
    ensures Legal(q) && WellFormed(End(q)) && BucketRun(q) == BucketRun(r)
    ensures End(q) == End(r).(ring := A.HeadTaken(End(r).ring).(
                                consumer := R.CountDrained(b), drained := End(r).ring.drained))
  {
    FreeSteps(End(r).ring, b);
    q := DrainTwo(r, b);
  }

  lemma HandOver(r: Run, b: KVBlock) returns (q: Run)
    requires Legal(r) && WellFormed(End(r)) && End(r).daemon.Draining? && End(r).ring.consumer == R.CountDrained(b)
    ensures Legal(q) && WellFormed(End(q)) && BucketRun(q) == BucketRun(r)
    ensures End(q) == End(r).(daemon := Throttle(b),
                              ring := End(r).ring.(consumer := R.Resting, drained := End(r).ring.drained + 1))
  {
    q := DrainOne(r, b);
    q := DrainOne(q, b);
  }

  lemma DrainBack(r: Run, b: KVBlock) returns (q: Run)
    requires Legal(r) && WellFormed(End(r)) && End(r).daemon.Draining?
    requires End(r).ring.consumer == R.Release(End(r).ring.deq, b)
    ensures Legal(q) && WellFormed(End(q)) && BucketRun(q) == BucketRun(r)
    ensures End(q) == End(r).(daemon := Throttle(b), ring := A.HeadTaken(End(r).ring).(consumer := R.Resting))
  {
    q := FreeSlot(r, b);
    q := HandOver(q, b);
  }

  // ---------------------------------------------------------------------------------------
  // One block through the daemon
  // ---------------------------------------------------------------------------------------

  lemma PassGate(r: Run, b: KVBlock) returns (q: Run)
    requires Legal(r) && WellFormed(End(r)) && End(r).running
    requires End(r).strictGate ==> End(r).monitor.phase != M.ATTENTION
    requires End(r).daemon.LoopHead? && End(r).monitor.waiters[0].Away?
    ensures Legal(q) && BucketRun(q) == BucketRun(r) && End(q) == End(r).(daemon := Draining)
  {
    Next(r, Move(0, b));
    q := Then(r, Move(0, b));
    Next(q, Move(0, b));
    q := Then(q, Move(0, b));
  }

  /** A grant, even of one byte, submits the whole block. */
  lemma Submit(r: Run, b: KVBlock, now: nat) returns (q: Run)
    requires Legal(r) && WellFormed(End(r)) && End(r).daemon == Throttle(b) && End(r).ring.producers[0].Idle?
    requires End(r).bucket.Grant(now, b.sizeBytes) > 0
    ensures Legal(q) && BucketRun(q) == B.Then(BucketRun(r), now, b.sizeBytes)
    ensures End(q) == End(r).(daemon := LoopHead, submitted := End(r).submitted + [b],
                              bucket := End(r).bucket.Consumed(now, b.sizeBytes))
  {
    Next(r, Move(now, b));
    q := Then(r, Move(now, b));
    Next(q, Move(now, b));
    q := Then(q, Move(now, b));
  }

  /** A published head block is submitted in one round of the loop if the gate is open and the bucket
      has a byte for it. */
  lemma HeadIsSubmitted(r: Run, b: KVBlock, now: nat) returns (q: Run)
    requires Legal(r) && WellFormed(End(r)) && End(r).running && End(r).daemon.LoopHead?
    requires End(r).strictGate ==> End(r).monitor.phase != M.ATTENTION
    requires End(r).ring.consumer == R.Resting && A.HeadBlock(End(r).ring) == Some(b)
    requires End(r).bucket.Grant(now, b.sizeBytes) > 0
    ensures Legal(q) && End(q).daemon.LoopHead? && BucketRun(q) == B.Then(BucketRun(r), now, b.sizeBytes)
    ensures End(q).submitted == End(r).submitted + [b] && End(q).ring.deq == End(r).ring.deq + 1
  {
    RunKeepsLink(r);
    RingRunIsLegal(r);
    A.HeadSlot(RingRun(r));
    q := PassGate(r, b);
    q := DrainOut(q, b);
    q := DrainBack(q, b);
    q := Submit(q, b, now);
  }

  lemma Emptied(s: R.State, b: KVBlock)
    requires s.Capacity() > 0 && |s.producers| == 2 && s.consumer == R.Resting && s.enq == s.deq
    ensures var t := A.Absorbed(s, 1, b); var u := A.HeadTaken(t.(consumer := R.Release(t.deq, b)));
            && t.producers == s.producers && t.consumer == R.Resting && t.deq == s.deq && t.Capacity() == s.Capacity()
            && RI.SlotOf(t.slots, t.deq) == R.Slot(t.deq + 1, b)
            && u.enq == u.deq && u.producers == s.producers && u.Capacity() == s.Capacity()
  {
  }

  /** From an empty ring to an empty ring: a block is absorbed, drained, granted something, submitted. */
  lemma Cycle(r: Run, b: KVBlock, now: nat) returns (q: Run)
    requires Legal(r) && Quiet(End(r)) && End(r).bucket.Grant(now, b.sizeBytes) > 0
    ensures Legal(q) && Quiet(End(q)) && BucketRun(q) == B.Then(BucketRun(r), now, b.sizeBytes)
    ensures End(q).submitted == End(r).submitted + [b] && End(q).ring.Capacity() == End(r).ring.Capacity()
  {
    var s := End(r).ring;
    Emptied(s, b);
    q := Fill(r, b);
    q := PassGate(q, b);
    q := DrainOut(q, b);
    q := DrainBack(q, b);
    q := Submit(q, b, now);
  }

  // ---------------------------------------------------------------------------------------
  // The family
  // ---------------------------------------------------------------------------------------

  function Block(size: nat): KVBlock { R.KVBlock(0, 0, 0, 0, size, 0) }

  function FullBucket(size: nat): B.Bucket { B.Bucket(1.0, size as real, size as real, 0) }

  function FirstState(size: nat, capacity: nat): System {
    System(R.State(seq(capacity, k requires 0 <= k < capacity => R.Slot(k, Block(size))), 0, 0,
                   [R.Idle, R.Idle], R.Resting, 0, 0, 0, []),
           M.State(M.UNKNOWN, 0, 0, M.Free, [], [M.Away]), FullBucket(size), false, true, LoopHead, [], [], 0)
  }

  /** One call for a whole block in each nanosecond from 0 to n. */
  function Calls(size: nat, n: nat): B.Run {
    if n == 0 then B.Then(B.Start(FullBucket(size)), 0, size) else B.Then(Calls(size, n - 1), n, size)
  }

  lemma NextByte(size: nat, n: nat)
    requires size > 0 && n > 0
    ensures var b := B.Bucket(1.0, size as real, 0.0, n - 1);
            b.Valid() && b.Grant(n, size) == 1 && b.Consumed(n, size) == B.Bucket(1.0, size as real, 0.0, n)
  {
    var b := B.Bucket(1.0, size as real, 0.0, n - 1);
    assert B.Earned(1.0, 1) == B.Earned(1.0, 0) + 1.0;
    assert b.Refilled(n).tokens == 1.0;
  }

  lemma {:induction false} CallsGrant(size: nat, n: nat)
    requires size > 0
    ensures B.Legal(Calls(size, n)) && B.End(Calls(size, n)) == B.Bucket(1.0, size as real, 0.0, n)
    ensures B.Granted(Calls(size, n)) == size + n
  {
    if n > 0 {
      CallsGrant(size, n - 1);
      NextByte(size, n);
    }
  }

  lemma FirstRun(size: nat, capacity: nat) returns (r: Run)
    requires capacity >= 2
    ensures Legal(r) && Quiet(End(r)) && BucketRun(r) == B.Start(FullBucket(size)) && End(r).submitted == []
    ensures End(r).ring.Capacity() == capacity
  {
    r := Start(FirstState(size, capacity));
  }

  lemma FirstGrant(size: nat)
    requires size > 0
    ensures B.Legal(B.Start(FullBucket(size))) && FullBucket(size).Grant(0, size) > 0
  {
  }

  lemma OneMoreCycle(q: Run, b: KVBlock, now: nat) returns (r: Run)
    requires Legal(q) && Quiet(End(q)) && B.End(BucketRun(q)).Grant(now, b.sizeBytes) > 0
    ensures Legal(r) && Quiet(End(r)) && BucketRun(r) == B.Then(BucketRun(q), now, b.sizeBytes)
    ensures Bytes(End(r).submitted) == Bytes(End(q).submitted) + b.sizeBytes
    ensures End(r).ring.Capacity() == End(q).ring.Capacity()
  {
    BucketRunMatches(q);
    r := Cycle(q, b, now);
    BytesAppend(End(q).submitted, b);
  }

  lemma OneMorePays(size: nat, n: nat)
    ensures Pays(size, n + 1) == Pays(size, n) + size
  {
  }

  ghost predicate Floods(r: Run, size: nat, capacity: nat, n: nat) {
    && Legal(r) && Quiet(End(r)) && End(r).ring.Capacity() == capacity
    && BucketRun(r) == Calls(size, n) && Bytes(End(r).submitted) == Pays(size, n + 1)
  }

  lemma FloodStarts(size: nat, capacity: nat) returns (r: Run)
    requires size > 0 && capacity >= 2
    ensures Floods(r, size, capacity, 0)
  {
    var q := FirstRun(size, capacity);
    FirstGrant(size);
    OneMorePays(size, 0);
    r := OneMoreCycle(q, Block(size), 0);
  }

  lemma FloodGoesOn(q: Run, size: nat, capacity: nat, n: nat) returns (r: Run)
    requires size > 0 && Floods(q, size, capacity, n)
    ensures Floods(r, size, capacity, n + 1)
  {
    CallsGrant(size, n);
    NextByte(size, n + 1);
    OneMorePays(size, n + 1);
    r := OneMoreCycle(q, Block(size), n + 1);
  }

  /** A run whose throttle steps make exactly those calls, and that submits a block at each. */
  lemma {:induction false} Flood(size: nat, capacity: nat, n: nat) returns (r: Run)
    requires size > 0 && capacity >= 2
    ensures Floods(r, size, capacity, n)
  {
    if n == 0 {
      r := FloodStarts(size, capacity);
    } else {
      var q := Flood(size, capacity, n - 1);
      r := FloodGoesOn(q, size, capacity, n - 1);
    }
  }

  lemma {:induction false} CallsExtend(size: nat, n: nat)
    ensures B.Extends(Calls(size, n), Calls(size, 0)) && B.Extends(Calls(size, n), B.Start(FullBucket(size)))
  {
    if n > 0 { CallsExtend(size, n - 1); }
  }

  /**
   With blocks of the size of a burst, after n nanoseconds at one byte each: the allowance is size + n, and
   size * (n + 1) bytes have been submitted, so the plain rate bound fails for every size above one
   as soon as n is positive, and the enlarged one is met up to a constant.
   */
  lemma PartialGrantsExceedTheRate(size: nat, capacity: nat, n: nat) returns (r: Run)
    requires size > 0 && capacity >= 2
    ensures Legal(r) && End(r).ring.Capacity() == capacity && Bytes(End(r).submitted) == size * (n + 1)
    ensures IsWindow(B.Start(FullBucket(size)), Calls(size, 0), BucketRun(r))
    ensures Allowance(B.Start(FullBucket(size)), Calls(size, 0), BucketRun(r)) == (size + n) as real
    ensures size * (n + 1) > size + n <==> size > 1 && n > 0
  {
    r := Flood(size, capacity, n);
    CallsExtend(size, n);
    CallsGrant(size, n);
    CallsGrant(size, 0);
    Excess(size, n);
  }

  lemma Excess(size: nat, n: nat)
    requires size > 0
    ensures size * (n + 1) > size + n <==> size > 1 && n > 0
  {
    assert size * (n + 1) == size * n + size;
    if size > 1 && n > 0 { assert (size - 1) * n > 0; } else { assert size == 1 || n == 0; }
  }
}
