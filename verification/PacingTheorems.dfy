/** What the flush loop guarantees over every run of producers, callbacks and daemon. */
module PacingTheorems {
  import opened Basics
  import R = SpikeRing
  import RI = SpikeRingInvariant
  import M = AttentionMonitor
  import B = TokenBucketModel
  import T = SpikeRingTheorems
  import opened PacingDaemon

  // ---------------------------------------------------------------------------------------
  // The daemon's position agrees with its parts
  // ---------------------------------------------------------------------------------------

  ghost predicate Link(s: System) {
    && WellFormed(s)
    && (s.daemon.Reabsorbing? <==> !s.ring.producers[0].Idle?)
    && (s.daemon.Reabsorbing? ==> s.ring.producers[0].blk == s.daemon.blk)
    && (s.ring.consumer != R.Resting ==> s.daemon.Draining?)
    && (s.daemon.Waiting? <==> !s.monitor.waiters[0].Away?)
  }

  /** The ring action, if any, that a move performs. */
  function RingMove(s: System, a: Action): Option<R.Action>
    requires Enabled(s, a)
  {
    match a
    case Producer(x) => Some(x)
    case Monitor(_) => None
    case RequestStop => None
    case DaemonMove(now, spurious, torn, _, _) =>
      match s.daemon
      case Draining => Some(R.Consume)
      case Throttle(b) => if s.bucket.Grant(now, b.sizeBytes) == 0 then Some(R.Call(0, b)) else None
      case Reabsorbing(_) => Some(R.Produce(0, spurious, torn))
      case _ => None
  }

  lemma RingMoveIsARingStep(s: System, a: Action)
    requires Enabled(s, a) && Link(s)
    ensures RingMove(s, a).None? ==> Apply(s, a).ring == s.ring
    ensures RingMove(s, a).Some? ==> R.Enabled(s.ring, RingMove(s, a).value)
                                     && Apply(s, a).ring == R.Apply(s.ring, RingMove(s, a).value)
  {
  }

  /** Another producer's ring step leaves the consumer and producer 0 alone. */
  lemma OtherProducerFrame(s: R.State, x: R.Action)
    requires s.Capacity() > 0 && R.Enabled(s, x) && !x.Consume? && x.i != 0 && 0 < |s.producers|
    ensures var t := R.Apply(s, x);
            && t.Capacity() == s.Capacity() && |t.producers| == |s.producers|
            && t.producers[0] == s.producers[0] && t.consumer == s.consumer
  {
  }

  lemma ConsumerFrame(s: R.State)
    requires s.Capacity() > 0
    ensures var t := R.ConsumerStep(s);
            && t.Capacity() == s.Capacity() && t.producers == s.producers
            && (t.consumer == R.Resting <==> s.consumer.Drained?)
  {
  }

  lemma ProducerZeroFrame(s: R.State, spurious: bool, torn: KVBlock)
    requires s.Capacity() > 0 && 0 < |s.producers| && !s.producers[0].Idle?
    ensures var t := R.ProducerStep(s, 0, spurious, torn);
            && t.Capacity() == s.Capacity() && |t.producers| == |s.producers| && t.consumer == s.consumer
            && (t.producers[0].Idle? <==> s.producers[0].Returned?)
            && (!t.producers[0].Idle? ==> t.producers[0].blk == s.producers[0].blk)
  {
  }

  lemma OtherMonitorFrame(m: M.State, x: M.Action)
    requires M.Enabled(m, x) && !OfWaiterZero(x) && 0 < |m.waiters|
    ensures var t := M.Apply(m, x);
            && |t.waiters| == |m.waiters|
            && (t.waiters[0] == m.waiters[0] || (m.waiters[0].Asleep? && t.waiters[0] == M.Relock(false)))
  {
  }

  lemma WaiterZeroFrame(m: M.State, timedOut: bool)
    requires 0 < |m.waiters| && M.Enabled(m, WaiterMove(m, timedOut)) && !m.waiters[0].Away?
    ensures var t := M.Apply(m, WaiterMove(m, timedOut));
            && |t.waiters| == |m.waiters| && t.phase == m.phase
            && (t.waiters[0].Away? <==> m.waiters[0].Finished?)
            && (t.waiters[0] == M.Finished(true) ==> m.phase == M.FFN)
  {
  }

  lemma OthersKeepLink(s: System, a: Action)
    requires Enabled(s, a) && Link(s) && !a.DaemonMove?
    ensures Link(Apply(s, a))
  {
    match a
    case Producer(x) => OtherProducerFrame(s.ring, x);
    case Monitor(x) => OtherMonitorFrame(s.monitor, x);
    case RequestStop =>
  }

  lemma DrainKeepsLink(s: System)
    requires Link(s) && s.daemon.Draining?
    ensures Link(DrainStep(s))
  {
    ConsumerFrame(s.ring);
  }

  lemma ReabsorbKeepsLink(s: System, spurious: bool, torn: KVBlock)
    requires Link(s) && s.daemon.Reabsorbing?
    ensures Link(ReabsorbStep(s, s.daemon.blk, spurious, torn))
  {
    ProducerZeroFrame(s.ring, spurious, torn);
  }

  lemma WaitKeepsLink(s: System, timedOut: bool)
    requires Link(s) && s.daemon.Waiting? && M.Enabled(s.monitor, WaiterMove(s.monitor, timedOut))
    ensures Link(WaitStep(s, timedOut))
  {
    WaiterZeroFrame(s.monitor, timedOut);
  }

  lemma ThrottleKeepsLink(s: System, now: nat)
    requires Link(s) && s.daemon.Throttle?
    ensures Link(ThrottleStep(s, s.daemon.blk, now))
  {
  }

  lemma RestKeepsLink(s: System, a: Action)
    requires Enabled(s, a) && Link(s) && a.DaemonMove?
    requires s.daemon.LoopHead? || s.daemon.CheckPhase? || s.daemon.Flushing?
    ensures Link(Apply(s, a))
  {
  }

  lemma DaemonKeepsLink(s: System, a: Action)
    requires Enabled(s, a) && Link(s) && a.DaemonMove?
    ensures Link(Apply(s, a))
  {
    match s.daemon
    case Draining => DrainKeepsLink(s);
    case Reabsorbing(_) => ReabsorbKeepsLink(s, a.spurious, a.torn);
    case Waiting => WaitKeepsLink(s, a.timedOut);
    case Throttle(_) => ThrottleKeepsLink(s, a.now);
    case _ => RestKeepsLink(s, a);
  }

  lemma StepKeepsLink(s: System, a: Action)
    requires Enabled(s, a) && Link(s)
    ensures Link(Apply(s, a))
  {
    if a.DaemonMove? { DaemonKeepsLink(s, a); } else { OthersKeepLink(s, a); }
  }

  lemma {:induction false} RunKeepsLink(r: Run)
    requires Legal(r)
    ensures Link(End(r)) && RI.Inv(End(r).ring)
  {
    match r
    case Start(s) => RI.InitInv(s.ring);
    case Then(q, a) =>
      RunKeepsLink(q);
      StepKeepsLink(End(q), a);
      RingMoveIsARingStep(End(q), a);
      if RingMove(End(q), a).Some? {
        RI.StepKeepsInv(End(q).ring, RingMove(End(q), a).value);
      }
  }

  // ---------------------------------------------------------------------------------------
  // Conservation of blocks, counted block by block
  // ---------------------------------------------------------------------------------------

  function One(yes: bool): nat {
    if yes then 1 else 0
  }

  /** How often producers other than the daemon got b into the ring. */
  function External(log: seq<R.Entry>, b: KVBlock): nat {
    if log == [] then 0
    else
      var last := log[|log| - 1];
      External(log[..|log| - 1], b) + One(last.owner != 0 && last.blk == b)
  }

  /** How often b is claimed and not yet taken off the head. */
  function Undrained(log: seq<R.Entry>, deq: nat, b: KVBlock): nat
    decreases |log| - deq
  {
    if deq >= |log| then 0 else One(log[deq].blk == b) + Undrained(log, deq + 1, b)
  }

  function Times(blocks: seq<KVBlock>, b: KVBlock): nat {
    if blocks == [] then 0 else Times(blocks[..|blocks| - 1], b) + One(blocks[|blocks| - 1] == b)
  }

  /** The producer has not yet claimed a position for its block, or was refused. */
  predicate Unclaimed(p: R.Producer) {
    p.LoadPos? || p.LoadSeq? || p.Claim? || p.Overflow? || (p.Returned? && !p.ok)
  }

  /** The block the daemon has in hand: drained, and not yet put back, submitted or given up. */
  function InHand(s: System): Option<KVBlock>
    requires WellFormed(s)
  {
    match s.daemon
    case Throttle(b) => Some(b)
    case Flushing(b) => Some(b)
    case Reabsorbing(b) => if Unclaimed(s.ring.producers[0]) then Some(b) else None
    case Draining =>
      (match s.ring.consumer
       case CountDrained(b) => Some(b)
       case Drained(r) => r
       case _ => None)
    case _ => None
  }

  function Outside(s: System, b: KVBlock): nat
    requires WellFormed(s)
  {
    One(InHand(s) == Some(b)) + Times(s.submitted, b) + Times(s.lost, b)
  }

  ghost predicate Conserved(s: System, b: KVBlock)
    requires WellFormed(s)
  {
    External(s.ring.log, b) == Undrained(s.ring.log, s.ring.deq, b) + Outside(s, b)
  }

  ghost predicate SameEntries(l: seq<R.Entry>, m: seq<R.Entry>) {
    |l| == |m| && forall k | 0 <= k < |l| :: l[k].blk == m[k].blk && l[k].owner == m[k].owner
  }

  lemma {:induction false} ExternalSame(l: seq<R.Entry>, m: seq<R.Entry>, b: KVBlock)
    requires SameEntries(l, m)
    ensures External(l, b) == External(m, b)
  {
    if l != [] {
      ExternalSame(l[..|l| - 1], m[..|m| - 1], b);
    }
  }

  lemma {:induction false} UndrainedSame(l: seq<R.Entry>, m: seq<R.Entry>, deq: nat, b: KVBlock)
    requires SameEntries(l, m)
    ensures Undrained(l, deq, b) == Undrained(m, deq, b)
    decreases |l| - deq
  {
    if deq < |l| {
      UndrainedSame(l, m, deq + 1, b);
    }
  }

  lemma {:induction false} UndrainedAppend(l: seq<R.Entry>, e: R.Entry, deq: nat, b: KVBlock)
    requires deq <= |l|
    ensures Undrained(l + [e], deq, b) == Undrained(l, deq, b) + One(e.blk == b)
    decreases |l| - deq
  {
    if deq == |l| {
      assert Undrained(l + [e], deq + 1, b) == 0;
    } else {
      UndrainedAppend(l, e, deq + 1, b);
      assert (l + [e])[deq] == l[deq];
    }
  }

  lemma ExternalAppend(l: seq<R.Entry>, e: R.Entry, b: KVBlock)
    ensures External(l + [e], b) == External(l, b) + One(e.owner != 0 && e.blk == b)
  {
    assert (l + [e])[..|l + [e]| - 1] == l;
  }

  lemma TimesAppend(blocks: seq<KVBlock>, x: KVBlock, b: KVBlock)
    ensures Times(blocks + [x], b) == Times(blocks, b) + One(x == b)
  {
    assert (blocks + [x])[..|blocks + [x]| - 1] == blocks;
  }

  predicate Claims(s: R.State, x: R.Action) {
    x.Produce? && x.i < |s.producers| && s.producers[x.i].Claim? && s.enq == s.producers[x.i].pos && !x.spurious
  }

  predicate Takes(s: R.State, x: R.Action) {
    x.Consume? && s.consumer.Advance?
  }

  lemma ClaimBalance(s: R.State, x: R.Action, b: KVBlock)
    requires RI.Inv(s) && R.Enabled(s, x) && Claims(s, x)
    ensures var t, c := R.Apply(s, x), s.producers[x.i].blk;
            && External(t.log, b) == External(s.log, b) + One(x.i != 0 && c == b)
            && Undrained(t.log, t.deq, b) == Undrained(s.log, s.deq, b) + One(c == b)
  {
    var e := R.Entry(s.producers[x.i].blk, x.i, false);
    ExternalAppend(s.log, e, b);
    UndrainedAppend(s.log, e, s.deq, b);
  }

  /** Without a claim the log keeps its entries, up to publishing, and only the head store moves
      the head. */
  lemma NoClaimKeepsLog(s: R.State, x: R.Action)
    requires RI.Inv(s) && R.Enabled(s, x) && !Claims(s, x)
    ensures var t := R.Apply(s, x);
            && SameEntries(s.log, t.log) && t.deq == (if Takes(s, x) then s.deq + 1 else s.deq)
            && (Takes(s, x) ==> s.deq < |s.log| && s.consumer.out == s.log[s.deq].blk)
  {
    if x.Produce? { assert RI.ProducerInv(s, x.i); }
  }

  lemma NoClaimBalance(s: R.State, x: R.Action, b: KVBlock)
    requires RI.Inv(s) && R.Enabled(s, x) && !Claims(s, x)
    ensures var t := R.Apply(s, x);
            && External(t.log, b) == External(s.log, b)
            && Undrained(s.log, s.deq, b)
                 == Undrained(t.log, t.deq, b) + (if Takes(s, x) then One(s.consumer.out == b) else 0)
  {
    var t := R.Apply(s, x);
    NoClaimKeepsLog(s, x);
    ExternalSame(s.log, t.log, b);
    UndrainedSame(s.log, t.log, t.deq, b);
  }

  /** A drain takes a block out of the ring; a re-absorb puts one back. */
  function TakenOut(s: System, a: Action, b: KVBlock): nat
    requires Enabled(s, a)
  {
    if a.DaemonMove? && s.daemon.Draining? && s.ring.consumer.Advance? then One(s.ring.consumer.out == b) else 0
  }

  function PutBack(s: System, a: Action, b: KVBlock): nat
    requires Enabled(s, a)
  {
    if a.DaemonMove? && s.daemon.Reabsorbing? && Claims(s.ring, R.Produce(0, a.spurious, a.torn))
    then One(s.ring.producers[0].blk == b) else 0
  }

  lemma OthersOutside(s: System, a: Action, b: KVBlock)
    requires Enabled(s, a) && Link(s) && !a.DaemonMove?
    ensures WellFormed(Apply(s, a)) && Outside(Apply(s, a), b) == Outside(s, b)
  {
    OthersKeepLink(s, a);
    if a.Producer? { OtherProducerFrame(s.ring, a.a); }
  }

  lemma DrainOutside(s: System, b: KVBlock)
    requires Link(s) && s.daemon.Draining?
    ensures WellFormed(DrainStep(s))
    ensures Outside(DrainStep(s), b)
              == Outside(s, b) + (if s.ring.consumer.Advance? then One(s.ring.consumer.out == b) else 0)
  {
    DrainKeepsLink(s);
  }

  /** Short of its return, the claim is the step after which the block counts as put back. */
  lemma ReabsorbPosition(s: R.State, spurious: bool, torn: KVBlock)
    requires s.Capacity() > 0 && 0 < |s.producers| && !s.producers[0].Idle? && !s.producers[0].Returned?
    ensures var x := R.Produce(0, spurious, torn);
            Unclaimed(R.ProducerStep(s, 0, spurious, torn).producers[0]) <==> Unclaimed(s.producers[0]) && !Claims(s, x)
    ensures Claims(s, R.Produce(0, spurious, torn)) ==> Unclaimed(s.producers[0])
  {
  }

  lemma ReabsorbOutside(s: System, spurious: bool, torn: KVBlock, b: KVBlock)
    requires Link(s) && s.daemon.Reabsorbing?
    ensures WellFormed(ReabsorbStep(s, s.daemon.blk, spurious, torn))
    ensures Outside(s, b) == Outside(ReabsorbStep(s, s.daemon.blk, spurious, torn), b)
              + (if Claims(s.ring, R.Produce(0, spurious, torn)) then One(s.ring.producers[0].blk == b) else 0)
  {
    ReabsorbKeepsLink(s, spurious, torn);
    if s.ring.producers[0].Returned? {
      TimesAppend(s.lost, s.daemon.blk, b);
    } else {
      ReabsorbPosition(s.ring, spurious, torn);
    }
  }

  lemma FlushOutside(s: System, a: Action, b: KVBlock)
    requires Enabled(s, a) && Link(s) && a.DaemonMove? && s.daemon.Flushing?
    ensures Outside(Apply(s, a), b) == Outside(s, b)
  {
    TimesAppend(s.lost, s.daemon.blk, b);
    TimesAppend(s.submitted, s.daemon.blk, b);
  }

  lemma ThrottleOutside(s: System, now: nat, b: KVBlock)
    requires Link(s) && s.daemon.Throttle?
    ensures WellFormed(ThrottleStep(s, s.daemon.blk, now))
    ensures Outside(ThrottleStep(s, s.daemon.blk, now), b) == Outside(s, b)
  {
    ThrottleKeepsLink(s, now);
  }

  lemma WaitOutside(s: System, timedOut: bool, b: KVBlock)
    requires Link(s) && s.daemon.Waiting? && M.Enabled(s.monitor, WaiterMove(s.monitor, timedOut))
    ensures WellFormed(WaitStep(s, timedOut)) && Outside(WaitStep(s, timedOut), b) == Outside(s, b)
  {
    WaitKeepsLink(s, timedOut);
  }

  lemma RestOutside(s: System, a: Action, b: KVBlock)
    requires Enabled(s, a) && Link(s) && a.DaemonMove? && !s.daemon.Draining? && !s.daemon.Reabsorbing?
    ensures WellFormed(Apply(s, a)) && Outside(Apply(s, a), b) == Outside(s, b)
  {
    match s.daemon
    case Flushing(_) => FlushOutside(s, a, b);
    case Throttle(_) => ThrottleOutside(s, a.now, b);
    case Waiting => WaitOutside(s, a.timedOut, b);
    case _ =>
  }

  lemma StepOutside(s: System, a: Action, b: KVBlock)
    requires Enabled(s, a) && Link(s)
    ensures WellFormed(Apply(s, a)) && Outside(Apply(s, a), b) + PutBack(s, a, b) == Outside(s, b) + TakenOut(s, a, b)
  {
    if !a.DaemonMove? {
      OthersOutside(s, a, b);
    } else if s.daemon.Draining? {
      DrainOutside(s, b);
    } else if s.daemon.Reabsorbing? {
      ReabsorbOutside(s, a.spurious, a.torn, b);
    } else {
      RestOutside(s, a, b);
    }
  }

  /** The other side of the balance: what the ring's log and head do in the same move. */
  lemma StepInside(s: System, a: Action, b: KVBlock)
    requires Enabled(s, a) && Link(s) && RI.Inv(s.ring)
    ensures var l, d, l', d' := s.ring.log, s.ring.deq, Apply(s, a).ring.log, Apply(s, a).ring.deq;
            External(l', b) + Undrained(l, d, b) + PutBack(s, a, b)
              == External(l, b) + Undrained(l', d', b) + TakenOut(s, a, b)
  {
    RingMoveIsARingStep(s, a);
    if RingMove(s, a).Some? {
      var x := RingMove(s, a).value;
      if Claims(s.ring, x) { ClaimBalance(s.ring, x, b); } else { NoClaimBalance(s.ring, x, b); }
    }
  }

  /** Every block that a producer got into the ring is, in every reachable state and with the same
      multiplicity, in the ring, in the daemon's hand, submitted, or lost. */
  lemma {:induction false} BlocksAreConserved(r: Run, b: KVBlock)
    requires Legal(r)
    ensures Link(End(r)) && Conserved(End(r), b)
  {
    RunKeepsLink(r);
    match r
    case Start(_) =>
    case Then(q, a) =>
      BlocksAreConserved(q, b);
      RunKeepsLink(q);
      StepOutside(End(q), a, b);
      StepInside(End(q), a, b);
  }

  /** The move ends a refused re-absorb. */
  predicate Refused(s: System, a: Action)
    requires Enabled(s, a)
  {
    a.DaemonMove? && s.daemon.Reabsorbing? && s.ring.producers[0].Returned? && !s.ring.producers[0].ok
  }

  /** The move gives the block up for want of a submission entry. */
  predicate GivenUp(s: System, a: Action)
    requires Enabled(s, a)
  {
    a.DaemonMove? && s.daemon.Flushing? && !a.gotSqe
  }

  function Refusals(r: Run, b: KVBlock): nat
    requires Legal(r)
  {
    match r
    case Start(_) => 0
    case Then(q, a) => Refusals(q, b) + One(Refused(End(q), a) && End(q).daemon.blk == b)
  }

  function GiveUps(r: Run, b: KVBlock): nat
    requires Legal(r)
  {
    match r
    case Start(_) => 0
    case Then(q, a) => GiveUps(q, b) + One(GivenUp(End(q), a) && End(q).daemon.blk == b)
  }

  /** A step loses the block in hand exactly when its re-absorb is refused or no submission entry is
      free, and loses nothing else. */
  lemma LossHasTwoCauses(s: System, a: Action)
    requires Enabled(s, a)
    ensures Apply(s, a).lost == if Refused(s, a) || GivenUp(s, a) then s.lost + [s.daemon.blk] else s.lost
  {
  }

  /** Over every run, a block is lost exactly as often as its re-absorb was refused or it was given up
      for want of a submission entry. */
  lemma {:induction false} LossesAreCounted(r: Run, b: KVBlock)
    requires Legal(r)
    ensures Times(End(r).lost, b) == Refusals(r, b) + GiveUps(r, b)
  {
    match r
    case Start(_) =>
    case Then(q, a) =>
      LossesAreCounted(q, b);
      LossHasTwoCauses(End(q), a);
      if Refused(End(q), a) || GivenUp(End(q), a) { TimesAppend(End(q).lost, End(q).daemon.blk, b); }
  }

  predicate SubmittedHaveBytes(s: System) {
    && (s.daemon.Flushing? ==> s.daemon.blk.sizeBytes > 0)
    && (forall k | 0 <= k < |s.submitted| :: s.submitted[k].sizeBytes > 0)
  }

  lemma StepSubmitsBytes(s: System, a: Action)
    requires Enabled(s, a) && SubmittedHaveBytes(s)
    ensures SubmittedHaveBytes(Apply(s, a))
  {
    if a.DaemonMove? && s.daemon.Throttle? {
      assert s.bucket.Grant(a.now, s.daemon.blk.sizeBytes) <= s.daemon.blk.sizeBytes;
    }
  }

  /** A block of no bytes is never granted anything, so it is never submitted. */
  lemma {:induction false} EmptyBlocksAreNeverSubmitted(r: Run)
    requires Legal(r)
    ensures SubmittedHaveBytes(End(r))
  {
    match r
    case Start(_) =>
    case Then(q, a) =>
      EmptyBlocksAreNeverSubmitted(q);
      StepSubmitsBytes(End(q), a);
  }

  lemma {:induction false} NoneOfThem(blocks: seq<KVBlock>, b: KVBlock)
    requires forall k | 0 <= k < |blocks| :: blocks[k] != b
    ensures Times(blocks, b) == 0
  {
    if blocks != [] { NoneOfThem(blocks[..|blocks| - 1], b); }
  }

  lemma {:induction false} EmptyBlocksAreNotGivenUp(r: Run, b: KVBlock)
    requires Legal(r) && b.sizeBytes == 0
    ensures GiveUps(r, b) == 0
  {
    match r
    case Start(_) =>
    case Then(q, _) =>
      EmptyBlocksAreNotGivenUp(q, b);
      EmptyBlocksAreNeverSubmitted(q);
  }

  /** Where an accepted block of no bytes can be: in the ring, in the daemon's hand, or lost to refused
      re-absorbs. */
  lemma EmptyBlocksStayOrAreRefused(r: Run, b: KVBlock)
    requires Legal(r) && b.sizeBytes == 0
    ensures WellFormed(End(r))
    ensures External(End(r).ring.log, b)
         == Undrained(End(r).ring.log, End(r).ring.deq, b) + One(InHand(End(r)) == Some(b)) + Refusals(r, b)
  {
    BlocksAreConserved(r, b);
    EmptyBlocksAreNeverSubmitted(r);
    NoneOfThem(End(r).submitted, b);
    LossesAreCounted(r, b);
    EmptyBlocksAreNotGivenUp(r, b);
  }

  // ---------------------------------------------------------------------------------------
  // The course of the loop
  // ---------------------------------------------------------------------------------------

  /** Where each place of the loop leads, and when. */
  ghost predicate FollowsTheLoop(s: System, a: Action, t: System)
    requires Enabled(s, a) && a.DaemonMove?
  {
    match s.daemon
    case LoopHead => t.daemon == if s.running then CheckPhase else Stopped
    case CheckPhase => t.daemon.Waiting? || t.daemon.Draining?
    case Waiting => t.daemon.Waiting? || t.daemon.Draining? || t.daemon.LoopHead?
    case Draining => t.daemon.Draining? || t.daemon.LoopHead? || t.daemon.Throttle?
    case Throttle(b) => t.daemon == Flushing(b) || t.daemon == Reabsorbing(b)
    case Reabsorbing(b) => t.daemon == Reabsorbing(b) || t.daemon.LoopHead?
    case Flushing(_) => t.daemon.LoopHead?
    case Stopped => false
  }

  lemma DaemonFollowsTheLoop(s: System, a: Action)
    requires Enabled(s, a) && a.DaemonMove?
    ensures FollowsTheLoop(s, a, Apply(s, a))
  {
  }

  /** What the other threads can do depends on the ring and the monitor alone, wherever the daemon stands. */
  lemma OthersMoveFreely(s: System, t: System, a: Action)
    requires Enabled(s, a) && !a.DaemonMove? && WellFormed(t) && t.ring == s.ring && t.monitor == s.monitor
    ensures Enabled(t, a) && Apply(t, a).daemon == t.daemon && Apply(t, a).bucket == t.bucket
  {
  }

  /** The gate holds the daemon back exactly if it is strict and the phase is ATTENTION. */
  lemma GateHoldsExactlyWhen(s: System, a: Action)
    requires Enabled(s, a) && a.DaemonMove? && s.daemon.CheckPhase?
    ensures Apply(s, a).daemon.Waiting? <==> s.strictGate && s.monitor.phase == M.ATTENTION
  {
  }

  /** The wait ends with its answer: to the drain if it was true, and otherwise to a pause and another round. */
  lemma WaitEndsWithItsAnswer(s: System, a: Action)
    requires Enabled(s, a) && a.DaemonMove? && s.daemon.Waiting?
    ensures var t, w := Apply(s, a), s.monitor.waiters[0];
            && (t.daemon.Waiting? <==> !w.Finished?)
            && (t.daemon.Draining? <==> w == M.Finished(true))
            && t.pauses == s.pauses + if w == M.Finished(false) then 1 else 0
  {
  }

  /** The drain ends with what it returns, the throttle with its grant, the re-absorb when it returns. */
  lemma LaterStepsEndExactlyWhen(s: System, a: Action)
    requires Enabled(s, a) && a.DaemonMove?
    ensures var t := Apply(s, a);
            && (s.daemon.Draining? ==>
                  && (t.daemon.Draining? <==> !s.ring.consumer.Drained?)
                  && (forall b :: t.daemon == Throttle(b) <==> s.ring.consumer == R.Drained(Some(b))))
            && (s.daemon.Throttle? ==>
                  (t.daemon.Flushing? <==> s.bucket.Grant(a.now, s.daemon.blk.sizeBytes) > 0))
            && (s.daemon.Reabsorbing? ==> (t.daemon.LoopHead? <==> s.ring.producers[0].Returned?))
  {
  }

  /** How many waits were answered false. */
  function FalseAnswers(r: Run): nat
    requires Legal(r)
  {
    match r
    case Start(_) => 0
    case Then(q, a) =>
      FalseAnswers(q) + One(a.DaemonMove? && End(q).daemon.Waiting? && End(q).monitor.waiters[0] == M.Finished(false))
  }

  lemma StepCountsPauses(s: System, a: Action)
    requires Enabled(s, a)
    ensures Apply(s, a).pauses
         == s.pauses + One(a.DaemonMove? && s.daemon.Waiting? && s.monitor.waiters[0] == M.Finished(false))
  {
    if a.DaemonMove? && s.daemon.Waiting? { WaitEndsWithItsAnswer(s, a); }
  }

  /** The pauses counted are the waits that were answered false. */
  lemma {:induction false} PausesAreFalseAnswers(r: Run)
    requires Legal(r)
    ensures End(r).pauses == FalseAnswers(r)
  {
    match r
    case Start(_) =>
    case Then(q, a) =>
      PausesAreFalseAnswers(q);
      StepCountsPauses(End(q), a);
  }

  /** After a stop request at most the round under way can still submit. */
  function StopBudget(s: System): nat {
    |s.submitted| + One(!s.daemon.LoopHead? && !s.daemon.Stopped?)
  }

  lemma StoppingStep(s: System, a: Action)
    requires Enabled(s, a) && !s.running
    ensures !Apply(s, a).running && StopBudget(Apply(s, a)) <= StopBudget(s)
  {
  }

  lemma StopIsRequested(s: System)
    requires Enabled(s, RequestStop)
    ensures !Apply(s, RequestStop).running
  {
  }

  lemma {:induction false} StopBudgetNeverGrows(q: Run, r: Run)
    requires Legal(q) && Legal(r) && Extends(r, q) && !End(q).running
    ensures !End(r).running && StopBudget(End(r)) <= StopBudget(End(q))
  {
    if r != q {
      StopBudgetNeverGrows(q, r.before);
      StoppingStep(End(r.before), r.act);
    }
  }

  /** After a stop request at most one block is submitted, and none if the daemon was at its loop head. */
  lemma AtMostOneBlockAfterStop(q: Run, r: Run)
    requires Legal(q) && Legal(r) && Extends(r, q) && !End(q).running
    ensures |End(r).submitted| <= |End(q).submitted| + 1
    ensures End(q).daemon.LoopHead? ==> |End(r).submitted| <= |End(q).submitted|
  {
    StopBudgetNeverGrows(q, r);
  }

  // ---------------------------------------------------------------------------------------
  // The daemon's ring is a ring
  // ---------------------------------------------------------------------------------------

  /** What the run looks like to the ring: every theorem on runs of the ring applies to it. */
  function RingRun(r: Run): T.Run
    requires Legal(r)
  {
    match r
    case Start(s) => T.Start(s.ring)
    case Then(q, a) =>
      match RingMove(End(q), a)
      case None => RingRun(q)
      case Some(x) => T.Then(RingRun(q), x)
  }

  lemma {:induction false} RingRunIsLegal(r: Run)
    requires Legal(r)
    ensures T.Legal(RingRun(r)) && T.End(RingRun(r)) == End(r).ring
  {
    match r
    case Start(_) =>
    case Then(q, a) =>
      RingRunIsLegal(q);
      RunKeepsLink(q);
      RingMoveIsARingStep(End(q), a);
  }

  // ---------------------------------------------------------------------------------------
  // Strict gating
  // ---------------------------------------------------------------------------------------

  /** The daemon has passed the phase gate of this round and may still submit its block. */
  predicate PastGate(s: System)
    requires WellFormed(s)
  {
    s.daemon.Draining? || s.daemon.Throttle? || s.daemon.Flushing?
    || (s.daemon.Waiting? && s.monitor.waiters[0] == M.Finished(true))
  }

  function GateBudget(s: System): nat
    requires WellFormed(s)
  {
    |s.submitted| + One(PastGate(s))
  }

  lemma WaitKeepsBudget(s: System, timedOut: bool)
    requires Link(s) && s.daemon.Waiting? && M.Enabled(s.monitor, WaiterMove(s.monitor, timedOut))
    requires s.monitor.phase == M.ATTENTION
    ensures WellFormed(WaitStep(s, timedOut)) && GateBudget(WaitStep(s, timedOut)) <= GateBudget(s)
  {
    WaiterZeroFrame(s.monitor, timedOut);
  }

  lemma DrainKeepsBudget(s: System)
    requires Link(s) && s.daemon.Draining?
    ensures WellFormed(DrainStep(s)) && GateBudget(DrainStep(s)) <= GateBudget(s)
  {
    DrainKeepsLink(s);
  }

  lemma ReabsorbKeepsBudget(s: System, spurious: bool, torn: KVBlock)
    requires Link(s) && s.daemon.Reabsorbing?
    ensures var t := ReabsorbStep(s, s.daemon.blk, spurious, torn); WellFormed(t) && GateBudget(t) <= GateBudget(s)
  {
    ReabsorbKeepsLink(s, spurious, torn);
  }

  lemma ThrottleKeepsBudget(s: System, now: nat)
    requires Link(s) && s.daemon.Throttle?
    ensures var t := ThrottleStep(s, s.daemon.blk, now); WellFormed(t) && GateBudget(t) <= GateBudget(s)
  {
    ThrottleKeepsLink(s, now);
  }

  lemma OthersKeepBudget(s: System, a: Action)
    requires Enabled(s, a) && Link(s) && !a.DaemonMove?
    ensures WellFormed(Apply(s, a)) && GateBudget(Apply(s, a)) <= GateBudget(s)
  {
    OthersKeepLink(s, a);
    if a.Monitor? { OtherMonitorFrame(s.monitor, a.m); }
  }

  /** While the phase is ATTENTION nobody passes the gate anew. */
  lemma StepKeepsBudget(s: System, a: Action)
    requires Enabled(s, a) && Link(s) && s.strictGate && s.monitor.phase == M.ATTENTION
    ensures WellFormed(Apply(s, a)) && GateBudget(Apply(s, a)) <= GateBudget(s)
  {
    if !a.DaemonMove? {
      OthersKeepBudget(s, a);
    } else {
      match s.daemon
      case Waiting => WaitKeepsBudget(s, a.timedOut);
      case Draining => DrainKeepsBudget(s);
      case Reabsorbing(_) => ReabsorbKeepsBudget(s, a.spurious, a.torn);
      case Throttle(_) => ThrottleKeepsBudget(s, a.now);
      case _ =>
    }
  }

  /** The phase is ATTENTION in every state from q up to the last step of r. */
  predicate AttentionThroughout(q: Run, r: Run)
    requires Legal(r)
  {
    r == q || (r.Then? && End(r.before).monitor.phase == M.ATTENTION && AttentionThroughout(q, r.before))
  }

  lemma GateIsConstant(s: System, a: Action)
    requires Enabled(s, a)
    ensures Apply(s, a).strictGate == s.strictGate
  {
  }

  lemma {:induction false} BudgetNeverGrows(q: Run, r: Run)
    requires Legal(q) && Legal(r) && AttentionThroughout(q, r) && End(q).strictGate
    ensures End(r).strictGate && WellFormed(End(q)) && WellFormed(End(r))
    ensures GateBudget(End(r)) <= GateBudget(End(q))
  {
    if r == q {
      RunKeepsLink(q);
    } else {
      BudgetNeverGrows(q, r.before);
      RunKeepsLink(r.before);
      StepKeepsBudget(End(r.before), r.act);
      GateIsConstant(End(r.before), r.act);
    }
  }

  /** With strict gating at most one block is submitted while the phase stays ATTENTION, and none
      if the daemon had not passed its gate before. */
  lemma AtMostOneBlockPerAttention(q: Run, r: Run)
    requires Legal(q) && Legal(r) && AttentionThroughout(q, r) && End(q).strictGate
    ensures |End(r).submitted| <= |End(q).submitted| + 1
    ensures WellFormed(End(q)) && (!PastGate(End(q)) ==> |End(r).submitted| <= |End(q).submitted|)
  {
    BudgetNeverGrows(q, r);
  }

  // ---------------------------------------------------------------------------------------
  // Rate of the submitted bytes
  // ---------------------------------------------------------------------------------------

  /** What the run looks like to the token bucket. */
  function BucketRun(r: Run): (b: B.Run)
    requires Legal(r)
    ensures B.Legal(b)
  {
    match r
    case Start(s) => B.Start(s.bucket)
    case Then(q, a) =>
      if a.DaemonMove? && End(q).daemon.Throttle?
      then B.Then(BucketRun(q), a.now, End(q).daemon.blk.sizeBytes)
      else BucketRun(q)
  }

  lemma BucketStep(s: System, a: Action)
    requires Enabled(s, a)
    ensures Apply(s, a).bucket ==
              if a.DaemonMove? && s.daemon.Throttle? then s.bucket.Consumed(a.now, s.daemon.blk.sizeBytes)
              else s.bucket
  {
  }

  lemma {:induction false} BucketRunMatches(r: Run)
    requires Legal(r)
    ensures B.End(BucketRun(r)) == End(r).bucket
  {
    match r
    case Start(_) =>
    case Then(q, a) =>
      BucketRunMatches(q);
      BucketStep(End(q), a);
  }

  lemma {:induction false} BucketRunExtends(q: Run, r: Run)
    requires Legal(q) && Legal(r) && Extends(r, q)
    ensures B.Extends(BucketRun(r), BucketRun(q))
  {
    if r != q {
      BucketRunExtends(q, r.before);
    }
  }

  function Bytes(blocks: seq<KVBlock>): nat {
    if blocks == [] then 0 else Bytes(blocks[..|blocks| - 1]) + blocks[|blocks| - 1].sizeBytes
  }

  lemma BytesAppend(blocks: seq<KVBlock>, b: KVBlock)
    ensures Bytes(blocks + [b]) == Bytes(blocks) + b.sizeBytes
  {
    assert (blocks + [b])[..|blocks + [b]| - 1] == blocks;
  }

  /** The bytes granted and about to be submitted. */
  function OnTheWay(s: System): nat {
    if s.daemon.Flushing? then s.daemon.blk.sizeBytes else 0
  }

  /** Bytes submitted, counting the block that is about to be. */
  function Volume(s: System): nat {
    Bytes(s.submitted) + OnTheWay(s)
  }

  /** Steps at other places than the throttle and the flush leave the volume alone. */
  lemma OtherVolume(s: System, a: Action)
    requires Enabled(s, a) && !(a.DaemonMove? && (s.daemon.Throttle? || s.daemon.Flushing?))
    ensures Apply(s, a).submitted == s.submitted && OnTheWay(Apply(s, a)) == OnTheWay(s) && !GivenUp(s, a)
  {
  }

  /** Only a throttle step that is granted something adds to the volume: the whole block.  Only a
      give-up takes from it. */
  lemma StepVolume(s: System, a: Action)
    requires Enabled(s, a)
    ensures Volume(Apply(s, a)) + (if GivenUp(s, a) then s.daemon.blk.sizeBytes else 0)
         == Volume(s) + (if a.DaemonMove? && s.daemon.Throttle? && s.bucket.Grant(a.now, s.daemon.blk.sizeBytes) > 0
                         then s.daemon.blk.sizeBytes else 0)
  {
    if a.DaemonMove? && s.daemon.Flushing? {
      BytesAppend(s.submitted, s.daemon.blk);
    } else if !(a.DaemonMove? && s.daemon.Throttle?) {
      OtherVolume(s, a);
    }
  }

  /** The bytes of the blocks given up for want of a submission entry. */
  function GivenUpBytes(r: Run): nat
    requires Legal(r)
  {
    match r
    case Start(_) => 0
    case Then(q, a) => GivenUpBytes(q) + (if GivenUp(End(q), a) then End(q).daemon.blk.sizeBytes else 0)
  }

  /** Every block that was granted something is submitted whole, about to be, or given up. */
  lemma {:induction false} VolumeIsAsked(r: Run)
    requires Legal(r)
    ensures Volume(End(r)) + GivenUpBytes(r) == B.Asked(BucketRun(r))
  {
    match r
    case Start(_) =>
    case Then(q, a) =>
      VolumeIsAsked(q);
      StepVolume(End(q), a);
      BucketRunMatches(q);
  }

  /** In every run: bytes submitted, in hand on their way to it, and given up are the bytes granted and
      those by which partial grants fell short. */
  lemma SubmittedAccount(r: Run)
    requires Legal(r)
    ensures Volume(End(r)) + GivenUpBytes(r) == B.Granted(BucketRun(r)) + B.Shortfall(BucketRun(r))
  {
    VolumeIsAsked(r);
    B.AskedIsGrantedAndShort(BucketRun(r));
  }

  lemma {:induction false} GivenUpOnlyGrows(q: Run, r: Run)
    requires Legal(q) && Legal(r) && Extends(r, q)
    ensures GivenUpBytes(q) <= GivenUpBytes(r)
  {
    if r != q { GivenUpOnlyGrows(q, r.before); }
  }

  lemma {:induction false} WantsAreSmall(r: Run, most: nat)
    requires Legal(r) && SmallCalls(r, most)
    ensures B.WantsAtMost(BucketRun(r), most)
  {
    if r.Then? {
      WantsAreSmall(r.before, most);
      RunStaysSmall(r.before, most);
    }
  }

  lemma {:induction false} ExtendsStep(q: Run, a: Action, r: Run)
    requires Extends(r, Then(q, a))
    ensures Extends(r, q)
  {
    if r != Then(q, a) {
      ExtendsStep(q, a, r.before);
    }
  }

  /** The bytes submitted over a window that starts with nothing on its way to submission. */
  lemma SubmittedIsAsked(q: Run, r: Run) returns (bytes: int)
    requires Legal(q) && Legal(r) && Extends(r, q) && !End(q).daemon.Flushing?
    ensures bytes == Bytes(End(r).submitted) - Bytes(End(q).submitted)
    ensures bytes <= B.Asked(BucketRun(r)) - B.Asked(BucketRun(q))
  {
    bytes := Bytes(End(r).submitted) - Bytes(End(q).submitted);
    VolumeIsAsked(q);
    VolumeIsAsked(r);
    GivenUpOnlyGrows(q, r);
  }

  /** What is submitted over a window is covered, byte for byte, by what the bucket granted in it,
      if all its grants were full. */
  lemma SubmittedIsGranted(q: Run, r: Run) returns (bytes: int)
    requires Legal(q) && Legal(r) && Extends(r, q) && !End(q).daemon.Flushing?
    requires B.AllOrNothing(BucketRun(q), BucketRun(r))
    ensures bytes == Bytes(End(r).submitted) - Bytes(End(q).submitted)
    ensures bytes <= B.Granted(BucketRun(r)) - B.Granted(BucketRun(q))
  {
    bytes := SubmittedIsAsked(q, r);
    BucketRunExtends(q, r);
    B.FullGrantsCoverAsked(BucketRun(q), BucketRun(r));
  }

  /** Each byte granted from q to r pays for at most `most` of the given bytes. */
  ghost predicate PaidFor(q: B.Run, r: B.Run, most: nat, bytes: int)
    requires B.Legal(q) && B.Legal(r)
  {
    B.Granted(q) <= B.Granted(r) && bytes <= Pays(most, B.Granted(r) - B.Granted(q))
  }

  function Pays(most: nat, granted: nat): nat { most * granted }

  lemma AskedIsPaidFor(q: B.Run, r: B.Run, most: nat, bytes: int)
    requires B.Legal(q) && B.Legal(r) && B.Extends(r, q) && B.WantsAtMost(r, most)
    requires bytes <= B.Asked(r) - B.Asked(q)
    ensures PaidFor(q, r, most, bytes)
  {
    B.AnyGrantsCoverAsked(q, r, most);
    B.ScaledIsProduct(most, B.Granted(r) - B.Granted(q));
  }

  /** In general a partial grant still submits the whole block, and each granted byte pays for at
      most the largest block. */
  lemma SubmittedIsScaledGrant(q: Run, r: Run, most: nat) returns (bytes: int)
    requires Legal(q) && Legal(r) && Extends(r, q) && !End(q).daemon.Flushing? && SmallCalls(r, most)
    ensures bytes == Bytes(End(r).submitted) - Bytes(End(q).submitted)
    ensures PaidFor(BucketRun(q), BucketRun(r), most, bytes)
  {
    bytes := SubmittedIsAsked(q, r);
    BucketRunExtends(q, r);
    WantsAreSmall(r, most);
    AskedIsPaidFor(BucketRun(q), BucketRun(r), most, bytes);
  }

  /** The bucket's calls over the window from the throttle step after q to the end of r. */
  ghost predicate IsWindow(q: B.Run, a: B.Run, r: B.Run) {
    && B.Legal(q) && B.Legal(a) && B.Legal(r) && a.Then? && a.before == q && B.Extends(r, a) && B.Extends(r, q)
    && B.End(a).last <= B.End(r).last
  }

  /** What a bucket may grant in a time. */
  function BurstAndRate(burst: real, rate: real, ns: nat): real {
    burst + rate * ns as real
  }

  /** burst + rate * elapsed for that window. */
  ghost function Allowance(q: B.Run, a: B.Run, r: B.Run): real
    requires IsWindow(q, a, r)
  {
    BurstAndRate(B.End(q).burst, B.End(q).rate, B.End(r).last - B.End(a).last)
  }

  lemma EarnedIsAllowed(x: real, burst: real, rate: real, ns: nat)
    requires x <= burst + B.Earned(rate, ns)
    ensures x <= BurstAndRate(burst, rate, ns)
  {
    B.EarnedIsProduct(rate, ns);
  }

  lemma ThrottleOpensWindow(q: Run, a: Action, r: Run)
    requires Legal(q) && Legal(Then(q, a)) && Legal(r) && Extends(r, Then(q, a))
    requires a.DaemonMove? && End(q).daemon.Throttle?
    ensures IsWindow(BucketRun(q), BucketRun(Then(q, a)), BucketRun(r))
  {
    ExtendsStep(q, a, r);
    BucketRunExtends(q, r);
    BucketRunExtends(Then(q, a), r);
    B.RateBound(BucketRun(q), a.now, End(q).daemon.blk.sizeBytes, BucketRun(r));
  }

  /** The rate bound on those grants, over every window of every run that opens with a throttle
      step: burst + rate * elapsed, where time is the bucket's own clock. */
  lemma GrantedRateBound(q: B.Run, a: B.Run, r: B.Run)
    requires IsWindow(q, a, r)
    ensures B.Granted(q) <= B.Granted(r) && (B.Granted(r) - B.Granted(q)) as real <= Allowance(q, a, r)
  {
    B.GrantsOnlyGrow(q, r);
    B.RateBound(q, a.now, a.want, r);
    EarnedIsAllowed((B.Granted(r) - B.Granted(q)) as real, B.End(q).burst, B.End(q).rate,
                    B.End(r).last - B.End(a).last);
  }

  /** most * x, counted up; MultipleIsProduct says that it is the product. */
  ghost function Multiple(most: nat, x: real): real {
    if most == 0 then 0.0 else Multiple(most - 1, x) + x
  }

  lemma {:induction false} MultipleIsProduct(most: nat, x: real)
    ensures Multiple(most, x) == most as real * x
  {
    if most > 0 {
      MultipleIsProduct(most - 1, x);
      assert most as real == (most - 1) as real + 1.0;
      assert ((most - 1) as real + 1.0) * x == (most - 1) as real * x + x;
    }
  }

  lemma {:induction false} ScaledSplits(most: nat, k: nat)
    ensures most == 0 ==> B.Scaled(most, k) == 0
    ensures most > 0 ==> B.Scaled(most, k) == B.Scaled(most - 1, k) + k
  {
    if k > 0 { ScaledSplits(most, k - 1); }
  }

  lemma {:induction false} ScaledBound(most: nat, granted: nat, allowance: real)
    requires granted as real <= allowance
    ensures B.Scaled(most, granted) as real <= Multiple(most, allowance)
  {
    ScaledSplits(most, granted);
    if most > 0 { ScaledBound(most - 1, granted, allowance); }
  }

  lemma PaidInFull(q: B.Run, a: B.Run, r: B.Run, bytes: int)
    requires IsWindow(q, a, r) && bytes <= B.Granted(r) - B.Granted(q)
    ensures WithinAllowance(q, a, r, bytes)
  {
    GrantedRateBound(q, a, r);
  }

  /** The bytes are within `most` times the allowance of the window. */
  ghost predicate WithinScaled(q: B.Run, a: B.Run, r: B.Run, most: nat, bytes: int)
    requires IsWindow(q, a, r)
  {
    bytes as real <= Enlarged(most, Allowance(q, a, r))
  }

  function Enlarged(most: nat, x: real): real { most as real * x }

  lemma ScaledIsWithin(most: nat, granted: nat, allowance: real, bytes: int)
    requires granted as real <= allowance && bytes <= Pays(most, granted)
    ensures bytes as real <= Enlarged(most, allowance)
  {
    B.ScaledIsProduct(most, granted);
    ScaledBound(most, granted, allowance);
    MultipleIsProduct(most, allowance);
  }

  lemma PaidInPart(q: B.Run, a: B.Run, r: B.Run, most: nat, bytes: int)
    requires IsWindow(q, a, r) && PaidFor(q, r, most, bytes)
    ensures WithinScaled(q, a, r, most, bytes)
  {
    GrantedRateBound(q, a, r);
    ScaledIsWithin(most, B.Granted(r) - B.Granted(q), Allowance(q, a, r), bytes);
  }

  /** Over any window that opens with a throttle step, the daemon submits no more than the window's
      allowance if every grant in it is full. */
  lemma SubmittedRateBound(q: Run, r: Run, a: B.Run) returns (bytes: int)
    requires Legal(q) && Legal(r) && Extends(r, q) && !End(q).daemon.Flushing?
    requires IsWindow(BucketRun(q), a, BucketRun(r)) && B.AllOrNothing(BucketRun(q), BucketRun(r))
    ensures bytes == Bytes(End(r).submitted) - Bytes(End(q).submitted)
    ensures WithinAllowance(BucketRun(q), a, BucketRun(r), bytes)
  {
    bytes := SubmittedIsGranted(q, r);
    PaidInFull(BucketRun(q), a, BucketRun(r), bytes);
  }

  /** The bytes submitted over a window, those on their way, and those given up in it. */
  ghost function Moved(q: Run, r: Run): int
    requires Legal(q) && Legal(r)
  {
    Bytes(End(r).submitted) - Bytes(End(q).submitted) + OnTheWay(End(r)) + GivenUpBytes(r) - GivenUpBytes(q)
  }

  /** They are the bytes granted in it and those by which partial grants fell short; nothing falls short
      exactly if every call found all it wanted, or not even one byte. */
  lemma WindowAccount(q: Run, r: Run)
    requires Legal(q) && Legal(r) && Extends(r, q) && !End(q).daemon.Flushing?
    ensures var x, z := BucketRun(q), BucketRun(r);
            && Moved(q, r) == B.Granted(z) - B.Granted(x) + B.Shortfall(z) - B.Shortfall(x)
            && B.Shortfall(x) <= B.Shortfall(z)
            && (B.Shortfall(z) == B.Shortfall(x) <==> B.AllOrNothing(x, z))
  {
    SubmittedAccount(q);
    SubmittedAccount(r);
    BucketRunExtends(q, r);
    B.NothingIsShortExactlyWhen(BucketRun(q), BucketRun(r));
  }

  /** The shortfall of a window is covered by what was not granted of its allowance, and by blocks that
      were granted but not submitted. */
  ghost predicate ShortfallIsCovered(x: B.Run, a: B.Run, z: B.Run, unsubmitted: int)
    requires IsWindow(x, a, z)
  {
    (B.Shortfall(z) - B.Shortfall(x)) as real
      <= Allowance(x, a, z) - (B.Granted(z) - B.Granted(x)) as real + unsubmitted as real
  }

  ghost predicate WithinAllowance(x: B.Run, a: B.Run, z: B.Run, bytes: int)
    requires IsWindow(x, a, z)
  {
    bytes as real <= Allowance(x, a, z)
  }

  /** The bytes submitted are within the allowance exactly if the shortfall is covered. */
  ghost predicate BoundIsCover(x: B.Run, a: B.Run, z: B.Run, bytes: int, unsubmitted: int)
    requires IsWindow(x, a, z)
  {
    WithinAllowance(x, a, z, bytes) <==> ShortfallIsCovered(x, a, z, unsubmitted)
  }

  lemma CoveredExactlyWhen(x: B.Run, a: B.Run, z: B.Run, bytes: int, unsubmitted: int)
    requires IsWindow(x, a, z)
    requires bytes + unsubmitted == B.Granted(z) - B.Granted(x) + B.Shortfall(z) - B.Shortfall(x)
    ensures BoundIsCover(x, a, z, bytes, unsubmitted)
  {
  }

  /** In every window the daemon submits no more than the allowance exactly if the shortfall is covered. */
  lemma SubmittedRateExactlyWhen(q: Run, r: Run, a: B.Run) returns (bytes: int, unsubmitted: int)
    requires Legal(q) && Legal(r) && Extends(r, q) && !End(q).daemon.Flushing?
    requires IsWindow(BucketRun(q), a, BucketRun(r))
    ensures bytes == Bytes(End(r).submitted) - Bytes(End(q).submitted)
    ensures unsubmitted == OnTheWay(End(r)) + GivenUpBytes(r) - GivenUpBytes(q)
    ensures BoundIsCover(BucketRun(q), a, BucketRun(r), bytes, unsubmitted)
  {
    WindowAccount(q, r);
    bytes := Bytes(End(r).submitted) - Bytes(End(q).submitted);
    unsubmitted := OnTheWay(End(r)) + GivenUpBytes(r) - GivenUpBytes(q);
    CoveredExactlyWhen(BucketRun(q), a, BucketRun(r), bytes, unsubmitted);
  }

  /** The whole allowance of the window has been granted. */
  ghost predicate IsSpent(x: B.Run, a: B.Run, z: B.Run)
    requires IsWindow(x, a, z)
  {
    (B.Granted(z) - B.Granted(x)) as real == Allowance(x, a, z)
  }

  /** The bytes submitted are within the allowance exactly if no grant of the window was partial. */
  ghost predicate BoundIsFullness(x: B.Run, a: B.Run, z: B.Run, bytes: int)
    requires IsWindow(x, a, z)
  {
    WithinAllowance(x, a, z, bytes) <==> B.AllOrNothing(x, z)
  }

  lemma SpentExactly(x: B.Run, a: B.Run, z: B.Run, bytes: int)
    requires IsWindow(x, a, z) && IsSpent(x, a, z) && BoundIsCover(x, a, z, bytes, 0)
    ensures BoundIsFullness(x, a, z, bytes)
  {
    B.NothingIsShortExactlyWhen(x, z);
  }

  /** So when the whole allowance has been granted, and no granted block is on its way or was given up,
      the rate bound holds exactly if no grant of the window was partial. */
  lemma SpentWindowExactly(q: Run, r: Run, a: B.Run) returns (bytes: int)
    requires Legal(q) && Legal(r) && Extends(r, q) && !End(q).daemon.Flushing? && !End(r).daemon.Flushing?
    requires IsWindow(BucketRun(q), a, BucketRun(r)) && IsSpent(BucketRun(q), a, BucketRun(r))
    requires GivenUpBytes(r) == GivenUpBytes(q)
    ensures bytes == Bytes(End(r).submitted) - Bytes(End(q).submitted)
    ensures BoundIsFullness(BucketRun(q), a, BucketRun(r), bytes)
  {
    var unsubmitted;
    bytes, unsubmitted := SubmittedRateExactlyWhen(q, r, a);
    SpentExactly(BucketRun(q), a, BucketRun(r), bytes);
  }

  /** A partial grant submits the whole block, so in general the bound is the largest block times
      the allowance. */
  lemma SubmittedScaledBound(q: Run, r: Run, a: B.Run, most: nat) returns (bytes: int)
    requires Legal(q) && Legal(r) && Extends(r, q) && !End(q).daemon.Flushing? && SmallCalls(r, most)
    requires IsWindow(BucketRun(q), a, BucketRun(r))
    ensures bytes == Bytes(End(r).submitted) - Bytes(End(q).submitted)
    ensures WithinScaled(BucketRun(q), a, BucketRun(r), most, bytes)
  {
    bytes := SubmittedIsScaledGrant(q, r, most);
    PaidInPart(BucketRun(q), a, BucketRun(r), most, bytes);
  }

  // Every block in the system is one that some producer called `absorb` with.

  predicate SmallCalls(r: Run, most: nat) {
    match r
    case Start(_) => true
    case Then(q, a) =>
      SmallCalls(q, most) && (a.Producer? && a.a.Call? ==> a.a.blk.sizeBytes <= most)
  }

  ghost predicate SmallRing(s: R.State, most: nat) {
    && (forall k | 0 <= k < |s.log| :: s.log[k].blk.sizeBytes <= most)
    && (forall i | 0 <= i < |s.producers| :: !s.producers[i].Idle? ==> s.producers[i].blk.sizeBytes <= most)
  }

  predicate SmallHand(s: System, most: nat) {
    s.daemon.Throttle? || s.daemon.Flushing? || s.daemon.Reabsorbing? ==> s.daemon.blk.sizeBytes <= most
  }

  lemma RingStaysSmall(s: R.State, x: R.Action, most: nat)
    requires RI.Inv(s) && R.Enabled(s, x) && SmallRing(s, most) && (x.Call? ==> x.blk.sizeBytes <= most)
    ensures SmallRing(R.Apply(s, x), most)
  {
    if x.Produce? { assert RI.ProducerInv(s, x.i); }
  }

  lemma HandStaysSmall(s: System, a: Action, most: nat)
    requires Enabled(s, a) && Link(s) && RI.Inv(s.ring) && SmallRing(s.ring, most) && SmallHand(s, most)
    ensures SmallHand(Apply(s, a), most)
  {
    if a.DaemonMove? && s.daemon.Draining? { DrainedIsLogged(s.ring); }
  }

  lemma StepStaysSmall(s: System, a: Action, most: nat)
    requires Enabled(s, a) && Link(s) && RI.Inv(s.ring) && SmallRing(s.ring, most) && SmallHand(s, most)
    requires a.Producer? && a.a.Call? ==> a.a.blk.sizeBytes <= most
    ensures SmallRing(Apply(s, a).ring, most)
  {
    RingMoveIsARingStep(s, a);
    if RingMove(s, a).Some? { RingStaysSmall(s.ring, RingMove(s, a).value, most); }
  }

  lemma {:induction false} RunStaysSmall(r: Run, most: nat)
    requires Legal(r) && SmallCalls(r, most)
    ensures SmallRing(End(r).ring, most) && SmallHand(End(r), most)
  {
    match r
    case Start(_) =>
    case Then(q, a) =>
      RunStaysSmall(q, most);
      RunKeepsLink(q);
      StepStaysSmall(End(q), a, most);
      HandStaysSmall(End(q), a, most);
  }

  lemma DrainedIsLogged(s: R.State)
    requires RI.Inv(s)
    ensures match s.consumer
            case Drained(Some(b)) => exists k | 0 <= k < |s.log| :: s.log[k].blk == b
            case _ => true
  {
  }
}
