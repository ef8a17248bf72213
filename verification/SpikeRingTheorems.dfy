/** What every run of the ring guarantees, stated on the trace of actions alone. */
module SpikeRingTheorems {
  import opened Basics
  import opened SpikeRing
  import opened SpikeRingInvariant

  /** A run from a fresh ring, written action after action. */
  datatype Run = Start(first: State) | Then(before: Run, act: Action)

  predicate Legal(r: Run)
    decreases r, 0
  {
    match r
    case Start(s) => Init(s)
    case Then(q, a) => Legal(q) && Enabled(End(q), a)
  }

  /** The state a run ends in. */
  function End(r: Run): (s: State)
    requires Legal(r)
    ensures s.Capacity() > 0
    decreases r, 1
  {
    match r
    case Start(s) => s
    case Then(q, a) => Apply(End(q), a)
  }

  // ---------------------------------------------------------------------------------------
  // Events: what a step shows to the outside
  // ---------------------------------------------------------------------------------------

  datatype Claimed = Claimed(owner: nat, blk: KVBlock)

  /** A compare-exchange on the enqueue position that succeeds. */
  function ClaimEvent(s: State, a: Action): seq<Claimed>
    requires Enabled(s, a)
  {
    match a
    case Produce(i, spurious, _) =>
      (match s.producers[i]
       case Claim(b, pos) => if s.enq == pos && !spurious then [Claimed(i, b)] else []
       case _ => [])
    case _ => []
  }

  /** `drain` returns a block. */
  function DeliverEvent(s: State, a: Action): seq<KVBlock> {
    if a.Consume? && s.consumer.Drained? && s.consumer.result.Some? then [s.consumer.result.value] else []
  }

  /** `absorb` returns true to producer i. */
  function AcceptEvent(s: State, a: Action, i: nat): seq<KVBlock>
    requires Enabled(s, a)
  {
    if a.Produce? && a.i == i && s.producers[i].Returned? && s.producers[i].ok then [s.producers[i].blk] else []
  }

  function Claims(r: Run): seq<Claimed>
    requires Legal(r)
  {
    match r
    case Start(_) => []
    case Then(q, a) => Claims(q) + ClaimEvent(End(q), a)
  }

  function Delivered(r: Run): seq<KVBlock>
    requires Legal(r)
  {
    match r
    case Start(_) => []
    case Then(q, a) => Delivered(q) + DeliverEvent(End(q), a)
  }

  function Accepted(r: Run, i: nat): seq<KVBlock>
    requires Legal(r)
  {
    match r
    case Start(_) => []
    case Then(q, a) => Accepted(q, i) + AcceptEvent(End(q), a, i)
  }

  function Blocks(claims: seq<Claimed>): (bs: seq<KVBlock>)
    ensures |bs| == |claims| && forall k | 0 <= k < |bs| :: bs[k] == claims[k].blk
  {
    if claims == [] then [] else Blocks(claims[..|claims| - 1]) + [claims[|claims| - 1].blk]
  }

  /** The blocks claimed by producer i, in claim order. */
  function OfProducer(claims: seq<Claimed>, i: nat): seq<KVBlock> {
    if claims == [] then []
    else
      var last := claims[|claims| - 1];
      OfProducer(claims[..|claims| - 1], i) + (if last.owner == i then [last.blk] else [])
  }

  // ---------------------------------------------------------------------------------------
  // Runs keep the invariant, and the log records the claims
  // ---------------------------------------------------------------------------------------

  lemma {:induction false} RunKeepsInv(r: Run)
    requires Legal(r)
    ensures Inv(End(r))
  {
    match r
    case Start(s) => InitInv(s);
    case Then(q, a) =>
      RunKeepsInv(q);
      StepKeepsInv(End(q), a);
  }

  ghost predicate Records(log: seq<Entry>, claims: seq<Claimed>) {
    |log| == |claims| && forall k | 0 <= k < |log| :: log[k].blk == claims[k].blk && log[k].owner == claims[k].owner
  }

  /** A step appends to the log what it claims, and otherwise only publishes. */
  lemma StepRecordsClaim(s: State, a: Action, claims: seq<Claimed>)
    requires Inv(s) && Enabled(s, a) && Records(s.log, claims)
    ensures Records(Apply(s, a).log, claims + ClaimEvent(s, a))
  {
    if a.Produce? {
      assert ProducerInv(s, a.i);
    }
  }

  lemma {:induction false} LogRecordsClaims(r: Run)
    requires Legal(r)
    ensures Records(End(r).log, Claims(r))
  {
    match r
    case Start(_) =>
    case Then(q, a) =>
      RunKeepsInv(q);
      LogRecordsClaims(q);
      StepRecordsClaim(End(q), a, Claims(q));
  }

  /** The block that `drain` has taken off the head and not yet returned. */
  function BeingDelivered(s: State): seq<KVBlock> {
    match s.consumer
    case CountDrained(out) => [out]
    case Drained(Some(out)) => [out]
    case _ => []
  }

  ghost predicate FollowsLog(s: State, taken: seq<KVBlock>) {
    |taken| == s.deq <= |s.log| && forall k | 0 <= k < |taken| :: taken[k] == s.log[k].blk
  }

  lemma ProducerKeepsFollowing(s: State, a: Action, taken: seq<KVBlock>)
    requires Inv(s) && Enabled(s, a) && !a.Consume? && FollowsLog(s, taken)
    ensures FollowsLog(Apply(s, a), taken) && Apply(s, a).consumer == s.consumer
  {
    if a.Produce? { assert ProducerInv(s, a.i); }
  }

  lemma ConsumerKeepsFollowing(s: State, taken: seq<KVBlock>)
    requires Inv(s) && FollowsLog(s, taken + BeingDelivered(s))
    ensures FollowsLog(ConsumerStep(s), taken + DeliverEvent(s, Consume) + BeingDelivered(ConsumerStep(s)))
  {
    var t := ConsumerStep(s);
    if s.consumer.Advance? {
      assert taken + BeingDelivered(s) == taken;
    } else {
      assert taken + DeliverEvent(s, Consume) + BeingDelivered(t) == taken + BeingDelivered(s);
    }
  }

  /** Only the head store takes a block off the ring, and it takes the one at the head. */
  lemma StepFollowsLog(s: State, a: Action, taken: seq<KVBlock>)
    requires Inv(s) && Enabled(s, a) && FollowsLog(s, taken + BeingDelivered(s))
    ensures FollowsLog(Apply(s, a), taken + DeliverEvent(s, a) + BeingDelivered(Apply(s, a)))
  {
    if a.Consume? {
      ConsumerKeepsFollowing(s, taken);
    } else {
      ProducerKeepsFollowing(s, a, taken + BeingDelivered(s));
      assert taken + DeliverEvent(s, a) == taken;
    }
  }

  lemma {:induction false} DeliveriesFollowTheLog(r: Run)
    requires Legal(r)
    ensures FollowsLog(End(r), Delivered(r) + BeingDelivered(End(r)))
  {
    match r
    case Start(_) =>
    case Then(q, a) =>
      RunKeepsInv(q);
      DeliveriesFollowTheLog(q);
      StepFollowsLog(End(q), a, Delivered(q));
  }

  /** The ring refines a FIFO queue: over any run the blocks that `drain` returned are, in order
      and each exactly once, the first blocks in the order of successful claims. */
  lemma RingIsFifo(r: Run)
    requires Legal(r)
    ensures Delivered(r) <= Blocks(Claims(r))
    ensures |Delivered(r)| + |BeingDelivered(End(r))| == End(r).deq
    ensures |Claims(r)| == End(r).enq
  {
    RunKeepsInv(r);
    LogRecordsClaims(r);
    DeliveriesFollowTheLog(r);
    var d, all := Delivered(r), Delivered(r) + BeingDelivered(End(r));
    forall k | 0 <= k < |d| ensures d[k] == Blocks(Claims(r))[k] {
      assert d[k] == all[k];
    }
  }

  /** Producer i has claimed but `absorb` has not yet returned. */
  function InFlight(s: State, i: nat): seq<KVBlock> {
    if i >= |s.producers| then []
    else
      var p := s.producers[i];
      if Writing(p) || p.CountAbsorbed? || (p.Returned? && p.ok) then [p.blk] else []
  }

  lemma OfProducerAppend(claims: seq<Claimed>, s: State, a: Action, i: nat)
    requires Enabled(s, a)
    ensures OfProducer(claims + ClaimEvent(s, a), i) == OfProducer(claims, i) + OfProducer(ClaimEvent(s, a), i)
  {
    var c := ClaimEvent(s, a);
    if c == [] {
      assert claims + c == claims;
    } else {
      assert (claims + c)[..|claims + c| - 1] == claims;
      assert c[..0] == [];
    }
  }

  lemma OwnAcceptStep(s: State, i: nat, spurious: bool, torn: KVBlock)
    requires s.Capacity() > 0 && Enabled(s, Produce(i, spurious, torn))
    ensures var a := Produce(i, spurious, torn);
            AcceptEvent(s, a, i) + InFlight(Apply(s, a), i) == InFlight(s, i) + OfProducer(ClaimEvent(s, a), i)
  {
    var a := Produce(i, spurious, torn);
    var p, c := s.producers[i], ClaimEvent(s, a);
    if c != [] { assert c[..0] == []; }
    if Writing(p) || p.CountAbsorbed? { assert c == [] && InFlight(Apply(s, a), i) == [p.blk]; }
  }

  lemma OtherAcceptStep(s: State, a: Action, i: nat)
    requires s.Capacity() > 0 && Enabled(s, a) && !(a.Produce? && a.i == i)
    ensures AcceptEvent(s, a, i) == [] && InFlight(Apply(s, a), i) == InFlight(s, i)
    ensures OfProducer(ClaimEvent(s, a), i) == []
  {
    var c := ClaimEvent(s, a);
    if c != [] { assert c[..0] == []; }
  }

  lemma AcceptStep(s: State, a: Action, i: nat)
    requires s.Capacity() > 0 && Enabled(s, a)
    ensures AcceptEvent(s, a, i) + InFlight(Apply(s, a), i) == InFlight(s, i) + OfProducer(ClaimEvent(s, a), i)
  {
    if a.Produce? && a.i == i {
      OwnAcceptStep(s, i, a.spurious, a.torn);
    } else {
      OtherAcceptStep(s, a, i);
    }
  }

  lemma Splice(done: seq<KVBlock>, open: seq<KVBlock>, all: seq<KVBlock>,
               done': seq<KVBlock>, open': seq<KVBlock>, all': seq<KVBlock>)
    requires done + open == all && done' + open' == open + all'
    ensures (done + done') + open' == all + all'
  {
    assert (done + done') + open' == done + (done' + open');
    assert done + (open + all') == (done + open) + all';
  }

  /** Each producer's accepted blocks are exactly its claims, in its own program order: `absorb`
      answers true once for each claim and never otherwise. */
  lemma {:induction false} AcceptedAreTheClaims(r: Run, i: nat)
    requires Legal(r)
    ensures Accepted(r, i) + InFlight(End(r), i) == OfProducer(Claims(r), i)
  {
    match r
    case Start(_) =>
    case Then(q, a) =>
      var u := End(q);
      AcceptedAreTheClaims(q, i);
      OfProducerAppend(Claims(q), u, a, i);
      AcceptStep(u, a, i);
      Splice(Accepted(q, i), InFlight(u, i), OfProducer(Claims(q), i),
             AcceptEvent(u, a, i), InFlight(Apply(u, a), i), OfProducer(ClaimEvent(u, a), i));
  }

  /** The step with which a call of `absorb` answers `ok`, */
  predicate Answers(s: State, a: Action, ok: bool)
    requires s.Capacity() > 0 && Enabled(s, a)
  {
    a.Produce? && !s.producers[a.i].Returned?
    && var p := ProducerStep(s, a.i, a.spurious, a.torn).producers[a.i]; p.Returned? && p.ok == ok
  }

  /** and the step with which `drain` answers with a block. */
  predicate Delivers(s: State, a: Action)
    requires s.Capacity() > 0
  {
    a.Consume? && !s.consumer.Drained?
    && var c := ConsumerStep(s).consumer; c.Drained? && c.result.Some?
  }

  ghost function AnswerCount(r: Run, ok: bool): nat
    requires Legal(r)
  {
    match r
    case Start(_) => 0
    case Then(q, a) => AnswerCount(q, ok) + if End(q).Capacity() > 0 && Answers(End(q), a, ok) then 1 else 0
  }

  ghost function DeliveryCount(r: Run): nat
    requires Legal(r)
  {
    match r
    case Start(_) => 0
    case Then(q, a) => DeliveryCount(q) + if End(q).Capacity() > 0 && Delivers(End(q), a) then 1 else 0
  }

  lemma CountStep(s: State, a: Action)
    requires s.Capacity() > 0 && Enabled(s, a)
    ensures var t := Apply(s, a);
            && t.absorbed == s.absorbed + (if Answers(s, a, true) then 1 else 0)
            && t.overflows == s.overflows + (if Answers(s, a, false) then 1 else 0)
            && t.drained == s.drained + (if Delivers(s, a) then 1 else 0)
  {
  }

  /** The counters say how often `absorb` answered true, how often false, and how many blocks `drain`
      returned. */
  lemma {:induction false} CountersAreTheAnswers(r: Run)
    requires Legal(r)
    ensures End(r).absorbed == AnswerCount(r, true) && End(r).overflows == AnswerCount(r, false)
    ensures End(r).drained == DeliveryCount(r)
  {
    match r
    case Start(_) =>
    case Then(q, a) =>
      CountersAreTheAnswers(q);
      RunKeepsInv(q);
      CountStep(End(q), a);
  }

  /** The argument of the latest call of `absorb` by producer i. */
  function LastCall(r: Run, i: nat): Option<KVBlock>
    requires Legal(r)
  {
    match r
    case Start(_) => None
    case Then(q, a) => if a.Call? && a.i == i then Some(a.blk) else LastCall(q, i)
  }

  /** A step leaves a producer idle, or with the block of its call. */
  lemma StepKeepsBlock(s: State, a: Action, i: nat)
    requires s.Capacity() > 0 && Enabled(s, a) && i < |s.producers|
    ensures |Apply(s, a).producers| == |s.producers|
    ensures var p := Apply(s, a).producers[i];
            !p.Idle? ==> p.blk == if a.Call? && a.i == i then a.blk else s.producers[i].blk
    ensures !Apply(s, a).producers[i].Idle? && !(a.Call? && a.i == i) ==> !s.producers[i].Idle?
  {
  }

  lemma {:induction false} BlockIsTheArgument(r: Run, i: nat)
    requires Legal(r) && i < |End(r).producers| && !End(r).producers[i].Idle?
    ensures LastCall(r, i) == Some(End(r).producers[i].blk)
  {
    match r
    case Start(_) =>
    case Then(q, a) =>
      RunKeepsInv(q);
      StepKeepsLength(End(q), a);
      StepKeepsBlock(End(q), a, i);
      if !(a.Call? && a.i == i) { BlockIsTheArgument(q, i); }
  }

  lemma StepKeepsLength(s: State, a: Action)
    requires s.Capacity() > 0 && Enabled(s, a)
    ensures |Apply(s, a).producers| == |s.producers|
  {
  }

  lemma EventsCarryTheBlock(s: State, a: Action, i: nat)
    requires s.Capacity() > 0 && Enabled(s, a) && i < |s.producers|
    ensures forall k | 0 <= k < |ClaimEvent(s, a)| && ClaimEvent(s, a)[k].owner == i ::
              !s.producers[i].Idle? && ClaimEvent(s, a)[k].blk == s.producers[i].blk
    ensures forall b | b in AcceptEvent(s, a, i) :: !s.producers[i].Idle? && b == s.producers[i].blk
  {
  }

  /** What a producer claims, and what it is told was absorbed, is the block it was called with. */
  lemma PayloadIsTheArgument(r: Run, a: Action, i: nat)
    requires Legal(r) && i < |End(r).producers| && Enabled(End(r), a)
    ensures !End(r).producers[i].Idle? ==> LastCall(r, i) == Some(End(r).producers[i].blk)
    ensures forall k | 0 <= k < |ClaimEvent(End(r), a)| && ClaimEvent(End(r), a)[k].owner == i ::
              LastCall(r, i) == Some(ClaimEvent(End(r), a)[k].blk)
    ensures forall b | b in AcceptEvent(End(r), a, i) :: LastCall(r, i) == Some(b)
  {
    RunKeepsInv(r);
    EventsCarryTheBlock(End(r), a, i);
    if !End(r).producers[i].Idle? { BlockIsTheArgument(r, i); }
  }

  // ---------------------------------------------------------------------------------------
  // Slot ownership
  // ---------------------------------------------------------------------------------------

  /** In every reachable state: two producers between claim and publish use different slots, the
      consumer reads or frees no slot that is being written, and the ring never overfills. */
  lemma SlotOwnership(r: Run, i: nat, j: nat)
    requires Legal(r) && i < |End(r).producers| && j < |End(r).producers|
    ensures var t := End(r); var n := t.Capacity();
            && (i != j && Writing(t.producers[i]) && Writing(t.producers[j]) ==>
                  Ix(t.producers[i].pos, n) != Ix(t.producers[j].pos, n))
            && ((t.consumer.Copy? || t.consumer.Release?) && Writing(t.producers[i]) ==>
                  Ix(t.consumer.pos, n) != Ix(t.producers[i].pos, n))
            && t.deq <= t.enq
            && t.enq - t.deq <= n + (if t.consumer.Advance? then 1 else 0)
  {
    RunKeepsInv(r);
    var t := End(r);
    assert ProducerInv(t, i) && ProducerInv(t, j);
    if Writing(t.producers[i]) && Writing(t.producers[j]) && i != j {
      DifferentSlots(t, t.producers[i].pos, t.producers[j].pos);
    }
    if (t.consumer.Copy? || t.consumer.Release?) && Writing(t.producers[i]) {
      DifferentSlots(t, t.consumer.pos, t.producers[i].pos);
    }
  }

  lemma DifferentSlots(s: State, p: nat, q: nat)
    requires Inv(s) && Head(s) <= p < s.enq && Head(s) <= q < s.enq && p != q
    ensures Ix(p, s.Capacity()) != Ix(q, s.Capacity())
  {
    if Ix(p, s.Capacity()) == Ix(q, s.Capacity()) {
      if p < q { SameSlot(p, q, s.Capacity()); } else { SameSlot(q, p, s.Capacity()); }
    }
  }

  /** Every slot carries the number of its current position p, or p + 1 once published. */
  lemma SlotNumbers(r: Run, k: nat) returns (p: nat)
    requires Legal(r) && k < End(r).Capacity()
    ensures var t := End(r);
            && Head(t) <= p < Head(t) + t.Capacity() && Ix(p, t.Capacity()) == k
            && t.slots[k].seqNo in {p, p + 1}
            && |t.log| == t.enq
            && (t.slots[k].seqNo == p + 1 <==> p < t.enq && t.log[p].published)
  {
    RunKeepsInv(r);
    var t := End(r);
    p := Occupant(k, Head(t), t.Capacity());
    assert SlotOf(t.slots, p) == t.slots[k];
  }

  // ---------------------------------------------------------------------------------------
  // Failed operations
  // ---------------------------------------------------------------------------------------

  /** `absorb` gives up exactly when it looks at the enqueue position and the ring is full there. */
  lemma AbsorbFailsOnlyWhenFull(r: Run, i: nat, spurious: bool, torn: KVBlock)
    requires Legal(r) && i < |End(r).producers| && End(r).producers[i].LoadSeq?
    ensures var t := End(r); var pos := t.producers[i].pos;
            ProducerStep(t, i, spurious, torn).producers[i].Overflow? <==>
              pos == t.enq == Head(t) + t.Capacity()
  {
    RunKeepsInv(r);
    var t := End(r);
    assert ProducerInv(t, i);
    SeqMeaning(t, t.producers[i].pos);
  }

  /** A compare-exchange that fails, lost to another producer or for no reason, only reloads the position. */
  lemma FailedExchangeReloads(s: State, i: nat, spurious: bool, torn: KVBlock)
    requires s.Capacity() > 0 && i < |s.producers| && s.producers[i].Claim?
    ensures var p := s.producers[i];
            ProducerStep(s, i, spurious, torn) == At(s, i, LoadSeq(p.blk, s.enq))
            <==> spurious || p.pos != s.enq
  {
    if !spurious && s.producers[i].pos == s.enq {
      assert ProducerStep(s, i, spurious, torn).enq != At(s, i, LoadSeq(s.producers[i].blk, s.enq)).enq;
    }
  }

  /** While a payload is being written its slot may hold anything. */
  lemma WritesMayTear(s: State, i: nat, spurious: bool, torn: KVBlock)
    requires s.Capacity() > 0 && i < |s.producers| && s.producers[i].BeginWrite?
    ensures SlotOf(ProducerStep(s, i, spurious, torn).slots, s.producers[i].pos).blk == torn
  {
  }

  /** `drain` reports empty exactly when the head position is unclaimed, or claimed by a producer
      that is still writing it. */
  lemma DrainFailsOnlyWhenUnpublished(r: Run)
    requires Legal(r) && End(r).consumer.Peek?
    ensures var t := End(r);
            ConsumerStep(t).consumer == Drained(None) <==>
              t.deq == t.enq
              || exists i: nat | i < |t.producers| :: Writing(t.producers[i]) && t.producers[i].pos == t.deq
  {
    RunKeepsInv(r);
    var t := End(r);
    SeqMeaning(t, t.deq);
    if t.deq < t.enq {
      assert SlotOf(t.slots, t.deq).seqNo == if t.log[t.deq].published then t.deq + 1 else t.deq;
      forall i: nat | i < |t.producers| && Writing(t.producers[i]) && t.producers[i].pos == t.deq
        ensures !t.log[t.deq].published
      {
        assert ProducerInv(t, i);
      }
    }
  }

  /** The enqueue position is a whole lap ahead of the head. */
  predicate IsFull(s: State) {
    s.enq == Head(s) + s.Capacity()
  }

  /** The ring was full in some state since producer i was called. */
  predicate FullDuringCall(r: Run, i: nat)
    requires Legal(r)
  {
    && i < |End(r).producers| && !End(r).producers[i].Idle?
    && (IsFull(End(r)) || (r.Then? && FullDuringCall(r.before, i)))
  }

  /** The producer has been turned away. */
  predicate TurnedAway(p: Producer) {
    p.Overflow? || (p.Returned? && !p.ok)
  }

  /** Only a look at a full ring turns a producer away. */
  lemma TurningAwayBegins(s: State, a: Action, i: nat)
    requires Inv(s) && Enabled(s, a) && i < |s.producers| && TurnedAway(Apply(s, a).producers[i])
    ensures TurnedAway(s.producers[i]) || (IsFull(s) && !s.producers[i].Idle?)
  {
    if s.producers[i].LoadSeq? {
      assert ProducerInv(s, i);
      SeqMeaning(s, s.producers[i].pos);
    }
  }

  /** `absorb` answers false only if the ring was full at some moment of this very call. */
  lemma {:induction false} FailureMeansFull(r: Run, i: nat)
    requires Legal(r) && i < |End(r).producers| && TurnedAway(End(r).producers[i])
    ensures FullDuringCall(r, i)
  {
    match r
    case Start(_) =>
    case Then(q, a) =>
      RunKeepsInv(q);
      StepKeepsLength(End(q), a);
      TurningAwayBegins(End(q), a, i);
      if TurnedAway(End(q).producers[i]) { FailureMeansFull(q, i); }
  }

  /** The head position is unclaimed, or claimed and not yet published. */
  predicate HeadUnpublished(s: State) {
    s.deq < |s.log| ==> !s.log[s.deq].published
  }

  /** The head was unpublished in some state since `drain` was called. */
  predicate EmptyDuringCall(r: Run)
    requires Legal(r)
  {
    !End(r).consumer.Resting? && (HeadUnpublished(End(r)) || (r.Then? && EmptyDuringCall(r.before)))
  }

  lemma ReportingEmptyBegins(s: State, a: Action)
    requires Inv(s) && Enabled(s, a) && Apply(s, a).consumer == Drained(None)
    ensures s.consumer == Drained(None) || (HeadUnpublished(s) && !s.consumer.Resting?)
  {
    SeqMeaning(s, s.deq);
    if s.deq < s.enq && s.consumer.Peek? {
      assert SlotOf(s.slots, s.deq).seqNo == if s.log[s.deq].published then s.deq + 1 else s.deq;
    }
  }

  /** `drain` reports empty only if the head was unpublished at some moment of this very call. */
  lemma {:induction false} EmptyMeansUnpublished(r: Run)
    requires Legal(r) && End(r).consumer == Drained(None)
    ensures EmptyDuringCall(r)
  {
    match r
    case Start(_) =>
    case Then(q, a) =>
      RunKeepsInv(q);
      ReportingEmptyBegins(End(q), a);
      if End(q).consumer == Drained(None) { EmptyMeansUnpublished(q); }
  }

  // ---------------------------------------------------------------------------------------
  // Every call comes to an end
  // ---------------------------------------------------------------------------------------

  /** Every step from q to r is one of producer i, with no spurious failure. */
  predicate AloneFrom(r: Run, q: Run, i: nat) {
    r == q || (r.Then? && r.act.Produce? && r.act.i == i && !r.act.spurious && AloneFrom(r.before, q, i))
  }

  /** How many steps the producer has before it at most. */
  function Rank(p: Producer, enq: nat): nat {
    match p
    case LoadSeq(_, pos) => if pos == enq then 9 else 12
    case Claim(_, pos) => if pos == enq then 8 else 11
    case LoadPos(_) => 10
    case BeginWrite(_, _) => 7
    case EndWrite(_, _) => 6
    case Publish(_, _) => 5
    case CountAbsorbed(_) => 4
    case Overflow(_) => 4
    case Returned(_, _) => 1
    case Idle => 0
  }

  /** What a producer that runs alone from here answers. */
  predicate Succeeds(s: State, i: nat)
    requires i < |s.producers|
  {
    match s.producers[i]
    case Idle => false
    case LoadPos(_) => !IsFull(s)
    case LoadSeq(_, _) => !IsFull(s)
    case Claim(_, _) => !IsFull(s)
    case Overflow(_) => false
    case Returned(_, ok) => ok
    case _ => true
  }

  lemma ProducerAdvances(s: State, i: nat, torn: KVBlock)
    requires Inv(s) && i < |s.producers| && !s.producers[i].Idle? && !s.producers[i].Returned?
    ensures var t := ProducerStep(s, i, false, torn);
            && i < |t.producers| && !t.producers[i].Idle? && t.producers[i].blk == s.producers[i].blk
            && Rank(t.producers[i], t.enq) < Rank(s.producers[i], s.enq)
            && (Succeeds(t, i) <==> Succeeds(s, i))
  {
    assert ProducerInv(s, i);
    if s.producers[i].LoadSeq? { SeqMeaning(s, s.producers[i].pos); }
  }

  /** A producer that runs alone returns, from wherever it stands and whatever the others are doing: true
      if it had claimed, and otherwise exactly if the ring is not full. */
  lemma {:induction false} ProducerFinishes(q: Run, i: nat) returns (r: Run)
    requires Legal(q) && i < |End(q).producers| && !End(q).producers[i].Idle?
    ensures Legal(r) && AloneFrom(r, q, i) && i < |End(r).producers|
    ensures End(r).producers[i] == Returned(End(q).producers[i].blk, Succeeds(End(q), i))
    decreases Rank(End(q).producers[i], End(q).enq)
  {
    RunKeepsInv(q);
    var p := End(q).producers[i];
    if p.Returned? {
      r := q;
    } else {
      ProducerAdvances(End(q), i, p.blk);
      var n := Then(q, Produce(i, false, p.blk));
      r := ProducerFinishes(n, i);
      AloneTrans(r, n, q, i);
    }
  }

  lemma {:induction false} AloneTrans(r: Run, n: Run, q: Run, i: nat)
    requires AloneFrom(r, n, i) && n.Then? && n.before == q && n.act.Produce? && n.act.i == i && !n.act.spurious
    ensures AloneFrom(r, q, i)
  {
    if r != n { AloneTrans(r.before, n, q, i); } else { assert AloneFrom(q, q, i); }
  }

  function ConsumerRank(c: Consumer): nat {
    match c
    case Peek(_) => 6
    case Copy(_) => 5
    case Release(_, _) => 4
    case Advance(_, _) => 3
    case CountDrained(_) => 2
    case Drained(_) => 1
    case Resting => 0
  }

  /** What `drain` returns if no producer moves any more. */
  function WillDrain(s: State): Option<KVBlock> {
    match s.consumer
    case CountDrained(b) => Some(b)
    case Drained(x) => x
    case Advance(_, b) => Some(b)
    case _ => if HeadUnpublished(s) then None else Some(s.log[s.deq].blk)
  }

  lemma ConsumerAdvances(s: State)
    requires Inv(s) && !s.consumer.Resting? && !s.consumer.Drained?
    ensures var t := ConsumerStep(s);
            ConsumerRank(t.consumer) < ConsumerRank(s.consumer) && !t.consumer.Resting? && WillDrain(t) == WillDrain(s)
  {
    SeqMeaning(s, s.deq);
    if s.deq < s.enq && s.consumer.Peek? {
      assert SlotOf(s.slots, s.deq).seqNo == if s.log[s.deq].published then s.deq + 1 else s.deq;
    }
  }

  /** Every step from q to r is one of the consumer. */
  predicate DrainFrom(r: Run, q: Run) {
    r == q || (r.Then? && r.act.Consume? && DrainFrom(r.before, q))
  }

  /** A consumer that runs alone returns, with the head block exactly if it is published. */
  lemma {:induction false} ConsumerFinishes(q: Run) returns (r: Run)
    requires Legal(q) && !End(q).consumer.Resting?
    ensures Legal(r) && DrainFrom(r, q) && End(r).consumer == Drained(WillDrain(End(q)))
    ensures ConsumerStep(End(r)).consumer.Resting?
    decreases ConsumerRank(End(q).consumer)
  {
    RunKeepsInv(q);
    if End(q).consumer.Drained? {
      r := q;
    } else {
      ConsumerAdvances(End(q));
      var n := Then(q, Consume);
      r := ConsumerFinishes(n);
      DrainTrans(r, n, q);
    }
  }

  lemma {:induction false} DrainTrans(r: Run, n: Run, q: Run)
    requires DrainFrom(r, n) && n == Then(q, Consume)
    ensures DrainFrom(r, q)
  {
    if r != n { DrainTrans(r.before, n, q); } else { assert DrainFrom(q, q); }
  }

  // ---------------------------------------------------------------------------------------
  // size_approx: two loads at different moments
  // ---------------------------------------------------------------------------------------

  predicate Extends(r: Run, q: Run) {
    r == q || (r.Then? && Extends(r.before, q))
  }

  lemma StepMovesHeadForward(s: State, a: Action)
    requires Inv(s) && Enabled(s, a)
    ensures Apply(s, a).Capacity() == s.Capacity() && s.deq <= Apply(s, a).deq
  {
  }

  lemma {:induction false} RunMovesHeadForward(q: Run, r: Run)
    requires Legal(q) && Legal(r) && Extends(r, q)
    ensures End(r).Capacity() == End(q).Capacity() && End(q).deq <= End(r).deq
  {
    if r != q {
      RunMovesHeadForward(q, r.before);
      RunKeepsInv(r.before);
      StepMovesHeadForward(End(r.before), r.act);
    }
  }

  /** `size_approx` loads the enqueue position and, any number of steps later, the dequeue
      position; the difference it returns is at most one more than the capacity. */
  lemma SizeIsBounded(q: Run, r: Run)
    requires Legal(q) && Legal(r) && Extends(r, q)
    ensures End(q).enq <= End(r).deq + End(r).Capacity() + 1
  {
    RunKeepsInv(q);
    RunMovesHeadForward(q, r);
  }
}
