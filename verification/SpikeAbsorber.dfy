/**
 `SpikeAbsorber` over its array of slots.

 `Absorb` and `Drain` are the two methods of the source run without being interrupted, from any
 reachable state, so other producers may be stopped half way through their own calls.  The object
 carries the run of the step machine that led to its state, and each method extends that run by
 its own steps, so the theorems on runs apply to the object.
 */
module SpikeAbsorberModel {
  import opened Basics
  import opened SpikeRing
  import opened SpikeRingInvariant
  import opened SpikeRingTheorems

  /** The ring after producer i absorbed b on its own: one more published block at the tail. */
  function Absorbed(s: State, i: nat, b: KVBlock): State
    requires s.Capacity() > 0
  {
    s.(slots := s.slots[Ix(s.enq, s.Capacity()) := Slot(s.enq + 1, b)], enq := s.enq + 1,
       absorbed := s.absorbed + 1, log := s.log + [Entry(b, i, true)])
  }

  function HeadBlock(s: State): Option<KVBlock> {
    if HeadPublished(s) then Some(s.log[s.deq].blk) else None
  }

  /** Producer i has just claimed the tail for b. */
  function Claiming(s: State, i: nat, b: KVBlock): State
    requires i < |s.producers|
  {
    At(s, i, BeginWrite(b, s.enq)).(enq := s.enq + 1, log := s.log + [Entry(b, i, false)])
  }

  /** Producer i has stored and published b at pos and returned. */
  function Stored(s: State, i: nat, b: KVBlock, pos: nat): State
    requires s.Capacity() > 0 && i < |s.producers| && pos < |s.log|
  {
    At(s, i, Idle).(slots := s.slots[Ix(pos, s.Capacity()) := Slot(pos + 1, b)],
                    log := s.log[pos := s.log[pos].(published := true)], absorbed := s.absorbed + 1)
  }

  function Refused(s: State): State {
    s.(overflows := s.overflows + 1)
  }

  /** The ring after the consumer took the block at the head. */
  function HeadTaken(s: State): State
    requires s.Capacity() > 0
  {
    var k := Ix(s.deq, s.Capacity());
    s.(slots := s.slots[k := s.slots[k].(seqNo := s.deq + s.Capacity())], deq := s.deq + 1, drained := s.drained + 1)
  }

  predicate Full(s: State) {
    s.enq >= Head(s) + s.Capacity()
  }

  predicate HeadPublished(s: State) {
    s.deq < s.enq && s.deq < |s.log| && s.log[s.deq].published
  }

  // ---------------------------------------------------------------------------------------
  // One thread running alone, as steps of the machine
  // ---------------------------------------------------------------------------------------

  lemma OneStep(r: Run, a: Action) returns (r': Run)
    requires Legal(r) && Enabled(End(r), a)
    ensures Legal(r') && Extends(r', r) && End(r') == Apply(End(r), a)
  {
    r' := Then(r, a);
  }

  lemma ExtendsTrans(q: Run, r: Run, t: Run)
    requires Extends(t, r) && Extends(r, q)
    ensures Extends(t, q)
  {
  }

  /** Every step from r to r' is one of producer i. */
  predicate By(r': Run, r: Run, i: nat) {
    r' == r || (r'.Then? && !r'.act.Consume? && r'.act.i == i && By(r'.before, r, i))
  }

  lemma ByTrans(q: Run, r: Run, t: Run, i: nat)
    requires By(t, r, i) && By(r, q, i)
    ensures By(t, q, i)
  {
  }

  lemma ByExtends(r: Run, r': Run, i: nat)
    requires By(r', r, i)
    ensures Extends(r', r)
  {
  }

  lemma OneOf(r: Run, a: Action, i: nat) returns (r': Run)
    requires Legal(r) && Enabled(End(r), a) && !a.Consume? && a.i == i
    ensures Legal(r') && By(r', r, i) && End(r') == Apply(End(r), a)
  {
    r' := Then(r, a);
    assert By(r, r, i);
  }

  /** Calling `absorb` and loading the enqueue position. */
  lemma Arrive(r: Run, i: nat, b: KVBlock) returns (r': Run)
    requires Legal(r) && i < |End(r).producers| && End(r).producers[i].Idle?
    ensures Legal(r') && By(r', r, i) && End(r') == At(End(r), i, LoadSeq(b, End(r).enq))
  {
    var r1 := OneOf(r, Call(i, b), i);
    r' := OneOf(r1, Produce(i, false, b), i);
    ByTrans(r, r1, r', i);
  }

  lemma ClaimAlone(r: Run, i: nat, b: KVBlock) returns (r': Run)
    requires Legal(r) && i < |End(r).producers| && End(r).producers[i] == LoadSeq(b, End(r).enq)
    requires SlotOf(End(r).slots, End(r).enq).seqNo == End(r).enq
    ensures Legal(r') && By(r', r, i)
    ensures End(r') == Claiming(End(r), i, b)
  {
    var r1 := OneOf(r, Produce(i, false, b), i);
    r' := OneOf(r1, Produce(i, false, b), i);
    ByTrans(r, r1, r', i);
  }

  lemma WriteAlone(r: Run, i: nat, b: KVBlock, pos: nat) returns (r': Run)
    requires Legal(r) && i < |End(r).producers| && End(r).producers[i] == BeginWrite(b, pos)
    ensures Legal(r') && By(r', r, i)
    ensures var s := End(r); var k := Ix(pos, s.Capacity());
            End(r') == At(s, i, Publish(b, pos)).(slots := s.slots[k := s.slots[k].(blk := b)])
  {
    var r1 := OneOf(r, Produce(i, false, b), i);
    r' := OneOf(r1, Produce(i, false, b), i);
    ByTrans(r, r1, r', i);
  }

  /** The state after the publishing store. */
  function Published(s: State, i: nat, b: KVBlock, pos: nat): State
    requires s.Capacity() > 0 && i < |s.producers| && pos < |s.log|
  {
    var k := Ix(pos, s.Capacity());
    At(s, i, CountAbsorbed(b)).(slots := s.slots[k := s.slots[k].(seqNo := pos + 1)],
                                log := s.log[pos := s.log[pos].(published := true)])
  }

  lemma PublishStep(s: State, i: nat, b: KVBlock, pos: nat)
    requires s.Capacity() > 0 && i < |s.producers| && s.producers[i] == Publish(b, pos) && pos < |s.log|
    ensures ProducerStep(s, i, false, b) == Published(s, i, b, pos)
  {
  }

  lemma PublishAlone(r: Run, i: nat, b: KVBlock, pos: nat) returns (r': Run)
    requires Legal(r) && i < |End(r).producers| && End(r).producers[i] == Publish(b, pos) && pos < |End(r).log|
    ensures Legal(r') && By(r', r, i) && End(r') == Published(End(r), i, b, pos)
  {
    PublishStep(End(r), i, b, pos);
    r' := OneOf(r, Produce(i, false, b), i);
  }

  lemma CountAlone(r: Run, i: nat, b: KVBlock) returns (r': Run)
    requires Legal(r) && i < |End(r).producers| && End(r).producers[i] == CountAbsorbed(b)
    ensures Legal(r') && By(r', r, i)
    ensures End(r') == At(End(r), i, Idle).(absorbed := End(r).absorbed + 1)
  {
    var r1 := OneOf(r, Produce(i, false, b), i);
    r' := OneOf(r1, Produce(i, false, b), i);
    ByTrans(r, r1, r', i);
    assert End(r').producers == End(r).producers[i := Idle];
  }

  /** What a producer finds when it looks at the tail of a reachable ring. */
  lemma Tail(r: Run)
    requires Legal(r)
    ensures var s := End(r);
            && s.enq == |s.log|
            && (if Full(s) then SlotOf(s.slots, s.enq).seqNo < s.enq else SlotOf(s.slots, s.enq).seqNo == s.enq)
  {
    RunKeepsInv(r);
    SeqMeaning(End(r), End(r).enq);
  }

  /** What the consumer finds when it looks at the head of a reachable ring. */
  lemma HeadSlot(r: Run)
    requires Legal(r) && End(r).consumer == Resting
    ensures var s := End(r);
            if HeadPublished(s) then SlotOf(s.slots, s.deq) == Slot(s.deq + 1, s.log[s.deq].blk)
            else SlotOf(s.slots, s.deq).seqNo != s.deq + 1
  {
    RunKeepsInv(r);
    var s := End(r);
    SeqMeaning(s, s.deq);
    if s.deq < s.enq {
      assert SlotOf(s.slots, s.deq).seqNo == if s.log[s.deq].published then s.deq + 1 else s.deq;
    }
  }

  lemma StoredInSteps(s: State, i: nat, b: KVBlock, pos: nat)
    requires s.Capacity() > 0 && i < |s.producers| && pos < |s.log|
    ensures var k := Ix(pos, s.Capacity());
            var written := At(s, i, Publish(b, pos)).(slots := s.slots[k := s.slots[k].(blk := b)]);
            var p := Published(written, i, b, pos);
            At(p, i, Idle).(absorbed := p.absorbed + 1) == Stored(s, i, b, pos)
  {
    var k := Ix(pos, s.Capacity());
    var written := At(s, i, Publish(b, pos)).(slots := s.slots[k := s.slots[k].(blk := b)]);
    var p := Published(written, i, b, pos);
    assert p.producers[i := Idle] == s.producers[i := Idle];
    assert p.slots == s.slots[k := Slot(pos + 1, b)];
  }

  /** From the claim to the return of `absorb`. */
  lemma StoreAlone(r: Run, i: nat, b: KVBlock, pos: nat) returns (r': Run)
    requires Legal(r) && i < |End(r).producers| && End(r).producers[i] == BeginWrite(b, pos) && pos < |End(r).log|
    ensures Legal(r') && By(r', r, i) && End(r') == Stored(End(r), i, b, pos)
  {
    var r1 := WriteAlone(r, i, b, pos);
    var r2 := PublishAlone(r1, i, b, pos);
    ByTrans(r, r1, r2, i);
    r' := CountAlone(r2, i, b);
    ByTrans(r, r2, r', i);
    StoredInSteps(End(r), i, b, pos);
  }

  lemma StoredIsAbsorbed(s: State, i: nat, b: KVBlock)
    requires s.Capacity() > 0 && i < |s.producers| && s.producers[i].Idle? && |s.log| == s.enq
    ensures Stored(Claiming(At(s, i, LoadSeq(b, s.enq)), i, b), i, b, s.enq) == Absorbed(s, i, b)
  {
    var t := Stored(Claiming(At(s, i, LoadSeq(b, s.enq)), i, b), i, b, s.enq);
    assert t.producers == s.producers;
    assert t.log == s.log + [Entry(b, i, true)];
  }

  /** Nine steps of producer i alone absorb the block if the tail slot is free. */
  lemma AbsorbAlone(r: Run, i: nat, b: KVBlock) returns (r': Run)
    requires Legal(r) && i < |End(r).producers| && End(r).producers[i].Idle?
    requires SlotOf(End(r).slots, End(r).enq).seqNo == End(r).enq == |End(r).log|
    ensures Legal(r') && By(r', r, i) && End(r') == Absorbed(End(r), i, b)
  {
    var r1 := Arrive(r, i, b);
    var r2 := ClaimAlone(r1, i, b);
    ByTrans(r, r1, r2, i);
    r' := StoreAlone(r2, i, b, End(r).enq);
    ByTrans(r, r2, r', i);
    StoredIsAbsorbed(End(r), i, b);
  }

  /** From the look at a slot that is not free to the return of `absorb`. */
  lemma TurnedAway(r: Run, i: nat, b: KVBlock) returns (r': Run)
    requires Legal(r) && i < |End(r).producers| && End(r).producers[i] == Overflow(b)
    ensures Legal(r') && By(r', r, i) && End(r') == At(End(r), i, Idle).(overflows := End(r).overflows + 1)
  {
    var r1 := OneOf(r, Produce(i, false, b), i);
    r' := OneOf(r1, Produce(i, false, b), i);
    ByTrans(r, r1, r', i);
    assert End(r').producers == End(r).producers[i := Idle];
  }

  /** Five steps of producer i alone turn the block away if the tail slot is not free yet. */
  lemma RefuseAlone(r: Run, i: nat, b: KVBlock) returns (r': Run)
    requires Legal(r) && i < |End(r).producers| && End(r).producers[i].Idle?
    requires SlotOf(End(r).slots, End(r).enq).seqNo < End(r).enq
    ensures Legal(r') && By(r', r, i) && End(r') == Refused(End(r))
  {
    var r1 := Arrive(r, i, b);
    var r2 := OneOf(r1, Produce(i, false, b), i);
    ByTrans(r, r1, r2, i);
    r' := TurnedAway(r2, i, b);
    ByTrans(r, r2, r', i);
    assert End(r').producers == End(r).producers;
  }

  lemma HeadTakenKeepsConsumer(s: State, c: Consumer)
    requires s.Capacity() > 0
    ensures HeadTaken(s.(consumer := c)).(consumer := s.consumer) == HeadTaken(s)
  {
  }

  lemma TakeAlone(r: Run) returns (r': Run)
    requires Legal(r) && End(r).consumer == Resting && SlotOf(End(r).slots, End(r).deq).seqNo == End(r).deq + 1
    ensures Legal(r') && Extends(r', r) && End(r') == HeadTaken(End(r))
  {
    var r1 := PeekAlone(r);
    r' := FreeAlone(r1);
    ExtendsTrans(r, r1, r');
    HeadTakenKeepsConsumer(End(r), Copy(End(r).deq));
  }

  lemma PeekAlone(r: Run) returns (r': Run)
    requires Legal(r) && End(r).consumer == Resting && SlotOf(End(r).slots, End(r).deq).seqNo == End(r).deq + 1
    ensures Legal(r') && Extends(r', r) && End(r') == End(r).(consumer := Copy(End(r).deq))
  {
    var r1 := OneStep(r, Consume);
    r' := OneStep(r1, Consume);
    ExtendsTrans(r, r1, r');
  }

  lemma FreeSteps(s: State)
    requires s.Capacity() > 0 && s.consumer == Copy(s.deq)
    ensures var b := s.slots[Ix(s.deq, s.Capacity())].blk; var t := s.(consumer := Release(s.deq, b));
            ConsumerStep(s) == t && ConsumerStep(t) == s.(consumer := Advance(s.deq, b), slots := HeadTaken(s).slots)
  {
  }

  /** From the copy of the payload to the return of `drain`. */
  lemma FreeAlone(r: Run) returns (r': Run)
    requires Legal(r) && End(r).consumer == Copy(End(r).deq)
    ensures Legal(r') && Extends(r', r) && End(r') == HeadTaken(End(r)).(consumer := Resting)
  {
    FreeSteps(End(r));
    var r1 := OneStep(r, Consume);
    var r2 := OneStep(r1, Consume);
    ExtendsTrans(r, r1, r2);
    r' := FinishAlone(r2);
    ExtendsTrans(r, r2, r');
  }

  /** From the head store to the return of `drain`. */
  lemma FinishAlone(r: Run) returns (r': Run)
    requires Legal(r) && End(r).consumer.Advance?
    ensures Legal(r') && Extends(r', r)
    ensures var s := End(r);
            End(r') == s.(deq := s.consumer.pos + 1, drained := s.drained + 1, consumer := Resting)
  {
    var r1 := OneStep(r, Consume);
    var r2 := OneStep(r1, Consume);
    ExtendsTrans(r, r1, r2);
    r' := OneStep(r2, Consume);
    ExtendsTrans(r, r2, r');
  }

  // ---------------------------------------------------------------------------------------
  // The object
  // ---------------------------------------------------------------------------------------

  class SpikeAbsorber {
    var ring: array<Slot>
    var enqueuePos: nat
    var dequeuePos: nat
    var absorbedTotal: nat
    var drainedTotal: nat
    var overflowDrops: nat

    ghost var history: Run

    /** The run recorded so far is legal and its state is the one in memory. */
    ghost predicate Valid()
      reads this, ring
    {
      && Legal(history)
      && var s := End(history);
      && s.slots == ring[..] && s.enq == enqueuePos && s.deq == dequeuePos
      && s.absorbed == absorbedTotal && s.drained == drainedTotal && s.overflows == overflowDrops
    }

    /** Slot i starts with sequence number i; payloads start unspecified. */
    constructor (capacity: nat, unspecified: KVBlock, ghost producers: nat)
      requires capacity >= 2
      ensures Valid() && fresh(ring) && ring.Length == capacity && history.Start?
      ensures |End(history).producers| == producers
    {
      ring := new Slot[capacity](_ => Slot(0, unspecified));
      enqueuePos, dequeuePos := 0, 0;
      absorbedTotal, drainedTotal, overflowDrops := 0, 0, 0;
      new;
      for i := 0 to capacity
        modifies ring
        invariant forall k | 0 <= k < i :: ring[k].seqNo == k
      {
        ring[i] := Slot(i, ring[i].blk);
      }
      history := Start(State(ring[..], 0, 0, seq(producers, _ => Idle), Resting, 0, 0, 0, []));
    }

    /** Left alone, `absorb` finishes and succeeds exactly when the ring is not full, whatever the
        other threads were doing; `failures` bounds the spurious failures of the weak
        compare-exchange. */
    method Absorb(blk: KVBlock, failures: nat, ghost i: nat) returns (ok: bool)
      requires Valid() && i < |End(history).producers| && End(history).producers[i].Idle?
      modifies this, ring
      ensures Valid() && ring == old(ring) && Extends(history, old(history))
      ensures ok <==> !Full(old(End(history)))
      ensures End(history) == if ok then Absorbed(old(End(history)), i, blk) else Refused(old(End(history)))
    {
      ghost var s := End(history);
      Tail(history);
      var left := failures;
      var pos := enqueuePos;
      while true
        invariant Valid() && ring == old(ring) && ring[..] == s.slots && End(history) == s
        invariant history == old(history) && pos == enqueuePos
        decreases left
      {
        var k := Ix(pos, ring.Length);
        assert ring[k] == SlotOf(s.slots, pos);
        var diff := ring[k].seqNo as int - pos as int;
        if diff == 0 {
          if left > 0 {
            // The compare-exchange fails for no reason and reloads the position.
            left := left - 1;
            pos := enqueuePos;
          } else {
            enqueuePos := pos + 1;
            ring[k] := Slot(ring[k].seqNo, blk);
            ring[k] := Slot(pos + 1, ring[k].blk);
            absorbedTotal := absorbedTotal + 1;
            ghost var r := AbsorbAlone(history, i, blk);
            ByExtends(history, r, i);
            history := r;
            return true;
          }
        } else if diff < 0 {
          overflowDrops := overflowDrops + 1;
          ghost var r := RefuseAlone(history, i, blk);
          ByExtends(history, r, i);
          history := r;
          return false;
        } else {
          // The position is stale only if another producer interferes.
          assert false;
        }
      }
    }

    /** `drain` takes exactly the block at the head, and only when it has been published. */
    method Drain() returns (result: Option<KVBlock>)
      requires Valid() && End(history).consumer == Resting
      modifies this, ring
      ensures Valid() && ring == old(ring) && Extends(history, old(history))
      ensures result == HeadBlock(old(End(history)))
      ensures End(history) == if result.Some? then HeadTaken(old(End(history))) else old(End(history))
    {
      ghost var s := End(history);
      HeadSlot(history);
      var pos := dequeuePos;
      var k := Ix(pos, ring.Length);
      assert ring[k] == SlotOf(s.slots, pos);
      assert ring[k].seqNo == pos + 1 <==> HeadPublished(s);
      if ring[k].seqNo as int - (pos + 1) as int != 0 {
        return None;
      }
      var out := ring[k].blk;
      assert HeadBlock(s) == Some(out);
      ring[k] := Slot(pos + ring.Length, ring[k].blk);
      dequeuePos := pos + 1;
      drainedTotal := drainedTotal + 1;
      assert ring[..] == HeadTaken(s).slots;
      history := TakeAlone(history);
      return Some(out);
    }
  }
}
