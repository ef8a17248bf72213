/** The inductive invariant of the ring: who owns which slot in every reachable state. */
module SpikeRingInvariant {
  import opened Basics
  import opened SpikeRing

  /** Positions below the head have been given back to the producers. */
  function Head(s: State): nat {
    if s.consumer.Advance? then s.deq + 1 else s.deq
  }

  /** The producer has claimed a position and not yet stored its sequence number. */
  predicate Writing(p: Producer) {
    p.BeginWrite? || p.EndWrite? || p.Publish?
  }

  function SlotOf(slots: seq<Slot>, pos: nat): Slot
    requires |slots| > 0
  {
    slots[Ix(pos, |slots|)]
  }

  ghost predicate Shape(s: State) {
    && s.Capacity() >= 2
    && |s.log| == s.enq
    && Head(s) <= s.enq <= Head(s) + s.Capacity()
  }

  /** Each slot carries the sequence number of its current position, or that number plus one. */
  ghost predicate SlotsInv(s: State)
    requires Shape(s)
  {
    && (forall p | Head(s) <= p < s.enq ::
          && SlotOf(s.slots, p).seqNo == (if s.log[p].published then p + 1 else p)
          && (s.log[p].published ==> SlotOf(s.slots, p).blk == s.log[p].blk))
    && (forall p | s.enq <= p < Head(s) + s.Capacity() :: SlotOf(s.slots, p).seqNo == p)
  }

  /** An unpublished position is being written by the producer that claimed it. */
  ghost predicate ClaimsInv(s: State)
    requires Shape(s)
  {
    forall p | 0 <= p < s.enq && !s.log[p].published ::
      var i := s.log[p].owner;
      i < |s.producers| && Writing(s.producers[i]) && s.producers[i].pos == p
  }

  ghost predicate ProducerInv(s: State, i: nat)
    requires Shape(s) && i < |s.producers|
  {
    match s.producers[i]
    case LoadSeq(_, pos) => pos <= s.enq
    case Claim(_, pos) => pos <= s.enq && pos < Head(s) + s.Capacity()
    case BeginWrite(b, pos) => Owns(s, i, b, pos)
    case EndWrite(b, pos) => Owns(s, i, b, pos)
    case Publish(b, pos) => Owns(s, i, b, pos) && SlotOf(s.slots, pos).blk == b
    case _ => true
  }

  ghost predicate Owns(s: State, i: nat, b: KVBlock, pos: nat)
    requires Shape(s)
  {
    Head(s) <= pos < s.enq && s.log[pos] == Entry(b, i, false)
  }

  ghost predicate ConsumerInv(s: State)
    requires Shape(s)
  {
    match s.consumer
    case Peek(pos) => pos == s.deq
    case Copy(pos) => pos == s.deq < s.enq && s.log[pos].published
    case Release(pos, out) => pos == s.deq < s.enq && s.log[pos].published && out == s.log[pos].blk
    case Advance(pos, out) => pos == s.deq && s.log[pos].published && out == s.log[pos].blk
    case CountDrained(out) => 0 < s.deq && out == s.log[s.deq - 1].blk
    case Drained(Some(out)) => 0 < s.deq && out == s.log[s.deq - 1].blk
    case _ => true
  }

  ghost predicate Inv(s: State) {
    && Shape(s)
    && SlotsInv(s)
    && ClaimsInv(s)
    && (forall i: nat | i < |s.producers| :: ProducerInv(s, i))
    && ConsumerInv(s)
  }

  lemma InitInv(s: State)
    requires Init(s)
    ensures Inv(s)
  {
  }

  /** A slot's sequence number places it exactly: equal means free for `pos`, smaller means the
      ring is full at `pos`. */
  lemma SeqMeaning(s: State, pos: nat)
    requires Inv(s) && pos <= s.enq
    ensures SlotOf(s.slots, pos).seqNo == pos ==> pos < Head(s) + s.Capacity()
    ensures SlotOf(s.slots, pos).seqNo < pos ==> pos == s.enq == Head(s) + s.Capacity()
    ensures pos == s.enq ==> (SlotOf(s.slots, pos).seqNo < pos <==> pos == Head(s) + s.Capacity())
  {
    var q := Occupant(pos, Head(s), s.Capacity());
    assert SlotOf(s.slots, q) == SlotOf(s.slots, pos);
    if pos == Head(s) + s.Capacity() {
      NextLap(Head(s), s.Capacity());
      SameSlot(Head(s), q, s.Capacity());
    }
    if q <= pos < q + s.Capacity() {
      SameSlot(q, pos, s.Capacity());
    }
  }

  /** A store to the slot of `pos` touches no other position of the current lap. */
  lemma StoreIsLocal(slots: seq<Slot>, head: nat, pos: nat, slot: Slot)
    requires |slots| > 0 && head <= pos < head + |slots|
    ensures var slots' := slots[Ix(pos, |slots|) := slot];
            && SlotOf(slots', pos) == slot
            && forall p | head <= p < head + |slots| && p != pos :: SlotOf(slots', p) == SlotOf(slots, p)
  {
    var slots' := slots[Ix(pos, |slots|) := slot];
    forall p | head <= p < head + |slots| && p != pos
      ensures SlotOf(slots', p) == SlotOf(slots, p)
    {
      if Ix(p, |slots|) == Ix(pos, |slots|) {
        if p < pos { SameSlot(p, pos, |slots|); } else { SameSlot(pos, p, |slots|); }
      }
    }
  }

  /** Moves of one producer that leave the shared memory alone. */
  lemma LocalMoveKeepsInv(s: State, i: nat, p: Producer)
    requires Inv(s) && i < |s.producers|
    requires !Writing(s.producers[i]) && !Writing(p)
    requires p.LoadSeq? ==> p.pos <= s.enq
    requires p.Claim? ==> p.pos <= s.enq && p.pos < Head(s) + s.Capacity()
    ensures Inv(At(s, i, p))
  {
    var t := At(s, i, p);
    forall j: nat | j < |t.producers| ensures ProducerInv(t, j) {
      assert ProducerInv(s, j);
    }
  }

  lemma ClaimKeepsInv(s: State, i: nat, spurious: bool, torn: KVBlock)
    requires Inv(s) && Enabled(s, Produce(i, spurious, torn)) && s.producers[i].Claim?
    requires s.enq == s.producers[i].pos && !spurious
    ensures Inv(ProducerStep(s, i, spurious, torn))
  {
    var t := ProducerStep(s, i, spurious, torn);
    assert ProducerInv(s, i);
    forall j: nat | j < |t.producers| ensures ProducerInv(t, j) {
      assert ProducerInv(s, j);
    }
  }

  /** The owner of a position stores to its slot and moves on; `done` says that the store
      is the publishing one. */
  ghost predicate OwnerStores(s: State, i: nat, slot: Slot, p: Producer, done: bool, t: State) {
    && Inv(s) && i < |s.producers| && Writing(s.producers[i])
    && var pos, b := s.producers[i].pos, s.producers[i].blk;
    && pos < |s.log| && t.slots == s.slots[Ix(pos, s.Capacity()) := slot]
    && t.producers == s.producers[i := p]
    && t.enq == s.enq && t.deq == s.deq && t.consumer == s.consumer
    && t.log == s.log[pos := Entry(b, i, done)]
    && (if done then slot == Slot(pos + 1, b) && p == CountAbsorbed(b)
        else slot.seqNo == pos && Writing(p) && p.pos == pos && p.blk == b && (p.Publish? ==> slot.blk == b))
  }

  lemma StoreKeepsSlots(s: State, i: nat, slot: Slot, p: Producer, done: bool, t: State)
    requires OwnerStores(s, i, slot, p, done, t)
    ensures Shape(t) && SlotsInv(t)
  {
    assert ProducerInv(s, i);
    StoreIsLocal(s.slots, Head(s), s.producers[i].pos, slot);
  }

  lemma StoreKeepsClaims(s: State, i: nat, slot: Slot, p: Producer, done: bool, t: State)
    requires OwnerStores(s, i, slot, p, done, t)
    ensures Shape(t) && ClaimsInv(t) && ConsumerInv(t)
  {
    assert ProducerInv(s, i);
  }

  lemma StoreKeepsProducer(s: State, i: nat, slot: Slot, p: Producer, done: bool, t: State, j: nat)
    requires OwnerStores(s, i, slot, p, done, t) && Shape(t) && j < |s.producers|
    ensures ProducerInv(t, j)
  {
    assert ProducerInv(s, i);
    assert ProducerInv(s, j);
    StoreIsLocal(s.slots, Head(s), s.producers[i].pos, slot);
  }

  lemma StoreKeepsInv(s: State, i: nat, slot: Slot, p: Producer, done: bool, t: State)
    requires OwnerStores(s, i, slot, p, done, t)
    ensures Inv(t)
  {
    StoreKeepsSlots(s, i, slot, p, done, t);
    StoreKeepsClaims(s, i, slot, p, done, t);
    forall j: nat | j < |t.producers| ensures ProducerInv(t, j) {
      StoreKeepsProducer(s, i, slot, p, done, t, j);
    }
  }

  lemma WritingKeepsInv(s: State, i: nat, spurious: bool, torn: KVBlock)
    requires Inv(s) && i < |s.producers| && Writing(s.producers[i])
    ensures Inv(ProducerStep(s, i, spurious, torn))
  {
    assert ProducerInv(s, i);
    var t := ProducerStep(s, i, spurious, torn);
    var pos := s.producers[i].pos;
    StoreKeepsInv(s, i, t.slots[Ix(pos, s.Capacity())], t.producers[i], s.producers[i].Publish?, t);
  }

  /** The step neither claims nor writes. */
  predicate IsLocal(s: State, i: nat, spurious: bool)
    requires i < |s.producers|
  {
    !Writing(s.producers[i]) && (s.producers[i].Claim? ==> s.enq != s.producers[i].pos || spurious)
  }

  lemma LocalStep(s: State, i: nat, spurious: bool, torn: KVBlock)
    requires s.Capacity() > 0 && i < |s.producers| && IsLocal(s, i, spurious)
    ensures var t := ProducerStep(s, i, spurious, torn); var p := if i < |t.producers| then t.producers[i] else Idle;
            && t == At(s, i, p).(absorbed := t.absorbed, overflows := t.overflows)
            && !Writing(p)
            && (p.LoadSeq? ==> p.pos == s.enq)
            && (p.Claim? ==> s.producers[i].LoadSeq? && p.pos == s.producers[i].pos
                             && SlotOf(s.slots, p.pos).seqNo == p.pos)
  {
    var t := ProducerStep(s, i, spurious, torn);
    if s.producers[i].Idle? { assert t.producers == s.producers[i := Idle]; }
  }

  lemma LocalKeepsInv(s: State, i: nat, spurious: bool, torn: KVBlock)
    requires Inv(s) && i < |s.producers| && IsLocal(s, i, spurious)
    ensures Inv(ProducerStep(s, i, spurious, torn))
  {
    var t := ProducerStep(s, i, spurious, torn);
    LocalStep(s, i, spurious, torn);
    assert ProducerInv(s, i);
    if s.producers[i].LoadSeq? { SeqMeaning(s, s.producers[i].pos); }
    LocalMoveKeepsInv(s, i, t.producers[i]);
    CountersAreFree(At(s, i, t.producers[i]), t);
  }

  lemma ProduceKeepsInv(s: State, i: nat, spurious: bool, torn: KVBlock)
    requires Inv(s) && Enabled(s, Produce(i, spurious, torn))
    ensures Inv(ProducerStep(s, i, spurious, torn))
  {
    if Writing(s.producers[i]) {
      WritingKeepsInv(s, i, spurious, torn);
    } else if IsLocal(s, i, spurious) {
      LocalKeepsInv(s, i, spurious, torn);
    } else {
      ClaimKeepsInv(s, i, spurious, torn);
    }
  }

  /** The invariant does not depend on the statistics. */
  lemma CountersAreFree(s: State, t: State)
    requires Inv(s) && t == s.(absorbed := t.absorbed, drained := t.drained, overflows := t.overflows)
    ensures Inv(t)
  {
    forall j: nat | j < |t.producers| ensures ProducerInv(t, j) {
      assert ProducerInv(s, j);
    }
  }

  lemma ReleaseKeepsInv(s: State)
    requires Inv(s) && s.consumer.Release?
    ensures Inv(ConsumerStep(s))
  {
    var t := ConsumerStep(s);
    StoreIsLocal(s.slots, s.deq, s.deq, t.slots[Ix(s.deq, s.Capacity())]);
    NextLap(s.deq, s.Capacity());
    assert SlotsInv(t);
    forall j: nat | j < |t.producers| ensures ProducerInv(t, j) {
      assert ProducerInv(s, j);
    }
  }

  /** The other consumer moves write no slot and leave the head where it is. */
  lemma ConsumerMoveKeepsProducers(s: State, t: State)
    requires Inv(s) && Shape(t) && Head(t) == Head(s) && t.slots == s.slots
    requires t.producers == s.producers && t.log == s.log && t.enq == s.enq
    ensures SlotsInv(t) && ClaimsInv(t) && forall j: nat | j < |t.producers| :: ProducerInv(t, j)
  {
    forall j: nat | j < |t.producers| ensures ProducerInv(t, j) {
      assert ProducerInv(s, j);
    }
  }

  lemma ConsumeKeepsInv(s: State)
    requires Inv(s)
    ensures Inv(ConsumerStep(s))
  {
    if s.consumer.Release? {
      ReleaseKeepsInv(s);
    } else {
      if s.consumer.Peek? { SeqMeaning(s, s.deq); }
      ConsumerMoveKeepsProducers(s, ConsumerStep(s));
    }
  }

  lemma StepKeepsInv(s: State, a: Action)
    requires Inv(s) && Enabled(s, a)
    ensures Inv(Apply(s, a))
  {
    match a
    case Call(i, b) => LocalMoveKeepsInv(s, i, LoadPos(b));
    case Produce(i, spurious, torn) => ProduceKeepsInv(s, i, spurious, torn);
    case Consume => ConsumeKeepsInv(s);
  }
}
