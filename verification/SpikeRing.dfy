/**
 The lock-free multi-producer single-consumer ring of src/spike_absorber as a step machine.

 Every atomic access of `absorb` and `drain` is one step, so a run is an arbitrary
 interleaving of any number of producers with the single consumer.  Memory is sequentially
 consistent and positions are unbounded naturals; the capacity is any number from 2 up.
 */
module SpikeRing {
  import opened Arithmetic
  import opened Basics

  datatype KVBlock = KVBlock(
    blockId: nat, layerIdx: nat, numTokens: nat, hostPtr: nat, sizeBytes: nat, dstTier: int)

  datatype Slot = Slot(seqNo: nat, blk: KVBlock)

  /** Where a producer stands inside `absorb`; the names are those of the next atomic access. */
  datatype Producer =
    | Idle
    | LoadPos(blk: KVBlock)
    | LoadSeq(blk: KVBlock, pos: nat)
    | Claim(blk: KVBlock, pos: nat)
    | Overflow(blk: KVBlock)
    | BeginWrite(blk: KVBlock, pos: nat)
    | EndWrite(blk: KVBlock, pos: nat)
    | Publish(blk: KVBlock, pos: nat)
    | CountAbsorbed(blk: KVBlock)
    | Returned(blk: KVBlock, ok: bool)

  /** Where the consumer stands inside `drain`. */
  datatype Consumer =
    | Resting
    | Peek(pos: nat)
    | Copy(pos: nat)
    | Release(pos: nat, out: KVBlock)
    | Advance(pos: nat, out: KVBlock)
    | CountDrained(out: KVBlock)
    | Drained(result: Option<KVBlock>)

  /** History of one successful claim: who claimed it, with which block, and whether it is published. */
  datatype Entry = Entry(blk: KVBlock, owner: nat, published: bool)

  datatype State = State(
    slots: seq<Slot>, enq: nat, deq: nat,
    producers: seq<Producer>, consumer: Consumer,
    absorbed: nat, drained: nat, overflows: nat,
    log: seq<Entry>)
  {
    function Capacity(): nat { |slots| }
  }

  /** One step: a producer calls `absorb`, a producer moves, or the consumer moves.
      `spurious` lets the weak compare-exchange fail for no reason, and `torn` is what the
      slot holds while the payload is only half written. */
  datatype Action =
    | Call(i: nat, blk: KVBlock)
    | Produce(i: nat, spurious: bool, torn: KVBlock)
    | Consume

  /** The slot of a position, `pos & MASK`, counted down lap by lap; IxIsModulo and
      MaskIsModulo say that this is the same number. */
  function Ix(pos: nat, n: nat): (i: nat)
    requires n > 0
    ensures i < n
  {
    if pos < n then pos else Ix(pos - n, n)
  }

  predicate Enabled(s: State, a: Action) {
    match a
    case Call(i, _) => i < |s.producers| && s.producers[i].Idle?
    case Produce(i, _, _) => i < |s.producers| && !s.producers[i].Idle?
    case Consume => true
  }

  function At(s: State, i: nat, p: Producer): State
    requires i < |s.producers|
  {
    s.(producers := s.producers[i := p])
  }

  function ProducerStep(s: State, i: nat, spurious: bool, torn: KVBlock): State
    requires s.Capacity() > 0 && i < |s.producers|
  {
    match s.producers[i]
    case Idle => s
    case LoadPos(b) => At(s, i, LoadSeq(b, s.enq))
    case LoadSeq(b, pos) =>
      var seqNo := s.slots[Ix(pos, s.Capacity())].seqNo;
      if seqNo == pos then At(s, i, Claim(b, pos))
      else if seqNo < pos then At(s, i, Overflow(b))
      else At(s, i, LoadPos(b))
    case Claim(b, pos) =>
      if s.enq == pos && !spurious then
        At(s, i, BeginWrite(b, pos)).(enq := pos + 1, log := s.log + [Entry(b, i, false)])
      else
        At(s, i, LoadSeq(b, s.enq))
    case Overflow(b) => At(s, i, Returned(b, false)).(overflows := s.overflows + 1)
    case BeginWrite(b, pos) =>
      var k := Ix(pos, s.Capacity());
      At(s, i, EndWrite(b, pos)).(slots := s.slots[k := s.slots[k].(blk := torn)])
    case EndWrite(b, pos) =>
      var k := Ix(pos, s.Capacity());
      At(s, i, Publish(b, pos)).(slots := s.slots[k := s.slots[k].(blk := b)])
    case Publish(b, pos) =>
      var k := Ix(pos, s.Capacity());
      At(s, i, CountAbsorbed(b)).(
        slots := s.slots[k := s.slots[k].(seqNo := pos + 1)],
        log := if pos < |s.log| then s.log[pos := s.log[pos].(published := true)] else s.log)
    case CountAbsorbed(b) => At(s, i, Returned(b, true)).(absorbed := s.absorbed + 1)
    case Returned(_, _) => At(s, i, Idle)
  }

  function ConsumerStep(s: State): State
    requires s.Capacity() > 0
  {
    match s.consumer
    case Resting => s.(consumer := Peek(s.deq))
    case Peek(pos) =>
      if s.slots[Ix(pos, s.Capacity())].seqNo == pos + 1
      then s.(consumer := Copy(pos))
      else s.(consumer := Drained(None))
    case Copy(pos) => s.(consumer := Release(pos, s.slots[Ix(pos, s.Capacity())].blk))
    case Release(pos, out) =>
      var k := Ix(pos, s.Capacity());
      s.(consumer := Advance(pos, out), slots := s.slots[k := s.slots[k].(seqNo := pos + s.Capacity())])
    case Advance(pos, out) => s.(consumer := CountDrained(out), deq := pos + 1)
    case CountDrained(out) => s.(consumer := Drained(Some(out)), drained := s.drained + 1)
    case Drained(_) => s.(consumer := Resting)
  }

  function Apply(s: State, a: Action): State
    requires s.Capacity() > 0 && Enabled(s, a)
  {
    match a
    case Call(i, b) => At(s, i, LoadPos(b))
    case Produce(i, spurious, torn) => ProducerStep(s, i, spurious, torn)
    case Consume => ConsumerStep(s)
  }

  /** A fresh ring: slot i carries sequence number i and an unknown payload. */
  predicate Init(s: State) {
    && s.Capacity() >= 2
    && (forall k | 0 <= k < s.Capacity() :: s.slots[k].seqNo == k)
    && s.enq == 0 && s.deq == 0 && s.log == []
    && s.absorbed == 0 && s.drained == 0 && s.overflows == 0
    && (forall i | 0 <= i < |s.producers| :: s.producers[i].Idle?)
    && s.consumer == Resting
  }

  // ---------------------------------------------------------------------------------------
  // Arithmetic of positions
  // ---------------------------------------------------------------------------------------

  lemma {:induction false} IxIsModulo(pos: nat, n: nat)
    requires n > 0
    ensures Ix(pos, n) == pos % n
  {
    if pos < n {
      Quotient(n, pos / n, pos % n, 0, pos);
    } else {
      IxIsModulo(pos - n, n);
      Quotient(n, pos / n, pos % n, (pos - n) / n + 1, (pos - n) % n);
    }
  }

  /** With the real capacity of 2^14 slots, masking with CAPACITY - 1 is the remainder. */
  lemma MaskIsModulo(pos: bv64)
    ensures pos & 0x3FFF == pos % 0x4000
  {
  }

  lemma SameSlot(p: nat, q: nat, n: nat)
    requires n > 0 && p <= q < p + n && Ix(p, n) == Ix(q, n)
    ensures p == q
  {
    IxIsModulo(p, n);
    IxIsModulo(q, n);
    Quotient(n, q / n - p / n, 0, 0, q - p);
  }

  lemma NextLap(p: nat, n: nat)
    requires n > 0
    ensures Ix(p + n, n) == Ix(p, n)
  {
  }

  /** Among any n consecutive positions exactly one uses a given slot. */
  lemma Occupant(pos: nat, lo: nat, n: nat) returns (q: nat)
    requires n > 0
    ensures lo <= q < lo + n && Ix(q, n) == Ix(pos, n)
    ensures lo <= pos < lo + n ==> q == pos
    decreases if pos < lo then n + lo - pos else pos - lo
  {
    if pos < lo {
      NextLap(pos, n);
      q := Occupant(pos + n, lo, n);
    } else if pos < lo + n {
      q := pos;
    } else {
      NextLap(pos - n, n);
      q := Occupant(pos - n, lo, n);
    }
  }
}
