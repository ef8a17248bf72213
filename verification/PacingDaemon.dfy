/**
 The flush loop of src/pacing_daemon as one machine with the ring, the phase monitor and the
 token bucket: the daemon is the consumer of the ring, producer 0 of the ring when it puts a
 block back, and waiter 0 of the monitor.  All other producers, callbacks and waiters interleave
 with it freely.  io_uring is a log of submitted blocks.
 */
module PacingDaemon {
  import opened Basics
  import R = SpikeRing
  import M = AttentionMonitor
  import B = TokenBucketModel

  type KVBlock = R.KVBlock

  /** Where the daemon stands in `run_loop`. */
  datatype Daemon =
    | LoopHead
    | CheckPhase
    | Waiting
    | Draining
    | Throttle(blk: KVBlock)
    | Reabsorbing(blk: KVBlock)
    | Flushing(blk: KVBlock)
    | Stopped

  datatype System = System(
    ring: R.State, monitor: M.State, bucket: B.Bucket,
    strictGate: bool, running: bool, daemon: Daemon,
    submitted: seq<KVBlock>, lost: seq<KVBlock>, pauses: nat)

  /** One move of anybody; the inputs of a daemon move are the clock, what the ring and the
      condition variable may do spontaneously, and whether a submission entry is available. */
  datatype Action =
    | Producer(a: R.Action)
    | Monitor(m: M.Action)
    | RequestStop
    | DaemonMove(now: nat, spurious: bool, torn: KVBlock, timedOut: bool, gotSqe: bool)

  predicate OfWaiterZero(a: M.Action) {
    (a.StartWait? || a.Wait? || a.Wake?) && a.j == 0
  }

  function WaiterMove(m: M.State, timedOut: bool): M.Action
    requires 0 < |m.waiters|
  {
    if m.waiters[0].Asleep? then M.Wake(0, timedOut) else M.Wait(0)
  }

  predicate WellFormed(s: System) {
    s.ring.Capacity() > 0 && 0 < |s.ring.producers| && 0 < |s.monitor.waiters| && s.bucket.Valid()
  }

  predicate Enabled(s: System, a: Action) {
    && WellFormed(s)
    && match a
       case Producer(x) => !x.Consume? && x.i != 0 && R.Enabled(s.ring, x)
       case Monitor(x) => !OfWaiterZero(x) && M.Enabled(s.monitor, x)
       case RequestStop => true
       case DaemonMove(_, _, _, timedOut, _) =>
         && !s.daemon.Stopped?
         && (s.daemon.Waiting? ==> M.Enabled(s.monitor, WaiterMove(s.monitor, timedOut)))
         && (s.daemon.Throttle? ==> s.ring.producers[0].Idle?)
         && (s.daemon.CheckPhase? ==> s.monitor.waiters[0].Away?)
  }

  function DaemonStep(s: System, now: nat, spurious: bool, torn: KVBlock, timedOut: bool, gotSqe: bool): System
    requires Enabled(s, DaemonMove(now, spurious, torn, timedOut, gotSqe))
  {
    match s.daemon
    case LoopHead => s.(daemon := if s.running then CheckPhase else Stopped)
    case CheckPhase =>
      if s.strictGate && s.monitor.phase == M.ATTENTION
      then s.(daemon := Waiting, monitor := M.Apply(s.monitor, M.StartWait(0)))
      else s.(daemon := Draining)
    case Waiting => WaitStep(s, timedOut)
    case Draining => DrainStep(s)
    case Throttle(b) => ThrottleStep(s, b, now)
    case Reabsorbing(b) => ReabsorbStep(s, b, spurious, torn)
    case Flushing(b) =>
      if gotSqe then s.(daemon := LoopHead, submitted := s.submitted + [b])
      else s.(daemon := LoopHead, lost := s.lost + [b])
    case Stopped => s
  }

  /** One step inside `wait_for_ffn`; its answer decides between the drain and another round. */
  function WaitStep(s: System, timedOut: bool): System
    requires WellFormed(s) && M.Enabled(s.monitor, WaiterMove(s.monitor, timedOut))
  {
    var w := s.monitor.waiters[0];
    var t := s.(monitor := M.Apply(s.monitor, WaiterMove(s.monitor, timedOut)));
    if !w.Finished? then t
    else if w.sawFfn then t.(daemon := Draining)
    else t.(daemon := LoopHead, pauses := s.pauses + 1)
  }

  /** One step inside `drain`; an empty ring sends the daemon back to the loop head. */
  function DrainStep(s: System): System
    requires WellFormed(s)
  {
    var t := s.(ring := R.ConsumerStep(s.ring));
    match s.ring.consumer
    case Drained(None) => t.(daemon := LoopHead)
    case Drained(Some(b)) => t.(daemon := Throttle(b))
    case _ => t
  }

  function ThrottleStep(s: System, b: KVBlock, now: nat): System
    requires WellFormed(s) && s.ring.producers[0].Idle?
  {
    var g := s.bucket.Grant(now, b.sizeBytes);
    var t := s.(bucket := s.bucket.Consumed(now, b.sizeBytes));
    if g == 0 then t.(daemon := Reabsorbing(b), ring := R.Apply(s.ring, R.Call(0, b)))
    else t.(daemon := Flushing(b))
  }

  /** One step inside the `absorb` that puts the block back at the tail; its answer is ignored. */
  function ReabsorbStep(s: System, b: KVBlock, spurious: bool, torn: KVBlock): System
    requires WellFormed(s)
  {
    var t := s.(ring := R.ProducerStep(s.ring, 0, spurious, torn));
    match s.ring.producers[0]
    case Returned(_, ok) => t.(daemon := LoopHead, lost := if ok then s.lost else s.lost + [b])
    case _ => t
  }

  function Apply(s: System, a: Action): System
    requires Enabled(s, a)
  {
    match a
    case Producer(x) => s.(ring := R.Apply(s.ring, x))
    case Monitor(x) => s.(monitor := M.Apply(s.monitor, x))
    case RequestStop => s.(running := false)
    case DaemonMove(now, spurious, torn, timedOut, gotSqe) => DaemonStep(s, now, spurious, torn, timedOut, gotSqe)
  }

  predicate Init(s: System) {
    && R.Init(s.ring) && M.Init(s.monitor) && s.bucket.Valid()
    && 0 < |s.ring.producers| && 0 < |s.monitor.waiters|
    && s.running && s.daemon == LoopHead && s.submitted == [] && s.lost == []
    && s.pauses == 0
  }

  datatype Run = Start(first: System) | Then(before: Run, act: Action)

  predicate Legal(r: Run)
    decreases r, 0
  {
    match r
    case Start(s) => Init(s)
    case Then(q, a) => Legal(q) && Enabled(End(q), a)
  }

  function End(r: Run): System
    requires Legal(r)
    decreases r, 1
  {
    match r
    case Start(s) => s
    case Then(q, a) => Apply(End(q), a)
  }

  predicate Extends(r: Run, q: Run) {
    r == q || (r.Then? && Extends(r.before, q))
  }
}
