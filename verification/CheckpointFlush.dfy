/**
 tempo/checkpoint_manager.py with tempo/phase_monitor.py as one step machine: a training thread that
 saves checkpoints, threads that change the phase, and the flush worker that copies chunk by chunk.
 */
module CheckpointFlush {
  import opened Basics

  datatype Phase = Idle | Compute | NcclComm | Checkpoint

  /** Local NVMe file, Lustre file, and the `.tmp` file beside it. */
  datatype Path = Local(step: nat) | Remote(step: nat) | Temp(step: nat)

  type Files = map<Path, Data>

  /** `gated`: a phase monitor is attached.  `lustre`: a Lustre directory is configured. */
  datatype Config = Config(
    firstChunk: int, adaptive: bool, gated: bool, lustre: bool, maxPending: int, files0: Files)

  const MIN_CHUNK := 4 * 1024 * 1024
  const MAX_CHUNK := 512 * 1024 * 1024

  function Distance(a: int, b: int): nat {
    if a < b then b - a else a - b
  }

  /** Between 4 MiB and 512 MiB. */
  predicate InLimits(size: int) {
    4_194_304 <= size <= 536_870_912
  }

  /** The size within the limits that is nearest to the target. */
  function Clamp(target: int): (c: int)
    ensures InLimits(c)
    ensures forall x | InLimits(x) :: Distance(target, c) <= Distance(target, x)
  {
    if target < MIN_CHUNK then MIN_CHUNK else if target > MAX_CHUNK then MAX_CHUNK else target
  }

  /** Where the thread holding the monitor lock is inside `set_phase`; who it is does not matter. */
  datatype Stage = Entered | Gated | Written
  datatype Lock = Free | Held(target: Phase, stage: Stage)

  datatype Saver =
    | NotSaving
    | Saving(step: nat, data: Data, written: nat)
    | Enqueueing(step: nat)

  /** The flush worker: where it is in the loop, and how far it has read.  Polling is the test of the
      stop flag at the head of the loop, Getting the wait for a job. */
  datatype Worker =
    | Polling
    | Getting
    | Opening(step: nat)
    | Checking(step: nat, off: nat)
    | Blocked(step: nat, off: nat)
    | Ready(step: nat, off: nat)
    | Writing(step: nat, off: nat, n: nat)
    | Renaming(step: nat)
    | Unlinking(step: nat)
    | Stopped

  datatype Fate = Queued | NotQueued | Abandoned | Flushed

  /** A completed local save: its bytes, and how far its flush has come. */
  datatype Saved = Saved(data: Data, fate: Fate)

  /** `saved` has every completed local save; `begun` counts chunk reads. */
  datatype State = State(
    c: Config, chunk: int, files: Files,
    started: set<nat>, saved: map<nat, Saved>,
    saver: Saver, queue: seq<nat>, worker: Worker, stop: bool,
    phase: Phase, gate: bool, lock: Lock, begun: nat)

  datatype Action =
    | SaveStart(step: nat, data: Data)
    | SaveMore(n: nat)
    | SaveFails
    | SaveDone
    | Enqueue
    | EnterLoop
    | TakeJob
    | GetTimesOut
    | QuitLoop
    | Open
    | Adapt(target: int)
    | CheckRate(positive: bool)
    | PassGate
    | StopWaiting
    | ReadChunk
    | WriteChunk
    | Rename
    | Unlink
    | Fail
    | RequestStop
    | Acquire(phase: Phase)
    | TouchGate
    | WritePhase
    | Release

  function Init(c: Config): State {
    State(c, c.firstChunk, c.files0, {}, map[], NotSaving, [], Polling, false, Idle, true, Free, 0)
  }

  predicate Full(s: State) {
    0 < s.c.maxPending <= |s.queue|
  }

  predicate InFlush(w: Worker) {
    !w.Polling? && !w.Getting? && !w.Stopped?
  }

  /** What `read(chunk)` returns at offset off: -1 asks for everything; below that `read` raises. */
  function ReadSize(chunk: int, off: nat, length: nat): (n: nat)
    requires off <= length && chunk >= -1
    ensures off + n <= length && (chunk >= 0 ==> n <= chunk)
    ensures n == length - off || n == chunk
  {
    if chunk < 0 || chunk > length - off then length - off else chunk
  }

  predicate SaverEnabled(s: State, a: Action) {
    match a
    case SaveStart(step, _) => s.saver.NotSaving? && step !in s.started
    case SaveMore(n) => s.saver.Saving? && s.saver.written + n <= |s.saver.data|
    case SaveFails => s.saver.Saving?
    case SaveDone => s.saver.Saving? && s.saver.written == |s.saver.data|
    case Enqueue => s.saver.Enqueueing?
    case _ => false
  }

  predicate WorkerEnabled(s: State, a: Action) {
    match a
    case EnterLoop => s.worker.Polling? && !s.stop
    case TakeJob => s.worker.Getting? && s.queue != []
    case GetTimesOut => s.worker.Getting?
    case QuitLoop => s.worker.Polling? && s.stop
    case Open => s.worker.Opening?
    // the write samples of this flush are non-empty exactly when something has been copied
    case Adapt(_) => s.worker.Checking? && s.c.adaptive && s.c.gated && s.worker.off > 0
    // the rate is read under the monitor lock, and is zero in an NCCL phase
    case CheckRate(positive) =>
      s.worker.Checking? && (s.c.gated ==> s.lock.Free? && (s.phase == NcclComm ==> !positive))
    case PassGate => s.worker.Blocked? && s.gate
    case StopWaiting => s.worker.Blocked? && s.stop
    case ReadChunk =>
      s.worker.Ready? && s.chunk >= -1 && Local(s.worker.step) in s.files
      && s.worker.off <= |s.files[Local(s.worker.step)]|
    case WriteChunk =>
      s.worker.Writing? && Local(s.worker.step) in s.files && Temp(s.worker.step) in s.files
      && s.worker.off + s.worker.n <= |s.files[Local(s.worker.step)]|
    case Rename => s.worker.Renaming? && Temp(s.worker.step) in s.files
    case Unlink => s.worker.Unlinking?
    case Fail => InFlush(s.worker)
    case _ => false
  }

  predicate SetterEnabled(s: State, a: Action) {
    match a
    case Acquire(_) => s.lock.Free?
    case TouchGate => s.lock.Held? && s.lock.stage.Entered?
    case WritePhase => s.lock.Held? && s.lock.stage.Gated?
    case Release => s.lock.Held? && s.lock.stage.Written?
    case _ => false
  }

  predicate Enabled(s: State, a: Action) {
    a.RequestStop? || SaverEnabled(s, a) || WorkerEnabled(s, a) || SetterEnabled(s, a)
  }

  function WithFate(s: State, step: nat, fate: Fate): State {
    if step in s.saved then s.(saved := s.saved[step := s.saved[step].(fate := fate)]) else s
  }

  function SaverStep(s: State, a: Action): State
    requires SaverEnabled(s, a)
  {
    match a
    case SaveStart(step, data) =>
      s.(started := s.started + {step}, saver := Saving(step, data, 0), files := s.files[Local(step) := []])
    case SaveMore(n) =>
      var written := s.saver.written + n;
      s.(saver := s.saver.(written := written),
         files := s.files[Local(s.saver.step) := s.saver.data[..written]])
    case SaveFails => s.(saver := NotSaving)
    case SaveDone =>
      s.(saver := Enqueueing(s.saver.step), saved := s.saved[s.saver.step := Saved(s.saver.data, Queued)])
    case Enqueue =>
      if s.c.lustre && !Full(s)
      then s.(saver := NotSaving, queue := s.queue + [s.saver.step])
      else WithFate(s, s.saver.step, NotQueued).(saver := NotSaving)
  }

  function WorkerStep(s: State, a: Action): State
    requires WorkerEnabled(s, a)
  {
    var w := s.worker;
    match a
    case EnterLoop => s.(worker := Getting)
    case TakeJob => s.(worker := Opening(s.queue[0]), queue := s.queue[1..])
    case GetTimesOut => s.(worker := Polling)
    case QuitLoop => s.(worker := Stopped)
    case Open =>
      if Local(w.step) !in s.files
      then WithFate(s, w.step, Abandoned).(worker := Polling)
      else s.(worker := Checking(w.step, 0), files := s.files[Temp(w.step) := []])
    case Adapt(target) => s.(chunk := Clamp(target))
    case CheckRate(positive) =>
      s.(worker := if !s.c.gated || positive then Ready(w.step, w.off) else Blocked(w.step, w.off))
    case PassGate => s.(worker := Ready(w.step, w.off))
    case StopWaiting => WithFate(s, w.step, Abandoned).(worker := Polling)
    case ReadChunk =>
      var n := ReadSize(s.chunk, w.off, |s.files[Local(w.step)]|);
      s.(begun := s.begun + 1, worker := if n == 0 then Renaming(w.step) else Writing(w.step, w.off, n))
    case WriteChunk =>
      var bytes := s.files[Local(w.step)][w.off..w.off + w.n];
      s.(worker := Checking(w.step, w.off + w.n),
         files := s.files[Temp(w.step) := s.files[Temp(w.step)] + bytes])
    case Rename =>
      WithFate(s, w.step, Flushed).(
         worker := Unlinking(w.step),
         files := s.files[Remote(w.step) := s.files[Temp(w.step)]] - {Temp(w.step)})
    case Unlink => s.(worker := Polling, files := s.files - {Local(w.step)})
    case Fail =>
      if w.Unlinking? then s.(worker := Polling) else WithFate(s, w.step, Abandoned).(worker := Polling)
  }

  function SetterStep(s: State, a: Action): State
    requires SetterEnabled(s, a)
  {
    match a
    case Acquire(target) => s.(lock := Held(target, Entered))
    case TouchGate =>
      if s.phase == s.lock.target then s.(lock := s.lock.(stage := Written))
      else s.(lock := s.lock.(stage := Gated),
              gate := if s.lock.target == NcclComm then false
                      else if s.phase == NcclComm then true else s.gate)
    case WritePhase => s.(lock := s.lock.(stage := Written), phase := s.lock.target)
    case Release => s.(lock := Free)
  }

  function Apply(s: State, a: Action): State
    requires Enabled(s, a)
  {
    if a.RequestStop? then s.(stop := true)
    else if SaverEnabled(s, a) then SaverStep(s, a)
    else if WorkerEnabled(s, a) then WorkerStep(s, a)
    else SetterStep(s, a)
  }
}
