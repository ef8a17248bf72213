/** No checkpoint is lost, and no more than one chunk begins while the gate is closed. */
module CheckpointTheorems {
  import opened Basics
  import opened CheckpointFlush

  // ---------------------------------------------------------------------------------------
  // Runs
  // ---------------------------------------------------------------------------------------

  datatype Run = Start(c: Config) | Then(before: Run, act: Action)

  ghost predicate Legal(r: Run)
    decreases r, 0
  {
    match r
    case Start(_) => true
    case Then(before, act) => Legal(before) && Enabled(End(before), act)
  }

  ghost function End(r: Run): State
    requires Legal(r)
    decreases r, 1
  {
    match r
    case Start(c) => Init(c)
    case Then(before, act) => Apply(End(before), act)
  }

  ghost function ConfigOf(r: Run): Config {
    match r
    case Start(c) => c
    case Then(before, _) => ConfigOf(before)
  }

  // ---------------------------------------------------------------------------------------
  // The gate
  // ---------------------------------------------------------------------------------------

  /** What the gate says at each place inside `set_phase`. */
  ghost predicate GateInv(s: State) {
    match s.lock
    case Free => s.gate <==> s.phase != NcclComm
    case Held(target, stage) =>
      match stage
      case Entered => s.gate <==> s.phase != NcclComm
      case Gated => s.gate <==> target != NcclComm
      case Written => s.phase == target && (s.gate <==> s.phase != NcclComm)
  }

  // What each thread leaves alone.

  ghost predicate LeftBySaver(s: State, t: State) {
    t == s.(files := t.files, started := t.started, saved := t.saved, saver := t.saver, queue := t.queue)
  }

  ghost predicate LeftByWorker(s: State, t: State) {
    t == s.(files := t.files, saved := t.saved, chunk := t.chunk, queue := t.queue, worker := t.worker, begun := t.begun)
  }

  ghost predicate LeftByOthers(s: State, t: State) {
    t == s.(stop := t.stop, phase := t.phase, gate := t.gate, lock := t.lock)
  }

  lemma EnqueueFrame(s: State)
    requires SaverEnabled(s, Enqueue)
    ensures LeftBySaver(s, SaverStep(s, Enqueue))
  {
  }

  lemma SaverFrame(s: State, a: Action)
    requires SaverEnabled(s, a)
    ensures LeftBySaver(s, SaverStep(s, a))
  {
    if a == Enqueue { EnqueueFrame(s); }
  }

  lemma WorkerFrame(s: State, a: Action)
    requires WorkerEnabled(s, a)
    ensures LeftByWorker(s, WorkerStep(s, a))
  {
  }

  lemma SetterFrame(s: State, a: Action)
    requires SetterEnabled(s, a)
    ensures LeftByOthers(s, SetterStep(s, a))
  {
  }

  lemma SetterKeepsGate(s: State, a: Action)
    requires GateInv(s) && SetterEnabled(s, a)
    ensures GateInv(SetterStep(s, a))
  {
  }

  lemma StepKeepsGate(s: State, a: Action)
    requires GateInv(s) && Enabled(s, a)
    ensures GateInv(Apply(s, a)) && Apply(s, a).c == s.c
  {
    if a.RequestStop? {
    } else if SaverEnabled(s, a) {
      SaverFrame(s, a);
    } else if WorkerEnabled(s, a) {
      WorkerFrame(s, a);
    } else {
      SetterFrame(s, a);
      SetterKeepsGate(s, a);
    }
  }

  lemma {:induction false} RunKeepsGate(r: Run)
    requires Legal(r)
    ensures GateInv(End(r)) && End(r).c == ConfigOf(r)
  {
    match r
    case Start(_) =>
    case Then(before, act) =>
      RunKeepsGate(before);
      StepKeepsGate(End(before), act);
  }

  /** When nobody is inside `set_phase`, the gate is open exactly outside NCCL communication.  This
      includes the CHECKPOINT phase, in which the gate stays open. */
  lemma GateFollowsPhase(r: Run)
    requires Legal(r) && End(r).lock.Free?
    ensures End(r).gate <==> End(r).phase != NcclComm
  {
    RunKeepsGate(r);
  }

  /** The chunk whose gate check has already passed. */
  function Passed(w: Worker): nat {
    if w.Ready? then 1 else 0
  }

  lemma WorkerBehindGate(s: State, a: Action)
    requires GateInv(s) && WorkerEnabled(s, a) && s.c.gated && !s.gate
    ensures var u := WorkerStep(s, a); u.begun + Passed(u.worker) <= s.begun + Passed(s.worker)
  {
  }

  lemma ClosedStep(s: State, a: Action)
    requires GateInv(s) && Enabled(s, a) && s.c.gated && !s.gate
    ensures Apply(s, a).begun + Passed(Apply(s, a).worker) <= s.begun + Passed(s.worker)
  {
    if a.RequestStop? {
    } else if SaverEnabled(s, a) {
      SaverFrame(s, a);
    } else if WorkerEnabled(s, a) {
      WorkerBehindGate(s, a);
    } else {
      SetterFrame(s, a);
    }
  }

  /** q continues r, and in every state from r on, q's last state excepted, the gate is closed. */
  ghost predicate ClosedSince(r: Run, q: Run)
    requires Legal(r) && Legal(q)
    decreases q
  {
    r == q || (q.Then? && ClosedSince(r, q.before) && !End(q.before).gate)
  }

  lemma {:induction false} ClosedInterval(r: Run, q: Run)
    requires Legal(r) && Legal(q) && ConfigOf(r).gated && ClosedSince(r, q)
    ensures ConfigOf(q) == ConfigOf(r)
    ensures End(q).begun + Passed(End(q).worker) <= End(r).begun + Passed(End(r).worker)
    decreases q
  {
    if r != q {
      ClosedInterval(r, q.before);
      RunKeepsGate(q.before);
      ClosedStep(End(q.before), q.act);
    }
  }

  /** While the gate stays closed the worker begins at most one chunk, however phases interleave. */
  lemma AtMostOneChunkWhileClosed(r: Run, q: Run)
    requires Legal(r) && Legal(q) && ConfigOf(r).gated && ClosedSince(r, q)
    ensures End(q).begun <= End(r).begun + 1
  {
    ClosedInterval(r, q);
  }

  // ---------------------------------------------------------------------------------------
  // Files
  // ---------------------------------------------------------------------------------------

  /** The step whose checkpoint the worker has in hand. */
  function InHand(w: Worker): set<nat> {
    if InFlush(w) then {w.step} else {}
  }

  ghost predicate At(files: Files, p: Path, d: Data) {
    p in files && files[p] == d
  }

  /** A saved checkpoint is whole on NVMe until it is flushed, and whole on Lustre from then on. */
  ghost predicate CopyInv(s: State, k: nat) {
    k in s.saved ==>
      k in s.started &&
      if s.saved[k].fate.Flushed? then At(s.files, Remote(k), s.saved[k].data)
      else At(s.files, Local(k), s.saved[k].data)
  }

  /** Lustre holds what it held before, except under flushed steps. */
  ghost predicate RemoteInv(s: State, k: nat) {
    k !in s.saved || !s.saved[k].fate.Flushed? ==>
      (Remote(k) in s.files <==> Remote(k) in s.c.files0)
      && (Remote(k) in s.files ==> s.files[Remote(k)] == s.c.files0[Remote(k)])
  }

  /** Step k is saved and its flush is neither over nor given up. */
  predicate Waiting(s: State, k: nat) {
    k in s.saved && s.saved[k].fate.Queued?
  }

  ghost predicate SaverInv(s: State) {
    match s.saver
    case NotSaving => true
    case Saving(step, data, written) =>
      step in s.started && step !in s.saved && written <= |data| && At(s.files, Local(step), data[..written])
    case Enqueueing(step) => Waiting(s, step) && step !in s.queue && step !in InHand(s.worker)
  }

  ghost predicate QueueInv(s: State) {
    (forall i, j | 0 <= i < j < |s.queue| :: s.queue[i] != s.queue[j])
    && (forall i | 0 <= i < |s.queue| :: Waiting(s, s.queue[i]) && s.queue[i] !in InHand(s.worker))
  }

  /** The temporary file is the part of the checkpoint copied so far. */
  ghost predicate Copied(s: State, k: nat, off: nat) {
    Waiting(s, k) && off <= |s.saved[k].data| && At(s.files, Temp(k), s.saved[k].data[..off])
  }

  ghost predicate WorkerInv(s: State) {
    match s.worker
    case Opening(step) => Waiting(s, step)
    case Checking(step, off) => Copied(s, step, off)
    case Blocked(step, off) => Copied(s, step, off)
    case Ready(step, off) => Copied(s, step, off)
    case Writing(step, off, n) => Copied(s, step, off) && off + n <= |s.saved[step].data|
    case Renaming(step) => Waiting(s, step) && Copied(s, step, |s.saved[step].data|)
    case Unlinking(step) => step in s.saved && s.saved[step].fate.Flushed?
    case _ => true
  }

  ghost predicate Inv(s: State) {
    s.chunk != 0 && SaverInv(s) && QueueInv(s) && WorkerInv(s)
    && (forall k: nat :: CopyInv(s, k)) && (forall k: nat :: RemoteInv(s, k))
  }

  /** A step leaves checkpoint k and its files alone. */
  ghost predicate Elsewhere(s: State, t: State, k: nat) {
    && (k in s.saved <==> k in t.saved) && (k in s.saved ==> t.saved[k] == s.saved[k])
    && (k in s.started ==> k in t.started) && t.c == s.c
    && SameFile(s, t, Local(k)) && SameFile(s, t, Remote(k)) && SameFile(s, t, Temp(k))
  }

  ghost predicate SameFile(s: State, t: State, p: Path) {
    (p in s.files <==> p in t.files) && (p in s.files ==> t.files[p] == s.files[p])
  }

  lemma ElsewhereKeeps(s: State, t: State, k: nat)
    requires Elsewhere(s, t, k) && CopyInv(s, k) && RemoteInv(s, k)
    ensures CopyInv(t, k) && RemoteInv(t, k)
  {
  }

  lemma ElsewhereKeepsWorker(s: State, t: State)
    requires WorkerInv(s) && t.worker == s.worker && (InFlush(s.worker) ==> Elsewhere(s, t, s.worker.step))
    ensures WorkerInv(t)
  {
  }

  /** Nothing new is queued, and what comes into the worker's hand comes from the queue. */
  ghost predicate HandsOver(s: State, t: State) {
    && (forall k :: k in t.queue ==> k in s.queue)
    && (forall k :: k in InHand(t.worker) ==> k in InHand(s.worker) || k in s.queue)
  }

  lemma ElsewhereKeepsSaver(s: State, t: State)
    requires SaverInv(s) && t.saver == s.saver && HandsOver(s, t)
    requires !s.saver.NotSaving? ==> Elsewhere(s, t, s.saver.step)
    ensures SaverInv(t)
  {
  }

  // The saver.

  function SavedBy(s: State, a: Action): nat
    requires SaverEnabled(s, a)
  {
    if a.SaveStart? then a.step else s.saver.step
  }

  lemma SaverElsewhere(s: State, a: Action, k: nat)
    requires SaverEnabled(s, a) && k != SavedBy(s, a)
    ensures Elsewhere(s, SaverStep(s, a), k)
  {
  }

  lemma SaverKeepsOwn(s: State, a: Action)
    requires SaverEnabled(s, a) && SaverInv(s) && CopyInv(s, SavedBy(s, a)) && RemoteInv(s, SavedBy(s, a))
    ensures var t, k := SaverStep(s, a), SavedBy(s, a); CopyInv(t, k) && RemoteInv(t, k)
  {
  }

  lemma SaverKeepsSaver(s: State, a: Action)
    requires SaverEnabled(s, a) && SaverInv(s) && CopyInv(s, SavedBy(s, a))
    requires forall k | k in s.queue || k in InHand(s.worker) :: k in s.saved
    ensures SaverInv(SaverStep(s, a))
  {
  }

  lemma SaverKeepsQueue(s: State, a: Action)
    requires SaverEnabled(s, a) && SaverInv(s) && QueueInv(s) && SavedBy(s, a) !in s.queue
    ensures QueueInv(SaverStep(s, a))
  {
    var t := SaverStep(s, a);
    SaverFrame(s, a);
    forall i | 0 <= i < |s.queue| ensures Waiting(t, s.queue[i]) { SaverElsewhere(s, a, s.queue[i]); }
  }

  lemma SaverIsApart(s: State, a: Action)
    requires Inv(s) && SaverEnabled(s, a)
    ensures SavedBy(s, a) !in s.queue && SavedBy(s, a) !in InHand(s.worker)
    ensures forall k | k in s.queue || k in InHand(s.worker) :: k in s.saved
  {
    assert CopyInv(s, SavedBy(s, a));
  }

  lemma SaverKeepsInv(s: State, a: Action)
    requires Inv(s) && SaverEnabled(s, a)
    ensures Inv(SaverStep(s, a))
  {
    var t := SaverStep(s, a);
    SaverFrame(s, a);
    SaverIsApart(s, a);
    SaverKeepsSaver(s, a);
    SaverKeepsQueue(s, a);
    if InFlush(s.worker) { SaverElsewhere(s, a, s.worker.step); }
    ElsewhereKeepsWorker(s, t);
    forall k: nat ensures CopyInv(t, k) && RemoteInv(t, k) {
      if k == SavedBy(s, a) {
        SaverKeepsOwn(s, a);
      } else {
        SaverElsewhere(s, a, k);
        ElsewhereKeeps(s, t, k);
      }
    }
  }

  // The worker.

  /** Creating, filling, renaming and removing files. */
  predicate MovesFiles(a: Action) {
    a.Open? || a.WriteChunk? || a.Rename? || a.Unlink?
  }

  lemma MovesElsewhere(s: State, a: Action, k: nat)
    requires WorkerEnabled(s, a) && MovesFiles(a) && k != s.worker.step
    ensures Elsewhere(s, WorkerStep(s, a), k)
  {
  }

  lemma RestElsewhere(s: State, a: Action, k: nat)
    requires WorkerEnabled(s, a) && !MovesFiles(a) && (InFlush(s.worker) ==> k != s.worker.step)
    ensures Elsewhere(s, WorkerStep(s, a), k)
  {
  }

  lemma WorkerElsewhere(s: State, a: Action, k: nat)
    requires WorkerEnabled(s, a) && (InFlush(s.worker) ==> k != s.worker.step)
    ensures Elsewhere(s, WorkerStep(s, a), k)
  {
    if MovesFiles(a) { MovesElsewhere(s, a, k); } else { RestElsewhere(s, a, k); }
  }

  /** Only taking a job changes the queue, and only it puts another checkpoint into the worker's hand. */
  lemma WorkerTakes(s: State, a: Action)
    requires WorkerEnabled(s, a)
    ensures var t := WorkerStep(s, a);
            if a.TakeJob? then t.queue == s.queue[1..] && t.worker == Opening(s.queue[0])
            else t.queue == s.queue && (InFlush(t.worker) ==> InFlush(s.worker) && t.worker.step == s.worker.step)
  {
  }

  lemma WorkerHandsOver(s: State, a: Action)
    requires WorkerEnabled(s, a)
    ensures HandsOver(s, WorkerStep(s, a))
  {
    WorkerTakes(s, a);
  }

  lemma MovesKeepOwn(s: State, a: Action)
    requires WorkerEnabled(s, a) && MovesFiles(a)
    requires WorkerInv(s) && CopyInv(s, s.worker.step) && RemoteInv(s, s.worker.step)
    ensures var t, k := WorkerStep(s, a), s.worker.step; CopyInv(t, k) && RemoteInv(t, k)
  {
  }

  lemma MovesKeepWorker(s: State, a: Action)
    requires WorkerEnabled(s, a) && MovesFiles(a) && WorkerInv(s) && CopyInv(s, s.worker.step)
    ensures WorkerInv(WorkerStep(s, a))
  {
    if a.WriteChunk? {
      var data, off, n := s.saved[s.worker.step].data, s.worker.off, s.worker.n;
      assert data[..off] + data[off..off + n] == data[..off + n];
    }
  }

  lemma RestKeepsOwn(s: State, a: Action)
    requires WorkerEnabled(s, a) && !MovesFiles(a) && InFlush(s.worker)
    requires WorkerInv(s) && CopyInv(s, s.worker.step) && RemoteInv(s, s.worker.step)
    ensures var t, k := WorkerStep(s, a), s.worker.step; CopyInv(t, k) && RemoteInv(t, k)
  {
  }

  lemma RestKeepsWorker(s: State, a: Action)
    requires WorkerEnabled(s, a) && !MovesFiles(a) && WorkerInv(s) && s.chunk != 0
    requires a.TakeJob? ==> Waiting(s, s.queue[0])
    requires InFlush(s.worker) ==> CopyInv(s, s.worker.step)
    ensures WorkerInv(WorkerStep(s, a))
  {
  }

  lemma ChunkStaysPositive(s: State, a: Action)
    requires WorkerEnabled(s, a) && s.chunk != 0
    ensures WorkerStep(s, a).chunk != 0
  {
  }

  lemma WorkerKeepsOwn(s: State, a: Action)
    requires WorkerEnabled(s, a) && Inv(s)
    ensures WorkerInv(WorkerStep(s, a))
    ensures InFlush(s.worker) ==>
              CopyInv(WorkerStep(s, a), s.worker.step) && RemoteInv(WorkerStep(s, a), s.worker.step)
  {
    if InFlush(s.worker) { assert CopyInv(s, s.worker.step) && RemoteInv(s, s.worker.step); }
    if MovesFiles(a) {
      MovesKeepOwn(s, a);
      MovesKeepWorker(s, a);
    } else {
      if InFlush(s.worker) { RestKeepsOwn(s, a); }
      RestKeepsWorker(s, a);
    }
  }

  lemma WorkerKeepsQueue(s: State, a: Action)
    requires WorkerEnabled(s, a) && QueueInv(s)
    ensures QueueInv(WorkerStep(s, a))
  {
    var t := WorkerStep(s, a);
    WorkerTakes(s, a);
    forall i | 0 <= i < |s.queue| ensures Waiting(t, s.queue[i]) { WorkerElsewhere(s, a, s.queue[i]); }
  }

  lemma WorkerIsApart(s: State)
    requires SaverInv(s) && WorkerInv(s) && InFlush(s.worker) && !s.saver.NotSaving?
    ensures s.saver.step != s.worker.step
  {
  }

  lemma WorkerKeepsSaver(s: State, a: Action)
    requires Inv(s) && WorkerEnabled(s, a)
    ensures SaverInv(WorkerStep(s, a))
  {
    var t := WorkerStep(s, a);
    WorkerFrame(s, a);
    WorkerHandsOver(s, a);
    if !s.saver.NotSaving? {
      if InFlush(s.worker) { WorkerIsApart(s); }
      WorkerElsewhere(s, a, s.saver.step);
    }
    ElsewhereKeepsSaver(s, t);
  }

  lemma WorkerKeepsInv(s: State, a: Action)
    requires Inv(s) && WorkerEnabled(s, a)
    ensures Inv(WorkerStep(s, a))
  {
    var t := WorkerStep(s, a);
    WorkerKeepsOwn(s, a);
    WorkerKeepsSaver(s, a);
    WorkerKeepsQueue(s, a);
    ChunkStaysPositive(s, a);
    forall k: nat ensures CopyInv(t, k) && RemoteInv(t, k) {
      if !InFlush(s.worker) || k != s.worker.step {
        WorkerElsewhere(s, a, k);
        ElsewhereKeeps(s, t, k);
      }
    }
  }

  lemma OthersKeepInv(s: State, t: State)
    requires Inv(s) && LeftByOthers(s, t)
    ensures Inv(t)
  {
    forall k: nat ensures CopyInv(t, k) && RemoteInv(t, k) {
      assert CopyInv(s, k) && RemoteInv(s, k);
    }
  }

  lemma StepKeepsInv(s: State, a: Action)
    requires Inv(s) && Enabled(s, a)
    ensures Inv(Apply(s, a))
  {
    if a.RequestStop? {
      OthersKeepInv(s, Apply(s, a));
    } else if SaverEnabled(s, a) {
      SaverKeepsInv(s, a);
    } else if WorkerEnabled(s, a) {
      WorkerKeepsInv(s, a);
    } else {
      SetterFrame(s, a);
      OthersKeepInv(s, Apply(s, a));
    }
  }

  lemma {:induction false} RunKeepsInv(r: Run)
    requires Legal(r) && ConfigOf(r).firstChunk != 0
    ensures Inv(End(r))
  {
    match r
    case Start(_) =>
    case Then(before, act) =>
      RunKeepsInv(before);
      StepKeepsInv(End(before), act);
  }

  // ---------------------------------------------------------------------------------------
  // Main results
  // ---------------------------------------------------------------------------------------

  /** Checkpoint k is whole on NVMe or on Lustre. */
  ghost predicate Survives(s: State, k: nat)
    requires k in s.saved
  {
    At(s.files, Local(k), s.saved[k].data) || At(s.files, Remote(k), s.saved[k].data)
  }

  /**
   In every state of every run, inside a save or a flush, after a stop or a failure, with any chunk
   sizes: each saved checkpoint is whole on NVMe or on Lustre, and its local file is missing only
   after the rename that made the Lustre copy whole.
   */
  lemma NoCheckpointIsLost(r: Run, k: nat)
    requires Legal(r) && ConfigOf(r).firstChunk != 0 && k in End(r).saved
    ensures Survives(End(r), k)
    ensures Local(k) !in End(r).files ==>
              End(r).saved[k].fate.Flushed? && At(End(r).files, Remote(k), End(r).saved[k].data)
  {
    RunKeepsInv(r);
    assert CopyInv(End(r), k);
  }

  /** A Lustre file is untouched, or byte for byte the checkpoint saved under its step. */
  lemma DestinationIsOldOrWhole(r: Run, k: nat)
    requires Legal(r) && ConfigOf(r).firstChunk != 0
    ensures var s := End(r);
            || (k in s.saved && s.saved[k].fate.Flushed? && At(s.files, Remote(k), s.saved[k].data))
            || (Remote(k) !in s.files && Remote(k) !in ConfigOf(r).files0)
            || (Remote(k) in ConfigOf(r).files0 && At(s.files, Remote(k), ConfigOf(r).files0[Remote(k)]))
  {
    RunKeepsInv(r);
    RunKeepsGate(r);
    assert CopyInv(End(r), k) && RemoteInv(End(r), k);
  }

  // ---------------------------------------------------------------------------------------
  // Chunk size zero
  // ---------------------------------------------------------------------------------------

  /** Checkpoint 0 is saved and queued. */
  predicate Queued0(s: State, d: Data) {
    && s.c.lustre && s.chunk == 0 && s.worker == Polling && s.queue == [0] && s.lock == Free && s.phase == Idle && !s.stop
    && s.saved == map[0 := Saved(d, Queued)]
    && Local(0) in s.files && s.files[Local(0)] == d
  }

  predicate Checking0(s: State, d: Data) {
    && s.chunk == 0 && s.lock == Free && s.phase == Idle && s.worker == Checking(0, 0)
    && s.saved == map[0 := Saved(d, Queued)]
    && Local(0) in s.files && s.files[Local(0)] == d
    && Temp(0) in s.files && s.files[Temp(0)] == []
  }

  predicate Renaming0(s: State, d: Data) {
    && s.worker == Renaming(0) && 0 in s.saved && s.saved[0].data == d
    && Temp(0) in s.files && s.files[Temp(0)] == []
  }

  predicate Lost0(s: State, d: Data) {
    && 0 in s.saved && s.saved[0].data == d
    && Local(0) !in s.files && Remote(0) in s.files && s.files[Remote(0)] == []
  }

  lemma Next(r: Run, a: Action)
    requires Legal(r) && Enabled(End(r), a)
    ensures Legal(Then(r, a)) && End(Then(r, a)) == Apply(End(r), a) && ConfigOf(Then(r, a)) == ConfigOf(r)
  {
  }

  lemma SaveFirst(c: Config, data: Data) returns (r: Run)
    requires c.firstChunk == 0 && c.lustre
    ensures Legal(r) && ConfigOf(r) == c && Queued0(End(r), data)
  {
    r := Start(c);
    Next(r, SaveStart(0, data));
    r := Then(r, SaveStart(0, data));
    Next(r, SaveMore(|data|));
    r := Then(r, SaveMore(|data|));
    assert data[..|data|] == data;
    Next(r, SaveDone);
    r := Then(r, SaveDone);
    Next(r, Enqueue);
    r := Then(r, Enqueue);
  }

  lemma OpenFirst(r: Run, data: Data) returns (q: Run)
    requires Legal(r) && Queued0(End(r), data)
    ensures Legal(q) && ConfigOf(q) == ConfigOf(r) && Checking0(End(q), data)
  {
    Next(r, EnterLoop);
    q := Then(r, EnterLoop);
    Next(q, TakeJob);
    q := Then(q, TakeJob);
    Next(q, Open);
    q := Then(q, Open);
  }

  lemma ReadNothing(r: Run, data: Data) returns (q: Run)
    requires Legal(r) && Checking0(End(r), data)
    ensures Legal(q) && ConfigOf(q) == ConfigOf(r) && Renaming0(End(q), data)
  {
    Next(r, CheckRate(true));
    q := Then(r, CheckRate(true));
    Next(q, ReadChunk);
    q := Then(q, ReadChunk);
  }

  lemma LoseFirst(r: Run, data: Data) returns (q: Run)
    requires Legal(r) && Renaming0(End(r), data)
    ensures Legal(q) && ConfigOf(q) == ConfigOf(r) && Lost0(End(q), data)
  {
    Next(r, Rename);
    q := Then(r, Rename);
    Next(q, Unlink);
    q := Then(q, Unlink);
  }

  /** Without a Lustre directory nothing is ever queued. */
  ghost predicate StaysLocal(s: State, k: nat) {
    && !s.c.lustre && s.queue == [] && !InFlush(s.worker) && SaverInv(s)
    && (k in s.saved ==> k in s.started && At(s.files, Local(k), s.saved[k].data))
  }

  lemma StepStaysLocal(s: State, a: Action)
    requires Enabled(s, a) && forall k: nat :: StaysLocal(s, k)
    ensures forall k: nat :: StaysLocal(Apply(s, a), k)
  {
    if SaverEnabled(s, a) {
      var t := SaverStep(s, a);
      assert StaysLocal(s, 0);
      if a.SaveStart? { assert StaysLocal(s, a.step); }
      forall k: nat ensures StaysLocal(t, k) { assert StaysLocal(s, k); }
    } else if WorkerEnabled(s, a) {
      assert StaysLocal(s, 0);
      forall k: nat ensures StaysLocal(Apply(s, a), k) { assert StaysLocal(s, k); }
    } else {
      if !a.RequestStop? { SetterFrame(s, a); }
      assert LeftByOthers(s, Apply(s, a));
      forall k: nat ensures StaysLocal(Apply(s, a), k) { assert StaysLocal(s, k); }
    }
  }

  lemma {:induction false} RunStaysLocal(r: Run)
    requires Legal(r) && !ConfigOf(r).lustre
    ensures forall k: nat :: StaysLocal(End(r), k)
  {
    match r
    case Start(_) =>
    case Then(before, act) =>
      RunStaysLocal(before);
      StepStaysLocal(End(before), act);
  }

  ghost predicate LossIn(c: Config, r: Run, k: nat) {
    Legal(r) && ConfigOf(r) == c && k in End(r).saved && !Survives(End(r), k)
  }

  /** With empty chunks any checkpoint that is not empty is lost by its flush: an empty file is left. */
  lemma EmptyChunksLose(c: Config, data: Data) returns (r: Run)
    requires c.firstChunk == 0 && c.lustre && data != []
    ensures LossIn(c, r, 0) && End(r).saved[0].data == data
    ensures Local(0) !in End(r).files && At(End(r).files, Remote(0), [])
  {
    r := SaveFirst(c, data);
    r := OpenFirst(r, data);
    r := ReadNothing(r, data);
    r := LoseFirst(r, data);
  }

  /**
   A checkpoint is lost in some run exactly when flushes happen and chunks are empty: a read of zero
   bytes looks like the end of the file, so an empty file is renamed and the source removed.
   */
  lemma LossExactlyWithEmptyChunks(c: Config)
    ensures (exists r, k :: LossIn(c, r, k)) <==> c.firstChunk == 0 && c.lustre
  {
    if c.firstChunk == 0 && c.lustre {
      var r := EmptyChunksLose(c, [1]);
      assert LossIn(c, r, 0);
    } else {
      forall r, k | Legal(r) && ConfigOf(r) == c && k in End(r).saved ensures Survives(End(r), k) {
        if c.firstChunk != 0 {
          NoCheckpointIsLost(r, k);
        } else {
          RunStaysLocal(r);
          assert StaysLocal(End(r), k);
        }
      }
    }
  }
}
