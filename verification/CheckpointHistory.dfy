/**
 What the checkpoint machine's state says about its history: which bytes are saved, which jobs are
 taken in which order, which chunk size and which phase are in force, what a stop does, and that an
 undisturbed worker flushes every job.
 */
module CheckpointHistory {
  import opened Basics
  import opened CheckpointFlush
  import opened CheckpointTheorems

  // ---------------------------------------------------------------------------------------
  // What is saved, and what becomes of it
  // ---------------------------------------------------------------------------------------

  function Given(d: Option<Data>, a: Action, k: nat): Option<Data> {
    if a.SaveStart? && a.step == k then Some(a.data) else d
  }

  /** The data `save_async` was given for step k. */
  ghost function Argument(r: Run, k: nat): Option<Data> {
    match r
    case Start(_) => None
    case Then(before, act) => Given(Argument(before, k), act, k)
  }

  ghost predicate Recorded(s: State, k: nat, d: Option<Data>) {
    && (k in s.started <==> d.Some?)
    && (k in s.saved ==> d == Some(s.saved[k].data))
    && (s.saver.Saving? && s.saver.step == k ==> d == Some(s.saver.data))
    && (s.saver.Enqueueing? && s.saver.step == k ==> k in s.saved)
  }

  ghost predicate SameData(s: State, t: State, k: nat) {
    && (k in t.saved <==> k in s.saved)
    && (k in s.saved ==> t.saved[k].data == s.saved[k].data)
  }

  lemma WorkerKeepsData(s: State, a: Action, k: nat)
    requires WorkerEnabled(s, a)
    ensures SameData(s, WorkerStep(s, a), k)
  {
  }

  lemma SaverRecords(s: State, a: Action, k: nat, d: Option<Data>)
    requires SaverEnabled(s, a) && Recorded(s, k, d)
    ensures Recorded(SaverStep(s, a), k, Given(d, a, k))
  {
  }

  lemma StepRecords(s: State, a: Action, k: nat, d: Option<Data>)
    requires Enabled(s, a) && Recorded(s, k, d)
    ensures Recorded(Apply(s, a), k, Given(d, a, k))
  {
    if a.RequestStop? {
    } else if SaverEnabled(s, a) {
      SaverRecords(s, a, k, d);
    } else if WorkerEnabled(s, a) {
      WorkerFrame(s, a);
      WorkerKeepsData(s, a, k);
    } else {
      SetterFrame(s, a);
    }
  }

  /** A saved checkpoint is what its save was given; only steps that were begun are saved. */
  lemma {:induction false} SavedIsTheArgument(r: Run, k: nat)
    requires Legal(r)
    ensures Recorded(End(r), k, Argument(r, k))
    ensures k in End(r).saved ==> Argument(r, k) == Some(End(r).saved[k].data)
  {
    match r
    case Start(_) =>
    case Then(before, act) =>
      SavedIsTheArgument(before, k);
      StepRecords(End(before), act, k, Argument(before, k));
  }

  /** What an action does to checkpoint k: saved, refused by a full queue or for want of a Lustre
      directory, given up, or renamed into place. */
  function EventOf(s: State, a: Action, k: nat): Option<Fate>
    requires Enabled(s, a)
  {
    match a
    case SaveDone => if s.saver.step == k then Some(Queued) else None
    case Enqueue =>
      if s.saver.step == k && (!s.c.lustre || 0 < s.c.maxPending <= |s.queue|) then Some(NotQueued) else None
    case Open => if s.worker.step == k && Local(k) !in s.files then Some(Abandoned) else None
    case StopWaiting => if s.worker.step == k then Some(Abandoned) else None
    case Fail => if s.worker.step == k && !s.worker.Unlinking? then Some(Abandoned) else None
    case Rename => if s.worker.step == k then Some(Flushed) else None
    case _ => None
  }

  ghost function LastEvent(r: Run, k: nat): Option<Fate>
    requires Legal(r)
  {
    match r
    case Start(_) => None
    case Then(before, act) =>
      var e := EventOf(End(before), act, k);
      if e.Some? then e else LastEvent(before, k)
  }

  ghost predicate HasFate(s: State, k: nat, f: Option<Fate>) {
    k in s.saved ==> f == Some(s.saved[k].fate)
  }

  lemma SaverFates(s: State, a: Action, k: nat, f: Option<Fate>)
    requires SaverEnabled(s, a) && HasFate(s, k, f)
    ensures HasFate(SaverStep(s, a), k, if EventOf(s, a, k).Some? then EventOf(s, a, k) else f)
  {
  }

  lemma WorkerFates(s: State, a: Action, k: nat, f: Option<Fate>)
    requires WorkerEnabled(s, a) && HasFate(s, k, f)
    ensures HasFate(WorkerStep(s, a), k, if EventOf(s, a, k).Some? then EventOf(s, a, k) else f)
  {
  }

  lemma {:induction false} FateIsTheLastEvent(r: Run, k: nat)
    requires Legal(r)
    ensures HasFate(End(r), k, LastEvent(r, k))
  {
    match r
    case Start(_) =>
    case Then(before, act) =>
      var s, f := End(before), LastEvent(before, k);
      FateIsTheLastEvent(before, k);
      if act.RequestStop? {
      } else if SaverEnabled(s, act) {
        SaverFates(s, act, k, f);
      } else if WorkerEnabled(s, act) {
        WorkerFates(s, act, k, f);
      } else {
        SetterFrame(s, act);
      }
  }

  // ---------------------------------------------------------------------------------------
  // Jobs
  // ---------------------------------------------------------------------------------------

  /** The steps whose jobs were put into the queue: those saved while it had room. */
  ghost function Enqueued(r: Run): seq<nat>
    requires Legal(r)
  {
    match r
    case Start(_) => []
    case Then(before, act) =>
      var s := End(before);
      if act.Enqueue? && s.c.lustre && (s.c.maxPending <= 0 || |s.queue| < s.c.maxPending)
      then Enqueued(before) + [s.saver.step] else Enqueued(before)
  }

  /** The steps whose flush the worker has begun. */
  ghost function Taken(r: Run): seq<nat>
    requires Legal(r)
  {
    match r
    case Start(_) => []
    case Then(before, act) =>
      if act.TakeJob? && End(r).worker.Opening? then Taken(before) + [End(r).worker.step] else Taken(before)
  }

  lemma StepQueues(s: State, a: Action)
    requires Enabled(s, a)
    ensures a.TakeJob? ==>
              s.queue != [] && Apply(s, a).worker == Opening(s.queue[0]) && Apply(s, a).queue == s.queue[1..]
    ensures a.Enqueue? ==>
              Apply(s, a).queue
              == if s.c.lustre && (s.c.maxPending <= 0 || |s.queue| < s.c.maxPending)
                 then s.queue + [s.saver.step] else s.queue
    ensures !a.TakeJob? && !a.Enqueue? ==> Apply(s, a).queue == s.queue
    ensures !a.TakeJob? && InFlush(Apply(s, a).worker) ==>
              InFlush(s.worker) && Apply(s, a).worker.step == s.worker.step
  {
    if a.RequestStop? {
    } else if SaverEnabled(s, a) {
      SaverFrame(s, a);
    } else if WorkerEnabled(s, a) {
      WorkerTakes(s, a);
    } else {
      SetterFrame(s, a);
    }
  }

  lemma MoveFirst(a: seq<nat>, b: seq<nat>)
    requires b != []
    ensures a + [b[0]] + b[1..] == a + b
  {
  }

  lemma Append(a: seq<nat>, b: seq<nat>, k: nat)
    ensures a + (b + [k]) == a + b + [k]
  {
  }

  /** Jobs are taken in the order they were queued, each once, and the queue holds the rest. */
  lemma {:induction false} JobsAreFifo(r: Run)
    requires Legal(r)
    ensures Taken(r) + End(r).queue == Enqueued(r)
  {
    match r
    case Start(_) =>
    case Then(before, act) =>
      JobsAreFifo(before);
      var s := End(before);
      StepQueues(s, act);
      if act.TakeJob? { MoveFirst(Taken(before), s.queue); }
      if act.Enqueue? { Append(Taken(before), s.queue, s.saver.step); }
  }

  /** The worker has in hand the job taken last, and no more jobs wait than are allowed. */
  lemma {:induction false} HandAndQueue(r: Run)
    requires Legal(r)
    ensures InFlush(End(r).worker) ==> Taken(r) != [] && Taken(r)[|Taken(r)| - 1] == End(r).worker.step
    ensures 0 < ConfigOf(r).maxPending ==> |End(r).queue| <= ConfigOf(r).maxPending
  {
    match r
    case Start(_) =>
    case Then(before, act) =>
      HandAndQueue(before);
      RunKeepsGate(before);
      StepQueues(End(before), act);
  }

  // ---------------------------------------------------------------------------------------
  // Stopping
  // ---------------------------------------------------------------------------------------

  ghost predicate Requested(r: Run) {
    r.Then? && (r.act.RequestStop? || Requested(r.before))
  }

  lemma StepStops(s: State, a: Action)
    requires Enabled(s, a)
    ensures Apply(s, a).stop == (s.stop || a.RequestStop?)
  {
    if a.RequestStop? {
    } else if SaverEnabled(s, a) {
      SaverFrame(s, a);
    } else if WorkerEnabled(s, a) {
      WorkerFrame(s, a);
    }
  }

  lemma {:induction false} StopIsRequested(r: Run)
    requires Legal(r)
    ensures End(r).stop <==> Requested(r)
  {
    match r
    case Start(_) =>
    case Then(before, act) =>
      StopIsRequested(before);
      StepStops(End(before), act);
  }

  ghost predicate Extends(r: Run, q: Run) {
    r == q || (q.Then? && Extends(r, q.before))
  }

  /** The worker has passed the test of the stop flag and has no job yet. */
  function JobBudget(w: Worker): nat {
    if w.Getting? then 1 else 0
  }

  lemma StoppingStep(s: State, a: Action)
    requires Enabled(s, a) && s.stop
    ensures Apply(s, a).stop && (s.worker.Stopped? ==> Apply(s, a).worker.Stopped?)
    ensures (if a.TakeJob? then 1 else 0) + JobBudget(Apply(s, a).worker) <= JobBudget(s.worker)
  {
    StepStops(s, a);
    if a.RequestStop? {
    } else if SaverEnabled(s, a) {
      SaverFrame(s, a);
    } else if WorkerEnabled(s, a) {
    } else {
      SetterFrame(s, a);
    }
  }

  lemma {:induction false} StoppingRun(r: Run, q: Run)
    requires Legal(r) && Legal(q) && Extends(r, q) && End(r).stop
    ensures End(q).stop && (End(r).worker.Stopped? ==> End(q).worker.Stopped?)
    ensures |Taken(q)| + JobBudget(End(q).worker) <= |Taken(r)| + JobBudget(End(r).worker)
    decreases q
  {
    if r != q {
      StoppingRun(r, q.before);
      StoppingStep(End(q.before), q.act);
    }
  }

  /** Once a stop is requested the worker takes at most one more job, and none once it has ended. */
  lemma AtMostOneJobAfterStop(r: Run, q: Run)
    requires Legal(r) && Legal(q) && Extends(r, q) && Requested(r)
    ensures |Taken(q)| <= |Taken(r)| + 1
    ensures End(r).worker.Stopped? ==> End(q).worker.Stopped? && |Taken(q)| <= |Taken(r)|
  {
    StopIsRequested(r);
    StoppingRun(r, q);
  }

  /** A stop request reaches a worker that waits for a job, or at a closed gate, where it gives up the job
      in hand: it ends, and has touched no file. */
  lemma WaitingWorkerStops(r: Run) returns (q: Run)
    requires Legal(r) && Requested(r)
    requires End(r).worker.Polling? || End(r).worker.Getting? || End(r).worker.Blocked?
    ensures Legal(q) && Extends(r, q) && End(q).worker.Stopped? && End(q).gate == End(r).gate
    ensures End(q).files == End(r).files && End(q).queue == End(r).queue
  {
    StopIsRequested(r);
    q := r;
    if !End(r).worker.Polling? {
      var a := if End(r).worker.Getting? then GetTimesOut else StopWaiting;
      Next(r, a);
      q := Then(r, a);
    }
    Next(q, QuitLoop);
    q := Then(q, QuitLoop);
  }

  /** A failure at any point of a flush costs the job and nothing else. */
  lemma FailureLeavesFiles(s: State)
    requires InFlush(s.worker)
    ensures Enabled(s, Fail)
    ensures var t := Apply(s, Fail);
            t.worker.Polling? && t.files == s.files && t.queue == s.queue && t.chunk == s.chunk && t.stop == s.stop
  {
  }

  lemma StopsOnlyStopped(s: State, a: Action)
    requires Enabled(s, a)
    ensures Apply(s, a).worker.Stopped? ==> s.worker.Stopped? || s.stop
    ensures a.Fail? ==> Apply(s, a).worker.Polling?
  {
    if a.RequestStop? {
    } else if SaverEnabled(s, a) {
      SaverFrame(s, a);
    } else if !WorkerEnabled(s, a) {
      SetterFrame(s, a);
    }
  }

  /** The worker ends only on request: no failure of any file operation ends it. */
  lemma {:induction false} WorkerEndsOnlyOnRequest(r: Run)
    requires Legal(r) && End(r).worker.Stopped?
    ensures Requested(r)
  {
    match r
    case Start(_) =>
    case Then(before, act) =>
      StopsOnlyStopped(End(before), act);
      StopIsRequested(before);
      if End(before).worker.Stopped? { WorkerEndsOnlyOnRequest(before); }
  }

  // ---------------------------------------------------------------------------------------
  // Chunks
  // ---------------------------------------------------------------------------------------

  ghost function LastTarget(r: Run): Option<int> {
    match r
    case Start(_) => None
    case Then(before, act) => if act.Adapt? then Some(act.target) else LastTarget(before)
  }

  ghost function Reads(r: Run): nat {
    match r
    case Start(_) => 0
    case Then(before, act) => Reads(before) + if act.ReadChunk? then 1 else 0
  }

  lemma WorkerSizes(s: State, a: Action)
    requires WorkerEnabled(s, a)
    ensures WorkerStep(s, a).chunk == if a.Adapt? then Clamp(a.target) else s.chunk
    ensures WorkerStep(s, a).begun == s.begun + if a.ReadChunk? then 1 else 0
  {
  }

  lemma StepSizes(s: State, a: Action)
    requires Enabled(s, a)
    ensures Apply(s, a).chunk == if a.Adapt? then Clamp(a.target) else s.chunk
    ensures Apply(s, a).begun == s.begun + if a.ReadChunk? then 1 else 0
  {
    if a.RequestStop? {
    } else if SaverEnabled(s, a) {
      SaverFrame(s, a);
    } else if WorkerEnabled(s, a) {
      WorkerSizes(s, a);
    } else {
      SetterFrame(s, a);
    }
  }

  /** The chunk size is the configured one until the first adaptation, then the last target within the
      limits; every read is counted. */
  lemma {:induction false} ChunkIsTheLastTarget(r: Run)
    requires Legal(r)
    ensures End(r).chunk
            == match LastTarget(r) case None => ConfigOf(r).firstChunk case Some(target) => Clamp(target)
    ensures End(r).begun == Reads(r)
  {
    match r
    case Start(_) =>
    case Then(before, act) =>
      ChunkIsTheLastTarget(before);
      StepSizes(End(before), act);
  }

  /** Between two chunks, and not before the first, an adaptive flush can take any target within the limits. */
  lemma AdaptsBetweenChunks(r: Run, target: int) returns (q: Run)
    requires Legal(r) && End(r).worker.Checking? && End(r).worker.off > 0
    requires ConfigOf(r).adaptive && ConfigOf(r).gated && InLimits(target)
    ensures Legal(q) && Extends(r, q) && End(q) == End(r).(chunk := target)
  {
    RunKeepsGate(r);
    Next(r, Adapt(target));
    q := Then(r, Adapt(target));
    assert Distance(target, Clamp(target)) <= Distance(target, target);
  }

  /** A read takes one chunk of the source, or the rest of it if that is less or the size is -1; the
      write appends exactly those bytes. */
  lemma CopiesOneChunk(s: State)
    requires WorkerEnabled(s, ReadChunk) && Temp(s.worker.step) in s.files && s.chunk != 0
    ensures var source, off := s.files[Local(s.worker.step)], s.worker.off;
            var rest := |source| - off;
            var n := if 0 <= s.chunk < rest then s.chunk else rest;
            var t := Apply(s, ReadChunk);
            if rest == 0 then t.worker == Renaming(s.worker.step)
            else t.worker == Writing(s.worker.step, off, n) && WorkerEnabled(t, WriteChunk)
                 && Apply(t, WriteChunk).worker == Checking(s.worker.step, off + n)
                 && Apply(t, WriteChunk).files
                    == s.files[Temp(s.worker.step) := s.files[Temp(s.worker.step)] + source[off..off + n]]
  {
  }

  /** Inside a collective the rate is zero; outside it may still be. */
  lemma RateIsZeroInCollectives(s: State)
    requires s.worker.Checking? && (s.c.gated ==> s.lock.Free?)
    ensures WorkerEnabled(s, CheckRate(false))
    ensures s.c.gated ==> (WorkerEnabled(s, CheckRate(true)) <==> s.phase != NcclComm)
  {
  }

  /** A positive rate admits the next chunk, even if the gate closes before its read; with a zero rate it
      has to wait for the gate. */
  lemma AdmittedExactlyWhen(s: State, positive: bool, t: State)
    requires Inv(s) && WorkerEnabled(s, CheckRate(positive)) && s.chunk >= -1
    requires LeftByOthers(WorkerStep(s, CheckRate(positive)), t)
    ensures WorkerEnabled(t, ReadChunk) <==> !s.c.gated || positive
    ensures WorkerEnabled(t, PassGate) <==> s.c.gated && !positive && t.gate
  {
    assert CopyInv(s, s.worker.step);
  }

  // ---------------------------------------------------------------------------------------
  // Phases
  // ---------------------------------------------------------------------------------------

  /** The argument of the last call of `set_phase` that got the lock. */
  ghost function LastPhase(r: Run): Phase {
    match r
    case Start(_) => Idle
    case Then(before, act) => if act.Acquire? then act.phase else LastPhase(before)
  }

  ghost predicate Follows(s: State, p: Phase) {
    match s.lock
    case Free => s.phase == p
    case Held(target, _) => target == p
  }

  lemma StepFollows(s: State, a: Action, p: Phase)
    requires Enabled(s, a) && GateInv(s) && Follows(s, p)
    ensures Follows(Apply(s, a), if a.Acquire? then a.phase else p)
  {
    if a.RequestStop? {
    } else if SaverEnabled(s, a) {
      SaverFrame(s, a);
    } else if WorkerEnabled(s, a) {
      WorkerFrame(s, a);
    }
  }

  lemma {:induction false} RunFollows(r: Run)
    requires Legal(r)
    ensures Follows(End(r), LastPhase(r))
  {
    match r
    case Start(_) =>
    case Then(before, act) =>
      RunFollows(before);
      RunKeepsGate(before);
      StepFollows(End(before), act, LastPhase(before));
  }

  /** When nobody is inside `set_phase`, the phase is the one last set, and the gate is open exactly if
      that is not NCCL communication. */
  lemma PhaseIsTheLastSet(r: Run)
    requires Legal(r) && End(r).lock.Free?
    ensures End(r).phase == LastPhase(r) && (End(r).gate <==> LastPhase(r) != NcclComm)
  {
    RunFollows(r);
    GateFollowsPhase(r);
  }

  lemma {:induction false} ExtendsFurther(a: Run, b: Run, c: Run)
    requires Extends(a, b) && Extends(b, c)
    ensures Extends(a, c)
    decreases c
  {
    if b != c { ExtendsFurther(a, b, c.before); }
  }

  /** Whoever holds the lock can go on, and gives it back after at most three steps. */
  lemma SetterFinishes(r: Run) returns (q: Run)
    requires Legal(r)
    ensures Legal(q) && Extends(r, q) && End(q).lock.Free? && LastPhase(q) == LastPhase(r)
    ensures LeftByOthers(End(r), End(q)) && End(q).stop == End(r).stop
    decreases match End(r).lock case Free => 0
                                case Held(_, stage) => match stage case Entered => 3 case Gated => 2 case Written => 1
  {
    q := r;
    match End(r).lock
    case Free =>
    case Held(_, stage) =>
      var a := match stage case Entered => TouchGate case Gated => WritePhase case Written => Release;
      Next(r, a);
      SetterFrame(End(r), a);
      q := SetterFinishes(Then(r, a));
      ExtendsFurther(r, Then(r, a), q);
  }

  // ---------------------------------------------------------------------------------------
  // Progress
  // ---------------------------------------------------------------------------------------

  /** A call of `save_async` that is told of a failure is over, */
  lemma FailedSaveEnds(r: Run) returns (q: Run)
    requires Legal(r) && End(r).saver.Saving?
    ensures Legal(q) && Extends(r, q) && End(q) == End(r).(saver := NotSaving)
  {
    Next(r, SaveFails);
    q := Then(r, SaveFails);
  }

  /** and any other ends with its checkpoint saved. */
  lemma SaveFinishes(r: Run) returns (q: Run)
    requires Legal(r) && Flushes(ConfigOf(r)) && End(r).saver.Saving?
    ensures Legal(q) && Extends(r, q) && End(q).saver.NotSaving?
    ensures var k := End(r).saver.step; k in End(q).saved && Argument(r, k) == Some(End(q).saved[k].data)
  {
    var k, data := End(r).saver.step, End(r).saver.data;
    SavedIsTheArgument(r, k);
    RunKeepsInv(r);
    var rest := SaveMore(|data| - End(r).saver.written);
    Next(r, rest);
    q := Then(r, rest);
    Next(q, SaveDone);
    q := Then(q, SaveDone);
    assert Extends(r, q.before);
    Next(q, Enqueue);
    q := Then(q, Enqueue);
  }

  /** What the worker does when nothing fails, resizes its chunks or times out. */
  predicate Own(a: Action) {
    a.EnterLoop? || a.TakeJob? || a.Open? || a.CheckRate? || a.PassGate? || a.ReadChunk? || a.WriteChunk?
    || a.Rename? || a.Unlink?
  }

  /** q continues r by such steps of the worker only. */
  ghost predicate Alone(r: Run, q: Run)
    ensures Alone(r, q) ==> Extends(r, q)
    decreases q
  {
    r == q || (q.Then? && Own(q.act) && Alone(r, q.before))
  }

  lemma {:induction false} AloneFurther(a: Run, b: Run, c: Run)
    requires Alone(a, b) && Alone(b, c)
    ensures Alone(a, c)
    decreases c
  {
    if b != c { AloneFurther(a, b, c.before); }
  }

  /** Nobody is inside `set_phase`, the gate is open, and chunks can be read. */
  ghost predicate Clear(s: State) {
    Inv(s) && GateInv(s) && s.lock.Free? && s.gate && s.chunk >= -1
  }

  /** How many steps a flush is away from its end at most. */
  ghost function Rank(s: State): nat
    requires Inv(s)
  {
    match s.worker
    case Opening(k) => 4 * |s.saved[k].data| + 6
    case Checking(k, off) => 4 * (|s.saved[k].data| - off) + 5
    case Blocked(k, off) => 4 * (|s.saved[k].data| - off) + 4
    case Ready(k, off) => 4 * (|s.saved[k].data| - off) + 3
    case Writing(k, off, n) => 4 * (|s.saved[k].data| - off - n) + 6
    case Renaming(_) => 2
    case Unlinking(_) => 1
    case _ => 0
  }

  function NextAction(w: Worker): Action
    requires InFlush(w)
  {
    match w
    case Opening(_) => Open
    case Checking(_, _) => CheckRate(true)
    case Blocked(_, _) => PassGate
    case Ready(_, _) => ReadChunk
    case Writing(_, _, _) => WriteChunk
    case Renaming(_) => Rename
    case _ => Unlink
  }

  /** A flush can always go on when the gate is open. */
  lemma FlushGoesOn(s: State)
    requires Clear(s) && InFlush(s.worker)
    ensures WorkerEnabled(s, NextAction(s.worker)) && Own(NextAction(s.worker))
  {
    assert CopyInv(s, s.worker.step);
  }

  /** Each of its steps brings it nearer to its end, which is the removal of the source. */
  lemma FlushAdvances(s: State, a: Action)
    requires Clear(s) && InFlush(s.worker) && WorkerEnabled(s, a) && Own(a)
    ensures var t := WorkerStep(s, a);
            && Clear(t) && t.queue == s.queue && t.stop == s.stop
            && if a.Unlink? then t.worker.Polling? && s.worker.Unlinking?
               else InFlush(t.worker) && t.worker.step == s.worker.step && Rank(t) < Rank(s)
  {
    assert CopyInv(s, s.worker.step);
    WorkerKeepsInv(s, a);
    WorkerFrame(s, a);
    WorkerTakes(s, a);
    WorkerKeepsData(s, a, s.worker.step);
  }

  /** Checkpoint k is on Lustre, whole, and gone from NVMe. */
  ghost predicate Moved(s: State, k: nat) {
    && k in s.saved && s.saved[k].fate.Flushed?
    && At(s.files, Remote(k), s.saved[k].data) && Local(k) !in s.files
  }

  lemma UnlinkMoves(s: State)
    requires Clear(s) && s.worker.Unlinking?
    ensures Moved(WorkerStep(s, Unlink), s.worker.step)
  {
    assert CopyInv(s, s.worker.step);
  }

  ghost predicate Flushes(c: Config) {
    c.firstChunk != 0 && c.firstChunk >= -1
  }

  lemma RunIsClear(r: Run)
    requires Legal(r) && Flushes(ConfigOf(r)) && End(r).lock.Free? && End(r).gate
    ensures Clear(End(r))
  {
    RunKeepsInv(r);
    RunKeepsGate(r);
    ChunkIsTheLastTarget(r);
  }

  /** Undisturbed, a flush that has begun ends with its checkpoint whole on Lustre. */
  lemma {:induction false} FlushFinishes(r: Run) returns (q: Run)
    requires Legal(r) && Flushes(ConfigOf(r)) && Clear(End(r)) && InFlush(End(r).worker)
    ensures Legal(q) && Alone(r, q) && ConfigOf(q) == ConfigOf(r) && Clear(End(q))
    ensures End(q).worker.Polling? && Moved(End(q), End(r).worker.step)
    ensures End(q).queue == End(r).queue && End(q).stop == End(r).stop
    decreases Rank(End(r))
  {
    var s := End(r);
    var a := NextAction(s.worker);
    FlushGoesOn(s);
    FlushAdvances(s, a);
    Next(r, a);
    q := Then(r, a);
    if s.worker.Unlinking? {
      UnlinkMoves(s);
    } else {
      q := FlushFinishes(Then(r, a));
      AloneFurther(r, Then(r, a), q);
    }
  }

  ghost predicate AllMoved(s: State, ks: seq<nat>) {
    forall k | k in ks :: Moved(s, k)
  }

  lemma OwnKeepsMoved(s: State, a: Action, k: nat)
    requires Moved(s, k) && Inv(s) && WorkerEnabled(s, a) && Own(a)
    ensures Moved(WorkerStep(s, a), k)
  {
    assert CopyInv(s, k);
    if InFlush(s.worker) && s.worker.step == k {
      UnlinkingIsMoved(s, a, k);
    } else {
      WorkerElsewhere(s, a, k);
    }
  }

  lemma UnlinkingIsMoved(s: State, a: Action, k: nat)
    requires Moved(s, k) && Inv(s) && WorkerEnabled(s, a) && Own(a) && InFlush(s.worker) && s.worker.step == k
    ensures Moved(WorkerStep(s, a), k)
  {
    assert s.worker.Unlinking?;
  }

  lemma {:induction false} AloneKeepsMoved(r: Run, q: Run, k: nat)
    requires Legal(r) && Legal(q) && Alone(r, q) && Flushes(ConfigOf(r)) && Moved(End(r), k)
    ensures Moved(End(q), k) && ConfigOf(q) == ConfigOf(r)
    decreases q
  {
    if r != q {
      AloneKeepsMoved(r, q.before, k);
      RunKeepsInv(q.before);
      OwnKeepsMoved(End(q.before), q.act, k);
    }
  }

  predicate BetweenFlushes(w: Worker) {
    w.Polling? || w.Getting?
  }

  /** Between two flushes the worker takes the next job. */
  lemma TakeNext(r: Run) returns (q: Run)
    requires Legal(r) && Clear(End(r)) && !End(r).stop && BetweenFlushes(End(r).worker) && End(r).queue != []
    ensures Legal(q) && Alone(r, q) && ConfigOf(q) == ConfigOf(r) && Clear(End(q)) && !End(q).stop
    ensures End(q).worker == Opening(End(r).queue[0]) && End(q).queue == End(r).queue[1..]
  {
    q := r;
    if End(r).worker.Polling? {
      Next(r, EnterLoop);
      WorkerKeepsInv(End(r), EnterLoop);
      q := Then(r, EnterLoop);
    }
    WorkerKeepsInv(End(q), TakeJob);
    Next(q, TakeJob);
    q := Then(q, TakeJob);
    assert Alone(r, q.before);
  }

  lemma {:induction false} QueueFinishes(r: Run) returns (q: Run)
    requires Legal(r) && Flushes(ConfigOf(r)) && Clear(End(r)) && !End(r).stop && BetweenFlushes(End(r).worker)
    ensures Legal(q) && Alone(r, q) && BetweenFlushes(End(q).worker) && End(q).queue == []
    ensures AllMoved(End(q), End(r).queue)
    decreases |End(r).queue|
  {
    q := r;
    var ks := End(r).queue;
    if ks != [] {
      var t := TakeNext(r);
      var f := FlushFinishes(t);
      q := QueueFinishes(f);
      AloneFurther(r, t, f);
      AloneFurther(r, f, q);
      AloneKeepsMoved(f, q, ks[0]);
      assert forall k | k in ks :: k == ks[0] || k in ks[1..];
    }
  }

  /**
   Whatever happened before, once nobody is inside `set_phase`, the gate is open and no stop was
   requested, the worker by itself can bring every job in its hand and in the queue to Lustre, whole,
   and remove the local files.
   */
  lemma EveryJobIsFlushed(r: Run) returns (q: Run)
    requires Legal(r) && Flushes(ConfigOf(r)) && End(r).lock.Free? && LastPhase(r) != NcclComm
    requires !Requested(r) && !End(r).worker.Stopped?
    ensures Legal(q) && Alone(r, q) && !InFlush(End(q).worker) && End(q).queue == []
    ensures AllMoved(End(q), End(r).queue)
    ensures InFlush(End(r).worker) ==> Moved(End(q), End(r).worker.step)
  {
    PhaseIsTheLastSet(r);
    StopIsRequested(r);
    RunIsClear(r);
    if BetweenFlushes(End(r).worker) {
      q := QueueFinishes(r);
    } else {
      var f := FlushFinishes(r);
      q := QueueFinishes(f);
      AloneFurther(r, f, q);
      AloneKeepsMoved(f, q, End(r).worker.step);
    }
  }
}
