/**
 The GPU phase monitor of src/attention_monitor: any number of callback threads run
 `_set_phase` while any number of threads run `wait_for_ffn`, over one atomic phase, one mutex
 and one condition variable.  Each atomic access, lock, wait and notify is one step.
 */
module AttentionMonitor {

  datatype Phase = UNKNOWN | ATTENTION | FFN | OTHER

  /** Where a callback thread stands inside `_set_phase`. */
  datatype Setter =
    | Quiet
    | Exchange(p: Phase)
    | CountAttention
    | CountFfn
    | LockToNotify
    | Notify
    | Unlock

  /** Where a thread stands inside `wait_for_ffn`. */
  datatype Waiter =
    | Away
    | FastCheck
    | Lock
    | CheckPhase
    | Block
    | Asleep
    | Relock(timedOut: bool)
    | FinalCheck
    | Finished(sawFfn: bool)

  datatype Mutex = Free | BySetter(i: nat) | ByWaiter(j: nat)

  datatype State = State(
    phase: Phase, attnCount: nat, ffnCount: nat, mutex: Mutex,
    setters: seq<Setter>, waiters: seq<Waiter>)

  /** `Wake` ends a sleep at the deadline, or spuriously. */
  datatype Action =
    | Report(i: nat, p: Phase)
    | Set(i: nat)
    | StartWait(j: nat)
    | Wait(j: nat)
    | Wake(j: nat, timedOut: bool)

  predicate Enabled(s: State, a: Action) {
    match a
    case Report(i, p) => i < |s.setters| && s.setters[i].Quiet? && (p == ATTENTION || p == FFN)
    case Set(i) => i < |s.setters| && !s.setters[i].Quiet? && (s.setters[i].LockToNotify? ==> s.mutex.Free?)
    case StartWait(j) => j < |s.waiters| && s.waiters[j].Away?
    case Wait(j) =>
      && j < |s.waiters| && !s.waiters[j].Away? && !s.waiters[j].Asleep?
      && (s.waiters[j].Lock? || s.waiters[j].Relock? ==> s.mutex.Free?)
    case Wake(j, _) => j < |s.waiters| && s.waiters[j].Asleep?
  }

  function AtSetter(s: State, i: nat, x: Setter): State
    requires i < |s.setters|
  {
    s.(setters := s.setters[i := x])
  }

  function AtWaiter(s: State, j: nat, x: Waiter): State
    requires j < |s.waiters|
  {
    s.(waiters := s.waiters[j := x])
  }

  function Woken(w: Waiter): Waiter {
    if w.Asleep? then Relock(false) else w
  }

  function SetterStep(s: State, i: nat): State
    requires i < |s.setters|
  {
    match s.setters[i]
    case Quiet => s
    case Exchange(p) =>
      (if s.phase == p then AtSetter(s, i, Quiet)
       else if p == ATTENTION then AtSetter(s, i, CountAttention)
       else if p == FFN then AtSetter(s, i, CountFfn)
       else AtSetter(s, i, Quiet)).(phase := p)
    case CountAttention => AtSetter(s, i, Quiet).(attnCount := s.attnCount + 1)
    case CountFfn => AtSetter(s, i, LockToNotify).(ffnCount := s.ffnCount + 1)
    case LockToNotify => AtSetter(s, i, Notify).(mutex := BySetter(i))
    case Notify =>
      AtSetter(s, i, Unlock).(
        waiters := seq(|s.waiters|, j requires 0 <= j < |s.waiters| => Woken(s.waiters[j])))
    case Unlock => AtSetter(s, i, Quiet).(mutex := Free)
  }

  function WaiterStep(s: State, j: nat): State
    requires j < |s.waiters|
  {
    match s.waiters[j]
    case Away => s
    case FastCheck => AtWaiter(s, j, if s.phase == FFN then Finished(true) else Lock)
    case Lock => AtWaiter(s, j, CheckPhase).(mutex := ByWaiter(j))
    case CheckPhase =>
      if s.phase == FFN then AtWaiter(s, j, Finished(true)).(mutex := Free) else AtWaiter(s, j, Block)
    case Block => AtWaiter(s, j, Asleep).(mutex := Free)
    case Asleep => s
    case Relock(timedOut) => AtWaiter(s, j, if timedOut then FinalCheck else CheckPhase).(mutex := ByWaiter(j))
    case FinalCheck => AtWaiter(s, j, Finished(s.phase == FFN)).(mutex := Free)
    case Finished(_) => AtWaiter(s, j, Away)
  }

  function Apply(s: State, a: Action): State
    requires Enabled(s, a)
  {
    match a
    case Report(i, p) => AtSetter(s, i, Exchange(p))
    case Set(i) => SetterStep(s, i)
    case StartWait(j) => AtWaiter(s, j, FastCheck)
    case Wait(j) => WaiterStep(s, j)
    case Wake(j, timedOut) => AtWaiter(s, j, Relock(timedOut))
  }

  predicate Init(s: State) {
    && s.phase == UNKNOWN && s.attnCount == 0 && s.ffnCount == 0 && s.mutex == Free
    && (forall i | 0 <= i < |s.setters| :: s.setters[i].Quiet?)
    && (forall j | 0 <= j < |s.waiters| :: s.waiters[j].Away?)
  }

  /** A run from the initial state, written action after action. */
  datatype Run = Start(first: State) | Then(before: Run, act: Action)

  predicate Legal(r: Run)
    decreases r, 0
  {
    match r
    case Start(s) => Init(s)
    case Then(q, a) => Legal(q) && Enabled(End(q), a)
  }

  function End(r: Run): State
    requires Legal(r)
    decreases r, 1
  {
    match r
    case Start(s) => s
    case Then(q, a) => Apply(End(q), a)
  }

  // ---------------------------------------------------------------------------------------
  // No lost wakeup
  // ---------------------------------------------------------------------------------------

  /** The setter has exchanged FFN in and has not yet notified. */
  predicate OwesNotify(x: Setter) {
    x.CountFfn? || x.LockToNotify? || x.Notify?
  }

  /** The thread is asleep, or has seen a phase other than FFN and is about to sleep. */
  predicate WillSleep(w: Waiter) {
    w.Block? || w.Asleep?
  }

  ghost predicate MutexInv(s: State) {
    && (forall i: nat | i < |s.setters| :: s.mutex == BySetter(i) <==> s.setters[i].Notify? || s.setters[i].Unlock?)
    && (forall j: nat | j < |s.waiters| ::
          s.mutex == ByWaiter(j) <==> s.waiters[j].CheckPhase? || s.waiters[j].Block? || s.waiters[j].FinalCheck?)
  }

  ghost predicate WakeupInv(s: State) {
    s.phase == FFN && (exists j | 0 <= j < |s.waiters| :: WillSleep(s.waiters[j])) ==>
      exists i | 0 <= i < |s.setters| :: OwesNotify(s.setters[i])
  }

  ghost predicate Inv(s: State) {
    MutexInv(s) && WakeupInv(s)
  }

  lemma SetterKeepsMutex(s: State, i: nat)
    requires MutexInv(s) && Enabled(s, Set(i))
    ensures MutexInv(SetterStep(s, i))
  {
  }

  lemma SetterKeepsWakeup(s: State, i: nat)
    requires Inv(s) && Enabled(s, Set(i))
    ensures WakeupInv(SetterStep(s, i))
  {
    var t := SetterStep(s, i);
    if s.setters[i].Notify? {
      // The setter holds the mutex, so nobody is between the check and the sleep.
      assert forall j | 0 <= j < |s.waiters| :: !WillSleep(t.waiters[j]);
    } else if OwesNotify(t.setters[i]) {
    } else {
      assert !OwesNotify(s.setters[i]);
      assert t.phase == FFN ==> s.phase == FFN;
      if t.phase == FFN && exists j | 0 <= j < |t.waiters| :: WillSleep(t.waiters[j]) {
        var j :| 0 <= j < |t.waiters| && WillSleep(t.waiters[j]);
        assert WillSleep(s.waiters[j]);
        var k :| 0 <= k < |s.setters| && OwesNotify(s.setters[k]);
        assert OwesNotify(t.setters[k]);
      }
    }
  }

  lemma WaiterKeepsMutex(s: State, j: nat)
    requires MutexInv(s) && Enabled(s, Wait(j))
    ensures MutexInv(WaiterStep(s, j))
  {
  }

  lemma WaiterKeepsWakeup(s: State, j: nat)
    requires Inv(s) && Enabled(s, Wait(j))
    ensures WakeupInv(WaiterStep(s, j))
  {
    var t := WaiterStep(s, j);
    assert WillSleep(t.waiters[j]) && t.phase == FFN ==> WillSleep(s.waiters[j]);
    assert forall k | 0 <= k < |s.waiters| && k != j :: t.waiters[k] == s.waiters[k];
  }

  lemma StepKeepsInv(s: State, a: Action)
    requires Inv(s) && Enabled(s, a)
    ensures Inv(Apply(s, a))
  {
    match a
    case Report(i, p) =>
      var t := Apply(s, a);
      assert forall k | 0 <= k < |s.setters| && OwesNotify(s.setters[k]) :: t.setters[k] == s.setters[k];
    case Set(i) =>
      SetterKeepsMutex(s, i);
      SetterKeepsWakeup(s, i);
    case StartWait(j) =>
      var t := Apply(s, a);
      assert forall k | 0 <= k < |s.waiters| && k != j :: t.waiters[k] == s.waiters[k];
    case Wait(j) =>
      WaiterKeepsMutex(s, j);
      WaiterKeepsWakeup(s, j);
    case Wake(j, timedOut) =>
      var t := Apply(s, a);
      assert forall k | 0 <= k < |s.waiters| && k != j :: t.waiters[k] == s.waiters[k];
  }

  lemma {:induction false} RunKeepsInv(r: Run)
    requires Legal(r)
    ensures Inv(End(r))
  {
    match r
    case Start(_) =>
    case Then(q, a) =>
      RunKeepsInv(q);
      StepKeepsInv(End(q), a);
  }

  /** No wakeup is lost: a thread asleep while the phase is FFN will be notified, because the
      setter that brought FFN in is still on its way to `notify_all`. */
  lemma NoLostWakeup(r: Run, j: nat)
    requires Legal(r) && j < |End(r).waiters| && End(r).waiters[j].Asleep? && End(r).phase == FFN
    ensures exists i | 0 <= i < |End(r).setters| :: OwesNotify(End(r).setters[i])
  {
    RunKeepsInv(r);
    assert WillSleep(End(r).waiters[j]);
  }

  /** The mutex excludes a notifying setter from every check-then-sleep section, and two such
      sections from each other. */
  lemma MutualExclusion(r: Run, i: nat, j: nat, k: nat)
    requires Legal(r) && i < |End(r).setters| && j < |End(r).waiters| && k < |End(r).waiters|
    requires End(r).waiters[j].CheckPhase? || End(r).waiters[j].Block? || End(r).waiters[j].FinalCheck?
    ensures !End(r).setters[i].Notify? && !End(r).setters[i].Unlock?
    ensures k != j ==> !End(r).waiters[k].CheckPhase? && !End(r).waiters[k].Block? && !End(r).waiters[k].FinalCheck?
  {
    RunKeepsInv(r);
  }

  // ---------------------------------------------------------------------------------------
  // What wait_for_ffn answers
  // ---------------------------------------------------------------------------------------

  /** The phase was FFN in some state since thread j last entered `wait_for_ffn`. */
  predicate FfnDuringCall(r: Run, j: nat)
    requires Legal(r)
  {
    && j < |End(r).waiters| && !End(r).waiters[j].Away?
    && (End(r).phase == FFN || (r.Then? && FfnDuringCall(r.before, j)))
  }

  /** An answer true is given only in a state whose phase is FFN, an answer false only otherwise. */
  lemma AnswerIsThePhase(s: State, a: Action, j: nat, answer: bool)
    requires Enabled(s, a) && j < |s.waiters| && s.waiters[j] != Finished(answer)
    requires Apply(s, a).waiters[j] == Finished(answer)
    ensures answer <==> s.phase == FFN
    ensures !s.waiters[j].Away?
  {
  }

  /** `wait_for_ffn` answers true only if the phase was FFN at some moment of this very call. */
  lemma {:induction false} TrueMeansFfn(r: Run, j: nat)
    requires Legal(r) && j < |End(r).waiters| && End(r).waiters[j] == Finished(true)
    ensures FfnDuringCall(r, j)
  {
    match r
    case Start(_) =>
    case Then(q, a) =>
      if End(q).waiters[j] == Finished(true) {
        TrueMeansFfn(q, j);
      } else {
        AnswerIsThePhase(End(q), a, j, true);
      }
  }

  /** Some timeout ended a sleep of thread j since it last entered `wait_for_ffn`. */
  predicate TimedOutDuringCall(r: Run, j: nat)
    requires Legal(r)
  {
    && r.Then? && j < |End(r).waiters| && !End(r).waiters[j].Away?
    && (r.act == Wake(j, true) || TimedOutDuringCall(r.before, j))
  }

  /** The thread is on its way to its last look at the phase, or has answered false. */
  predicate GivesUp(w: Waiter) {
    w == Relock(true) || w.FinalCheck? || w == Finished(false)
  }

  lemma GivingUpBegins(s: State, a: Action, j: nat)
    requires Enabled(s, a) && j < |s.waiters| && GivesUp(Apply(s, a).waiters[j])
    ensures a == Wake(j, true) || GivesUp(s.waiters[j])
  {
  }

  lemma StepKeepsThreads(s: State, a: Action)
    requires Enabled(s, a)
    ensures |Apply(s, a).setters| == |s.setters| && |Apply(s, a).waiters| == |s.waiters|
  {
  }

  /** `wait_for_ffn` answers false only if its deadline passed during this very call. */
  lemma {:induction false} FalseMeansTimedOut(r: Run, j: nat)
    requires Legal(r) && j < |End(r).waiters| && GivesUp(End(r).waiters[j])
    ensures TimedOutDuringCall(r, j)
  {
    match r
    case Start(_) =>
    case Then(q, a) =>
      StepKeepsThreads(End(q), a);
      GivingUpBegins(End(q), a, j);
      if a != Wake(j, true) { FalseMeansTimedOut(q, j); }
  }

  // ---------------------------------------------------------------------------------------
  // What the phase and the counters are
  // ---------------------------------------------------------------------------------------

  /** The phase that the last exchange brought in. */
  function LastExchange(r: Run): Phase
    requires Legal(r)
  {
    match r
    case Start(_) => UNKNOWN
    case Then(q, a) =>
      if a.Set? && End(q).setters[a.i].Exchange? then End(q).setters[a.i].p else LastExchange(q)
  }

  /** The phase is the one of the last exchange, by whichever thread, and UNKNOWN before the first. */
  lemma {:induction false} PhaseIsTheLastExchange(r: Run)
    requires Legal(r)
    ensures End(r).phase == LastExchange(r)
  {
    match r
    case Start(_) =>
    case Then(q, _) =>
      PhaseIsTheLastExchange(q);
  }

  /** What thread i last reported. */
  function LastReport(r: Run, i: nat): Phase
    requires Legal(r)
  {
    match r
    case Start(_) => UNKNOWN
    case Then(q, a) => if a.Report? && a.i == i then a.p else LastReport(q, i)
  }

  lemma ExchangeBegins(s: State, a: Action, i: nat)
    requires Enabled(s, a) && i < |s.setters| && Apply(s, a).setters[i].Exchange?
    ensures if a.Report? && a.i == i then Apply(s, a).setters[i].p == a.p else s.setters[i] == Apply(s, a).setters[i]
  {
  }

  /** A callback exchanges in the phase it was called with. */
  lemma {:induction false} ExchangeIsTheReport(r: Run, i: nat)
    requires Legal(r) && i < |End(r).setters| && End(r).setters[i].Exchange?
    ensures End(r).setters[i].p == LastReport(r, i)
  {
    match r
    case Start(_) =>
    case Then(q, a) =>
      StepKeepsThreads(End(q), a);
      ExchangeBegins(End(q), a, i);
      if !(a.Report? && a.i == i) { ExchangeIsTheReport(q, i); }
  }

  /** How many exchanges changed the phase to p. */
  function Changes(r: Run, p: Phase): nat
    requires Legal(r)
  {
    match r
    case Start(_) => 0
    case Then(q, a) =>
      Changes(q, p) + (if a.Set? && End(q).setters[a.i] == Exchange(p) && End(q).phase != p then 1 else 0)
  }

  /** How many threads stand at x. */
  function CountAt(setters: seq<Setter>, x: Setter): nat {
    if setters == [] then 0
    else CountAt(setters[..|setters| - 1], x) + (if setters[|setters| - 1] == x then 1 else 0)
  }

  lemma {:induction false} CountMoves(setters: seq<Setter>, i: nat, y: Setter, x: Setter)
    requires i < |setters|
    ensures CountAt(setters[i := y], x) + (if setters[i] == x then 1 else 0)
         == CountAt(setters, x) + (if y == x then 1 else 0)
  {
    var n := |setters| - 1;
    if i < n {
      CountMoves(setters[..n], i, y, x);
      assert setters[i := y][..n] == setters[..n][i := y];
    } else {
      assert setters[i := y][..n] == setters[..n];
    }
  }

  lemma {:induction false} NoneStandsAt(setters: seq<Setter>, x: Setter)
    requires forall i | 0 <= i < |setters| :: setters[i] != x
    ensures CountAt(setters, x) == 0
  {
    if setters != [] { NoneStandsAt(setters[..|setters| - 1], x); }
  }

  /** A step moves one setter at most. */
  lemma OneSetterMoves(s: State, a: Action)
    requires Enabled(s, a)
    ensures var t := Apply(s, a);
            if a.Report? || a.Set? then t.setters == s.setters[a.i := t.setters[a.i]] else t.setters == s.setters
  {
  }

  lemma StepCounts(s: State, a: Action)
    requires Enabled(s, a)
    ensures var t := Apply(s, a);
            && t.attnCount + CountAt(t.setters, CountAttention) == s.attnCount + CountAt(s.setters, CountAttention)
                 + (if a.Set? && s.setters[a.i] == Exchange(ATTENTION) && s.phase != ATTENTION then 1 else 0)
            && t.ffnCount + CountAt(t.setters, CountFfn) == s.ffnCount + CountAt(s.setters, CountFfn)
                 + (if a.Set? && s.setters[a.i] == Exchange(FFN) && s.phase != FFN then 1 else 0)
  {
    OneSetterMoves(s, a);
    if a.Report? || a.Set? {
      CountMoves(s.setters, a.i, Apply(s, a).setters[a.i], CountAttention);
      CountMoves(s.setters, a.i, Apply(s, a).setters[a.i], CountFfn);
    }
  }

  /** Whatever happened before, a callback that reports a phase leaves it behind. */
  lemma ReportArrives(q: Run, i: nat, p: Phase) returns (r: Run)
    requires Legal(q) && i < |End(q).setters| && End(q).setters[i].Quiet? && (p == ATTENTION || p == FFN)
    ensures r == Then(Then(q, Report(i, p)), Set(i)) && Legal(r) && End(r).phase == p
    ensures LastExchange(r) == p && LastReport(r, i) == p
  {
    r := Then(Then(q, Report(i, p)), Set(i));
    assert End(r.before).setters[i] == Exchange(p);
  }

  /** The counters are the changes to each phase, short of those whose callback has yet to count them. */
  lemma {:induction false} CountersAreTheChanges(r: Run)
    requires Legal(r)
    ensures End(r).attnCount + CountAt(End(r).setters, CountAttention) == Changes(r, ATTENTION)
    ensures End(r).ffnCount + CountAt(End(r).setters, CountFfn) == Changes(r, FFN)
  {
    match r
    case Start(s) =>
      NoneStandsAt(s.setters, CountAttention);
      NoneStandsAt(s.setters, CountFfn);
    case Then(q, a) =>
      CountersAreTheChanges(q);
      StepCounts(End(q), a);
  }

  // ---------------------------------------------------------------------------------------
  // Every call comes to an end
  // ---------------------------------------------------------------------------------------

  /** Every step from q to r is one of setter i. */
  predicate BySetterOnly(r: Run, q: Run, i: nat) {
    r == q || (r.Then? && r.act == Set(i) && BySetterOnly(r.before, q, i))
  }

  function SetterRank(x: Setter): nat {
    match x
    case Exchange(_) => 5
    case CountAttention => 1
    case CountFfn => 4
    case LockToNotify => 3
    case Notify => 2
    case Unlock => 1
    case Quiet => 0
  }

  /** The mutex is there for setter i to take, or is its own. */
  predicate SetterMayRun(s: State, i: nat) {
    s.mutex.Free? || s.mutex == BySetter(i)
  }

  lemma SetterAdvances(s: State, i: nat)
    requires Inv(s) && i < |s.setters| && !s.setters[i].Quiet? && SetterMayRun(s, i)
    ensures Enabled(s, Set(i))
    ensures var t := SetterStep(s, i);
            && i < |t.setters| && |t.waiters| == |s.waiters|
            && SetterRank(t.setters[i]) < SetterRank(s.setters[i]) && SetterMayRun(t, i)
            && (s.setters[i].Notify? ==> forall j | 0 <= j < |t.waiters| :: !t.waiters[j].Asleep?)
            && (OwesNotify(s.setters[i]) && !s.setters[i].Notify? ==> OwesNotify(t.setters[i]))
            && (!s.setters[i].Notify? ==> t.waiters == s.waiters)
  {
  }

  ghost predicate NoneAsleep(s: State) {
    forall j | 0 <= j < |s.waiters| :: !s.waiters[j].Asleep?
  }

  /** A callback that is not kept out by the mutex returns, and one that owes a notification wakes
      every sleeper on the way. */
  lemma {:induction false} SetterFinishes(q: Run, i: nat) returns (r: Run)
    requires Legal(q) && i < |End(q).setters| && SetterMayRun(End(q), i)
    ensures Legal(r) && BySetterOnly(r, q, i) && i < |End(r).setters| && End(r).setters[i].Quiet?
    ensures OwesNotify(End(q).setters[i]) || NoneAsleep(End(q)) ==> NoneAsleep(End(r))
    decreases SetterRank(End(q).setters[i])
  {
    if End(q).setters[i].Quiet? {
      r := q;
    } else {
      RunKeepsInv(q);
      SetterAdvances(End(q), i);
      var n := Then(q, Set(i));
      r := SetterFinishes(n, i);
      BySetterTrans(r, n, q, i);
    }
  }

  lemma {:induction false} BySetterTrans(r: Run, n: Run, q: Run, i: nat)
    requires BySetterOnly(r, n, i) && n == Then(q, Set(i))
    ensures BySetterOnly(r, q, i)
  {
    if r != n { BySetterTrans(r.before, n, q, i); } else { assert BySetterOnly(q, q, i); }
  }

  /** Every step from q to r is one of waiter j, or its deadline. */
  predicate ByWaiterOnly(r: Run, q: Run, j: nat) {
    r == q || (r.Then? && (r.act == Wait(j) || r.act == Wake(j, true)) && ByWaiterOnly(r.before, q, j))
  }

  function WaiterRank(w: Waiter): nat {
    match w
    case FastCheck => 8
    case Lock => 7
    case Relock(timedOut) => if timedOut then 3 else 7
    case CheckPhase => 6
    case Block => 5
    case Asleep => 4
    case FinalCheck => 2
    case Finished(_) => 1
    case Away => 0
  }

  predicate WaiterMayRun(s: State, j: nat) {
    s.mutex.Free? || s.mutex == ByWaiter(j)
  }

  /** The next step of waiter j, or the end of its sleep. */
  function NextOf(w: Waiter, j: nat): Action {
    if w.Asleep? then Wake(j, true) else Wait(j)
  }

  lemma WaiterAdvances(s: State, j: nat)
    requires Inv(s) && j < |s.waiters| && !s.waiters[j].Away? && !s.waiters[j].Finished? && WaiterMayRun(s, j)
    ensures Enabled(s, NextOf(s.waiters[j], j))
    ensures var t := Apply(s, NextOf(s.waiters[j], j));
            && j < |t.waiters| && t.phase == s.phase && !t.waiters[j].Away? && WaiterMayRun(t, j)
            && WaiterRank(t.waiters[j]) < WaiterRank(s.waiters[j])
            && (t.waiters[j].Finished? ==> t.waiters[j] == Finished(s.phase == FFN))
  {
  }

  /** A waiting thread that is not kept out by the mutex answers, at its deadline at the latest, with
      what the phase is by then. */
  lemma {:induction false} WaiterFinishes(q: Run, j: nat) returns (r: Run)
    requires Legal(q) && j < |End(q).waiters| && WaiterMayRun(End(q), j)
    requires !End(q).waiters[j].Away? && !End(q).waiters[j].Finished?
    ensures Legal(r) && ByWaiterOnly(r, q, j) && j < |End(r).waiters| && End(r).phase == End(q).phase
    ensures End(r).waiters[j] == Finished(End(q).phase == FFN)
    decreases WaiterRank(End(q).waiters[j])
  {
    RunKeepsInv(q);
    WaiterAdvances(End(q), j);
    var n := Then(q, NextOf(End(q).waiters[j], j));
    if End(n).waiters[j].Finished? { r := n; } else { r := WaiterFinishes(n, j); }
    ByWaiterTrans(r, n, q, j);
  }

  /** A sleeper may be woken at its deadline or for no reason, and then only looks again. */
  lemma SleepersMayWake(s: State, j: nat, timedOut: bool)
    requires j < |s.waiters| && s.waiters[j].Asleep?
    ensures Enabled(s, Wake(j, timedOut)) && Apply(s, Wake(j, timedOut)) == AtWaiter(s, j, Relock(timedOut))
  {
  }

  /** A thread that finds FFN at once needs no mutex, and one that has its answer returns with it. */
  lemma FastPathAndReturn(s: State, j: nat)
    requires j < |s.waiters|
    ensures Enabled(s, StartWait(j)) ==> Apply(s, StartWait(j)) == AtWaiter(s, j, FastCheck)
    ensures s.waiters[j].FastCheck? && s.phase == FFN ==> WaiterStep(s, j) == AtWaiter(s, j, Finished(true))
    ensures s.waiters[j].Finished? ==> WaiterStep(s, j) == AtWaiter(s, j, Away)
  {
  }

  lemma {:induction false} ByWaiterTrans(r: Run, n: Run, q: Run, j: nat)
    requires ByWaiterOnly(r, n, j) && n.Then? && n.before == q && (n.act == Wait(j) || n.act == Wake(j, true))
    ensures ByWaiterOnly(r, q, j)
  {
    if r != n { ByWaiterTrans(r.before, n, q, j); } else { assert ByWaiterOnly(q, q, j); }
  }

  // ---------------------------------------------------------------------------------------
  // classify_kernel
  // ---------------------------------------------------------------------------------------

  datatype KernelPattern = KernelPattern(substr: string, phase: Phase)

  const PATTERNS: seq<KernelPattern> := [
    KernelPattern("paged_attention_v1", ATTENTION),
    KernelPattern("paged_attention_v2", ATTENTION),
    KernelPattern("flash_fwd_kernel", ATTENTION),
    KernelPattern("flash_bwd_kernel", ATTENTION),
    KernelPattern("flash_fwd_splitkv_kernel", ATTENTION),
    KernelPattern("context_attention_fwd", ATTENTION),
    KernelPattern("token_attention_fwd", ATTENTION),
    KernelPattern("extend_attention_fwd", ATTENTION),
    KernelPattern("scaled_dot_product_fused", ATTENTION),
    KernelPattern("efficient_attention_forward", ATTENTION),
    KernelPattern("AttentionForwardFromBlockedInput", ATTENTION),
    KernelPattern("Attention", ATTENTION),
    KernelPattern("cutlass_gemm", FFN),
    KernelPattern("cutlass3x", FFN),
    KernelPattern("cublas", FFN),
    KernelPattern("ampere_bf16", FFN),
    KernelPattern("ampere_fp16", FFN),
    KernelPattern("sm80_xmma", FFN),
    KernelPattern("sm90_xmma", FFN),
    KernelPattern("volta_sgemm", FFN),
    KernelPattern("volta_hgemm", FFN),
    KernelPattern("fused_gelu_linear", FFN),
    KernelPattern("activation_kernel", FFN),
    KernelPattern("splitKreduce_kernel", FFN)
  ]

  const ATTENTION_PATTERNS: nat := 12

  predicate OccursAt(name: string, substr: string, k: int) {
    0 <= k <= |name| - |substr| && name[k..k + |substr|] == substr
  }

  predicate Contains(name: string, substr: string) {
    exists k | 0 <= k <= |name| - |substr| :: OccursAt(name, substr, k)
  }

  /** Some pattern of the given phase occurs in the name. */
  ghost predicate Matches(name: string, p: Phase) {
    exists k | 0 <= k < |PATTERNS| :: PATTERNS[k].phase == p && Contains(name, PATTERNS[k].substr)
  }

  lemma TableOrder(k: nat)
    requires k < |PATTERNS|
    ensures PATTERNS[k].phase == if k < ATTENTION_PATTERNS then ATTENTION else FFN
  {
  }

  /** A name with any attention pattern is ATTENTION even if an FFN pattern occurs in it too, for
      the table lists all attention patterns first; `isNull` stands for the null pointer. */
  method ClassifyKernel(name: string, isNull: bool) returns (p: Phase)
    ensures p == UNKNOWN <==> isNull || name == ""
    ensures p == ATTENTION <==> !isNull && name != "" && Matches(name, ATTENTION)
    ensures p == FFN <==> !isNull && name != "" && Matches(name, FFN) && !Matches(name, ATTENTION)
  {
    if isNull || name == "" {
      return UNKNOWN;
    }
    var k := 0;
    while k < |PATTERNS|
      invariant 0 <= k <= |PATTERNS|
      invariant forall m | 0 <= m < k :: !Contains(name, PATTERNS[m].substr)
    {
      TableOrder(k);
      if Contains(name, PATTERNS[k].substr) {
        assert PATTERNS[k].phase == FFN ==> !Matches(name, ATTENTION) by {
          forall m: nat | m < |PATTERNS| ensures PATTERNS[m].phase == ATTENTION ==> m < ATTENTION_PATTERNS {
            TableOrder(m);
          }
        }
        return PATTERNS[k].phase;
      }
      k := k + 1;
    }
    p := OTHER;
  }
}
