/**
 The Python fallback absorber of tempo/lmcache_connector.py: callers append under a lock, one worker
 pays for each block from a token bucket and writes it to the backing store.  Clock readings are
 inputs; they never go back, and a sleep lasts at least as long as asked.
 */
module SoftAbsorberModel {
  import opened Basics

  datatype Item = Item(key: nat, size: nat)

  /** Rate in bytes per second. */
  datatype Config = Config(rate: real, burst: nat, start: real)

  /** Looping is the test of the stop flag at the head of the loop, Waiting the wait for a block. */
  datatype Worker =
    | Looping
    | Waiting
    | Popped(item: Item)
    | Sleeping(item: Item)
    | Paid(item: Item)
    | Stopped
    | Crashed(item: Item)

  /** `slept` is the time credited at the end of sleeps; `absorbed` and `written` are logs. */
  datatype State = State(
    c: Config, queue: seq<Item>, worker: Worker, tokens: real, lastT: real, stop: bool,
    clock: real, slept: real, absorbed: seq<Item>, written: seq<Item>)

  datatype Action =
    | Absorb(item: Item)
    | Enter
    | Pop
    | Refill(now: real)
    | Wake(now: real)
    | Crash
    | Write
    | Shutdown
    | Quit

  function Init(c: Config): State {
    State(c, [], Looping, c.burst as real, c.start, false, c.start, 0.0, [], [])
  }

  /** The sleep asked for is size / rate; here without the division. */
  predicate SleptEnough(rate: real, t: real, size: nat) { Earned(rate, t) >= size as real }

  lemma SleepIsTheQuotient(rate: real, t: real, size: nat)
    requires rate > 0.0
    ensures SleptEnough(rate, t, size) <==> t >= size as real / rate
  {
    var share := size as real / rate;
    assert rate * share == size as real;
    if t >= share { assert rate * t >= rate * share; } else { assert rate * t < rate * share; }
  }

  predicate Enabled(s: State, a: Action) {
    match a
    case Absorb(_) => true
    case Enter => s.worker.Looping? && !s.stop
    case Pop => s.worker.Waiting? && s.queue != []
    case Refill(now) => s.worker.Popped? && now >= s.clock
    case Wake(now) =>
      s.worker.Sleeping? && s.c.rate > 0.0 && now >= s.lastT
      && SleptEnough(s.c.rate, now - s.lastT, s.worker.item.size)
    // the sleep divides by the rate
    case Crash => s.worker.Sleeping? && s.c.rate == 0.0
    case Write => s.worker.Paid?
    case Shutdown => true
    case Quit => s.stop && (s.worker.Looping? || (s.worker.Waiting? && s.queue == []))
  }

  /** A bucket's tokens after crediting a time. */
  function Filled(tokens: real, rate: real, burst: nat, t: real): real {
    Min(tokens + Earned(rate, t), burst as real)
  }

  /** The bucket after crediting the time since `lastT`, which the caller may leave where it is. */
  function Credited(s: State, now: real): real {
    Filled(s.tokens, s.c.rate, s.c.burst, now - s.lastT)
  }

  function Pay(s: State, item: Item): State {
    s.(worker := Paid(item), tokens := s.tokens - item.size as real)
  }

  function Apply(s: State, a: Action): State
    requires Enabled(s, a)
  {
    match a
    case Absorb(item) => s.(queue := s.queue + [item], absorbed := s.absorbed + [item])
    case Enter => s.(worker := Waiting)
    case Pop => s.(worker := Popped(s.queue[0]), queue := s.queue[1..])
    case Refill(now) =>
      var t := s.(tokens := Credited(s, now), lastT := now, clock := now);
      var item := s.worker.item;
      if t.tokens < item.size as real then t.(worker := Sleeping(item)) else Pay(t, item)
    // the sleep is credited, but lastT stays: the next refill credits it once more
    case Wake(now) =>
      Pay(s.(tokens := Credited(s, now), clock := now, slept := s.slept + (now - s.lastT)), s.worker.item)
    case Crash => s.(worker := Crashed(s.worker.item))
    case Write => s.(worker := Looping, written := s.written + [s.worker.item])
    case Shutdown => s.(stop := true)
    case Quit => s.(worker := Stopped)
  }

  datatype Run = Start(c: Config) | Then(before: Run, act: Action)

  ghost predicate Legal(r: Run)
    decreases r, 0
  {
    match r
    case Start(_) => true
    case Then(before, act) => Legal(before) && Enabled(End(before), act)
  }

  ghost function End(r: Run): State
    requires Legal(r)
    decreases r, 1
  {
    match r
    case Start(c) => Init(c)
    case Then(before, act) => Apply(End(before), act)
  }

  ghost function ConfigOf(r: Run): Config {
    match r
    case Start(c) => c
    case Then(before, _) => ConfigOf(before)
  }

  lemma {:induction false} ConfigIsFixed(r: Run)
    requires Legal(r)
    ensures End(r).c == ConfigOf(r)
  {
    match r
    case Start(_) =>
    case Then(before, _) =>
      ConfigIsFixed(before);
  }

  /** The blocks handed to `absorb`, in the order of the calls. */
  ghost function Arguments(r: Run): seq<Item> {
    match r
    case Start(_) => []
    case Then(before, act) => if act.Absorb? then Arguments(before) + [act.item] else Arguments(before)
  }

  /** The last clock reading: at the start, a refill, or the end of a sleep. */
  ghost function LastReading(r: Run): real {
    match r
    case Start(c) => c.start
    case Then(before, act) => if act.Refill? || act.Wake? then act.now else LastReading(before)
  }

  /** The logs say what happened: every argument of `absorb` is accepted, and the clock is the last
      reading. */
  lemma {:induction false} LogsAreTheCalls(r: Run)
    requires Legal(r)
    ensures End(r).absorbed == Arguments(r) && End(r).clock == LastReading(r)
  {
    match r
    case Start(_) =>
    case Then(before, _) =>
      LogsAreTheCalls(before);
  }

  // ---------------------------------------------------------------------------------------
  // Order
  // ---------------------------------------------------------------------------------------

  function InHand(w: Worker): seq<Item> {
    if w.Looping? || w.Waiting? || w.Stopped? then [] else [w.item]
  }

  ghost predicate InOrder(s: State) {
    s.absorbed == s.written + InHand(s.worker) + s.queue
  }

  lemma StepKeepsOrder(s: State, a: Action)
    requires InOrder(s) && Enabled(s, a)
    ensures InOrder(Apply(s, a))
  {
    if a.Pop? { assert s.queue == [s.queue[0]] + s.queue[1..]; }
  }

  /** Every block absorbed is written, in the worker's hand or queued, in the order of the calls. */
  lemma {:induction false} WritesFollowAbsorbs(r: Run)
    requires Legal(r)
    ensures var s := End(r); s.absorbed == s.written + InHand(s.worker) + s.queue
  {
    match r
    case Start(_) =>
    case Then(before, act) =>
      WritesFollowAbsorbs(before);
      StepKeepsOrder(End(before), act);
  }

  // ---------------------------------------------------------------------------------------
  // Stopping
  // ---------------------------------------------------------------------------------------

  ghost predicate Requested(r: Run) {
    r.Then? && (r.act.Shutdown? || Requested(r.before))
  }

  /** The blocks the worker has taken from the queue. */
  ghost function Pops(r: Run): nat {
    match r
    case Start(_) => 0
    case Then(before, act) => Pops(before) + if act.Pop? then 1 else 0
  }

  ghost predicate Extends(r: Run, q: Run) {
    r == q || (q.Then? && Extends(r, q.before))
  }

  /** The worker is past the test of the stop flag and has no block yet. */
  function PopBudget(w: Worker): nat {
    if w.Waiting? then 1 else 0
  }

  predicate Ended(w: Worker) {
    w.Stopped? || w.Crashed?
  }

  lemma {:induction false} StopIsRequested(r: Run)
    requires Legal(r)
    ensures End(r).stop <==> Requested(r)
  {
    match r
    case Start(_) =>
    case Then(before, _) =>
      StopIsRequested(before);
  }

  lemma StoppingStep(s: State, a: Action)
    requires Enabled(s, a) && s.stop
    ensures var t := Apply(s, a);
            && t.stop && (Ended(s.worker) ==> t.worker == s.worker && t.written == s.written)
            && (if a.Pop? then 1 else 0) + PopBudget(t.worker) <= PopBudget(s.worker)
  {
  }

  lemma EndedStep(s: State, a: Action)
    requires Enabled(s, a) && Ended(s.worker)
    ensures Apply(s, a).worker == s.worker && Apply(s, a).written == s.written
  {
  }

  /** After a shutdown request the worker takes at most one more block. */
  lemma {:induction false} AtMostOneBlockAfterStop(r: Run, q: Run)
    requires Legal(r) && Legal(q) && Extends(r, q) && Requested(r)
    ensures Requested(q) && Pops(q) + PopBudget(End(q).worker) <= Pops(r) + PopBudget(End(r).worker)
    ensures Pops(q) <= Pops(r) + 1
    decreases q
  {
    if r != q {
      AtMostOneBlockAfterStop(r, q.before);
      StopIsRequested(q.before);
      StoppingStep(End(q.before), q.act);
    }
  }

  /** Once the worker has ended nothing more is written, whatever is still queued. */
  lemma {:induction false} EndedWorkerWritesNothing(r: Run, q: Run)
    requires Legal(r) && Legal(q) && Extends(r, q) && Ended(End(r).worker)
    ensures End(q).worker == End(r).worker && End(q).written == End(r).written
    decreases q
  {
    if r != q {
      EndedWorkerWritesNothing(r, q.before);
      EndedStep(End(q.before), q.act);
    }
  }

  /** Asked to stop between two blocks, the worker ends, and leaves the queue unwritten. */
  lemma StopLeavesTheQueue(r: Run) returns (q: Run)
    requires Legal(r) && Requested(r) && (End(r).worker.Looping? || (End(r).worker.Waiting? && End(r).queue == []))
    ensures Legal(q) && Extends(r, q) && End(q).worker.Stopped? && End(q).queue == End(r).queue
    ensures End(q).absorbed == End(q).written + End(q).queue
  {
    StopIsRequested(r);
    q := Then(r, Quit);
    Next(r, Quit);
    WritesFollowAbsorbs(q);
    assert End(q).written + [] == End(q).written;
  }

  // ---------------------------------------------------------------------------------------
  // Tokens
  // ---------------------------------------------------------------------------------------

  ghost predicate SizesAtMost(s: seq<Item>, most: nat) {
    forall i | 0 <= i < |s| :: s[i].size <= most
  }

  /** The lowest the bucket can get: zero if every block fits into a burst. */
  function Floor(burst: nat, most: nat): real {
    Min(0.0, burst as real - most as real)
  }

  ghost predicate TokenInv(s: State, most: nat) {
    && Floor(s.c.burst, most) <= s.tokens <= s.c.burst as real
    && s.lastT <= s.clock
    && (s.worker.Popped? || s.worker.Sleeping? ==> s.worker.item.size <= most)
    && SizesAtMost(s.queue, most)
  }

  lemma CreditIsNoLoss(s: State, now: real)
    requires s.c.rate >= 0.0 && now >= s.lastT && s.tokens <= s.c.burst as real
    ensures s.tokens <= Credited(s, now) <= s.c.burst as real
  {
    EarnedGrowsWithTime(s.c.rate, 0.0, now - s.lastT);
  }

  lemma WakeCovers(s: State, now: real, most: nat)
    requires s.c.rate >= 0.0 && Enabled(s, Wake(now)) && TokenInv(s, most)
    ensures Floor(s.c.burst, most) <= Credited(s, now) - s.worker.item.size as real
    ensures Credited(s, now) <= s.c.burst as real && now >= s.lastT
  {
  }

  lemma StepKeepsTokens(s: State, a: Action, most: nat)
    requires s.c.rate >= 0.0 && Enabled(s, a) && TokenInv(s, most)
    requires a.Absorb? ==> a.item.size <= most
    ensures TokenInv(Apply(s, a), most)
  {
    match a
    case Refill(now) => CreditIsNoLoss(s, now);
    case Wake(now) => WakeCovers(s, now, most);
    case _ =>
  }

  lemma {:induction false} TokensHaveAFloor(r: Run, most: nat)
    requires Legal(r) && ConfigOf(r).rate >= 0.0 && SizesAtMost(End(r).absorbed, most)
    ensures TokenInv(End(r), most)
  {
    match r
    case Start(_) =>
    case Then(before, act) =>
      var was, now := End(before).absorbed, End(r).absorbed;
      assert act.Absorb? ==> now[|was|] == act.item;
      assert forall i | 0 <= i < |was| :: was[i] == now[i];
      TokensHaveAFloor(before, most);
      ConfigIsFixed(before);
      StepKeepsTokens(End(before), act, most);
  }

  /** If every block fits into a burst, the bucket never goes negative and never overflows. */
  lemma TokensStayInTheBucket(r: Run)
    requires Legal(r) && ConfigOf(r).rate >= 0.0 && SizesAtMost(End(r).absorbed, ConfigOf(r).burst)
    ensures 0.0 <= End(r).tokens <= ConfigOf(r).burst as real
  {
    TokensHaveAFloor(r, ConfigOf(r).burst);
    ConfigIsFixed(r);
  }

  // ---------------------------------------------------------------------------------------
  // Rate
  // ---------------------------------------------------------------------------------------

  function Bytes(s: seq<Item>): nat {
    if s == [] then 0 else Bytes(s[..|s| - 1]) + s[|s| - 1].size
  }

  lemma BytesStep(s: seq<Item>, x: Item)
    ensures Bytes(s + [x]) == Bytes(s) + x.size
  {
    assert (s + [x])[..|s|] == s;
  }

  /** What the worker has paid for. */
  function PaidBytes(s: State): nat {
    Bytes(s.written) + if s.worker.Paid? then s.worker.item.size else 0
  }

  /** What the burst cuts off a credit. */
  function CutOff(s: State, now: real): (x: real)
    ensures x >= 0.0
  {
    s.tokens + Earned(s.c.rate, now - s.lastT) - Credited(s, now)
  }

  /** The bytes cut off so far. */
  ghost function Spilled(r: Run): (x: real)
    requires Legal(r)
    ensures x >= 0.0
  {
    match r
    case Start(_) => 0.0
    case Then(before, act) =>
      Spilled(before) + if act.Refill? || act.Wake? then CutOff(End(before), act.now) else 0.0
  }

  /** Bytes paid, tokens left and bytes cut off come from the first burst, from the time up to `lastT`,
      and once more from the sleeps. */
  ghost predicate Account(s: State, spilled: real) {
    PaidBytes(s) as real + s.tokens + spilled
    == s.c.burst as real + Earned(s.c.rate, s.lastT - s.c.start) + Earned(s.c.rate, s.slept)
  }

  /** The clock stands at the last refill or the end of the last sleep. */
  ghost predicate TimeInv(s: State) {
    && s.c.start <= s.lastT <= s.clock
    && s.clock - s.lastT <= s.slept <= s.clock - s.c.start
    && (s.worker.Sleeping? ==> s.lastT == s.clock)
  }

  lemma RefillKeepsAccount(s: State, now: real, spilled: real)
    requires Enabled(s, Refill(now)) && Account(s, spilled)
    ensures Account(Apply(s, Refill(now)), spilled + CutOff(s, now))
  {
    EarnedAdds(s.c.rate, s.lastT - s.c.start, now - s.lastT);
    var t := Apply(s, Refill(now));
    assert PaidBytes(s) == Bytes(s.written);
    assert PaidBytes(t) as real + t.tokens == PaidBytes(s) as real + Credited(s, now);
  }

  lemma WakeKeepsAccount(s: State, now: real, spilled: real)
    requires Enabled(s, Wake(now)) && Account(s, spilled)
    ensures Account(Apply(s, Wake(now)), spilled + CutOff(s, now))
  {
    EarnedAdds(s.c.rate, s.slept, now - s.lastT);
    var t := Apply(s, Wake(now));
    assert PaidBytes(s) == Bytes(s.written);
    assert PaidBytes(t) as real + t.tokens == PaidBytes(s) as real + Credited(s, now);
  }

  /** No step but a refill or a wake-up touches the account. */
  lemma OthersKeepAccount(s: State, a: Action)
    requires Enabled(s, a) && !a.Refill? && !a.Wake?
    ensures var t := Apply(s, a);
            && PaidBytes(t) == PaidBytes(s) && t.tokens == s.tokens && t.slept == s.slept
            && t.lastT == s.lastT && t.clock == s.clock && t.c == s.c && (t.worker.Sleeping? ==> s.worker.Sleeping?)
  {
    if a.Write? { BytesStep(s.written, s.worker.item); }
  }

  lemma StepKeepsTime(s: State, a: Action)
    requires Enabled(s, a) && TimeInv(s)
    ensures TimeInv(Apply(s, a))
  {
    if !a.Refill? && !a.Wake? { OthersKeepAccount(s, a); }
  }

  lemma {:induction false} AccountIsExact(r: Run)
    requires Legal(r)
    ensures TimeInv(End(r)) && Account(End(r), Spilled(r))
  {
    match r
    case Start(_) =>
    case Then(before, act) =>
      AccountIsExact(before);
      var s := End(before);
      StepKeepsTime(s, act);
      if act.Refill? { RefillKeepsAccount(s, act.now, Spilled(before)); }
      else if act.Wake? { WakeKeepsAccount(s, act.now, Spilled(before)); }
      else { OthersKeepAccount(s, act); }
  }

  /** The bytes written, with blocks of at most `most` bytes, are no more than burst (or one block) plus
      the given time at the rate. */
  ghost predicate WrittenWithin(s: State, most: nat, t: real) {
    Bytes(s.written) as real <= Max(s.c.burst as real, most as real) + Earned(s.c.rate, t)
  }

  lemma TokensCover(s: State, most: nat, spilled: real)
    requires TokenInv(s, most) && Account(s, spilled) && spilled >= 0.0
    ensures WrittenWithin(s, most, s.lastT - s.c.start + s.slept)
  {
    EarnedAdds(s.c.rate, s.lastT - s.c.start, s.slept);
  }

  /** The rate bound: max(burst, largest block) + rate * (time to the last refill + time slept). */
  lemma SleepsAreExtra(r: Run, most: nat)
    requires Legal(r) && ConfigOf(r).rate >= 0.0 && SizesAtMost(End(r).absorbed, most)
    ensures WrittenWithin(End(r), most, End(r).lastT - ConfigOf(r).start + End(r).slept)
  {
    AccountIsExact(r);
    TokensHaveAFloor(r, most);
    ConfigIsFixed(r);
    TokensCover(End(r), most, Spilled(r));
  }

  /**
   After time T at most max(burst, largest block) + 2 rate T bytes have been written; with blocks no
   larger than a burst that is burst + 2 rate T.
   */
  lemma WrittenBytesAreBounded(r: Run, most: nat)
    requires Legal(r) && ConfigOf(r).rate >= 0.0 && SizesAtMost(End(r).absorbed, most)
    ensures WrittenWithin(End(r), most, 2.0 * (End(r).clock - ConfigOf(r).start))
  {
    SleepsAreExtra(r, most);
    AccountIsExact(r);
    ConfigIsFixed(r);
    var s := End(r);
    EarnedGrowsWithTime(s.c.rate, s.lastT - s.c.start + s.slept, 2.0 * (s.clock - s.c.start));
  }

  // ---------------------------------------------------------------------------------------
  // When the bound without the factor two holds
  // ---------------------------------------------------------------------------------------

  lemma ExactlyWhen(s: State, spilled: real)
    requires Account(s, spilled)
    ensures PaidBytes(s) as real <= s.c.burst as real + Earned(s.c.rate, s.clock - s.c.start)
       <==> Earned(s.c.rate, s.slept - (s.clock - s.lastT)) <= s.tokens + spilled
  {
    EarnedAdds(s.c.rate, s.lastT - s.c.start, s.clock - s.lastT);
    EarnedAdds(s.c.rate, s.clock - s.lastT, s.slept - (s.clock - s.lastT));
  }

  /**
   For every run: the bytes paid for are within burst + rate T if and only if what the sleeps before
   the last refill earned is still in the bucket or was cut off.
   */
  lemma SingleBoundExactlyWhen(r: Run)
    requires Legal(r)
    ensures var s := End(r);
            PaidBytes(s) as real <= s.c.burst as real + Earned(s.c.rate, s.clock - s.c.start)
            <==> Earned(s.c.rate, s.slept - (s.clock - s.lastT)) <= s.tokens + Spilled(r)
  {
    AccountIsExact(r);
    ExactlyWhen(End(r), Spilled(r));
  }

  /** The turn before did not sleep, or the bucket fills up all the same. */
  predicate RefillIsDue(s: State, now: real) {
    s.clock == s.lastT || s.c.burst as real - s.tokens <= Earned(s.c.rate, now - s.clock)
  }

  /** A refill credits no more than the time since the last credit has earned exactly under that
      condition. */
  lemma RefillIsDueExactlyWhen(s: State, now: real)
    requires s.c.rate > 0.0 && s.lastT <= s.clock <= now
    ensures Credited(s, now) - s.tokens <= Earned(s.c.rate, now - s.clock) <==> RefillIsDue(s, now)
  {
    EarnedAdds(s.c.rate, s.clock - s.lastT, now - s.clock);
    if s.clock > s.lastT { EarnedIsPositive(s.c.rate, s.clock - s.lastT); }
  }

  lemma EarnedIsPositive(rate: real, t: real)
    requires rate > 0.0 && t > 0.0
    ensures Earned(rate, t) > 0.0
  {
  }

  ghost predicate AllDue(r: Run)
    requires Legal(r)
  {
    r.Start? || (AllDue(r.before) && (r.act.Refill? ==> RefillIsDue(End(r.before), r.act.now)))
  }

  ghost predicate SingleInv(s: State) {
    PaidBytes(s) as real + s.tokens <= s.c.burst as real + Earned(s.c.rate, s.clock - s.c.start)
  }

  lemma CreditKeepsSingle(s: State, t: State, item: Item, now: real)
    requires SingleInv(s) && s.lastT <= s.clock <= now && RefillIsDue(s, now)
    requires PaidBytes(t) as real + t.tokens == PaidBytes(s) as real + Credited(s, now)
    requires t.clock == now && t.c == s.c
    ensures SingleInv(t)
  {
    EarnedAdds(s.c.rate, s.clock - s.c.start, now - s.clock);
  }

  lemma StepKeepsSingle(s: State, a: Action)
    requires Enabled(s, a) && SingleInv(s) && TimeInv(s) && (a.Refill? ==> RefillIsDue(s, a.now))
    ensures SingleInv(Apply(s, a))
  {
    if a.Refill? || a.Wake? {
      assert PaidBytes(s) == Bytes(s.written);
      CreditKeepsSingle(s, Apply(s, a), s.worker.item, a.now);
    } else {
      OthersKeepAccount(s, a);
    }
  }

  lemma {:induction false} DueRunsKeepSingle(r: Run)
    requires Legal(r) && AllDue(r)
    ensures SingleInv(End(r))
  {
    match r
    case Start(_) =>
    case Then(before, act) =>
      DueRunsKeepSingle(before);
      AccountIsExact(before);
      StepKeepsSingle(End(before), act);
  }

  /** If no refill follows a sleep, unless it fills the bucket anyway, the bound loses its factor two. */
  lemma DueRunsKeepTheRate(r: Run, most: nat)
    requires Legal(r) && ConfigOf(r).rate >= 0.0 && SizesAtMost(End(r).absorbed, most) && AllDue(r)
    ensures WrittenWithin(End(r), most, End(r).clock - ConfigOf(r).start)
  {
    DueRunsKeepSingle(r);
    TokensHaveAFloor(r, most);
    ConfigIsFixed(r);
  }

  /** Every refill finds the tokens its block needs. */
  ghost predicate NeverShort(r: Run)
    requires Legal(r)
  {
    r.Start? || (NeverShort(r.before)
                 && (r.act.Refill? ==>
                       End(r.before).worker.item.size as real <= Credited(End(r.before), r.act.now)))
  }

  lemma {:induction false} NeverShortNeverSleeps(r: Run)
    requires Legal(r) && NeverShort(r)
    ensures !End(r).worker.Sleeping? && End(r).clock == End(r).lastT && AllDue(r)
  {
    match r
    case Start(_) =>
    case Then(before, act) =>
      NeverShortNeverSleeps(before);
  }

  /** In particular it does while no block has to wait for tokens. */
  lemma PromptRunsKeepTheRate(r: Run, most: nat)
    requires Legal(r) && ConfigOf(r).rate >= 0.0 && SizesAtMost(End(r).absorbed, most) && NeverShort(r)
    ensures WrittenWithin(End(r), most, End(r).clock - ConfigOf(r).start)
  {
    NeverShortNeverSleeps(r);
    DueRunsKeepTheRate(r, most);
  }

  // ---------------------------------------------------------------------------------------
  // One turn of the worker
  // ---------------------------------------------------------------------------------------

  lemma Next(r: Run, a: Action)
    requires Legal(r) && Enabled(End(r), a)
    ensures Legal(Then(r, a)) && End(Then(r, a)) == Apply(End(r), a) && ConfigOf(Then(r, a)) == ConfigOf(r)
  {
  }

  /** How a turn ends: paid at once, paid after a sleep, or killed by the division by a zero rate. */
  datatype Outcome = AtOnce | AfterSleep | Died

  /** One turn, as steps. */
  function Turn(r: Run, now: real, wake: real, outcome: Outcome): Run {
    var q := Then(Then(Then(r, Enter), Pop), Refill(now));
    match outcome
    case AtOnce => Then(q, Write)
    case AfterSleep => Then(Then(q, Wake(wake)), Write)
    case Died => Then(q, Crash)
  }

  predicate CanTurn(s: State, now: real, wake: real) {
    && s.worker.Looping? && !s.stop && s.queue != [] && s.c.rate >= 0.0
    && wake >= now >= s.clock && (s.c.rate > 0.0 ==> SleptEnough(s.c.rate, wake - now, s.queue[0].size))
  }

  /** How the turn of a block ends when the refill brings the given tokens, */
  function Ending(refilled: real, rate: real, size: nat): Outcome {
    if refilled >= size as real then AtOnce else if rate == 0.0 then Died else AfterSleep
  }

  /** and the tokens it leaves. */
  function Left(refilled: real, rate: real, burst: nat, size: nat, wait: real): real {
    match Ending(refilled, rate, size)
    case AtOnce => refilled - size as real
    case AfterSleep => Filled(refilled, rate, burst, wait) - size as real
    case Died => refilled
  }

  function OutcomeOf(s: State, now: real): Outcome
    requires s.queue != []
  {
    Ending(Credited(s, now), s.c.rate, s.queue[0].size)
  }

  /** What one turn does to the state. */
  ghost predicate Turned(s: State, t: State, now: real, wake: real)
    requires s.queue != []
  {
    var item, outcome := s.queue[0], OutcomeOf(s, now);
    t == s.(queue := s.queue[1..], worker := if outcome.Died? then Crashed(item) else Looping,
            written := if outcome.Died? then s.written else s.written + [item],
            tokens := Left(Credited(s, now), s.c.rate, s.c.burst, item.size, wake - now),
            lastT := now, clock := if outcome.AfterSleep? then wake else now,
            slept := if outcome.AfterSleep? then s.slept + (wake - now) else s.slept)
  }

  lemma TurnState(s: State, now: real, wake: real)
    requires CanTurn(s, now, wake)
    ensures var a := Apply(Apply(Apply(s, Enter), Pop), Refill(now));
            match OutcomeOf(s, now)
            case AtOnce => a.worker.Paid? && Turned(s, Apply(a, Write), now, wake)
            case AfterSleep => Enabled(a, Wake(wake)) && Turned(s, Apply(Apply(a, Wake(wake)), Write), now, wake)
            case Died => Enabled(a, Crash) && Turned(s, Apply(a, Crash), now, wake)
  {
  }

  lemma TurnAsSteps(r: Run, now: real, wake: real)
    requires Legal(r) && CanTurn(End(r), now, wake)
    ensures var t := Turn(r, now, wake, OutcomeOf(End(r), now));
            Legal(t) && Turned(End(r), End(t), now, wake)
  {
    TurnState(End(r), now, wake);
    Next(r, Enter);
    var e := Then(r, Enter);
    Next(e, Pop);
    var q := Then(e, Pop);
    Next(q, Refill(now));
    var t := Then(q, Refill(now));
    match OutcomeOf(End(r), now)
    case AtOnce => Next(t, Write);
    case AfterSleep =>
      Next(t, Wake(wake));
      Next(Then(t, Wake(wake)), Write);
    case Died => Next(t, Crash);
  }

  /** Run t is one turn after run r. */
  ghost predicate IsTurn(r: Run, t: Run, now: real, wake: real, outcome: Outcome) {
    t == Turn(r, now, wake, outcome)
  }

  lemma TakeTurn(r: Run, now: real, wake: real) returns (t: Run)
    requires Legal(r) && CanTurn(End(r), now, wake)
    ensures Legal(t) && IsTurn(r, t, now, wake, OutcomeOf(End(r), now)) && Turned(End(r), End(t), now, wake)
  {
    TurnAsSteps(r, now, wake);
    t := Turn(r, now, wake, OutcomeOf(End(r), now));
  }

  /** The state as the object holds it. */
  predicate Mirrors(s: State, rate: real, burst: nat, queue: seq<Item>, tokens: real, lastT: real,
                    backing: seq<Item>, alive: bool)
  {
    && s.c.rate == rate && s.c.burst == burst && !s.stop
    && (if alive then s.worker.Looping? else s.worker.Crashed?)
    && s.queue == queue && s.tokens == tokens && s.lastT == lastT && s.written == backing
  }

  lemma TurnMirrors(s: State, t: State, now: real, wake: real, rate: real, burst: nat, queue: seq<Item>,
                    tokens: real, lastT: real, backing: seq<Item>)
    requires Mirrors(s, rate, burst, queue, tokens, lastT, backing, true) && queue != [] && Turned(s, t, now, wake)
    ensures var refilled, size := Filled(tokens, rate, burst, now - lastT), queue[0].size;
            var outcome := Ending(refilled, rate, size);
            && OutcomeOf(s, now) == outcome && t.c == s.c && t.clock == (if outcome.AfterSleep? then wake else now)
            && Mirrors(t, rate, burst, queue[1..], Left(refilled, rate, burst, size, wake - now), now,
                       if outcome.Died? then backing else backing + [queue[0]], !outcome.Died?)
  {
  }

  /** One turn of a waiting worker, in terms of what the object holds. */
  lemma MirroredTurn(r: Run, now: real, wake: real, rate: real, burst: nat, queue: seq<Item>,
                     tokens: real, lastT: real, backing: seq<Item>) returns (t: Run)
    requires Legal(r) && Mirrors(End(r), rate, burst, queue, tokens, lastT, backing, true) && queue != []
    requires rate >= 0.0 && wake >= now >= End(r).clock && (rate > 0.0 ==> SleptEnough(rate, wake - now, queue[0].size))
    ensures var refilled, size := Filled(tokens, rate, burst, now - lastT), queue[0].size;
            var outcome := Ending(refilled, rate, size);
            && Legal(t) && IsTurn(r, t, now, wake, outcome)
            && End(t).c == End(r).c && End(t).clock == (if outcome.AfterSleep? then wake else now)
            && Mirrors(End(t), rate, burst, queue[1..], Left(refilled, rate, burst, size, wake - now), now,
                       if outcome.Died? then backing else backing + [queue[0]], !outcome.Died?)
  {
    t := TakeTurn(r, now, wake);
    TurnMirrors(End(r), End(t), now, wake, rate, burst, queue, tokens, lastT, backing);
  }

  // ---------------------------------------------------------------------------------------
  // The factor two is real
  // ---------------------------------------------------------------------------------------

  /** The rate earns a burst in the time `fill`. */
  ghost predicate Fills(c: Config, fill: real) {
    c.rate > 0.0 && c.burst > 0 && fill > 0.0 && Earned(c.rate, fill) == c.burst as real
  }

  /** For every positive rate and burst there is such a time. */
  lemma BurstOverRateFills(c: Config)
    requires c.rate > 0.0 && c.burst > 0
    ensures Fills(c, c.burst as real / c.rate)
  {
    var fill := c.burst as real / c.rate;
    assert c.rate * fill == c.burst as real;
    PositiveFactor(c.rate, fill);
  }

  lemma PositiveFactor(rate: real, t: real)
    requires rate > 0.0 && rate * t > 0.0
    ensures t > 0.0
  {
  }

  /** A block as large as the burst. */
  function Block(c: Config): Item { Item(0, c.burst) }

  /** Absorb such a block and serve it. */
  function Serve(r: Run, c: Config, now: real, fill: real, slept: bool): Run {
    Turn(Then(r, Absorb(Block(c))), now, now + fill, if slept then AfterSleep else AtOnce)
  }

  /** The moment after n fills. */
  function Moment(c: Config, fill: real, n: nat): real {
    if n == 0 then c.start else Moment(c, fill, n - 1) + fill
  }

  /** A block at once, then two blocks in every fill time, the first of them after a sleep. */
  function Greedy(c: Config, fill: real, n: nat): Run {
    if n == 0 then Serve(Start(c), c, c.start, fill, false)
    else
      var now := Moment(c, fill, n - 1);
      Serve(Serve(Greedy(c, fill, n - 1), c, now, fill, true), c, now + fill, fill, false)
  }

  /** The worker waits, with the given tokens, clock reading, last refill and bytes written. */
  ghost predicate At(s: State, c: Config, tokens: real, clock: real, last: real, bytes: nat) {
    && s.c == c && s.worker == Looping && !s.stop && s.queue == [] && s.tokens == tokens
    && s.clock == clock && s.lastT == last && Bytes(s.written) == bytes
  }

  /** At `now` the refill brings the tokens to a burst, or they stay at zero. */
  ghost predicate Comes(c: Config, tokens: real, last: real, now: real, full: bool) {
    tokens + Earned(c.rate, now - last) == if full then c.burst as real else 0.0
  }

  lemma NothingComes(c: Config, tokens: real, now: real)
    ensures tokens == 0.0 ==> Comes(c, tokens, now, now, false)
    ensures tokens == c.burst as real ==> Comes(c, tokens, now, now, true)
  {
    assert now - now == 0.0;
  }

  lemma BurstComes(c: Config, fill: real, last: real)
    requires Fills(c, fill)
    ensures Comes(c, 0.0, last, last + fill, true)
  {
    assert last + fill - last == fill;
  }

  lemma LeftIsNothing(c: Config, fill: real, tokens: real, last: real, now: real, wait: real, full: bool)
    requires Fills(c, fill) && Comes(c, tokens, last, now, full) && wait == fill
    ensures var refilled := Filled(tokens, c.rate, c.burst, now - last);
            && Ending(refilled, c.rate, c.burst) == (if full then AtOnce else AfterSleep)
            && Left(refilled, c.rate, c.burst, c.burst, wait) == 0.0
  {
  }

  lemma Arrives(r: Run, c: Config, tokens: real, clock: real, last: real, bytes: nat)
    requires Legal(r) && At(End(r), c, tokens, clock, last, bytes)
    ensures var u := Then(r, Absorb(Block(c)));
            && Legal(u) && End(u).c == c && End(u).clock == clock
            && Mirrors(End(u), c.rate, c.burst, [Block(c)], tokens, last, End(r).written, true)
  {
    Next(r, Absorb(Block(c)));
  }

  lemma FillIsEnough(c: Config, fill: real, now: real)
    requires Fills(c, fill)
    ensures SleptEnough(c.rate, now + fill - now, c.burst)
  {
    assert now + fill - now == fill;
  }

  lemma BlockTurn(u: Run, c: Config, fill: real, tokens: real, last: real, written: seq<Item>, now: real, full: bool)
    returns (t: Run)
    requires Fills(c, fill) && Legal(u) && End(u).c == c && End(u).clock <= now && Comes(c, tokens, last, now, full)
    requires Mirrors(End(u), c.rate, c.burst, [Block(c)], tokens, last, written, true)
    ensures IsTurn(u, t, now, now + fill, if full then AtOnce else AfterSleep) && Legal(t)
    ensures At(End(t), c, 0.0, if full then now else now + fill, now, Bytes(written) + c.burst)
  {
    LeftIsNothing(c, fill, tokens, last, now, now + fill - now, full);
    FillIsEnough(c, fill, now);
    t := MirroredTurn(u, now, now + fill, c.rate, c.burst, [Block(c)], tokens, last, written);
    assert [Block(c)][1..] == [];
    BytesStep(written, Block(c));
  }

  lemma Served(r: Run, c: Config, fill: real, tokens: real, clock: real, last: real, bytes: nat, now: real, full: bool)
    requires Fills(c, fill) && Legal(r) && At(End(r), c, tokens, clock, last, bytes) && now >= clock
    requires Comes(c, tokens, last, now, full)
    ensures var q := Serve(r, c, now, fill, !full);
            Legal(q) && At(End(q), c, 0.0, if full then now else now + fill, now, bytes + c.burst)
  {
    Arrives(r, c, tokens, clock, last, bytes);
    var t := BlockTurn(Then(r, Absorb(Block(c))), c, fill, tokens, last, End(r).written, now, full);
    assert t == Serve(r, c, now, fill, !full);
  }

  ghost predicate Reaches(r: Run, c: Config, clock: real, last: real, bytes: nat) {
    Legal(r) && At(End(r), c, 0.0, clock, last, bytes)
  }

  /** At the last refill the bucket is empty: the block waits for a fill. */
  lemma ServedLate(r: Run, c: Config, fill: real, t: real, bytes: nat)
    requires Fills(c, fill) && Reaches(r, c, t, t, bytes)
    ensures Reaches(Serve(r, c, t, fill, true), c, t + fill, t, bytes + c.burst)
  {
    NothingComes(c, 0.0, t);
    Served(r, c, fill, 0.0, t, t, bytes, t, false);
  }

  /** After that sleep the refill credits it once more: the next block is paid at once. */
  lemma ServedNow(r: Run, c: Config, fill: real, t: real, bytes: nat)
    requires Fills(c, fill) && Reaches(r, c, t + fill, t, bytes)
    ensures Reaches(Serve(r, c, t + fill, fill, false), c, t + fill, t + fill, bytes + c.burst)
  {
    BurstComes(c, fill, t);
    Served(r, c, fill, 0.0, t + fill, t, bytes, t + fill, true);
  }

  /** The bytes of one block and n pairs of blocks. */
  function Pairs(burst: nat, n: nat): nat {
    if n == 0 then burst else Pairs(burst, n - 1) + burst + burst
  }

  lemma {:induction false} GreedyRun(c: Config, fill: real, n: nat)
    requires Fills(c, fill)
    ensures Reaches(Greedy(c, fill, n), c, Moment(c, fill, n), Moment(c, fill, n), Pairs(c.burst, n))
  {
    if n == 0 {
      NothingComes(c, c.burst as real, c.start);
      Served(Start(c), c, fill, c.burst as real, c.start, c.start, 0, c.start, true);
    } else {
      var r, t, bytes := Greedy(c, fill, n - 1), Moment(c, fill, n - 1), Pairs(c.burst, n - 1);
      GreedyRun(c, fill, n - 1);
      ServedLate(r, c, fill, t, bytes);
      ServedNow(Serve(r, c, t, fill, true), c, fill, t, bytes + c.burst);
    }
  }

  lemma {:induction false} PairsCount(burst: nat, n: nat)
    ensures Pairs(burst, n) == burst * (1 + 2 * n)
  {
    if n > 0 {
      PairsCount(burst, n - 1);
      assert burst * (1 + 2 * n) == burst * (1 + 2 * (n - 1)) + burst + burst;
    }
  }

  /** The doubled bound, with equality. */
  ghost predicate DoubledBound(c: Config, bytes: nat, t: real) {
    bytes as real == c.burst as real + 2.0 * Earned(c.rate, t)
  }

  lemma {:induction false} PairsAreEarned(c: Config, fill: real, n: nat)
    requires Fills(c, fill)
    ensures DoubledBound(c, Pairs(c.burst, n), Moment(c, fill, n) - c.start)
  {
    if n == 0 {
      assert Earned(c.rate, c.start - c.start) == 0.0;
    } else {
      PairsAreEarned(c, fill, n - 1);
      EarnedAdds(c.rate, Moment(c, fill, n - 1) - c.start, fill);
    }
  }

  /**
   For every rate and burst, with blocks as large as a burst, the doubled bound is met with equality at
   the end of every fill time: burst (1 + 2 n) bytes after n of them.
   */
  lemma SleepsAreCreditedTwice(c: Config, fill: real, n: nat)
    requires Fills(c, fill)
    ensures Legal(Greedy(c, fill, n)) && ConfigOf(Greedy(c, fill, n)) == c
    ensures Bytes(End(Greedy(c, fill, n)).written) == c.burst * (1 + 2 * n)
    ensures End(Greedy(c, fill, n)).clock == Moment(c, fill, n)
    ensures DoubledBound(c, c.burst * (1 + 2 * n), Moment(c, fill, n) - c.start)
  {
    GreedyRun(c, fill, n);
    PairsAreEarned(c, fill, n);
    PairsCount(c.burst, n);
    ConfigIsFixed(Greedy(c, fill, n));
  }

  // ---------------------------------------------------------------------------------------
  // The object
  // ---------------------------------------------------------------------------------------

  class SoftAbsorber {
    const rate: real
    const burst: nat
    var queue: seq<Item>
    var tokens: real
    var lastT: real
    var backing: seq<Item>
    var alive: bool

    /** The steps made so far. */
    ghost var history: Run

    ghost predicate Valid()
      reads this
    {
      rate >= 0.0 && Legal(history) && Mirrors(End(history), rate, burst, queue, tokens, lastT, backing, alive)
    }

    constructor (rate: real, burst: nat, now: real)
      requires rate >= 0.0
      ensures Valid() && alive && this.rate == rate && this.burst == burst && history == Start(Config(rate, burst, now))
    {
      this.rate, this.burst := rate, burst;
      queue, tokens, lastT, backing, alive := [], burst as real, now, [], true;
      history := Start(Config(rate, burst, now));
    }

    method Absorb(item: Item)
      requires Valid()
      modifies this
      ensures Valid() && history == Then(old(history), Action.Absorb(item))
      ensures queue == old(queue) + [item] && backing == old(backing) && alive == old(alive)
    {
      queue := queue + [item];
      Next(history, Action.Absorb(item));
      history := Then(history, Action.Absorb(item));
    }

    /** Refill the bucket and pay for a block, with a sleep if the bucket is short. */
    method Settle(size: nat, now: real, wake: real) returns (outcome: Outcome)
      modifies this`tokens, this`lastT
      ensures lastT == now
      ensures var refilled := Filled(old(tokens), rate, burst, now - old(lastT));
              outcome == Ending(refilled, rate, size) && tokens == Left(refilled, rate, burst, size, wake - now)
    {
      tokens := Filled(tokens, rate, burst, now - lastT);
      lastT := now;
      outcome := AtOnce;
      if tokens < size as real {
        if rate == 0.0 { return Died; }
        tokens := Filled(tokens, rate, burst, wake - lastT);
        outcome := AfterSleep;
      }
      tokens := tokens - size as real;
    }

    /** Pop the oldest block, pay for it, and write it.  A short bucket with a rate of zero kills the
        worker, and the block with it.  SleepIsTheQuotient says that `wake` is late enough. */
    method ServeOne(now: real, wake: real) returns (outcome: Outcome)
      requires Valid() && alive && queue != []
      requires wake >= now >= End(history).clock && (rate > 0.0 ==> SleptEnough(rate, wake - now, queue[0].size))
      modifies this
      ensures Valid() && IsTurn(old(history), history, now, wake, outcome) && alive == !outcome.Died?
      ensures queue == old(queue)[1..]
      ensures backing == if alive then old(backing) + [old(queue)[0]] else old(backing)
    {
      var item := queue[0];
      ghost var t := MirroredTurn(history, now, wake, rate, burst, queue, tokens, lastT, backing);
      queue := queue[1..];
      outcome := Settle(item.size, now, wake);
      if outcome == Died {
        alive := false;
      } else {
        backing := backing + [item];
      }
      history := t;
    }
  }
}
