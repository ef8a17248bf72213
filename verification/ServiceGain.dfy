/**
 tempo/service_gain.py: the routing decision of the PCIe pressure predictor, and the token bucket
 whose rate may be changed while callers wait.  Doubles are reals; clock readings are inputs.
 */
module ServiceGain {
  import opened Basics

  // ---------------------------------------------------------------------------------------
  // Routing
  // ---------------------------------------------------------------------------------------

  const DEFAULT_CEILING := 64_000_000_000.0

  /** A pending flush: bytes, seconds available, NCCL bandwidth, idle rails, ceiling (0: default). */
  datatype Request = Request(bytes: nat, window: real, nccl: real, idle: int, ceiling: real)

  datatype Decision =
    | Proceed(rate: real)
    | RateLimit(rate: real)
    | MicroDelay(ms: real)
    | Defer

  function Ceiling(q: Request): (c: real)
    ensures c > 0.0
  {
    if q.ceiling > 0.0 then q.ceiling else DEFAULT_CEILING
  }

  function Window(q: Request): (w: real)
    ensures w > 0.0
  {
    Max(q.window, 0.000000001)
  }

  function FlushBw(q: Request): real { q.bytes as real / Window(q) }

  function Pressure(q: Request): real { (FlushBw(q) + q.nccl) / Ceiling(q) }

  function Rails(q: Request): (n: nat)
    ensures n >= 1
  {
    if q.idle > 1 then q.idle else 1
  }

  function EffHeadroom(q: Request): real { (Ceiling(q) - q.nccl) * Rails(q) as real }

  /** The flush fits into the headroom of the idle rails. */
  predicate Fits(q: Request) { q.idle > 0 && FlushBw(q) <= EffHeadroom(q) }

  function Delay(q: Request): real {
    var deficit := FlushBw(q) + q.nccl - Ceiling(q);
    var decay := q.nccl / Max(q.window * 1000.0, 1.0);
    Max(1.0, Min(50.0, deficit / Max(decay, 1.0)))
  }

  function Route(q: Request): Decision {
    if Pressure(q) < 0.90 then Proceed(FlushBw(q))
    else if Fits(q) then RateLimit(EffHeadroom(q) * 0.85 / Rails(q) as real)
    else if Pressure(q) < 1.50 then MicroDelay(Delay(q))
    else Defer
  }

  function Severity(d: Decision): nat {
    match d
    case Proceed(_) => 0
    case RateLimit(_) => 1
    case MicroDelay(_) => 2
    case Defer => 3
  }

  /** q asks for no more than r on a link in no worse state. */
  predicate NoHarder(q: Request, r: Request) {
    q.bytes <= r.bytes && q.window >= r.window && q.nccl <= r.nccl && q.idle >= r.idle && Ceiling(q) >= Ceiling(r)
  }

  lemma FactorOrder(p: real, q: real, y: real)
    requires y > 0.0 && p * y <= q * y
    ensures p <= q
  {
    assert (q - p) * y >= 0.0;
  }

  lemma QuotientGrows(a: real, b: real, x: real, y: real)
    requires 0.0 <= a <= b && x >= y > 0.0
    ensures 0.0 <= a / x <= b / y
  {
    var p, q := a / x, b / y;
    assert p * x == a && q * y == b;
    FactorOrder(0.0, p, x);
    Spare(p, x - y);
    assert p * y == p * x - p * (x - y);
    FactorOrder(p, q, y);
  }

  lemma Spare(p: real, d: real)
    requires p >= 0.0 && d >= 0.0
    ensures p * d >= 0.0
  {
  }

  lemma ProductGrows(a: real, b: real, m: nat, n: nat)
    requires a <= b && 1 <= m <= n && a >= 0.0
    ensures a * m as real <= b * n as real
  {
    assert a * m as real <= a * n as real;
    assert a * n as real <= b * n as real;
  }

  lemma FlushBwGrows(q: Request, r: Request)
    requires NoHarder(q, r)
    ensures 0.0 <= FlushBw(q) <= FlushBw(r)
  {
    QuotientGrows(q.bytes as real, r.bytes as real, Window(q), Window(r));
  }

  lemma PressureGrows(q: Request, r: Request)
    requires NoHarder(q, r) && q.nccl >= 0.0
    ensures 0.0 <= Pressure(q) <= Pressure(r)
  {
    FlushBwGrows(q, r);
    QuotientGrows(FlushBw(q) + q.nccl, FlushBw(r) + r.nccl, Ceiling(q), Ceiling(r));
  }

  lemma ProductSign(x: real, n: nat)
    requires n >= 1
    ensures x * n as real >= 0.0 <==> x >= 0.0
  {
    if x < 0.0 { assert x * n as real <= x * 1.0; } else { assert x * n as real >= x * 1.0; }
  }

  lemma HeadroomGrows(q: Request, r: Request)
    requires NoHarder(q, r) && Ceiling(r) - r.nccl >= 0.0
    ensures EffHeadroom(r) <= EffHeadroom(q)
  {
    ProductGrows(Ceiling(r) - r.nccl, Ceiling(q) - q.nccl, Rails(r), Rails(q));
  }

  lemma FittingIsInherited(q: Request, r: Request)
    requires NoHarder(q, r) && Fits(r)
    ensures Fits(q)
  {
    FlushBwGrows(q, r);
    FlushBwGrows(r, r);
    ProductSign(Ceiling(r) - r.nccl, Rails(r));
    HeadroomGrows(q, r);
  }

  /**
   The decision never gets more severe with fewer bytes, a longer window, less NCCL traffic, more idle
   rails or a higher ceiling, all at once.
   */
  lemma SeverityIsMonotone(q: Request, r: Request)
    requires NoHarder(q, r) && q.nccl >= 0.0
    ensures Severity(Route(q)) <= Severity(Route(r))
  {
    PressureGrows(q, r);
    if Fits(r) { FittingIsInherited(q, r); }
  }

  lemma LessThanShare(x: real, c: real, s: real)
    requires c > 0.0
    ensures x / c < s <==> x < s * c
  {
    var p := x / c;
    assert p * c == x;
    if p < s { assert p * c < s * c; } else { assert p * c >= s * c; }
  }

  lemma PerRail(x: real, n: nat)
    requires n >= 1
    ensures x * n as real * 0.85 / n as real == x * 0.85
  {
    assert x * n as real * 0.85 == (x * 0.85) * n as real;
  }

  lemma ProceedLeavesRoom(q: Request)
    requires q.nccl >= 0.0 && Pressure(q) < 0.90
    ensures 0.0 <= FlushBw(q) && FlushBw(q) + q.nccl < 0.90 * Ceiling(q)
  {
    FlushBwGrows(q, q);
    LessThanShare(FlushBw(q) + q.nccl, Ceiling(q), 0.90);
  }

  /** The limited rate, whatever the number of rails. */
  function Limited(q: Request): real { 0.85 * (Ceiling(q) - q.nccl) }

  lemma LimitIsPerRail(q: Request)
    ensures EffHeadroom(q) * 0.85 / Rails(q) as real == Limited(q)
  {
    var headroom := Ceiling(q) - q.nccl;
    PerRail(headroom, Rails(q));
    assert EffHeadroom(q) == headroom * Rails(q) as real;
    assert Limited(q) == headroom * 0.85;
  }

  lemma FittingLeavesHeadroom(q: Request)
    requires Fits(q)
    ensures q.nccl <= Ceiling(q)
  {
    FlushBwGrows(q, q);
    ProductSign(Ceiling(q) - q.nccl, Rails(q));
  }

  lemma LimitLeavesRoom(q: Request)
    requires Fits(q)
    ensures 0.0 <= Limited(q) && Limited(q) + q.nccl <= Ceiling(q)
  {
    FittingLeavesHeadroom(q);
  }

  lemma DeferIsSevere(q: Request)
    requires Pressure(q) >= 1.50
    ensures 1.50 * Ceiling(q) <= FlushBw(q) + q.nccl
  {
    LessThanShare(FlushBw(q) + q.nccl, Ceiling(q), 1.50);
  }

  /** A flush that is let through, at full rate or limited, leaves room for NCCL under the ceiling. */
  lemma RateLeavesRoom(q: Request)
    requires q.nccl >= 0.0
    ensures match Route(q)
            case Proceed(rate) => 0.0 <= rate && rate + q.nccl < 0.90 * Ceiling(q)
            case RateLimit(rate) => 0.0 <= rate && rate + q.nccl <= Ceiling(q) && rate == Limited(q)
            case MicroDelay(ms) => 1.0 <= ms <= 50.0
            case Defer => 1.50 * Ceiling(q) <= FlushBw(q) + q.nccl
  {
    match Route(q)
    case Proceed(_) => ProceedLeavesRoom(q);
    case RateLimit(_) =>
      LimitIsPerRail(q);
      LimitLeavesRoom(q);
    case MicroDelay(_) =>
    case Defer => DeferIsSevere(q);
  }

  /** NCCL bandwidth given up per millisecond of waiting. */
  function Decay(q: Request): real { Max(q.nccl / Max(q.window * 1000.0, 1.0), 1.0) }

  lemma BandwidthTimesWindow(q: Request)
    ensures FlushBw(q) * Window(q) == q.bytes as real
    ensures Window(q) == if q.window > 0.000000001 then q.window else 0.000000001
  {
    assert (q.bytes as real / Window(q)) * Window(q) == q.bytes as real;
  }

  lemma PressureIs(q: Request)
    ensures Pressure(q) < 0.90 <==> FlushBw(q) + q.nccl < 0.90 * Ceiling(q)
    ensures Pressure(q) < 1.50 <==> FlushBw(q) + q.nccl < 1.50 * Ceiling(q)
    ensures Ceiling(q) == if q.ceiling > 0.0 then q.ceiling else 64.0 * 1000.0 * 1000.0 * 1000.0
  {
    LessThanShare(FlushBw(q) + q.nccl, Ceiling(q), 0.90);
    LessThanShare(FlushBw(q) + q.nccl, Ceiling(q), 1.50);
  }

  lemma FitsIs(q: Request)
    ensures Fits(q) <==> q.idle > 0 && FlushBw(q) <= (Ceiling(q) - q.nccl) * q.idle as real
  {
    assert q.idle > 0 ==> Rails(q) == q.idle;
  }

  /** The parameter of a decision: the full bandwidth, 85 % of what NCCL leaves, or the delay. */
  lemma DecisionCarries(q: Request)
    ensures FlushBw(q) * Window(q) == q.bytes as real
    ensures match Route(q)
            case Proceed(rate) => rate == FlushBw(q)
            case RateLimit(rate) => rate == 0.85 * (Ceiling(q) - q.nccl)
            case MicroDelay(ms) => ms == Delay(q)
            case Defer => true
  {
    BandwidthTimesWindow(q);
    LimitIsPerRail(q);
  }

  /** The decision: proceed below 90 % of the ceiling; else limit, if the flush fits into what NCCL leaves
      of the idle rails; else wait below 150 %; else defer. */
  lemma DecisionExactlyWhen(q: Request)
    ensures var d, f, c := Route(q), FlushBw(q), Ceiling(q);
            var fits := q.idle > 0 && f <= (c - q.nccl) * q.idle as real;
            && (d.Proceed? <==> f + q.nccl < 0.90 * c)
            && (d.RateLimit? <==> f + q.nccl >= 0.90 * c && fits)
            && (d.MicroDelay? <==> 0.90 * c <= f + q.nccl < 1.50 * c && !fits)
            && (d.Defer? <==> f + q.nccl >= 1.50 * c && !fits)
  {
    PressureIs(q);
    FitsIs(q);
    CeilingShares(q);
  }

  lemma CeilingShares(q: Request)
    ensures 0.90 * Ceiling(q) < 1.50 * Ceiling(q)
  {
  }

  /** Decay is NCCL's bandwidth spread over the milliseconds of the window, one at least of either. */
  lemma DecayIsPerMillisecond(q: Request)
    ensures var ms := Max(q.window * 1000.0, 1.0);
            if q.nccl <= ms then Decay(q) == 1.0 else Decay(q) * ms == q.nccl && Decay(q) > 1.0
  {
    var ms := Max(q.window * 1000.0, 1.0);
    var x := q.nccl / ms;
    assert x * ms == q.nccl;
    if q.nccl <= ms { FactorOrder(x, 1.0, ms); } else if x <= 1.0 { assert x * ms <= 1.0 * ms; }
  }

  lemma ShareOrder(x: real, y: real, d: real)
    requires d > 0.0
    ensures x <= y <==> x * d <= y * d
  {
    if x <= y { Spare(y - x, d); } else { FactorOrder(y, x, d); assert (x - y) * d > 0.0; }
  }

  lemma Limits(deficit: real, decay: real)
    requires decay > 0.0
    ensures var ms := Max(1.0, Min(50.0, deficit / decay));
            && (deficit <= decay ==> ms == 1.0)
            && (decay <= deficit <= 50.0 * decay ==> ms * decay == deficit)
            && (50.0 * decay <= deficit ==> ms == 50.0)
  {
    var x := deficit / decay;
    assert x * decay == deficit;
    ShareOrder(x, 1.0, decay);
    ShareOrder(1.0, x, decay);
    ShareOrder(x, 50.0, decay);
    ShareOrder(50.0, x, decay);
  }

  /** The delay in full: the time in which the missing bandwidth is given up, but 1 ms if that is
      shorter and 50 ms if it is longer. */
  lemma DelayIsTheDeficit(q: Request)
    ensures var deficit, decay := FlushBw(q) + q.nccl - Ceiling(q), Decay(q);
            && (deficit <= decay ==> Delay(q) == 1.0)
            && (decay <= deficit <= 50.0 * decay ==> Delay(q) * decay == deficit)
            && (50.0 * decay <= deficit ==> Delay(q) == 50.0)
  {
    Limits(FlushBw(q) + q.nccl - Ceiling(q), Decay(q));
  }

  /** A delay strictly inside its limits is the time in which the missing bandwidth is given up. */
  lemma DelayFreesTheDeficit(q: Request)
    requires 1.0 < Delay(q) < 50.0
    ensures Delay(q) * Decay(q) == FlushBw(q) + q.nccl - Ceiling(q)
  {
    var deficit := FlushBw(q) + q.nccl - Ceiling(q);
    assert Delay(q) == deficit / Decay(q);
    assert (deficit / Decay(q)) * Decay(q) == deficit;
  }

  lemma QuotientOrder(x: real, y: real, d: real)
    requires d > 0.0 && x <= y
    ensures x / d <= y / d
  {
    assert (x / d) * d == x && (y / d) * d == y;
    FactorOrder(x / d, y / d, d);
  }

  /** More bytes never make the delay shorter. */
  lemma DelayGrowsWithBytes(q: Request, bytes: nat)
    requires q.bytes <= bytes
    ensures Delay(q) <= Delay(q.(bytes := bytes))
  {
    var r := q.(bytes := bytes);
    FlushBwGrows(q, r);
    QuotientOrder(FlushBw(q) + q.nccl - Ceiling(q), FlushBw(r) + q.nccl - Ceiling(q), Decay(q));
  }

  /** The bands of the class documentation, by pressure alone. */
  function DocumentedSeverity(pressure: real): nat {
    if pressure < 0.90 then 0 else if pressure < 1.10 then 1 else if pressure < 1.50 then 2 else 3
  }

  /** The code keeps to those bands exactly when the flush fits its rails just below pressure 1.10. */
  lemma BandsHoldExactlyWhen(q: Request)
    ensures Severity(Route(q)) == DocumentedSeverity(Pressure(q))
       <==> Pressure(q) < 0.90 || (Fits(q) <==> Pressure(q) < 1.10)
  {
  }

  /** With one idle rail, fitting means a pressure of at most one: above it the flush waits. */
  lemma OneRailFits(q: Request)
    requires q.idle == 1
    ensures Fits(q) <==> Pressure(q) <= 1.0
  {
    var x, c := FlushBw(q) + q.nccl, Ceiling(q);
    var p := x / c;
    assert p * c == x;
    if p <= 1.0 { assert p * c <= 1.0 * c; } else { assert p * c > 1.0 * c; }
  }

  /** With three idle rails a flush at pressure 1.6 is limited rather than deferred. */
  lemma SevereButLimited()
    ensures var q := Request(64_000_000_000, 1.0, 38_400_000_000.0, 3, 0.0);
            Pressure(q) == 1.6 && Route(q).RateLimit? && DocumentedSeverity(Pressure(q)) == 3
  {
    var q := Request(64_000_000_000, 1.0, 38_400_000_000.0, 3, 0.0);
    assert Window(q) == 1.0 && FlushBw(q) == 64_000_000_000.0;
    assert Rails(q) as real == 3.0;
  }

  // ---------------------------------------------------------------------------------------
  // Token bucket
  // ---------------------------------------------------------------------------------------

  datatype Bucket = Bucket(rate: real, capacity: real, tokens: real, last: real) {
    predicate Valid() { rate >= 0.0 && 0.0 <= tokens <= capacity }

    function Refilled(now: real): (b: Bucket)
      requires Valid() && now >= last
      ensures b.Valid() && b.rate == rate && b.capacity == capacity && b.last == now
      ensures tokens <= b.tokens <= tokens + Earned(rate, now - last)
    {
      EarnedGrowsWithTime(rate, 0.0, now - last);
      Bucket(rate, capacity, Min(capacity, tokens + Earned(rate, now - last)), now)
    }

    /** One pass of the loop in `acquire`, under the lock. */
    function Tried(now: real, n: real): (b: Bucket)
      requires Valid() && now >= last && n >= 0.0
      ensures b.Valid() && b.rate == rate && b.capacity == capacity && b.last == now
    {
      var b := Refilled(now);
      if b.tokens >= n then b.(tokens := b.tokens - n) else b
    }

    function Granted(now: real, n: real): (g: real)
      requires Valid() && now >= last && n >= 0.0
      ensures 0.0 <= g && g + Tried(now, n).tokens == Refilled(now).tokens
    {
      if Refilled(now).tokens >= n then n else 0.0
    }
  }

  /** A refill earns rate times the time passed, unless the bucket is full before. */
  lemma RefillIsExact(b: Bucket, now: real)
    requires b.Valid() && now >= b.last
    ensures var earned, t := b.rate * (now - b.last), b.Refilled(now).tokens;
            if b.tokens + earned <= b.capacity then t == b.tokens + earned else t == b.capacity
  {
  }

  /** `capacity or rate * 0.1`: a capacity of zero counts as none given. */
  function NewBucket(rate: real, capacity: real, now: real): (b: Bucket)
    requires rate >= 0.0 && capacity >= 0.0
    ensures b.Valid() && b.rate == rate && b.last == now && b.tokens == b.capacity
    ensures if capacity > 0.0 then b.capacity == capacity else 10.0 * b.capacity == rate
  {
    var c := if capacity == 0.0 then rate * 0.1 else capacity;
    Bucket(rate, c, c, now)
  }

  /** Passes of any number of callers, and rate changes, which do not refill. */
  datatype Run =
    | Start(first: Bucket)
    | Try(before: Run, now: real, n: real)
    | SetRate(before: Run, rate: real, now: real)

  /** The moment of the last call. */
  function Clock(r: Run): real {
    match r
    case Start(b) => b.last
    case Try(_, now, _) => now
    case SetRate(_, _, now) => now
  }

  predicate Legal(r: Run)
    decreases r, 0
  {
    match r
    case Start(b) => b.Valid()
    case Try(q, now, n) => Legal(q) && now >= Clock(q) && n >= 0.0
    case SetRate(q, rate, now) => Legal(q) && now >= Clock(q) && rate >= 0.0
  }

  function End(r: Run): (b: Bucket)
    requires Legal(r)
    ensures b.Valid() && b.last <= Clock(r)
    decreases r, 1
  {
    match r
    case Start(b) => b
    case Try(q, now, n) => End(q).Tried(now, n)
    case SetRate(q, rate, _) => End(q).(rate := rate)
  }

  function TotalGranted(r: Run): real
    requires Legal(r)
  {
    match r
    case Start(_) => 0.0
    case Try(q, now, n) => TotalGranted(q) + End(q).Granted(now, n)
    case SetRate(q, _, _) => TotalGranted(q)
  }

  predicate Extends(q: Run, r: Run) {
    q == r || (!r.Start? && Extends(q, r.before))
  }

  // The highest rate in force.

  /** No rate in force from q to the end of r exceeds `most`. */
  predicate RatesAtMost(q: Run, r: Run, most: real)
    requires Legal(q) && Legal(r)
  {
    End(r).rate <= most && (q == r || r.Start? || RatesAtMost(q, r.before, most))
  }

  lemma StepIsPaid(b: Bucket, now: real, n: real, most: real)
    requires b.Valid() && now >= b.last && n >= 0.0 && b.rate <= most
    ensures b.Granted(now, n) <= b.tokens - b.Tried(now, n).tokens + Earned(most, now - b.last)
  {
    EarnedGrowsWithRate(b.rate, most, now - b.last);
  }

  /** What is granted between two moments is paid by tokens spent and by time at the highest rate. */
  lemma {:induction false} GrantsArePaid(q: Run, r: Run, most: real)
    requires Legal(q) && Legal(r) && Extends(q, r) && RatesAtMost(q, r, most)
    ensures End(r).capacity == End(q).capacity && End(q).last <= End(r).last
    ensures TotalGranted(r) - TotalGranted(q)
         <= End(q).tokens - End(r).tokens + Earned(most, End(r).last - End(q).last)
    decreases r
  {
    if q == r {
      assert Earned(most, 0.0) == 0.0;
    } else {
      GrantsArePaid(q, r.before, most);
      if r.Try? {
        StepIsPaid(End(r.before), r.now, r.n, most);
        EarnedAdds(most, End(r.before).last - End(q).last, r.now - End(r.before).last);
      }
    }
  }

  /**
   Over any window of any run, starting with a pass of some caller: at most capacity + most * elapsed
   bytes are granted, however the rate is changed below `most`.
   */
  lemma WindowIsBounded(q: Run, r: Run, most: real)
    requires Legal(q) && Legal(r) && q.Try? && Extends(q, r) && RatesAtMost(q, r, most)
    ensures TotalGranted(r) - TotalGranted(q.before)
         <= End(q).capacity + Earned(most, End(r).last - End(q).last)
  {
    GrantsArePaid(q, r, most);
  }

  // The rate in force at each moment.

  /** The integral of the rate in force, from the start of the run to its last call. */
  function InForce(r: Run): real
    requires Legal(r)
  {
    match r
    case Start(_) => 0.0
    case Try(q, now, _) => InForce(q) + Earned(End(q).rate, now - Clock(q))
    case SetRate(q, _, now) => InForce(q) + Earned(End(q).rate, now - Clock(q))
  }

  /** The part of that integral since the last refill. */
  function Pending(r: Run): (p: real)
    requires Legal(r)
    ensures p >= 0.0
  {
    match r
    case Start(_) => 0.0
    case Try(_, _, _) => 0.0
    case SetRate(q, _, now) =>
      EarnedGrowsWithTime(End(q).rate, 0.0, now - Clock(q));
      Pending(q) + Earned(End(q).rate, now - Clock(q))
  }

  /** The rate does not exceed the average rate in force from the last refill to the last call. */
  predicate Fair(r: Run)
    requires Legal(r)
  {
    Earned(End(r).rate, Clock(r) - End(r).last) <= Pending(r)
  }

  /** What the rate in force earns from the last refill to a refill at the given moment. */
  function Due(r: Run, now: real): real
    requires Legal(r)
  {
    Pending(r) + Earned(End(r).rate, now - Clock(r))
  }

  /** A refill that credits no more than is due. */
  predicate RefillIsDue(r: Run, now: real)
    requires Legal(r) && now >= Clock(r)
  {
    Fair(r) || End(r).capacity - End(r).tokens <= Due(r, now)
  }

  /**
   A refill credits no more than the rate in force has earned since the last one if and only if the
   rate is fair, or the bucket fills up before it matters.
   */
  lemma RefillIsDueExactlyWhen(r: Run, now: real)
    requires Legal(r) && now >= Clock(r)
    ensures End(r).Refilled(now).tokens - End(r).tokens <= Due(r, now) <==> RefillIsDue(r, now)
  {
    EarnedAdds(End(r).rate, Clock(r) - End(r).last, now - Clock(r));
  }

  /** Every refill after q is due. */
  predicate AllDue(q: Run, r: Run)
    requires Legal(r)
  {
    q == r || r.Start? || (AllDue(q, r.before) && (r.Try? ==> RefillIsDue(r.before, r.now)))
  }

  lemma {:induction false} GrantsAreInForce(q: Run, r: Run)
    requires Legal(q) && Legal(r) && Extends(q, r) && AllDue(q, r)
    ensures End(r).capacity == End(q).capacity
    ensures TotalGranted(r) - TotalGranted(q)
         <= End(q).tokens - End(r).tokens + (InForce(r) - Pending(r)) - (InForce(q) - Pending(q))
    decreases r
  {
    if q != r {
      GrantsAreInForce(q, r.before);
      if r.Try? { RefillIsDueExactlyWhen(r.before, r.now); }
    }
  }

  /**
   If every refill of a window is due, the bytes granted in it are within capacity plus the integral of
   the rate in force.
   */
  lemma RateInForceBounds(q: Run, r: Run)
    requires Legal(q) && Legal(r) && q.Try? && Extends(q, r) && AllDue(q, r)
    ensures TotalGranted(r) - TotalGranted(q.before) <= End(q).capacity + InForce(r) - InForce(q)
  {
    GrantsAreInForce(q, r);
  }

  /** After q the rate is only ever lowered, or raised at the moment of a refill. */
  predicate Careful(q: Run, r: Run)
    requires Legal(r)
  {
    q == r || r.Start?
    || (Careful(q, r.before)
        && (r.SetRate? ==> r.rate <= End(r.before).rate || r.now == End(r.before).last))
  }

  lemma LoweringIsFair(b: Run, rate: real, now: real)
    requires Legal(b) && Fair(b) && 0.0 <= rate <= End(b).rate && now >= Clock(b)
    ensures Fair(SetRate(b, rate, now))
  {
    EarnedGrowsWithRate(rate, End(b).rate, now - End(b).last);
    EarnedAdds(End(b).rate, Clock(b) - End(b).last, now - Clock(b));
  }

  /** Raising the rate only right after a refill is enough: every refill is then due. */
  lemma {:induction false} CarefulIsDue(q: Run, r: Run)
    requires Legal(q) && Legal(r) && Extends(q, r) && Careful(q, r) && Fair(q)
    ensures Fair(r) && AllDue(q, r)
    decreases r
  {
    if q != r {
      var b := r.before;
      CarefulIsDue(q, b);
      if r.SetRate? && r.rate <= End(b).rate { LoweringIsFair(b, r.rate, r.now); }
      if r.SetRate? && r.now == End(b).last { assert Earned(r.rate, 0.0) == 0.0; }
    }
  }

  /** Only rate changes lie between q and r. */
  predicate OnlyRates(q: Run, r: Run) {
    q == r || (r.SetRate? && OnlyRates(q, r.before))
  }

  lemma {:induction false} RatesMoveNoTokens(q: Run, r: Run)
    requires Legal(q) && Legal(r) && OnlyRates(q, r)
    ensures End(r) == End(q).(rate := End(r).rate) && TotalGranted(r) == TotalGranted(q)
    ensures Pending(r) - Pending(q) == InForce(r) - InForce(q)
    decreases r
  {
    if q != r { RatesMoveNoTokens(q, r.before); }
  }

  /**
   The condition is exact: after a pass that took a full bucket, and any rate changes, a caller that takes
   all there is stays within capacity plus the rate in force if and only if that refill is due.
   */
  lemma DrainedWindowExactly(q: Run, r: Run, now: real)
    requires Legal(q) && Legal(r) && q.Try? && OnlyRates(q, r) && now >= Clock(r)
    requires TotalGranted(q) - TotalGranted(q.before) == End(q).capacity
    ensures var w := Try(r, now, End(r).Refilled(now).tokens);
            Legal(w)
            && (TotalGranted(w) - TotalGranted(q.before) <= End(q).capacity + InForce(w) - InForce(q)
                <==> RefillIsDue(r, now))
  {
    RatesMoveNoTokens(q, r);
    assert End(q).tokens == 0.0;
    RefillIsDueExactlyWhen(r, now);
  }

  lemma FullBucket(b: Bucket)
    requires b.Valid() && b.tokens == b.capacity
    ensures b.Granted(b.last, b.capacity) == b.capacity && b.Tried(b.last, b.capacity) == b.(tokens := 0.0)
  {
    assert Earned(b.rate, b.last - b.last) == 0.0;
  }

  lemma IdleBucket(b: Bucket, now: real)
    requires b.Valid() && now >= b.last && b.tokens == 0.0 && Earned(b.rate, now - b.last) >= b.capacity
    ensures b.Granted(now, b.capacity) == b.capacity
  {
    assert b.Refilled(now).tokens == b.capacity;
  }

  lemma OneRaise(q: Run, high: real, now: real)
    requires Legal(q) && Clock(q) == End(q).last <= now && End(q).rate == 0.0 && End(q).tokens == 0.0
    requires high >= 0.0 && Earned(high, now - Clock(q)) >= End(q).capacity
    ensures var r := Try(SetRate(q, high, now), now, End(q).capacity);
            Legal(r) && TotalGranted(r) == TotalGranted(q) + End(q).capacity && InForce(r) == InForce(q)
  {
    var s := SetRate(q, high, now);
    IdleBucket(End(s), now);
    assert Earned(0.0, now - Clock(q)) == 0.0 && Earned(high, now - now) == 0.0;
  }

  /**
   So a raise reaches back: a bucket drained at moment 0 idles at rate zero until t, and a raise at t fills
   it at once, if the new rate had done so since 0.  Twice the capacity is granted, and the rate in
   force has earned nothing.
   */
  lemma RateChangesReachBack(capacity: real, high: real, t: real)
    requires capacity >= 0.0 && t >= 0.0 && high >= 0.0 && Earned(high, t) >= capacity
    ensures var q := Try(Start(Bucket(0.0, capacity, capacity, 0.0)), 0.0, capacity);
            var r := Try(SetRate(q, high, t), t, capacity);
            Legal(r) && TotalGranted(r) == capacity + capacity && InForce(r) == 0.0
  {
    var b := Bucket(0.0, capacity, capacity, 0.0);
    FullBucket(b);
    assert Earned(0.0, 0.0 - 0.0) == 0.0;
    OneRaise(Try(Start(b), 0.0, capacity), high, t);
  }

  // ---------------------------------------------------------------------------------------
  // The object
  // ---------------------------------------------------------------------------------------

  datatype Outcome = Acquired | TimedOut | StillWaiting

  /** The clock readings of one pass: at the refill, and at the deadline check. */
  datatype Pass = Pass(refill: real, check: real)

  /** The passes of one caller nobody interferes with. */
  function Tries(r: Run, passes: seq<Pass>, n: real): Run {
    if passes == [] then r else Try(Tries(r, passes[..|passes| - 1], n), passes[|passes| - 1].refill, n)
  }

  ghost predicate Ascending(passes: seq<Pass>, from: real) {
    (passes != [] ==> from <= passes[0].refill)
    && forall i, j | 0 <= i < j < |passes| :: passes[i].refill <= passes[j].refill
  }

  class TokenBucket {
    var rate: real
    const capacity: real
    var tokens: real
    var last: real

    /** The calls made so far. */
    ghost var history: Run

    ghost predicate Valid()
      reads this
    {
      Legal(history) && End(history) == Bucket(rate, capacity, tokens, last)
    }

    constructor (rate: real, capacity: real, now: real)
      requires rate >= 0.0 && capacity >= 0.0
      ensures Valid() && history == Start(NewBucket(rate, capacity, now))
    {
      this.rate := rate;
      var c := if capacity == 0.0 then rate * 0.1 else capacity;
      this.capacity := c;
      tokens := c;
      last := now;
      history := Start(NewBucket(rate, capacity, now));
    }

    /** The source reads no clock here; `now` is the moment of the call. */
    method SetTheRate(rate: real, ghost now: real)
      requires Valid() && rate >= 0.0 && now >= Clock(history)
      modifies this
      ensures Valid() && history == SetRate(old(history), rate, now)
    {
      this.rate := rate;
      history := SetRate(history, rate, now);
    }

    /** One pass: refill, and take n bytes if they are there. */
    method TryOnce(n: real, now: real) returns (ok: bool)
      requires Valid() && n >= 0.0 && now >= Clock(history)
      modifies this
      ensures Valid() && last == now && history == Try(old(history), now, n)
      ensures ok <==> End(old(history)).Refilled(now).tokens >= n
    {
      history := Try(history, now, n);
      tokens := Min(capacity, tokens + Earned(rate, now - last));
      last := now;
      ok := tokens >= n;
      if ok { tokens := tokens - n; }
    }

    /** Pass after pass until the bytes are there or the deadline is over; the readings given may end
        before either. */
    method Acquire(n: real, deadline: real, passes: seq<Pass>) returns (outcome: Outcome, ghost used: nat)
      requires Valid() && n >= 0.0 && Ascending(passes, Clock(history))
      modifies this
      ensures Valid() && used <= |passes| && history == Tries(old(history), passes[..used], n)
      ensures TotalGranted(history) == TotalGranted(old(history)) + if outcome == Acquired then n else 0.0
      ensures outcome == TimedOut ==> used > 0 && passes[used - 1].check >= deadline
      ensures outcome == StillWaiting ==> used == |passes|
      ensures forall i | 0 <= i < used && (i < used - 1 || outcome == StillWaiting) :: passes[i].check < deadline
    {
      var i := 0;
      while i < |passes|
        invariant 0 <= i <= |passes| && Valid() && history == Tries(old(history), passes[..i], n)
        invariant i > 0 ==> Clock(history) == passes[i - 1].refill
        invariant i == 0 ==> history == old(history)
        invariant TotalGranted(history) == TotalGranted(old(history))
        invariant forall j | 0 <= j < i :: passes[j].check < deadline
      {
        assert passes[..i + 1][..i] == passes[..i];
        var ok := TryOnce(n, passes[i].refill);
        i := i + 1;
        if ok { return Acquired, i; }
        if passes[i - 1].check >= deadline { return TimedOut, i; }
      }
      assert passes[..|passes|] == passes;
      return StillWaiting, i;
    }
  }
}
