/** The byte-rate limiter of src/pacing_daemon/token_bucket.hpp: doubles are reals, the steady
    clock is an input of each call and need not be monotone. */
module TokenBucketModel {

  /** `rate` is in bytes per nanosecond, `last` is the time of the last refill. */
  datatype Bucket = Bucket(rate: real, burst: real, tokens: real, last: nat) {
    predicate Valid() {
      rate >= 0.0 && 0.0 <= tokens <= burst
    }

    /** Tokens earned since the last refill, capped; a clock that stands still or runs back
        earns nothing. */
    function Refilled(now: nat): (b: Bucket)
      requires Valid()
      ensures b.Valid() && b.rate == rate && b.burst == burst
      ensures b.last == if now > last then now else last
      ensures tokens <= b.tokens <= tokens + Earned(rate, b.last - last)
      ensures b.tokens == burst || b.tokens == tokens + Earned(rate, b.last - last)
    {
      if now <= last then this
      else
        var next := tokens + Earned(rate, now - last);
        Bucket(rate, burst, if next < burst then next else burst, now)
    }

    /** What `try_consume(want)` takes out of the bucket, as a real amount. */
    function Taken(now: nat, want: nat): (g: real)
      requires Valid()
      ensures 0.0 <= g <= Refilled(now).tokens && g <= want as real
      ensures g == want as real || g == Refilled(now).tokens
    {
      var avail := Refilled(now).tokens;
      if want as real <= avail then want as real else avail
    }

    function Consumed(now: nat, want: nat): (b: Bucket)
      requires Valid()
      ensures b.Valid() && b.rate == rate && b.burst == burst && b.last == Refilled(now).last
      ensures b.tokens + Taken(now, want) == Refilled(now).tokens
    {
      var b := Refilled(now);
      b.(tokens := b.tokens - Taken(now, want))
    }

    /** The bytes `try_consume` reports as granted: a fractional grant is cut to whole bytes. */
    function Grant(now: nat, want: nat): (g: nat)
      requires Valid()
      ensures g as real <= Taken(now, want) < g as real + 1.0 && g <= want
    {
      Taken(now, want).Floor
    }
  }

  /** A call is granted nothing exactly if it wants nothing or the bucket holds less than one byte. */
  lemma GrantedSomethingExactlyWhen(b: Bucket, now: nat, want: nat)
    requires b.Valid()
    ensures b.Grant(now, want) > 0 <==> want > 0 && b.Refilled(now).tokens >= 1.0
  {
  }

  /** rate * ns, counted nanosecond by nanosecond; EarnedIsProduct says that it is the product. */
  function Earned(rate: real, ns: nat): (e: real)
    ensures rate >= 0.0 ==> e >= 0.0
  {
    if ns == 0 then 0.0 else Earned(rate, ns - 1) + rate
  }

  lemma {:induction false} EarnedIsProduct(rate: real, ns: nat)
    ensures Earned(rate, ns) == rate * ns as real
  {
    if ns > 0 {
      EarnedIsProduct(rate, ns - 1);
      assert ns as real == (ns - 1) as real + 1.0;
      assert rate * ((ns - 1) as real + 1.0) == rate * (ns - 1) as real + rate;
    }
  }

  lemma {:induction false} EarnedAdds(rate: real, a: nat, b: nat)
    ensures Earned(rate, a) + Earned(rate, b) == Earned(rate, a + b)
  {
    if b > 0 {
      EarnedAdds(rate, a, b - 1);
    }
  }

  // ---------------------------------------------------------------------------------------
  // Rate bound over every window of every run
  // ---------------------------------------------------------------------------------------

  /** A bucket built full, then a sequence of `try_consume` calls. */
  datatype Run = Start(first: Bucket) | Then(before: Run, now: nat, want: nat)

  predicate Legal(r: Run) {
    match r
    case Start(b) => b.Valid()
    case Then(q, _, _) => Legal(q)
  }

  function End(r: Run): (b: Bucket)
    requires Legal(r)
    ensures b.Valid()
  {
    match r
    case Start(b) => b
    case Then(q, now, want) => End(q).Consumed(now, want)
  }

  function Granted(r: Run): nat
    requires Legal(r)
  {
    match r
    case Start(_) => 0
    case Then(q, now, want) => Granted(q) + End(q).Grant(now, want)
  }

  predicate Extends(r: Run, q: Run) {
    r == q || (r.Then? && Extends(r.before, q))
  }

  lemma StepPaysForItsGrant(b: Bucket, now: nat, want: nat)
    requires b.Valid()
    ensures b.last <= b.Consumed(now, want).last
    ensures b.Grant(now, want) as real
              <= b.tokens - b.Consumed(now, want).tokens + Earned(b.rate, b.Consumed(now, want).last - b.last)
  {
  }

  /** From bucket a to bucket b the given bytes were paid by the tokens spent and the time passed. */
  ghost predicate Ledger(a: Bucket, granted: int, b: Bucket) {
    a.rate == b.rate && a.burst == b.burst && a.last <= b.last
    && granted as real <= a.tokens - b.tokens + Earned(a.rate, b.last - a.last)
  }

  /** Grants between two moments are paid by the tokens spent and the time passed. */
  lemma {:induction false} GrantsArePaid(q: Run, r: Run)
    requires Legal(q) && Legal(r) && Extends(r, q)
    ensures Ledger(End(q), Granted(r) - Granted(q), End(r))
  {
    if r != q {
      GrantsArePaid(q, r.before);
      StepKeepsLedger(End(q), Granted(r.before) - Granted(q), End(r.before), r.now, r.want);
    }
  }

  /** The ledger entry of one more call. */
  lemma StepKeepsLedger(a: Bucket, granted: int, b: Bucket, now: nat, want: nat)
    requires a.Valid() && b.Valid() && Ledger(a, granted, b)
    ensures Ledger(a, granted + b.Grant(now, want), b.Consumed(now, want))
  {
    StepPaysForItsGrant(b, now, want);
    EarnedAdds(b.rate, b.last - a.last, b.Consumed(now, want).last - b.last);
  }

  /** What the burst cuts off the credits of a run. */
  function CutOff(r: Run): real
    requires Legal(r)
  {
    match r
    case Start(_) => 0.0
    case Then(q, now, _) =>
      var b := End(q).Refilled(now);
      CutOff(q) + (End(q).tokens + Earned(b.rate, b.last - End(q).last) - b.tokens)
  }

  /** What is taken for grants of whole bytes, and not granted. */
  function Crumbs(r: Run): real
    requires Legal(r)
  {
    match r
    case Start(_) => 0.0
    case Then(q, now, want) => Crumbs(q) + (End(q).Taken(now, want) - End(q).Grant(now, want) as real)
  }

  function First(r: Run): (b: Bucket)
    requires Legal(r)
    ensures b.Valid()
  {
    match r
    case Start(b) => b
    case Then(q, _, _) => First(q)
  }

  /** What became of the tokens from bucket a to bucket b. */
  ghost predicate Accounted(a: Bucket, granted: nat, crumbs: real, cutOff: real, b: Bucket) {
    a.rate == b.rate && a.burst == b.burst && a.last <= b.last && crumbs >= 0.0 && cutOff >= 0.0
    && granted as real + crumbs + cutOff + b.tokens == a.tokens + Earned(a.rate, b.last - a.last)
  }

  lemma StepIsAccounted(a: Bucket, granted: nat, crumbs: real, cutOff: real, b: Bucket, now: nat, want: nat)
    requires a.Valid() && b.Valid() && Accounted(a, granted, crumbs, cutOff, b)
    ensures var c := b.Refilled(now);
            Accounted(a, granted + b.Grant(now, want), crumbs + (b.Taken(now, want) - b.Grant(now, want) as real),
                      cutOff + (b.tokens + Earned(c.rate, c.last - b.last) - c.tokens), b.Consumed(now, want))
  {
    EarnedAdds(b.rate, b.last - a.last, b.Refilled(now).last - b.last);
  }

  /** In every run the bytes granted, the fractions not granted, the tokens cut off by the burst and the
      tokens left are exactly the first tokens and what the time has earned. */
  lemma {:induction false} TokensAreAccounted(r: Run)
    requires Legal(r)
    ensures Accounted(First(r), Granted(r), Crumbs(r), CutOff(r), End(r))
  {
    match r
    case Start(_) =>
    case Then(q, now, want) =>
      TokensAreAccounted(q);
      StepIsAccounted(First(q), Granted(q), Crumbs(q), CutOff(q), End(q), now, want);
  }

  /** The first call of a window grants no more than the tokens it finds. */
  lemma FirstGrant(q: Run, now: nat, want: nat)
    requires Legal(q)
    ensures End(q).Grant(now, want) as real + End(Then(q, now, want)).tokens <= End(q).burst
  {
  }

  /** From bucket a to bucket b, at most burst + rate * elapsed bytes were granted. */
  ghost predicate Bounded(a: Bucket, granted: int, b: Bucket) {
    a.rate == b.rate && a.burst == b.burst && a.last <= b.last
    && granted as real <= a.burst + Earned(a.rate, b.last - a.last)
  }

  lemma LedgerBounds(a: Bucket, first: nat, granted: int, b: Bucket)
    requires b.Valid() && Ledger(a, granted, b) && first as real + a.tokens <= a.burst
    ensures Bounded(a, first + granted, b)
  {
  }

  /** In any window of any run, from the call `Then(q, now, want)` to the end of r, the bytes
      granted are at most burst + rate * elapsed. */
  lemma RateBound(q: Run, now: nat, want: nat, r: Run)
    requires Legal(q) && Legal(r) && Extends(r, Then(q, now, want))
    ensures End(Then(q, now, want)).rate == End(q).rate && End(Then(q, now, want)).burst == End(q).burst
    ensures Bounded(End(Then(q, now, want)), Granted(r) - Granted(q), End(r))
  {
    var w := Then(q, now, want);
    GrantsArePaid(w, r);
    FirstGrant(q, now, want);
    LedgerBounds(End(w), End(q).Grant(now, want), Granted(r) - Granted(w), End(r));
  }

  /** With a clock that never runs back the elapsed time of the bound is the time between the
      first and the last call of the window. */
  lemma LastIsLatest(r: Run)
    requires Legal(r) && r.Then?
    ensures End(r).last >= r.now
    ensures r.now >= End(r.before).last ==> End(r).last == r.now
  {
  }

  // ---------------------------------------------------------------------------------------
  // Callers that act on any grant at all
  // ---------------------------------------------------------------------------------------

  /** Bytes asked for by the calls that were granted something: what a caller moves if it takes a
      partial grant as leave to move everything. */
  function Asked(r: Run): nat
    requires Legal(r)
  {
    match r
    case Start(_) => 0
    case Then(q, now, want) => Asked(q) + (if End(q).Grant(now, want) > 0 then want else 0)
  }

  /** The refilled bucket holds what is wanted, or not even one byte. */
  predicate AllOrNone(b: Bucket, now: nat, want: nat)
    requires b.Valid()
  {
    want as real <= b.Refilled(now).tokens || b.Refilled(now).tokens < 1.0
  }

  /** Exactly then a call is granted all or nothing. */
  lemma AllOrNoneExactlyWhen(b: Bucket, now: nat, want: nat)
    requires b.Valid()
    ensures b.Grant(now, want) in {0, want} <==> AllOrNone(b, now, want)
  {
  }

  /** From q on, every call found all it wanted, or not even one byte. */
  predicate AllOrNothing(q: Run, r: Run)
    requires Legal(r)
  {
    r == q || (r.Then? && AllOrNone(End(r.before), r.now, r.want) && AllOrNothing(q, r.before))
  }

  /** Bytes asked for beyond those granted, by calls that were granted something. */
  function Shortfall(r: Run): nat
    requires Legal(r)
  {
    match r
    case Start(_) => 0
    case Then(q, now, want) =>
      var grant := End(q).Grant(now, want);
      Shortfall(q) + (if grant > 0 then want - grant else 0)
  }

  lemma {:induction false} AskedIsGrantedAndShort(r: Run)
    requires Legal(r)
    ensures Asked(r) == Granted(r) + Shortfall(r)
  {
    match r
    case Start(_) =>
    case Then(q, _, _) => AskedIsGrantedAndShort(q);
  }

  /** Nothing falls short from q to r exactly if every call found all it wanted, or not one byte. */
  lemma {:induction false} NothingIsShortExactlyWhen(q: Run, r: Run)
    requires Legal(q) && Legal(r) && Extends(r, q)
    ensures Shortfall(q) <= Shortfall(r)
    ensures Shortfall(r) == Shortfall(q) <==> AllOrNothing(q, r)
  {
    if r != q {
      NothingIsShortExactlyWhen(q, r.before);
      AllOrNoneExactlyWhen(End(r.before), r.now, r.want);
      NoSelfExtension(q, r);
    }
  }

  lemma {:induction false} NoSelfExtension(q: Run, r: Run)
    requires Extends(r, q) && r != q
    ensures r.Then? && Extends(r.before, q)
  {
  }

  predicate WantsAtMost(r: Run, most: nat) {
    r.Then? ==> r.want <= most && WantsAtMost(r.before, most)
  }

  /** most * k, counted up; ScaledIsProduct says that it is the product. */
  function Scaled(most: nat, k: nat): nat {
    if k == 0 then 0 else Scaled(most, k - 1) + most
  }

  lemma {:induction false} ScaledIsProduct(most: nat, k: nat)
    ensures Scaled(most, k) == most * k
  {
    if k > 0 {
      ScaledIsProduct(most, k - 1);
      assert most * k == most * (k - 1) + most;
    }
  }

  lemma {:induction false} ScaledGrows(most: nat, k: nat, k': nat)
    requires k <= k'
    ensures Scaled(most, k) <= Scaled(most, k') && (k < k' ==> Scaled(most, k) + most <= Scaled(most, k'))
    decreases k'
  {
    if k < k' {
      ScaledGrows(most, k, k' - 1);
    }
  }

  /** The bytes asked for are the bytes granted exactly if every call found all it wanted, or not one byte. */
  lemma FullGrantsCoverAsked(q: Run, r: Run)
    requires Legal(q) && Legal(r) && Extends(r, q)
    ensures Asked(r) - Asked(q) == Granted(r) - Granted(q) <==> AllOrNothing(q, r)
  {
    AskedIsGrantedAndShort(q);
    AskedIsGrantedAndShort(r);
    NothingIsShortExactlyWhen(q, r);
  }

  /** Each of the granted bytes pays for at most `most` of the bytes asked for. */
  ghost predicate Covers(most: nat, granted: int, asked: int) {
    granted >= 0 && asked <= Scaled(most, granted)
  }

  lemma OneMoreGrant(most: nat, granted: int, asked: int, want: nat, grant: nat)
    requires Covers(most, granted, asked) && want <= most
    ensures Covers(most, granted + grant, asked + if grant > 0 then want else 0)
  {
    ScaledGrows(most, granted, granted + grant);
  }

  lemma {:induction false} AnyGrantsCoverAsked(q: Run, r: Run, most: nat)
    requires Legal(q) && Legal(r) && Extends(r, q) && WantsAtMost(r, most)
    ensures Covers(most, Granted(r) - Granted(q), Asked(r) - Asked(q))
  {
    if r != q {
      AnyGrantsCoverAsked(q, r.before, most);
      OneMoreGrant(most, Granted(r.before) - Granted(q), Asked(r.before) - Asked(q), r.want,
                   End(r.before).Grant(r.now, r.want));
    }
  }

  lemma {:induction false} GrantsOnlyGrow(q: Run, r: Run)
    requires Legal(q) && Legal(r) && Extends(r, q)
    ensures Granted(q) <= Granted(r)
  {
    if r != q {
      GrantsOnlyGrow(q, r.before);
    }
  }

  // ---------------------------------------------------------------------------------------
  // The object
  // ---------------------------------------------------------------------------------------

  class TokenBucket {
    const rate: real
    const burst: real
    var tokens: real
    var last: nat

    function Abs(): Bucket
      reads this
    {
      Bucket(rate, burst, tokens, last)
    }

    constructor (rateBytesPerSec: nat, burstBytes: nat, now: nat)
      ensures Abs() == Bucket(rateBytesPerSec as real / 1000000000.0, burstBytes as real, burstBytes as real, now)
      ensures Abs().Valid()
    {
      rate := rateBytesPerSec as real / 1000000000.0;
      burst := burstBytes as real;
      tokens := burstBytes as real;
      last := now;
    }

    method Refill(now: nat)
      requires Abs().Valid()
      modifies this
      ensures Abs() == old(Abs().Refilled(now))
    {
      if now <= last { return; }
      EarnedIsProduct(rate, now - last);
      var added := (now - last) as real * rate;
      var next := if tokens + added < burst then tokens + added else burst;
      tokens := next;
      last := now;
    }

    method TryConsume(now: nat, want: nat) returns (granted: nat)
      requires Abs().Valid()
      modifies this
      ensures Abs() == old(Abs().Consumed(now, want)) && granted == old(Abs().Grant(now, want))
      ensures Abs().Valid() && granted <= want
      ensures granted == want <==> want as real <= old(Abs().Refilled(now).tokens)
    {
      Refill(now);
      var avail := tokens;
      if avail <= 0.0 { return 0; }
      var grant := if want as real <= avail then want as real else avail;
      tokens := avail - grant;
      granted := grant.Floor;
    }
  }
}
