/**
 tempo/phase_monitor.py under its lock: phase changes with their timing, and the flush rate.  Clock
 readings are inputs, in seconds.
 */
module PhaseMonitorModel {
  import opened Basics
  import opened CheckpointFlush

  const WINDOW_SIZE := 16

  datatype Monitor = Monitor(
    phase: Phase, ioAllowed: bool,
    ncclEnter: real, ncclTotal: real, computeEnter: real, computeTotal: real,
    durations: seq<real>, ema: real)

  const CREATED := Monitor(Idle, true, 0.0, 0.0, 0.0, 0.0, [], 0.0)

  /** Leaving NCCL communication: record the phase and open the gate. */
  function LeaveNccl(m: Monitor, now: real): Monitor {
    var elapsed := now - m.ncclEnter;
    var ms := elapsed * 1000.0;
    var d := m.durations + [ms];
    m.(ncclTotal := m.ncclTotal + elapsed,
       durations := if |d| > WINDOW_SIZE then d[1..] else d,
       ema := if m.ema == 0.0 then ms else 0.30 * ms + 0.70 * m.ema,
       ioAllowed := true)
  }

  function SetTo(m: Monitor, p: Phase, now: real): Monitor {
    if m.phase == p then m
    else
      var a := if m.phase == Compute then m.(computeTotal := m.computeTotal + now - m.computeEnter) else m;
      var b := if m.phase == NcclComm then LeaveNccl(a, now) else a;
      var c := if p == NcclComm then b.(ncclEnter := now, ioAllowed := false) else b;
      var d := if p == Compute then c.(computeEnter := now) else c;
      d.(phase := p)
  }

  // ---------------------------------------------------------------------------------------
  // Histories
  // ---------------------------------------------------------------------------------------

  /** Calls of `set_phase`, each with its clock reading. */
  datatype History = Fresh | Moved(before: History, phase: Phase, now: real)

  function After(h: History): Monitor {
    match h
    case Fresh => CREATED
    case Moved(before, p, now) => SetTo(After(before), p, now)
  }

  /** The phase the calls ask for, and the moment it was entered. */
  function PhaseOf(h: History): Phase {
    match h
    case Fresh => Idle
    case Moved(_, p, _) => p
  }

  function Since(h: History): real {
    match h
    case Fresh => 0.0
    case Moved(before, p, now) => if p == PhaseOf(before) then Since(before) else now
  }

  /** How long, in milliseconds, each completed stay in phase p lasted. */
  function Stays(h: History, p: Phase): seq<real> {
    match h
    case Fresh => []
    case Moved(before, q, now) =>
      if PhaseOf(before) == p && q != p then Stays(before, p) + [(now - Since(before)) * 1000.0]
      else Stays(before, p)
  }

  function LastOf(s: seq<real>, n: nat): seq<real> {
    if |s| <= n then s else s[|s| - n..]
  }

  lemma LastStep(s: seq<real>, x: real, n: nat)
    requires n > 0
    ensures LastOf(s + [x], n) == var d := LastOf(s, n) + [x]; if |d| > n then d[1..] else d
  {
  }

  lemma {:induction false} Follows(h: History)
    ensures var m := After(h);
            && m.phase == PhaseOf(h)
            && (m.phase == NcclComm ==> m.ncclEnter == Since(h))
            && (m.phase == Compute ==> m.computeEnter == Since(h))
  {
    match h
    case Fresh =>
    case Moved(before, _, _) =>
      Follows(before);
  }

  /** Whenever the lock is free the gate is open exactly outside NCCL communication. */
  lemma {:induction false} GateIsThePhase(h: History)
    ensures After(h).ioAllowed <==> PhaseOf(h) != NcclComm
  {
    match h
    case Fresh =>
    case Moved(before, _, _) =>
      GateIsThePhase(before);
      Follows(before);
  }

  lemma SetToWindow(m: Monitor, p: Phase, now: real)
    ensures var d := m.durations + [(now - m.ncclEnter) * 1000.0];
            SetTo(m, p, now).durations
            == if m.phase == NcclComm && p != NcclComm then if |d| > WINDOW_SIZE then d[1..] else d
               else m.durations
  {
  }

  lemma WindowStep(m: Monitor, p: Phase, now: real, stays: seq<real>)
    requires m.durations == LastOf(stays, WINDOW_SIZE)
    ensures SetTo(m, p, now).durations
         == LastOf(if m.phase == NcclComm && p != NcclComm then stays + [(now - m.ncclEnter) * 1000.0] else stays,
                   WINDOW_SIZE)
  {
    SetToWindow(m, p, now);
    LastStep(stays, (now - m.ncclEnter) * 1000.0, WINDOW_SIZE);
  }

  /** The window holds the durations of the last sixteen NCCL phases. */
  lemma {:induction false} WindowHoldsTheLast(h: History)
    ensures After(h).durations == LastOf(Stays(h, NcclComm), 16)
  {
    match h
    case Fresh =>
    case Moved(before, p, now) =>
      WindowHoldsTheLast(before);
      Follows(before);
      WindowStep(After(before), p, now, Stays(before, NcclComm));
  }

  lemma SetToTotals(m: Monitor, p: Phase, now: real)
    ensures SetTo(m, p, now).ncclTotal
         == m.ncclTotal + (if m.phase == NcclComm && p != NcclComm then now - m.ncclEnter else 0.0)
    ensures SetTo(m, p, now).computeTotal
         == m.computeTotal + (if m.phase == Compute && p != Compute then now - m.computeEnter else 0.0)
  {
  }

  /** The totals are the summed durations of every completed stay. */
  lemma {:induction false} TotalsAreTheSums(h: History)
    ensures After(h).ncclTotal * 1000.0 == Sum(Stays(h, NcclComm))
    ensures After(h).computeTotal * 1000.0 == Sum(Stays(h, Compute))
  {
    match h
    case Fresh =>
    case Moved(before, p, now) =>
      TotalsAreTheSums(before);
      Follows(before);
      SetToTotals(After(before), p, now);
      var ms := (now - Since(before)) * 1000.0;
      SumStep(Stays(before, NcclComm), ms);
      SumStep(Stays(before, Compute), ms);
  }

  ghost predicate Between(lo: real, s: seq<real>, hi: real) {
    forall i | 0 <= i < |s| :: lo <= s[i] <= hi
  }

  /** The smoothed duration stays within the range of the NCCL phases seen so far. */
  lemma {:induction false} EmaStaysInRange(h: History, lo: real, hi: real)
    requires 0.0 <= lo && Between(lo, Stays(h, NcclComm), hi)
    ensures if Stays(h, NcclComm) == [] then After(h).ema == 0.0 else lo <= After(h).ema <= hi
  {
    match h
    case Fresh =>
    case Moved(before, p, now) =>
      Follows(before);
      var was, after := Stays(before, NcclComm), Stays(h, NcclComm);
      assert forall i | 0 <= i < |was| :: was[i] == after[i];
      EmaStaysInRange(before, lo, hi);
      if PhaseOf(before) == NcclComm && p != NcclComm {
        assert lo <= after[|was|] <= hi;
      }
  }

  /** The first collective sets the smoothed duration; each later one moves it three tenths of the way
      towards its own.  Nothing else changes it. */
  lemma EmaFollowsCollectives(before: History, p: Phase, now: real)
    ensures var was, ema := After(before).ema, After(Moved(before, p, now)).ema;
            var ms := (now - Since(before)) * 1000.0;
            if PhaseOf(before) != NcclComm || p == NcclComm then ema == was
            else if was == 0.0 then ema == ms
            else ema - was == 0.30 * (ms - was)
  {
    Follows(before);
  }

  ghost predicate Clocked(h: History) {
    match h
    case Fresh => true
    case Moved(before, _, now) => Clocked(before) && now >= Latest(before)
  }

  function Latest(h: History): real {
    match h
    case Fresh => 0.0
    case Moved(_, _, now) => now
  }

  /** With a monotone clock, NCCL and compute time never add up to more than the time passed. */
  lemma {:induction false} TotalsFitTheClock(h: History)
    requires Clocked(h)
    ensures var m := After(h);
            && 0.0 <= m.ncclTotal && 0.0 <= m.computeTotal
            && m.ncclTotal + m.computeTotal <= Since(h) <= Latest(h)
  {
    match h
    case Fresh =>
    case Moved(before, _, _) =>
      TotalsFitTheClock(before);
      Follows(before);
  }

  // ---------------------------------------------------------------------------------------
  // Flush rate
  // ---------------------------------------------------------------------------------------

  const TYPICAL_ALL_REDUCE := 268_435_456.0

  /** The NCCL bandwidth the rate is computed against; zero asks for the estimate. */
  function EffectiveNccl(m: Monitor, nccl: real): real {
    if nccl == 0.0 && m.ema > 0.0 then TYPICAL_ALL_REDUCE / (m.ema * 0.001) else nccl
  }

  function FlushRate(m: Monitor, requested: real, nccl: real, ceiling: real, margin: real): real {
    if m.phase == NcclComm then 0.0
    else
      var fraction := EffectiveNccl(m, nccl) / Max(ceiling, 1.0);
      Min(requested, ceiling * Max(0.0, 1.0 - fraction - margin))
  }

  /** A bandwidth the caller knows is taken as it is; the estimate moves 256 MiB in the smoothed
      duration, which is in milliseconds. */
  lemma EstimateMovesTheTypicalTensor(m: Monitor, nccl: real)
    ensures var e := EffectiveNccl(m, nccl);
            && (nccl != 0.0 ==> e == nccl)
            && (nccl == 0.0 && m.ema <= 0.0 ==> e == 0.0)
            && (nccl == 0.0 && m.ema > 0.0 ==> e * m.ema == 256.0 * 1024.0 * 1024.0 * 1000.0)
  {
    if m.ema > 0.0 {
      var e := TYPICAL_ALL_REDUCE / (m.ema * 0.001);
      assert e * (m.ema * 0.001) == TYPICAL_ALL_REDUCE;
      Thousandth(e, m.ema);
    }
  }

  lemma Thousandth(x: real, y: real)
    ensures x * (y * 0.001) * 1000.0 == x * y
  {
  }

  /** The fraction of the ceiling that NCCL and the margin leave over. */
  function LeftOver(ceiling: real, nccl: real, margin: real): real {
    1.0 - nccl / Max(ceiling, 1.0) - margin
  }

  /** Of a ceiling below one byte per second NCCL takes only that part of its bandwidth. */
  lemma Share(ceiling: real, nccl: real, margin: real)
    ensures ceiling * LeftOver(ceiling, nccl, margin) + Min(ceiling, 1.0) * nccl == ceiling - ceiling * margin
  {
    if ceiling >= 1.0 {
      var fraction := nccl / ceiling;
      assert fraction * ceiling == nccl;
      Distribute(ceiling, fraction, margin);
    } else {
      assert nccl / 1.0 == nccl;
      Distribute(ceiling, nccl, margin);
    }
  }

  lemma Distribute(c: real, x: real, y: real)
    ensures c * (1.0 - x - y) == c - x * c - c * y
  {
  }

  lemma SignOf(c: real, x: real)
    requires c >= 0.0
    ensures x > 0.0 ==> c * x >= 0.0
    ensures c * x > 0.0 ==> x > 0.0
  {
    if x <= 0.0 { Shrinks(c, x); }
  }

  lemma Shrinks(c: real, x: real)
    requires c >= 0.0 && x <= 0.0
    ensures c * x <= 0.0
  {
  }

  /**
   A flush never gets more than it asked for, nor more than NCCL and the margin leave over, and exactly
   that when it is throttled.  A negative ceiling allows nothing.
   */
  lemma FlushRateLeavesRoom(m: Monitor, requested: real, nccl: real, ceiling: real, margin: real)
    requires requested >= 0.0
    ensures var r := FlushRate(m, requested, nccl, ceiling, margin);
            var sum := r + Min(ceiling, 1.0) * EffectiveNccl(m, nccl);
            && r <= requested && (if ceiling >= 0.0 then r >= 0.0 else r <= 0.0)
            && (r > 0.0 ==> m.phase != NcclComm && sum <= ceiling - ceiling * margin)
            && (0.0 < r < requested ==> sum == ceiling - ceiling * margin)
  {
    var over := LeftOver(ceiling, EffectiveNccl(m, nccl), margin);
    Share(ceiling, EffectiveNccl(m, nccl), margin);
    if ceiling >= 0.0 {
      SignOf(ceiling, Max(0.0, over));
    } else {
      Shrinks(Max(0.0, over), ceiling);
    }
  }

  /** What NCCL, counted as above, and the margin leave of the ceiling. */
  function Room(m: Monitor, nccl: real, ceiling: real, margin: real): real {
    ceiling - ceiling * margin - Min(ceiling, 1.0) * EffectiveNccl(m, nccl)
  }

  /** The rate in full: nothing inside a collective; outside, the request or the room, whichever is
      less, where room counts as zero if it has the other sign than the ceiling. */
  lemma FlushRateIsTheRoom(m: Monitor, requested: real, nccl: real, ceiling: real, margin: real)
    ensures var r, room := FlushRate(m, requested, nccl, ceiling, margin), Room(m, nccl, ceiling, margin);
            if m.phase == NcclComm then r == 0.0
            else if ceiling >= 0.0 then r == Min(requested, Max(0.0, room))
            else r == Min(requested, Min(0.0, room))
  {
    var over := LeftOver(ceiling, EffectiveNccl(m, nccl), margin);
    Share(ceiling, EffectiveNccl(m, nccl), margin);
    assert ceiling * over == Room(m, nccl, ceiling, margin);
    Portion(ceiling, over);
  }

  lemma Portion(c: real, x: real)
    ensures c * Max(0.0, x) == if c >= 0.0 then Max(0.0, c * x) else Min(0.0, c * x)
  {
    if x > 0.0 {
      if c >= 0.0 { SignOf(c, x); } else { Shrinks(x, c); }
    } else if c >= 0.0 {
      Shrinks(c, x);
    } else {
      SignOf(-c, -x);
      if x < 0.0 { assert (-c) * (-x) >= 0.0; }
      assert (-c) * (-x) == c * x;
    }
  }

  lemma RateSign(e: real)
    requires e > 0.0
    ensures 57_600_000_000.0 - TYPICAL_ALL_REDUCE / (e * 0.001) > 0.0 <==> e * 57_600_000.0 > TYPICAL_ALL_REDUCE
  {
    var q := TYPICAL_ALL_REDUCE / (e * 0.001);
    assert q * (e * 0.001) == TYPICAL_ALL_REDUCE;
    if q < 57_600_000_000.0 {
      assert q * (e * 0.001) < 57_600_000_000.0 * (e * 0.001);
    } else {
      assert q * (e * 0.001) >= 57_600_000_000.0 * (e * 0.001);
    }
  }

  /**
   With the worker's arguments the rate is zero in an NCCL phase, and in any phase once the smoothed
   NCCL duration is positive but under about 4.7 ms: the estimate then exceeds the whole link.
   */
  lemma RateIsZeroExactlyWhen(m: Monitor, requested: real)
    requires requested > 0.0
    ensures FlushRate(m, requested, 0.0, 64_000_000_000.0, 0.1) <= 0.0
       <==> m.phase == NcclComm || 0.0 < m.ema * 57_600_000.0 <= TYPICAL_ALL_REDUCE
  {
    var ceiling, e := 64_000_000_000.0, EffectiveNccl(m, 0.0);
    Share(ceiling, e, 0.1);
    assert ceiling * LeftOver(ceiling, e, 0.1) == 57_600_000_000.0 - e;
    if m.ema > 0.0 { RateSign(m.ema); }
  }

  // ---------------------------------------------------------------------------------------
  // The object
  // ---------------------------------------------------------------------------------------

  class PhaseMonitor {
    var phase: Phase
    var ioAllowed: bool
    var ncclEnter: real
    var ncclTotal: real
    var computeEnter: real
    var computeTotal: real
    var durations: seq<real>
    var ema: real

    /** The calls made so far. */
    ghost var history: History

    function Abs(): Monitor
      reads this
    {
      Monitor(phase, ioAllowed, ncclEnter, ncclTotal, computeEnter, computeTotal, durations, ema)
    }

    ghost predicate Valid()
      reads this
    {
      Abs() == After(history)
    }

    constructor ()
      ensures Valid() && history == Fresh
    {
      phase, ioAllowed := Idle, true;
      ncclEnter, ncclTotal, computeEnter, computeTotal := 0.0, 0.0, 0.0, 0.0;
      durations, ema := [], 0.0;
      history := Fresh;
    }

    /** The bookkeeping when a collective ends. */
    method EndCollective(now: real)
      modifies this`ncclTotal, this`durations, this`ema, this`ioAllowed
      ensures Abs() == LeaveNccl(old(Abs()), now)
    {
      var elapsed := now - ncclEnter;
      ncclTotal := ncclTotal + elapsed;
      var ms := elapsed * 1000.0;
      durations := durations + [ms];
      if |durations| > WINDOW_SIZE { durations := durations[1..]; }
      if ema == 0.0 { ema := ms; } else { ema := 0.30 * ms + 0.70 * ema; }
      ioAllowed := true;
    }

    method SetPhase(newPhase: Phase, now: real)
      requires Valid()
      modifies this
      ensures Valid() && history == Moved(old(history), newPhase, now)
    {
      history := Moved(history, newPhase, now);
      var oldPhase := phase;
      if oldPhase == newPhase { return; }
      if oldPhase == Compute {
        computeTotal := computeTotal + now - computeEnter;
      }
      if oldPhase == NcclComm {
        EndCollective(now);
      }
      if newPhase == NcclComm {
        ncclEnter := now;
        ioAllowed := false;
      }
      if newPhase == Compute {
        computeEnter := now;
      }
      phase := newPhase;
    }
  }
}
