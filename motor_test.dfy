/**
  The two-ESC ramp test: forward to +90 % for ten seconds, ramp down to a
  stop, reverse to -90 % for ten seconds, ramp down to a stop, then both
  channels to neutral. Every control step, at most one per `tick_ms`, moves
  the commanded speed toward the phase's target by at most `ramp_rate` and
  writes it to both channels. The tick source is a parameter and the
  channel writes are returned as outputs.
 */
module MotorTest {
  import opened Ints

  const SpeedFwd: int := 90
  const SpeedRev: int := -90
  const PhaseTimeMs: nat := 10000
  const StopTimeMs: nat := 50

  /** `mt_state_t`. */
  datatype Phase = Idle | Fwd | Stop1 | Rev | Stop2 | Done

  /** The order in which phases are visited. */
  function Rank(p: Phase): nat
  {
    match p
    case Idle => 0
    case Fwd => 1
    case Stop1 => 2
    case Rev => 3
    case Stop2 => 4
    case Done => 5
  }

  /** What one step sends to the ESC pair: the same speed to both channels, or neutral on both. */
  datatype Output = Speed(pct: int) | Neutral

  /** The test's static state `mt`. */
  datatype State = State(running: bool, phase: Phase, current: int, target: int,
                         rampRate: u8, tickMs: u16, tLast: u32, tPhase0: u32)

  /** The zeroed state before the first start. */
  const Zero: State := State(false, Idle, 0, 0, 0, 0, 0, 0)

  /**
    `mt_ramp_step`'s arithmetic: one move of at most `rate` toward the
    target that stops at the target rather than overshoot, then a clamp
    to -100..100.
   */
  function RampStep(current: int, target: int, rate: u8): (r: int)
    ensures -100 <= r <= 100
    ensures -100 <= current <= 100 && -100 <= target <= 100 ==>
              Min(current, target) <= r <= Max(current, target) && Abs(r - current) <= rate
    ensures -100 <= target <= 100 && Abs(target - current) <= rate ==> r == target
    ensures -100 <= current <= 100 && -100 <= target <= 100 && Abs(target - current) > rate ==>
              Abs(target - r) == Abs(target - current) - rate
  {
    var c := if current < target then Min(current + rate, target)
             else if current > target then Max(current - rate, target)
             else current;
    Clamp(c, -100, 100)
  }

  /** `n` ramp steps toward a fixed target. */
  function RampSteps(current: int, target: int, rate: u8, n: nat): int
    decreases n
  {
    if n == 0 then current else RampSteps(RampStep(current, target, rate), target, rate, n - 1)
  }

  /** With a nonzero rate, `ceil(|target - current| / rate)` steps reach the target, and later ones keep it. */
  lemma {:induction false} RampReaches(current: int, target: int, rate: u8, n: nat)
    requires -100 <= current <= 100 && -100 <= target <= 100 && rate >= 1
    requires n * rate >= Abs(target - current)
    ensures RampSteps(current, target, rate, n) == target
    decreases n
  {
    if n > 0 {
      var c := RampStep(current, target, rate);
      OneStepLess(n, rate);
      if Abs(target - current) <= rate {
        assert c == target;
      } else {
        assert Abs(target - c) == Abs(target - current) - rate;
      }
      RampReaches(c, target, rate, n - 1);
    }
  }

  lemma OneStepLess(n: nat, rate: nat)
    requires n > 0
    ensures (n - 1) * rate == n * rate - rate && (n - 1) * rate >= 0
  {
  }

  /** The phases in which a step ramps the speed and writes it; in the others it writes neutral and stops. */
  predicate Ramping(p: Phase)
  {
    p == Fwd || p == Stop1 || p == Rev || p == Stop2
  }

  /**
    The phase invariant: each phase drives toward its own target, the
    commanded speed is never negative in the forward half nor positive in
    the reverse half, and a running test has a nonzero ramp rate.
   */
  predicate Valid(s: State)
  {
    -100 <= s.current <= 100 &&
    (s.running ==> s.rampRate >= 1) &&
    (s.phase == Fwd ==> s.target == SpeedFwd && s.current >= 0) &&
    (s.phase == Stop1 ==> s.target == 0 && s.current >= 0) &&
    (s.phase == Rev ==> s.target == SpeedRev && s.current <= 0) &&
    (s.phase == Stop2 ==> s.target == 0 && s.current <= 0)
  }

  /**
    `MotorTest_Start`: a zeroed state running in the forward phase toward
    +90 % from a standstill, with a ramp of 3 and a step of 20 ms when 0 is
    given for them.
   */
  function Started(rampRate: u8, tickMs: u16, now: u32): (s: State)
    ensures Valid(s) && s.running && s.phase == Fwd && s.current == 0 && s.target == SpeedFwd
    ensures s.rampRate == (if rampRate == 0 then 3 else rampRate) && s.tickMs == (if tickMs == 0 then 20 else tickMs)
    ensures s.tLast == now && s.tPhase0 == now
  {
    State(true, Fwd, 0, SpeedFwd, if rampRate == 0 then 3 else rampRate, if tickMs == 0 then 20 else tickMs, now, now)
  }

  /**
    `MotorTest_Tick` at time `now`. Nothing happens when stopped or before
    `tick_ms` has elapsed since the last step. Otherwise the step is stamped
    at `now` and, by phase: a ramp step and the speed written, moving on to
    the next phase (and its target, stamped at `now`) when its condition
    holds; in `Done` (or an unknown phase) neutral on both channels and the
    test stops.
   */
  function Next(s: State, now: u32): (r: (State, seq<Output>))
    requires Valid(s)
    ensures Valid(r.0)
    ensures !s.running || !Due(now, s.tLast, s.tickMs) ==> r == (s, [])
    ensures s.running && Due(now, s.tLast, s.tickMs) ==> r.0.tLast == now && |r.1| == 1
    ensures Rank(s.phase) <= Rank(r.0.phase) <= Rank(s.phase) + 1
    ensures s.phase == Fwd && r.0.phase == Stop1 ==> Sub32(now, s.tPhase0) >= PhaseTimeMs && r.0.tPhase0 == now
    ensures s.phase == Stop1 && r.0.phase == Rev ==>
              r.0.current == 0 && Sub32(now, s.tPhase0) >= StopTimeMs && r.0.tPhase0 == now
    ensures s.phase == Rev && r.0.phase == Stop2 ==> Sub32(now, s.tPhase0) >= PhaseTimeMs && r.0.tPhase0 == now
    ensures s.phase == Stop2 && r.0.phase == Done ==> r.0.current == 0
    ensures s.running && !r.0.running ==> r.1 == [Neutral]
    ensures r.0.running ==> r.0.current == RampStep(s.current, s.target, s.rampRate) || r == (s, [])
    ensures s.running && Due(now, s.tLast, s.tickMs) && Ramping(s.phase) ==>
              r.0.running && r.0.current == RampStep(s.current, s.target, s.rampRate) &&
              r.1 == [Speed(r.0.current)]
    ensures s.running && Due(now, s.tLast, s.tickMs) && !Ramping(s.phase) ==>
              !r.0.running && r.0.phase == s.phase && r.1 == [Neutral]
    ensures s.running && Due(now, s.tLast, s.tickMs) && s.phase == Fwd ==>
              (r.0.phase == Stop1 <==> Sub32(now, s.tPhase0) >= PhaseTimeMs)
    ensures s.running && Due(now, s.tLast, s.tickMs) && s.phase == Stop1 ==>
              (r.0.phase == Rev <==> RampStep(s.current, s.target, s.rampRate) == 0 && Sub32(now, s.tPhase0) >= StopTimeMs)
    ensures s.running && Due(now, s.tLast, s.tickMs) && s.phase == Rev ==>
              (r.0.phase == Stop2 <==> Sub32(now, s.tPhase0) >= PhaseTimeMs)
    ensures s.running && Due(now, s.tLast, s.tickMs) && s.phase == Stop2 ==>
              (r.0.phase == Done <==> RampStep(s.current, s.target, s.rampRate) == 0)
    ensures r.0.phase == s.phase || s.phase == Stop2 ==> r.0.target == s.target && r.0.tPhase0 == s.tPhase0
    ensures !Ramping(s.phase) ==> r.0.current == s.current
    ensures r.0.rampRate == s.rampRate && r.0.tickMs == s.tickMs
  {
    if !s.running || Sub32(now, s.tLast) < s.tickMs then (s, [])
    else
      var s1 := s.(tLast := now);
      var c := RampStep(s.current, s.target, s.rampRate);
      match s.phase
      case Fwd =>
        if Sub32(now, s.tPhase0) >= PhaseTimeMs then (s1.(current := c, phase := Stop1, target := 0, tPhase0 := now), [Speed(c)])
        else (s1.(current := c), [Speed(c)])
      case Stop1 =>
        if c == 0 && Sub32(now, s.tPhase0) >= StopTimeMs then (s1.(current := c, phase := Rev, target := SpeedRev, tPhase0 := now), [Speed(c)])
        else (s1.(current := c), [Speed(c)])
      case Rev =>
        if Sub32(now, s.tPhase0) >= PhaseTimeMs then (s1.(current := c, phase := Stop2, target := 0, tPhase0 := now), [Speed(c)])
        else (s1.(current := c), [Speed(c)])
      case Stop2 =>
        if c == 0 then (s1.(current := c, phase := Done), [Speed(c)])
        else (s1.(current := c), [Speed(c)])
      case _ => (s1.(running := false), [Neutral])
  }

  /**
    The ESCs are never driven straight from forward into reverse or back:
    a step never changes the sign of the commanded speed without passing
    through zero.
   */
  lemma NoDirectReversal(s: State, now: u32)
    requires Valid(s)
    ensures s.current * Next(s, now).0.current >= 0
  {
    var r := Next(s, now).0;
    if s.current > 0 {
      assert s.phase == Fwd || s.phase == Stop1 || s.phase == Idle || s.phase == Done;
      assert r.current >= 0;
    } else if s.current < 0 {
      assert r.current <= 0;
    }
  }

  /** The test's static state and the channel writes it has made. */
  class Test {
    var running: bool
    var phase: Phase
    var current: int
    var target: int
    var rampRate: u8
    var tickMs: u16
    var tLast: u32
    var tPhase0: u32
    ghost var outputs: seq<Output>

    function Snapshot(): State
      reads this
    {
      State(running, phase, current, target, rampRate, tickMs, tLast, tPhase0)
    }

    constructor ()
      ensures Snapshot() == Zero && outputs == []
    {
      running, phase, current, target := false, Idle, 0, 0;
      rampRate, tickMs, tLast, tPhase0 := 0, 0, 0, 0;
      outputs := [];
    }

    /** `mt_set_targets`: a new phase target, with the phase clock restarted at `now`. */
    method SetTargets(spd: int, now: u32)
      modifies this`target, this`tPhase0
      ensures target == spd && tPhase0 == now
    {
      target := spd;
      tPhase0 := now;
    }

    /** `mt_ramp_step`: one ramp step, and the new speed written to both channels. */
    method Ramp()
      modifies this`current, this`outputs
      ensures current == RampStep(old(current), target, rampRate)
      ensures outputs == old(outputs) + [Speed(current)]
    {
      if current < target {
        current := current + rampRate;
        if current > target {
          current := target;
        }
      } else if current > target {
        current := current - rampRate;
        if current < target {
          current := target;
        }
      }
      if current < -100 {
        current := -100;
      }
      if current > 100 {
        current := 100;
      }
      outputs := outputs + [Speed(current)];
    }

    /** `MotorTest_Start`. */
    method Start(rate: u8, tick: u16, now: u32)
      modifies this
      ensures Snapshot() == Started(rate, tick, now) && outputs == old(outputs)
    {
      running, phase, current, target := false, Idle, 0, 0;
      rampRate, tickMs, tLast, tPhase0 := 0, 0, 0, 0;
      running := true;
      phase := Fwd;
      tickMs := if tick == 0 then 20 else tick;
      rampRate := if rate == 0 then 3 else rate;
      current := 0;
      SetTargets(SpeedFwd, now);
      tLast := now;
    }

    /** `MotorTest_Tick`. */
    method Tick(now: u32)
      requires Valid(Snapshot())
      modifies this
      ensures Valid(Snapshot())
      ensures Snapshot() == Next(old(Snapshot()), now).0
      ensures outputs == old(outputs) + Next(old(Snapshot()), now).1
    {
      if !running {
        return;
      }
      if Sub32(now, tLast) < tickMs {
        return;
      }
      tLast := now;
      match phase
      case Fwd =>
        Ramp();
        if Sub32(now, tPhase0) >= PhaseTimeMs {
          phase := Stop1;
          SetTargets(0, now);
        }
      case Stop1 =>
        Ramp();
        if current == 0 {
          if Sub32(now, tPhase0) >= StopTimeMs {
            phase := Rev;
            SetTargets(SpeedRev, now);
          }
        }
      case Rev =>
        Ramp();
        if Sub32(now, tPhase0) >= PhaseTimeMs {
          phase := Stop2;
          SetTargets(0, now);
        }
      case Stop2 =>
        Ramp();
        if current == 0 {
          phase := Done;
        }
      case _ =>
        outputs := outputs + [Neutral];
        running := false;
    }

    /** `MotorTest_IsRunning`. */
    function IsRunning(): (r: bool)
      reads this
      ensures r == Snapshot().running
    {
      running
    }
  }
}
