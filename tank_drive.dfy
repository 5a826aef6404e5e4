/**
  The tracked-vehicle drive controller: two sides (left, right), each with a
  user target in -100..100, a ramped current value, an EMA-filtered value and
  a reverse gate that forces neutral for a dwell time when the direction flips.
  Every control tick runs, per side: gate, one ramp step (or a hard 0 while the
  gate is active), EMA, per-side scale and clamp, the integer remap into the
  ESC's useful window, and one raw percent write to the ESC layer.

  The floating-point EMA and scaling are idealised as exact `real` arithmetic;
  the `(int8_t)` conversion of the compensated value truncates toward zero.
 */
module TankDrive {
  import opened Ints
  import opened MotorBldc

  /** The motor parameters of `ConfigMotors_t`. */
  datatype MotorConfig = MotorConfig(
    tickMs: u16,
    rampStep: u8,
    alpha: real,
    leftScale: real,
    rightScale: real,
    escStart: u8,
    escMax: u8,
    dwellMs: u16,
    reverseThr: u8)

  /** The values the firmware ships with. */
  const Defaults: MotorConfig := MotorConfig(20, 4, 0.25, 1.0, 1.0, 30, 60, 600, 3)

  /** `clamp_i8`: clamp (low bound first, then high) and convert to `int8_t`. */
  function ClampI8(v: int, lo: int, hi: int): (r: i8)
    ensures -128 <= lo <= hi < 128 ==> lo <= r <= hi
    ensures -128 <= lo <= v <= hi < 128 ==> r == v
    ensures -128 <= lo <= hi < 128 && v < lo ==> r == lo
    ensures -128 <= lo <= hi < 128 && v > hi ==> r == hi
  {
    ToI8(Clamp(v, lo, hi))
  }

  // ------------------------------------------------------------------------
  // Ramp
  // ------------------------------------------------------------------------

  /**
    `ramp_once`: one step from `cur` toward `tgt` of at most `step`. The step
    never overshoots, lands exactly on `tgt` once it is within reach and is a
    full `step` otherwise.
   */
  function RampOnce(cur: i8, tgt: i8, step: u8): (r: i8)
    ensures Abs(r - cur) <= step
    ensures cur <= tgt ==> cur <= r <= tgt
    ensures tgt <= cur ==> tgt <= r <= cur
    ensures Abs(tgt - cur) <= step ==> r == tgt
    ensures Abs(tgt - cur) > step ==> Abs(r - cur) == step
  {
    var d: int := tgt - cur;
    var st: int := step;
    var d' := if d > st then st else if d < -st then -st else d;
    ToI8(cur + d')
  }

  /** `k` successive ramp steps toward a fixed target. */
  function RampN(cur: i8, tgt: i8, step: u8, k: nat): i8
    decreases k
  {
    if k == 0 then cur else RampN(RampOnce(cur, tgt, step), tgt, step, k - 1)
  }

  /** Once on the target, further ramp steps stay there. */
  lemma {:induction false} RampStaysAtTarget(tgt: i8, step: u8, k: nat)
    ensures RampN(tgt, tgt, step, k) == tgt
  {
    if k > 0 {
      RampStaysAtTarget(tgt, step, k - 1);
    }
  }

  /**
    With a positive step, `k` ticks reach a fixed target as soon as `k * step`
    covers the distance, and the value stays there afterwards.
   */
  lemma {:induction false} RampSettles(cur: i8, tgt: i8, step: u8, k: nat)
    requires step > 0
    requires k * step >= Abs(tgt - cur)
    ensures RampN(cur, tgt, step, k) == tgt
    decreases k
  {
    if k == 0 {
      assert cur == tgt;
    } else if Abs(tgt - cur) <= step {
      RampStaysAtTarget(tgt, step, k - 1);
    } else {
      var next := RampOnce(cur, tgt, step);
      assert Abs(tgt - next) == Abs(tgt - cur) - step;
      assert (k - 1) * step == k * step - step;
      RampSettles(next, tgt, step, k - 1);
    }
  }

  // ------------------------------------------------------------------------
  // ESC window remap
  // ------------------------------------------------------------------------

  /**
    `map_logic_to_esc_window`: 0 stays neutral; a nonzero command of magnitude
    `mag` becomes `start + ((max - start) * mag) / 100` (C division), clamped to
    `start..max`, carrying the command's sign, converted to `int8_t`.
   */
  function MapToWindow(x: i8, start: u8, max: u8): (r: i8)
    ensures x == 0 ==> r == 0
    ensures start <= max < 128 && x > 0 ==> start <= r <= max
    ensures start <= max < 128 && x < 0 ==> -(max as int) <= r <= -(start as int)
  {
    if x == 0 then 0
    else
      var sign := if x < 0 then -1 else 1;
      var mag := Abs(x);
      var pct := Clamp(start + TruncDiv((max - start) * mag, 100), start, max);
      ToI8(sign * pct)
  }

  /** The share of the window for magnitude `mag`, before clamping. */
  lemma WindowShare(span: nat, mag: int)
    requires 0 <= mag <= 100
    ensures 0 <= (span * mag) / 100 <= span
  {
    assert span * mag <= span * 100;
  }

  lemma WindowShareMonotone(span: nat, m1: int, m2: int)
    requires 0 <= m1 <= m2
    ensures (span * m1) / 100 <= (span * m2) / 100
  {
    assert span * m1 <= span * m2;
  }

  /**
    For a command in -100..100 and a window `start <= max`, the remap is the
    linear formula exactly: no clamp is ever needed.
   */
  lemma WindowExact(x: i8, start: u8, max: u8)
    requires start <= max < 128
    requires -100 <= x <= 100 && x != 0
    ensures MapToWindow(x, start, max) == (if x < 0 then -1 else 1) * (start + ((max - start) * Abs(x)) / 100)
  {
    WindowShare(max - start, Abs(x));
  }

  /** The remap is odd: a reversed command gives the reversed output. */
  lemma WindowOdd(x: i8, start: u8, max: u8)
    requires start <= max < 128
    requires -127 <= x <= 127
    ensures MapToWindow(-x, start, max) == -MapToWindow(x, start, max)
  {
  }

  /** The remap is nondecreasing in the command. */
  lemma WindowMonotone(x: i8, y: i8, start: u8, max: u8)
    requires start <= max < 128
    requires x <= y
    ensures MapToWindow(x, start, max) <= MapToWindow(y, start, max)
  {
    if 0 < x {
      WindowShareMonotone(max - start, x, y);
    } else if y < 0 {
      WindowShareMonotone(max - start, -(y as int), -(x as int));
    }
  }

  /** With the shipped window 30..60: 1 % starts the ESC at 30, 4 % gives 31, full scale 60. */
  lemma WindowDefaults()
    ensures MapToWindow(1, Defaults.escStart, Defaults.escMax) == 30
    ensures MapToWindow(4, Defaults.escStart, Defaults.escMax) == 31
    ensures MapToWindow(100, Defaults.escStart, Defaults.escMax) == 60
    ensures MapToWindow(-100, Defaults.escStart, Defaults.escMax) == -60
  {
    assert Defaults.escStart == 30 && Defaults.escMax == 60;
    WindowExact(1, 30, 60);
    WindowExact(4, 30, 60);
    WindowExact(100, 30, 60);
    WindowExact(-100, 30, 60);
  }

  // ------------------------------------------------------------------------
  // Reverse gate
  // ------------------------------------------------------------------------

  /** The state behind one side's gate: `gate_*_active` and `gate_*_until`. */
  datatype Gate = Gate(active: bool, until: u32)

  /** What the gate hands to the ramp, and the gate's new state. */
  datatype GateOut = GateOut(value: i8, gate: Gate)

  /** A significant sign change between the ramped value and the target, outside `+-thr`. */
  predicate Reversal(cur: i8, tgt: i8, thr: i8)
  {
    (cur > thr && tgt < -(thr as int)) || (cur < -(thr as int) && tgt > thr)
  }

  /** An active gate is still holding at `now`: the signed difference `now - until` is negative. */
  predicate Holding(g: Gate, now: u32)
  {
    g.active && ToI32(Sub32(now, g.until)) < 0
  }

  /**
    `apply_neutral_gate_one`. A holding gate returns 0 and is left exactly as it
    was (the dwell is never re-extended). Otherwise, the gate (now inactive)
    fires iff the current value and the target are on opposite sides of the
    dead band: it then returns 0 and expires `dwell` ms from now (mod 2^32).
    If it does not fire it returns the target. The threshold is the
    `uint8_t` parameter seen as `int8_t`.
   */
  function ApplyGate(cur: i8, tgt: i8, g: Gate, now: u32, dwell: u16, thr: u8): (o: GateOut)
    ensures Holding(g, now) ==> o == GateOut(0, g)
    ensures !Holding(g, now) ==> (o.gate.active <==> Reversal(cur, tgt, ToI8(thr)))
    ensures !Holding(g, now) && o.gate.active ==> o == GateOut(0, Gate(true, Add32(now, dwell)))
    ensures !o.gate.active ==> o.value == tgt && o.gate.until == g.until
  {
    if Holding(g, now) then GateOut(0, g)
    else if Reversal(cur, tgt, ToI8(thr)) then GateOut(0, Gate(true, Add32(now, dwell)))
    else GateOut(tgt, Gate(false, g.until))
  }

  /** A target inside the dead band (0 in particular) never fires the gate. */
  lemma GateNeverFiresInsideBand(cur: i8, tgt: i8, g: Gate, now: u32, dwell: u16, thr: u8)
    requires thr < 128 && -(thr as int) <= tgt <= thr
    requires !Holding(g, now)
    ensures ApplyGate(cur, tgt, g, now, dwell, thr) == GateOut(tgt, Gate(false, g.until))
  {
  }

  /** The gate fires on the very tick the target flips: +80 ramped, -80 requested. */
  lemma GateFiresOnFlipTick(g: Gate, now: u32)
    requires !Holding(g, now)
    ensures ApplyGate(80, -80, g, now, Defaults.dwellMs, Defaults.reverseThr)
         == GateOut(0, Gate(true, Add32(now, 600)))
  {
  }

  /**
    A gate fired at `t0` holds (returning 0, unchanged) at `t0 + e` exactly
    while `e < dwell`, across a wrap of the millisecond counter, for any `e`
    below 2^31.
   */
  lemma {:induction false} GateHoldsForDwell(cur: i8, tgt: i8, g: Gate, t0: u32, dwell: u16, thr: u8,
                                             e: u32, cur': i8, tgt': i8)
    requires !Holding(g, t0) && Reversal(cur, tgt, ToI8(thr))
    requires e < I32Half
    ensures var g1 := ApplyGate(cur, tgt, g, t0, dwell, thr).gate;
            var now := Add32(t0, e);
            Holding(g1, now) <==> e < dwell
  {
    var g1 := ApplyGate(cur, tgt, g, t0, dwell, thr).gate;
    assert g1 == Gate(true, Add32(t0, dwell));
    SignedExpiry(t0, dwell, e);
  }

  // ------------------------------------------------------------------------
  // EMA, scaling, float-to-int8
  // ------------------------------------------------------------------------

  /** `ema_step`, on exact reals. */
  function Ema(prev: real, input: real, alpha: real): real
  {
    (1.0 - alpha) * prev + alpha * input
  }

  /** With `0 < alpha <= 1` the EMA stays between its two inputs' common bounds. */
  lemma EmaBounded(prev: real, input: real, alpha: real, lo: real, hi: real)
    requires 0.0 < alpha <= 1.0
    requires lo <= prev <= hi && lo <= input <= hi
    ensures lo <= Ema(prev, input, alpha) <= hi
  {
    EmaAbove(prev, input, alpha, lo);
    EmaBelow(prev, input, alpha, hi);
  }

  lemma EmaAbove(prev: real, input: real, alpha: real, lo: real)
    requires 0.0 < alpha <= 1.0 && lo <= prev && lo <= input
    ensures lo <= (1.0 - alpha) * prev + alpha * input
  {
    var b := 1.0 - alpha;
    MulLe(b, lo, prev);
    MulLe(alpha, lo, input);
    AddLe(b * prev, alpha * input, b * lo, alpha * lo);
    assert b * lo + alpha * lo == lo;
  }

  lemma EmaBelow(prev: real, input: real, alpha: real, hi: real)
    requires 0.0 < alpha <= 1.0 && prev <= hi && input <= hi
    ensures (1.0 - alpha) * prev + alpha * input <= hi
  {
    var b := 1.0 - alpha;
    MulLe(b, prev, hi);
    MulLe(alpha, input, hi);
    AddLe(b * hi, alpha * hi, b * prev, alpha * input);
    assert b * hi + alpha * hi == hi;
  }

  lemma MulLe(c: real, x: real, y: real)
    requires 0.0 <= c && x <= y
    ensures c * x <= c * y
  {
    assert c * y - c * x == c * (y - x);
  }

  lemma AddLe(p1: real, p2: real, q1: real, q2: real)
    requires q1 <= p1 && q2 <= p2
    ensures q1 + q2 <= p1 + p2
  {
  }

  /** `clampf`. */
  function ClampReal(v: real, lo: real, hi: real): (r: real)
    ensures lo <= hi ==> lo <= r <= hi
    ensures lo <= v <= hi ==> r == v
  {
    var a := if v < lo then lo else v;
    if a > hi then hi else a
  }

  /** C's conversion of a float to an integer type: truncation toward zero. */
  function TruncReal(x: real): (r: int)
    ensures 0.0 <= x ==> 0 <= r && r as real <= x < r as real + 1.0
    ensures x < 0.0 ==> r <= 0 && r as real - 1.0 < x <= r as real
  {
    if x >= 0.0 then x.Floor else -((-x).Floor)
  }

  // ------------------------------------------------------------------------
  // One side's control tick
  // ------------------------------------------------------------------------

  /** A side's state after one tick, and the raw percent it writes. */
  datatype Step = Step(cur: i8, flt: real, gate: Gate, out: i8)

  /**
    The end of one side of `Tank_Update`: the scaled filter value clamped to
    +-100, truncated to `int8_t` and remapped into the ESC window. A value
    of magnitude below 1 % is neutral, the output never leaves the window,
    and it keeps the sign of its input.
   */
  function EscOut(flt: real, scale: real, c: MotorConfig): (r: i8)
    ensures -1.0 < flt * scale < 1.0 ==> r == 0
    ensures c.escStart <= c.escMax < 128 ==> -(c.escMax as int) <= r <= c.escMax
    ensures c.escStart <= c.escMax < 128 && r > 0 ==> flt * scale >= 1.0
    ensures c.escStart <= c.escMax < 128 && r < 0 ==> flt * scale <= -1.0
  {
    var comp := TruncReal(ClampReal(flt * scale, -100.0, 100.0));
    MapToWindow(comp, c.escStart, c.escMax)
  }

  /**
    One side of `Tank_Update`: gate the target; a side whose gate is active
    afterwards has `cur` forced to 0, otherwise `cur` takes one ramp step toward
    the gated target; filter (or copy `cur` when `alpha <= 0`), scale and clamp
    to +-100, truncate to `int8_t` and remap into the ESC window.
   */
  function ChannelStep(cur: i8, tgt: i8, flt: real, g: Gate, now: u32, c: MotorConfig, scale: real): (s: Step)
    ensures var o := ApplyGate(cur, tgt, g, now, c.dwellMs, c.reverseThr);
            s.gate == o.gate &&
            (o.gate.active ==> s.cur == 0) &&
            (!o.gate.active ==> s.cur == RampOnce(cur, tgt, c.rampStep))
    ensures -100 <= cur <= 100 && -100 <= tgt <= 100 ==> -100 <= s.cur <= 100
    ensures c.alpha <= 0.0 ==> s.flt == s.cur as real
    ensures c.alpha > 0.0 ==> s.flt == Ema(flt, s.cur as real, c.alpha)
    ensures s.out == EscOut(s.flt, scale, c)
  {
    var o := ApplyGate(cur, tgt, g, now, c.dwellMs, c.reverseThr);
    var cur' := if o.gate.active then 0 else RampOnce(cur, o.value, c.rampStep);
    var flt' := if c.alpha > 0.0 then Ema(flt, cur' as real, c.alpha) else cur' as real;
    Step(cur', flt', o.gate, EscOut(flt', scale, c))
  }

  /**
    With the EMA on (`0 < alpha <= 1`) and a filtered value inside +-100, the
    filtered value stays inside +-100 after a tick.
   */
  lemma ChannelFilterBounded(cur: i8, tgt: i8, flt: real, g: Gate, now: u32, c: MotorConfig, scale: real)
    requires -100 <= cur <= 100 && -100 <= tgt <= 100
    requires 0.0 < c.alpha <= 1.0 && -100.0 <= flt <= 100.0
    ensures -100.0 <= ChannelStep(cur, tgt, flt, g, now, c, scale).flt <= 100.0
  {
    var s := ChannelStep(cur, tgt, flt, g, now, c, scale);
    EmaBounded(flt, s.cur as real, c.alpha, -100.0, 100.0);
  }

  /**
    Reversing at full speed with the shipped parameters: on the tick the
    target flips from +80 to -80 the side drops straight to 0 and the gate
    holds it there for 600 ms.
   */
  lemma ChannelReverseScenario(g: Gate, now: u32, flt: real)
    requires !Holding(g, now)
    ensures var s := ChannelStep(80, -80, flt, g, now, Defaults, Defaults.leftScale);
            s.cur == 0 && s.gate == Gate(true, Add32(now, 600))
  {
  }

  /** A side held by its gate stays at 0, and writes neutral when the EMA is disabled (alpha <= 0). */
  lemma ChannelHeldWritesNeutral(cur: i8, tgt: i8, flt: real, g: Gate, now: u32, c: MotorConfig, scale: real)
    requires Holding(g, now) && c.alpha <= 0.0
    ensures var s := ChannelStep(cur, tgt, flt, g, now, c, scale);
            s.cur == 0 && s.gate == g && s.out == 0
  {
  }

  // ------------------------------------------------------------------------
  // Maneuvers
  // ------------------------------------------------------------------------

  /**
    `arc_pair`: the inner track of an arc gets half the base (C division), the
    outer track the base; neither goes below 0.
   */
  function ArcPair(base: i8): (r: (i8, i8))
    ensures r.0 == (if base > 0 then base / 2 else 0)
    ensures r.1 == Max(base, 0)
    ensures 0 <= r.0 <= r.1 && r.1 - 1 <= 2 * r.0 <= r.1
  {
    var inner := Max(TruncDiv(base, 2), 0);
    var outer := Max(base, 0);
    (ToI8(inner), ToI8(outer))
  }

  /**
    The drive's module state: targets, ramped and filtered values per side,
    the two reverse gates, the motor configuration and the ESC layer it
    writes to.
   */
  class Tank {
    var tgtL: i8
    var tgtR: i8
    var curL: i8
    var curR: i8
    var fltL: real
    var fltR: real
    var gateLActive: bool
    var gateLUntil: u32
    var gateRActive: bool
    var gateRUntil: u32
    const cfg: MotorConfig
    const esc: Esc

    /** Targets and ramped values stay inside the logical range -100..100. */
    ghost predicate Valid()
      reads this, esc
    {
      esc.Valid() &&
      -100 <= tgtL <= 100 && -100 <= tgtR <= 100 &&
      -100 <= curL <= 100 && -100 <= curR <= 100
    }

    /** The zero-initialised static state. */
    constructor (e: Esc, c: MotorConfig)
      requires e.Valid()
      ensures Valid() && esc == e && cfg == c
      ensures tgtL == 0 && tgtR == 0 && curL == 0 && curR == 0 && fltL == 0.0 && fltR == 0.0
      ensures !gateLActive && !gateRActive && gateLUntil == 0 && gateRUntil == 0
    {
      esc := e;
      cfg := c;
      tgtL, tgtR, curL, curR := 0, 0, 0, 0;
      fltL, fltR := 0.0, 0.0;
      gateLActive, gateRActive := false, false;
      gateLUntil, gateRUntil := 0, 0;
    }

    /** `Tank_Init`: zero the state, clear both gates, put both ESCs at neutral once. */
    method Init()
      requires Valid()
      modifies this, esc
      ensures Valid()
      ensures tgtL == 0 && tgtR == 0 && curL == 0 && curR == 0 && fltL == 0.0 && fltR == 0.0
      ensures !gateLActive && !gateRActive && gateLUntil == 0 && gateRUntil == 0
      ensures esc.calls == old(esc.calls) + [NeutralAllCall]
      ensures esc.timerSet == old(esc.timerSet)
      ensures esc.timerSet ==> esc.ccr1 == NeuUs && esc.ccr4 == NeuUs
    {
      tgtL, tgtR, curL, curR := 0, 0, 0, 0;
      fltL, fltR := 0.0, 0.0;
      gateLActive, gateRActive := false, false;
      gateLUntil, gateRUntil := 0, 0;
      esc.SetNeutralAll();
    }

    /**
      `Tank_Update` at tick `now`: each side advances by `ChannelStep`, then
      exactly two writes follow, left to channel 4 and right to channel 1.
     */
    method Update(now: u32)
      requires Valid()
      modifies this, esc
      ensures Valid()
      ensures var sl := ChannelStep(old(curL), old(tgtL), old(fltL), Gate(old(gateLActive), old(gateLUntil)), now, cfg, cfg.leftScale);
              var sr := ChannelStep(old(curR), old(tgtR), old(fltR), Gate(old(gateRActive), old(gateRUntil)), now, cfg, cfg.rightScale);
              curL == sl.cur && fltL == sl.flt && Gate(gateLActive, gateLUntil) == sl.gate &&
              curR == sr.cur && fltR == sr.flt && Gate(gateRActive, gateRUntil) == sr.gate &&
              esc.calls == old(esc.calls) + [PercentCall(Ch4, sl.out), PercentCall(Ch1, sr.out)] &&
              (esc.timerSet ==> esc.ccr4 == PercentToUs(sl.out) && esc.ccr1 == PercentToUs(sr.out))
      ensures tgtL == old(tgtL) && tgtR == old(tgtR) && esc.timerSet == old(esc.timerSet)
    {
      ghost var sl := ChannelStep(curL, tgtL, fltL, Gate(gateLActive, gateLUntil), now, cfg, cfg.leftScale);
      ghost var sr := ChannelStep(curR, tgtR, fltR, Gate(gateRActive, gateRUntil), now, cfg, cfg.rightScale);
      var outL := StepLeft(now);
      var outR := StepRight(now);
      assert outL == sl.out && outR == sr.out;
      esc.WritePercentRaw(Ch4, outL);
      esc.WritePercentRaw(Ch1, outR);
    }

    /** The left side's computation in `Tank_Update`, with the percent it produces. */
    method StepLeft(now: u32) returns (out: i8)
      requires Valid()
      modifies this`curL, this`fltL, this`gateLActive, this`gateLUntil
      ensures Valid()
      ensures var sl := ChannelStep(old(curL), tgtL, old(fltL), Gate(old(gateLActive), old(gateLUntil)), now, cfg, cfg.leftScale);
              curL == sl.cur && fltL == sl.flt && Gate(gateLActive, gateLUntil) == sl.gate && out == sl.out
    {
      var sl := ChannelStep(curL, tgtL, fltL, Gate(gateLActive, gateLUntil), now, cfg, cfg.leftScale);
      curL, fltL, gateLActive, gateLUntil := sl.cur, sl.flt, sl.gate.active, sl.gate.until;
      out := sl.out;
    }

    /** The right side's computation in `Tank_Update`, with the percent it produces. */
    method StepRight(now: u32) returns (out: i8)
      requires Valid()
      modifies this`curR, this`fltR, this`gateRActive, this`gateRUntil
      ensures Valid()
      ensures var sr := ChannelStep(old(curR), tgtR, old(fltR), Gate(old(gateRActive), old(gateRUntil)), now, cfg, cfg.rightScale);
              curR == sr.cur && fltR == sr.flt && Gate(gateRActive, gateRUntil) == sr.gate && out == sr.out
    {
      var sr := ChannelStep(curR, tgtR, fltR, Gate(gateRActive, gateRUntil), now, cfg, cfg.rightScale);
      curR, fltR, gateRActive, gateRUntil := sr.cur, sr.flt, sr.gate.active, sr.gate.until;
      out := sr.out;
    }

    /** `Tank_Stop`: both targets to 0. */
    method Stop()
      requires Valid()
      modifies this`tgtL, this`tgtR
      ensures Valid() && tgtL == 0 && tgtR == 0
    {
      tgtL, tgtR := 0, 0;
    }

    /** Straight ahead: both targets to the percent clamped to 0..100. */
    method Forward(pct: i8)
      requires Valid()
      modifies this`tgtL, this`tgtR
      ensures Valid() && tgtL == Clamp(pct, 0, 100) && tgtR == Clamp(pct, 0, 100)
    {
      var p := ClampI8(pct, 0, 100);
      tgtL, tgtR := p, p;
    }

    /** Straight back: both targets to minus the percent clamped to 0..100. */
    method Backward(pct: i8)
      requires Valid()
      modifies this`tgtL, this`tgtR
      ensures Valid() && tgtL == -Clamp(pct, 0, 100) && tgtR == -Clamp(pct, 0, 100)
    {
      var p := ClampI8(pct, 0, 100);
      tgtL, tgtR := -p, -p;
    }

    /** Arc to the left: left is the inner track. */
    method TurnLeft(pct: i8)
      requires Valid()
      modifies this`tgtL, this`tgtR
      ensures Valid() && tgtL == Clamp(pct, 0, 100) / 2 && tgtR == Clamp(pct, 0, 100)
    {
      var p := ClampI8(pct, 0, 100);
      var arc := ArcPair(p);
      tgtL, tgtR := arc.0, arc.1;
    }

    /** Arc to the right: right is the inner track. */
    method TurnRight(pct: i8)
      requires Valid()
      modifies this`tgtL, this`tgtR
      ensures Valid() && tgtL == Clamp(pct, 0, 100) && tgtR == Clamp(pct, 0, 100) / 2
    {
      var p := ClampI8(pct, 0, 100);
      var arc := ArcPair(p);
      tgtL, tgtR := arc.1, arc.0;
    }

    /** Spin in place to the left: left backward, right forward. */
    method RotateLeft(pct: i8)
      requires Valid()
      modifies this`tgtL, this`tgtR
      ensures Valid() && tgtL == -Clamp(pct, 0, 100) && tgtR == Clamp(pct, 0, 100)
    {
      var p := ClampI8(pct, 0, 100);
      tgtL, tgtR := -p, p;
    }

    /** Spin in place to the right: left forward, right backward. */
    method RotateRight(pct: i8)
      requires Valid()
      modifies this`tgtL, this`tgtR
      ensures Valid() && tgtL == Clamp(pct, 0, 100) && tgtR == -Clamp(pct, 0, 100)
    {
      var p := ClampI8(pct, 0, 100);
      tgtL, tgtR := p, -p;
    }

    /** `Tank_SetTarget`: each target clamped to -100..100. */
    method SetTarget(left: i8, right: i8)
      requires Valid()
      modifies this`tgtL, this`tgtR
      ensures Valid() && tgtL == Clamp(left, -100, 100) && tgtR == Clamp(right, -100, 100)
    {
      tgtL, tgtR := ClampI8(left, -100, 100), ClampI8(right, -100, 100);
    }
  }
}
