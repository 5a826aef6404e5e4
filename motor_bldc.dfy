/**
  The two-channel ESC output layer on TIM1 (RC PWM, 50 Hz): a percent command
  around neutral becomes a pulse width in microseconds, which is clamped to the
  1000..2000 us window and written to the compare register of one channel.
  Channel 1 drives the right track, channel 4 the left one.
 */
module MotorBldc {
  import opened Ints

  const MinUs: int := 1000
  const NeuUs: int := 1500
  const MaxUs: int := 2000

  /** Values of `ESC_Channel_t`; any other code falls into the switch's default branch. */
  const Ch1: int := 0
  const Ch4: int := 1

  /** One call into the ESC layer, as recorded by the model's ghost log. */
  datatype EscCall =
    | InitCall
    | PulseCall(ch: int, us: u16)
    | PercentCall(ch: int, percent: i8)
    | NeutralAllCall

  /** The pulse width the compare-register writer actually stores for a request of `us`. */
  function ClampPulse(us: int): (r: int)
    ensures MinUs <= r <= MaxUs
    ensures MinUs <= us <= MaxUs ==> r == us
    ensures us < MinUs ==> r == MinUs
    ensures us > MaxUs ==> r == MaxUs
  {
    Clamp(us, MinUs, MaxUs)
  }

  /**
    The percent-to-microseconds map of the raw percent writer: the command is
    clamped to -100..100 and mapped linearly around neutral with a half span of
    500 us and C's truncating division by 100, which comes out as 5 us per percent.
   */
  function PercentToUs(percent: i8): (r: int)
    ensures r == NeuUs + 5 * Clamp(percent, -100, 100)
    ensures MinUs <= r <= MaxUs
  {
    var p := Clamp(percent, -100, 100);
    NeuUs + TruncDiv((MaxUs - MinUs) / 2 * p, 100)
  }

  /** The two ends and the middle of the window land where the header promises. */
  lemma PercentEndpoints()
    ensures PercentToUs(-100) == MinUs
    ensures PercentToUs(0) == NeuUs
    ensures PercentToUs(100) == MaxUs
    ensures forall p: i8 :: p <= -100 ==> PercentToUs(p) == MinUs
    ensures forall p: i8 :: p >= 100 ==> PercentToUs(p) == MaxUs
  {
  }

  /** The written pulse is strictly increasing in the (clamped) percent command. */
  lemma PercentStrictlyIncreasing(p: i8, q: i8)
    requires -100 <= p < q <= 100
    ensures PercentToUs(p) < PercentToUs(q)
  {
  }

  /** The getters report the window the writers enforce. */
  function GetMinUs(): (r: u16)
    ensures r == ClampPulse(0) && r == PercentToUs(-100)
  {
    MinUs
  }

  function GetNeuUs(): (r: u16)
    ensures r == PercentToUs(0) && GetMinUs() < r
  {
    NeuUs
  }

  function GetMaxUs(): (r: u16)
    ensures r == ClampPulse(0xFFFF) && r == PercentToUs(100) && GetNeuUs() < r
  {
    MaxUs
  }

  /**
    The ESC layer's state: whether a timer handle has been stored (`s_tim1`)
    and the compare values of channels 1 and 4. `calls` logs every call made
    into the layer, in order.
   */
  class Esc {
    var timerSet: bool
    var ccr1: int
    var ccr4: int
    ghost var calls: seq<EscCall>

    /** A compare value is either the reset value 0 or inside the pulse window. */
    ghost predicate Valid()
      reads this
    {
      (ccr1 == 0 || MinUs <= ccr1 <= MaxUs) && (ccr4 == 0 || MinUs <= ccr4 <= MaxUs)
    }

    /** Power-on state: no timer handle stored, compare registers at reset. */
    constructor ()
      ensures Valid() && !timerSet && ccr1 == 0 && ccr4 == 0 && calls == []
    {
      timerSet := false;
      ccr1 := 0;
      ccr4 := 0;
      calls := [];
    }

    /**
      Stores the clamped pulse in the addressed channel's compare register;
      does nothing before a timer handle is stored or for an unknown channel.
     */
    method SetCcr(ch: int, us: u16)
      requires Valid()
      modifies this`ccr1, this`ccr4
      ensures Valid()
      ensures ccr1 == if timerSet && ch == Ch1 then ClampPulse(us) else old(ccr1)
      ensures ccr4 == if timerSet && ch == Ch4 then ClampPulse(us) else old(ccr4)
    {
      if !timerSet {
        return;
      }
      var v := ClampPulse(us);
      if ch == Ch1 {
        ccr1 := v;
      } else if ch == Ch4 {
        ccr4 := v;
      }
    }

    /** Both channels to neutral (1500 us). */
    method SetNeutralAll()
      requires Valid()
      modifies this`ccr1, this`ccr4, this`calls
      ensures Valid()
      ensures ccr1 == (if timerSet then NeuUs else old(ccr1))
      ensures ccr4 == (if timerSet then NeuUs else old(ccr4))
      ensures calls == old(calls) + [NeutralAllCall]
    {
      calls := calls + [NeutralAllCall];
      SetCcr(Ch1, NeuUs);
      SetCcr(Ch4, NeuUs);
    }

    /** Stores the timer handle (`hasTimer` says whether it is non-null) and, with a timer, leaves both channels at neutral. */
    method Init(hasTimer: bool)
      requires Valid()
      modifies this
      ensures Valid() && timerSet == hasTimer
      ensures ccr1 == (if hasTimer then NeuUs else old(ccr1))
      ensures ccr4 == (if hasTimer then NeuUs else old(ccr4))
      ensures calls == old(calls) + [InitCall, NeutralAllCall]
    {
      timerSet := hasTimer;
      calls := calls + [InitCall];
      SetNeutralAll();
    }

    /** The one-off arming at start-up: both channels to neutral, then a blocking wait of `neutralMs`. */
    method ArmNeutral(neutralMs: u32)
      requires Valid()
      modifies this`ccr1, this`ccr4, this`calls
      ensures Valid()
      ensures ccr1 == (if timerSet then NeuUs else old(ccr1))
      ensures ccr4 == (if timerSet then NeuUs else old(ccr4))
      ensures calls == old(calls) + [NeutralAllCall]
    {
      SetNeutralAll();
    }

    /** A pulse request in microseconds, stored clamped to the window. */
    method WritePulseUs(ch: int, us: u16)
      requires Valid()
      modifies this`ccr1, this`ccr4, this`calls
      ensures Valid()
      ensures ccr1 == if timerSet && ch == Ch1 then ClampPulse(us) else old(ccr1)
      ensures ccr4 == if timerSet && ch == Ch4 then ClampPulse(us) else old(ccr4)
      ensures calls == old(calls) + [PulseCall(ch, us)]
    {
      calls := calls + [PulseCall(ch, us)];
      SetCcr(ch, us);
    }

    /** A percent command, stored as its pulse width around neutral. */
    method WritePercentRaw(ch: int, percent: i8)
      requires Valid()
      modifies this`ccr1, this`ccr4, this`calls
      ensures Valid()
      ensures ccr1 == if timerSet && ch == Ch1 then PercentToUs(percent) else old(ccr1)
      ensures ccr4 == if timerSet && ch == Ch4 then PercentToUs(percent) else old(ccr4)
      ensures calls == old(calls) + [PercentCall(ch, percent)]
    {
      calls := calls + [PercentCall(ch, percent)];
      var outUs := PercentToUs(percent);
      // 1000..2000 fits uint16_t, so the cast keeps the value.
      SetCcr(ch, outUs);
    }
  }
}
