/**
  The TCS3472 colour sensor driver, one state per side: the stored bus
  handle, the current analogue gain and whether the smoothing filter has
  taken its first sample. Each read fetches the raw clear/red/green/blue
  counts and then adjusts the gain by one level with hysteresis on the
  clear channel. Bus transfers are inputs to the model, and register writes
  go to a ghost log.
 */
module Tcs {
  import opened Ints

  /** Values of `TCS_Gain_t`. */
  const Gain1x: int := 0
  const Gain4x: int := 1
  const Gain16x: int := 2
  const Gain60x: int := 3

  const RegEnable: u8 := 0x00
  const RegAtime: u8 := 0x01
  const RegControl: u8 := 0x0F

  /** Full scale of a 16-bit count. */
  const FullScale: int := 65535

  predicate IsGain(g: int)
  {
    Gain1x <= g <= Gain60x
  }

  /**
    `tcs_gain_to_reg`: the AGAIN field of the CONTROL register. The four
    gains are numbered in the register's own order; any other value falls
    back to the 4x code.
   */
  function GainToReg(g: int): (r: u8)
    ensures IsGain(g) ==> r == g
    ensures !IsGain(g) ==> r == 0x01
    ensures r <= 3
  {
    if g == Gain1x then 0x00
    else if g == Gain4x then 0x01
    else if g == Gain16x then 0x02
    else if g == Gain60x then 0x03
    else 0x01
  }

  /** The four gains have four different register codes. */
  lemma GainToRegInjective(g: int, h: int)
    requires IsGain(g) && IsGain(h) && g != h
    ensures GainToReg(g) != GainToReg(h)
  {
  }

  /**
    The auto-gain step on one clear reading: above the high threshold the
    gain drops one level (and the bottom level stays), below the low
    threshold it rises one level (and the top level stays), in between it
    is kept. A gain outside the four levels is taken as 60x when the light
    is too strong and kept when it is too weak.
   */
  function NextGain(g: int, clear: u16, thrLo: int, thrHi: int): (r: int)
    ensures clear > thrHi && IsGain(g) ==> r == Max(g - 1, Gain1x)
    ensures clear > thrHi && !IsGain(g) ==> r == Gain16x
    ensures clear <= thrHi && clear < thrLo && IsGain(g) ==> r == Min(g + 1, Gain60x)
    ensures clear <= thrHi && clear < thrLo && !IsGain(g) ==> r == g
    ensures thrLo <= clear <= thrHi ==> r == g
    ensures IsGain(g) ==> IsGain(r) && Abs(r - g) <= 1
  {
    if clear > thrHi then
      if g == Gain16x then Gain4x
      else if g == Gain4x then Gain1x
      else if g == Gain1x then g
      else Gain16x
    else if clear < thrLo then
      if g == Gain1x then Gain4x
      else if g == Gain4x then Gain16x
      else if g == Gain16x then Gain60x
      else g
    else g
  }

  /**
    The thresholds actually used, from the configured fractions of full
    scale: the low one raised to at least 0.05, the high one lowered to at
    most 0.95 and then raised to at least low + 0.02, each scaled to 65535
    and rounded half up (the `uint32_t` cast truncates a positive value).
    The fractions are exact reals here.
   */
  function Thresholds(loPct: real, hiPct: real): (t: (int, int))
    requires loPct < 1000.0
    ensures 0 <= t.0 < t.1 < U32
    ensures t.1 - t.0 >= 1310
  {
    var lo := if loPct < 0.05 then 0.05 else loPct;
    var hi0 := if hiPct > 0.95 then 0.95 else hiPct;
    var hi := if hi0 < lo + 0.02 then lo + 0.02 else hi0;
    assert hi >= lo + 0.02;
    var a := lo * FullScale as real + 0.5;
    var b := hi * FullScale as real + 0.5;
    assert b >= a + 1310.7;
    (a.Floor, b.Floor)
  }

  /** With the default fractions 0.60 and 0.70 the band is 39321..45875. */
  lemma DefaultThresholds()
    ensures Thresholds(0.60, 0.70) == (39321, 45875)
  {
    var a := 0.60 * 65535.0 + 0.5;
    var b := 0.70 * 65535.0 + 0.5;
    assert a == 39321.5 && b == 45875.0;
  }

  /**
    Hysteresis: a step up taken on a dark reading is undone by exactly one
    bright reading.
   */
  lemma {:induction false} GainStepsUndo(g: int, dark: u16, bright: u16, thrLo: int, thrHi: int)
    requires IsGain(g) && g < Gain60x && thrLo <= thrHi
    requires dark < thrLo && bright > thrHi
    ensures NextGain(NextGain(g, dark, thrLo, thrHi), bright, thrLo, thrHi) == g
  {
    assert NextGain(g, dark, thrLo, thrHi) == g + 1;
  }

  /** Three dark readings in a row take any gain to 60x, and it stays there. */
  lemma {:induction false} DarkReachesMaxGain(g: int, c: u16, thrLo: int, thrHi: int)
    requires IsGain(g) && c < thrLo && thrLo <= thrHi
    ensures var g1 := NextGain(g, c, thrLo, thrHi);
            var g2 := NextGain(g1, c, thrLo, thrHi);
            NextGain(g2, c, thrLo, thrHi) == Gain60x && NextGain(Gain60x, c, thrLo, thrHi) == Gain60x
  {
    var g1 := NextGain(g, c, thrLo, thrHi);
    var g2 := NextGain(g1, c, thrLo, thrHi);
    assert g1 == Min(g + 1, Gain60x);
    assert g2 == Min(g + 2, Gain60x);
  }

  /** One reading: clear, red, green, blue counts. */
  datatype ColorData = ColorData(clear: u16, red: u16, green: u16, blue: u16)

  const NoColor: ColorData := ColorData(0, 0, 0, 0)

  type Buf8 = s: seq<u8> | |s| == 8 witness [0, 0, 0, 0, 0, 0, 0, 0]

  /**
    `tcs_read_raw`: with a bus handle, a successful register-address write
    and a successful 8-byte receive, the four counts low byte first; zeros
    otherwise.
   */
  function ReadRaw(bus: bool, txOk: bool, rx: Option<Buf8>): (d: ColorData)
    ensures !(bus && txOk && rx.Some?) ==> d == NoColor
    ensures bus && txOk && rx.Some? ==>
              var b := rx.value;
              d.clear % 256 == b[0] && d.clear / 256 == b[1] && d.red % 256 == b[2] && d.red / 256 == b[3] &&
              d.green % 256 == b[4] && d.green / 256 == b[5] && d.blue % 256 == b[6] && d.blue / 256 == b[7]
  {
    if bus && txOk && rx.Some? then
      var b := rx.value;
      ColorData(DecodeLE16(b[0], b[1]), DecodeLE16(b[2], b[3]), DecodeLE16(b[4], b[5]), DecodeLE16(b[6], b[7]))
    else NoColor
  }

  /** The bytes the sensor sends for a reading. */
  function EncodeColor(d: ColorData): (b: Buf8)
  {
    [d.clear % 256, d.clear / 256, d.red % 256, d.red / 256,
     d.green % 256, d.green / 256, d.blue % 256, d.blue / 256]
  }

  /** A successful read returns exactly the counts the sensor holds. */
  lemma ReadRawRoundTrip(d: ColorData)
    ensures ReadRaw(true, true, Some(EncodeColor(d))) == d
  {
  }

  /** One register write on the bus: register address and value. */
  datatype RegWrite = RegWrite(reg: u8, val: u8)

  /** The per-side state `TCS_State_t`, without the smoothing filter's values. */
  class Side {
    var busSet: bool
    var gain: int
    var emaInit: bool
    ghost var writes: seq<RegWrite>

    constructor ()
      ensures !busSet && gain == Gain1x && !emaInit && writes == []
    {
      busSet, gain, emaInit := false, Gain1x, false;
      writes := [];
    }

    /**
      `tcs_set_gain`: a request for the current gain does nothing; any
      other writes the CONTROL register once and stores the new gain.
     */
    method SetGain(newGain: int)
      modifies this`gain, this`writes
      ensures gain == newGain
      ensures writes == old(writes) + (if old(gain) == newGain then [] else [RegWrite(RegControl, GainToReg(newGain))])
    {
      if gain == newGain {
        return;
      }
      writes := writes + [RegWrite(RegControl, GainToReg(newGain))];
      gain := newGain;
    }

    /**
      `TCS3472_Config`: nothing with a null handle; otherwise power on and
      enable, the integration time and the configured gain are written, and
      when the handle belongs to this side its gain is reset to the
      configured one and the filter is marked uninitialised.
     */
    method Config(handle: bool, ofThisSide: bool, cfgGain: int, atimeReg: u8)
      modifies this`gain, this`emaInit, this`writes
      ensures !handle ==> gain == old(gain) && emaInit == old(emaInit) && writes == old(writes)
      ensures handle ==>
                writes == old(writes) + [RegWrite(RegEnable, 0x03), RegWrite(RegAtime, atimeReg), RegWrite(RegControl, GainToReg(cfgGain))]
      ensures handle && ofThisSide ==> gain == cfgGain && !emaInit
      ensures !(handle && ofThisSide) ==> gain == old(gain) && emaInit == old(emaInit)
    {
      if !handle {
        return;
      }
      writes := writes + [RegWrite(RegEnable, 0x03), RegWrite(RegAtime, atimeReg), RegWrite(RegControl, GainToReg(cfgGain))];
      if ofThisSide {
        gain := cfgGain;
        emaInit := false;
      }
    }

    /** `TCS3472_*_Init`: store the handle, reset gain and filter, then configure the sensor. */
    method Init(handle: bool, cfgGain: int, atimeReg: u8)
      modifies this
      ensures busSet == handle && gain == cfgGain && !emaInit
      ensures handle ==>
                writes == old(writes) + [RegWrite(RegEnable, 0x03), RegWrite(RegAtime, atimeReg), RegWrite(RegControl, GainToReg(cfgGain))]
      ensures !handle ==> writes == old(writes)
    {
      busSet := handle;
      gain := cfgGain;
      emaInit := false;
      Config(handle, true, cfgGain, atimeReg);
    }

    /**
      `TCS3472_Process` without the smoothing arithmetic: with no bus the
      zero reading and no change; otherwise the raw read, one auto-gain
      step on its clear count, and the filter marked initialised. The raw
      reading is returned.
     */
    method Process(thrLo: int, thrHi: int, txOk: bool, rx: Option<Buf8>) returns (raw: ColorData)
      modifies this`gain, this`emaInit, this`writes
      ensures !busSet ==> raw == NoColor && gain == old(gain) && emaInit == old(emaInit) && writes == old(writes)
      ensures busSet ==> raw == ReadRaw(true, txOk, rx)
      ensures busSet ==> gain == NextGain(old(gain), raw.clear, thrLo, thrHi) && emaInit
      ensures busSet ==>
                writes == old(writes) + (if gain == old(gain) then [] else [RegWrite(RegControl, GainToReg(gain))])
    {
      raw := NoColor;
      if !busSet {
        return;
      }
      raw := ReadRaw(busSet, txOk, rx);
      if raw.clear > thrHi {
        if gain == Gain16x {
          SetGain(Gain4x);
        } else if gain == Gain4x {
          SetGain(Gain1x);
        } else if gain == Gain1x {
        } else {
          SetGain(Gain16x);
        }
      } else if raw.clear < thrLo {
        if gain == Gain1x {
          SetGain(Gain4x);
        } else if gain == Gain4x {
          SetGain(Gain16x);
        } else if gain == Gain16x {
          SetGain(Gain60x);
        }
      }
      if !emaInit {
        emaInit := true;
      }
    }
  }
}
