/**
  The register-based TF-Luna driver: each read tries up to three times to
  fetch registers 0x00..0x05 over I2C, decodes distance and strength
  little-endian, feeds them through a five-slot median/mean filter and
  reports both the raw and the filtered values. When every try fails it
  reports the last filter outputs with `frameReady` cleared. The bus
  transfers are inputs to the model: each try is either the six register
  bytes or a failure.
 */
module LunaCore {
  import opened Ints
  import opened LunaFilter

  const WinMax: nat := 5
  const Tries: nat := 3

  /** The six bytes of registers 0x00..0x05: distance, amplitude, temperature, each low byte first. */
  type Regs = s: seq<u8> | |s| == 6 witness [0, 0, 0, 0, 0, 0]

  /**
    What a read returns, given whether a bus handle is stored, the outcome
    of each try, the filter outputs before the read and those the filter
    computes on success.
   */
  function Outcome(bus: bool, attempts: seq<Option<Regs>>, prevMed: u16, prevMa: u16, med: u16, ma: u16): (out: LunaData)
    ensures !bus ==> out == NoData
    ensures bus && FirstSome(attempts).None? ==> out == LunaData(0, prevMed, 0, prevMa, false)
    ensures bus && FirstSome(attempts).Some? ==>
              var b := attempts[FirstSome(attempts).value].value;
              out == LunaData(DecodeLE16(b[0], b[1]), med, DecodeLE16(b[2], b[3]), ma, true)
    ensures out.frameReady <==> bus && exists i :: 0 <= i < |attempts| && attempts[i].Some?
  {
    if !bus then NoData
    else match FirstSome(attempts)
      case None => LunaData(0, prevMed, 0, prevMa, false)
      case Some(k) =>
        var b := attempts[k].value;
        LunaData(DecodeLE16(b[0], b[1]), med, DecodeLE16(b[2], b[3]), ma, true)
  }

  /** One sensor: its stored bus handle and its filter state. */
  class Sensor {
    var busSet: bool
    const filt: Ring

    ghost predicate Valid()
      reads this, filt
    {
      filt.Valid() && filt.cap == WinMax
    }

    /** The static state before `TF_Luna_*_Init`: no handle, zeroed filter. */
    constructor ()
      ensures Valid() && !busSet && fresh(filt) && fresh(filt.dist) && fresh(filt.str)
      ensures filt.count == 0 && filt.idx == 0 && filt.lastMed == 0 && filt.lastMa == 0
    {
      busSet := false;
      filt := new Ring(WinMax);
    }

    /** `TF_Luna_*_Init` only stores the handle (`handle` says whether it is non-null); the filter state is kept. */
    method Init(handle: bool)
      modifies this`busSet
      ensures busSet == handle
    {
      busSet := handle;
    }

    /**
      `TF_Luna_Read_Generic`: the first successful try is decoded and
      filtered; later tries are not made. With no success the filter is left
      as it was.
     */
    method ReadGeneric(attempts: seq<Option<Regs>>, medianWin: u8, maWin: u8) returns (out: LunaData)
      requires Valid() && |attempts| == Tries
      modifies filt`count, filt`idx, filt`lastMed, filt`lastMa, filt.dist, filt.str
      ensures Valid()
      ensures out == Outcome(busSet, attempts, old(filt.lastMed), old(filt.lastMa), filt.lastMed, filt.lastMa)
      ensures !(busSet && FirstSome(attempts).Some?) ==>
                filt.dist[..] == old(filt.dist[..]) && filt.str[..] == old(filt.str[..]) &&
                filt.count == old(filt.count) && filt.idx == old(filt.idx) &&
                filt.lastMed == old(filt.lastMed) && filt.lastMa == old(filt.lastMa)
      ensures busSet && FirstSome(attempts).Some? ==>
                var b := attempts[FirstSome(attempts).value].value;
                filt.dist[..] == old(filt.dist[..])[old(filt.idx) := DecodeLE16(b[0], b[1])] &&
                filt.str[..] == old(filt.str[..])[old(filt.idx) := DecodeLE16(b[2], b[3])] &&
                filt.count == Min(old(filt.count) + 1, WinMax) && filt.idx == (old(filt.idx) + 1) % WinMax &&
                filt.lastMed == Median(filt.dist[..Min(filt.count, MedianWindow(medianWin, WinMax))]) &&
                filt.lastMa == Mean(filt.str[..Min(filt.count, AverageWindow(maWin, WinMax))])
    {
      out := NoData;
      if !busSet {
        return;
      }
      var i := 0;
      while i < Tries
        invariant 0 <= i <= Tries
        invariant forall j :: 0 <= j < i ==> attempts[j].None?
        invariant filt.dist[..] == old(filt.dist[..]) && filt.str[..] == old(filt.str[..])
        invariant filt.count == old(filt.count) && filt.idx == old(filt.idx)
        invariant filt.lastMed == old(filt.lastMed) && filt.lastMa == old(filt.lastMa)
      {
        if attempts[i].Some? {
          assert FirstSome(attempts) == Some(i);
          var b := attempts[i].value;
          var dist := DecodeLE16(b[0], b[1]);
          var strength := DecodeLE16(b[2], b[3]);
          var med, ma := filt.Update(dist, strength, medianWin, maWin);
          out := LunaData(dist, med, strength, ma, true);
          return;
        }
        i := i + 1;
      }
      out := LunaData(0, filt.lastMed, 0, filt.lastMa, false);
    }

    /**
      `TF_Luna_Right_Read` / `TF_Luna_Left_Read`: a generic read whose raw
      distance is then shifted by the side's offset and clamped to 0..65535.
     */
    method Read(offset: int, attempts: seq<Option<Regs>>, medianWin: u8, maWin: u8) returns (d: LunaData)
      requires Valid() && |attempts| == Tries
      requires -0x8000 <= offset < 0x8000
      modifies filt`count, filt`idx, filt`lastMed, filt`lastMa, filt.dist, filt.str
      ensures Valid()
      ensures var g := Outcome(busSet, attempts, old(filt.lastMed), old(filt.lastMa), filt.lastMed, filt.lastMa);
              d == g.(distance := ApplyOffset(g.distance, offset))
    {
      d := ReadGeneric(attempts, medianWin, maWin);
      d := d.(distance := ApplyOffset(d.distance, offset));
    }
  }

  /** A failed read repeats the filter outputs of the last good one and sets no new frame. */
  lemma FallbackRepeatsLastFilter(attempts: seq<Option<Regs>>, prevMed: u16, prevMa: u16, med: u16, ma: u16)
    requires forall i :: 0 <= i < |attempts| ==> attempts[i].None?
    ensures var out := Outcome(true, attempts, prevMed, prevMa, med, ma);
            !out.frameReady && out.distanceFilt == prevMed && out.strengthFilt == prevMa && out.distance == 0
  {
  }

  /**
    A successful try reports its raw bytes back exactly: distance and
    strength split again into the register bytes the sensor sent.
   */
  lemma SuccessReportsRawRegisters(attempts: seq<Option<Regs>>, prevMed: u16, prevMa: u16, med: u16, ma: u16, k: nat)
    requires k < |attempts| && attempts[k].Some?
    requires forall j :: 0 <= j < k ==> attempts[j].None?
    ensures var out := Outcome(true, attempts, prevMed, prevMa, med, ma);
            var b := attempts[k].value;
            out.frameReady && out.distance % 256 == b[0] && out.distance / 256 == b[1] &&
            out.strength % 256 == b[2] && out.strength / 256 == b[3] &&
            out.distanceFilt == med && out.strengthFilt == ma
  {
    FirstSomeIs(attempts, k);
  }
}
