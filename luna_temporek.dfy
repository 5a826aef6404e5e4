/**
  The frame-based TF-Luna driver variant: the sensor sends 9-byte frames
  `0x59 0x59 DistL DistH StrL StrH TempL TempH Sum`, where `Sum` is the low
  byte of the sum of the first eight bytes (the TF-Luna vendor frame format).
  Each try fetches a frame three ways in turn (a register read from 0x00, a
  plain 9-byte receive, an 18-byte receive searched for a frame start); a read
  makes up to five tries, and a good frame goes through a nine-slot
  median/mean filter whose outputs are what the read reports. The bus
  transfers are inputs to the model: each is either the bytes received or a
  failure.
 */
module LunaTemporek {
  import opened Ints
  import opened LunaFilter

  const WinMax: nat := 9
  const Tries: nat := 5
  const Header: u8 := 0x59

  type Buf9 = s: seq<u8> | |s| == 9 witness [0, 0, 0, 0, 0, 0, 0, 0, 0]
  type Buf18 = s: seq<u8> | |s| == 18 witness seq(18, _ => 0)

  // ------------------------------------------------------------------------
  // Frame validation
  // ------------------------------------------------------------------------

  function ByteSum(b: seq<u8>): nat
    decreases |b|
  {
    if |b| == 0 then 0 else ByteSum(b[..|b| - 1]) + b[|b| - 1]
  }

  /** A frame: the two header bytes, then a checksum byte equal to the first eight bytes' sum mod 256. */
  predicate IsFrame(b: seq<u8>)
    requires |b| >= 9
  {
    b[0] == Header && b[1] == Header && ByteSum(b[..8]) % 256 == b[8]
  }

  /** `frame_valid`: the header test, then the 16-bit running sum of bytes 0..7 against byte 8. */
  method FrameValid(b: seq<u8>) returns (ok: bool)
    requires |b| >= 9
    ensures ok <==> IsFrame(b)
  {
    if b[0] != Header || b[1] != Header {
      return false;
    }
    var sum: u16 := 0;
    var i := 0;
    while i < 8
      invariant 0 <= i <= 8
      invariant sum == ByteSum(b[..i]) && sum <= 255 * i
    {
      assert b[..i + 1][..i] == b[..i];
      sum := sum + b[i];
      i := i + 1;
    }
    assert b[..8] == b[..i];
    ok := sum % 256 == b[8];
  }

  /** The frame the sensor sends for a distance, a strength and a raw temperature. */
  function EncodeFrame(dist: u16, strength: u16, temp: u16): (f: Buf9)
    ensures IsFrame(f)
    ensures DecodeLE16(f[2], f[3]) == dist && DecodeLE16(f[4], f[5]) == strength
  {
    var body := [Header, Header, dist % 256, dist / 256, strength % 256, strength / 256, temp % 256, temp / 256];
    var f := body + [ByteSum(body) % 256];
    assert f[..8] == body;
    f
  }

  /** Replacing one byte changes the sum by exactly the difference of the two bytes. */
  lemma {:induction false} ByteSumUpdate(b: seq<u8>, k: nat, v: u8)
    requires k < |b|
    ensures ByteSum(b[k := v]) == ByteSum(b) - b[k] + v
    decreases |b|
  {
    var c := b[k := v];
    var n := |b| - 1;
    if k == n {
      assert c[..n] == b[..n];
    } else {
      ByteSumUpdate(b[..n], k, v);
      assert c[..n] == b[..n][k := v];
    }
  }

  /**
    The checksum catches every single-byte corruption of the payload: a
    frame with one of bytes 2..7 changed is rejected.
   */
  lemma ChecksumCatchesOneByte(b: Buf9, k: nat, v: u8)
    requires IsFrame(b) && 2 <= k < 8 && v != b[k]
    ensures !IsFrame(b[k := v])
  {
    var c := b[k := v];
    assert c[..8] == b[..8][k := v];
    ByteSumUpdate(b[..8], k, v);
    var d := v - b[k];
    assert ByteSum(c[..8]) == ByteSum(b[..8]) + d;
    assert -256 < d < 256 && d != 0;
    if IsFrame(c) {
      assert (ByteSum(b[..8]) + d) % 256 == ByteSum(b[..8]) % 256;
      ModShift(ByteSum(b[..8]), d);
    }
  }

  lemma ModShift(x: int, d: int)
    requires -256 < d < 256 && d != 0
    ensures (x + d) % 256 != x % 256
  {
    var q, r := x / 256, x % 256;
    var q', r' := (x + d) / 256, (x + d) % 256;
    assert d == 256 * (q' - q) + (r' - r);
  }

  // ------------------------------------------------------------------------
  // The 18-byte resynchronisation search
  // ------------------------------------------------------------------------

  /** A valid frame starts at offset `i` of `b`. */
  predicate FrameAt(b: seq<u8>, i: int)
  {
    0 <= i && i + 9 <= |b| && IsFrame(b[i..i + 9])
  }

  /** The first offset at or after `from` where a frame starts. */
  function FindFrom(b: seq<u8>, from: nat): (r: Option<nat>)
    ensures r.Some? ==> from <= r.value && FrameAt(b, r.value) &&
                        forall j :: from <= j < r.value ==> !FrameAt(b, j)
    ensures r.None? ==> forall j :: from <= j ==> !FrameAt(b, j)
    decreases |b| - from
  {
    if from + 9 > |b| then None
    else if FrameAt(b, from) then Some(from)
    else FindFrom(b, from + 1)
  }

  function FindFrame(b: seq<u8>): (r: Option<nat>)
  {
    FindFrom(b, 0)
  }

  /**
    The resync scan of `tfluna_try_read`: offsets 0..9 of the 18-byte buffer
    in turn, a header pair first and then the full frame test.
   */
  method Resync(b: Buf18) returns (r: Option<nat>)
    ensures r == FindFrame(b)
    ensures r.Some? ==> r.value <= 9 && IsFrame(b[r.value..r.value + 9])
  {
    var i := 0;
    while i <= |b| - 9
      invariant 0 <= i <= |b| - 8
      invariant FindFrame(b) == FindFrom(b, i)
    {
      if b[i] == Header && b[i + 1] == Header {
        var ok := FrameValid(b[i..i + 9]);
        if ok {
          return Some(i);
        }
      }
      i := i + 1;
    }
    return None;
  }

  /**
    A frame that slipped by `j` bytes is found again at `j`, provided no
    earlier offset happens to hold a valid frame as well.
   */
  lemma ResyncFindsSlippedFrame(b: Buf18, j: nat)
    requires j <= 9 && FrameAt(b, j)
    requires forall i :: 0 <= i < j ==> !FrameAt(b, i)
    ensures FindFrame(b) == Some(j)
  {
    var r := FindFrame(b);
    assert r.Some?;
    assert !(r.value < j);
  }

  // ------------------------------------------------------------------------
  // One try and its three transfers
  // ------------------------------------------------------------------------

  /** The outcome of each transfer of one try; `None` is a transfer that did not return `HAL_OK`. */
  datatype Attempt = Attempt(memRead: Option<Buf9>, recv9: Option<Buf9>, recv18: Option<Buf18>)

  /** The frame one try delivers, if any: the first of the three transfers that yields a valid frame. */
  function TryOutcome(a: Attempt): (r: Option<Buf9>)
    ensures r.Some? ==> IsFrame(r.value)
    ensures a.memRead.Some? && IsFrame(a.memRead.value) ==> r == a.memRead
    ensures !(a.memRead.Some? && IsFrame(a.memRead.value)) && a.recv9.Some? && IsFrame(a.recv9.value) ==> r == a.recv9
    ensures !(a.memRead.Some? && IsFrame(a.memRead.value)) && !(a.recv9.Some? && IsFrame(a.recv9.value)) ==>
              if a.recv18.Some? && FindFrame(a.recv18.value).Some?
              then var i := FindFrame(a.recv18.value).value; r.Some? && r.value == a.recv18.value[i..i + 9]
              else r.None?
  {
    if a.memRead.Some? && IsFrame(a.memRead.value) then a.memRead
    else if a.recv9.Some? && IsFrame(a.recv9.value) then a.recv9
    else if a.recv18.Some? then
      match FindFrame(a.recv18.value)
      case Some(i) => var w: Buf9 := a.recv18.value[i..i + 9]; Some(w)
      case None => None
    else None
  }

  /**
    `tfluna_try_read`: with no bus handle nothing is attempted; otherwise the
    three transfers in order, and the first valid frame is copied out. On
    failure the caller's buffer keeps what it held.
   */
  method TryRead(bus: bool, a: Attempt, prev: Buf9) returns (ok: bool, out9: Buf9)
    ensures ok <==> bus && TryOutcome(a).Some?
    ensures ok ==> out9 == TryOutcome(a).value && IsFrame(out9)
    ensures !ok ==> out9 == prev
  {
    out9 := prev;
    ok := false;
    if !bus {
      return;
    }
    if a.memRead.Some? {
      var v := FrameValid(a.memRead.value);
      if v {
        return true, a.memRead.value;
      }
    }
    if a.recv9.Some? {
      var v := FrameValid(a.recv9.value);
      if v {
        return true, a.recv9.value;
      }
    }
    if a.recv18.Some? {
      var i := Resync(a.recv18.value);
      if i.Some? {
        return true, a.recv18.value[i.value..i.value + 9];
      }
    }
  }

  // ------------------------------------------------------------------------
  // A read
  // ------------------------------------------------------------------------

  /** The result of one read without the temperature: filtered distance and strength. */
  datatype FrameData = FrameData(distance: u16, strength: u16, frameReady: bool)

  const NoFrame: FrameData := FrameData(0, 0, false)

  /** The frame each try of a read delivers. */
  function Frames(attempts: seq<Attempt>): (r: seq<Option<Buf9>>)
    ensures |r| == |attempts|
  {
    seq(|attempts|, i requires 0 <= i < |attempts| => TryOutcome(attempts[i]))
  }

  /**
    What a read returns, given whether a bus handle is stored, the tries,
    the filter outputs before the read and those the filter computes when a
    frame arrives.
   */
  function Outcome(bus: bool, attempts: seq<Attempt>, prevMed: u16, prevMa: u16, med: u16, ma: u16): (out: FrameData)
    ensures !bus ==> out == NoFrame
    ensures bus && FirstSome(Frames(attempts)).None? ==> out == FrameData(prevMed, prevMa, false)
    ensures bus && FirstSome(Frames(attempts)).Some? ==> out == FrameData(med, ma, true)
    ensures out.frameReady <==> bus && exists i :: 0 <= i < |attempts| && TryOutcome(attempts[i]).Some?
  {
    if !bus then NoFrame
    else match FirstSome(Frames(attempts))
      case None =>
        assert forall i :: 0 <= i < |attempts| ==> Frames(attempts)[i] == TryOutcome(attempts[i]);
        FrameData(prevMed, prevMa, false)
      case Some(k) =>
        assert Frames(attempts)[k] == TryOutcome(attempts[k]);
        FrameData(med, ma, true)
  }

  /** One sensor: its stored bus handle and its nine-slot filter. */
  class Sensor {
    var busSet: bool
    const filt: Ring

    ghost predicate Valid()
      reads this, filt
    {
      filt.Valid() && filt.cap == WinMax
    }

    constructor ()
      ensures Valid() && !busSet && fresh(filt) && fresh(filt.dist) && fresh(filt.str)
      ensures filt.count == 0 && filt.idx == 0 && filt.lastMed == 0 && filt.lastMa == 0
    {
      busSet := false;
      filt := new Ring(WinMax);
    }

    /** `TF_Luna_*_Init`: store the handle (`handle` says whether it is non-null) and zero the whole filter state. */
    method Init(handle: bool)
      requires Valid()
      modifies this`busSet, filt`count, filt`idx, filt`lastMed, filt`lastMa, filt.dist, filt.str
      ensures Valid() && busSet == handle
      ensures filt.count == 0 && filt.idx == 0 && filt.lastMed == 0 && filt.lastMa == 0
      ensures filt.dist[..] == seq(WinMax, _ => 0) && filt.str[..] == seq(WinMax, _ => 0)
    {
      busSet := handle;
      filt.Reset();
    }

    /** `TF_Luna_*_ResetFilters`: zero the filter state, keep the handle. */
    method ResetFilters()
      requires Valid()
      modifies filt`count, filt`idx, filt`lastMed, filt`lastMa, filt.dist, filt.str
      ensures Valid()
      ensures filt.count == 0 && filt.idx == 0 && filt.lastMed == 0 && filt.lastMa == 0
      ensures filt.dist[..] == seq(WinMax, _ => 0) && filt.str[..] == seq(WinMax, _ => 0)
    {
      filt.Reset();
    }

    /**
      `TF_Luna_Read_Generic`: up to five tries, stopping at the first frame,
      whose distance (bytes 2-3) and strength (bytes 4-5) go through the
      filter. With no frame the last filter outputs are reported and the
      filter is left as it was.
     */
    method ReadGeneric(attempts: seq<Attempt>, medianWin: u8, maWin: u8) returns (out: FrameData)
      requires Valid() && |attempts| == Tries
      modifies filt`count, filt`idx, filt`lastMed, filt`lastMa, filt.dist, filt.str
      ensures Valid()
      ensures out == Outcome(busSet, attempts, old(filt.lastMed), old(filt.lastMa), filt.lastMed, filt.lastMa)
      ensures !(busSet && FirstSome(Frames(attempts)).Some?) ==>
                filt.dist[..] == old(filt.dist[..]) && filt.str[..] == old(filt.str[..]) &&
                filt.count == old(filt.count) && filt.idx == old(filt.idx) &&
                filt.lastMed == old(filt.lastMed) && filt.lastMa == old(filt.lastMa)
      ensures busSet && FirstSome(Frames(attempts)).Some? ==>
                var b := Frames(attempts)[FirstSome(Frames(attempts)).value].value;
                filt.dist[..] == old(filt.dist[..])[old(filt.idx) := DecodeLE16(b[2], b[3])] &&
                filt.str[..] == old(filt.str[..])[old(filt.idx) := DecodeLE16(b[4], b[5])] &&
                filt.count == Min(old(filt.count) + 1, WinMax) && filt.idx == (old(filt.idx) + 1) % WinMax &&
                filt.lastMed == Median(filt.dist[..Min(filt.count, MedianWindow(medianWin, WinMax))]) &&
                filt.lastMa == Mean(filt.str[..Min(filt.count, AverageWindow(maWin, WinMax))])
    {
      out := NoFrame;
      if !busSet {
        return;
      }
      var buf: Buf9 := [0, 0, 0, 0, 0, 0, 0, 0, 0];
      var ok := false;
      var t := 0;
      while t < Tries && !ok
        invariant 0 <= t <= Tries
        invariant !ok ==> forall j :: 0 <= j < t ==> Frames(attempts)[j].None?
        invariant ok ==> 1 <= t && FirstSome(Frames(attempts)) == Some(t - 1) && buf == Frames(attempts)[t - 1].value
        invariant filt.dist[..] == old(filt.dist[..]) && filt.str[..] == old(filt.str[..])
        invariant filt.count == old(filt.count) && filt.idx == old(filt.idx)
        invariant filt.lastMed == old(filt.lastMed) && filt.lastMa == old(filt.lastMa)
      {
        ok, buf := TryRead(busSet, attempts[t], buf);
        if ok {
          FirstSomeIs(Frames(attempts), t);
        }
        t := t + 1;
      }
      if !ok {
        out := FrameData(filt.lastMed, filt.lastMa, false);
        return;
      }
      var distRaw := DecodeLE16(buf[2], buf[3]);
      var strengthRaw := DecodeLE16(buf[4], buf[5]);
      var dF, sF := filt.Update(distRaw, strengthRaw, medianWin, maWin);
      out := FrameData(dF, sF, true);
    }

    /**
      `TF_Luna_Right_Read` / `TF_Luna_Left_Read`: the reported (filtered)
      distance shifted by the side's offset and clamped to 0..65535.
     */
    method Read(offset: int, attempts: seq<Attempt>, medianWin: u8, maWin: u8) returns (d: FrameData)
      requires Valid() && |attempts| == Tries
      requires -0x8000 <= offset < 0x8000
      modifies filt`count, filt`idx, filt`lastMed, filt`lastMa, filt.dist, filt.str
      ensures Valid()
      ensures var g := Outcome(busSet, attempts, old(filt.lastMed), old(filt.lastMa), filt.lastMed, filt.lastMa);
              d == g.(distance := ApplyOffset(g.distance, offset))
    {
      d := ReadGeneric(attempts, medianWin, maWin);
      d := d.(distance := ApplyOffset(d.distance, offset));
    }
  }

  /**
    A try whose register read returns a clean frame reports exactly the
    distance and strength the sensor encoded, whatever the other transfers
    would have returned.
   */
  lemma CleanFrameDecodes(dist: u16, strength: u16, temp: u16, recv9: Option<Buf9>, recv18: Option<Buf18>)
    ensures var r := TryOutcome(Attempt(Some(EncodeFrame(dist, strength, temp)), recv9, recv18));
            r.Some? && DecodeLE16(r.value[2], r.value[3]) == dist && DecodeLE16(r.value[4], r.value[5]) == strength
  {
  }
}
