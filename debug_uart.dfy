/**
  The debug UART transmit queue: bytes are appended at `head` of a ring
  buffer of `size` slots (one slot always stays empty so that `head == tail`
  means empty), a byte that does not fit is dropped and counted, and the
  transmitter is fed one contiguous span from `tail` at a time. The
  completion interrupt advances `tail` past the span and starts the next one.
  The buffer size is a parameter of the model. Whether the HAL accepts a
  transmit start is an input; the callback runs as an ordinary sequential
  call.
 */
module DebugUart {
  import opened Ints

  /** Milliseconds between two refreshes of the cached drop count shown in the panel header. */
  const DropRefreshMs: int := 2000

  /** An index `x` below `2n`, brought back into `0..n-1`. */
  function Wrap(x: int, n: int): int
  {
    if x < n then x else x - n
  }

  /** `rb_used`: the number of queued bytes, `(head + n - tail) % n`. */
  function RingUsed(head: nat, tail: nat, n: nat): (r: nat)
    requires head < n && tail < n
    ensures r < n
    ensures r == 0 <==> head == tail
    ensures Wrap(tail + r, n) == head
    ensures r == (head + n - tail) % n
  {
    ModWrap(head + n - tail, n);
    if head >= tail then head - tail else head + n - tail
  }

  /** Appending a byte at `head` grows the queue by one, as long as a slot is free. */
  lemma RingUsedNext(head: nat, tail: nat, n: nat)
    requires head < n && tail < n && RingUsed(head, tail, n) + 1 < n
    ensures Wrap(head + 1, n) < n && RingUsed(Wrap(head + 1, n), tail, n) == RingUsed(head, tail, n) + 1
  {
  }

  /** Moving `tail` past `a` queued bytes that do not run past the buffer's end shrinks the queue by `a`. */
  lemma RingUsedPop(head: nat, tail: nat, n: nat, a: nat)
    requires head < n && tail < n && a <= RingUsed(head, tail, n) && tail + a <= n
    ensures Wrap(tail + a, n) < n && RingUsed(head, Wrap(tail + a, n), n) == RingUsed(head, tail, n) - a
  {
  }

  /**
    Storing a byte at `head` and advancing `head` (wrapping at the end of
    the buffer) appends the byte to the queue and takes one free slot.
   */
  lemma PushFacts(buf: seq<u8>, head: nat, tail: nat, n: nat, x: u8)
    requires |buf| == n && head < n && tail < n && RingFree(head, tail, n) > 0
    ensures (head + 1) % n < n
    ensures RingFree((head + 1) % n, tail, n) == RingFree(head, tail, n) - 1
    ensures RingContents(buf[head := x], tail, RingUsed((head + 1) % n, tail, n)) ==
            RingContents(buf, tail, RingUsed(head, tail, n)) + [x]
  {
    var u := RingUsed(head, tail, n);
    assert Wrap(tail + u, n) == head;
    RingPush(buf, tail, u, x);
    ModWrap(head + 1, n);
    RingUsedNext(head, tail, n);
  }

  /**
    Retiring the first `a` queued bytes: with `tail` moved past them (wrapping
    at the end of the buffer) the queue is what followed them, and they join
    the delivered bytes, so accepted = delivered + queue still holds.
   */
  lemma RetireFacts(buf: seq<u8>, head: nat, tail: nat, n: nat, a: nat, d: seq<u8>, acc: seq<u8>)
    requires |buf| == n && head < n && tail < n && a <= RingUsed(head, tail, n) && tail + a <= n
    requires acc == d + RingContents(buf, tail, RingUsed(head, tail, n))
    ensures (tail + a) % n < n
    ensures RingContents(buf, (tail + a) % n, RingUsed(head, (tail + a) % n, n)) == RingContents(buf, tail, RingUsed(head, tail, n))[a..]
    ensures acc == d + RingContents(buf, tail, RingUsed(head, tail, n))[..a] + RingContents(buf, (tail + a) % n, RingUsed(head, (tail + a) % n, n))
  {
    var u := RingUsed(head, tail, n);
    var q := RingContents(buf, tail, u);
    ModWrap(tail + a, n);
    RingUsedPop(head, tail, n, a);
    RingPop(buf, tail, u, a);
    assert q == q[..a] + q[a..];
  }

  /** `rb_free`: the room left, keeping one slot empty. */
  function RingFree(head: nat, tail: nat, n: nat): (r: nat)
    requires head < n && tail < n
    ensures RingUsed(head, tail, n) + r == n - 1
  {
    n - 1 - RingUsed(head, tail, n)
  }

  /**
    The span `try_kick_tx` hands to the transmitter: up to `head` when the
    queue does not wrap, else up to the end of the buffer. It is never empty,
    never runs past the buffer's end and never past the queued bytes; when the
    queue does not wrap it is all of them.
   */
  function Chunk(head: nat, tail: nat, n: nat): (r: nat)
    requires head < n && tail < n && head != tail
    ensures 1 <= r <= RingUsed(head, tail, n) && tail + r <= n
    ensures head > tail ==> r == RingUsed(head, tail, n)
  {
    if head > tail then head - tail else n - tail
  }

  lemma ModWrap(x: int, n: int)
    requires 0 < n && 0 <= x < 2 * n
    ensures x % n == Wrap(x, n)
  {
    if x >= n {
      assert x == n + (x - n);
    }
  }

  /** `rb_used` as the C code writes it: the difference on a 32-bit `size_t`, then `% n`. */
  function UsedAsWritten(head: nat, tail: nat, n: nat): (r: int)
    requires 0 < n
    ensures 0 <= r < n
  {
    ((head - tail) % U32) % n
  }

  /** Whenever `n` divides 2^32 (any power of two does), the C formula is the ring distance. */
  lemma UsedAsWrittenAgrees(head: nat, tail: nat, n: nat, k: nat)
    requires head < n && tail < n && n * k == U32
    ensures UsedAsWritten(head, tail, n) == RingUsed(head, tail, n)
  {
    MulAtLeast(n, k);
    var d := head - tail;
    if d >= 0 {
      assert d % U32 == d;
      ModWrap(d, n);
    } else {
      assert d % U32 == d + U32;
      assert n * (k - 1) == n * k - n;
      ShiftByMultiple(d + n, n, k - 1);
      ModWrap(d + n, n);
    }
  }

  lemma MulAtLeast(n: nat, k: nat)
    requires n * k == U32
    ensures 1 <= k && 1 <= n <= U32
  {
    if n > 0 && k > 0 {
      MulPos(n, k);
    }
  }

  lemma ShiftByMultiple(x: int, n: nat, m: int)
    requires 0 < n
    ensures (x + n * m) % n == x % n
  {
    var q, r := x / n, x % n;
    assert x + n * m == n * (q + m) + r;
    var q', r' := (x + n * m) / n, (x + n * m) % n;
    assert n * (q' - q - m) == r - r';
    if q' - q - m > 0 {
      MulPos(n, q' - q - m);
    } else if q' - q - m < 0 {
      MulPos(n, q + m - q');
    }
  }

  lemma MulPos(n: nat, m: int)
    requires n > 0 && m > 0
    ensures n * m >= n
  {
  }

  /**
    With a buffer size that does not divide 2^32 the C formula goes wrong as
    soon as the queue wraps: three slots, `head = 0`, `tail = 1` hold two
    bytes, but the formula reports none.
   */
  lemma UsedAsWrittenWrongForSizeThree()
    ensures UsedAsWritten(0, 1, 3) == 0 && RingUsed(0, 1, 3) == 2
  {
    assert (0 - 1) % U32 == U32 - 1;
    assert U32 - 1 == 3 * 1431655765;
  }

  /** The `used` bytes of ring buffer `buf` starting at slot `tail`, oldest first. */
  function RingContents(buf: seq<u8>, tail: nat, used: nat): (q: seq<u8>)
    requires tail < |buf| && used < |buf|
    ensures |q| == used
  {
    seq(used, i requires 0 <= i < used => buf[Wrap(tail + i, |buf|)])
  }

  /** Storing a byte in the first free slot appends it to the queue. */
  lemma RingPush(buf: seq<u8>, tail: nat, used: nat, x: u8)
    requires tail < |buf| && used + 1 < |buf|
    ensures RingContents(buf[Wrap(tail + used, |buf|) := x], tail, used + 1) == RingContents(buf, tail, used) + [x]
  {
    var n := |buf|;
    var h := Wrap(tail + used, n);
    var b := buf[h := x];
    forall i | 0 <= i < used
      ensures RingContents(b, tail, used + 1)[i] == RingContents(buf, tail, used)[i]
    {
      assert Wrap(tail + i, n) != h;
    }
  }

  /** Moving `tail` past the first `a` bytes removes exactly those bytes from the queue. */
  lemma RingPop(buf: seq<u8>, tail: nat, used: nat, a: nat)
    requires tail < |buf| && used < |buf| && a <= used && tail + a <= |buf|
    ensures Wrap(tail + a, |buf|) < |buf|
    ensures RingContents(buf, Wrap(tail + a, |buf|), used - a) == RingContents(buf, tail, used)[a..]
  {
    var n := |buf|;
    var t := Wrap(tail + a, n);
    var q := RingContents(buf, tail, used);
    var r := RingContents(buf, t, used - a);
    forall i | 0 <= i < |r|
      ensures r[i] == q[a..][i]
    {
      assert Wrap(t + i, n) == Wrap(tail + a + i, n);
    }
  }

  /** A span from `tail` that stays inside the buffer is the front of the queue. */
  lemma RingSpan(buf: seq<u8>, tail: nat, used: nat, c: nat)
    requires tail < |buf| && used < |buf| && c <= used && tail + c <= |buf|
    ensures buf[tail..tail + c] == RingContents(buf, tail, used)[..c]
  {
    var q := RingContents(buf, tail, used);
    forall i | 0 <= i < c
      ensures buf[tail..tail + c][i] == q[..c][i]
    {
      assert Wrap(tail + i, |buf|) == tail + i;
    }
  }

  /** The two bytes `DebugUART_Print` appends after the text. */
  const Crlf: seq<u8> := [13, 10]

  class TxQueue {
    const size: nat
    const rb: array<u8>
    var uartSet: bool
    var head: nat
    var tail: nat
    var busy: bool
    var activeLen: nat
    var dropped: u32
    var dropCached: u32
    var dropLastTs: u32
    /** Every byte accepted since `Init`, and those whose transmission has completed. */
    ghost var accepted: seq<u8>
    ghost var delivered: seq<u8>

    ghost predicate Valid()
      reads this, rb
    {
      1 <= size <= 0x1_0000 && rb.Length == size && head < size && tail < size &&
      (busy ==> 1 <= activeLen <= RingUsed(head, tail, size) && tail + activeLen <= size) &&
      (!busy ==> activeLen == 0) &&
      accepted == delivered + Queue()
    }

    function Used(): (r: nat)
      reads this
      requires head < size && tail < size
    {
      RingUsed(head, tail, size)
    }

    function Free(): (r: nat)
      reads this
      requires head < size && tail < size
    {
      RingFree(head, tail, size)
    }

    /** The queued bytes, oldest first. */
    ghost function Queue(): seq<u8>
      reads this, rb
      requires rb.Length == size && head < size && tail < size
    {
      RingContents(rb[..], tail, Used())
    }

    constructor (n: nat)
      requires 1 <= n <= 0x1_0000
      ensures Valid() && size == n && fresh(rb)
      ensures !uartSet && head == 0 && tail == 0 && !busy && dropped == 0 && accepted == []
    {
      size := n;
      rb := new u8[n](_ => 0);
      uartSet := false;
      head, tail, busy, activeLen := 0, 0, false, 0;
      dropped, dropCached, dropLastTs := 0, 0, 0;
      accepted, delivered := [], [];
    }

    /** `DebugUART_Init`: store the handle, empty the queue, zero the counters and stamp the drop cache. */
    method Init(handle: bool, now: u32)
      requires Valid()
      modifies this
      ensures Valid() && uartSet == handle
      ensures head == 0 && tail == 0 && !busy && activeLen == 0 && dropped == 0
      ensures dropCached == 0 && dropLastTs == now && Queue() == []
    {
      uartSet := handle;
      head, tail, busy, activeLen, dropped := 0, 0, false, 0, 0;
      dropCached, dropLastTs := 0, now;
      accepted, delivered := [], [];
    }

    /**
      `try_kick_tx`: with a handle, an idle transmitter and a non-empty
      queue, mark busy with the span from `tail`; a start the HAL refuses
      leaves the transmitter idle and `tail` where it was.
     */
    method TryKick(startOk: bool)
      requires Valid()
      modifies this`busy, this`activeLen
      ensures Valid()
      ensures if uartSet && !old(busy) && head != tail && startOk
              then busy && activeLen == Chunk(head, tail, size) && rb[tail..tail + activeLen] == Queue()[..activeLen]
              else busy == old(busy) && activeLen == old(activeLen)
    {
      if !uartSet || busy || head == tail {
        return;
      }
      var chunk := if head > tail then head - tail else size - tail;
      activeLen := chunk;
      busy := true;
      if !startOk {
        busy := false;
        activeLen := 0;
      } else {
        RingSpan(rb[..], tail, Used(), chunk);
      }
    }

    /**
      `DebugUART_Write`: append bytes at `head` while there is room, count
      the rest as dropped (the counter wraps at 2^32), then try to start a
      transmission. With no handle, no data or no bytes nothing happens.
     */
    method Write(data: Option<seq<u8>>, startOk: bool) returns (written: nat)
      requires Valid()
      modifies this`head, this`dropped, this`accepted, this`busy, this`activeLen, rb
      ensures Valid() && tail == old(tail) && delivered == old(delivered)
      ensures !uartSet || data.None? || |data.value| == 0 ==>
                written == 0 && head == old(head) && dropped == old(dropped) && accepted == old(accepted) &&
                busy == old(busy) && activeLen == old(activeLen)
      ensures uartSet && data.Some? && |data.value| > 0 ==>
                written == Min(|data.value|, old(Free())) && Free() == old(Free()) - written &&
                accepted == old(accepted) + data.value[..written] &&
                dropped == Add32(old(dropped), (|data.value| - written) % U32) &&
                (old(busy) ==> busy && activeLen == old(activeLen)) &&
                (!old(busy) ==> (busy <==> startOk && head != tail)) &&
                (!old(busy) && busy ==> head != tail && activeLen == Chunk(head, tail, size) &&
                                        rb[tail..tail + activeLen] == Queue()[..activeLen])
    {
      if !uartSet || data.None? || |data.value| == 0 {
        return 0;
      }
      written := Enqueue(data.value);
      ghost var f1 := Free();
      TryKick(startOk);
      assert Free() == RingFree(head, tail, size) == f1;
    }

    /** The copy loop of `DebugUART_Write`: bytes go in at `head` until the buffer is full. */
    method Enqueue(p: seq<u8>) returns (written: nat)
      requires Valid()
      modifies this`head, this`dropped, this`accepted, rb
      ensures Valid() && tail == old(tail) && delivered == old(delivered)
      ensures written == Min(|p|, old(Free())) && Free() == old(Free()) - written
      ensures Queue() == old(Queue()) + p[..written]
      ensures accepted == old(accepted) + p[..written]
      ensures dropped == Add32(old(dropped), (|p| - written) % U32)
    {
      written := 0;
      ghost var q0 := Queue();
      ghost var f0 := Free();
      while written < |p|
        invariant Valid() && tail == old(tail) && delivered == old(delivered)
        invariant written <= |p| && written <= f0 && Free() == f0 - written
        invariant Queue() == q0 + p[..written]
        invariant accepted == old(accepted) + p[..written]
        invariant dropped == old(dropped)
      {
        if Free() == 0 {
          dropped := Add32(dropped, (|p| - written) % U32);
          return;
        }
        Push(p[written]);
        assert p[..written + 1] == p[..written] + [p[written]];
        written := written + 1;
      }
    }

    /** One pass of the copy loop: `s_tx_rb[s_head] = byte`, then `head` advances modulo the size. */
    method Push(x: u8)
      requires Valid() && Free() > 0
      modifies this`head, this`accepted, rb
      ensures Valid() && tail == old(tail) && delivered == old(delivered)
      ensures Free() == old(Free()) - 1
      ensures Queue() == old(Queue()) + [x]
      ensures accepted == old(accepted) + [x]
    {
      PushFacts(rb[..], head, tail, size, x);
      rb[head] := x;
      accepted := accepted + [x];
      head := (head + 1) % size;
    }

    /**
      `HAL_UART_TxCpltCallback`: for this driver's UART, the finished span
      leaves the queue (`tail` moves past it, wrapping at the end of the
      buffer), the transmitter goes idle and the next span is tried. Other
      UARTs are ignored.
     */
    method Callback(isOurs: bool, startOk: bool)
      requires Valid()
      modifies this`tail, this`busy, this`activeLen, this`delivered
      ensures Valid() && head == old(head)
      ensures !isOurs ==> tail == old(tail) && busy == old(busy) && activeLen == old(activeLen) && delivered == old(delivered)
      ensures isOurs ==>
                Queue() == old(Queue())[old(activeLen)..] &&
                delivered == old(delivered) + old(Queue())[..old(activeLen)] &&
                (busy <==> uartSet && head != tail && startOk) &&
                (busy ==> head != tail && activeLen == Chunk(head, tail, size) &&
                          rb[tail..tail + activeLen] == Queue()[..activeLen])
    {
      if !isOurs {
        return;
      }
      Retire();
      TryKick(startOk);
    }

    /** The completion half of the callback: `tail` moves past the finished span and the transmitter goes idle. */
    method Retire()
      requires Valid()
      modifies this`tail, this`busy, this`activeLen, this`delivered
      ensures Valid() && head == old(head) && !busy
      ensures Queue() == old(Queue())[old(activeLen)..]
      ensures delivered == old(delivered) + old(Queue())[..old(activeLen)]
    {
      ghost var q := Queue();
      RetireFacts(rb[..], head, tail, size, activeLen, delivered, accepted);
      tail := (tail + activeLen) % size;
      delivered := delivered + q[..activeLen];
      activeLen := 0;
      busy := false;
    }

    /**
      `DebugUART_Print`: the text, then CR LF, each through `Write`. With no
      text nothing happens. Every byte offered is either queued, in order,
      or counted as dropped.
     */
    method Print(s: Option<seq<u8>>, startOk1: bool, startOk2: bool)
      requires Valid()
      modifies this`head, this`dropped, this`accepted, this`busy, this`activeLen, rb
      ensures Valid() && tail == old(tail) && delivered == old(delivered)
      ensures s.None? ==> head == old(head) && dropped == old(dropped) && accepted == old(accepted)
      ensures s.Some? && uartSet ==>
                var f := old(Free());
                var w1 := Min(|s.value|, f);
                var w2 := Min(2, f - w1);
                accepted == old(accepted) + s.value[..w1] + Crlf[..w2] &&
                dropped == Add32(Add32(old(dropped), (|s.value| - w1) % U32), 2 - w2)
      ensures s.Some? && !uartSet ==> accepted == old(accepted) && dropped == old(dropped)
    {
      if s.None? {
        return;
      }
      ghost var f0, a0, d0 := Free(), accepted, dropped;
      var w1 := Write(s, startOk1);
      if |s.value| == 0 {
        assert w1 == 0 && s.value[..0] == [];
        assert Add32(d0, 0) == d0;
      }
      assert uartSet ==> Free() == f0 - w1 && w1 == Min(|s.value|, f0) &&
                         accepted == a0 + s.value[..w1] && dropped == Add32(d0, (|s.value| - w1) % U32);
      ghost var a1, d1 := accepted, dropped;
      assert |Crlf| == 2;
      var w2 := Write(Some(Crlf), startOk2);
      if uartSet {
        assert w2 <= 2;
        ModSmall(2 - w2);
      }
      assert uartSet ==> accepted == a1 + Crlf[..w2] && dropped == Add32(d1, 2 - w2);
    }

    /** `DebugUART_Dropped`. */
    function Dropped(): (r: u32)
      reads this
      ensures r == dropped
    {
      dropped
    }

    /**
      The panel header's drop-count cache: refreshed from the counter once
      at least 2000 ms (uint32 elapsed time) have passed since the last
      refresh, otherwise kept.
     */
    method RefreshDropCache(now: u32)
      modifies this`dropCached, this`dropLastTs
      ensures Due(now, old(dropLastTs), DropRefreshMs) ==> dropCached == dropped && dropLastTs == now
      ensures !Due(now, old(dropLastTs), DropRefreshMs) ==> dropCached == old(dropCached) && dropLastTs == old(dropLastTs)
    {
      if Sub32(now, dropLastTs) >= DropRefreshMs {
        dropCached := Dropped();
        dropLastTs := now;
      }
    }
  }
}
