/**
  The sample filters shared by both TF-Luna drivers: an insertion-sort median
  for the distance and an integer mean for the signal strength, each taken over
  the first `n` slots of a fixed-capacity ring buffer (slots 0..n-1, not the
  most recent n samples), plus the little-endian decode and the distance
  offset clamp.
 */
module LunaFilter {
  import opened Ints

  // ------------------------------------------------------------------------
  // Insertion sort, as the drivers run it
  // ------------------------------------------------------------------------

  predicate Sorted(s: seq<u16>)
  {
    forall i, j :: 0 <= i < j < |s| ==> s[i] <= s[j]
  }

  /**
    Inserting `key` into a sorted prefix by scanning from its right end and
    shifting every element greater than `key` one slot to the right.
   */
  function Insert(s: seq<u16>, key: u16): seq<u16>
    decreases |s|
  {
    if |s| == 0 then [key]
    else if s[|s| - 1] > key then Insert(s[..|s| - 1], key) + [s[|s| - 1]]
    else s + [key]
  }

  /** The array after the outer loop has inserted every element, left to right. */
  function InsertionSort(s: seq<u16>): seq<u16>
    decreases |s|
  {
    if |s| == 0 then [] else Insert(InsertionSort(s[..|s| - 1]), s[|s| - 1])
  }

  lemma {:induction false} InsertPermutes(s: seq<u16>, key: u16)
    ensures |Insert(s, key)| == |s| + 1
    ensures multiset(Insert(s, key)) == multiset(s) + multiset{key}
    decreases |s|
  {
    if |s| > 0 && s[|s| - 1] > key {
      var p := s[..|s| - 1];
      InsertPermutes(p, key);
      assert s == p + [s[|s| - 1]];
    }
  }

  lemma {:induction false} InsertKeepsSorted(s: seq<u16>, key: u16)
    requires Sorted(s)
    ensures Sorted(Insert(s, key))
    decreases |s|
  {
    if |s| > 0 && s[|s| - 1] > key {
      var p := s[..|s| - 1];
      InsertKeepsSorted(p, key);
      InsertPermutes(p, key);
      var q := Insert(p, key);
      forall x | x in q ensures x <= s[|s| - 1] {
        assert x in multiset(q);
        assert x in multiset(p) || x == key;
      }
      var q' := q + [s[|s| - 1]];
      forall i, j | 0 <= i < j < |q'| ensures q'[i] <= q'[j] {
        if j == |q| {
          assert q[i] in q;
        }
      }
    }
  }

  /** The insertion sort returns a sorted permutation of its input. */
  lemma {:induction false} InsertionSortCorrect(s: seq<u16>)
    ensures |InsertionSort(s)| == |s|
    ensures Sorted(InsertionSort(s))
    ensures multiset(InsertionSort(s)) == multiset(s)
    decreases |s|
  {
    if |s| > 0 {
      var p := s[..|s| - 1];
      InsertionSortCorrect(p);
      InsertPermutes(InsertionSort(p), s[|s| - 1]);
      InsertKeepsSorted(InsertionSort(p), s[|s| - 1]);
      assert s == p + [s[|s| - 1]];
    }
  }

  /** The head of a sorted sequence is below every value it holds. */
  lemma SortedHeadIsLeast(a: seq<u16>, x: u16)
    requires Sorted(a) && x in multiset(a)
    ensures a[0] <= x
  {
    assert x in a;
    var i :| 0 <= i < |a| && a[i] == x;
    assert i == 0 || a[0] <= a[i];
  }

  /** Two sorted arrangements of the same values are the same sequence. */
  lemma {:induction false} SortedUnique(a: seq<u16>, b: seq<u16>)
    requires Sorted(a) && Sorted(b) && multiset(a) == multiset(b)
    ensures a == b
    decreases |a|
  {
    if |a| == 0 || |b| == 0 {
      assert |a| == |multiset(a)| == |multiset(b)| == |b|;
    } else {
      SameHead(a, b);
      SortedUnique(a[1..], b[1..]);
      assert a == [a[0]] + a[1..] && b == [b[0]] + b[1..];
    }
  }

  /** Two nonempty sorted arrangements of the same values start alike and continue with the same values. */
  lemma SameHead(a: seq<u16>, b: seq<u16>)
    requires |a| > 0 && |b| > 0
    requires Sorted(a) && Sorted(b) && multiset(a) == multiset(b)
    ensures a[0] == b[0] && Sorted(a[1..]) && Sorted(b[1..]) && multiset(a[1..]) == multiset(b[1..])
  {
    HeadAndTail(a);
    HeadAndTail(b);
    SortedHeadIsLeast(a, b[0]);
    SortedHeadIsLeast(b, a[0]);
  }

  lemma HeadAndTail(a: seq<u16>)
    requires |a| > 0 && Sorted(a)
    ensures a[0] in multiset(a)
    ensures Sorted(a[1..])
    ensures multiset(a[1..]) == multiset(a) - multiset{a[0]}
  {
    assert a == [a[0]] + a[1..];
  }

  // ------------------------------------------------------------------------
  // Median and mean
  // ------------------------------------------------------------------------

  /** `median_u16`: element `n/2` of the sorted copy of slots `0..n-1`. */
  function Median(s: seq<u16>): (r: u16)
    requires |s| > 0
    ensures r in s
  {
    InsertionSortCorrect(s);
    var t := InsertionSort(s);
    assert t[|s| / 2] in multiset(s);
    t[|s| / 2]
  }

  /**
    The median does not depend on the sorting algorithm: it is the middle
    element of every sorted arrangement of the samples.
   */
  lemma MedianOfSortedArrangement(s: seq<u16>, t: seq<u16>)
    requires |s| > 0 && Sorted(t) && multiset(t) == multiset(s)
    ensures |t| == |s| && Median(s) == t[|s| / 2]
  {
    InsertionSortCorrect(s);
    SortedUnique(InsertionSort(s), t);
  }

  /** Three samples with one spike: the median drops the spike. */
  lemma MedianRejectsSpike()
    ensures Median([100, 900, 102]) == 102
  {
    MedianOfSortedArrangement([100, 900, 102], [100, 102, 900]);
  }

  function Sum(s: seq<u16>): nat
    decreases |s|
  {
    if |s| == 0 then 0 else Sum(s[..|s| - 1]) + s[|s| - 1]
  }

  lemma {:induction false} SumBounds(s: seq<u16>, lo: int, hi: int)
    requires forall i :: 0 <= i < |s| ==> lo <= s[i] <= hi
    ensures |s| * lo <= Sum(s) <= |s| * hi
    decreases |s|
  {
    if |s| > 0 {
      SumBounds(s[..|s| - 1], lo, hi);
      assert |s| * lo == (|s| - 1) * lo + lo;
      assert |s| * hi == (|s| - 1) * hi + hi;
    }
  }

  lemma DivBounds(x: int, n: int, lo: int, hi: int)
    requires n > 0 && n * lo <= x <= n * hi
    ensures lo <= x / n <= hi
  {
    var q, r := x / n, x % n;
    assert x == n * q + r && 0 <= r < n;
    MulMono(n, lo, q + 1);
    MulMono(n, q, hi);
  }

  lemma MulMono(n: int, a: int, b: int)
    requires n > 0
    ensures n * a <= n * b ==> a <= b
    ensures a <= b ==> n * a <= n * b
  {
    if a > b {
      assert n * a - n * b == n * (a - b);
    } else {
      assert n * b - n * a == n * (b - a);
    }
  }

  /**
    `mean_u16`: the floor of the sum over the count, which lies between the
    smallest and the largest sample.
   */
  function Mean(s: seq<u16>): (r: u16)
    requires |s| > 0
    ensures r * |s| <= Sum(s) < (r + 1) * |s|
  {
    SumBounds(s, 0, 0xFFFF);
    DivBounds(Sum(s), |s|, 0, 0xFFFF);
    Sum(s) / |s|
  }

  /** The mean lies between any bounds of the samples. */
  lemma MeanBetween(s: seq<u16>, lo: int, hi: int)
    requires |s| > 0
    requires forall i :: 0 <= i < |s| ==> lo <= s[i] <= hi
    ensures lo <= Mean(s) <= hi
  {
    SumBounds(s, lo, hi);
    DivBounds(Sum(s), |s|, lo, hi);
  }

  /**
    `median_u16` as the firmware runs it: copy the first `n` slots, insertion
    sort the copy in place, return its middle element. The input is unchanged.
   */
  method MedianU16(arr: array<u16>, n: nat) returns (r: u16)
    requires 1 <= n <= arr.Length
    ensures r == Median(arr[..n])
  {
    var tmp := CopyPrefix(arr, n);
    SortInPlace(tmp);
    r := tmp[n / 2];
  }

  /** The copy loop: a new array holding slots `0..n-1`. */
  method CopyPrefix(arr: array<u16>, n: nat) returns (tmp: array<u16>)
    requires n <= arr.Length
    ensures fresh(tmp) && tmp[..] == arr[..n]
  {
    tmp := new u16[n];
    var i := 0;
    while i < n
      invariant 0 <= i <= n
      invariant tmp[..i] == arr[..i]
    {
      tmp[i] := arr[i];
      i := i + 1;
    }
    assert tmp[..] == tmp[..i];
  }

  /** The outer loop of the insertion sort, left to right over the whole array. */
  method SortInPlace(tmp: array<u16>)
    requires tmp.Length >= 1
    modifies tmp
    ensures tmp[..] == InsertionSort(old(tmp[..]))
  {
    ghost var A := tmp[..];
    var n := tmp.Length;
    var i := 1;
    assert A[..1] == [A[0]] && tmp[..1] == [tmp[0]];
    while i < n
      invariant 1 <= i <= n
      invariant tmp[..i] == InsertionSort(A[..i])
      invariant tmp[i..] == A[i..]
    {
      ghost var before := tmp[..];
      InsertStep(tmp, i);
      assert tmp[..i + 1] == InsertionSort(A[..i + 1]) by {
        assert A[..i + 1][..i] == A[..i];
        assert before[i] == A[i];
      }
      assert tmp[i + 1..] == before[i + 1..] == A[i + 1..] by {
        assert before[i..] == A[i..];
        assert before[i + 1..] == before[i..][1..] && A[i + 1..] == A[i..][1..];
      }
      i := i + 1;
    }
    assert tmp[..] == tmp[..n] && A == A[..n];
  }

  /** One pass of the outer loop: insert `a[i]` into the sorted-so-far prefix `a[..i]`. */
  method InsertStep(a: array<u16>, i: nat)
    requires 1 <= i < a.Length
    modifies a
    ensures a[..i + 1] == Insert(old(a[..i]), old(a[i]))
    ensures a[i + 1..] == old(a[i + 1..])
  {
    var key := a[i];
    ghost var S, T := a[..i], a[i + 1..];
    LayoutWhole(S, T, key);
    var j, hole := OpenHole(a, i, key, S, T);
    a[j + 1] := key;
    LayoutFill(S, T, j, hole, key);
    Split(a[..], S[..j + 1] + [key] + S[j + 1..], T);
  }

  /**
    The inner loop: shift the elements of the sorted prefix `S` that are
    greater than `key` one slot right, leaving a hole at `j + 1` where
    `key` belongs.
   */
  method OpenHole(a: array<u16>, i: nat, key: u16, ghost S: seq<u16>, ghost T: seq<u16>) returns (j: int, ghost hole: u16)
    requires i == |S| && a[..] == Layout(S, T, i - 1, key)
    modifies a
    ensures -1 <= j < i
    ensures a[..] == Layout(S, T, j, hole)
    ensures Insert(S, key) == S[..j + 1] + [key] + S[j + 1..]
  {
    j := i - 1;
    hole := key;
    assert S[..j + 1] == S && S[j + 1..] == [];
    assert Insert(S[..j + 1], key) + S[j + 1..] == Insert(S, key);
    while j >= 0 && a[j] > key
      invariant -1 <= j < i
      invariant a[..] == Layout(S, T, j, hole)
      invariant Insert(S, key) == Insert(S[..j + 1], key) + S[j + 1..]
    {
      assert a[..][j] == S[j];
      InsertPeel(S, j, key);
      LayoutShift(S, T, j, hole);
      a[j + 1] := a[j];
      hole := S[j];
      j := j - 1;
    }
    if j >= 0 {
      assert a[..][j] == S[j];
    }
    InsertStop(S, j, key);
  }

  /**
    The array during the inner loop: the sorted prefix `S` with a hole at
    `j + 1` holding `hole`, the elements after it shifted one slot right,
    then the untouched rest `T`.
   */
  ghost function Layout(S: seq<u16>, T: seq<u16>, j: int, hole: u16): (r: seq<u16>)
    requires -1 <= j < |S|
    ensures |r| == |S| + 1 + |T|
  {
    seq(|S| + 1 + |T|, k requires 0 <= k < |S| + 1 + |T| =>
      if k <= j then S[k] else if k == j + 1 then hole else if k <= |S| then S[k - 1] else T[k - |S| - 1])
  }

  /** Before the inner loop the hole is the key's own slot `|S|`. */
  lemma LayoutWhole(S: seq<u16>, T: seq<u16>, key: u16)
    ensures Layout(S, T, |S| - 1, key) == S + [key] + T
  {
    var l := Layout(S, T, |S| - 1, key);
    forall k | 0 <= k < |l|
      ensures l[k] == (S + [key] + T)[k]
    {
    }
  }

  /** Copying `S[j]` into the hole at `j + 1` moves the hole to `j`. */
  lemma LayoutShift(S: seq<u16>, T: seq<u16>, j: nat, hole: u16)
    requires j < |S|
    ensures Layout(S, T, j, hole)[j + 1 := S[j]] == Layout(S, T, j - 1, S[j])
  {
    var l := Layout(S, T, j, hole)[j + 1 := S[j]];
    var m := Layout(S, T, j - 1, S[j]);
    forall k | 0 <= k < |m|
      ensures l[k] == m[k]
    {
    }
  }

  /** Filling the hole at `j + 1` with `key` gives the prefix, the key, the shifted elements and the rest. */
  lemma LayoutFill(S: seq<u16>, T: seq<u16>, j: int, hole: u16, key: u16)
    requires -1 <= j < |S|
    ensures Layout(S, T, j, hole)[j + 1 := key] == S[..j + 1] + [key] + S[j + 1..] + T
  {
    var l := Layout(S, T, j, hole)[j + 1 := key];
    var m := S[..j + 1] + [key] + S[j + 1..] + T;
    forall k | 0 <= k < |m|
      ensures l[k] == m[k]
    {
    }
  }

  /** A sequence whose whole is `X + T` has `X` as its prefix and `T` as its rest. */
  lemma Split(s: seq<u16>, X: seq<u16>, T: seq<u16>)
    requires s == X + T
    ensures s[..|X|] == X && s[|X|..] == T
  {
  }

  lemma InsertPeel(S: seq<u16>, j: nat, key: u16)
    requires j < |S| && S[j] > key
    ensures Insert(S[..j + 1], key) + S[j + 1..] == Insert(S[..j], key) + S[j..]
  {
    assert S[..j + 1][..j] == S[..j];
    assert S[j..] == [S[j]] + S[j + 1..];
  }

  lemma InsertStop(S: seq<u16>, j: int, key: u16)
    requires -1 <= j < |S|
    requires j >= 0 ==> S[j] <= key
    ensures Insert(S[..j + 1], key) == S[..j + 1] + [key]
  {
  }

  /** `mean_u16` as the firmware runs it: a 32-bit running sum, then one division. */
  method MeanU16(arr: array<u16>, n: nat) returns (r: u16)
    requires 1 <= n <= arr.Length && n < 0x100
    ensures r == Mean(arr[..n])
  {
    var s: u32 := 0;
    var i := 0;
    while i < n
      invariant 0 <= i <= n
      invariant s == Sum(arr[..i])
    {
      assert arr[..i + 1][..i] == arr[..i];
      SumBounds(arr[..i + 1], 0, 0xFFFF);
      s := s + arr[i];
      i := i + 1;
    }
    assert arr[..n] == arr[..i];
    SumBounds(arr[..n], 0, 0xFFFF);
    DivBounds(s, n, 0, 0xFFFF);
    r := s / n;
  }

  // ------------------------------------------------------------------------
  // Windows, decode, offset
  // ------------------------------------------------------------------------

  /** The median window: clamped to `1..cap`, and an even value lowered to the odd one below. */
  function MedianWindow(w: u8, cap: nat): (r: nat)
    requires cap >= 1
    ensures 1 <= r <= cap && r % 2 == 1
    ensures 1 <= w <= cap && w % 2 == 1 ==> r == w
    ensures 2 <= w <= cap && w % 2 == 0 ==> r == w - 1
    ensures w == 0 ==> r == 1
    ensures w > cap && cap % 2 == 1 ==> r == cap
  {
    var c := Clamp(w, 1, cap);
    if c % 2 == 0 then c - 1 else c
  }

  /** The moving-average window: clamped to `1..cap`. */
  function AverageWindow(w: u8, cap: nat): (r: nat)
    requires cap >= 1
    ensures 1 <= r <= cap
    ensures 1 <= w <= cap ==> r == w
    ensures w == 0 ==> r == 1
    ensures w > cap ==> r == cap
  {
    Clamp(w, 1, cap)
  }

  /** The distance after the configured offset, clamped to `0..65535`. */
  function ApplyOffset(distance: u16, offset: int): (r: u16)
    ensures 0 <= distance + offset <= 0xFFFF ==> r == distance + offset
    ensures distance + offset < 0 ==> r == 0
    ensures distance + offset > 0xFFFF ==> r == 0xFFFF
  {
    Clamp(distance + offset, 0, 0xFFFF)
  }

  /** A larger offset never gives a smaller result; a zero offset changes nothing. */
  lemma ApplyOffsetMonotone(distance: u16, o1: int, o2: int)
    requires o1 <= o2
    ensures ApplyOffset(distance, o1) <= ApplyOffset(distance, o2)
    ensures ApplyOffset(distance, 0) == distance
  {
  }

  /** `TF_LunaData_t` without the temperature: what one read hands to the application. */
  datatype LunaData = LunaData(distance: u16, distanceFilt: u16, strength: u16, strengthFilt: u16, frameReady: bool)

  /** The zeroed result a read starts from (and returns when no bus handle is stored). */
  const NoData: LunaData := LunaData(0, 0, 0, 0, false)

  /** Index of the first attempt that succeeded, if any. */
  function FirstSome<T>(attempts: seq<Option<T>>): (r: Option<nat>)
    ensures r.Some? ==> r.value < |attempts| && attempts[r.value].Some? &&
                        forall j :: 0 <= j < r.value ==> attempts[j].None?
    ensures r.None? ==> forall j :: 0 <= j < |attempts| ==> attempts[j].None?
    decreases |attempts|
  {
    if |attempts| == 0 then None
    else if attempts[0].Some? then Some(0)
    else match FirstSome(attempts[1..])
      case None => None
      case Some(k) => Some(k + 1)
  }

  /** The first success is the one with only failures before it. */
  lemma {:induction false} FirstSomeIs<T>(attempts: seq<Option<T>>, k: nat)
    requires k < |attempts| && attempts[k].Some?
    requires forall j :: 0 <= j < k ==> attempts[j].None?
    ensures FirstSome(attempts) == Some(k)
    decreases k
  {
    if k > 0 {
      FirstSomeIs(attempts[1..], k - 1);
    }
  }

  /**
    A ring buffer holding the last distance and strength samples: `dist_hist`
    and `str_hist`, the saturating `count`, the write index `idx` and the last
    filter outputs. `cap` is the driver's `WIN_MAX`.
   */
  class Ring {
    const cap: nat
    const dist: array<u16>
    const str: array<u16>
    var count: nat
    var idx: nat
    var lastMed: u16
    var lastMa: u16

    ghost predicate Valid()
      reads this
    {
      1 <= cap < 0x100 && dist.Length == cap && str.Length == cap && dist != str &&
      count <= cap && idx < cap
    }

    /** The zero-initialised static filter state. */
    constructor (capacity: nat)
      requires 1 <= capacity < 0x100
      ensures Valid() && cap == capacity && fresh(dist) && fresh(str)
      ensures count == 0 && idx == 0 && lastMed == 0 && lastMa == 0
      ensures dist[..] == seq(capacity, _ => 0) && str[..] == seq(capacity, _ => 0)
    {
      cap := capacity;
      dist := new u16[capacity](_ => 0);
      str := new u16[capacity](_ => 0);
      count, idx, lastMed, lastMa := 0, 0, 0, 0;
    }

    /** `memset` of the whole filter state to zero. */
    method Reset()
      requires Valid()
      modifies this`count, this`idx, this`lastMed, this`lastMa, dist, str
      ensures Valid()
      ensures count == 0 && idx == 0 && lastMed == 0 && lastMa == 0
      ensures dist[..] == seq(cap, _ => 0) && str[..] == seq(cap, _ => 0)
    {
      var i := 0;
      while i < cap
        invariant 0 <= i <= cap
        invariant dist[..i] == seq(i, _ => 0) && str[..i] == seq(i, _ => 0)
      {
        dist[i] := 0;
        str[i] := 0;
        i := i + 1;
      }
      count, idx, lastMed, lastMa := 0, 0, 0, 0;
    }

    /**
      One filter update: store the sample at `idx`, saturate `count` at `cap`,
      advance `idx` modulo `cap`, then the median and mean over slots
      `0..n-1` with `n = min(count, window)`; both results are kept as the
      last filter outputs.
     */
    method Update(d: u16, s: u16, medianWin: u8, maWin: u8) returns (med: u16, ma: u16)
      requires Valid()
      modifies this`count, this`idx, this`lastMed, this`lastMa, dist, str
      ensures Valid()
      ensures dist[..] == old(dist[..])[old(idx) := d] && str[..] == old(str[..])[old(idx) := s]
      ensures count == Min(old(count) + 1, cap) && count >= 1
      ensures idx == (old(idx) + 1) % cap
      ensures med == Median(dist[..Min(count, MedianWindow(medianWin, cap))])
      ensures ma == Mean(str[..Min(count, AverageWindow(maWin, cap))])
      ensures lastMed == med && lastMa == ma
    {
      var wmed := MedianWindow(medianWin, cap);
      var wma := AverageWindow(maWin, cap);
      dist[idx] := d;
      str[idx] := s;
      if count < cap {
        count := count + 1;
      }
      idx := (idx + 1) % cap;
      var nmed := if count < wmed then count else wmed;
      var nma := if count < wma then count else wma;
      med := MedianU16(dist, nmed);
      ma := MeanU16(str, nma);
      lastMed, lastMa := med, ma;
    }
  }
}
