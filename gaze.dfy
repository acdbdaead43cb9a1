/** The signal filter of the gaze listener: the recursive high-pass filter
    whose output magnitude is the saccade strength, and the fixed-capacity
    smoothing buffer whose mean is the stabilized gaze position. */
module Gaze {

  datatype Point = Point(x: real, y: real)

  /** HPF_ALPHA in the script: 0.8 read as the exact rational 4/5. */
  const HPF_ALPHA: real := 0.8
  /** SMOOTHING_BUFFER_SIZE in the script. */
  const SMOOTHING_BUFFER_SIZE: nat := 10

  function Scale(k: real, p: Point): Point {
    Point(k * p.x, k * p.y)
  }

  /** Squared Euclidean norm; the saccade strength is its square root. */
  function SqNorm(p: Point): real {
    p.x * p.x + p.y * p.y
  }

  function Abs(r: real): real {
    if r < 0.0 then -r else r
  }

  function Pow(k: real, n: nat): real {
    if n == 0 then 1.0 else k * Pow(k, n - 1)
  }

  // ---------------------------------------------------------------------
  // High-pass filter
  // ---------------------------------------------------------------------

  /** The filter's memory: the previous raw sample and the previous output. */
  datatype FilterState = FilterState(lastRaw: Point, highPass: Point)

  /** The state before the first sample: both points are the origin. */
  const INITIAL_FILTER := FilterState(Point(0.0, 0.0), Point(0.0, 0.0))

  /** One step of the recursive high-pass filter: the new output is the old
      output plus the change of the raw signal, damped by HPF_ALPHA. Holding
      the gaze still (the new sample equals the previous one) only damps it. */
  function HighPass(hp: Point, last: Point, cur: Point): (r: Point)
    ensures r.x - HPF_ALPHA * hp.x == HPF_ALPHA * (cur.x - last.x)
    ensures r.y - HPF_ALPHA * hp.y == HPF_ALPHA * (cur.y - last.y)
    ensures cur == last ==> r == Scale(HPF_ALPHA, hp)
  {
    Point(HPF_ALPHA * (hp.x + cur.x - last.x), HPF_ALPHA * (hp.y + cur.y - last.y))
  }

  /** The whole update of the filter for one accepted sample. */
  function Filter(f: FilterState, cur: Point): (r: FilterState)
    ensures r.lastRaw == cur
  {
    FilterState(cur, HighPass(f.highPass, f.lastRaw, cur))
  }

  /** The filter after the same point has been fed to it n times. */
  function Hold(f: FilterState, p: Point, n: nat): FilterState {
    if n == 0 then f else Filter(Hold(f, p, n - 1), p)
  }

  lemma {:induction false} PowAlphaBounds(n: nat)
    ensures 0.0 < Pow(HPF_ALPHA, n) <= 1.0
    ensures Pow(HPF_ALPHA, n) * (4.0 + n as real) <= 4.0
  {
    if n > 0 {
      PowAlphaBounds(n - 1);
      var p := Pow(HPF_ALPHA, n - 1);
      assert Pow(HPF_ALPHA, n) == 0.8 * p;
      assert 0.8 * p * (4.0 + n as real) == 0.8 * (p * (4.0 + (n - 1) as real)) + 0.8 * p;
    }
  }

  /** While the gaze holds still on the point last seen, each sample scales
      the filter output by exactly HPF_ALPHA. */
  lemma {:induction false} HoldScales(f: FilterState, p: Point, n: nat)
    requires f.lastRaw == p
    ensures Hold(f, p, n).lastRaw == p
    ensures Hold(f, p, n).highPass == Scale(Pow(HPF_ALPHA, n), f.highPass)
  {
    if n > 0 {
      HoldScales(f, p, n - 1);
      var q := Pow(HPF_ALPHA, n - 1);
      assert HPF_ALPHA * (q * f.highPass.x) == (HPF_ALPHA * q) * f.highPass.x;
      assert HPF_ALPHA * (q * f.highPass.y) == (HPF_ALPHA * q) * f.highPass.y;
    }
  }

  /** A still sample scales the output's magnitude by exactly HPF_ALPHA:
      the squared Euclidean norm by 0.64 and the size on each axis by 0.8,
      so every nonzero component strictly shrinks. */
  lemma StillSampleShrinks(hp: Point, p: Point)
    ensures SqNorm(HighPass(hp, p, p)) == 0.64 * SqNorm(hp)
    ensures Abs(HighPass(hp, p, p).x) == HPF_ALPHA * Abs(hp.x)
    ensures Abs(HighPass(hp, p, p).y) == HPF_ALPHA * Abs(hp.y)
    ensures hp != Point(0.0, 0.0) ==>
              Abs(HighPass(hp, p, p).x) + Abs(HighPass(hp, p, p).y) < Abs(hp.x) + Abs(hp.y)
  {
    var r := HighPass(hp, p, p);
    assert r == Point(0.8 * hp.x, 0.8 * hp.y);
    assert r.x * r.x == 0.64 * (hp.x * hp.x);
    assert r.y * r.y == 0.64 * (hp.y * hp.y);
  }

  /** Steady-state rejection: for a constant input, the output after n
      further samples is at most 4/(4+n) of the output it started from, on
      each axis, so it converges to zero. */
  lemma ConstantInputConverges(f: FilterState, p: Point, n: nat)
    ensures Abs(Hold(f, p, n + 1).highPass.x) * (4.0 + n as real)
            <= 4.0 * Abs(Hold(f, p, 1).highPass.x)
    ensures Abs(Hold(f, p, n + 1).highPass.y) * (4.0 + n as real)
            <= 4.0 * Abs(Hold(f, p, 1).highPass.y)
  {
    var g := Hold(f, p, 1);
    HoldShift(f, p, n);
    assert g.lastRaw == p;
    HoldScales(g, p, n);
    PowAlphaBounds(n);
    var k := Pow(HPF_ALPHA, n);
    var h := Hold(f, p, n + 1).highPass;
    assert h == Scale(k, g.highPass);
    AbsScaled(k, g.highPass.x, 4.0 + n as real);
    AbsScaled(k, g.highPass.y, 4.0 + n as real);
  }

  lemma {:induction false} HoldShift(f: FilterState, p: Point, n: nat)
    ensures Hold(f, p, n + 1) == Hold(Hold(f, p, 1), p, n)
  {
    if n > 0 {
      HoldShift(f, p, n - 1);
    }
  }

  lemma AbsScaled(k: real, v: real, m: real)
    requires 0.0 < k && k * m <= 4.0
    ensures Abs(k * v) * m <= 4.0 * Abs(v)
  {
    assert Abs(k * v) == k * Abs(v);
    assert k * Abs(v) * m == (k * m) * Abs(v);
  }

  // ---------------------------------------------------------------------
  // Smoothing buffer
  // ---------------------------------------------------------------------

  function Min(a: nat, b: nat): nat {
    if a < b then a else b
  }

  /** The left fold `reduce((a, b) => a + b, 0)`. */
  function Sum(s: seq<real>): real {
    if s == [] then 0.0 else Sum(s[..|s| - 1]) + s[|s| - 1]
  }

  function Mean(s: seq<real>): (m: real)
    requires |s| > 0
    ensures m * |s| as real == Sum(s)
  {
    Sum(s) / |s| as real
  }

  /** The fold adds up every element whatever way the sequence is split,
      so the buffer's total does not depend on how it was built. */
  lemma {:induction false} SumConcat(a: seq<real>, b: seq<real>)
    ensures Sum(a + b) == Sum(a) + Sum(b)
    decreases |b|
  {
    if b != [] {
      var b' := b[..|b| - 1];
      SumConcat(a, b');
      assert (a + b)[..|a + b| - 1] == a + b';
      assert (a + b)[|a + b| - 1] == b[|b| - 1];
    } else {
      assert a + b == a;
    }
  }

  /** push, then shift when the buffer has grown past its capacity. */
  function Slide(buf: seq<real>, v: real): (r: seq<real>)
    requires |buf| <= SMOOTHING_BUFFER_SIZE
    ensures 1 <= |r| <= SMOOTHING_BUFFER_SIZE
    ensures r[|r| - 1] == v
  {
    var pushed := buf + [v];
    if |pushed| > SMOOTHING_BUFFER_SIZE then pushed[1..] else pushed
  }

  /** The last min(n, 10) values of a history of n samples. */
  function Recent(h: seq<real>): (r: seq<real>)
    ensures |r| == Min(|h|, SMOOTHING_BUFFER_SIZE)
  {
    h[|h| - Min(|h|, SMOOTHING_BUFFER_SIZE)..]
  }

  /** The buffer's push/shift discipline keeps exactly the most recent
      min(n, 10) samples of the whole history. */
  lemma SlideKeepsRecent(h: seq<real>, v: real)
    ensures Slide(Recent(h), v) == Recent(h + [v])
  {
    var h' := h + [v];
    if |h| >= SMOOTHING_BUFFER_SIZE {
      assert (Recent(h) + [v])[1..] == h'[|h'| - SMOOTHING_BUFFER_SIZE..];
    } else {
      assert Recent(h) == h;
    }
  }

  lemma {:induction false} SumWithin(s: seq<real>, lo: real, hi: real)
    requires forall i :: 0 <= i < |s| ==> lo <= s[i] <= hi
    ensures |s| as real * lo <= Sum(s) <= |s| as real * hi
  {
    if s != [] {
      var init := s[..|s| - 1];
      assert forall i :: 0 <= i < |init| ==> init[i] == s[i];
      SumWithin(init, lo, hi);
      assert |s| as real * lo == |init| as real * lo + lo;
      assert |s| as real * hi == |init| as real * hi + hi;
    }
  }

  /** The mean of the buffer lies between the smallest and the largest
      value in it; a steady gaze yields exactly that gaze. */
  lemma MeanWithin(s: seq<real>, lo: real, hi: real)
    requires |s| > 0
    requires forall i :: 0 <= i < |s| ==> lo <= s[i] <= hi
    ensures lo <= Mean(s) <= hi
  {
    SumWithin(s, lo, hi);
    var n := |s| as real;
    assert Mean(s) * n == Sum(s);
    assert (Mean(s) - lo) * n >= 0.0;
    assert (hi - Mean(s)) * n >= 0.0;
  }
}
