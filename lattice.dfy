/** The lattice of `Grid3D.createGrid`: every integer point of the box
    [-xRange, xRange] x [-yRange, yRange] x [-zRange, zRange], emitted by three
    nested counting loops (x outermost, z innermost) into one flat list of
    numbers, three per point. */
module Lattice {
  import opened Types

  /** How many integers the loop `for (v = -r; v <= r; v++)` visits: 2r+1, or
      none at all when r is negative, since then -r <= r is false at once. */
  function Span(r: int): nat {
    if r < 0 then 0 else 2 * r + 1
  }

  /** How many integers lie in [lo, hi]. */
  function Width(lo: int, hi: int): nat {
    if hi < lo then 0 else hi - lo + 1
  }

  /** p lies inside the box the dimensions describe. */
  predicate InBox(p: Vec3, d: GridDimensions) {
    && -d.xRange <= p.x <= d.xRange
    && -d.yRange <= p.y <= d.yRange
    && -d.zRange <= p.z <= d.zRange
  }

  /** Lexicographic order on (x, y, z). */
  predicate LexLess(p: Vec3, q: Vec3) {
    p.x < q.x || (p.x == q.x && (p.y < q.y || (p.y == q.y && p.z < q.z)))
  }

  predicate StrictlyIncreasing(s: seq<Vec3>) {
    forall i, j :: 0 <= i < j < |s| ==> LexLess(s[i], s[j])
  }

  predicate Distinct(s: seq<Vec3>) {
    forall i, j :: 0 <= i < |s| && 0 <= j < |s| && i != j ==> s[i] != s[j]
  }

  /** The points the innermost loop emits for fixed x and y, with z from lo to hi. */
  function ZRun(x: int, y: int, lo: int, hi: int): seq<Vec3>
    decreases hi - lo
  {
    if hi < lo then [] else ZRun(x, y, lo, hi - 1) + [Vec3(x, y, hi)]
  }

  /** The points the middle loop emits for fixed x, with y from lo to hi. */
  function YRun(x: int, lo: int, hi: int, zRange: int): seq<Vec3>
    decreases hi - lo
  {
    if hi < lo then [] else YRun(x, lo, hi - 1, zRange) + ZRun(x, hi, -zRange, zRange)
  }

  /** The points the outer loop emits, with x from lo to hi. */
  function XRun(lo: int, hi: int, yRange: int, zRange: int): seq<Vec3>
    decreases hi - lo
  {
    if hi < lo then [] else XRun(lo, hi - 1, yRange, zRange) + YRun(hi, -yRange, yRange, zRange)
  }

  /** Every lattice point, in the order the three loops emit them. */
  function Points(d: GridDimensions): seq<Vec3> {
    XRun(-d.xRange, d.xRange, d.yRange, d.zRange)
  }

  /** The flat number list `positions`: x, y, z of each point in turn. */
  function Flatten(ps: seq<Vec3>): seq<int> {
    if ps == [] then []
    else
      var p := ps[|ps| - 1];
      Flatten(ps[..|ps| - 1]) + [p.x, p.y, p.z]
  }

  // ---------------------------------------------------------------------------
  // The flat list holds three numbers per point, point i at offsets 3i..3i+2.

  lemma {:induction false} FlattenLength(ps: seq<Vec3>)
    ensures |Flatten(ps)| == 3 * |ps|
  {
    if ps != [] {
      FlattenLength(ps[..|ps| - 1]);
    }
  }

  lemma {:induction false} FlattenAt(ps: seq<Vec3>, i: int)
    requires 0 <= i < |ps|
    ensures |Flatten(ps)| == 3 * |ps|
    ensures Flatten(ps)[3 * i] == ps[i].x
    ensures Flatten(ps)[3 * i + 1] == ps[i].y
    ensures Flatten(ps)[3 * i + 2] == ps[i].z
  {
    FlattenLength(ps);
    var n := |ps|;
    var init := ps[..n - 1];
    FlattenLength(init);
    if i < n - 1 {
      FlattenAt(init, i);
      assert init[i] == ps[i];
    }
  }

  lemma FlattenAppendOne(ps: seq<Vec3>, p: Vec3)
    ensures Flatten(ps + [p]) == Flatten(ps) + [p.x, p.y, p.z]
  {
    assert (ps + [p])[..|ps|] == ps;
  }

  lemma {:induction false} FlattenConcat(a: seq<Vec3>, b: seq<Vec3>)
    ensures Flatten(a + b) == Flatten(a) + Flatten(b)
    decreases |b|
  {
    if b != [] {
      var n := |b|;
      var p := b[n - 1];
      assert b == b[..n - 1] + [p];
      assert a + b == (a + b[..n - 1]) + [p];
      FlattenConcat(a, b[..n - 1]);
      FlattenAppendOne(a + b[..n - 1], p);
      FlattenAppendOne(b[..n - 1], p);
    } else {
      assert a + b == a;
    }
  }

  // ---------------------------------------------------------------------------
  // Counting.

  lemma MulSucc(w: int, s: int)
    ensures (w + 1) * s == w * s + s
  {
  }

  lemma {:induction false} ZRunLength(x: int, y: int, lo: int, hi: int)
    ensures |ZRun(x, y, lo, hi)| == Width(lo, hi)
    decreases hi - lo
  {
    if lo <= hi {
      ZRunLength(x, y, lo, hi - 1);
    }
  }

  lemma {:induction false} YRunLength(x: int, lo: int, hi: int, zRange: int)
    ensures |YRun(x, lo, hi, zRange)| == Width(lo, hi) * Span(zRange)
    decreases hi - lo
  {
    if lo <= hi {
      YRunLength(x, lo, hi - 1, zRange);
      ZRunLength(x, hi, -zRange, zRange);
      assert Width(-zRange, zRange) == Span(zRange);
      assert Width(lo, hi) == Width(lo, hi - 1) + 1;
      MulSucc(Width(lo, hi - 1), Span(zRange));
    }
  }

  lemma {:induction false} XRunLength(lo: int, hi: int, yRange: int, zRange: int)
    ensures |XRun(lo, hi, yRange, zRange)| == Width(lo, hi) * (Span(yRange) * Span(zRange))
    decreases hi - lo
  {
    if lo <= hi {
      XRunLength(lo, hi - 1, yRange, zRange);
      YRunLength(hi, -yRange, yRange, zRange);
      assert Width(-yRange, yRange) == Span(yRange);
      var s := Span(yRange) * Span(zRange);
      assert Width(lo, hi) == Width(lo, hi - 1) + 1;
      MulSucc(Width(lo, hi - 1), s);
    }
  }

  /** The lattice has Span(xRange) * Span(yRange) * Span(zRange) points, for any ranges. */
  lemma PointsCount(d: GridDimensions)
    ensures |Points(d)| == Span(d.xRange) * Span(d.yRange) * Span(d.zRange)
  {
    XRunLength(-d.xRange, d.xRange, d.yRange, d.zRange);
    assert Width(-d.xRange, d.xRange) == Span(d.xRange);
  }

  /** For non-negative ranges: (2·xRange+1)·(2·yRange+1)·(2·zRange+1) points. */
  lemma PointsCountNonNegative(d: GridDimensions)
    requires d.xRange >= 0 && d.yRange >= 0 && d.zRange >= 0
    ensures |Points(d)| == (2 * d.xRange + 1) * (2 * d.yRange + 1) * (2 * d.zRange + 1)
  {
    PointsCount(d);
  }

  /** A negative range on any axis leaves the lattice empty. */
  lemma NegativeRangeEmpty(d: GridDimensions)
    requires d.xRange < 0 || d.yRange < 0 || d.zRange < 0
    ensures Points(d) == []
  {
    PointsCount(d);
  }

  // ---------------------------------------------------------------------------
  // Membership: exactly the points of the box.

  lemma {:induction false} ZRunMembers(x: int, y: int, lo: int, hi: int, p: Vec3)
    ensures p in ZRun(x, y, lo, hi) <==> p.x == x && p.y == y && lo <= p.z <= hi
    decreases hi - lo
  {
    if lo <= hi {
      ZRunMembers(x, y, lo, hi - 1, p);
    }
  }

  lemma {:induction false} YRunMembers(x: int, lo: int, hi: int, zRange: int, p: Vec3)
    ensures p in YRun(x, lo, hi, zRange) <==>
            p.x == x && lo <= p.y <= hi && -zRange <= p.z <= zRange
    decreases hi - lo
  {
    if lo <= hi {
      YRunMembers(x, lo, hi - 1, zRange, p);
      ZRunMembers(x, hi, -zRange, zRange, p);
    }
  }

  lemma {:induction false} XRunMembers(lo: int, hi: int, yRange: int, zRange: int, p: Vec3)
    ensures p in XRun(lo, hi, yRange, zRange) <==>
            lo <= p.x <= hi && -yRange <= p.y <= yRange && -zRange <= p.z <= zRange
    decreases hi - lo
  {
    if lo <= hi {
      XRunMembers(lo, hi - 1, yRange, zRange, p);
      YRunMembers(hi, -yRange, yRange, zRange, p);
    }
  }

  /** Every emitted point is in the box, and every point of the box is emitted. */
  lemma PointsMembers(d: GridDimensions, p: Vec3)
    ensures p in Points(d) <==> InBox(p, d)
  {
    XRunMembers(-d.xRange, d.xRange, d.yRange, d.zRange, p);
  }

  // ---------------------------------------------------------------------------
  // Order: strictly increasing in (x, y, z), hence no point twice.

  lemma ConcatIncreasing(a: seq<Vec3>, b: seq<Vec3>)
    requires StrictlyIncreasing(a) && StrictlyIncreasing(b)
    requires forall p, q :: p in a && q in b ==> LexLess(p, q)
    ensures StrictlyIncreasing(a + b)
  {
    var s := a + b;
    forall i, j | 0 <= i < j < |s|
      ensures LexLess(s[i], s[j])
    {
      if j < |a| {
        assert s[i] == a[i] && s[j] == a[j];
      } else if i >= |a| {
        assert s[i] == b[i - |a|] && s[j] == b[j - |a|];
      } else {
        assert s[i] == a[i] && s[j] == b[j - |a|];
        assert s[i] in a && s[j] in b;
      }
    }
  }

  lemma {:induction false} ZRunIncreasing(x: int, y: int, lo: int, hi: int)
    ensures StrictlyIncreasing(ZRun(x, y, lo, hi))
    decreases hi - lo
  {
    if lo <= hi {
      ZRunIncreasing(x, y, lo, hi - 1);
      var last := Vec3(x, y, hi);
      forall p, q | p in ZRun(x, y, lo, hi - 1) && q in [last]
        ensures LexLess(p, q)
      {
        ZRunMembers(x, y, lo, hi - 1, p);
      }
      ConcatIncreasing(ZRun(x, y, lo, hi - 1), [last]);
    }
  }

  lemma {:induction false} YRunIncreasing(x: int, lo: int, hi: int, zRange: int)
    ensures StrictlyIncreasing(YRun(x, lo, hi, zRange))
    decreases hi - lo
  {
    if lo <= hi {
      YRunIncreasing(x, lo, hi - 1, zRange);
      ZRunIncreasing(x, hi, -zRange, zRange);
      forall p, q | p in YRun(x, lo, hi - 1, zRange) && q in ZRun(x, hi, -zRange, zRange)
        ensures LexLess(p, q)
      {
        YRunMembers(x, lo, hi - 1, zRange, p);
        ZRunMembers(x, hi, -zRange, zRange, q);
      }
      ConcatIncreasing(YRun(x, lo, hi - 1, zRange), ZRun(x, hi, -zRange, zRange));
    }
  }

  lemma {:induction false} XRunIncreasing(lo: int, hi: int, yRange: int, zRange: int)
    ensures StrictlyIncreasing(XRun(lo, hi, yRange, zRange))
    decreases hi - lo
  {
    if lo <= hi {
      XRunIncreasing(lo, hi - 1, yRange, zRange);
      YRunIncreasing(hi, -yRange, yRange, zRange);
      forall p, q | p in XRun(lo, hi - 1, yRange, zRange) && q in YRun(hi, -yRange, yRange, zRange)
        ensures LexLess(p, q)
      {
        XRunMembers(lo, hi - 1, yRange, zRange, p);
        YRunMembers(hi, -yRange, yRange, zRange, q);
      }
      ConcatIncreasing(XRun(lo, hi - 1, yRange, zRange), YRun(hi, -yRange, yRange, zRange));
    }
  }

  /** The points come out in ascending (x, y, z) order: x outer, y middle, z inner. */
  lemma PointsIncreasing(d: GridDimensions)
    ensures StrictlyIncreasing(Points(d))
  {
    XRunIncreasing(-d.xRange, d.xRange, d.yRange, d.zRange);
  }

  /** No point is emitted twice. */
  lemma PointsDistinct(d: GridDimensions)
    ensures Distinct(Points(d))
  {
    var s := Points(d);
    PointsIncreasing(d);
    forall i, j | 0 <= i < |s| && 0 <= j < |s| && i != j
      ensures s[i] != s[j]
    {
      if i < j {
        assert LexLess(s[i], s[j]);
      } else {
        assert LexLess(s[j], s[i]);
      }
    }
  }

  lemma {:induction false} DistinctOnce(s: seq<Vec3>, p: Vec3)
    requires Distinct(s)
    ensures multiset(s)[p] == if p in s then 1 else 0
  {
    if s != [] {
      var n := |s|;
      var init := s[..n - 1];
      assert s == init + [s[n - 1]];
      assert Distinct(init) by {
        forall i, j | 0 <= i < |init| && 0 <= j < |init| && i != j
          ensures init[i] != init[j]
        {
          assert init[i] == s[i] && init[j] == s[j];
        }
      }
      DistinctOnce(init, p);
      assert s[n - 1] !in init by {
        forall k | 0 <= k < |init|
          ensures init[k] != s[n - 1]
        {
          assert init[k] == s[k];
        }
      }
      assert multiset(s) == multiset(init) + multiset{s[n - 1]};
    }
  }

  /** Every point of the box is emitted exactly once, and nothing else is. */
  lemma PointsExactlyOnce(d: GridDimensions, p: Vec3)
    ensures multiset(Points(d))[p] == if InBox(p, d) then 1 else 0
  {
    PointsDistinct(d);
    PointsMembers(d, p);
    DistinctOnce(Points(d), p);
  }

  // ---------------------------------------------------------------------------
  // The loops of `createGrid`.

  /** When a counting loop `for (v = lo; v <= hi; v++)` stops, the values it
      visited are exactly lo..hi (none when lo > hi). */
  lemma LoopExit(lo: int, hi: int, v: int)
    requires v == lo || v <= hi + 1
    requires v > hi
    ensures Width(lo, v - 1) == Width(lo, hi)
    ensures v - 1 == hi || (v - 1 < lo && hi < lo)
  {
  }

  lemma ZRunDone(x: int, y: int, zRange: int, z: int)
    requires z == -zRange || z <= zRange + 1
    requires z > zRange
    ensures ZRun(x, y, -zRange, z - 1) == ZRun(x, y, -zRange, zRange)
  {
    LoopExit(-zRange, zRange, z);
  }

  lemma YRunDone(x: int, yRange: int, zRange: int, y: int)
    requires y == -yRange || y <= yRange + 1
    requires y > yRange
    ensures YRun(x, -yRange, y - 1, zRange) == YRun(x, -yRange, yRange, zRange)
  {
    LoopExit(-yRange, yRange, y);
  }

  lemma XRunDone(d: GridDimensions, x: int)
    requires x == -d.xRange || x <= d.xRange + 1
    requires x > d.xRange
    ensures XRun(-d.xRange, x - 1, d.yRange, d.zRange) == Points(d)
  {
    LoopExit(-d.xRange, d.xRange, x);
  }

  /** One more pass of the innermost loop appends one point to the flat list. */
  lemma ZRunGrows(x: int, y: int, z: int, zRange: int)
    requires -zRange <= z
    ensures Flatten(ZRun(x, y, -zRange, z)) == Flatten(ZRun(x, y, -zRange, z - 1)) + [x, y, z]
  {
    FlattenAppendOne(ZRun(x, y, -zRange, z - 1), Vec3(x, y, z));
  }

  /** One more pass of the middle loop appends one z-row to the flat list. */
  lemma YRunGrows(x: int, y: int, yRange: int, zRange: int)
    requires -yRange <= y
    ensures Flatten(YRun(x, -yRange, y, zRange))
            == Flatten(YRun(x, -yRange, y - 1, zRange)) + Flatten(ZRun(x, y, -zRange, zRange))
  {
    FlattenConcat(YRun(x, -yRange, y - 1, zRange), ZRun(x, y, -zRange, zRange));
  }

  /** One more pass of the outer loop appends one y-plane to the flat list. */
  lemma XRunGrows(x: int, xRange: int, yRange: int, zRange: int)
    requires -xRange <= x
    ensures Flatten(XRun(-xRange, x, yRange, zRange))
            == Flatten(XRun(-xRange, x - 1, yRange, zRange)) + Flatten(YRun(x, -yRange, yRange, zRange))
  {
    FlattenConcat(XRun(-xRange, x - 1, yRange, zRange), YRun(x, -yRange, yRange, zRange));
  }

  /** The innermost loop of `createGrid`: for fixed x and y, pushes x, y, z
      for each z from -zRange to zRange. */
  method PushZRun(positions: seq<int>, x: int, y: int, zRange: int) returns (r: seq<int>)
    ensures r == positions + Flatten(ZRun(x, y, -zRange, zRange))
  {
    r := positions;
    var z := -zRange;
    while z <= zRange
      invariant -zRange <= z && (z == -zRange || z <= zRange + 1)
      invariant r == positions + Flatten(ZRun(x, y, -zRange, z - 1))
    {
      ZRunGrows(x, y, z, zRange);
      r := r + [x, y, z];
      z := z + 1;
    }
    ZRunDone(x, y, zRange, z);
  }

  /** The middle loop of `createGrid`: for fixed x, runs the innermost loop
      for each y from -yRange to yRange. */
  method PushYRun(positions: seq<int>, x: int, yRange: int, zRange: int) returns (r: seq<int>)
    ensures r == positions + Flatten(YRun(x, -yRange, yRange, zRange))
  {
    r := positions;
    var y := -yRange;
    while y <= yRange
      invariant -yRange <= y && (y == -yRange || y <= yRange + 1)
      invariant r == positions + Flatten(YRun(x, -yRange, y - 1, zRange))
    {
      YRunGrows(x, y, yRange, zRange);
      r := PushZRun(r, x, y, zRange);
      y := y + 1;
    }
    YRunDone(x, yRange, zRange, y);
  }

  /** `createGrid`'s loops: for each x from -xRange to xRange (outermost), each
      y, each z (innermost) in ascending order, push x, y and z onto `positions`. */
  method GridPositions(d: GridDimensions) returns (positions: seq<int>)
    ensures positions == Flatten(Points(d))
    ensures |positions| == 3 * (Span(d.xRange) * Span(d.yRange) * Span(d.zRange))
  {
    var xRange, yRange, zRange := d.xRange, d.yRange, d.zRange;
    positions := [];
    var x := -xRange;
    while x <= xRange
      invariant -xRange <= x && (x == -xRange || x <= xRange + 1)
      invariant positions == Flatten(XRun(-xRange, x - 1, yRange, zRange))
    {
      XRunGrows(x, xRange, yRange, zRange);
      positions := PushYRun(positions, x, yRange, zRange);
      x := x + 1;
    }
    XRunDone(d, x);
    FlattenLength(Points(d));
    PointsCount(d);
  }
}
