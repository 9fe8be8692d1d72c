/** The bokeh depth-of-field kernel: 42 sample points on three concentric
    rings (ring r has 7r points), transformed to the aperture's rotated N-gon.
    The trigonometry of the transform is not modelled: a sample records the
    inputs it is computed from (ring, point, the ring's radius, the point's
    angle as a fraction of a full turn, the aperture shape, the maximum radius
    and the reciprocal aspect). The pass rebuilds the kernel only when the
    depth-of-field settings' hash, the maximum radius or the reciprocal aspect
    changed since the last build. */
module Bokeh {
  import opened Settings

  const Rings: nat := 4            // kRings: rings 1 .. Rings - 1 are filled
  const PointsPerRing: nat := 7    // kPointsPerRing
  const KernelSize: nat := 42      // the length of the kernel array

  datatype KernelSample = KernelSample(
    ring: nat, point: nat,
    radius: real, turn: real,
    blade: BladeShape, maxRadius: real, rcpAspect: real)

  /** The number of points on ring `ring`. */
  function RingPoints(ring: nat): (r: nat)
  {
    ring * PointsPerRing
  }

  /** The kernel index of the first point of ring `ring` (rings start at 1). */
  function RingStart(ring: nat): (r: nat)
    requires ring >= 1
  {
    if ring == 1 then 0 else RingStart(ring - 1) + RingPoints(ring - 1)
  }

  /** (ring + 1/7) / (Rings - 1 + 1/7): the radius of a ring, the outer ring at 1. */
  function RingRadius(ring: nat): (r: real)
  {
    var bias := 1.0 / PointsPerRing as real;
    (ring as real + bias) / ((Rings - 1) as real + bias)
  }

  /** The sample PrepareBokehKernel stores for `point` of `ring`. */
  function Sample(blade: BladeShape, maxRadius: real, rcpAspect: real, ring: nat, point: nat): (s: KernelSample)
    requires ring >= 1
  {
    KernelSample(ring, point, RingRadius(ring), point as real / RingPoints(ring) as real,
      blade, maxRadius, rcpAspect)
  }

  /** The points of one ring, in order. */
  function RingSamples(blade: BladeShape, maxRadius: real, rcpAspect: real, ring: nat): (rs: seq<KernelSample>)
    requires ring >= 1
    ensures |rs| == RingPoints(ring)
    ensures forall p :: 0 <= p < |rs| ==> rs[p] == Sample(blade, maxRadius, rcpAspect, ring, p)
  {
    seq(RingPoints(ring), (p: int) requires 0 <= p => Sample(blade, maxRadius, rcpAspect, ring, p))
  }

  /** The whole kernel: rings 1, 2 and 3, concatenated in order. */
  function KernelTable(blade: BladeShape, maxRadius: real, rcpAspect: real): (t: seq<KernelSample>)
  {
    RingSamples(blade, maxRadius, rcpAspect, 1) + RingSamples(blade, maxRadius, rcpAspect, 2) +
    RingSamples(blade, maxRadius, rcpAspect, 3)
  }

  /** The ring starts are 0, 7, 21 and the kernel ends at 42. */
  lemma RingStarts()
    ensures RingStart(1) == 0 && RingStart(2) == 7 && RingStart(3) == 21 && RingStart(4) == KernelSize
  {
  }

  /** Ring `ring` starts after the 7 + 14 + ... points of the rings inside it:
      at 7 * (ring - 1) * ring / 2. */
  lemma {:induction false} RingStartClosedForm(ring: nat)
    requires ring >= 1
    ensures 2 * RingStart(ring) == PointsPerRing * (ring - 1) * ring
    decreases ring
  {
    if ring > 1 {
      RingStartClosedForm(ring - 1);
      assert PointsPerRing * (ring - 2) * (ring - 1) + 2 * PointsPerRing * (ring - 1) == PointsPerRing * (ring - 1) * ring;
    }
  }

  /** The kernel holds exactly 42 samples, and the sample at RingStart(r) + p is point p of ring r. */
  lemma KernelTableLayout(blade: BladeShape, maxRadius: real, rcpAspect: real)
    ensures var t := KernelTable(blade, maxRadius, rcpAspect);
      |t| == KernelSize &&
      forall ring, p :: 1 <= ring < Rings && 0 <= p < RingPoints(ring) ==>
        t[RingStart(ring) + p] == Sample(blade, maxRadius, rcpAspect, ring, p)
  {
    var r1 := RingSamples(blade, maxRadius, rcpAspect, 1);
    var r2 := RingSamples(blade, maxRadius, rcpAspect, 2);
    var r3 := RingSamples(blade, maxRadius, rcpAspect, 3);
    var t := KernelTable(blade, maxRadius, rcpAspect);
    assert t == r1 + r2 + r3;
    RingStarts();
  }

  /** The ring and point PrepareBokehKernel writes at kernel index `idx`. */
  function IndexRing(idx: nat): (rp: (nat, nat))
    requires idx < KernelSize
    ensures 1 <= rp.0 < Rings && rp.1 < RingPoints(rp.0) && idx == RingStart(rp.0) + rp.1
  {
    RingStarts();
    if idx < 7 then (1, idx) else if idx < 21 then (2, idx - 7) else (3, idx - 21)
  }

  /** Two (ring, point) pairs that land on the same kernel index are the same pair. */
  lemma RingPointUnique(r1: nat, p1: nat, r2: nat, p2: nat)
    requires 1 <= r1 < Rings && p1 < RingPoints(r1)
    requires 1 <= r2 < Rings && p2 < RingPoints(r2)
    requires RingStart(r1) + p1 == RingStart(r2) + p2
    ensures r1 == r2 && p1 == p2
  {
    RingStarts();
  }

  /** The sample PrepareBokehKernel writes at kernel index `idx`. */
  function KernelAt(blade: BladeShape, maxRadius: real, rcpAspect: real, idx: nat): (s: KernelSample)
    requires idx < KernelSize
  {
    var rp := IndexRing(idx);
    Sample(blade, maxRadius, rcpAspect, rp.0, rp.1)
  }

  /** Entry `idx` of the kernel table is the sample written at that index. */
  lemma KernelTableAt(blade: BladeShape, maxRadius: real, rcpAspect: real, idx: nat)
    requires idx < KernelSize
    ensures |KernelTable(blade, maxRadius, rcpAspect)| == KernelSize
    ensures KernelTable(blade, maxRadius, rcpAspect)[idx] == KernelAt(blade, maxRadius, rcpAspect, idx)
  {
    KernelTableLayout(blade, maxRadius, rcpAspect);
    var rp := IndexRing(idx);
  }

  /** Ring radii grow outwards, lie in (0, 1] and the outer ring sits at 1. */
  lemma RingRadiiIncrease()
    ensures 0.0 < RingRadius(1) < RingRadius(2) < RingRadius(3) == 1.0
  {
  }

  /** Within a ring the points sit at distinct angles in [0, 1) of a turn. */
  lemma RingAnglesDistinct(ring: nat, p: nat, q: nat)
    requires 1 <= ring && p < RingPoints(ring) && q < RingPoints(ring)
    ensures var n := RingPoints(ring) as real;
      0.0 <= p as real / n < 1.0 && (p != q ==> p as real / n != q as real / n)
  {
    var n := RingPoints(ring) as real;
    assert n > 0.0;
  }

  // ---------------------------------------------------------------- cache inputs

  /** GetMaxBokehRadiusInPixels: min(0.05, 14 / height). A zero height divides to
      +infinity in floating point, so the minimum is 0.05 then. */
  function MaxBokehRadius(height: nat): (r: real)
    ensures 0.0 < r <= 0.05
    ensures height > 0 ==> r <= 14.0 / height as real
    ensures r == 0.05 || (height > 0 && r == 14.0 / height as real)
    ensures height > 0 && 14.0 / height as real < 0.05 ==> r == 14.0 / height as real
    ensures height == 0 || 14.0 / height as real >= 0.05 ==> r == 0.05
  {
    if height == 0 then 0.05
    else if 14.0 / height as real < 0.05 then 14.0 / height as real
    else 0.05
  }

  /** 1 / (halfWidth / halfHeight), for a target at least 2 x 2. A zero half
      size gives infinity or NaN in floating point; the model gives 0.0. */
  function RcpAspect(halfWidth: nat, halfHeight: nat): (r: real)
    ensures halfWidth > 0 && halfHeight > 0 ==> r * halfWidth as real == halfHeight as real
  {
    if halfWidth > 0 && halfHeight > 0 then halfHeight as real / halfWidth as real else 0.0
  }

  /** The cached key of the kernel. */
  datatype CacheKey = CacheKey(hash: int, maxRadius: real, rcpAspect: real)

  /** The kernel is rebuilt exactly when one of the three inputs differs from the cache. */
  predicate NeedsRebuild(cached: CacheKey, hash: int, maxRadius: real, rcpAspect: real) {
    hash != cached.hash || maxRadius != cached.maxRadius || rcpAspect != cached.rcpAspect
  }

  /** The cache key of a pass that has never built a kernel: all fields at their defaults. */
  const InitialKey: CacheKey := CacheKey(0, 0.0, 0.0)

  /** One DoBokehDepthOfField call's cache decision: whether the kernel is
      rebuilt, and the key cached afterwards. */
  datatype CacheStep = CacheStep(rebuild: bool, key: CacheKey)

  function CacheUpdate(cached: CacheKey, hash: int, maxRadius: real, rcpAspect: real): (r: CacheStep)
    ensures r.rebuild <==> NeedsRebuild(cached, hash, maxRadius, rcpAspect)
    ensures r.key == CacheKey(hash, maxRadius, rcpAspect)
  {
    if NeedsRebuild(cached, hash, maxRadius, rcpAspect) then CacheStep(true, CacheKey(hash, maxRadius, rcpAspect))
    else CacheStep(false, cached)
  }

  /** Two frames with the same inputs build the kernel at most once: the second reuses it. */
  lemma SecondIdenticalFrameReuses(cached: CacheKey, hash: int, maxRadius: real, rcpAspect: real)
    ensures var first := CacheUpdate(cached, hash, maxRadius, rcpAspect);
      !CacheUpdate(first.key, hash, maxRadius, rcpAspect).rebuild &&
      CacheUpdate(first.key, hash, maxRadius, rcpAspect).key == first.key
  {
  }

  /** A pass that has never built a kernel always builds one on its first bokeh
      frame, because a real maximum radius is never 0. */
  lemma FirstBokehFrameBuilds(hash: int, height: nat, rcpAspect: real)
    ensures NeedsRebuild(InitialKey, hash, MaxBokehRadius(height), rcpAspect)
  {
  }
}
