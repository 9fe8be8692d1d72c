/** The bloom pyramid: how many mips a frame uses, and the order of the blits
    that build it. The pyramid has room for `MaxPyramidSize` levels, each with
    a "down" and an "up" texture; a frame uses the first `MipCount` of them. */
module Bloom {
  import opened Engine

  const MaxPyramidSize: nat := 16

  function Pow2(k: nat): (r: nat)
    ensures r >= 1
  {
    if k == 0 then 1 else 2 * Pow2(k - 1)
  }

  /** The integer part of log2(x). */
  function FloorLog2(x: nat): (r: nat)
    requires x >= 1
    ensures Pow2(r) <= x < Pow2(r + 1)
  {
    if x == 1 then 0 else 1 + FloorLog2(x / 2)
  }

  /** FloorLog2 never decreases when its argument grows. */
  lemma {:induction false} FloorLog2Monotone(x: nat, y: nat)
    requires 1 <= x <= y
    ensures FloorLog2(x) <= FloorLog2(y)
    decreases y
  {
    if x > 1 {
      FloorLog2Monotone(x / 2, y / 2);
    }
  }

  /** The value Mathf.Clamp(v, lo, hi) returns. */
  function Clamp(v: int, lo: int, hi: int): (r: int)
    requires lo <= hi
    ensures lo <= r <= hi
    ensures lo <= v <= hi ==> r == v
    ensures v < lo ==> r == lo
    ensures v > hi ==> r == hi
  {
    if v < lo then lo else if v > hi then hi else v
  }

  /** The number of pyramid levels for a `width` x `height` target: start at half
      resolution, take floor(log2(largest side)) - 1, subtract the skipped
      iterations and clamp to [1, MaxPyramidSize]. For a target under 2 x 2 the
      half-resolution size is 0, whose logarithm is minus infinity; converting
      that to an int is unspecified in C#, and the model gives such a target
      one level. */
  function MipCount(width: nat, height: nat, skipIterations: int): (r: nat)
    ensures 1 <= r <= MaxPyramidSize
    ensures var m := Max(width / 2, height / 2);
      m >= 1 ==> r == Clamp(FloorLog2(m) - 1 - skipIterations, 1, MaxPyramidSize)
  {
    var maxSize := Max(width / 2, height / 2);
    if maxSize == 0 then 1
    else Clamp(FloorLog2(maxSize) - 1 - skipIterations, 1, MaxPyramidSize)
  }

  function Max(a: nat, b: nat): (r: nat)
    ensures r >= a && r >= b && (r == a || r == b)
  {
    if a >= b then a else b
  }

  /** A larger target never gets fewer pyramid levels. */
  lemma MipCountMonotoneInSize(w1: nat, h1: nat, w2: nat, h2: nat, skip: int)
    requires w1 <= w2 && h1 <= h2
    ensures MipCount(w1, h1, skip) <= MipCount(w2, h2, skip)
  {
    var m1, m2 := Max(w1 / 2, h1 / 2), Max(w2 / 2, h2 / 2);
    if m1 >= 1 {
      FloorLog2Monotone(m1, m2);
    }
  }

  /** Skipping more iterations never gives more pyramid levels. */
  lemma MipCountAntitoneInSkip(w: nat, h: nat, s1: int, s2: int)
    requires s1 <= s2
    ensures MipCount(w, h, s2) <= MipCount(w, h, s1)
  {
  }

  /** A 1920 x 1080 target without skipped iterations: half resolution is
      960 x 540, floor(log2(960)) = 9, so the pyramid has 8 levels. */
  lemma FullHdMipCount()
    ensures MipCount(1920, 1080, 0) == 8
  {
    assert FloorLog2(960) == 9 by {
      assert Pow2(9) == 512 <= 960 < 1024 == Pow2(10);
    }
  }

  // ---------------------------------------------------------------- the blit schedule

  /** The two pyramid arrays hold `MaxPyramidSize` handles each. */
  predicate Pyramid(down: seq<Handle>, up: seq<Handle>) {
    |down| == MaxPyramidSize && |up| == MaxPyramidSize
  }

  /** The number of commands SetupBloom issues for an `n`-level pyramid:
      one prefilter, two blits per extra level on the way down, one per level
      on the way up, and the binding of the result. */
  function ScheduleLength(n: nat): (r: nat)
    requires n >= 1
    ensures r == 3 * n - 1
  {
    1 + 2 * (n - 1) + (n - 1) + 1
  }

  /** Command `p` of SetupBloom for an `n`-level pyramid read from `src`:
      0 is the prefilter into down[0]; 2i-1 and 2i (1 <= i < n) are the
      two-pass Gaussian blur down[i-1] -> up[i] -> down[i]; 3n-3-i (0 <= i <= n-2)
      is the upsample of down[i] with the lower level (down[n-1] for the first,
      up[i+1] afterwards) into up[i]; the last binds up[0] as the bloom texture. */
  function BloomStep(n: nat, p: nat, src: Handle, down: seq<Handle>, up: seq<Handle>): (c: Command)
    requires 1 <= n <= MaxPyramidSize && Pyramid(down, up) && p < ScheduleLength(n)
  {
    if p == 0 then
      Draw(BloomMaterial, 0, [src], [down[0]])
    else if p < 2 * n - 1 then
      var i := (p + 1) / 2;
      if p % 2 == 1 then Draw(BloomMaterial, 1, [down[i - 1]], [up[i]])
      else Draw(BloomMaterial, 2, [up[i]], [down[i]])
    else if p < 3 * n - 2 then
      var i := 3 * n - 3 - p;
      Draw(BloomMaterial, 3, [down[i], if i == n - 2 then down[i + 1] else up[i + 1]], [up[i]])
    else
      BindTexture(BloomTextureSlot, up[0])
  }

  /** Every command SetupBloom issues, in order. */
  function Schedule(n: nat, src: Handle, down: seq<Handle>, up: seq<Handle>): (cs: seq<Command>)
    requires 1 <= n <= MaxPyramidSize && Pyramid(down, up)
    ensures |cs| == ScheduleLength(n)
    ensures forall p :: 0 <= p < |cs| ==> cs[p] == BloomStep(n, p, src, down, up)
  {
    seq(ScheduleLength(n), p requires 0 <= p < ScheduleLength(n) => BloomStep(n, p, src, down, up))
  }

  /** The first `p` commands of the schedule, one command appended at a time
      as SetupBloom issues them. */
  function SchedulePrefix(n: nat, p: nat, src: Handle, down: seq<Handle>, up: seq<Handle>): (cs: seq<Command>)
    requires 1 <= n <= MaxPyramidSize && Pyramid(down, up) && p <= ScheduleLength(n)
    ensures |cs| == p
  {
    if p == 0 then [] else SchedulePrefix(n, p - 1, src, down, up) + [BloomStep(n, p - 1, src, down, up)]
  }

  /** Issuing the steps one by one yields the schedule's prefix. */
  lemma {:induction false} SchedulePrefixIsSchedule(n: nat, p: nat, src: Handle, down: seq<Handle>, up: seq<Handle>)
    requires 1 <= n <= MaxPyramidSize && Pyramid(down, up) && p <= ScheduleLength(n)
    ensures SchedulePrefix(n, p, src, down, up) == Schedule(n, src, down, up)[..p]
    decreases p
  {
    if p > 0 {
      SchedulePrefixIsSchedule(n, p - 1, src, down, up);
      var cs := Schedule(n, src, down, up);
      assert cs[..p] == cs[..p - 1] + [cs[p - 1]];
    }
  }

  /** The textures a command samples. */
  function Reads(c: Command): (r: seq<Handle>)
  {
    match c
    case Draw(_, _, inputs, _) => inputs
    case BindTexture(_, t) => [t]
    case _ => []
  }

  /** The surfaces a command renders into. */
  function Writes(c: Command): (r: seq<Handle>)
  {
    if c.Draw? then c.targets else []
  }

  predicate WrittenBefore(cs: seq<Command>, p: nat, h: Handle)
    requires p <= |cs|
  {
    exists q :: 0 <= q < p && h in Writes(cs[q])
  }

  /** With two or more levels, every texture a bloom command samples, other than
      the source, has been rendered earlier in the same schedule. */
  lemma ScheduleReadsAfterWrites(n: nat, src: Handle, down: seq<Handle>, up: seq<Handle>)
    requires 2 <= n <= MaxPyramidSize && Pyramid(down, up)
    ensures var cs := Schedule(n, src, down, up);
      forall p, h :: 0 <= p < |cs| && h in Reads(cs[p]) && h != src ==> WrittenBefore(cs, p, h)
  {
    var cs := Schedule(n, src, down, up);
    forall p, h | 0 <= p < |cs| && h in Reads(cs[p]) && h != src
      ensures WrittenBefore(cs, p, h)
    {
      var q := Writer(n, p, h, src, down, up);
      assert h in Writes(cs[q]);
    }
  }

  /** Command 2i-1: the first blur pass of level i. */
  lemma StepBlurDown(n: nat, i: nat, src: Handle, down: seq<Handle>, up: seq<Handle>)
    requires 1 <= i < n <= MaxPyramidSize && Pyramid(down, up)
    ensures BloomStep(n, 2 * i - 1, src, down, up) == Draw(BloomMaterial, 1, [down[i - 1]], [up[i]])
  {
    assert (2 * i - 1 + 1) / 2 == i;
  }

  /** Command 2i: the second blur pass of level i. */
  lemma StepBlurAcross(n: nat, i: nat, src: Handle, down: seq<Handle>, up: seq<Handle>)
    requires 1 <= i < n <= MaxPyramidSize && Pyramid(down, up)
    ensures BloomStep(n, 2 * i, src, down, up) == Draw(BloomMaterial, 2, [up[i]], [down[i]])
  {
    assert (2 * i + 1) / 2 == i && (2 * i) % 2 == 0;
  }

  /** Command 3n-3-i: the upsample into up[i]. */
  lemma StepUpsample(n: nat, i: nat, src: Handle, down: seq<Handle>, up: seq<Handle>)
    requires i + 2 <= n <= MaxPyramidSize && Pyramid(down, up)
    ensures BloomStep(n, 3 * n - 3 - i, src, down, up) ==
      Draw(BloomMaterial, 3, [down[i], if i == n - 2 then down[i + 1] else up[i + 1]], [up[i]])
  {
  }

  /** The whole prefix is the schedule. */
  lemma SchedulePrefixComplete(n: nat, src: Handle, down: seq<Handle>, up: seq<Handle>)
    requires 1 <= n <= MaxPyramidSize && Pyramid(down, up)
    ensures SchedulePrefix(n, 3 * n - 1, src, down, up) == Schedule(n, src, down, up)
  {
    SchedulePrefixIsSchedule(n, 3 * n - 1, src, down, up);
    var cs := Schedule(n, src, down, up);
    assert cs[..3 * n - 1] == cs;
  }

  /** Level i of the way down appends its two blur passes to the prefix. */
  lemma PrefixBlurLevel(n: nat, i: nat, src: Handle, down: seq<Handle>, up: seq<Handle>)
    requires 1 <= i < n <= MaxPyramidSize && Pyramid(down, up)
    ensures SchedulePrefix(n, 2 * i + 1, src, down, up) ==
      SchedulePrefix(n, 2 * i - 1, src, down, up) +
      [Draw(BloomMaterial, 1, [down[i - 1]], [up[i]]), Draw(BloomMaterial, 2, [up[i]], [down[i]])]
  {
    StepBlurDown(n, i, src, down, up);
    StepBlurAcross(n, i, src, down, up);
    var before := SchedulePrefix(n, 2 * i - 1, src, down, up);
    assert SchedulePrefix(n, 2 * i, src, down, up) == before + [BloomStep(n, 2 * i - 1, src, down, up)];
  }

  /** Level i of the way up appends its upsample to the prefix. */
  lemma PrefixUpsampleLevel(n: nat, i: nat, src: Handle, down: seq<Handle>, up: seq<Handle>)
    requires i + 2 <= n <= MaxPyramidSize && Pyramid(down, up)
    ensures SchedulePrefix(n, 3 * n - 2 - i, src, down, up) ==
      SchedulePrefix(n, 3 * n - 3 - i, src, down, up) +
      [Draw(BloomMaterial, 3, [down[i], if i == n - 2 then down[i + 1] else up[i + 1]], [up[i]])]
  {
    StepUpsample(n, i, src, down, up);
  }

  /** The binding of up[0] completes the prefix. */
  lemma PrefixBind(n: nat, src: Handle, down: seq<Handle>, up: seq<Handle>)
    requires 1 <= n <= MaxPyramidSize && Pyramid(down, up)
    ensures SchedulePrefix(n, 3 * n - 1, src, down, up) ==
      SchedulePrefix(n, 3 * n - 2, src, down, up) + [BindTexture(BloomTextureSlot, up[0])]
  {
  }

  /** Command 2i renders down[i], for every level i below n. */
  lemma StepWritesDown(n: nat, i: nat, src: Handle, down: seq<Handle>, up: seq<Handle>)
    requires i < n <= MaxPyramidSize && Pyramid(down, up)
    ensures Writes(BloomStep(n, 2 * i, src, down, up)) == [down[i]]
  {
    if i > 0 {
      StepBlurAcross(n, i, src, down, up);
    }
  }

  /** The position of the command that renders `h` before step `p` reads it. */
  lemma Writer(n: nat, p: nat, h: Handle, src: Handle, down: seq<Handle>, up: seq<Handle>) returns (q: nat)
    requires 2 <= n <= MaxPyramidSize && Pyramid(down, up) && p < ScheduleLength(n)
    requires h in Reads(BloomStep(n, p, src, down, up)) && h != src
    ensures q < p && h in Writes(BloomStep(n, q, src, down, up))
  {
    if p == 0 {
      // the prefilter reads only the source
      assert false;
    } else if p < 2 * n - 1 {
      var i := (p + 1) / 2;
      if p % 2 == 1 {
        assert p == 2 * i - 1;
        StepBlurDown(n, i, src, down, up);
        q := 2 * (i - 1);
        StepWritesDown(n, i - 1, src, down, up);
      } else {
        assert p == 2 * i;
        StepBlurAcross(n, i, src, down, up);
        q := 2 * i - 1;
        StepBlurDown(n, i, src, down, up);
      }
    } else if p < 3 * n - 2 {
      var i := 3 * n - 3 - p;
      StepUpsample(n, i, src, down, up);
      if h == down[i] {
        q := 2 * i;
        StepWritesDown(n, i, src, down, up);
      } else if i == n - 2 {
        q := 2 * (n - 1);
        StepWritesDown(n, n - 1, src, down, up);
      } else {
        q := p - 1;
        StepUpsample(n, i + 1, src, down, up);
      }
    } else {
      q := 3 * n - 3;
      StepUpsample(n, 0, src, down, up);
    }
  }

  /** With two or more levels, the last blit renders up[0] and the bloom texture then bound is up[0]. */
  lemma ScheduleEndsInUp0(n: nat, src: Handle, down: seq<Handle>, up: seq<Handle>)
    requires 2 <= n <= MaxPyramidSize && Pyramid(down, up)
    ensures var cs := Schedule(n, src, down, up);
      cs[|cs| - 2].Draw? && cs[|cs| - 2].targets == [up[0]] &&
      cs[|cs| - 1] == BindTexture(BloomTextureSlot, up[0])
  {
  }

  /** With a single level neither loop runs: up[0] is bound as the bloom
      texture although no command of the schedule renders it, so the uber pass
      samples whatever up[0] held from an earlier frame. */
  lemma SingleLevelBindsUnwrittenUp0(src: Handle, down: seq<Handle>, up: seq<Handle>)
    requires Pyramid(down, up) && up[0] != down[0]
    ensures var cs := Schedule(1, src, down, up);
      cs == [Draw(BloomMaterial, 0, [src], [down[0]]), BindTexture(BloomTextureSlot, up[0])] &&
      up[0] in Reads(cs[1]) && !WrittenBefore(cs, 1, up[0])
  {
    var cs := Schedule(1, src, down, up);
    assert cs[0] == Draw(BloomMaterial, 0, [src], [down[0]]);
  }

  /** The schedule only touches the source and the first `n` levels of each array. */
  lemma ScheduleStaysInUsedLevels(n: nat, src: Handle, down: seq<Handle>, up: seq<Handle>)
    requires 1 <= n <= MaxPyramidSize && Pyramid(down, up)
    ensures var cs := Schedule(n, src, down, up);
      forall p, h :: 0 <= p < |cs| && (h in Reads(cs[p]) || h in Writes(cs[p])) ==>
        h == src || h in down[..n] || h in up[..n]
  {
    var cs := Schedule(n, src, down, up);
    forall p, h | 0 <= p < |cs| && (h in Reads(cs[p]) || h in Writes(cs[p]))
      ensures h == src || h in down[..n] || h in up[..n]
    {
      if p == 0 {
        assert h == src || h == down[0];
      } else if p < 2 * n - 1 {
        var i := (p + 1) / 2;
        assert h == down[i - 1] || h == up[i] || h == down[i];
      } else if p < 3 * n - 2 {
        var i := 3 * n - 3 - p;
        assert h == down[i] || h == down[i + 1] || h == up[i + 1] || h == up[i];
      } else {
        assert h == up[0];
      }
    }
  }

  /** Every level below `n` has its down texture rendered exactly by the blit
      that the schedule assigns it: the prefilter for level 0, the second blur
      pass for the others. */
  lemma ScheduleWritesEveryDownLevel(n: nat, src: Handle, down: seq<Handle>, up: seq<Handle>)
    requires 1 <= n <= MaxPyramidSize && Pyramid(down, up)
    ensures var cs := Schedule(n, src, down, up);
      forall i :: 0 <= i < n ==> cs[2 * i].Draw? && cs[2 * i].targets == [down[i]]
  {
  }
}
