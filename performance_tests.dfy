/** The graphics performance-test helpers: timing samples taken from
    profiling samplers over a number of frames, and a memory report over the
    objects of one asset type.

    Every `Measure.Custom` call is appended to a `MeasureLog`. A sample group
    name keeps the arguments it is formatted from; a resolution is the pair
    the "{width}x{height}" string is printed from. The engine's readings (a
    sampler's elapsed times in a frame, the objects found and their runtime
    memory sizes) are inputs. Frames are counted, not waited for. */
module PerformanceTests {
  import opened Engine

  datatype TimingMetric = CPU | GPU | InlineCPU

  /** "{width}x{height}" of the camera the scene is measured with. */
  datatype Resolution = Resolution(width: int, height: int)

  /** The arguments a sample group's name is formatted from. */
  datatype GroupName =
    | TimingName(metric: TimingMetric, sampler: string)          // k_Timing, metric, sampler name
    | MemoryName(objectName: string, resolution: Resolution)       // k_Memory, object name, resolution
    | TotalMemoryName(assetType: string, resolution: Resolution)  // k_TotalMemory, type name, resolution

  datatype SampleUnit = Millisecond | Byte

  datatype SampleGroup = SampleGroup(name: GroupName, unit: SampleUnit, increaseIsBetter: bool)

  /** One `Measure.Custom(group, value)` call. */
  datatype Sample = Sample(group: SampleGroup, value: real)

  /** The ordered record of the samples a test reports. */
  class MeasureLog {
    var samples: seq<Sample>

    constructor ()
      ensures samples == []
    {
      samples := [];
    }

    method Custom(s: Sample)
      modifies this
      ensures samples == old(samples) + [s]
    {
      samples := samples + [s];
    }
  }

  // ------------------------------------------------------------ timing samples

  /** A profiling sampler: its name and whether its recorder is enabled. */
  class ProfilingSampler {
    const name: string
    var enableRecording: bool

    constructor (name: string)
      ensures this.name == name && !enableRecording
    {
      this.name := name;
      enableRecording := false;
    }
  }

  /** A sampler's elapsed times in one frame, in milliseconds. */
  datatype Timing = Timing(cpu: real, gpu: real, inlineCpu: real)

  /** The three sample groups kept for a sampler. */
  datatype SamplerGroups = SamplerGroups(cpu: SampleGroup, inlineCPU: SampleGroup, gpu: SampleGroup)

  function TimingGroup(metric: TimingMetric, sampler: string): (g: SampleGroup)
  {
    SampleGroup(TimingName(metric, sampler), Millisecond, false)
  }

  /** CreateSampleGroups: one millisecond group per metric, named after the sampler. */
  function GroupsFor(sampler: string): (gs: SamplerGroups)
  {
    SamplerGroups(TimingGroup(CPU, sampler), TimingGroup(InlineCPU, sampler), TimingGroup(GPU, sampler))
  }

  /** The samples MeasureTime reports for one reading: CPU, GPU, inline CPU,
      each only when its elapsed time is positive. */
  function TimeSamples(gs: SamplerGroups, t: Timing): (r: seq<Sample>)
    ensures |r| <= 3
    ensures forall s :: s in r ==> s.value > 0.0
  {
    (if t.cpu > 0.0 then [Sample(gs.cpu, t.cpu)] else []) +
    (if t.gpu > 0.0 then [Sample(gs.gpu, t.gpu)] else []) +
    (if t.inlineCpu > 0.0 then [Sample(gs.inlineCPU, t.inlineCpu)] else [])
  }

  /** A metric's sample is reported exactly when its elapsed time is positive,
      with that time as its value; every reported value is positive. */
  lemma TimeSamplesGated(sampler: string, t: Timing, x: real)
    ensures var r := TimeSamples(GroupsFor(sampler), t);
      (Sample(TimingGroup(CPU, sampler), x) in r <==> t.cpu > 0.0 && x == t.cpu) &&
      (Sample(TimingGroup(GPU, sampler), x) in r <==> t.gpu > 0.0 && x == t.gpu) &&
      (Sample(TimingGroup(InlineCPU, sampler), x) in r <==> t.inlineCpu > 0.0 && x == t.inlineCpu) &&
      (forall s :: s in r ==> s.value > 0.0)
  {
    var gs := GroupsFor(sampler);
    var c: seq<Sample> := if t.cpu > 0.0 then [Sample(gs.cpu, t.cpu)] else [];
    var g: seq<Sample> := if t.gpu > 0.0 then [Sample(gs.gpu, t.gpu)] else [];
    var i: seq<Sample> := if t.inlineCpu > 0.0 then [Sample(gs.inlineCPU, t.inlineCpu)] else [];
    assert TimeSamples(gs, t) == c + g + i;
  }

  /** The samples of one measuring frame for the first `n` samplers, in order;
      `elapsed(frame, k)` is the reading of the k-th sampler in that frame. */
  function FrameSamples(samplers: seq<ProfilingSampler>, elapsed: (nat, nat) -> Timing, frame: nat, n: nat): (r: seq<Sample>)
    requires n <= |samplers|
    ensures |r| <= 3 * n
  {
    if n == 0 then []
    else
      FrameSamples(samplers, elapsed, frame, n - 1) +
      TimeSamples(GroupsFor(samplers[n - 1].name), elapsed(frame, n - 1))
  }

  /** The samples of the first `frames` measuring frames. */
  function RoundSamples(samplers: seq<ProfilingSampler>, elapsed: (nat, nat) -> Timing, frames: nat): (r: seq<Sample>)
  {
    if frames == 0 then []
    else RoundSamples(samplers, elapsed, frames - 1) + FrameSamples(samplers, elapsed, frames - 1, |samplers|)
  }

  /** Appending sampler `k`'s samples after those of the first `k` samplers. */
  lemma FrameSamplesStep(samplers: seq<ProfilingSampler>, elapsed: (nat, nat) -> Timing, frame: nat, k: nat,
                         start: seq<Sample>, before: seq<Sample>, after: seq<Sample>)
    requires k < |samplers|
    requires before == start + FrameSamples(samplers, elapsed, frame, k)
    requires after == before + TimeSamples(GroupsFor(samplers[k].name), elapsed(frame, k))
    ensures after == start + FrameSamples(samplers, elapsed, frame, k + 1)
  {
  }

  /** Appending frame `frame`'s samples after `frame` rounds gives `frame + 1` rounds. */
  lemma RoundSamplesStep(samplers: seq<ProfilingSampler>, elapsed: (nat, nat) -> Timing, frame: nat,
                         start: seq<Sample>, before: seq<Sample>, after: seq<Sample>)
    requires before == start + RoundSamples(samplers, elapsed, frame)
    requires after == before + FrameSamples(samplers, elapsed, frame, |samplers|)
    ensures after == start + RoundSamples(samplers, elapsed, frame + 1)
  {
  }

  /** A frame whose readings are all positive reports exactly three samples per sampler. */
  lemma {:induction false} FrameSamplesAllPositive(samplers: seq<ProfilingSampler>, elapsed: (nat, nat) -> Timing, frame: nat, n: nat)
    requires n <= |samplers|
    requires forall k :: 0 <= k < n ==> (var t := elapsed(frame, k); t.cpu > 0.0 && t.gpu > 0.0 && t.inlineCpu > 0.0)
    ensures |FrameSamples(samplers, elapsed, frame, n)| == 3 * n
  {
    if n > 0 {
      FrameSamplesAllPositive(samplers, elapsed, frame, n - 1);
    }
  }

  /** With positive readings throughout, exactly `frames` rounds of three samples
      per sampler are reported: the measuring loop runs once per frame. */
  lemma {:induction false} RoundSamplesAllPositive(samplers: seq<ProfilingSampler>, elapsed: (nat, nat) -> Timing, frames: nat)
    requires forall f, k :: 0 <= f < frames && 0 <= k < |samplers| ==>
      (var t := elapsed(f, k); t.cpu > 0.0 && t.gpu > 0.0 && t.inlineCpu > 0.0)
    ensures |RoundSamples(samplers, elapsed, frames)| == 3 * |samplers| * frames
  {
    if frames > 0 {
      RoundSamplesAllPositive(samplers, elapsed, frames - 1);
      FrameSamplesAllPositive(samplers, elapsed, frames - 1, |samplers|);
      var n := 3 * |samplers|;
      assert n * frames == n * (frames - 1) + n;
    }
  }

  /** No positive reading, no sample: a sampler that never ran reports nothing. */
  lemma {:induction false} RoundSamplesNoneRecorded(samplers: seq<ProfilingSampler>, elapsed: (nat, nat) -> Timing, frames: nat)
    requires forall f, k :: 0 <= f < frames && 0 <= k < |samplers| ==>
      (var t := elapsed(f, k); t.cpu <= 0.0 && t.gpu <= 0.0 && t.inlineCpu <= 0.0)
    ensures RoundSamples(samplers, elapsed, frames) == []
  {
    if frames > 0 {
      RoundSamplesNoneRecorded(samplers, elapsed, frames - 1);
      FrameSamplesNone(samplers, elapsed, frames - 1, |samplers|);
    }
  }

  lemma {:induction false} FrameSamplesNone(samplers: seq<ProfilingSampler>, elapsed: (nat, nat) -> Timing, frame: nat, n: nat)
    requires n <= |samplers|
    requires forall k :: 0 <= k < n ==> (var t := elapsed(frame, k); t.cpu <= 0.0 && t.gpu <= 0.0 && t.inlineCpu <= 0.0)
    ensures FrameSamples(samplers, elapsed, frame, n) == []
  {
    if n > 0 {
      FrameSamplesNone(samplers, elapsed, frame, n - 1);
    }
  }

  /** max(count, 0): how often `for (int i = 0; i < count; i++)` runs. */
  function Iterations(count: int): (r: nat)
  {
    if count > 0 then count else 0
  }

  /** MeasureTime: reports the positive readings of one sampler. */
  method MeasureTime(log: MeasureLog, sampler: ProfilingSampler, groups: map<ProfilingSampler, SamplerGroups>, t: Timing)
    requires sampler in groups
    modifies log
    ensures log.samples == old(log.samples) + TimeSamples(groups[sampler], t)
  {
    if t.cpu > 0.0 {
      log.Custom(Sample(groups[sampler].cpu, t.cpu));
    }
    if t.gpu > 0.0 {
      log.Custom(Sample(groups[sampler].gpu, t.gpu));
    }
    if t.inlineCpu > 0.0 {
      log.Custom(Sample(groups[sampler].inlineCPU, t.inlineCpu));
    }
  }

  /** One measuring frame: every sampler in order. */
  method MeasureFrame(log: MeasureLog, samplers: seq<ProfilingSampler>, groups: map<ProfilingSampler, SamplerGroups>,
                      elapsed: (nat, nat) -> Timing, frame: nat)
    requires forall s :: s in samplers ==> s in groups && groups[s] == GroupsFor(s.name)
    modifies log
    ensures log.samples == old(log.samples) + FrameSamples(samplers, elapsed, frame, |samplers|)
  {
    for k := 0 to |samplers|
      invariant log.samples == old(log.samples) + FrameSamples(samplers, elapsed, frame, k)
    {
      var sampler := samplers[k];
      assert sampler in samplers;
      ghost var before := log.samples;
      MeasureTime(log, sampler, groups, elapsed(frame, k));
      assert log.samples == before + TimeSamples(GroupsFor(sampler.name), elapsed(frame, k));
      FrameSamplesStep(samplers, elapsed, frame, k, old(log.samples), before, log.samples);
    }
  }

  /** The measuring rounds: `measureFrameCount` frames, each measuring every
      sampler in order; returns the frames measured. */
  method MeasureRounds(log: MeasureLog, samplers: seq<ProfilingSampler>, groups: map<ProfilingSampler, SamplerGroups>,
                       elapsed: (nat, nat) -> Timing, measureFrameCount: int) returns (frames: nat)
    requires forall s :: s in samplers ==> s in groups && groups[s] == GroupsFor(s.name)
    modifies log
    ensures frames == Iterations(measureFrameCount)
    ensures log.samples == old(log.samples) + RoundSamples(samplers, elapsed, frames)
  {
    frames := 0;
    var i := 0;
    while i < measureFrameCount
      invariant 0 <= i == frames <= Iterations(measureFrameCount)
      invariant log.samples == old(log.samples) + RoundSamples(samplers, elapsed, i)
    {
      ghost var before := log.samples;
      MeasureFrame(log, samplers, groups, elapsed, i);
      RoundSamplesStep(samplers, elapsed, i, old(log.samples), before, log.samples);
      frames := frames + 1;
      i := i + 1;
    }
  }

  /** Sets every sampler's `enableRecording`. */
  method SetRecording(samplers: seq<ProfilingSampler>, on: bool)
    modifies set s | s in samplers
    ensures forall s :: s in samplers ==> s.enableRecording == on
  {
    for k := 0 to |samplers|
      invariant forall j :: 0 <= j < k ==> samplers[j].enableRecording == on
    {
      samplers[k].enableRecording := on;
    }
  }

  /** MeasureProfilingSamplers: enables every sampler's recorder, creates its
      sample groups, waits `warmupFramesCount` frames, measures every sampler
      in each of `measureFrameCount` frames and disables the recorders. It
      returns the frames it waited and the sample groups it created. */
  method MeasureProfilingSamplers(log: MeasureLog, samplers: seq<ProfilingSampler>, elapsed: (nat, nat) -> Timing,
                                  warmupFramesCount: int, measureFrameCount: int)
    returns (frames: nat, groups: map<ProfilingSampler, SamplerGroups>)
    modifies log, set s | s in samplers
    ensures forall s :: s in samplers ==> !s.enableRecording
    ensures groups.Keys == set s | s in samplers
    ensures forall s :: s in groups ==> groups[s] == GroupsFor(s.name)
    ensures frames == Iterations(warmupFramesCount) + Iterations(measureFrameCount)
    ensures log.samples == old(log.samples) + RoundSamples(samplers, elapsed, Iterations(measureFrameCount))
  {
    SetRecording(samplers, true);
    groups := map[];
    for k := 0 to |samplers|
      invariant groups.Keys == set j | 0 <= j < k :: samplers[j]
      invariant forall s :: s in groups ==> groups[s] == GroupsFor(s.name)
    {
      groups := groups[samplers[k] := GroupsFor(samplers[k].name)];
    }
    assert forall s :: s in samplers ==> s in groups;
    frames := 0;
    var i := 0;
    while i < warmupFramesCount
      invariant 0 <= i == frames <= Iterations(warmupFramesCount)
    {
      frames := frames + 1;
      i := i + 1;
    }
    var measured := MeasureRounds(log, samplers, groups, elapsed, measureFrameCount);
    frames := frames + measured;
    SetRecording(samplers, false);
  }

  // --------------------------------------------------------------- memory report

  /** GetMemoryObjectTypes: the asset types memory is reported for. */
  function MemoryObjectTypes(): (r: seq<string>)
    ensures |r| == 10
    ensures forall i, j :: 0 <= i < j < |r| ==> r[i] != r[j]
    ensures "RenderTexture" in r && "Material" in r && "Mesh" in r && "ComputeShader" in r
  {
    ["RenderTexture", "Texture2D", "Texture2DArray", "Texture3D", "CubemapArray",
     "Cubemap", "Material", "Mesh", "Shader", "ComputeShader"]
  }

  /** A loaded object of the measured type: its name (None for null), the
      name of its runtime type and its runtime memory size in bytes. */
  datatype FoundObject = FoundObject(name: Option<string>, typeName: string, size: int)

  /** The scene settings the report reads. */
  datatype SceneSettings = SceneSettings(minObjectSize: int, cameraWidth: int, cameraHeight: int)

  /** One kept (name, size) result. */
  datatype Entry = Entry(name: string, size: int)

  /** An object's reported name: its own, or its type's when it has none. */
  function DisplayName(o: FoundObject): (r: string)
    ensures o.name.Some? && o.name.value != "" ==> r == o.name.value
    ensures o.name.None? || o.name.value == "" ==> r == o.typeName
    ensures o.typeName != "" ==> r != ""
  {
    if o.name.None? || o.name.value == "" then o.typeName else o.name.value
  }

  /** Whether the report keeps an object. */
  predicate Heavy(o: FoundObject, minObjectSize: int) {
    o.size > minObjectSize
  }

  /** The results list before sorting: the heavy objects in the order found. */
  function Kept(data: seq<FoundObject>, minObjectSize: int): (r: seq<Entry>)
    ensures |r| <= |data|
    ensures forall e :: e in r ==> e.size > minObjectSize
  {
    if data == [] then []
    else
      var o := data[|data| - 1];
      Kept(data[..|data| - 1], minObjectSize) +
        (if Heavy(o, minObjectSize) then [Entry(DisplayName(o), o.size)] else [])
  }

  /** The sum of the sizes of all objects found. */
  function Total(data: seq<FoundObject>): (r: int)
  {
    if data == [] then 0 else Total(data[..|data| - 1]) + data[|data| - 1].size
  }

  /** The sum of the sizes of some entries. */
  function EntryTotal(es: seq<Entry>): (r: int)
  {
    if es == [] then 0 else EntryTotal(es[..|es| - 1]) + es[|es| - 1].size
  }

  /** The objects the report leaves out: at most `minObjectSize` bytes each. */
  function Light(data: seq<FoundObject>, minObjectSize: int): (r: seq<FoundObject>)
    ensures forall o :: o in r ==> o in data && !Heavy(o, minObjectSize)
  {
    if data == [] then []
    else
      var o := data[|data| - 1];
      Light(data[..|data| - 1], minObjectSize) + (if Heavy(o, minObjectSize) then [] else [o])
  }

  /** An entry is kept exactly when it is the (name, size) of a heavy object. */
  lemma {:induction false} KeptExactly(data: seq<FoundObject>, minObjectSize: int, e: Entry)
    ensures e in Kept(data, minObjectSize) <==>
      exists i :: 0 <= i < |data| && Heavy(data[i], minObjectSize) && e == Entry(DisplayName(data[i]), data[i].size)
  {
    if data != [] {
      var init := data[..|data| - 1];
      KeptExactly(init, minObjectSize, e);
      assert forall i :: 0 <= i < |init| ==> init[i] == data[i];
      if e in Kept(init, minObjectSize) {
        var i :| 0 <= i < |init| && Heavy(init[i], minObjectSize) && e == Entry(DisplayName(init[i]), init[i].size);
        assert data[i] == init[i];
      }
    }
  }

  /** Found objects are kept in discovery order: keeping distributes over concatenation. */
  lemma {:induction false} KeptAppend(a: seq<FoundObject>, b: seq<FoundObject>, minObjectSize: int)
    ensures Kept(a + b, minObjectSize) == Kept(a, minObjectSize) + Kept(b, minObjectSize)
  {
    if b != [] {
      var o := b[|b| - 1];
      assert (a + b)[..|a + b| - 1] == a + b[..|b| - 1];
      KeptAppend(a, b[..|b| - 1], minObjectSize);
    } else {
      assert a + b == a;
    }
  }

  /** The total counts every object, including those too light to be kept. */
  lemma {:induction false} TotalCountsLight(data: seq<FoundObject>, minObjectSize: int)
    ensures Total(data) == EntryTotal(Kept(data, minObjectSize)) + Total(Light(data, minObjectSize))
  {
    if data != [] {
      var init := data[..|data| - 1];
      var o := data[|data| - 1];
      TotalCountsLight(init, minObjectSize);
      assert Total(data) == Total(init) + o.size;
      if Heavy(o, minObjectSize) {
        var k := Kept(init, minObjectSize) + [Entry(DisplayName(o), o.size)];
        assert Kept(data, minObjectSize) == k;
        assert k[..|k| - 1] == Kept(init, minObjectSize);
        assert EntryTotal(k) == EntryTotal(Kept(init, minObjectSize)) + o.size;
        assert Light(data, minObjectSize) == Light(init, minObjectSize);
      } else {
        var l := Light(init, minObjectSize) + [o];
        assert Light(data, minObjectSize) == l;
        assert l[..|l| - 1] == Light(init, minObjectSize);
        assert Total(l) == Total(Light(init, minObjectSize)) + o.size;
        assert Kept(data, minObjectSize) == Kept(init, minObjectSize);
      }
    }
  }

  // --------------------------------------------------------------- sort by size

  /** Sizes never increase along the sequence. */
  predicate NonIncreasing(es: seq<Entry>) {
    forall i, j :: 0 <= i < j < |es| ==> es[i].size >= es[j].size
  }

  /** Places `e` before the first entry not larger than it. */
  function Insert(e: Entry, es: seq<Entry>): (r: seq<Entry>)
    requires NonIncreasing(es)
    ensures NonIncreasing(r)
    ensures multiset(r) == multiset(es) + multiset{e}
  {
    if es == [] then [e]
    else if e.size >= es[0].size then [e] + es
    else
      var rest := Insert(e, es[1..]);
      assert es == [es[0]] + es[1..];
      HeadBound(es[0], rest, es[1..], e);
      [es[0]] + rest
  }

  /** An entry at least as large as every entry of `es` and than `e` is at
      least as large as every entry of a permutation of es + [e]. */
  lemma HeadBound(h: Entry, r: seq<Entry>, es: seq<Entry>, e: Entry)
    requires multiset(r) == multiset(es) + multiset{e}
    requires forall x :: x in es ==> h.size >= x.size
    requires h.size >= e.size
    requires NonIncreasing(r)
    ensures NonIncreasing([h] + r)
  {
    forall j | 0 <= j < |r|
      ensures h.size >= r[j].size
    {
      assert r[j] in multiset(r);
    }
    var hr := [h] + r;
    forall i, j | 0 <= i < j < |hr|
      ensures hr[i].size >= hr[j].size
    {
      if i > 0 {
        assert hr[i] == r[i - 1] && hr[j] == r[j - 1];
      } else {
        assert hr[j] == r[j - 1];
      }
    }
  }

  /** The results list after `Sort((a, b) => b.size.CompareTo(a.size))`: the
      same entries, largest first. The sort is not stable, so the order of
      entries of equal size is one of several the engine may produce. */
  function SortBySize(es: seq<Entry>): (r: seq<Entry>)
    ensures NonIncreasing(r)
    ensures multiset(r) == multiset(es)
  {
    if es == [] then []
    else
      assert es == es[..|es| - 1] + [es[|es| - 1]];
      Insert(es[|es| - 1], SortBySize(es[..|es| - 1]))
  }

  /** Two entry sequences that are permutations of each other have the same total. */
  lemma {:induction false} EntryTotalPermutation(a: seq<Entry>, b: seq<Entry>)
    requires multiset(a) == multiset(b)
    ensures EntryTotal(a) == EntryTotal(b)
    decreases |a|
  {
    if a != [] {
      var x := a[|a| - 1];
      assert x in multiset(b);
      var k :| 0 <= k < |b| && b[k] == x;
      var a' := a[..|a| - 1];
      assert a == a' + [x];
      assert multiset(a') == multiset(a) - multiset{x};
      EntryTotalRemove(b, k);
      EntryTotalPermutation(a', b[..k] + b[k + 1..]);
    } else {
      assert |b| == |multiset(b)| == 0;
    }
  }

  /** Taking entry `k` out of a sequence takes its size out of the total and
      one copy of it out of the multiset. */
  lemma {:induction false} EntryTotalRemove(b: seq<Entry>, k: nat)
    requires k < |b|
    ensures multiset(b[..k] + b[k + 1..]) == multiset(b) - multiset{b[k]}
    ensures EntryTotal(b) == EntryTotal(b[..k] + b[k + 1..]) + b[k].size
  {
    var head, tail := b[..k], b[k + 1..];
    assert b == head + [b[k]] + tail by {
      assert b == b[..k] + b[k..];
      assert b[k..] == [b[k]] + tail;
    }
    assert multiset(b) == multiset(head) + multiset{b[k]} + multiset(tail);
    EntryTotalSplit(head + [b[k]], tail);
    EntryTotalSplit(head, tail);
    assert (head + [b[k]])[..|head|] == head;
  }

  lemma {:induction false} EntryTotalSplit(a: seq<Entry>, b: seq<Entry>)
    ensures EntryTotal(a + b) == EntryTotal(a) + EntryTotal(b)
    decreases |b|
  {
    if b != [] {
      assert (a + b)[..|a + b| - 1] == a + b[..|b| - 1];
      EntryTotalSplit(a, b[..|b| - 1]);
    } else {
      assert a + b == a;
    }
  }

  // ------------------------------------------------------------------ reporting

  function ResolutionOf(settings: SceneSettings): (r: Resolution)
  {
    Resolution(settings.cameraWidth, settings.cameraHeight)
  }

  /** The byte sample reported for one kept entry. */
  function MemorySample(e: Entry, res: Resolution): (s: Sample)
  {
    Sample(SampleGroup(MemoryName(e.name, res), Byte, false), e.size as real)
  }

  /** The samples reported for some entries, in their order. */
  function MemorySamples(es: seq<Entry>, res: Resolution): (r: seq<Sample>)
  {
    seq(|es|, (i: int) requires 0 <= i < |es| => MemorySample(es[i], res))
  }

  /** The byte sample reported for the total of an asset type. */
  function TotalSample(assetType: string, res: Resolution, total: int): (s: Sample)
  {
    Sample(SampleGroup(TotalMemoryName(assetType, res), Byte, false), total as real)
  }

  /** Everything ReportMemoryUsage reports: one sample per kept entry, largest
      first, then the total. */
  function MemoryReport(settings: SceneSettings, assetType: string, data: seq<FoundObject>): (r: seq<Sample>)
  {
    var res := ResolutionOf(settings);
    MemorySamples(SortBySize(Kept(data, settings.minObjectSize)), res) + [TotalSample(assetType, res, Total(data))]
  }

  /** Samples of entries sorted by size carry non-increasing values. */
  lemma MemorySamplesOrdered(es: seq<Entry>, res: Resolution)
    requires NonIncreasing(es)
    ensures forall i, j :: 0 <= i < j < |es| ==> MemorySamples(es, res)[i].value >= MemorySamples(es, res)[j].value
  {
    var ms := MemorySamples(es, res);
    forall i, j | 0 <= i < j < |es|
      ensures ms[i].value >= ms[j].value
    {
      assert ms[i].value == es[i].size as real && ms[j].value == es[j].size as real;
    }
  }

  /** The report's shape: one byte sample per heavy object, largest first,
      then, last and only once, the total over all objects. */
  lemma MemoryReportShape(settings: SceneSettings, assetType: string, data: seq<FoundObject>)
    ensures var r := MemoryReport(settings, assetType, data);
      var res := ResolutionOf(settings);
      var sorted := SortBySize(Kept(data, settings.minObjectSize));
      |r| == |Kept(data, settings.minObjectSize)| + 1 &&
      r[|r| - 1] == TotalSample(assetType, res, Total(data)) &&
      (forall i :: 0 <= i < |r| - 1 ==> r[i] == MemorySample(sorted[i], res) && r[i].group.name.MemoryName?) &&
      (forall i, j :: 0 <= i < j < |r| - 1 ==> r[i].value >= r[j].value)
  {
    var res := ResolutionOf(settings);
    var kept := Kept(data, settings.minObjectSize);
    var sorted := SortBySize(kept);
    var ms := MemorySamples(sorted, res);
    var r := MemoryReport(settings, assetType, data);
    assert r == ms + [TotalSample(assetType, res, Total(data))];
    assert |sorted| == |kept| by {
      assert |multiset(sorted)| == |multiset(kept)|;
    }
    MemorySamplesOrdered(sorted, res);
    assert forall i :: 0 <= i < |ms| ==> r[i] == ms[i];
  }

  /** The kept entries account for the total less the light objects, whatever
      order the sort leaves them in. */
  lemma ReportedBytes(settings: SceneSettings, data: seq<FoundObject>)
    ensures var min := settings.minObjectSize;
      EntryTotal(SortBySize(Kept(data, min))) + Total(Light(data, min)) == Total(data)
  {
    var min := settings.minObjectSize;
    EntryTotalPermutation(SortBySize(Kept(data, min)), Kept(data, min));
    TotalCountsLight(data, min);
  }

  /** The measuring loop: the total of all objects and the heavy ones in order. */
  method MeasureMemory(data: seq<FoundObject>, minObjectSize: int) returns (totalMemory: int, results: seq<Entry>)
    ensures totalMemory == Total(data)
    ensures results == Kept(data, minObjectSize)
  {
    totalMemory := 0;
    results := [];
    for i := 0 to |data|
      invariant totalMemory == Total(data[..i])
      invariant results == Kept(data[..i], minObjectSize)
    {
      assert data[..i + 1][..i] == data[..i];
      var item := data[i];
      var name := DisplayName(item);
      var currSize := item.size;
      if currSize > minObjectSize {
        results := results + [Entry(name, currSize)];
      }
      totalMemory := totalMemory + currSize;
    }
    assert data[..|data|] == data;
  }

  /** ReportMemoryUsage: measures the objects found of `assetType`, then
      reports the heavy ones largest first and the total. `List.Sort` is not
      stable, so among entries of equal size `MemoryReport` fixes one of the
      orders the source may report, the one the insertion sort produces. */
  method ReportMemoryUsage(log: MeasureLog, settings: SceneSettings, assetType: string, data: seq<FoundObject>)
    modifies log
    ensures log.samples == old(log.samples) + MemoryReport(settings, assetType, data)
  {
    var totalMemory, results := MeasureMemory(data, settings.minObjectSize);
    results := SortBySize(results);
    var resolution := ResolutionOf(settings);
    for i := 0 to |results|
      invariant log.samples == old(log.samples) + MemorySamples(results[..i], resolution)
    {
      log.Custom(MemorySample(results[i], resolution));
    }
    assert results[..|results|] == results;
    log.Custom(TotalSample(assetType, resolution, totalMemory));
  }
}
