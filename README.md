# Universal Render Pipeline post-processing pass, and the graphics performance-test helpers

This project models two parts of Unity's Scriptable Render Pipeline repository.

**`PostProcessPass`** is the Universal Render Pipeline's post-processing render pass.
- **Construction.** The constructor picks the pass's texture formats from what the device supports. It loads the nine post-processing materials and allocates two temporary targets and a 16-level bloom pyramid.
- **Each frame.** `Setup` or `SetupFinalPass` configures the pass, and `Execute` runs it:
  - As a final pass it renders one blit with FXAA, grain, dithering and the sRGB conversion.
  - Otherwise `Render` runs the optional stages in a fixed order: NaN killer, SMAA, depth of field (Gaussian or bokeh), motion blur and Panini projection. Each stage reads the current source, writes the destination, and is followed by a swap of the renderer's two colour buffers. The uber pass closes the frame. Its keyword set is rebuilt every frame, it runs the bloom pyramid when bloom is active, and it swaps once more unless it resolves to screen.
- **Pass state.** The depth-of-field scratch textures are allocated on first use and kept. The bokeh kernel is rebuilt only when its inputs change. Motion blur remembers the previous view-projection matrix unless the history is reset.
- **Teardown.** `Cleanup` destroys the materials and releases every handle the pass holds.

**`PerformanceTests`** holds the helpers of the graphics performance tests.
- `MeasureProfilingSamplers` records the CPU, GPU and inline CPU times of profiling samplers over a number of frames.
- `ReportMemoryUsage` reports the runtime memory of the loaded objects of one asset type above a minimum size, largest first, followed by the total over all objects.

How the project is organised:
- Engine calls become values. Every blit, draw, global texture binding and colour-buffer swap the pass issues is appended, in order, to a `CommandLog`.
- Every `RTHandles.Alloc` and `Release` is appended to the event list of an `RTHandleSystem`. The allocator gives each handle its name and a fresh serial, so lazy allocation and reuse can be observed.
- Every `Measure.Custom` call is appended to a `MeasureLog`.
- The classes of the source whose fields change are Dafny classes: `PostProcessPass`, its `MaterialLibrary`, the bokeh kernel cache, the renderer's colour-buffer pair and the profiling samplers. Their methods are proved against specification functions of the inputs and the old state.
- The decisions, keyword rules, bloom schedule, bokeh kernel layout and stage ping-pong are functions with lemmas about them.

Files:
- `engine.dfy`: handles, commands and the log, the allocator, the renderer.
- `settings.dfy`: the frame's camera and volume data.
- `formats.dfy`: format fallbacks, descriptors, the SMAA stencil, sRGB, shader loading.
- `keywords.dfy`: the keyword rules.
- `bloom.dfy`: the mip count and the bloom schedule.
- `bokeh.dfy`: the kernel table and its cache key.
- `pipeline.dfy`: the stage order, the guards, the commands of each stage and the buffer ping-pong.
- `postprocess_pass.dfy`: the two classes of the pass.
- `performance_tests.dfy`: the performance-test helpers.

A 1920 x 1080 target is halved to 960 x 540 and gets floor(log2(960)) - 1 = 8 bloom levels (`Bloom.FullHdMipCount`).

## Model

| member | source | states |
|---|---|---|
| Engine.CommandLog.Add | com.unity.render-pipelines.universal/Runtime/Passes/PostProcessPass.cs:365-398 | Every blit, draw, binding or swap the pass issues is appended to the log, after all earlier calls and in issue order. |
| Engine.CommandLog.AddAll | com.unity.render-pipelines.universal/Runtime/Passes/PostProcessPass.cs:365-398 | Issuing a run of calls appends exactly that run, in order. |
| Engine.RTHandleSystem.Alloc | com.unity.render-pipelines.universal/Runtime/Passes/PostProcessPass.cs:152-179 | `RTHandles.Alloc` yields a handle under the requested name with a serial never used before, and logs exactly one allocation of it. |
| Engine.RTHandleSystem.Release | com.unity.render-pipelines.universal/Runtime/Passes/PostProcessPass.cs:219-240 | `Release` logs a release of exactly that handle and allocates nothing. |
| Engine.Renderer.SwapColorBuffer | com.unity.render-pipelines.universal/Runtime/Passes/PostProcessPass.cs:432-437 | The renderer's colour target and front buffer exchange places. |
| Formats.ToLower | com.unity.render-pipelines.universal/Runtime/Passes/PostProcessPass.cs:125 | `ToLowerInvariant` keeps the length and lowers each ASCII capital, position by position. |
| Formats.Contains | com.unity.render-pipelines.universal/Runtime/Passes/PostProcessPass.cs:125 | `Contains` holds exactly when the substring occurs at some position. |
| Formats.DefaultHdrFormat | com.unity.render-pipelines.universal/Runtime/Passes/PostProcessPass.cs:111-122 | B10G11R11 without RGBM exactly when the device supports it for linear filtering and rendering. Otherwise RGBM is used, with R8G8B8A8 sRGB in linear colour space and UNorm in gamma space. |
| Formats.SmaaEdgeFormat | com.unity.render-pipelines.universal/Runtime/Passes/PostProcessPass.cs:125-128 | The edge texture is R8G8 exactly when the device renders R8G8 and its vendor name contains "arm" in any case. Otherwise it is R8G8B8A8. |
| Formats.FirstSupported | com.unity.render-pipelines.universal/Runtime/Passes/PostProcessPass.cs:130-135 | The fallback chain gives the first supported format of the chain, or the fallback when none is supported. |
| Formats.GaussianCoCFormat | com.unity.render-pipelines.universal/Runtime/Passes/PostProcessPass.cs:130-135 | R16 UNorm when supported, else R16 float when supported, else R8 UNorm. |
| Formats.CompatibleDescriptor | com.unity.render-pipelines.universal/Runtime/Passes/PostProcessPass.cs:349-358 | A copy of the pass descriptor with the given size, format and depth bits and one MSAA sample; every other field is kept. |
| Formats.DefaultCompatibleDescriptor | com.unity.render-pipelines.universal/Runtime/Passes/PostProcessPass.cs:346-347 | The overload without arguments keeps size and format and clears depth and MSAA. On a descriptor that already has neither, it is the identity. |
| Formats.PassDescriptor | com.unity.render-pipelines.universal/Runtime/Passes/PostProcessPass.cs:244-246 | Setup's descriptor is the camera's with mip maps and automatic mip generation off; every other field is kept. |
| Formats.SmaaStencil | com.unity.render-pipelines.universal/Runtime/Passes/PostProcessPass.cs:648-660 | The edge texture gets its own 24-bit depth exactly when the depth handle is the camera target or the target is multisampled; otherwise the depth handle is the stencil with 0 depth bits. The camera target is never the stencil. |
| Formats.RequireSrgbConversion | com.unity.render-pipelines.universal/Runtime/Passes/PostProcessPass.cs:360-363 | Defines the manual sRGB condition: the camera requires it and the pass enables it. `PostProcess.PostProcessPass.Render` and `RenderFinalPass` state their keywords with it as the sRGB guard. |
| Formats.LoadDecision | com.unity.render-pipelines.universal/Runtime/Passes/PostProcessPass.cs:1420-1433 | A missing shader gives no material (and the error), an unsupported one no material, a supported one a material; the three cases do not overlap. |
| Formats.LogsError | com.unity.render-pipelines.universal/Runtime/Passes/PostProcessPass.cs:1420-1426 | An error is logged exactly for a missing shader; an unsupported shader yields no material and no error. |
| Keywords.BloomKeyword | com.unity.render-pipelines.universal/Runtime/Passes/PostProcessPass.cs:1183-1186 | One of the four uber bloom variants: HQ exactly when high-quality filtering is on, Dirt exactly when the dirt intensity is positive. |
| Keywords.GradingKeywords | com.unity.render-pipelines.universal/Runtime/Passes/PostProcessPass.cs:1279-1291 | HDR grading alone in HDR mode. Otherwise only the keyword of the Neutral or ACES tonemapper, or nothing. |
| Keywords.UberRule | com.unity.render-pipelines.universal/Runtime/Passes/PostProcessPass.cs:514-540 | Defines, for each keyword, the condition under which Render leaves it on the uber material: the frame's bloom variant, distortion outside the scene view, chromatic aberration, HDR grading or the tonemapper, grain and dithering without a final pass, and the two sRGB keywords; every other keyword is off. |
| Keywords.UberKeywords | com.unity.render-pipelines.universal/Runtime/Passes/PostProcessPass.cs:511-540 | The rebuilt uber set uses only uber keywords and holds a bloom variant exactly when bloom is active and it is that frame's variant. |
| Keywords.UberEffectKeywords | com.unity.render-pipelines.universal/Runtime/Passes/PostProcessPass.cs:525-532 | Distortion, chromatic aberration, grain and dithering are in the uber set exactly under their guards. Distortion is never used for the scene view. Grain and dithering are used only without a final pass. |
| Keywords.UberOutputKeywords | com.unity.render-pipelines.universal/Runtime/Passes/PostProcessPass.cs:528-540 | HDR grading, each tonemapper, the sRGB conversion and the fast sRGB approximation are in the uber set exactly under their guards. |
| Keywords.UberSteps | com.unity.render-pipelines.universal/Runtime/Passes/PostProcessPass.cs:514-540 | Defines the uber keyword set as Render builds it: cleared, the bloom variant when bloom is active, then the effect and output steps in source order. |
| Keywords.UberTail | com.unity.render-pipelines.universal/Runtime/Passes/PostProcessPass.cs:519-540 | Defines the steps after bloom: the effect steps, then the output steps. |
| Keywords.UberEffects | com.unity.render-pipelines.universal/Runtime/Passes/PostProcessPass.cs:519-529 | Defines the effect steps in order: lens distortion, chromatic aberration, colour grading. |
| Keywords.UberOutputs | com.unity.render-pipelines.universal/Runtime/Passes/PostProcessPass.cs:530-540 | Defines the output steps in order: film grain, dithering, linear-to-sRGB conversion, fast sRGB conversion. |
| Keywords.UberRulesInOrder | com.unity.render-pipelines.universal/Runtime/Passes/PostProcessPass.cs:514-540 | Clearing the uber set and applying the EnableKeyword calls in Render's order yields exactly the set the rules describe. |
| Keywords.UberStepRule | com.unity.render-pipelines.universal/Runtime/Passes/PostProcessPass.cs:514-540 | A keyword is in Render's uber set exactly when it is an uber keyword whose rule holds. |
| Keywords.FinalPassRulesInOrder | com.unity.render-pipelines.universal/Runtime/Passes/PostProcessPass.cs:1338-1350 | Clearing the final-pass set and applying its calls in order yields exactly the final-pass rule set. |
| Keywords.FinalPassSteps | com.unity.render-pipelines.universal/Runtime/Passes/PostProcessPass.cs:1338-1350 | Defines the final pass's keyword set as RenderFinalPass builds it: cleared, then FXAA, grain, dithering and sRGB conversion in source order. |
| Keywords.EnableIf | com.unity.render-pipelines.universal/Runtime/Passes/PostProcessPass.cs:534-540 | Defines a guarded EnableKeyword. `Keywords.UberRulesInOrder` and `Keywords.FinalPassRulesInOrder` prove that a run of guarded steps equals the rule set. |
| Keywords.UberBloomVariantUnique | com.unity.render-pipelines.universal/Runtime/Passes/PostProcessPass.cs:517-522 | With bloom active the uber set holds exactly one bloom variant; without bloom it holds none. |
| Keywords.UberTonemapExclusive | com.unity.render-pipelines.universal/Runtime/Passes/PostProcessPass.cs:1279-1291 | HDR grading excludes both tonemappers, and at most one tonemapper keyword is ever set. |
| Keywords.FinalPassKeywords | com.unity.render-pipelines.universal/Runtime/Passes/PostProcessPass.cs:1338-1350 | The final-pass set has FXAA exactly under FXAA antialiasing, and grain and dithering exactly when there is no final pass and the effect is on. It has the sRGB conversion exactly when required. |
| Keywords.SmaaKeywords | com.unity.render-pipelines.universal/Runtime/Passes/PostProcessPass.cs:635-645 | After the clear the SMAA material holds exactly one quality preset, the one of the camera's quality. |
| Keywords.SetKeyword | com.unity.render-pipelines.universal/Runtime/Passes/PostProcessPass.cs:728 | `CoreUtils.SetKeyword` puts the keyword in or out as asked and leaves every other keyword alone. |
| Keywords.PaniniKeyword | com.unity.render-pipelines.universal/Runtime/Passes/PostProcessPass.cs:1034-1037 | The generic variant exactly when the distance test selects it, otherwise the unit-distance variant. |
| Bloom.FloorLog2 | com.unity.render-pipelines.universal/Runtime/Passes/PostProcessPass.cs:1101 | The integer part of log2: 2^r <= x < 2^(r+1). |
| Bloom.FloorLog2Monotone | com.unity.render-pipelines.universal/Runtime/Passes/PostProcessPass.cs:1101 | The integer logarithm never decreases as its argument grows. |
| Bloom.Clamp | com.unity.render-pipelines.universal/Runtime/Passes/PostProcessPass.cs:1103 | `Mathf.Clamp` keeps a value inside the bounds and otherwise yields the nearer bound. |
| Bloom.MipCount | com.unity.render-pipelines.universal/Runtime/Passes/PostProcessPass.cs:1096-1103 | The pyramid has between 1 and 16 levels. For a nonzero half size it is floor(log2(max half side)) - 1 - skip iterations, clamped. |
| Bloom.MipCountMonotoneInSize | com.unity.render-pipelines.universal/Runtime/Passes/PostProcessPass.cs:1096-1103 | A larger target never gets fewer pyramid levels. |
| Bloom.MipCountAntitoneInSkip | com.unity.render-pipelines.universal/Runtime/Passes/PostProcessPass.cs:1102 | Skipping more iterations never gives more pyramid levels. |
| Bloom.FullHdMipCount | com.unity.render-pipelines.universal/Runtime/Passes/PostProcessPass.cs:1096-1103 | 1920 x 1080 without skipped iterations gives 8 levels. |
| Bloom.ScheduleLength | com.unity.render-pipelines.universal/Runtime/Passes/PostProcessPass.cs:1118-1156 | An n-level pyramid issues 3n - 1 commands: 1 prefilter, 2(n-1) blurs, n-1 upsamples, 1 binding. |
| Bloom.Schedule | com.unity.render-pipelines.universal/Runtime/Passes/PostProcessPass.cs:1118-1156 | The schedule has that length, and its command p is the p-th step of SetupBloom. |
| Bloom.BloomStep | com.unity.render-pipelines.universal/Runtime/Passes/PostProcessPass.cs:1118-1156 | Defines command p of SetupBloom: the prefilter, then per lower level a horizontal and a vertical blur, then the upsamples from the bottom level back to level 0, then the binding of up 0. |
| Bloom.SchedulePrefix | com.unity.render-pipelines.universal/Runtime/Passes/PostProcessPass.cs:1118-1156 | Issuing the first p steps yields p commands. |
| Bloom.SchedulePrefixIsSchedule | com.unity.render-pipelines.universal/Runtime/Passes/PostProcessPass.cs:1118-1156 | Issuing the steps one at a time yields exactly the first p commands of the schedule. |
| Bloom.Reads | com.unity.render-pipelines.universal/Runtime/Passes/PostProcessPass.cs:1118-1156 | Defines the textures a command samples: a draw's inputs, a binding's texture. `Bloom.ScheduleReadsAfterWrites` is stated over it. |
| Bloom.Writes | com.unity.render-pipelines.universal/Runtime/Passes/PostProcessPass.cs:1118-1156 | Defines the surfaces a command renders into: a draw's targets. `Bloom.ScheduleReadsAfterWrites` is stated over it. |
| Bloom.ScheduleReadsAfterWrites | com.unity.render-pipelines.universal/Runtime/Passes/PostProcessPass.cs:1118-1156 | With two or more levels, every texture a bloom command samples, other than the source, was rendered earlier in the same schedule. |
| Bloom.StepBlurDown | com.unity.render-pipelines.universal/Runtime/Passes/PostProcessPass.cs:1130 | Command 2i - 1 blurs down[i-1] into up[i]. |
| Bloom.StepBlurAcross | com.unity.render-pipelines.universal/Runtime/Passes/PostProcessPass.cs:1131 | Command 2i blurs up[i] into down[i]. |
| Bloom.StepUpsample | com.unity.render-pipelines.universal/Runtime/Passes/PostProcessPass.cs:1137-1145 | Command 3n-3-i upsamples down[i] with the lower level (down[i+1] for the first, up[i+1] after) into up[i]. |
| Bloom.SchedulePrefixComplete | com.unity.render-pipelines.universal/Runtime/Passes/PostProcessPass.cs:1118-1156 | Issuing all 3n - 1 steps yields the whole schedule. |
| Bloom.PrefixBlurLevel | com.unity.render-pipelines.universal/Runtime/Passes/PostProcessPass.cs:1122-1134 | One iteration of the downsample loop appends exactly its two blur passes. |
| Bloom.PrefixUpsampleLevel | com.unity.render-pipelines.universal/Runtime/Passes/PostProcessPass.cs:1137-1145 | One iteration of the upsample loop appends exactly its upsample. |
| Bloom.PrefixBind | com.unity.render-pipelines.universal/Runtime/Passes/PostProcessPass.cs:1156 | Binding up[0] as the bloom texture completes the schedule. |
| Bloom.StepWritesDown | com.unity.render-pipelines.universal/Runtime/Passes/PostProcessPass.cs:1118-1134 | Command 2i renders down[i] and only it. |
| Bloom.Writer | com.unity.render-pipelines.universal/Runtime/Passes/PostProcessPass.cs:1118-1156 | For every non-source texture a command reads, an earlier command of the schedule renders it. |
| Bloom.ScheduleEndsInUp0 | com.unity.render-pipelines.universal/Runtime/Passes/PostProcessPass.cs:1137-1156 | With two or more levels the last blit renders up[0], and up[0] is then bound as the bloom texture. |
| Bloom.SingleLevelBindsUnwrittenUp0 | com.unity.render-pipelines.universal/Runtime/Passes/PostProcessPass.cs:1093-1156 | With one level the schedule is the prefilter and the binding of up[0], which this frame never rendered. |
| Bloom.ScheduleStaysInUsedLevels | com.unity.render-pipelines.universal/Runtime/Passes/PostProcessPass.cs:1118-1156 | The schedule touches only the source and the first n levels of each array. |
| Bloom.ScheduleWritesEveryDownLevel | com.unity.render-pipelines.universal/Runtime/Passes/PostProcessPass.cs:1118-1134 | Every level below n has its down texture rendered by command 2i. |
| Bokeh.RingPoints | com.unity.render-pipelines.universal/Runtime/Passes/PostProcessPass.cs:828 | Defines the number of points on a ring, 7 per ring index. `Bokeh.KernelTableLayout` proves the kernel lays the rings out by it. |
| Bokeh.RingStart | com.unity.render-pipelines.universal/Runtime/Passes/PostProcessPass.cs:817-853 | Defines the first index of a ring as the points of the rings inside it. `Bokeh.RingStartClosedForm` proves the closed form 7(r-1)r/2. |
| Bokeh.RingStartClosedForm | com.unity.render-pipelines.universal/Runtime/Passes/PostProcessPass.cs:817-853 | Ring r starts after the 7 + 14 + ... points of the rings inside it: 2 RingStart(r) = 7(r-1)r, by induction. |
| Bokeh.RingRadius | com.unity.render-pipelines.universal/Runtime/Passes/PostProcessPass.cs:827 | Defines a ring's radius: (ring + 1/7) / (3 + 1/7), so the outer ring lies at 1. |
| Bokeh.Sample | com.unity.render-pipelines.universal/Runtime/Passes/PostProcessPass.cs:830-850 | Defines the sample written for a point of a ring: its ring, point, the ring's radius, the point's angle as a fraction of a turn, and the aperture shape, maximum radius and reciprocal aspect it is computed from. |
| Bokeh.RingSamples | com.unity.render-pipelines.universal/Runtime/Passes/PostProcessPass.cs:830-852 | A ring's samples are its points in order, point p at position p. |
| Bokeh.KernelTable | com.unity.render-pipelines.universal/Runtime/Passes/PostProcessPass.cs:817-853 | Defines the whole kernel: the samples of rings 1, 2 and 3, in ring order and point order within a ring. |
| Bokeh.RingStarts | com.unity.render-pipelines.universal/Runtime/Passes/PostProcessPass.cs:809-853 | The rings start at indices 0, 7 and 21, and the kernel ends at 42. |
| Bokeh.KernelTableLayout | com.unity.render-pipelines.universal/Runtime/Passes/PostProcessPass.cs:807-854 | The kernel has 42 entries, and index RingStart(r) + p holds point p of ring r. |
| Bokeh.IndexRing | com.unity.render-pipelines.universal/Runtime/Passes/PostProcessPass.cs:817-853 | Every kernel index below 42 is written by exactly one (ring, point) of the loops. |
| Bokeh.RingPointUnique | com.unity.render-pipelines.universal/Runtime/Passes/PostProcessPass.cs:817-853 | Two (ring, point) pairs never write the same index. |
| Bokeh.KernelTableAt | com.unity.render-pipelines.universal/Runtime/Passes/PostProcessPass.cs:824-853 | Entry idx of the table is the sample the loops write at idx. |
| Bokeh.RingRadiiIncrease | com.unity.render-pipelines.universal/Runtime/Passes/PostProcessPass.cs:826-827 | Ring radii increase outwards, are positive, and the outer ring sits at 1. |
| Bokeh.RingAnglesDistinct | com.unity.render-pipelines.universal/Runtime/Passes/PostProcessPass.cs:833 | Within a ring the points sit at distinct fractions of a turn, in [0, 1). |
| Bokeh.MaxBokehRadius | com.unity.render-pipelines.universal/Runtime/Passes/PostProcessPass.cs:857-862 | The maximum radius is min(0.05, 14 / height): at most each bound and equal to one of them, and 0.05 for a zero height. It always lies in (0, 0.05]. |
| Bokeh.RcpAspect | com.unity.render-pipelines.universal/Runtime/Passes/PostProcessPass.cs:878 | The reciprocal aspect times the half width is the half height. |
| Bokeh.NeedsRebuild | com.unity.render-pipelines.universal/Runtime/Passes/PostProcessPass.cs:885 | Defines the rebuild test: the depth-of-field hash, the maximum radius or the reciprocal aspect differs from the cached one. |
| Bokeh.CacheUpdate | com.unity.render-pipelines.universal/Runtime/Passes/PostProcessPass.cs:884-891 | The kernel is rebuilt exactly when the hash, the maximum radius or the reciprocal aspect differs from the cache. The key is then the new inputs. |
| Bokeh.SecondIdenticalFrameReuses | com.unity.render-pipelines.universal/Runtime/Passes/PostProcessPass.cs:884-891 | A second frame with the same inputs reuses the kernel and keeps the key. |
| Bokeh.FirstBokehFrameBuilds | com.unity.render-pipelines.universal/Runtime/Passes/PostProcessPass.cs:884-891 | A pass that never built the kernel builds it on its first bokeh frame. |
| Pipeline.Order | com.unity.render-pipelines.universal/Runtime/Passes/PostProcessPass.cs:455-508 | Each optional stage has a position in Render's fixed order, below 5. |
| Pipeline.Guard | com.unity.render-pipelines.universal/Runtime/Passes/PostProcessPass.cs:455-508 | Defines each stage's guard: the NaN killer when enabled and its material loaded, SMAA when chosen and not on OpenGL ES 2, and depth of field, motion blur and Panini when active and not in the scene view. |
| Pipeline.When | com.unity.render-pipelines.universal/Runtime/Passes/PostProcessPass.cs:455-508 | Defines a guarded stage: one run when the guard holds. `Pipeline.EnabledStages` proves a stage is listed iff its guard holds. |
| Pipeline.EnabledStages | com.unity.render-pipelines.universal/Runtime/Passes/PostProcessPass.cs:455-508 | A stage runs this frame exactly when its guard holds: NaN killer (flag and material), SMAA (not OpenGL ES 2), depth of field, motion blur and Panini (active, not scene view). |
| Pipeline.OrderedWhen | com.unity.render-pipelines.universal/Runtime/Passes/PostProcessPass.cs:455-508 | Appending a later guarded stage keeps the order. |
| Pipeline.GuardedStagesOrdered | com.unity.render-pipelines.universal/Runtime/Passes/PostProcessPass.cs:455-508 | Whatever the guards, the stages that run keep the order NaN killer, SMAA, depth of field, motion blur, Panini. |
| Pipeline.EnabledStagesOrdered | com.unity.render-pipelines.universal/Runtime/Passes/PostProcessPass.cs:455-508 | The enabled stages of a frame are in Render's order. |
| Pipeline.SceneViewSkipsCameraEffects | com.unity.render-pipelines.universal/Runtime/Passes/PostProcessPass.cs:476-508 | The scene-view camera gets at most the NaN killer and SMAA. |
| Pipeline.Kind | com.unity.render-pipelines.universal/Runtime/Passes/PostProcessPass.cs:455-508 | Each recorded run belongs to exactly one stage. |
| Pipeline.Kinds | com.unity.render-pipelines.universal/Runtime/Passes/PostProcessPass.cs:455-508 | The stage of each run, position by position. |
| Pipeline.KindsAppend | com.unity.render-pipelines.universal/Runtime/Passes/PostProcessPass.cs:455-508 | The stages of two run lists in sequence are the two stage lists in sequence. |
| Pipeline.Draws | com.unity.render-pipelines.universal/Runtime/Passes/PostProcessPass.cs:365-412 | The draws among some commands are draws and are no more than the commands. |
| Pipeline.DrawsAppend | com.unity.render-pipelines.universal/Runtime/Passes/PostProcessPass.cs:365-412 | The draws of two command lists in sequence are the two draw lists in sequence. |
| Pipeline.DrawsOfDraws | com.unity.render-pipelines.universal/Runtime/Passes/PostProcessPass.cs:365-412 | A list made only of draws is its own draw list. |
| Pipeline.Swaps | com.unity.render-pipelines.universal/Runtime/Passes/PostProcessPass.cs:432-437 | Swaps are counted among the commands. |
| Pipeline.SwapsZero | com.unity.render-pipelines.universal/Runtime/Passes/PostProcessPass.cs:432-437 | A log has no swaps exactly when no colour-buffer swap occurs in it. |
| Pipeline.SwapsAppend | com.unity.render-pipelines.universal/Runtime/Passes/PostProcessPass.cs:432-437 | The swaps of two lists add up. |
| Pipeline.NoSwaps | com.unity.render-pipelines.universal/Runtime/Passes/PostProcessPass.cs:432-437 | A list without a swap counts none. |
| Pipeline.SmaaCommands | com.unity.render-pipelines.universal/Runtime/Passes/PostProcessPass.cs:661-694 | Defines SMAA's commands: the edge and blend temporaries are allocated, the edge, weight and blend passes are drawn in that order, and the temporaries are released. |
| Pipeline.GaussianCommands | com.unity.render-pipelines.universal/Runtime/Passes/PostProcessPass.cs:781-804 | Defines the Gaussian depth-of-field commands: the CoC from the source into the full-size CoC, the downscale into the half-size CoC and ping, a blur from ping into pong and one back into ping, then the composite of the source, ping and the full-size CoC into the destination. |
| Pipeline.BokehCommands | com.unity.render-pipelines.universal/Runtime/Passes/PostProcessPass.cs:893-950 | Defines the Bokeh depth-of-field commands: the kernel upload, then the CoC, prefilter, blur and post-filter passes through the scratch textures, then the composite of the source and ping into the destination. |
| Pipeline.StageCommands | com.unity.render-pipelines.universal/Runtime/Passes/PostProcessPass.cs:455-508 | Defines the commands of one stage run from a source to a destination: the NaN-killer blit, SMAA, the depth-of-field mode's commands (none for Off), the motion-blur blit or the Panini blit. |
| Pipeline.SmaaDraws | com.unity.render-pipelines.universal/Runtime/Passes/PostProcessPass.cs:669-690 | SMAA's draws are its three passes: edges, blend weights and neighbourhood blending. |
| Pipeline.BokehDraws | com.unity.render-pipelines.universal/Runtime/Passes/PostProcessPass.cs:936-950 | Bokeh's draws are the five passes after the kernel upload. |
| Pipeline.StageReadsSourceWritesDestination | com.unity.render-pipelines.universal/Runtime/Passes/PostProcessPass.cs:455-508 | Every stage that draws reads its source and writes its destination, and never swaps, when the buffers differ and are not its scratch. The first draw samples the source, no draw renders into the source, and only the last renders the destination. |
| Pipeline.SingleDrawReadsWrites | com.unity.render-pipelines.universal/Runtime/Passes/PostProcessPass.cs:459 | A one-blit stage (NaN killer, motion blur, Panini) reads its source and writes its destination. |
| Pipeline.SmaaReadsWrites | com.unity.render-pipelines.universal/Runtime/Passes/PostProcessPass.cs:669-690 | SMAA reads its source and writes its destination through its temporaries. |
| Pipeline.GaussianReadsWrites | com.unity.render-pipelines.universal/Runtime/Passes/PostProcessPass.cs:781-804 | Gaussian depth of field reads its source and writes its destination through its four scratch textures. |
| Pipeline.BokehReadsWrites | com.unity.render-pipelines.universal/Runtime/Passes/PostProcessPass.cs:936-950 | Bokeh depth of field reads its source and writes its destination through its three scratch textures. |
| Pipeline.Src | com.unity.render-pipelines.universal/Runtime/Passes/PostProcessPass.cs:432-437 | After k swaps the source is one of the two buffers. |
| Pipeline.Dst | com.unity.render-pipelines.universal/Runtime/Passes/PostProcessPass.cs:432-437 | After k swaps the destination is the other buffer. |
| Pipeline.SwapExchanges | com.unity.render-pipelines.universal/Runtime/Passes/PostProcessPass.cs:432-437 | One swap exchanges source and destination. |
| Pipeline.Chain | com.unity.render-pipelines.universal/Runtime/Passes/PostProcessPass.cs:455-508 | Defines the commands of the stage runs in order: each run's commands on the current source and destination, then a colour-buffer swap that exchanges the two. |
| Pipeline.ChainAppend | com.unity.render-pipelines.universal/Runtime/Passes/PostProcessPass.cs:455-508 | Two stage lists in sequence: the second starts on the buffers the first left. |
| Pipeline.ChainSnoc | com.unity.render-pipelines.universal/Runtime/Passes/PostProcessPass.cs:455-508 | One more stage appends its commands, on the current buffers, and a swap. |
| Pipeline.ChainStage | com.unity.render-pipelines.universal/Runtime/Passes/PostProcessPass.cs:455-508 | Stage k runs from the k-th source to the k-th destination, and its destination is the next stage's source. |
| Pipeline.ChainSwaps | com.unity.render-pipelines.universal/Runtime/Passes/PostProcessPass.cs:455-508 | Each stage contributes exactly one swap. |
| Pipeline.ScreenTarget | com.unity.render-pipelines.universal/Runtime/Passes/PostProcessPass.cs:555 | Defines the camera's screen output: the stack's target texture (a null identifier when the stack has none) when the camera has a texture of its own, otherwise the camera target. `PostProcess.PostProcessPass.RenderFinalPass` states the final blit goes there. |
| Pipeline.UberTarget | com.unity.render-pipelines.universal/Runtime/Passes/PostProcessPass.cs:553-562 | Defines the uber pass's target: the screen output when resolving to screen, otherwise the destination. `PostProcess.PostProcessPass.RenderUber` states the uber draw goes there. |
| Pipeline.UberCommands | com.unity.render-pipelines.universal/Runtime/Passes/PostProcessPass.cs:553-596 | Defines the uber block: the bloom schedule, one uber draw from the source into the target, then a swap unless resolving to screen. |
| Pipeline.UberSwaps | com.unity.render-pipelines.universal/Runtime/Passes/PostProcessPass.cs:585-596 | The uber block swaps once exactly when the pass does not resolve to screen. |
| Pipeline.FrameSwaps | com.unity.render-pipelines.universal/Runtime/Passes/PostProcessPass.cs:414-598 | A frame swaps once per stage that ran, plus once more exactly when it does not resolve to screen. |
| Pipeline.BloomScheduleNoSwaps | com.unity.render-pipelines.universal/Runtime/Passes/PostProcessPass.cs:1093-1187 | The bloom schedule never swaps. |
| PostProcess.EveryMaterial | com.unity.render-pipelines.universal/Runtime/Passes/PostProcessPass.cs:1395-1405 | The library has exactly the nine materials. |
| PostProcess.MaterialLibrary.constructor | com.unity.render-pipelines.universal/Runtime/Passes/PostProcessPass.cs:1407-1418 | Each material exists exactly when its shader is present and supported; an error is logged exactly for missing shaders; the keyword sets start empty. |
| PostProcess.MaterialLibrary.ClearKeywords | com.unity.render-pipelines.universal/Runtime/Passes/PostProcessPass.cs:514 | `shaderKeywords = null` empties one material's set and leaves the others. |
| PostProcess.MaterialLibrary.EnableKeyword | com.unity.render-pipelines.universal/Runtime/Passes/PostProcessPass.cs:535 | EnableKeyword adds one keyword to one material's set. |
| PostProcess.MaterialLibrary.SetKeyword | com.unity.render-pipelines.universal/Runtime/Passes/PostProcessPass.cs:1114-1115 | CoreUtils.SetKeyword switches one keyword of one material. |
| PostProcess.MaterialLibrary.SetMotionBlurMatrices | com.unity.render-pipelines.universal/Runtime/Passes/PostProcessPass.cs:996-1001 | The motion-blur material holds the two matrices it was given. |
| PostProcess.MaterialLibrary.Cleanup | com.unity.render-pipelines.universal/Runtime/Passes/PostProcessPass.cs:1435-1446 | Every material is destroyed. |
| PostProcess.BloomCommands | com.unity.render-pipelines.universal/Runtime/Passes/PostProcessPass.cs:517-522 | Without bloom the uber block issues no bloom command; with bloom, 3 x MipCount - 1 of them. |
| PostProcess.BloomKeywords | com.unity.render-pipelines.universal/Runtime/Passes/PostProcessPass.cs:1114-1186 | Defines the keyword sets after SetupBloom: BloomHQ and UseRGBM switched on the bloom material by their settings, and the frame's bloom variant added to the uber material. |
| PostProcess.DepthOfFieldKeywords | com.unity.render-pipelines.universal/Runtime/Passes/PostProcessPass.cs:704-728 | Defines the keyword sets after DoDepthOfField: high-quality sampling set on the Gaussian material by its setting, or fast sRGB conversion set on the Bokeh material by the frame's flag, nothing for mode Off. |
| PostProcess.SmaaStageKeywords | com.unity.render-pipelines.universal/Runtime/Passes/PostProcessPass.cs:466-473 | The SMAA stage touches only the materials already present. |
| PostProcess.DofStageKeywords | com.unity.render-pipelines.universal/Runtime/Passes/PostProcessPass.cs:476-487 | The depth-of-field stage touches only the materials already present. |
| PostProcess.PaniniStageKeywords | com.unity.render-pipelines.universal/Runtime/Passes/PostProcessPass.cs:501-508 | The Panini stage touches only the materials already present. |
| PostProcess.SmaaStageEffect | com.unity.render-pipelines.universal/Runtime/Passes/PostProcessPass.cs:466-473 | When SMAA runs its material's keywords become the quality preset; no other material changes, and a skipped stage changes nothing. |
| PostProcess.DofStageEffect | com.unity.render-pipelines.universal/Runtime/Passes/PostProcessPass.cs:476-487 | With the Gaussian mode only the Gaussian material changes and has high-quality sampling exactly when the setting asks; with Bokeh only the Bokeh material changes and has the fast sRGB keyword exactly when the frame uses it; mode Off or a skipped stage changes nothing. |
| PostProcess.PaniniStageEffect | com.unity.render-pipelines.universal/Runtime/Passes/PostProcessPass.cs:501-508 | When Panini runs its keyword is added to the Panini material's set and nothing is removed; no other material changes. |
| PostProcess.StageKeywords | com.unity.render-pipelines.universal/Runtime/Passes/PostProcessPass.cs:455-508 | Defines the keyword sets after Render's optional stages: the SMAA stage, then the depth-of-field stage, then the Panini stage. |
| PostProcess.UberBlockKeywords | com.unity.render-pipelines.universal/Runtime/Passes/PostProcessPass.cs:510-540 | Defines the keyword sets after the uber block: the uber material cleared, SetupBloom's bloom-material keywords when bloom is active, and the uber material left with exactly its rule set. |
| PostProcess.RenderKeywords | com.unity.render-pipelines.universal/Runtime/Passes/PostProcessPass.cs:414-598 | Defines every keyword set Render leaves: the stage keywords, then the uber block. |
| PostProcess.RenderPaniniKeywords | com.unity.render-pipelines.universal/Runtime/Passes/PostProcessPass.cs:455-540 | Render changes the Panini material's keywords only in its Panini stage: the SMAA and depth-of-field stages and the uber block leave them as they were. |
| PostProcess.PaniniTwoFramesBothVariants | com.unity.render-pipelines.universal/Runtime/Passes/PostProcessPass.cs:1019-1040 | The Panini material's keywords are never cleared, so after one Render with the generic variant and a later one with the unit-distance variant, both variants are enabled together. |
| PostProcess.Missing | com.unity.render-pipelines.universal/Runtime/Passes/PostProcessPass.cs:732-775 | The number of empty slots is at most the number of slots. |
| PostProcess.MissingCounts | com.unity.render-pipelines.universal/Runtime/Passes/PostProcessPass.cs:732-775 | No slot is missing exactly when every slot is allocated, and all are missing exactly when none is. |
| PostProcess.LazyFill | com.unity.render-pipelines.universal/Runtime/Passes/PostProcessPass.cs:732-775 | One handle per slot; one allocation, and one serial, per empty slot. |
| PostProcess.LazyStep | com.unity.render-pipelines.universal/Runtime/Passes/PostProcessPass.cs:732-742 | A filled slot allocates nothing; an empty one allocates exactly one handle. |
| PostProcess.LazyFillSlots | com.unity.render-pipelines.universal/Runtime/Passes/PostProcessPass.cs:732-775 | A filled slot keeps its handle; an empty one gets a handle under its own name with a serial newer than all earlier handles. |
| PostProcess.AllSome | com.unity.render-pipelines.universal/Runtime/Passes/PostProcessPass.cs:732-775 | Defines the slots after a fill, each holding its handle. `PostProcess.LazyFillAllSome` proves such slots allocate nothing. |
| PostProcess.LazyFillAllSome | com.unity.render-pipelines.universal/Runtime/Passes/PostProcessPass.cs:732-775 | Filling slots that all hold a handle allocates nothing, keeps the serial counter and keeps every handle. |
| PostProcess.LazyFillReuses | com.unity.render-pipelines.universal/Runtime/Passes/PostProcessPass.cs:732-775 | Filling already filled slots allocates nothing and keeps every handle: the second frame reuses them. |
| PostProcess.LazyAlloc | com.unity.render-pipelines.universal/Runtime/Passes/PostProcessPass.cs:732-742 | `if (slot == null) slot = RTHandles.Alloc(...)` is one step of the fill, on the allocator as well. |
| PostProcess.AllocateGaussianTargets | com.unity.render-pipelines.universal/Runtime/Passes/PostProcessPass.cs:732-775 | The four Gaussian handles are the lazy fill of their slots, with those allocations logged. |
| PostProcess.FillOfFour | com.unity.render-pipelines.universal/Runtime/Passes/PostProcessPass.cs:732-775 | The four-slot fill is four steps in declaration order. |
| PostProcess.AllocateBokehTargets | com.unity.render-pipelines.universal/Runtime/Passes/PostProcessPass.cs:896-928 | The three bokeh handles are the lazy fill of their slots, with those allocations logged. |
| PostProcess.FillOfThree | com.unity.render-pipelines.universal/Runtime/Passes/PostProcessPass.cs:896-928 | The three-slot fill is three steps in declaration order. |
| PostProcess.PreviousViewProj | com.unity.render-pipelines.universal/Runtime/Passes/PostProcessPass.cs:998-1001 | Defines the previous matrix DoMotionBlur hands over: this frame's after a history reset, else the stored slot. `PostProcess.PreviousIsLastFrame` proves it is the prior frame's matrix after the first frame. |
| PostProcess.PreviousSequence | com.unity.render-pipelines.universal/Runtime/Passes/PostProcessPass.cs:998-1003 | The previous matrices of consecutive motion-blur frames, one per frame. |
| PostProcess.PreviousIsLastFrame | com.unity.render-pipelines.universal/Runtime/Passes/PostProcessPass.cs:998-1003 | After the first frame motion blur compares with the frame before. The first compares with itself after a reset and with the slot otherwise. |
| PostProcess.MotionStep | com.unity.render-pipelines.universal/Runtime/Passes/PostProcessPass.cs:984-1004 | A frame without motion blur leaves the state alone. With it, the material gets this frame's and the previous matrix, and slot 0 stores this frame's. Slot 1 is never written. |
| PostProcess.BokehKernelCache.constructor | com.unity.render-pipelines.universal/Runtime/Passes/PostProcessPass.cs:26-100 | Before the first build there is no kernel and the key is the default. |
| PostProcess.BokehKernelCache.PrepareBokehKernel | com.unity.render-pipelines.universal/Runtime/Passes/PostProcessPass.cs:807-854 | The 42-entry array is allocated on first use and kept after; it then holds exactly the kernel table of the aperture and radius. |
| PostProcess.BokehKernelCache.Update | com.unity.render-pipelines.universal/Runtime/Passes/PostProcessPass.cs:884-891 | The cached key is the new inputs. The kernel is rebuilt for the new blades exactly when the cache says so; otherwise array and contents are unchanged. |
| PostProcess.AllFitAppend | com.unity.render-pipelines.universal/Runtime/Passes/PostProcessPass.cs:455-508 | Two lists of runs fitting the frame fit together. |
| PostProcess.RunForFits | com.unity.render-pipelines.universal/Runtime/Passes/PostProcessPass.cs:455-508 | A stage's run is of that stage and fits the frame's context, and it is the only run that does. |
| PostProcess.StageRunsKinds | com.unity.render-pipelines.universal/Runtime/Passes/PostProcessPass.cs:455-508 | A stage runs once when its guard holds, not at all otherwise, and its run fits. |
| PostProcess.EnabledRunsMatch | com.unity.render-pipelines.universal/Runtime/Passes/PostProcessPass.cs:455-508 | The runs of a frame are exactly its enabled stages in Render's order, each fitting the context. |
| PostProcess.DofAllocations | com.unity.render-pipelines.universal/Runtime/Passes/PostProcessPass.cs:476-487 | Depth of field allocates nothing when it is skipped or its mode is off. |
| PostProcess.TracksAfterSwap | com.unity.render-pipelines.universal/Runtime/Passes/PostProcessPass.cs:432-437 | A stage's commands and a swap extend the chain by that stage and exchange source and destination. |
| PostProcess.PostProcessPass.GaussianSlots | com.unity.render-pipelines.universal/Runtime/Passes/PostProcessPass.cs:26-100 | The four Gaussian slots. |
| PostProcess.PostProcessPass.BokehSlots | com.unity.render-pipelines.universal/Runtime/Passes/PostProcessPass.cs:26-100 | The three bokeh slots. |
| PostProcess.PostProcessPass.Motion | com.unity.render-pipelines.universal/Runtime/Passes/PostProcessPass.cs:26-100 | The motion-blur state holds both history slots. |
| PostProcess.PostProcessPass.Context | com.unity.render-pipelines.universal/Runtime/Passes/PostProcessPass.cs:732-775 | The context a frame's stages run in describes this pass. |
| PostProcess.PostProcessPass.constructor | com.unity.render-pipelines.universal/Runtime/Passes/PostProcessPass.cs:102-217 | The formats come from the device, the materials from the shaders and the history reset is armed. The temporaries and the 16 + 16 bloom levels are allocated in source order; the bokeh cache and the seven depth-of-field slots start empty. |
| PostProcess.PostProcessPass.Setup | com.unity.render-pipelines.universal/Runtime/Passes/PostProcessPass.cs:242-253 | Setup stores the descriptor without mip maps, the depth and LUT handles and the final-pass flag, marks the pass as not final, and takes both the resolve and the sRGB flag from its argument. |
| PostProcess.PostProcessPass.SetupFinalPass | com.unity.render-pipelines.universal/Runtime/Passes/PostProcessPass.cs:255-264 | SetupFinalPass sets the source and the camera target as destination, marks the pass final without a final pass after it, and enables sRGB. The resolve flag is the argument. |
| PostProcess.PostProcessPass.ResetHistory | com.unity.render-pipelines.universal/Runtime/Passes/PostProcessPass.cs:278-281 | The next motion-blur frame compares with itself. |
| PostProcess.PostProcessPass.DoSubpixelMorphologicalAntialiasing | com.unity.render-pipelines.universal/Runtime/Passes/PostProcessPass.cs:620-696 | The SMAA material holds exactly its quality preset. The stencil and the edge and blend descriptors follow from the depth handle and the descriptor. The log grows by the SMAA commands from the source to the destination. |
| PostProcess.PostProcessPass.DoGaussianDepthOfField | com.unity.render-pipelines.universal/Runtime/Passes/PostProcessPass.cs:712-805 | The sampling keyword follows the volume, and the four slots are the lazy fill with its allocations logged. The log grows by the five Gaussian passes on those handles. |
| PostProcess.PostProcessPass.DoBokehDepthOfField | com.unity.render-pipelines.universal/Runtime/Passes/PostProcessPass.cs:864-951 | The keyword follows the fast sRGB flag. The kernel is rebuilt exactly when the cache says and keeps its array; it holds the table of the current radius and aspect. The three slots are the lazy fill. The log grows by the bokeh commands. |
| PostProcess.PostProcessPass.BokehPasses | com.unity.render-pipelines.universal/Runtime/Passes/PostProcessPass.cs:893-950 | The kernel upload, the bokeh scratch fill and the five passes. |
| PostProcess.PostProcessPass.DoDepthOfField | com.unity.render-pipelines.universal/Runtime/Passes/PostProcessPass.cs:704-710 | The mode chooses Gaussian or bokeh, with that mode's effects only. The other mode's slots and cache are unchanged. With the mode off nothing is drawn or allocated. |
| PostProcess.PostProcessPass.DoMotionBlur | com.unity.render-pipelines.universal/Runtime/Passes/PostProcessPass.cs:960-1012 | The material gets this frame's view-projection and the previous one (this frame's own after a reset), slot 0 stores this frame's, and one pass of the quality runs. |
| PostProcess.PostProcessPass.DoPaniniProjection | com.unity.render-pipelines.universal/Runtime/Passes/PostProcessPass.cs:1019-1040 | One Panini keyword is added without a clear, and one pass runs. |
| PostProcess.PostProcessPass.SetupBloom | com.unity.render-pipelines.universal/Runtime/Passes/PostProcessPass.cs:1093-1187 | The log grows by exactly the bloom schedule of the frame's pyramid. The bloom material's HQ and RGBM keywords are set, and the uber material gets its variant. |
| PostProcess.PostProcessPass.SetupLensDistortion | com.unity.render-pipelines.universal/Runtime/Passes/PostProcessPass.cs:1193-1217 | Distortion is enabled exactly when the effect is active and the camera is not the scene view. |
| PostProcess.PostProcessPass.SetupChromaticAberration | com.unity.render-pipelines.universal/Runtime/Passes/PostProcessPass.cs:1223-1229 | Chromatic aberration is enabled exactly when the effect is active. |
| PostProcess.PostProcessPass.SetupColorGrading | com.unity.render-pipelines.universal/Runtime/Passes/PostProcessPass.cs:1259-1292 | The uber set gains HDR grading or the tonemapper's keyword. |
| PostProcess.PostProcessPass.SetupGrain | com.unity.render-pipelines.universal/Runtime/Passes/PostProcessPass.cs:1298-1310 | Film grain is enabled on the given material exactly when there is no final pass and grain is active. |
| PostProcess.PostProcessPass.SetupDithering | com.unity.render-pipelines.universal/Runtime/Passes/PostProcessPass.cs:1316-1328 | Dithering is enabled on the given material exactly when there is no final pass and the camera dithers. |
| PostProcess.PostProcessPass.Swap | com.unity.render-pipelines.universal/Runtime/Passes/PostProcessPass.cs:432-437 | After the renderer's swap the new target is the source and the new front buffer the destination; the chain has grown by one stage. |
| PostProcess.PostProcessPass.RenderStopNaN | com.unity.render-pipelines.universal/Runtime/Passes/PostProcessPass.cs:455-463 | The NaN killer runs exactly under its guard, as one blit followed by a swap. |
| PostProcess.PostProcessPass.RenderSmaa | com.unity.render-pipelines.universal/Runtime/Passes/PostProcessPass.cs:466-473 | SMAA runs exactly under its guard, with its run and keywords, followed by a swap. |
| PostProcess.PostProcessPass.RenderDepthOfField | com.unity.render-pipelines.universal/Runtime/Passes/PostProcessPass.cs:476-487 | Depth of field runs exactly under its guard, followed by a swap. The allocations are the fill of the mode in use; motion state is unchanged. |
| PostProcess.PostProcessPass.RenderMotionBlur | com.unity.render-pipelines.universal/Runtime/Passes/PostProcessPass.cs:490-497 | Motion blur runs exactly under its guard, followed by a swap, and the history advances by one step. |
| PostProcess.PostProcessPass.RenderPanini | com.unity.render-pipelines.universal/Runtime/Passes/PostProcessPass.cs:501-508 | Panini runs exactly under its guard, followed by a swap. |
| PostProcess.PostProcessPass.RenderStages | com.unity.render-pipelines.universal/Runtime/Passes/PostProcessPass.cs:455-508 | The enabled stages run in order, each from the current source to the destination and followed by a swap. Keywords, allocations and motion history are those of the stages that ran. |
| PostProcess.PostProcessPass.RenderEarlyStages | com.unity.render-pipelines.universal/Runtime/Passes/PostProcessPass.cs:455-473 | The NaN killer and SMAA, in order, under their guards. |
| PostProcess.PostProcessPass.RenderCameraStages | com.unity.render-pipelines.universal/Runtime/Passes/PostProcessPass.cs:476-508 | Depth of field, motion blur and Panini, in order, under their guards. |
| PostProcess.PostProcessPass.RenderLateStages | com.unity.render-pipelines.universal/Runtime/Passes/PostProcessPass.cs:490-508 | Motion blur and Panini, in order, under their guards. |
| PostProcess.PostProcessPass.SetupUberRules | com.unity.render-pipelines.universal/Runtime/Passes/PostProcessPass.cs:525-540 | The uber rules after bloom, in Render's order. |
| PostProcess.PostProcessPass.SetupUberEffects | com.unity.render-pipelines.universal/Runtime/Passes/PostProcessPass.cs:525-528 | Lens distortion, chromatic aberration and grading, in order. |
| PostProcess.PostProcessPass.SetupUberOutputs | com.unity.render-pipelines.universal/Runtime/Passes/PostProcessPass.cs:531-540 | Grain, dithering, the sRGB conversion and the fast sRGB approximation, in order. |
| PostProcess.PostProcessPass.SetupSrgbRules | com.unity.render-pipelines.universal/Runtime/Passes/PostProcessPass.cs:534-540 | The two sRGB keywords under their guards. |
| PostProcess.PostProcessPass.UberKeywordsAndBloom | com.unity.render-pipelines.universal/Runtime/Passes/PostProcessPass.cs:514-540 | The uber set is cleared and rebuilt; bloom runs exactly when active, and the log grows by its schedule only. |
| PostProcess.PostProcessPass.RenderUber | com.unity.render-pipelines.universal/Runtime/Passes/PostProcessPass.cs:511-597 | The uber block issues the bloom schedule and one uber draw from the source to the screen output or the destination. It swaps exactly when not resolving to screen; allocations and motion history are untouched. |
| PostProcess.PostProcessPass.Render | com.unity.render-pipelines.universal/Runtime/Passes/PostProcessPass.cs:414-598 | The log is the chain of the enabled stages followed by the uber block on the last output. The destination and the renderer's buffers end as the number of swaps says. Keywords, allocations and motion history are those of the stages that ran. |
| PostProcess.PostProcessPass.RenderFinalPass | com.unity.render-pipelines.universal/Runtime/Passes/PostProcessPass.cs:1334-1389 | The final-pass set is rebuilt by its rules, and one draw goes from the source to the camera's screen output. |
| PostProcess.PostProcessPass.SetupFinalPassKeywords | com.unity.render-pipelines.universal/Runtime/Passes/PostProcessPass.cs:1338-1350 | The final-pass keywords, cleared and set by the rules in order. |
| PostProcess.PostProcessPass.Dispatch | com.unity.render-pipelines.universal/Runtime/Passes/PostProcessPass.cs:313-341 | A final pass renders only the final blit, changes only the final-pass keywords, and leaves the buffers, handle log, motion history, depth-of-field slots and bokeh cache alone. Otherwise, since the pass never runs on tile, Render runs. |
| PostProcess.PostProcessPass.TakeCameraTargets | com.unity.render-pipelines.universal/Runtime/Passes/PostProcessPass.cs:292-294 | The source is the renderer's colour target, the destination its front buffer, and the fast sRGB flag is the frame's. |
| PostProcess.PostProcessPass.ConsumeHistoryReset | com.unity.render-pipelines.universal/Runtime/Passes/PostProcessPass.cs:343 | The history reset is cleared and nothing else changes. |
| PostProcess.PostProcessPass.Execute | com.unity.render-pipelines.universal/Runtime/Passes/PostProcessPass.cs:290-344 | Execute takes the source from the renderer. A final pass renders the final blit and leaves the handle log, motion history, depth-of-field slots and bokeh cache alone; otherwise Render's log and keywords follow. A history reset is used by exactly one frame. |
| PostProcess.PostProcessPass.Cleanup | com.unity.render-pipelines.universal/Runtime/Passes/PostProcessPass.cs:219-240 | The materials are destroyed. The temporaries, every bloom level and each depth-of-field handle held are released in source order; nothing is allocated. |
| PostProcess.UberDraw | com.unity.render-pipelines.universal/Runtime/Passes/PostProcessPass.cs:585-596 | One uber draw into the target, then the renderer's swap unless resolving to screen. |
| PostProcess.BloomPyramid | com.unity.render-pipelines.universal/Runtime/Passes/PostProcessPass.cs:1118-1156 | The log grows by exactly the bloom schedule. |
| PostProcess.BloomDownsample | com.unity.render-pipelines.universal/Runtime/Passes/PostProcessPass.cs:1118-1134 | The log grows by the prefilter and the two blur passes of every lower level, in order. |
| PostProcess.BloomUpsample | com.unity.render-pipelines.universal/Runtime/Passes/PostProcessPass.cs:1137-1145 | The log grows by the upsamples from level mipCount - 2 back to 0. |
| PostProcess.AllocateTargets | com.unity.render-pipelines.universal/Runtime/Passes/PostProcessPass.cs:152-216 | The two temporaries, then down i before up i for each of 16 levels, each with a fresh serial in that order. |
| PostProcess.PyramidLevels | com.unity.render-pipelines.universal/Runtime/Passes/PostProcessPass.cs:185-216 | Defines one pyramid's handles, level i under its indexed name with serial first + 2i. `PostProcess.AllocatePyramid` proves the constructor's loop allocates them. |
| PostProcess.AllocatePyramid | com.unity.render-pipelines.universal/Runtime/Passes/PostProcessPass.cs:185-216 | The pyramid loop allocates down i then up i for every level. |
| PostProcess.ConstructorName | com.unity.render-pipelines.universal/Runtime/Passes/PostProcessPass.cs:152-216 | Defines the name of the constructor's k-th allocation: the two temporaries, then down i and up i alternately. `PostProcess.PostProcessPass.constructor` states its allocations through `ConstructorEvents`, which names them by it. |
| PostProcess.ConstructorEvents | com.unity.render-pipelines.universal/Runtime/Passes/PostProcessPass.cs:152-216 | Defines the constructor's allocations with consecutive serials. `PostProcess.ConstructorHandlesReleased` proves Cleanup releases each of them. |
| PostProcess.ConstructorEventsStep | com.unity.render-pipelines.universal/Runtime/Passes/PostProcessPass.cs:185-216 | One loop iteration adds the down and then the up allocation of its level. |
| PostProcess.CanRunOnTile | com.unity.render-pipelines.universal/Runtime/Passes/PostProcessPass.cs:283-287 | Defines the on-tile test, which is always false. `PostProcess.PostProcessPass.Dispatch` states that a frame that is not a final pass runs Render. |
| PostProcess.Releases | com.unity.render-pipelines.universal/Runtime/Passes/PostProcessPass.cs:224-231 | Defines one release per handle, in order. `PostProcess.ReleaseAll` proves the foreach loop logs exactly these. |
| PostProcess.PresentReleases | com.unity.render-pipelines.universal/Runtime/Passes/PostProcessPass.cs:232-238 | Defines the releases of `?.Release()` on each slot in turn: one release per slot that holds a handle, none for an empty slot. |
| PostProcess.CleanupReleases | com.unity.render-pipelines.universal/Runtime/Passes/PostProcessPass.cs:219-240 | Defines the releases Cleanup issues: the two temporaries, the down levels, the up levels, then the depth-of-field slots that hold a handle. |
| PostProcess.PresentReleasesExactly | com.unity.render-pipelines.universal/Runtime/Passes/PostProcessPass.cs:232-238 | The `?.Release()` calls release exactly the handles the slots hold. |
| PostProcess.CleanupReleasesExactly | com.unity.render-pipelines.universal/Runtime/Passes/PostProcessPass.cs:219-240 | Cleanup releases exactly the temporaries, every bloom level and every depth-of-field handle held, and allocates nothing. |
| PostProcess.ConstructorHandlesReleased | com.unity.render-pipelines.universal/Runtime/Passes/PostProcessPass.cs:102-240 | Every handle the constructor allocates is released by a later Cleanup. |
| PostProcess.ReleaseAll | com.unity.render-pipelines.universal/Runtime/Passes/PostProcessPass.cs:224-231 | `foreach (var handle in hs) handle.Release()` releases every handle in order. |
| PostProcess.ReleaseTargets | com.unity.render-pipelines.universal/Runtime/Passes/PostProcessPass.cs:222-231 | The temporaries, then each down level, then each up level. |
| PostProcess.ReleaseSlots | com.unity.render-pipelines.universal/Runtime/Passes/PostProcessPass.cs:232-238 | The seven depth-of-field slots in declaration order, each released if it holds a handle. |
| PostProcess.ReleaseSlot | com.unity.render-pipelines.universal/Runtime/Passes/PostProcessPass.cs:232-238 | Releasing the next slot extends the slot releases by one. |
| PostProcess.ReleaseIfPresent | com.unity.render-pipelines.universal/Runtime/Passes/PostProcessPass.cs:232 | A slot is released when it holds a handle and nothing happens otherwise. |
| PostProcess.PresentReleasesPrefix | com.unity.render-pipelines.universal/Runtime/Passes/PostProcessPass.cs:232-238 | Releasing one more slot appends its release. |
| PerformanceTests.MeasureLog.Custom | Tests/SRPTests/Packages/com.unity.testing.graphics-performance/Runtime/PerformanceTests.cs:77 | `Measure.Custom` appends one sample. |
| PerformanceTests.TimingGroup | Tests/SRPTests/Packages/com.unity.testing.graphics-performance/Runtime/PerformanceTests.cs:68-70 | Defines a timing group: in milliseconds, lower is better, named after its metric and sampler. `PerformanceTests.TimeSamplesGated` is stated over it. |
| PerformanceTests.GroupsFor | Tests/SRPTests/Packages/com.unity.testing.graphics-performance/Runtime/PerformanceTests.cs:66-72 | Defines CreateSampleGroups: each sampler's CPU, GPU and inline CPU group. `PerformanceTests.TimeSamplesGated` is stated over it. |
| PerformanceTests.TimeSamples | Tests/SRPTests/Packages/com.unity.testing.graphics-performance/Runtime/PerformanceTests.cs:74-82 | One reading yields at most three samples, each with a positive value. |
| PerformanceTests.TimeSamplesGated | Tests/SRPTests/Packages/com.unity.testing.graphics-performance/Runtime/PerformanceTests.cs:74-82 | A metric's sample is reported exactly when its elapsed time is positive, with that time as value. Every reported value is positive. |
| PerformanceTests.FrameSamples | Tests/SRPTests/Packages/com.unity.testing.graphics-performance/Runtime/PerformanceTests.cs:57-58 | A measuring frame yields at most three samples per sampler. |
| PerformanceTests.RoundSamples | Tests/SRPTests/Packages/com.unity.testing.graphics-performance/Runtime/PerformanceTests.cs:55-60 | Defines the samples of the first frames measured: each frame's samples after those of the frames before it. |
| PerformanceTests.FrameSamplesAllPositive | Tests/SRPTests/Packages/com.unity.testing.graphics-performance/Runtime/PerformanceTests.cs:57-58 | A frame whose readings are all positive reports exactly three samples per sampler. |
| PerformanceTests.RoundSamplesAllPositive | Tests/SRPTests/Packages/com.unity.testing.graphics-performance/Runtime/PerformanceTests.cs:55-60 | With positive readings throughout, exactly 3 x samplers x frames samples are reported. |
| PerformanceTests.RoundSamplesNoneRecorded | Tests/SRPTests/Packages/com.unity.testing.graphics-performance/Runtime/PerformanceTests.cs:55-60 | Without a positive reading nothing is reported. |
| PerformanceTests.FrameSamplesNone | Tests/SRPTests/Packages/com.unity.testing.graphics-performance/Runtime/PerformanceTests.cs:57-58 | A frame without positive readings reports nothing. |
| PerformanceTests.Iterations | Tests/SRPTests/Packages/com.unity.testing.graphics-performance/Runtime/PerformanceTests.cs:52 | Defines max(count, 0), how often a counting loop runs. `PerformanceTests.MeasureRounds` proves the loop runs that often. |
| PerformanceTests.MeasureTime | Tests/SRPTests/Packages/com.unity.testing.graphics-performance/Runtime/PerformanceTests.cs:74-82 | The log grows by the positive readings of the sampler, each in its group. |
| PerformanceTests.MeasureFrame | Tests/SRPTests/Packages/com.unity.testing.graphics-performance/Runtime/PerformanceTests.cs:57-58 | The log grows by every sampler's samples, in sampler order. |
| PerformanceTests.MeasureRounds | Tests/SRPTests/Packages/com.unity.testing.graphics-performance/Runtime/PerformanceTests.cs:55-60 | The measuring loop runs max(count, 0) frames and the log grows by their samples, frame after frame. |
| PerformanceTests.SetRecording | Tests/SRPTests/Packages/com.unity.testing.graphics-performance/Runtime/PerformanceTests.cs:42-44 | Every sampler's recorder is set as asked. |
| PerformanceTests.MeasureProfilingSamplers | Tests/SRPTests/Packages/com.unity.testing.graphics-performance/Runtime/PerformanceTests.cs:40-83 | The recorders end disabled, and every sampler has its own three groups. The frames waited are the warm-up plus the measuring frames. The log grows by exactly the measuring rounds' samples. |
| PerformanceTests.MemoryObjectTypes | Tests/SRPTests/Packages/com.unity.testing.graphics-performance/Runtime/PerformanceTests.cs:85-97 | Ten distinct asset types, among them RenderTexture, Material, Mesh and ComputeShader. |
| PerformanceTests.DisplayName | Tests/SRPTests/Packages/com.unity.testing.graphics-performance/Runtime/PerformanceTests.cs:108 | An object's own name when it has one, else its type's name; never empty when the type name is not. |
| PerformanceTests.Heavy | Tests/SRPTests/Packages/com.unity.testing.graphics-performance/Runtime/PerformanceTests.cs:112 | Defines which objects the report keeps: those whose size exceeds the minimum object size. |
| PerformanceTests.Total | Tests/SRPTests/Packages/com.unity.testing.graphics-performance/Runtime/PerformanceTests.cs:115 | Defines the total: the sum of the sizes of every object found, light ones included. |
| PerformanceTests.Kept | Tests/SRPTests/Packages/com.unity.testing.graphics-performance/Runtime/PerformanceTests.cs:111-113 | The results list holds at most one entry per object found, and every entry is larger than the minimum size. |
| PerformanceTests.Light | Tests/SRPTests/Packages/com.unity.testing.graphics-performance/Runtime/PerformanceTests.cs:111-113 | The objects left out are found objects of at most the minimum size. |
| PerformanceTests.KeptExactly | Tests/SRPTests/Packages/com.unity.testing.graphics-performance/Runtime/PerformanceTests.cs:106-116 | An entry is kept exactly when it is the (name, size) of an object larger than the minimum. |
| PerformanceTests.KeptAppend | Tests/SRPTests/Packages/com.unity.testing.graphics-performance/Runtime/PerformanceTests.cs:106-116 | Objects are kept in discovery order. |
| PerformanceTests.TotalCountsLight | Tests/SRPTests/Packages/com.unity.testing.graphics-performance/Runtime/PerformanceTests.cs:101-116 | The total counts every object: the kept ones plus those too light to keep. |
| PerformanceTests.Insert | Tests/SRPTests/Packages/com.unity.testing.graphics-performance/Runtime/PerformanceTests.cs:118 | Insertion into a largest-first list keeps it largest first and adds exactly the entry. |
| PerformanceTests.SortBySize | Tests/SRPTests/Packages/com.unity.testing.graphics-performance/Runtime/PerformanceTests.cs:118 | The sorted results are largest first and a permutation of the results. |
| PerformanceTests.EntryTotalPermutation | Tests/SRPTests/Packages/com.unity.testing.graphics-performance/Runtime/PerformanceTests.cs:118 | Reordering the results does not change their total. |
| PerformanceTests.EntryTotalRemove | Tests/SRPTests/Packages/com.unity.testing.graphics-performance/Runtime/PerformanceTests.cs:118 | Taking one entry out of a list takes its size out of the total and one copy of it out of the multiset. |
| PerformanceTests.EntryTotalSplit | Tests/SRPTests/Packages/com.unity.testing.graphics-performance/Runtime/PerformanceTests.cs:115 | The total of two lists in sequence is the sum of their totals. |
| PerformanceTests.ResolutionOf | Tests/SRPTests/Packages/com.unity.testing.graphics-performance/Runtime/PerformanceTests.cs:120 | Defines the resolution from the camera's width and height. |
| PerformanceTests.MemorySample | Tests/SRPTests/Packages/com.unity.testing.graphics-performance/Runtime/PerformanceTests.cs:124 | Defines a kept entry's sample: in bytes, lower is better, under its name and the resolution, valued at its size. |
| PerformanceTests.MemorySamples | Tests/SRPTests/Packages/com.unity.testing.graphics-performance/Runtime/PerformanceTests.cs:123-124 | Defines one sample per entry, in the entries' order. `PerformanceTests.MemorySamplesOrdered` proves sorted entries give non-increasing values. |
| PerformanceTests.TotalSample | Tests/SRPTests/Packages/com.unity.testing.graphics-performance/Runtime/PerformanceTests.cs:125 | Defines the total's sample, in bytes under the asset type and the resolution. `PerformanceTests.MemoryReportShape` proves the report ends with it. |
| PerformanceTests.MemorySamplesOrdered | Tests/SRPTests/Packages/com.unity.testing.graphics-performance/Runtime/PerformanceTests.cs:118-124 | The samples of sorted entries carry non-increasing values. |
| PerformanceTests.MemoryReport | Tests/SRPTests/Packages/com.unity.testing.graphics-performance/Runtime/PerformanceTests.cs:118-125 | Defines the report: one byte sample per kept entry, largest first, then the total under the asset type, all named with the camera resolution. |
| PerformanceTests.MemoryReportShape | Tests/SRPTests/Packages/com.unity.testing.graphics-performance/Runtime/PerformanceTests.cs:118-125 | The report is one byte sample per heavy object in largest-first order, then the total over all objects, last and only once. |
| PerformanceTests.ReportedBytes | Tests/SRPTests/Packages/com.unity.testing.graphics-performance/Runtime/PerformanceTests.cs:101-125 | The reported entries account for the total less the light objects, whatever order the sort leaves them in. |
| PerformanceTests.MeasureMemory | Tests/SRPTests/Packages/com.unity.testing.graphics-performance/Runtime/PerformanceTests.cs:101-116 | The measuring loop yields the total of all objects and the heavy ones in discovery order. |
| PerformanceTests.ReportMemoryUsage | Tests/SRPTests/Packages/com.unity.testing.graphics-performance/Runtime/PerformanceTests.cs:99-128 | The log grows by exactly the memory report. |

## Left out

- **XR and procedural drawing.** The `DrawProcedural` branches, the stereo motion-blur matrices and the XR viewport and y-flip logic are not modelled. Every blit or full-screen draw is one `Draw` command.
- **Floating-point shader parameters.** These are SetVector, SetFloat and SetMatrix values: SMAA metrics, CoC parameters, the Gaussian maximum radius, focal length and aperture, bloom threshold, scatter, tint and dirt scale, lens distortion, chromatic aberration and colour-grading LUT parameters, and the Panini extents and crop. They only feed shaders, and floating point is not modelled.
- **Bokeh trigonometry.** The bokeh kernel's trigonometry is left out. A kernel sample records the ring, point, radius, angle fraction, aperture shape, maximum radius and reciprocal aspect it is computed from.
- **SetupVignette.** The pass's `SetupVignette` only sets two vectors from floating-point settings and enables no keyword.
- **Global bindings and viewports.** The global scale vectors, view/projection matrices, viewports, load/store actions and clears are left out. So is the full-screen projection matrix. These are engine-state writes that choose no branch of the pass.
- **Profiling scopes and command-buffer pooling.** These are not modelled.
- **Film grain and dithering textures.** `ConfigureFilmGrain` and `ConfigureDithering`, including the dithering texture index, live in code that is not part of this model. Only the keywords they go with are modelled.
- **Volume components and `IsActive()`.** Each volume component's `IsActive()` is an input of the frame. The code behind it is not part of this model.
- **Null materials.** A material whose shader failed to load is null in the source, and using it would throw. The model keeps a keyword set for every material and does not model that exception. The NaN killer's own null check is modelled as part of its guard.
- Bloom.MipCount: for a target under 2 x 2 the half size is 0 and `Mathf.Log` gives minus infinity. Converting that to an int is unspecified in C#; on x86 and ARM it is `int.MinValue`, which `-= skipIterations` wraps to a large positive value, giving 16 levels for any positive skip. The model gives such a target 1 level.
- Bloom.FloorLog2: an exact integer log2 stands for the float `Mathf.FloorToInt(Mathf.Log(x, 2f))`. The model takes the float logarithm to be exact; its rounding near a power of two is not modelled.
- Bokeh.RcpAspect: for a half width of 0 the source's `1f / (wh / (float)hh)` is +infinity, and for both half sizes 0 it is NaN. NaN compares unequal to itself, so the source rebuilds the kernel on every such frame. The model returns 0.0 there, so `Bokeh.SecondIdenticalFrameReuses` does not hold for the source on targets under 2 pixels wide.
- Formats.ToLower: folds ASCII letters only, where `ToLowerInvariant` folds all of Unicode. The only use, the "arm" test on the device name, gives the same answer for every name whose non-ASCII letters do not fold to ASCII ones.
- PostProcess.PostProcessPass.Render: requires a depth handle when SMAA runs. The source dereferences `m_Depth` there and has no error path for a missing one.
- **Depth of field with mode Off.** When the depth-of-field component is active but its mode is Off, `DoDepthOfField` draws nothing while `Render` still swaps. The stage lemmas about reading the source and writing the destination therefore exclude that run (`DofOffRun`).
- **A single bloom level.** When the pyramid has a single level, the uber pass samples `_BloomMipUp0`, which this frame did not render. This is stated by `Bloom.SingleLevelBindsUnwrittenUp0`; what that texture holds from earlier frames is not modelled.
- **The final pass's source.** `Execute` sets the source to the renderer's colour target before `RenderFinalPass` reads it, so the handle passed to `SetupFinalPass` is overwritten. The model does the same.
- PostProcess.PostProcessPass.Execute: on the Render path it states the log, keywords and history reset. The motion-history, handle-allocation and renderer-buffer clauses of `Render` and `Dispatch` are not repeated here.
- **Camera callbacks.** `OnCameraSetup` and `OnCameraCleanup` are empty in the source.
- **Waiting for frames in the performance tests.** `yield return null` is not modelled as waiting. The frames the coroutine would wait are counted and returned.
- **Engine readings in the performance tests.** The samplers' elapsed times become the input `elapsed(frame, sampler index)`. `Resources.FindObjectsOfTypeAll` and `Profiler.GetRuntimeMemorySizeLong` become the list of found objects with their sizes.
- **Sample group names.** `FormatSampleGroupName` is code that is not part of this model. A group name keeps the arguments it is formatted from, and the resolution keeps the width and height it is printed from.
- PerformanceTests.ReportMemoryUsage: does not model wrap-around of the 64-bit `long` total, or the rounding of the `long` to `double` that `Measure.Custom` takes. Sizes and totals are unbounded integers.
- PerformanceTests.SortBySize: states only that the result is largest first and a permutation of its input, because `List.Sort` is not stable. The order of entries of equal size is left open there. `PerformanceTests.ReportMemoryUsage` states its log through `MemoryReport`, which fixes the order the insertion sort produces: one of the orders the source may report.
- **Recorders and readings.** `enableRecording` is modelled as sampler state that the test switches on and off. The readings are inputs, so the model does not tie them to the flag.
- **Test fixture hooks.** `Setup` (editor build settings) and `TearDown` (test scene cleanup) of the performance tests are editor and test-framework hooks and are left out.
