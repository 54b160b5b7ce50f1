# SSR renderer feature: a Dafny model

This project models the core of `SSRRF.cs`. That file is a Unity
Universal Render Pipeline renderer feature that adds screen-space
reflections to a camera. Its render pass `SSRRenderPass` works in two
steps:

- `OnCameraSetup` allocates a fixed set of render targets for each camera.
- `Execute` records one frame into a command buffer:
  - the source copy and the hierarchical depth chain (`DoHizDepth`);
  - the ray march and a debug view;
  - the resolve and the temporal accumulation (`DoTAA`);
  - a dual-Kawase blur pyramid, then the composite.

The model states what the pass records and proves that the recording is
well formed. It covers:

- **Command buffer.** The buffer is a class whose `commands` field each
  recording method extends. Every `Do*` method appends exactly the
  commands of a pure plan function (`HiZPlan`, `BlurPlan`, `TAAPlan`,
  `ExecutePlan`).
- **Resource lifetimes.** `Frame.Run` replays a command list over the map
  of live targets. The replay fails (`None`) on any of these:
  - an allocation of a live target;
  - a release of a dead one;
  - a dispatch, blit or copy that touches a dead target;
  - a dispatch whose target has the wrong size, or whose group count does
    not exactly cover it (ceiling division).

  The depth chain, the blur and the whole frame are proved to replay
  successfully. Each proof also names the targets live afterwards.
- **Blur pyramid.** The `rtIDs`/`rtSizes` lists, the swap of the
  intermediate target, the release counts of the multi-level branch, the
  single-level branch, and the conditional copy back.
- **Temporal jitter.** The Halton jitter of the `TAA` class, proved equal
  to the radical inverse of the sample index and periodic with period 64.
- **Matrix lag.** The two view-projection registers and the one-frame lag
  of `_Pre_Matrix_VP`.

Modules, one file each:

- `arith.dfy` (`Arith`): powers, floor and ceiling division, integer
  base-2 logarithm.
- `frame.dfy` (`Frame`): target ids, commands, thread-group sizes, the
  replay `Run`, and the `CommandBuffer` class.
- `targets.dfy` (`Targets`): `PassSetting`, `GetRadius`,
  `downSampleCount`, and the sizes and order of the setup targets.
- `halton.dfy` (`Halton`): `GetHaltonValue` and the `TAA` class.
- `hiz.dfy` (`HiZ`): `DoHizDepth`.
- `blur.dfy` (`Blur`): `DoKawaseSample`, `DoKawaseLinear` and the blur
  block of `Execute`.
- `pass.dfy` (`Pass`): the `SSRRenderPass` class, the frame plan, and the
  matrix history.

Where the code and the feature's written description disagree, the
model follows the code:

- **The blur does not skip at zero radius.** With zero intensity or zero
  maximum radius, the blur block still allocates `_KawaseRT`, runs the
  single-level pyramid and the blend. It only skips the copy back into the
  TAA target and the release of `_KawaseRT` (`BlitsBack`, `AfterBlur`).
- **One pyramid level is never released.** In the `downSampleCount == 0`
  branch, `_KawaseRT0` (`rtIDs[1]`) is never released (`ZeroBranchRun`,
  `AfterBlur`).
- **The debug view replaces nothing.** It is one extra blit. Resolve, TAA,
  blur and combine follow it in every mode (`DebugSwitchIsLocal`,
  `DebugSwitchKeepsPasses`).
- **A missing HiZ shader skips only the chain.** Without the `HiZ/CS_HiZ`
  compute shader only the depth chain is skipped. The rest of the frame
  is recorded as usual (`ExecutePlan`).

## Model

| member | source | states |
|---|---|---|
| `Arith.CeilDiv` | SSRRF.cs:302-305 | the group count `g` is the least with `g * tile >= n`: `g * x >= n` and `(g - 1) * x < n` |
| `Arith.CeilDivUnique` | SSRRF.cs:302-305 | any `g` with those two bounds equals `CeilDiv(n, x)`, so the bounds define `Mathf.CeilToInt(n / x)` on non-negative integers |
| `Arith.FloorLog2` | SSRRF.cs:517-518 | `2^k <= n < 2^(k+1)` |
| `Arith.FloorLog2Unique` | SSRRF.cs:517-518 | those bounds determine `k` |
| `Frame.Groups` | SSRRF.cs:302-305 | the dispatched group counts cover the extent exactly: enough groups, and one fewer would not be |
| `Frame.GroupsUnique` | SSRRF.cs:302-305 | exact cover holds of the group counts if and only if they are the ceiling quotients |
| `Targets.GetRadius` | SSRRF.cs:32-35 | the radius is 0 exactly when the intensity or the maximum radius is 0 |
| `Targets.RadiusRange` | SSRRF.cs:29-35 | within the inspector ranges the radius lies in [0, 255] |
| `Targets.DownSampleCount` | SSRRF.cs:517-518 | `FloorToInt(log2(radius + 1))`: `2^n <= radius + 1 < 2^(n+1)` |
| `Targets.DownSampleCountUnique` | SSRRF.cs:517-518 | those bounds determine the count |
| `Targets.DownSampleCountRange` | SSRRF.cs:29-30 | within the inspector ranges the count is at most 8, and a zero radius gives count 0 |
| `Targets.DownSampleCountExample` | SSRRF.cs:517-518 | intensity 0.5 and maximum radius 32 give radius 16 and count 4 |
| `Targets.NoBlitBackMeansSingleLevel` | SSRRF.cs:575-579 | when the blur is not copied back the radius is 0 and the count is 0 |
| `Targets.TargetSize` | SSRRF.cs:221-222 | `InitRTI`/`InitRT` sizes are the floor quotients of the base size by the factor, stated by their bounds |
| `Targets.TargetSizeUnique` | SSRRF.cs:221-222 | the floor-quotient bounds determine the size |
| `Targets.SetupSize` | SSRRF.cs:153-185 | every setup target but the resolved one is created at the camera's base size |
| `Targets.SetupAllocsFresh` | SSRRF.cs:153-185 | the first `n` setup allocations allocate the first `n` setup targets in call order, each once and none of them live before |
| `Targets.SetupSizesExample` | SSRRF.cs:175-176 | with `downSample == 2` a 1920x1080 camera gets a 960x540 resolved target and full-size others |
| `Targets.SetupIdsDistinct` | SSRRF.cs:101-109 | the eleven setup targets are pairwise distinct and distinct from the camera target |
| `Targets.SetupAllocsRun` | SSRRF.cs:153-185 | the eleven allocations all succeed and leave exactly the camera target and the setup targets live, each at its size |
| `Targets.SetupPlan` | SSRRF.cs:138-214 | setup records nothing exactly when the renderer is missing, uploads `Matrix_VP` exactly when the renderer, the material and the blue-noise texture are all present (the texture's size is read at line 192), and records only allocations besides; `SetupRun` proves it replays |
| `Targets.SetupRun` | SSRRF.cs:138-214 | every setup path succeeds, also the three that throw, and once the renderer and the material are present exactly the setup targets are live |
| `Halton.RadicalInverse` | SSRRF.cs:618-632 | the Halton value lies in [0, 1) |
| `Halton.DigitsAt` | SSRRF.cs:623-629 | the `k`-th digit the loop consumes is `(index / radix^k) % radix` |
| `Halton.PositionalSumCons` | SSRRF.cs:623-629 | prepending a digit `d` divides the digit sum plus `d` by the radix |
| `Halton.RadicalInverseIsDigitSum` | SSRRF.cs:618-632 | the radical inverse is the sum of the base-`radix` digits of the index, digit `k` weighted by `radix^-(k+1)` |
| `Halton.HaltonLoopStep` | SSRRF.cs:623-629 | one iteration keeps the loop invariant: the digits consumed plus those left are the index's, and `result`/`fraction` are their partial sum and next weight |
| `Halton.HaltonLoopExit` | SSRRF.cs:623-631 | at loop exit the result is the radical inverse of the index (0 for a non-positive index) |
| `Halton.GetHaltonValue` | SSRRF.cs:618-632 | returns the radical inverse of the index in base `radix`, 0 for a non-positive index, and a value in [0, 1) |
| `Halton.Mask1023` | SSRRF.cs:637-638 | `& 1023` yields a value below 1024 that is the index itself for every index below 1024 |
| `Halton.JitterOffset` | SSRRF.cs:636-638 | both coordinates lie in [0, 1), and sample 0 gives (0, 0) |
| `Halton.NextSampleIndex` | SSRRF.cs:640-641 | from an index in [0, 64) the next index is the index plus one modulo 64 |
| `Halton.SampleIndexAfterIsMod` | SSRRF.cs:634-644 | after `n` calls from a new generator the sample index is `n % 64` |
| `Halton.SampleIndexPeriodic` | SSRRF.cs:640-641 | the sample index after `n + 64` calls equals that after `n` calls |
| `Halton.JitterPeriodic` | SSRRF.cs:634-644 | the jitter sequence repeats exactly after 64 calls |
| `Halton.TAA.constructor` | SSRRF.cs:613-616 | a new generator starts at sample 0 |
| `Halton.TAA.GenerateRandomOffset` | SSRRF.cs:634-644 | returns the base-2 and base-3 radical inverses of the current index and advances the index modulo 64 |
| `HiZ.Halve` | SSRRF.cs:287-288 | each component is floor-halved, stated by its bounds |
| `HiZ.LevelSize` | SSRRF.cs:285-291 | level `i` has the base size divided by `2^i`, rounded down |
| `HiZ.BuildLayout` | SSRRF.cs:285-311 | level `k`'s three commands: allocate it at its size, reduce level `k-1` into it with exactly covering groups, copy it into mip `k` of level 0 |
| `HiZ.BuildHasNoRelease` | SSRRF.cs:285-311 | the build loop releases nothing |
| `HiZ.ReleaseCount` | SSRRF.cs:313-316 | the release loop releases each of levels 1..n exactly once and no other level |
| `HiZ.HiZLevelCount` | SSRRF.cs:285-316 | the whole chain releases levels 1..6 exactly once each, and level 0 and levels beyond 6 never |
| `HiZ.BuildRun` | SSRRF.cs:285-311 | the build loop replays without misuse and leaves levels 1..n live at their sizes beside the unchanged earlier targets |
| `HiZ.ReleaseRun` | SSRRF.cs:313-316 | the release loop replays without misuse and frees exactly the first `m` levels |
| `HiZ.HiZRun` | SSRRF.cs:270-317 | `DoHizDepth` replays without misuse, with or without the compute shader, and leaves exactly the targets live before it |
| `HiZ.HiZPlan` | SSRRF.cs:270-317 | the depth chain is empty without the compute shader, else 24 commands ending with the release of the deepest level; `HiZLevelCount` and `HiZRun` prove its releases and its replay |
| `HiZ.DoHizDepth` | SSRRF.cs:270-317 | appends exactly the depth-chain plan: nothing without the compute shader, else the six levels built and then released in order |
| `Blur.PyramidSizeClosedForm` | SSRRF.cs:527 | pyramid level `k` has the ceiling quotient of the screen size by `2^k` |
| `Blur.PyramidShrinks` | SSRRF.cs:527 | pyramid sizes never grow and stay at least 1 for a non-empty screen |
| `Blur.SlotsSizesAt` | SSRRF.cs:514-533 | `rtIDs[k]` is `_KawaseRT` for `k == 0` and `_KawaseRT<k-1>` otherwise, and `rtSizes[k]` is pyramid size `k` |
| `Blur.SizesShape` | SSRRF.cs:514-533 | `rtSizes` are the pyramid sizes, non-increasing, and positive for a non-empty screen |
| `Blur.DownPassRun` | SSRRF.cs:523-538 | the down loop replays without misuse and leaves levels 0..n-1 live at the next pyramid sizes |
| `Blur.UpStepOperands` | SSRRF.cs:556-565 | before up step `i`, its source and target are live and the target has size `rtSizes[i-1]` |
| `Blur.UpStepFrees` | SSRRF.cs:570 | releasing the source of step `i` leaves exactly the live set the next step expects |
| `Blur.UpLoopIds` | SSRRF.cs:556-568 | under the swap, `rtIDs[i]` is the step's source, `rtIDs[i-1]` its target, and the swap at the first step puts the intermediate at index `d` |
| `Blur.IntermediateLive` | SSRRF.cs:547-552 | the intermediate `_KawaseRT<d+1>` is not yet live and is allocated at `rtSizes[d]` |
| `Blur.UpStepsRun` | SSRRF.cs:554-571 | the up loop replays without misuse, each step freeing its source |
| `Blur.UpWalkEnd` | SSRRF.cs:554-572 | after the up loop `_KawaseRT<d-1>` is what `intermediateRTID` holds, and releasing it leaves the branch's final live set |
| `Blur.MultiBranchRun` | SSRRF.cs:546-573 | the multi-level branch replays without misuse and leaves exactly the targets live before plus `_KawaseRT` |
| `Blur.ZeroBranchRun` | SSRRF.cs:540-544 | the single-level branch replays without misuse and releases nothing: `_KawaseRT0` stays live |
| `Blur.UpPassRun` | SSRRF.cs:540-573 | either branch replays without misuse and leaves the branch's live set |
| `Blur.BlitBackRun` | SSRRF.cs:575-579 | the copy back and the release of `_KawaseRT` happen exactly when neither blur setting is 0 |
| `Blur.AfterBlur` | SSRRF.cs:540-579 | with several levels and the copy back, the blur leaves exactly the targets live before it |
| `Blur.BlurPlan` | SSRRF.cs:503-580 | the blur block starts by allocating `_KawaseRT` at screen size and, with the copy back, ends by copying it into the TAA target and releasing it; `BlurRun` and `MultiBranchReleases` prove its replay and its releases |
| `Blur.BlurRun` | SSRRF.cs:503-580 | the blur block replays without misuse for every depth; it leaks `_KawaseRT0` in the single-level case and `_KawaseRT` without the copy back |
| `Blur.UpStepReleases` | SSRRF.cs:561-570 | up step `i` releases its source once and nothing else |
| `Blur.UpStepsReleases` | SSRRF.cs:554-571 | the releases of the first `n` up steps are exactly the sources of those steps, counted with multiplicity |
| `Blur.UpSourceLevel` | SSRRF.cs:556-568 | each step releases one new level, none released earlier |
| `Blur.UpReleasedCount` | SSRRF.cs:554-571 | the up loop releases each level at most once and never `_KawaseRT` |
| `Blur.MultiBranchReleaseCount` | SSRRF.cs:546-573 | the multi-level branch's releases are the up loop's plus the final release of `_KawaseRT<d-1>` |
| `Blur.MultiBranchReleasesLevel` | SSRRF.cs:546-573 | each of `_KawaseRT0` .. `_KawaseRT<d+1>` is released exactly once |
| `Blur.MultiBranchKeepsTarget` | SSRRF.cs:546-573 | the multi-level branch never releases `_KawaseRT` |
| `Blur.MultiBranchReleases` | SSRRF.cs:546-573 | every pyramid level and the intermediate is released exactly once, and `rtIDs[0]` never |
| `Blur.DoKawaseSample` | SSRRF.cs:438-455 | appends one down- or upsample dispatch with groups exactly covering the target size, or nothing without the compute shader |
| `Blur.DoKawaseLinear` | SSRRF.cs:457-472 | appends one blend dispatch with groups exactly covering the source size, or nothing without the compute shader |
| `Blur.BuildPyramid` | SSRRF.cs:505-538 | returns `rtIDs`/`rtSizes` of length `d + 2` holding the pyramid ids and sizes, and appends `_KawaseRT` and the down loop |
| `Blur.WalkUp` | SSRRF.cs:546-573 | appends exactly the multi-level branch, swap included |
| `Blur.KawaseBlur` | SSRRF.cs:503-580 | appends exactly the blur plan for `FloorToInt(log2(radius + 1))` levels and the copy-back condition |
| `Pass.DebugBlit` | SSRRF.cs:486-497 | the debug view is a full-screen material blit with pass 2, 3 or 4 into one of the three hit targets |
| `Pass.TAAPlan` | SSRRF.cs:411-421 | `DoTAA` uploads the stored previous matrix and ends by copying the TAA target into the history target |
| `Pass.TAAUploadPrecedesBlend` | SSRRF.cs:414-417 | the only matrix `DoTAA` uploads is the stored previous one, and the blend with pass 6 comes after it |
| `Pass.ExecutePlan` | SSRRF.cs:474-588 | the frame starts by copying the camera target and ends by copying the composite back to it; `ExecuteRun`, `DebugSwitchIsLocal` and `DebugSwitchKeepsPasses` prove its replay and its debug switch |
| `Pass.SetupFrameReady` | SSRRF.cs:153-185 | after a complete setup every target a frame uses is live and no chain or pyramid level is |
| `Pass.FrontRun` | SSRRF.cs:481-500 | the copies, the depth chain, the ray march, the debug view, the resolve and TAA replay without misuse and change no live target |
| `Pass.TailRun` | SSRRF.cs:582-583 | the composite and the copy to the camera replay without misuse |
| `Pass.ReadyRun` | SSRRF.cs:474-588 | a frame over targets ready for it replays without misuse and leaves the blur's live set |
| `Pass.ExecuteRun` | SSRRF.cs:474-588 | a frame after a complete setup replays without misuse for every mode, setting and shader availability |
| `Pass.DebugSwitchIsLocal` | SSRRF.cs:486-497 | two debug modes give plans of equal length that differ only at the debug view |
| `Pass.DebugSwitchKeepsPasses` | SSRRF.cs:486-583 | in every mode the frame records the debug view, the resolve, the TAA blend with the stored matrix, the composite and the copy to the camera |
| `Pass.FrameStep` | SSRRF.cs:210 | one frame keeps the two registers equal, and changes them only when it is active, to its own matrix |
| `Pass.Replay` | SSRRF.cs:414-420 | between frames `_Pre_Matrix_VP` and `_Curr_Matrix_VP` hold the same matrix; `UploadIsLatestEarlier` names it |
| `Pass.LatestActive` | SSRRF.cs:210 | the latest active frame's matrix is the zero matrix or some active frame's matrix |
| `Pass.UploadIsLatestEarlier` | SSRRF.cs:414-420 | `_Pre_Matrix_VP` uploaded in a frame is the matrix of the latest earlier frame that reached `DoTAA` (zero before the first) |
| `Pass.UploadBeforeAnyActive` | SSRRF.cs:414-420 | while no frame has reached `DoTAA` the uploaded `_Pre_Matrix_VP` is the zero matrix |
| `Pass.UploadIsLastActive` | SSRRF.cs:414-420 | when frame `k` is active and no later frame is, the next upload is frame `k`'s matrix |
| `Pass.UploadIsNotCurrent` | SSRRF.cs:414-420 | a frame with a new matrix never uploads its own matrix as the previous one |
| `Pass.SSRRenderPass.constructor` | SSRRF.cs:120-131 | keeps the settings, copies the debug mode, records whether the material and the blue-noise texture were found, and starts both matrices at zero |
| `Pass.SSRRenderPass.Setup` | SSRRF.cs:133-136 | records the renderer and changes nothing else |
| `Pass.SSRRenderPass.InitRTI` | SSRRF.cs:216-231 | appends one allocation at the base size divided by the factor |
| `Pass.SSRRenderPass.InitRT` | SSRRF.cs:233-247 | appends one allocation at the divided size, and fails when there is no material |
| `Pass.SSRRenderPass.CreateTargets` | SSRRF.cs:153-185 | appends all eleven setup allocations in order, or only the first three when `_SSRHitData` cannot be bound |
| `Pass.SSRRenderPass.OnCameraSetup` | SSRRF.cs:138-214 | appends the setup plan, takes the camera size, and completes and stores the current matrix exactly when the renderer, the material and the blue-noise texture are present |
| `Pass.SSRRenderPass.DoTAA` | SSRRF.cs:411-421 | uploads the stored previous matrix, then makes the current matrix the previous one; nothing without a material |
| `Pass.SSRRenderPass.Execute` | SSRRF.cs:474-588 | appends exactly the frame plan when the renderer and the material are present, else nothing, and moves the matrix registers as `DoTAA` does |
| `Pass.RenderCamera` | SSRRF.cs:138-588 | one frame appends the setup plan followed, exactly when setup completes, by the frame plan with the matrix held before it; the registers move as `FrameStep` says, and an active frame's own commands upload that earlier matrix |

## Left out

- Floating point is modelled as exact reals. Any rounding of
  `GetRadius`, of the Halton sums and of `Mathf.Log(r + 1) / 0.693147181`
  is not captured. `downSampleCount` is computed exactly as the integer
  base-2 logarithm of `floor(radius) + 1`.
- Targets.DownSampleCount: states the exact `floor(log2(radius + 1))`.
  Near a power of two the single-precision `Mathf.Log` quotient may round
  to the other side, which the model does not capture.
- `offsetRatio` and the blur offsets are not modelled. They reach the
  shader only as uniforms.
- Matrices are opaque values. The matrix products and inverses, and the
  view, projection and inverse uploads other than `Matrix_VP`, are left
  out because they only feed shaders.
- Material uniforms, `GetTextureSizeParams`, the `_HiZTexSize` and
  `_SourceSize` vectors, `SetComputeTextureParam`, `SetGlobalTexture`,
  texture formats, filter modes and mip flags are left out. They configure
  shaders and do not change which targets exist or their sizes.
- `DoCopyDepth`, `DoResolved`, `DoCombine` and the debug views are single
  blits into existing targets. The ray march (`DoSSR`) is one draw;
  its `ExecuteCommandBuffer`/`Clear` and the render-state setup are not
  modelled.
- Resource lookups are booleans. Whether the material, the two compute
  shaders and the blue-noise texture were found is an input; loading them
  is outside the pass. `GetKernelThreadGroupSizes` is a parameter
  (`GroupSizes`).
- The `try`/`catch` blocks only log and rethrow. A `NullReferenceException`
  in `OnCameraSetup` is modelled as an early return with the commands
  recorded so far. It is thrown when there is no renderer, when there is no
  material once `InitRT` binds, and when there is no blue-noise texture
  once its size is read (line 192, after every allocation and before the
  matrix is stored). An exception out of `OnCameraSetup` leaves the
  renderer's setup, so `RenderCamera` does not execute that camera; the
  unwinding itself is not modelled.
- `Pass.SSRRenderPass.DoTAA`: the `_Pre_Matrix_VP` upload is a
  `Material.SetMatrix` call, which writes to the material at once and is
  not a command-buffer call. The
  model logs it as a `SetMatrix` command between the two blits, so that
  its order relative to the blend is part of the plan; the difference
  between recording time and execution time is not modelled.
- `CommandBufferPool`, `context.ExecuteCommandBuffer` and submission are
  left out. The model's command buffer is the recorded sequence.
- `OnCameraCleanup`, `Create` and `AddRenderPasses` are not part of this
  model. They release or register targets outside a frame.
- `Halton.TAA.GenerateRandomOffset` is modelled, but the pass never calls
  it, so no frame applies a jitter.
- Sharing one `PassSetting` object between the feature and its pass is
  left out. The pass holds a copy; inspector edits during play are not
  modelled.
- `Pass.SSRRenderPass.CreateTargets` groups the eleven `InitRTI`/`InitRT`
  calls of `OnCameraSetup` into one method. It adds no behaviour.
